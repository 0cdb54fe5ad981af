/** Slug validation and the names derived from a slug on the tenant service: the PostgreSQL
    database name, the default admin e-mail and the admin's first name
    (`TenantProvisioningService`, `TenantOnboardingService`, `DatabaseCreationDelegate`). */
module TenantNaming {
  import opened Common

  /** PostgreSQL's identifier length limit. */
  const MaxDatabaseNameLength := 63
  const BlankSlugMessage := "Slug cannot be null or empty"
  const EmptyNameMessage := "Invalid slug: results in empty database name"

  predicate IsSlugChar(c: char) { 'a' <= c <= 'z' || IsDigit(c) || c == '-' }

  /** `^[a-z0-9\-]+$` */
  predicate MatchesSlugPattern(s: string) {
    |s| > 0 && forall i :: 0 <= i < |s| ==> IsSlugChar(s[i])
  }

  /** Lower-case, then '-' becomes '_'. */
  function Underscored(slug: string): (r: string)
    ensures |r| == |slug|
  {
    ReplaceChar(ToLower(slug), '-', '_')
  }

  /** The steps every copy of `buildDatabaseNameFromSlug` takes once the slug is known to be
      present, as written: the empty check, the `t_` prefix for a leading digit, and truncation. */
  function NameAsWritten(slug: string): (r: Result<string, string>)
    ensures r.Ok? <==> slug != ""
    ensures r.Err? ==> r.error == EmptyNameMessage
  {
    var name := Underscored(slug);
    if name == "" then Err(EmptyNameMessage)
    else
      var prefixed := if IsDigit(name[0]) then "t_" + name else name;
      Ok(Truncated(prefixed))
  }

  function Truncated(name: string): (r: string)
    ensures |r| <= MaxDatabaseNameLength && r <= name
    ensures |name| <= MaxDatabaseNameLength ==> r == name
  {
    if |name| > MaxDatabaseNameLength then name[..MaxDatabaseNameLength] else name
  }

  /** The same steps, with the `t_` prefix also given to names that already start with `t_`, so
      that a prefixed name can no longer equal the name of another slug. */
  function NameFromNonNullSlug(slug: string): (r: Result<string, string>)
    ensures r.Ok? <==> slug != ""
    ensures r.Err? ==> r.error == EmptyNameMessage
  {
    var name := Underscored(slug);
    if name == "" then Err(EmptyNameMessage)
    else
      var prefixed := if IsDigit(name[0]) || "t_" <= name then "t_" + name else name;
      Ok(Truncated(prefixed))
  }

  /** `buildDatabaseNameFromSlug` of the provisioning and onboarding services. */
  function DatabaseNameFromSlug(slug: Option<string>): (r: Result<string, string>)
    ensures r.Ok? <==> slug.Some? && !IsBlank(slug.value)
    ensures r.Ok? ==> 0 < |r.value| <= MaxDatabaseNameLength && !IsDigit(r.value[0])
  {
    if slug.None? || IsBlank(slug.value) then Err(BlankSlugMessage)
    else NameAsWritten(slug.value)
  }

  /** The workflow delegate's copy, which has no blank check of its own. */
  function DelegateDatabaseName(slug: string): (r: Result<string, string>)
    ensures r.Ok? <==> slug != ""
    ensures r.Err? ==> r.error == EmptyNameMessage
    ensures r.Ok? ==> 0 < |r.value| <= MaxDatabaseNameLength && !IsDigit(r.value[0])
  {
    NameAsWritten(slug)
  }

  /** `adminEmail` when given (trimmed and lower-cased), else `admin@<slug>.local`. */
  function DefaultAdminEmail(adminEmail: Option<string>, slug: string): string {
    if adminEmail.None? || IsBlank(adminEmail.value) then "admin@" + slug + ".local"
    else ToLower(Trim(adminEmail.value))
  }

  /** Java's `String.split(sep)`: like JavaScript's, but trailing empty pieces are dropped
      (a non-empty text made only of separators gives no piece at all). */
  function JavaSplit(s: string, sep: char): seq<string> {
    if s == "" then [""] else DropTrailingEmpty(Split(s, sep))
  }

  function DropTrailingEmpty(parts: seq<string>): (r: seq<string>)
    ensures |r| <= |parts| && r == parts[..|r|]
    ensures r == [] || r[|r| - 1] != ""
    ensures forall k :: |r| <= k < |parts| ==> parts[k] == ""
  {
    if parts == [] || parts[|parts| - 1] != "" then parts
    else DropTrailingEmpty(parts[..|parts| - 1])
  }

  /** The admin's first name in the tenant database: the e-mail's local part with its first letter
      upper-cased, or "Admin". `None` when `email.split("@")[0]` throws, which the caller
      swallows, so no tenant-database user is written. */
  function FirstNameFromEmail(email: string): Option<string> {
    if !Contains(email, "@") then Some("Admin")
    else
      var parts := JavaSplit(email, '@');
      if parts == [] then None
      else
        var localPart := parts[0];
        if localPart == "" then Some("Admin") else Some([UpperChar(localPart[0])] + localPart[1..])
  }

  // ----------------------------------------------------------------- lemmas

  /** On a slug that passed validation the database name uses only [a-z0-9_] and starts with a
      letter or an underscore, as PostgreSQL requires of unquoted names. */
  lemma ValidSlugDatabaseName(slug: string)
    requires MatchesSlugPattern(slug)
    ensures DatabaseNameFromSlug(Some(slug)).Ok?
    ensures var name := DatabaseNameFromSlug(Some(slug)).value;
            (forall i :: 0 <= i < |name| ==> 'a' <= name[i] <= 'z' || IsDigit(name[i]) || name[i] == '_')
            && ('a' <= name[0] <= 'z' || name[0] == '_')
  {
    assert !IsSpace(slug[0]);
    var name := Underscored(slug);
    assert forall i :: 0 <= i < |name| ==> 'a' <= name[i] <= 'z' || IsDigit(name[i]) || name[i] == '_';
  }

  /** The delegate computes the same name as the services whenever they accept the slug. */
  lemma DelegateAgrees(slug: string)
    requires !IsBlank(slug)
    ensures DelegateDatabaseName(slug) == DatabaseNameFromSlug(Some(slug))
  {
  }

  /** The empty-name check never fires after the blank check. */
  lemma EmptyNameUnreachable(slug: Option<string>)
    ensures DatabaseNameFromSlug(slug).Err? ==> DatabaseNameFromSlug(slug).error == BlankSlugMessage
  {
  }

  /** '-' to '_' loses nothing on validated slugs, which have no '_'. */
  lemma UnderscoredInjective(a: string, b: string)
    requires MatchesSlugPattern(a) && MatchesSlugPattern(b)
    requires Underscored(a) == Underscored(b)
    ensures a == b
  {
    forall i | 0 <= i < |a|
      ensures a[i] == b[i]
    {
      assert Underscored(a)[i] == Underscored(b)[i];
    }
  }

  /** As written, the slug "1a" and the slug "t-1a" are both given the database "t_1a", by the
      services and by the delegate alike. */
  lemma DigitPrefixCollision()
    ensures MatchesSlugPattern("1a") && MatchesSlugPattern("t-1a")
    ensures NameAsWritten("1a") == NameAsWritten("t-1a") == Ok("t_1a")
    ensures DatabaseNameFromSlug(Some("1a")) == DatabaseNameFromSlug(Some("t-1a")) == Ok("t_1a")
  {
    assert !IsBlank("1a") by { assert !IsSpace("1a"[0]); }
    assert !IsBlank("t-1a") by { assert !IsSpace("t-1a"[0]); }
    assert Underscored("1a") == "1a";
    assert Underscored("t-1a") == "t_1a";
    assert "t_" + "1a" == "t_1a";
    assert Truncated("t_1a") == "t_1a";
  }

  /** With the corrected prefix rule, distinct valid slugs short enough to escape truncation get
      distinct databases. */
  lemma ShortSlugsGetDistinctDatabases(a: string, b: string)
    requires MatchesSlugPattern(a) && MatchesSlugPattern(b)
    requires |a| <= MaxDatabaseNameLength - 2 && |b| <= MaxDatabaseNameLength - 2
    requires NameFromNonNullSlug(a) == NameFromNonNullSlug(b)
    ensures a == b
  {
    var na, nb := Underscored(a), Underscored(b);
    var pa := IsDigit(na[0]) || "t_" <= na;
    var pb := IsDigit(nb[0]) || "t_" <= nb;
    if pa && pb {
      assert ("t_" + na)[2..] == na && ("t_" + nb)[2..] == nb;
    } else if pa {
      assert false;
    } else if pb {
      assert false;
    }
    UnderscoredInjective(a, b);
  }

  /** Slugs may be up to 100 characters, so two valid slugs that agree on their first 63
      characters (and start with a letter) are given the same database. */
  lemma LongSlugsShareDatabase(a: string, b: string)
    requires MatchesSlugPattern(a) && MatchesSlugPattern(b)
    requires |a| >= MaxDatabaseNameLength && |b| >= MaxDatabaseNameLength
    requires a[..MaxDatabaseNameLength] == b[..MaxDatabaseNameLength] && 'a' <= a[0] <= 'z'
    ensures DatabaseNameFromSlug(Some(a)) == DatabaseNameFromSlug(Some(b))
  {
    assert !IsSpace(a[0]) && !IsSpace(b[0]);
    assert b[0] == b[..MaxDatabaseNameLength][0] == a[..MaxDatabaseNameLength][0] == a[0];
    var na, nb := Underscored(a), Underscored(b);
    assert na[..MaxDatabaseNameLength] == nb[..MaxDatabaseNameLength] by {
      forall i | 0 <= i < MaxDatabaseNameLength
        ensures na[i] == nb[i]
      {
        assert a[i] == a[..MaxDatabaseNameLength][i] == b[..MaxDatabaseNameLength][i] == b[i];
      }
    }
    assert !IsDigit(na[0]) && !IsDigit(nb[0]);
    assert Truncated(na) == na[..MaxDatabaseNameLength];
    assert Truncated(nb) == nb[..MaxDatabaseNameLength];
  }

  /** A given e-mail is trimmed and lower-cased; a missing or blank one is replaced by the default. */
  lemma AdminEmailNormalised(adminEmail: Option<string>, slug: string)
    ensures var e := DefaultAdminEmail(adminEmail, slug);
            (adminEmail.None? || IsBlank(adminEmail.value) ==> e == "admin@" + slug + ".local")
            && (adminEmail.Some? && !IsBlank(adminEmail.value) ==>
                  IsLowerCase(e) && e != "" && !IsSpace(e[0]) && !IsSpace(e[|e| - 1]))
  {
    if adminEmail.Some? && !IsBlank(adminEmail.value) {
      var t := Trim(adminEmail.value);
      TrimEmptyIffBlank(adminEmail.value);
      TrimStartNoLeadingSpace(adminEmail.value);
      TrimEndNoTrailingSpace(TrimStart(adminEmail.value));
      ToLowerIsLower(t);
      assert t[0] == TrimStart(adminEmail.value)[0];
    }
  }

  /** The local part of `local@domain` gives the first name, capitalised. */
  lemma FirstNameOfPlainEmail(local: string, domain: string)
    requires local != "" && '@' !in local && '@' !in domain
    ensures FirstNameFromEmail(local + "@" + domain) == Some([UpperChar(local[0])] + local[1..])
  {
    var email := local + "@" + domain;
    ContainsAt(email, "@", |local|);
    SplitCons(local, domain, '@');
    SplitNoSep(domain, '@');
    assert email == local + ['@'] + domain;
    var parts := Split(email, '@');
    assert parts == [local, domain];
    var kept := DropTrailingEmpty(parts);
    assert parts[0] != "";
    assert |kept| > 0;
    assert kept[0] == parts[0];
    assert JavaSplit(email, '@') == kept;
  }

  /** Without an '@' the first name is "Admin"; an e-mail made only of '@' makes the lookup throw. */
  lemma FirstNameDefaults(email: string)
    ensures !Contains(email, "@") ==> FirstNameFromEmail(email) == Some("Admin")
    ensures email == "@" ==> FirstNameFromEmail(email).None?
  {
    if email == "@" {
      assert Split(email, '@') == ["", ""];
      ContainsAt(email, "@", 0);
    }
  }
}
