/** Sub-domain extraction in the tenant client (`keymatic-client/src/utils/tenant.ts`),
    which also fixes the client's `TENANT_SLUG` at start-up. */
module KeymaticTenant {
  import opened Common

  const LocalhostNames: set<string> := {"localhost", "127.0.0.1", "::1"}

  /** All labels but the last (`parts.slice(0, -1)`). */
  function AllButLast(parts: seq<string>): seq<string>
    requires |parts| >= 1
  {
    parts[..|parts| - 1]
  }

  /** `extractSubdomain(hostname)`. */
  function ExtractSubdomain(hostname: string): (r: Option<string>)
    ensures hostname == "" || ToLower(hostname) in LocalhostNames ==> r == None
    ensures r.Some? ==> IsLowerCase(r.value)
  {
    if hostname == "" then None
    else
      var normalized := ToLower(hostname);
      if normalized in LocalhostNames then None
      else
        var parts := Split(normalized, '.');
        if |parts| <= 1 then None
        else if parts[|parts| - 1] == "localhost" then
          LowerJoin(AllButLast(parts), normalized);
          Some(Join(AllButLast(parts), "."))
        else
          LowerPieces(normalized);
          Some(parts[0])
  }

  /** `getTenantFromHostname()`: null outside a browser. */
  function TenantSlug(hasWindow: bool, hostname: string): (r: Option<string>)
    ensures !hasWindow ==> r == None
    ensures r.Some? ==> IsLowerCase(r.value)
  {
    if !hasWindow then None else ExtractSubdomain(hostname)
  }

  // ----------------------------------------------------------------- lemmas

  /** Every piece of a lower-case string is lower-case. */
  lemma {:induction false} LowerPieces(s: string)
    requires IsLowerCase(s)
    ensures forall k :: 0 <= k < |Split(s, '.')| ==> IsLowerCase(Split(s, '.')[k])
  {
    if |s| > 0 {
      LowerPieces(s[1..]);
    }
  }

  /** Joining lower-case pieces of a lower-case string gives a lower-case string. */
  lemma LowerJoin(prefix: seq<string>, s: string)
    requires IsLowerCase(s) && |Split(s, '.')| >= 1 && prefix <= Split(s, '.')
    ensures IsLowerCase(Join(prefix, "."))
  {
    LowerPieces(s);
    JoinLower(prefix);
  }

  lemma {:induction false} JoinLower(parts: seq<string>)
    requires forall k :: 0 <= k < |parts| ==> IsLowerCase(parts[k])
    ensures IsLowerCase(Join(parts, "."))
  {
    if |parts| > 1 {
      JoinLower(parts[1..]);
    }
  }

  /** Joining with the separator and then splitting again gives back pieces without the
      separator; used to relate the `localhost` case to the original host. */
  lemma {:induction false} JoinAppend(parts: seq<string>, sep: string)
    requires |parts| >= 2
    ensures Join(parts, sep) == Join(AllButLast(parts), sep) + sep + parts[|parts| - 1]
  {
    if |parts| > 2 {
      JoinAppend(parts[1..], sep);
      assert AllButLast(parts)[1..] == AllButLast(parts[1..]);
    }
  }

  /** For a `*.localhost` host the tenant is everything before the final `.localhost`. */
  lemma LocalhostTenantIsPrefix(hostname: string)
    requires ExtractSubdomain(hostname).Some?
    requires EndsWith(ToLower(hostname), ".localhost")
    ensures ExtractSubdomain(hostname).value + ".localhost" == ToLower(hostname)
  {
    var n := ToLower(hostname);
    var parts := Split(n, '.');
    var pre := n[..|n| - 10];
    assert n == pre + ['.'] + "localhost";
    LastPiece(pre, "localhost");
    JoinSplit(n, '.');
    JoinAppend(parts, ".");
  }

  /** The last piece of `pre.last` is `last` when `last` holds no separator. */
  lemma {:induction false} LastPiece(pre: string, last: string)
    requires '.' !in last
    ensures Split(pre + ['.'] + last, '.')[|Split(pre + ['.'] + last, '.')| - 1] == last
    ensures |Split(pre + ['.'] + last, '.')| >= 2
  {
    if |pre| == 0 {
      assert pre + ['.'] + last == ['.'] + last;
      SplitNoSep(last, '.');
    } else {
      assert (pre + ['.'] + last)[1..] == pre[1..] + ['.'] + last;
      LastPiece(pre[1..], last);
    }
  }

  /** A host of a single label has no tenant. */
  lemma SingleLabelHasNoTenant(hostname: string)
    requires '.' !in hostname
    ensures ExtractSubdomain(hostname) == None
  {
    if hostname != "" {
      assert forall i :: 0 <= i < |hostname| ==> ToLower(hostname)[i] == '.' ==> hostname[i] == '.';
      assert '.' !in ToLower(hostname);
      SplitNoSep(ToLower(hostname), '.');
    }
  }

  /** Any other host gives its first label, the text before the first dot. */
  lemma FirstLabelOtherwise(hostname: string)
    requires ExtractSubdomain(hostname).Some?
    requires !EndsWith(ToLower(hostname), ".localhost")
    ensures ExtractSubdomain(hostname).value + "." <= ToLower(hostname)
    ensures '.' !in ExtractSubdomain(hostname).value
  {
    var n := ToLower(hostname);
    var parts := Split(n, '.');
    JoinSplit(n, '.');
    JoinAppend(parts, ".");
    LastLabelLocalhost(parts);
    var last := parts[|parts| - 1];
    assert last != "localhost";
    assert n == parts[0] + "." + Join(parts[1..], ".");
    SplitPiecesAvoidSeparator(n, '.');
    assert forall j :: 0 <= j < |parts[0]| ==> parts[0][j] != '.';
  }

  /** Labels whose last one is `localhost` join to a name ending in `.localhost`. */
  lemma LastLabelLocalhost(parts: seq<string>)
    requires |parts| >= 2
    ensures parts[|parts| - 1] == "localhost" ==> EndsWith(Join(parts, "."), ".localhost")
  {
    JoinAppend(parts, ".");
    var joined := Join(parts, ".");
    if parts[|parts| - 1] == "localhost" {
      assert joined == Join(AllButLast(parts), ".") + ".localhost";
      assert joined[|joined| - 10..] == ".localhost";
    }
  }

  /** Host names are matched without regard to case. */
  lemma UpperCaseLocalhost()
    ensures ExtractSubdomain("LOCALHOST") == None
  {
    assert ToLower("LOCALHOST") == "localhost";
  }
}
