/** The front-end's UUID recogniser: a version 1-5, variant 8/9/a/b UUID in the
    canonical 8-4-4-4-12 layout, letters in either case, tested after trimming. */
module Uuid {
  import opened Common

  predicate IsHex(c: char) {
    IsDigit(c) || 'a' <= c <= 'f' || 'A' <= c <= 'F'
  }

  /** What the regular expression demands of the character at position `i`. */
  predicate SlotAccepts(i: int, c: char) {
    if i == 8 || i == 13 || i == 18 || i == 23 then c == '-'
    else if i == 14 then '1' <= c <= '5'
    else if i == 19 then c in {'8', '9', 'a', 'b', 'A', 'B'}
    else IsHex(c)
  }

  /** The anchored, case-insensitive pattern, whole string. */
  predicate MatchesUuidPattern(s: string) {
    |s| == 36 && forall i :: 0 <= i < 36 ==> SlotAccepts(i, s[i])
  }

  /** `isUuid(value)`: false for null, undefined or '', else the pattern test on the trimmed value. */
  predicate IsUuid(v: Option<string>)
    ensures v.None? || v == Some("") ==> !IsUuid(v)
    ensures IsUuid(v) ==> && |Trim(v.value)| == 36
                          && Trim(v.value)[8] == '-' && Trim(v.value)[13] == '-'
                          && Trim(v.value)[18] == '-' && Trim(v.value)[23] == '-'
                          && '1' <= Trim(v.value)[14] <= '5'
  {
    Truthy(v) && MatchesUuidPattern(Trim(v.value))
  }

  /** A string that matches the pattern has no white space at either end. */
  lemma PatternHasNoSpace(s: string)
    requires MatchesUuidPattern(s)
    ensures Trim(s) == s
  {
    assert SlotAccepts(0, s[0]) && SlotAccepts(35, s[35]);
    TrimOfTrimmed(s);
  }

  /** The value the resolver returns, the trimmed candidate, is itself a UUID. */
  lemma {:induction false} TrimmedUuidIsUuid(s: string)
    requires IsUuid(Some(s))
    ensures IsUuid(Some(Trim(s)))
    ensures |Trim(s)| == 36
  {
    TrimIdempotent(s);
  }

  /** The test is exactly "present, non-empty, and the trimmed text matches". */
  lemma IsUuidCases(v: Option<string>)
    ensures v == None ==> !IsUuid(v)
    ensures v == Some("") ==> !IsUuid(v)
    ensures IsUuid(v) ==> |Trim(v.value)| == 36 && Trim(v.value)[8] == '-' && '1' <= Trim(v.value)[14] <= '5'
  {
    if IsUuid(v) {
      assert SlotAccepts(8, Trim(v.value)[8]) && SlotAccepts(14, Trim(v.value)[14]);
    }
  }

  /** The comparison ignores letter case: lower-casing an accepted value keeps it accepted. */
  lemma {:induction false} PatternIgnoresCase(s: string)
    requires MatchesUuidPattern(s)
    ensures MatchesUuidPattern(ToLower(s))
  {
    forall i | 0 <= i < 36 ensures SlotAccepts(i, ToLower(s)[i]) {
      assert SlotAccepts(i, s[i]);
    }
  }

  /** A sample version-4 identifier is accepted. */
  lemma SampleAccepted()
    ensures IsUuid(Some("123e4567-e89b-42d3-a456-426614174000"))
  {
    var u := "123e4567-e89b-42d3-a456-426614174000";
    assert MatchesUuidPattern(u) by {
      forall i | 0 <= i < 36 ensures SlotAccepts(i, u[i]) { }
    }
    PatternHasNoSpace(u);
  }

  /** A tenant slug is never mistaken for a UUID. */
  lemma SlugRejected()
    ensures !IsUuid(Some("acme"))
  {
  }
}
