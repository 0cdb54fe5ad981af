/** Java's natural ordering of strings (`String.compareTo`, used by `sorted()`), compared
    character by character with a proper prefix first, and the sorting of a set of strings. */
module StringOrder {

  /** `a.compareTo(b) <= 0`. */
  predicate StrLe(a: string, b: string) {
    |a| == 0 || (|b| > 0 && (a[0] < b[0] || (a[0] == b[0] && StrLe(a[1..], b[1..]))))
  }

  /** Strictly increasing: sorted and without duplicates. */
  predicate StrictlySorted(s: seq<string>) {
    forall i, j :: 0 <= i < j < |s| ==> StrLe(s[i], s[j]) && s[i] != s[j]
  }

  lemma {:induction false} StrLeTotal(a: string, b: string)
    ensures StrLe(a, b) || StrLe(b, a)
  {
    if |a| > 0 && |b| > 0 && a[0] == b[0] {
      StrLeTotal(a[1..], b[1..]);
    }
  }

  lemma {:induction false} StrLeTransitive(a: string, b: string, c: string)
    requires StrLe(a, b) && StrLe(b, c)
    ensures StrLe(a, c)
  {
    if |a| > 0 && |b| > 0 && |c| > 0 && a[0] == b[0] && b[0] == c[0] {
      StrLeTransitive(a[1..], b[1..], c[1..]);
    }
  }

  lemma {:induction false} StrLeAntisymmetric(a: string, b: string)
    requires StrLe(a, b) && StrLe(b, a)
    ensures a == b
  {
    if |a| > 0 && |b| > 0 {
      StrLeAntisymmetric(a[1..], b[1..]);
      assert a == [a[0]] + a[1..] && b == [b[0]] + b[1..];
    }
  }

  /** Every non-empty finite set of strings has a least element. */
  lemma {:induction false} LeastExists(s: set<string>) returns (m: string)
    requires s != {}
    ensures m in s && forall x :: x in s ==> StrLe(m, x)
    decreases |s|
  {
    var y :| y in s;
    if s == {y} {
      m := y;
      StrLeTotal(y, y);
    } else {
      var rest := LeastExists(s - {y});
      StrLeTotal(rest, y);
      if StrLe(rest, y) {
        m := rest;
      } else {
        m := y;
        forall x | x in s ensures StrLe(m, x) {
          if x != y {
            StrLeTransitive(y, rest, x);
          } else {
            StrLeTotal(y, y);
          }
        }
      }
    }
  }

  /** `set.stream().sorted().toList()`: the elements of `s` in increasing order, by repeatedly
      taking the least remaining one. */
  method SortedList(s: set<string>) returns (r: seq<string>)
    ensures StrictlySorted(r)
    ensures forall x :: x in r <==> x in s
    ensures |r| == |s|
  {
    r := [];
    var remaining := s;
    while remaining != {}
      invariant remaining !! set x | x in r
      invariant forall x :: x in s <==> x in r || x in remaining
      invariant StrictlySorted(r)
      invariant forall i, x :: 0 <= i < |r| && x in remaining ==> StrLe(r[i], x)
      invariant |r| + |remaining| == |s|
      decreases |remaining|
    {
      ghost var least := LeastExists(remaining);
      var m :| m in remaining && forall x :: x in remaining ==> StrLe(m, x);
      forall i, x | 0 <= i < |r| && x in remaining - {m} ensures StrLe(r[i], x) {
      }
      forall i | 0 <= i < |r| ensures r[i] != m {
        assert r[i] in set x | x in r;
      }
      r := r + [m];
      remaining := remaining - {m};
    }
  }
}
