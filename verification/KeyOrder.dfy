/** The order of sort.Strings, and why a set of keys has exactly one sorted list. */
module KeyOrder {

  predicate Less(a: string, b: string) {
    b != "" && (a == "" || a[0] < b[0] || (a[0] == b[0] && Less(a[1..], b[1..])))
  }

  predicate Ascending(l: seq<string>) {
    forall i, j :: 0 <= i < j < |l| ==> Less(l[i], l[j])
  }

  ghost predicate Lists(l: seq<string>, keys: set<string>) {
    Ascending(l) && forall k :: k in l <==> k in keys
  }

  /** The texts agree up to `n`, where the first one ends or has the smaller character. */
  predicate DecidedAt(a: string, b: string, n: int) {
    && 0 <= n <= |a| && n < |b| && a[..n] == b[..n]
    && (n == |a| || a[n] < b[n])
  }

  /** The order is that of dictionaries: a prefix comes first, and otherwise the first difference decides. */
  lemma {:induction false} LessIsLexicographic(a: string, b: string)
    ensures Less(a, b) <==> exists n :: DecidedAt(a, b, n)
  {
    if a == "" || b == "" || a[0] != b[0] {
      if b != "" && (a == "" || a[0] < b[0]) {
        assert DecidedAt(a, b, 0);
      }
      forall n | DecidedAt(a, b, n)
        ensures Less(a, b)
      {
        assert forall x :: 0 <= x < n ==> a[..n][x] == a[x] && b[..n][x] == b[x];
      }
    } else {
      LessIsLexicographic(a[1..], b[1..]);
      if n :| DecidedAt(a[1..], b[1..], n) {
        assert a[..n + 1] == [a[0]] + a[1..][..n] && b[..n + 1] == [b[0]] + b[1..][..n];
        assert DecidedAt(a, b, n + 1);
      }
      if n :| DecidedAt(a, b, n) {
        assert n > 0;
        assert a[1..][..n - 1] == a[..n][1..] && b[1..][..n - 1] == b[..n][1..];
        assert DecidedAt(a[1..], b[1..], n - 1);
      }
    }
  }

  lemma {:induction false} LessIrreflexive(a: string)
    ensures !Less(a, a)
  {
    if a != "" {
      LessIrreflexive(a[1..]);
    }
  }

  lemma {:induction false} LessTransitive(a: string, b: string, c: string)
    requires Less(a, b) && Less(b, c)
    ensures Less(a, c)
  {
    if a != "" && a[0] == b[0] == c[0] {
      LessTransitive(a[1..], b[1..], c[1..]);
    }
  }

  lemma {:induction false} LessTotal(a: string, b: string)
    ensures a == b || Less(a, b) || Less(b, a)
  {
    if a != "" && b != "" && a[0] == b[0] {
      LessTotal(a[1..], b[1..]);
      if a[1..] == b[1..] {
        assert a == [a[0]] + a[1..];
        assert b == [b[0]] + b[1..];
      }
    }
  }

  lemma AscendingDistinct(l: seq<string>, i: nat, j: nat)
    requires Ascending(l) && i < j < |l|
    ensures l[i] != l[j]
  {
    LessIrreflexive(l[i]);
  }

  /** The sorted list of a set of keys is unique: no iteration order can show through. */
  lemma {:induction false} SortedListUnique(a: seq<string>, b: seq<string>, keys: set<string>)
    requires Lists(a, keys) && Lists(b, keys)
    ensures a == b
    decreases |a|
  {
    assert a != [] ==> a[0] in b;
    assert b != [] ==> b[0] in a;
    if a != [] {
      FirstIsLeast(a, b[0]);
      FirstIsLeast(b, a[0]);
      if a[0] != b[0] {
        LessTransitive(a[0], b[0], a[0]);
        LessIrreflexive(a[0]);
      }
      RestLists(a, keys);
      RestLists(b, keys);
      SortedListUnique(a[1..], b[1..], keys - {a[0]});
      assert a == [a[0]] + a[1..] && b == [b[0]] + b[1..];
    }
  }

  lemma FirstIsLeast(l: seq<string>, k: string)
    requires Ascending(l) && k in l
    ensures l[0] == k || Less(l[0], k)
  {
  }

  lemma RestLists(l: seq<string>, keys: set<string>)
    requires Lists(l, keys) && l != []
    ensures Lists(l[1..], keys - {l[0]})
  {
    forall k
      ensures k in l[1..] <==> k in keys - {l[0]}
    {
      if k in l[1..] {
        var j :| 0 <= j < |l| - 1 && l[1..][j] == k;
        AscendingDistinct(l, 0, j + 1);
      }
    }
  }

  // ----- Sorting -----

  function Insert(l: seq<string>, k: string): (r: seq<string>)
    ensures forall x :: x in r <==> x in l || x == k
  {
    if l == [] then [k]
    else if Less(l[0], k) then [l[0]] + Insert(l[1..], k)
    else [k] + l
  }

  /** sort.Strings (stable insertion stands in for the library's algorithm). */
  function Sort(s: seq<string>): (r: seq<string>)
    ensures forall x :: x in r <==> x in s
  {
    if s == [] then [] else Insert(Sort(s[..|s| - 1]), s[|s| - 1])
  }

  lemma {:induction false} InsertAscending(l: seq<string>, k: string)
    requires Ascending(l) && k !in l
    ensures Ascending(Insert(l, k))
  {
    if l != [] {
      LessTotal(l[0], k);
      if Less(l[0], k) {
        InsertAscending(l[1..], k);
        forall x | x in Insert(l[1..], k)
          ensures Less(l[0], x)
        {
          if x != k {
            assert x in l[1..];
          }
        }
      } else {
        forall x | x in l
          ensures Less(k, x)
        {
          if x != l[0] {
            LessTransitive(k, l[0], x);
          }
        }
      }
    }
  }

  lemma {:induction false} SortAscending(s: seq<string>)
    requires forall i, j :: 0 <= i < j < |s| ==> s[i] != s[j]
    ensures Ascending(Sort(s))
  {
    if s != [] {
      SortAscending(s[..|s| - 1]);
      InsertAscending(Sort(s[..|s| - 1]), s[|s| - 1]);
    }
  }
}
