/** Column names: filling of empty header cells, de-duplication in the manner of pandas, the
    ordered union of two header rows, and the alignment of its columns with both files. */
module Headers {
  import opened Text
  import opened Decimal

  predicate Distinct<T(==)>(s: seq<T>) {
    forall i, j :: 0 <= i < j < |s| ==> s[i] != s[j]
  }

  // ----- normalizeHeaders -----

  function FilledCell(v: string, i: nat): string {
    var s := TrimSpace(v);
    if s == "" then "Unnamed: " + Digits(i) else s
  }

  function Filled(raw: seq<string>): seq<string> {
    seq(|raw|, i requires 0 <= i < |raw| => FilledCell(raw[i], i))
  }

  /** How often `x` occurs among the first `n` columns. */
  function Count(h: seq<string>, n: nat, x: string): nat
    requires n <= |h|
  {
    if n == 0 then 0 else Count(h, n - 1, x) + if h[n - 1] == x then 1 else 0
  }

  function Suffixed(name: string, c: nat): string {
    name + "." + Digits(c)
  }

  /** The i-th column keeps its name if it is the first of that name, and counts on from 1 otherwise. */
  function Deduped(h: seq<string>, i: nat): string
    requires i < |h|
  {
    var c := Count(h, i, h[i]);
    if c == 0 then h[i] else Suffixed(h[i], c)
  }

  method FillCell(raw: seq<string>, ghost filled: seq<string>, i: nat) returns (s: string)
    requires i < |raw| && filled == Filled(raw)
    ensures s == filled[i]
  {
    s := TrimSpace(raw[i]);
    if s == "" {
      s := "Unnamed: " + Digits(i);
    }
  }

  /** The program's first loop: trim, and name the empty cells. */
  method FillAll(raw: seq<string>, ghost filled: seq<string>) returns (h: seq<string>)
    requires filled == Filled(raw)
    ensures h == filled
  {
    h := [];
    for i := 0 to |raw|
      invariant h == filled[..i]
    {
      var s := FillCell(raw, filled, i);
      h := h + [s];
    }
  }

  method FillHeaders(raw: seq<string>) returns (h: seq<string>)
    ensures h == Filled(raw)
  {
    h := FillAll(raw, Filled(raw));
  }

  /** The program's second loop, with its counter per name. */
  method DedupeHeaders(h: seq<string>) returns (out: seq<string>)
    ensures |out| == |h|
    ensures forall i :: 0 <= i < |h| ==> out[i] == Deduped(h, i)
  {
    var seen: map<string, nat> := map[];
    out := [];
    for i := 0 to |h|
      invariant |out| == i
      invariant forall k :: 0 <= k < i ==> out[k] == Deduped(h, k)
      invariant forall x :: x in seen <==> Count(h, i, x) > 0
      invariant forall x :: x in seen ==> seen[x] == Count(h, i, x) - 1
    {
      var name := h[i];
      if name in seen {
        var c := seen[name] + 1;
        seen := seen[name := c];
        out := out + [name + "." + Digits(c)];
      } else {
        seen := seen[name := 0];
        out := out + [name];
      }
    }
  }

  method NormalizeHeaders(raw: seq<string>) returns (out: seq<string>)
    ensures out == NormalHeaders(raw)
  {
    var h := FillHeaders(raw);
    out := DedupeHeaders(h);
  }

  function NormalHeaders(raw: seq<string>): seq<string> {
    seq(|raw|, i requires 0 <= i < |raw| => Deduped(Filled(raw), i))
  }

  /** Some column is named like the c-th repetition of another. */
  ghost predicate Collides(h: seq<string>) {
    exists i, j, c: nat {:trigger h[i], Suffixed(h[j], c)} ::
      0 <= i < |h| && 0 <= j < |h| && 1 <= c < Count(h, |h|, h[j]) && h[i] == Suffixed(h[j], c)
  }

  lemma {:induction false} CountMonotone(h: seq<string>, i: nat, j: nat, x: string)
    requires i <= j <= |h|
    ensures Count(h, i, x) <= Count(h, j, x)
    decreases j - i
  {
    if i < j {
      CountMonotone(h, i, j - 1, x);
    }
  }

  lemma CountGrows(h: seq<string>, i: nat, j: nat)
    requires i < j <= |h|
    ensures Count(h, i, h[i]) < Count(h, j, h[i])
  {
    CountMonotone(h, i + 1, j, h[i]);
  }

  /** Every smaller count is reached on the way. */
  lemma {:induction false} CountReaches(h: seq<string>, n: nat, x: string, c: nat)
    requires n <= |h| && c < Count(h, n, x)
    ensures exists i :: 0 <= i < n && h[i] == x && Count(h, i, x) == c
    decreases n
  {
    if !(h[n - 1] == x && Count(h, n - 1, x) == c) {
      CountReaches(h, n - 1, x, c);
    }
  }

  lemma DedupedPair(h: seq<string>, i: nat, j: nat)
    requires i < j < |h| && Deduped(h, i) == Deduped(h, j)
    ensures Collides(h)
  {
    var ci, cj := Count(h, i, h[i]), Count(h, j, h[j]);
    CountGrows(h, i, |h|);
    CountGrows(h, j, |h|);
    if h[i] == h[j] {
      CountGrows(h, i, j);
    }
    if ci == 0 && cj != 0 {
      assert h[i] == Suffixed(h[j], cj);
    } else if ci != 0 && cj == 0 {
      assert h[j] == Suffixed(h[i], ci);
    } else if ci != 0 && cj != 0 {
      SuffixInjective(h[i], h[j], '.', ci, cj);
    }
  }

  /** A column named like a repetition of another gets the very name of that repetition. */
  lemma CollisionRepeats(h: seq<string>)
    requires Collides(h)
    ensures exists f, k :: 0 <= f < |h| && 0 <= k < |h| && f != k && Deduped(h, f) == Deduped(h, k)
  {
    var i, j, c: nat :| 0 <= i < |h| && 0 <= j < |h| && 1 <= c < Count(h, |h|, h[j]) && h[i] == Suffixed(h[j], c);
    CountReaches(h, |h|, h[j], c);
    var k :| 0 <= k < |h| && h[k] == h[j] && Count(h, k, h[j]) == c;
    CountGrows(h, i, |h|);
    CountReaches(h, |h|, h[i], 0);
    var f :| 0 <= f < |h| && h[f] == h[i] && Count(h, f, h[i]) == 0;
    assert Deduped(h, k) == Suffixed(h[j], c) == Deduped(h, f);
    assert |h[k]| < |h[f]|;
  }

  /** De-duplicated names are pairwise distinct exactly when no column is already named like a
      repetition of another ("A, A, A.1" is such a case). */
  lemma HeadersDistinctIff(h: seq<string>)
    ensures (forall i, j :: 0 <= i < j < |h| ==> Deduped(h, i) != Deduped(h, j)) <==> !Collides(h)
  {
    if Collides(h) {
      CollisionRepeats(h);
      var f, k :| 0 <= f < |h| && 0 <= k < |h| && f != k && Deduped(h, f) == Deduped(h, k);
      assert f < k || k < f;
    }
    forall i, j | 0 <= i < j < |h| && Deduped(h, i) == Deduped(h, j)
      ensures Collides(h)
    {
      DedupedPair(h, i, j);
    }
  }

  /** So the column names of a file are pairwise distinct exactly when its filled header row has no
      such column. */
  lemma NormalHeadersDistinctIff(raw: seq<string>)
    ensures Distinct(NormalHeaders(raw)) <==> !Collides(Filled(raw))
  {
    HeadersDistinctIff(Filled(raw));
    var h, out := Filled(raw), NormalHeaders(raw);
    assert forall i :: 0 <= i < |h| ==> out[i] == Deduped(h, i);
  }

  lemma {:induction false} CountIs(h: seq<string>, n: nat, x: string)
    requires n <= |h|
    ensures Count(h, n, x) == |set j | 0 <= j < n && h[j] == x|
  {
    var here := set j | 0 <= j < n && h[j] == x;
    if n > 0 {
      var before := set j | 0 <= j < n - 1 && h[j] == x;
      CountIs(h, n - 1, x);
      assert here == if h[n - 1] == x then before + {n - 1} else before;
    } else {
      assert here == {};
    }
  }

  /** The name of a column: its header cell without the white space around it, or, for a blank cell, its
      number; and a name that columns before it have gets the number of those columns added. */
  lemma HeaderNamesAre(raw: seq<string>, i: nat)
    requires i < |raw|
    ensures Filled(raw)[i] == if Blank(raw[i]) then "Unnamed: " + Digits(i) else TrimSpace(raw[i])
    ensures var before := set j | 0 <= j < i && Filled(raw)[j] == Filled(raw)[i];
      NormalHeaders(raw)[i] == if before == {} then Filled(raw)[i] else Filled(raw)[i] + "." + Digits(|before|)
  {
    BlankIffTrimmedAway(raw[i]);
    CountIs(Filled(raw), i, Filled(raw)[i]);
  }

  lemma CollisionExample()
    ensures Collides(["A", "A", "A.1"])
  {
    var h := ["A", "A", "A.1"];
    assert Count(h, 1, "A") == 1 && Count(h, 2, "A") == 2 && Count(h, 3, "A") == 2;
    assert h[2] == Suffixed(h[0], 1);
  }

  // ----- Indexing and alignment -----

  function IndexOf(h: seq<string>, name: string): (i: int)
    ensures -1 <= i < |h|
    ensures i >= 0 ==> h[i] == name && forall k :: 0 <= k < i ==> h[k] != name
    ensures i < 0 <==> name !in h
  {
    if h == [] then -1
    else if h[0] == name then 0
    else
      var k := IndexOf(h[1..], name);
      if k < 0 then -1 else k + 1
  }

  method IndexOfHeader(h: seq<string>, name: string) returns (r: int)
    ensures r == IndexOf(h, name)
  {
    for i := 0 to |h|
      invariant forall k :: 0 <= k < i ==> h[k] != name
    {
      if h[i] == name {
        return i;
      }
    }
    return -1;
  }

  /** The last column of that name, or -1. */
  function LastIndexOf(h: seq<string>, name: string): (i: int)
    ensures -1 <= i < |h|
    ensures i >= 0 ==> h[i] == name && name !in h[i + 1..]
    ensures i < 0 <==> name !in h
  {
    if h == [] then -1
    else if h[|h| - 1] == name then |h| - 1
    else LastIndexOf(h[..|h| - 1], name)
  }

  /** Name to index; a repeated name keeps its last index. */
  method HeaderIndexMap(h: seq<string>) returns (m: map<string, nat>)
    ensures m.Keys == (set x | x in h)
    ensures forall x :: x in m ==> m[x] == LastIndexOf(h, x)
  {
    m := map[];
    for i := 0 to |h|
      invariant m.Keys == set x | x in h[..i]
      invariant forall x :: x in m ==> m[x] == LastIndexOf(h[..i], x)
    {
      assert h[..i + 1] == h[..i] + [h[i]];
      assert h[..i + 1][..i] == h[..i];
      m := m[h[i] := i];
    }
    assert h[..|h|] == h;
  }

  /** `idx` points every column of `cols` at its own column of `h`, and -1 says that `h` lacks it. */
  predicate Aligned(cols: seq<string>, h: seq<string>, idx: seq<int>) {
    |idx| == |cols| && forall i :: 0 <= i < |cols| ==> idx[i] == LastIndexOf(h, cols[i])
  }

  method AlignedColumnIndices(cols: seq<string>, h: seq<string>, m: map<string, nat>) returns (idx: seq<int>)
    requires m.Keys == (set x | x in h)
    requires forall x :: x in m ==> m[x] == LastIndexOf(h, x)
    ensures Aligned(cols, h, idx)
  {
    idx := [];
    for i := 0 to |cols|
      invariant |idx| == i && Aligned(cols[..i], h, idx)
    {
      if cols[i] in m {
        idx := idx + [m[cols[i]]];
      } else {
        idx := idx + [-1];
      }
    }
    assert cols[..|cols|] == cols;
  }

  // ----- orderedUnionCols -----

  /** File 1's columns in order, without the key. */
  function Without(h: seq<string>, key: string): seq<string> {
    if h == [] then []
    else
      var r := Without(h[..|h| - 1], key);
      if h[|h| - 1] == key then r else r + [h[|h| - 1]]
  }

  /** Append the columns of `h` that are neither the key nor there already. */
  function Extended(base: seq<string>, h: seq<string>, key: string): seq<string> {
    if h == [] then base
    else
      var r := Extended(base, h[..|h| - 1], key);
      var c := h[|h| - 1];
      if c == key || c in r then r else r + [c]
  }

  function UnionCols(h1: seq<string>, h2: seq<string>, key: string): seq<string> {
    Extended(Without(h1, key), h2, key)
  }

  method OrderedUnionCols(h1: seq<string>, h2: seq<string>, key: string) returns (out: seq<string>)
    ensures out == UnionCols(h1, h2, key)
  {
    out := [];
    for i := 0 to |h1|
      invariant out == Without(h1[..i], key)
    {
      assert h1[..i + 1][..i] == h1[..i];
      if h1[i] != key {
        out := out + [h1[i]];
      }
    }
    assert h1[..|h1|] == h1;
    var seen := set c | c in out;
    for i := 0 to |h2|
      invariant out == Extended(Without(h1, key), h2[..i], key)
      invariant seen == set c | c in out
    {
      assert h2[..i + 1][..i] == h2[..i];
      var c := h2[i];
      if c != key && c !in seen {
        out := out + [c];
        seen := seen + {c};
      }
    }
    assert h2[..|h2|] == h2;
  }

  /** The columns of `h` that are not excluded, in their order. */
  function Except(h: seq<string>, excluded: set<string>): (r: seq<string>)
    ensures forall x :: x in r <==> x in h && x !in excluded
  {
    if h == [] then []
    else
      var r := Except(h[..|h| - 1], excluded);
      if h[|h| - 1] in excluded then r else r + [h[|h| - 1]]
  }

  lemma {:induction false} ExceptDistinct(h: seq<string>, excluded: set<string>)
    requires Distinct(h)
    ensures Distinct(Except(h, excluded))
  {
    if h != [] {
      var n := |h| - 1;
      ExceptDistinct(h[..n], excluded);
      assert forall i :: 0 <= i < n ==> h[..n][i] != h[n];
    }
  }

  lemma {:induction false} WithoutIsExcept(h: seq<string>, key: string)
    ensures Without(h, key) == Except(h, {key})
  {
    if h != [] {
      WithoutIsExcept(h[..|h| - 1], key);
    }
  }

  lemma {:induction false} ExtendedIs(base: seq<string>, h: seq<string>, key: string, excluded: set<string>)
    requires Distinct(h)
    requires excluded == (set x | x in base) + {key}
    ensures Extended(base, h, key) == base + Except(h, excluded)
  {
    if h == [] {
      assert base + [] == base;
    } else {
      var n := |h| - 1;
      ExtendedIs(base, h[..n], key, excluded);
      assert forall i :: 0 <= i < n ==> h[i] != h[n];
      assert h[n] !in h[..n];
    }
  }

  /** For distinct headers the union is: the columns of file 1 but the key in their order, then the
      columns only file 2 has in theirs, each once. */
  lemma UnionIsOrderedUnion(h1: seq<string>, h2: seq<string>, key: string)
    requires Distinct(h1) && Distinct(h2) && key in h1
    ensures UnionCols(h1, h2, key) == Except(h1, {key}) + Except(h2, set x | x in h1)
    ensures Distinct(UnionCols(h1, h2, key))
    ensures forall x :: x in UnionCols(h1, h2, key) <==> (x in h1 || x in h2) && x != key
  {
    var base := Without(h1, key);
    var excluded := (set x | x in base) + {key};
    WithoutIsExcept(h1, key);
    ExtendedIs(base, h2, key, excluded);
    assert excluded == set x | x in h1;
    ExceptDistinct(h1, {key});
    ExceptDistinct(h2, excluded);
    var a, b := Except(h1, {key}), Except(h2, excluded);
    forall i, j | 0 <= i < j < |a + b|
      ensures (a + b)[i] != (a + b)[j]
    {
      assert i < |a| <= j ==> (a + b)[i] in a && (a + b)[j] in b;
    }
  }

  /** `x` stands before `y`. */
  ghost predicate Precedes(h: seq<string>, x: string, y: string) {
    exists i, j :: 0 <= i < j < |h| && h[i] == x && h[j] == y
  }

  ghost predicate InOrderOf(e: seq<string>, h: seq<string>) {
    forall p, q :: 0 <= p < q < |e| ==> Precedes(h, e[p], e[q])
  }

  lemma {:induction false} ExceptInOrder(h: seq<string>, excluded: set<string>)
    ensures InOrderOf(Except(h, excluded), h)
  {
    if h != [] {
      var n := |h| - 1;
      var e, r := Except(h, excluded), Except(h[..n], excluded);
      ExceptInOrder(h[..n], excluded);
      forall p, q | 0 <= p < q < |e|
        ensures Precedes(h, e[p], e[q])
      {
        assert e[p] == r[p] && r[p] in h[..n];
        if q < |r| {
          var i, j :| 0 <= i < j < n && h[..n][i] == r[p] && h[..n][j] == r[q];
          assert h[i] == e[p] && h[j] == e[q];
        } else {
          var i :| 0 <= i < n && h[..n][i] == r[p];
          assert h[i] == e[p] && h[n] == e[q];
        }
      }
    }
  }

  /** In the union the columns of file 1 come first, and each file's columns keep their order. */
  lemma UnionKeepsOrder(h1: seq<string>, h2: seq<string>, key: string, p: nat, q: nat)
    requires Distinct(h1) && Distinct(h2) && key in h1 && p < q < |UnionCols(h1, h2, key)|
    ensures var x, y := UnionCols(h1, h2, key)[p], UnionCols(h1, h2, key)[q];
      && (y in h1 ==> Precedes(h1, x, y))
      && (x !in h1 ==> y !in h1 && Precedes(h2, x, y))
  {
    UnionIsOrderedUnion(h1, h2, key);
    var a, b := Except(h1, {key}), Except(h2, set x | x in h1);
    ExceptInOrder(h1, {key});
    ExceptInOrder(h2, set x | x in h1);
    JoinInOrder(h1, h2, a, b, p, q);
  }

  lemma JoinInOrder(h1: seq<string>, h2: seq<string>, a: seq<string>, b: seq<string>, p: nat, q: nat)
    requires InOrderOf(a, h1) && InOrderOf(b, h2) && p < q < |a + b|
    requires (forall x :: x in a ==> x in h1) && (forall x :: x in b ==> x !in h1)
    ensures (a + b)[q] in h1 ==> Precedes(h1, (a + b)[p], (a + b)[q])
    ensures (a + b)[p] !in h1 ==> (a + b)[q] !in h1 && Precedes(h2, (a + b)[p], (a + b)[q])
  {
    if q < |a| {
      assert a[p] in a && a[q] in a;
    } else if p < |a| {
      assert a[p] in a && b[q - |a|] in b;
    } else {
      assert b[p - |a|] in b && b[q - |a|] in b;
    }
  }

  /** Alignment meets every column of a file but the key, and meets it once: so every non-key cell
      is compared exactly once. */
  lemma EveryColumnMetOnce(h: seq<string>, cols: seq<string>, key: string, idx: seq<int>, c: nat)
    requires Distinct(h) && Distinct(cols) && Aligned(cols, h, idx)
    requires forall x :: x in h && x != key ==> x in cols
    requires c < |h| && h[c] != key
    ensures exists i :: 0 <= i < |cols| && idx[i] == c && forall j :: 0 <= j < |cols| && idx[j] == c ==> j == i
  {
    assert h[c] in cols;
    var i :| 0 <= i < |cols| && cols[i] == h[c];
    assert cols[i] in h;
    assert h[idx[i]] == h[c];
    assert idx[i] == c;
    forall j | 0 <= j < |cols| && idx[j] == c
      ensures j == i
    {
      assert cols[j] == h[c] == cols[i];
    }
  }

  ghost predicate MetOnce(idx: seq<int>, c: nat) {
    exists i :: 0 <= i < |idx| && idx[i] == c && forall j :: 0 <= j < |idx| && idx[j] == c ==> j == i
  }

  /** For two files with distinct headers, the comparison meets every cell outside the key column of
      either file exactly once. */
  lemma EveryCellComparedOnce(h1: seq<string>, h2: seq<string>, key: string, idx1: seq<int>, idx2: seq<int>)
    requires Distinct(h1) && Distinct(h2) && key in h1
    requires Aligned(UnionCols(h1, h2, key), h1, idx1) && Aligned(UnionCols(h1, h2, key), h2, idx2)
    ensures forall c: nat :: c < |h1| && h1[c] != key ==> MetOnce(idx1, c)
    ensures forall c: nat :: c < |h2| && h2[c] != key ==> MetOnce(idx2, c)
  {
    UnionIsOrderedUnion(h1, h2, key);
    forall c: nat | c < |h1| && h1[c] != key
      ensures MetOnce(idx1, c)
    {
      EveryColumnMetOnce(h1, UnionCols(h1, h2, key), key, idx1, c);
    }
    forall c: nat | c < |h2| && h2[c] != key
      ensures MetOnce(idx2, c)
    {
      EveryColumnMetOnce(h2, UnionCols(h1, h2, key), key, idx2, c);
    }
  }

  /** So it does for two sheets whose header rows, once filled, have no column named like a repetition of
      another. */
  lemma EveryCellOfSheetsComparedOnce(raw1: seq<string>, raw2: seq<string>, key: string, idx1: seq<int>, idx2: seq<int>)
    requires !Collides(Filled(raw1)) && !Collides(Filled(raw2)) && key in NormalHeaders(raw1)
    requires Aligned(UnionCols(NormalHeaders(raw1), NormalHeaders(raw2), key), NormalHeaders(raw1), idx1)
    requires Aligned(UnionCols(NormalHeaders(raw1), NormalHeaders(raw2), key), NormalHeaders(raw2), idx2)
    ensures forall c: nat :: c < |raw1| && NormalHeaders(raw1)[c] != key ==> MetOnce(idx1, c)
    ensures forall c: nat :: c < |raw2| && NormalHeaders(raw2)[c] != key ==> MetOnce(idx2, c)
  {
    NormalHeadersDistinctIff(raw1);
    NormalHeadersDistinctIff(raw2);
    EveryCellComparedOnce(NormalHeaders(raw1), NormalHeaders(raw2), key, idx1, idx2);
  }
}
