/** Comparing two keyed sheets: the partition of their keys and the alignment of their columns. */
module Compare {
  import opened Text
  import opened Domain
  import opened Headers
  import opened KeyOrder
  import opened KeyGuess
  import opened KeyedRead

  datatype Artifacts = Artifacts(
    key: string,
    reducedKeys: seq<string>,
    incKeys: seq<string>,
    commonKeys: seq<string>,
    redHeaders: seq<string>,
    incHeaders: seq<string>,
    orderedCols: seq<string>,
    left: map<string, Row>,
    right: map<string, Row>,
    colIdx1: seq<int>,
    colIdx2: seq<int>)

  /** `art` is the comparison of file 1 (`h1`, `m1`) with file 2 (`h2`, `m2`). */
  ghost predicate Compares(art: Artifacts, h1: seq<string>, h2: seq<string>,
                           m1: map<string, Row>, m2: map<string, Row>, key: string) {
    && art.key == key && art.redHeaders == h1 && art.incHeaders == h2 && art.left == m1 && art.right == m2
    && Lists(art.reducedKeys, m1.Keys - m2.Keys)
    && Lists(art.incKeys, m2.Keys - m1.Keys)
    && Lists(art.commonKeys, m1.Keys * m2.Keys)
    && art.orderedCols == UnionCols(h1, h2, key)
    && Aligned(art.orderedCols, h1, art.colIdx1)
    && Aligned(art.orderedCols, h2, art.colIdx2)
  }

  /** Appending the keys of `a` to two lists, by whether `b` has them; the order is up to the map. */
  method SplitKeys(a: map<string, Row>, b: map<string, Row>) returns (inBoth: seq<string>, onlyA: seq<string>)
    ensures Distinct(inBoth) && forall k :: k in inBoth <==> k in a && k in b
    ensures Distinct(onlyA) && forall k :: k in onlyA <==> k in a && k !in b
  {
    inBoth, onlyA := [], [];
    var todo := a.Keys;
    while todo != {}
      invariant todo <= a.Keys
      invariant Distinct(inBoth) && forall k :: k in inBoth <==> k in a && k !in todo && k in b
      invariant Distinct(onlyA) && forall k :: k in onlyA <==> k in a && k !in todo && k !in b
      decreases todo
    {
      var k :| k in todo;
      todo := todo - {k};
      if k in b {
        inBoth := inBoth + [k];
      } else {
        onlyA := onlyA + [k];
      }
    }
  }

  method CompareArtifactsFromMaps(h1: seq<string>, h2: seq<string>, m1: map<string, Row>, m2: map<string, Row>,
                                  key: string)
    returns (r: Option<Artifacts>)
    ensures r.None? <==> TrimSpace(key) == ""
    ensures r.Some? ==> Compares(r.value, h1, h2, m1, m2, key)
  {
    if TrimSpace(key) == "" {
      return None;
    }
    var common, only1 := SplitKeys(m1, m2);
    var ignored, only2 := SplitKeys(m2, m1);
    SortAscending(only1);
    SortAscending(only2);
    SortAscending(common);
    var cols := OrderedUnionCols(h1, h2, key);
    var hidx1 := HeaderIndexMap(h1);
    var hidx2 := HeaderIndexMap(h2);
    var idx1 := AlignedColumnIndices(cols, h1, hidx1);
    var idx2 := AlignedColumnIndices(cols, h2, hidx2);
    return Some(Artifacts(key, Sort(only1), Sort(only2), Sort(common), h1, h2, cols, m1, m2, idx1, idx2));
  }

  // ----- Cells -----

  function CellAt(row: Row, i: int): string {
    if 0 <= i < |row| then row[i] else ""
  }

  function LeftRow(art: Artifacts, k: string): Row { if k in art.left then art.left[k] else [] }

  function RightRow(art: Artifacts, k: string): Row { if k in art.right then art.right[k] else [] }

  /** The two cells that the diff sheet puts side by side in column `i` of key `k`. */
  function LeftCell(art: Artifacts, k: string, i: nat): string {
    CellAt(LeftRow(art, k), if i < |art.colIdx1| then art.colIdx1[i] else -1)
  }

  function RightCell(art: Artifacts, k: string, i: nat): string {
    CellAt(RightRow(art, k), if i < |art.colIdx2| then art.colIdx2[i] else -1)
  }

  predicate PairDiffers(norm: Normalizer, art: Artifacts, k: string, i: nat) {
    norm(LeftCell(art, k, i)) != norm(RightCell(art, k, i))
  }

  predicate RowDiffers(norm: Normalizer, art: Artifacts, k: string) {
    exists i :: 0 <= i < |art.orderedCols| && PairDiffers(norm, art, k, i)
  }

  /** The cell of a file's row in the column of a given name; "" if the file lacks the column. */
  function CellNamed(row: Row, h: seq<string>, col: string): string {
    CellAt(row, LastIndexOf(h, col))
  }

  /** `v` is the cell of a row in the last column named `col`, and nothing if there is no such column, or the
      row is too short. */
  ghost predicate CellIn(row: Row, h: seq<string>, col: string, v: string) {
    if exists c: nat :: c < |h| && c < |row| && h[c] == col && col !in h[c + 1..] then
      exists c: nat :: c < |h| && c < |row| && h[c] == col && col !in h[c + 1..] && v == row[c]
    else v == ""
  }

  lemma CellNamedIs(row: Row, h: seq<string>, col: string)
    ensures CellIn(row, h, col, CellNamed(row, h, col))
  {
    var i := LastIndexOf(h, col);
    forall c: nat | c < |h| && h[c] == col && col !in h[c + 1..]
      ensures c == i
    {
      assert forall y :: c < y < |h| ==> h[c + 1..][y - c - 1] == h[y];
      assert forall y :: 0 <= i < y < |h| ==> h[i + 1..][y - i - 1] == h[y];
    }
  }

  /** The two cells that stand side by side are those of the two files in the column of that name. */
  lemma CellsCompared(art: Artifacts, h1: seq<string>, h2: seq<string>, m1: map<string, Row>, m2: map<string, Row>,
                      key: string, k: string, i: nat)
    requires Compares(art, h1, h2, m1, m2, key) && i < |art.orderedCols| && k in m1 && k in m2
    ensures CellIn(m1[k], h1, art.orderedCols[i], LeftCell(art, k, i))
    ensures CellIn(m2[k], h2, art.orderedCols[i], RightCell(art, k, i))
  {
    CellNamedIs(m1[k], h1, art.orderedCols[i]);
    CellNamedIs(m2[k], h2, art.orderedCols[i]);
  }

  /** A common key's row differs in the column of that name. */
  ghost predicate ChangedIn(norm: Normalizer, art: Artifacts, k: string, col: string) {
    k in art.commonKeys && exists i ::
      0 <= i < |art.orderedCols| && art.orderedCols[i] == col && PairDiffers(norm, art, k, i)
  }

  // ----- Determinism, symmetry, reflexivity -----

  /** The comparison does not depend on the order in which the maps are iterated. */
  lemma ComparisonIsDeterministic(a: Artifacts, b: Artifacts, h1: seq<string>, h2: seq<string>,
                                  m1: map<string, Row>, m2: map<string, Row>, key: string)
    requires Compares(a, h1, h2, m1, m2, key) && Compares(b, h1, h2, m1, m2, key)
    ensures a == b
  {
    SortedListUnique(a.reducedKeys, b.reducedKeys, m1.Keys - m2.Keys);
    SortedListUnique(a.incKeys, b.incKeys, m2.Keys - m1.Keys);
    SortedListUnique(a.commonKeys, b.commonKeys, m1.Keys * m2.Keys);
    assert a.colIdx1 == b.colIdx1 && a.colIdx2 == b.colIdx2;
  }

  /** The three lists partition the keys of both files. */
  lemma KeysArePartitioned(art: Artifacts, h1: seq<string>, h2: seq<string>,
                           m1: map<string, Row>, m2: map<string, Row>, key: string, k: string)
    requires Compares(art, h1, h2, m1, m2, key)
    ensures k in m1 <==> (k in art.reducedKeys) != (k in art.commonKeys)
    ensures k in m2 <==> (k in art.incKeys) != (k in art.commonKeys)
    ensures !(k in art.reducedKeys && k in art.incKeys)
  {
  }

  lemma {:induction false} WithoutMembers(h: seq<string>, key: string, x: string)
    ensures x in Without(h, key) <==> x in h && x != key
  {
    if h != [] {
      WithoutMembers(h[..|h| - 1], key, x);
      assert h == h[..|h| - 1] + [h[|h| - 1]];
    }
  }

  lemma {:induction false} UnionMembers(base: seq<string>, h: seq<string>, key: string, x: string)
    requires key !in base
    ensures x in Extended(base, h, key) <==> x in base || (x in h && x != key)
  {
    if h != [] {
      UnionMembers(base, h[..|h| - 1], key, x);
      UnionMembers(base, h[..|h| - 1], key, h[|h| - 1]);
      assert h == h[..|h| - 1] + [h[|h| - 1]];
    }
  }

  /** With or without repeated headers, the compared columns are those of either file but the key. */
  lemma ColumnsCompared(h1: seq<string>, h2: seq<string>, key: string, x: string)
    ensures x in UnionCols(h1, h2, key) <==> (x in h1 || x in h2) && x != key
  {
    WithoutMembers(h1, key, x);
    WithoutMembers(h1, key, key);
    UnionMembers(Without(h1, key), h2, key, x);
  }

  lemma ChangedByName(norm: Normalizer, art: Artifacts, h1: seq<string>, h2: seq<string>,
                      m1: map<string, Row>, m2: map<string, Row>, key: string, k: string, col: string)
    requires Compares(art, h1, h2, m1, m2, key)
    ensures ChangedIn(norm, art, k, col) <==>
      && k in m1 && k in m2 && (col in h1 || col in h2) && col != key
      && norm(CellNamed(m1[k], h1, col)) != norm(CellNamed(m2[k], h2, col))
  {
    ColumnsCompared(h1, h2, key, col);
    if col in art.orderedCols {
      var i :| 0 <= i < |art.orderedCols| && art.orderedCols[i] == col;
      assert k in m1 && k in m2 ==>
        LeftCell(art, k, i) == CellNamed(m1[k], h1, col) && RightCell(art, k, i) == CellNamed(m2[k], h2, col);
    }
  }

  /** Swapping the files swaps increase and reduction, and keeps the common keys and the set of
      changed (key, column) pairs. */
  lemma ComparisonIsSymmetric(norm: Normalizer, a: Artifacts, b: Artifacts, h1: seq<string>, h2: seq<string>,
                              m1: map<string, Row>, m2: map<string, Row>, key: string)
    requires Compares(a, h1, h2, m1, m2, key) && Compares(b, h2, h1, m2, m1, key)
    ensures a.reducedKeys == b.incKeys && a.incKeys == b.reducedKeys && a.commonKeys == b.commonKeys
    ensures forall k, col :: ChangedIn(norm, a, k, col) <==> ChangedIn(norm, b, k, col)
  {
    SortedListUnique(a.reducedKeys, b.incKeys, m1.Keys - m2.Keys);
    SortedListUnique(a.incKeys, b.reducedKeys, m2.Keys - m1.Keys);
    SortedListUnique(a.commonKeys, b.commonKeys, m1.Keys * m2.Keys);
    forall k, col
      ensures ChangedIn(norm, a, k, col) <==> ChangedIn(norm, b, k, col)
    {
      ChangedByName(norm, a, h1, h2, m1, m2, key, k, col);
      ChangedByName(norm, b, h2, h1, m2, m1, key, k, col);
    }
  }

  /** A file compared with itself has nothing to report. */
  lemma ComparisonWithItself(norm: Normalizer, art: Artifacts, h: seq<string>, m: map<string, Row>, key: string)
    requires Compares(art, h, h, m, m, key)
    ensures art.reducedKeys == [] && art.incKeys == []
    ensures forall k :: k in art.commonKeys ==> !RowDiffers(norm, art, k)
  {
    SortedListUnique(art.reducedKeys, [], m.Keys - m.Keys);
    SortedListUnique(art.incKeys, [], m.Keys - m.Keys);
    assert art.colIdx1 == art.colIdx2;
  }
}
