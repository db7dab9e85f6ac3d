/** Patching file 1 with the three emitted sheets gives back file 2.  The patch reads the sheets only:
    their rows, their keys and their cells, and never the comparison they were written from. */
module Patch {
  import opened Text
  import opened Headers
  import opened KeyOrder
  import opened KeyGuess
  import opened KeyedRead
  import opened Compare
  import opened DiffWriter
  import opened DiffSheets

  /** A table as key -> cells, one cell for each compared column. */
  type View = map<string, Row>

  function AlignRow(row: Row, h: seq<string>, cols: seq<string>): (r: Row)
    ensures |r| == |cols| && forall i :: 0 <= i < |cols| ==> r[i] == CellNamed(row, h, cols[i])
  {
    seq(|cols|, i requires 0 <= i < |cols| => CellNamed(row, h, cols[i]))
  }

  function ViewOf(m: map<string, Row>, h: seq<string>, cols: seq<string>): View {
    map k | k in m :: AlignRow(m[k], h, cols)
  }

  /** Equal keys, and equal cells up to normalisation. */
  ghost predicate SameTable(norm: Normalizer, a: View, b: View) {
    a.Keys == b.Keys && forall k :: k in a ==> SameRow(norm, a[k], b[k])
  }

  ghost predicate SameRow(norm: Normalizer, a: Row, b: Row) {
    |a| == |b| && forall i :: 0 <= i < |a| ==> norm(a[i]) == norm(b[i])
  }

  // ----- Reading a sheet back -----

  function Values(cells: seq<Cell>): (r: Row)
    ensures |r| == |cells| && forall i :: 0 <= i < |cells| ==> r[i] == cells[i].value
  {
    seq(|cells|, i requires 0 <= i < |cells| => cells[i].value)
  }

  /** A data row of a sheet: the key it is about, and its cells in the compared columns. */
  datatype Entry = Entry(key: string, cells: Row)

  /** A row of the increase or the reduction sheet. */
  function SimpleEntry(norm: Normalizer, h: seq<string>, key: string, cols: seq<string>, row: SheetRow): Entry {
    Entry(norm(CellAt(Values(row.cells), IndexOf(h, key))), AlignRow(Values(row.cells), h, cols))
  }

  /** A row of the diff sheet: its key, and file 2's cell of every pair. */
  function DiffEntry(width: nat, row: SheetRow): Entry {
    var v := Values(row.cells);
    Entry(CellAt(v, 0), seq(width, i requires 0 <= i < width => CellAt(v, 2 + 2 * i)))
  }

  /** The rows of an increase or reduction sheet, below its first row. */
  function ReadSimple(norm: Normalizer, h: seq<string>, key: string, cols: seq<string>, sheet: Sheet): (r: seq<Entry>)
    requires sheet != []
    ensures |r| == |sheet| - 1
  {
    seq(|sheet| - 1, j requires 0 <= j < |sheet| - 1 => SimpleEntry(norm, h, key, cols, sheet[j + 1]))
  }

  /** The rows of the diff sheet, below its first row. */
  function ReadDiff(width: nat, sheet: Sheet): (r: seq<Entry>)
    requires sheet != []
    ensures |r| == |sheet| - 1
  {
    seq(|sheet| - 1, j requires 0 <= j < |sheet| - 1 => DiffEntry(width, sheet[j + 1]))
  }

  function KeysIn(entries: seq<Entry>): set<string> {
    set e | e in entries :: e.key
  }

  /** Writing the entries into a table, one after the other. */
  function Put(v: View, entries: seq<Entry>): View {
    if entries == [] then v
    else
      var n := |entries| - 1;
      Put(v, entries[..n])[entries[n].key := entries[n].cells]
  }

  function PatchWith(v1: View, reduced: seq<Entry>, increased: seq<Entry>, changed: seq<Entry>): View {
    Put(Put(v1 - KeysIn(reduced), increased), changed)
  }

  /** Remove the keys of the reduction sheet, add the rows of the increase sheet, overwrite the rows of
      the diff sheet. */
  function Patched(norm: Normalizer, v1: View, h1: seq<string>, h2: seq<string>, key: string, cols: seq<string>,
                   red: Sheet, inc: Sheet, diff: Sheet): View
    requires red != [] && inc != [] && diff != []
  {
    PatchWith(v1, ReadSimple(norm, h1, key, cols, red), ReadSimple(norm, h2, key, cols, inc), ReadDiff(|cols|, diff))
  }

  // ----- Why it is file 2 -----

  /** Entries that agree, key by key and up to normalisation, with the table `want`. */
  ghost predicate Agrees(norm: Normalizer, entries: seq<Entry>, want: View) {
    forall j :: 0 <= j < |entries| ==> entries[j].key in want && SameRow(norm, entries[j].cells, want[entries[j].key])
  }

  lemma LastKey(entries: seq<Entry>)
    requires entries != []
    ensures KeysIn(entries) == KeysIn(entries[..|entries| - 1]) + {entries[|entries| - 1].key}
  {
    var n := |entries| - 1;
    assert entries == entries[..n] + [entries[n]];
  }

  /** After writing agreeing entries, every key they mention agrees and every other is as before. */
  lemma {:induction false} PutAgrees(norm: Normalizer, v: View, entries: seq<Entry>, want: View)
    requires Agrees(norm, entries, want)
    ensures Put(v, entries).Keys == v.Keys + KeysIn(entries)
    ensures forall k :: k in KeysIn(entries) ==> k in want && SameRow(norm, Put(v, entries)[k], want[k])
    ensures forall k :: k in v && k !in KeysIn(entries) ==> Put(v, entries)[k] == v[k]
  {
    if entries == [] {
      assert KeysIn(entries) == {};
    } else {
      var n := |entries| - 1;
      PutAgrees(norm, v, entries[..n], want);
      LastKey(entries);
    }
  }

  /** The patch in the abstract: right keys, and right cells wherever the files agree already. */
  lemma PatchWithGives(norm: Normalizer, v1: View, v2: View, reduced: seq<Entry>, increased: seq<Entry>,
                       changed: seq<Entry>)
    requires KeysIn(reduced) == v1.Keys - v2.Keys
    requires KeysIn(increased) == v2.Keys - v1.Keys && Agrees(norm, increased, v2)
    requires KeysIn(changed) <= v1.Keys * v2.Keys && Agrees(norm, changed, v2)
    requires forall k :: k in v1 && k in v2 && k !in KeysIn(changed) ==> SameRow(norm, v1[k], v2[k])
    ensures SameTable(norm, PatchWith(v1, reduced, increased, changed), v2)
  {
    var kept := v1 - KeysIn(reduced);
    PutAgrees(norm, kept, increased, v2);
    PutAgrees(norm, Put(kept, increased), changed, v2);
  }

  ghost predicate BlankIsEmpty(norm: Normalizer) {
    forall v: string :: Blank(v) ==> norm(v) == norm("")
  }

  /** The written cells of a keyed row, aligned again, are its own up to normalisation. */
  lemma SafeRowEntry(norm: Normalizer, h: seq<string>, key: string, cols: seq<string>, k: string, row: Row, num: nat)
    requires BlankIsEmpty(norm) && key in h
    requires |row| == |h| && KeyOf(norm, row, IndexOf(h, key)) == Domain.Some(k)
    ensures SimpleEntry(norm, h, key, cols, SheetRow(num, SafeRow(row, |h|))).key == k
    ensures SameRow(norm, SimpleEntry(norm, h, key, cols, SheetRow(num, SafeRow(row, |h|))).cells, AlignRow(row, h,
      cols))
  {
    var v := Values(SafeRow(row, |h|));
    assert forall i :: 0 <= i < |h| ==> v[i] == Safe(row[i]);
    assert forall x: string :: norm(Safe(x)) == norm(x);
  }

  /** The rows of a file by key: all of the header's width and each under its own key, unless there are none. */
  predicate KeyedFile(norm: Normalizer, h: seq<string>, m: map<string, Row>, key: string) {
    m == map[] || (key in h && KeyedRows(norm, m, |h|, IndexOf(h, key)))
  }

  /** What the reader loads is keyed. */
  lemma LoadedFileIsKeyed(norm: Normalizer, raw: seq<Row>, checkRows: int, key: string, allowGuess: bool, score: Score)
    requires BatchLoad(norm, raw, checkRows, key, allowGuess, score).Sheet?
    ensures var l := BatchLoad(norm, raw, checkRows, key, allowGuess, score); KeyedFile(norm, l.headers, l.st.rows,
      l.key)
  {
    var l := BatchLoad(norm, raw, checkRows, key, allowGuess, score);
    LoadedSheet(norm, raw, checkRows, key, allowGuess, score);
    LoadedRowsAreKeyed(norm, TableOf(raw).rows, |l.headers|, IndexOf(l.headers, l.key));
  }

  lemma SimpleEntryAt(norm: Normalizer, h: seq<string>, key: string, cols: seq<string>, keys: seq<string>,
                      m: map<string, Row>, sheet: Sheet, j: nat)
    requires BlankIsEmpty(norm) && KeyedFile(norm, h, m, key)
    requires |sheet| == |keys| + 1 && j < |keys| && keys[j] in m
    requires sheet[j + 1] == SheetRow(j + 2, SafeRow(m[keys[j]], |h|))
    ensures ReadSimple(norm, h, key, cols, sheet)[j].key == keys[j]
    ensures SameRow(norm, ReadSimple(norm, h, key, cols, sheet)[j].cells, AlignRow(m[keys[j]], h, cols))
  {
    SafeRowEntry(norm, h, key, cols, keys[j], m[keys[j]], j + 2);
  }

  /** What the rows of an increase or reduction sheet say. */
  lemma SimpleEntries(norm: Normalizer, h: seq<string>, key: string, cols: seq<string>, keys: seq<string>,
                      m: map<string, Row>, msg: string)
    requires BlankIsEmpty(norm) && KeyedFile(norm, h, m, key)
    requires forall k :: k in keys ==> k in m
    ensures var entries := ReadSimple(norm, h, key, cols, SimpleSheet(h, keys, m, msg));
      KeysIn(entries) == (set k | k in keys) && Agrees(norm, entries, ViewOf(m, h, cols))
  {
    var sheet := SimpleSheet(h, keys, m, msg);
    var entries := ReadSimple(norm, h, key, cols, sheet);
    if keys != [] {
      assert keys[0] in m;
      SimpleSheetRows(h, keys, m, msg);
    }
    assert |entries| == |keys|;
    forall j | 0 <= j < |entries|
      ensures entries[j].key == keys[j] && SameRow(norm, entries[j].cells, AlignRow(m[keys[j]], h, cols))
    {
      SimpleEntryAt(norm, h, key, cols, keys, m, sheet, j);
    }
    SameMembers(entries, keys);
  }

  lemma SameMembers(entries: seq<Entry>, keys: seq<string>)
    requires |entries| == |keys| && forall j :: 0 <= j < |keys| ==> entries[j].key == keys[j]
    ensures KeysIn(entries) == set k | k in keys
  {
    forall k | k in keys
      ensures k in KeysIn(entries)
    {
      var j :| 0 <= j < |keys| && keys[j] == k;
      assert entries[j] in entries;
    }
  }

  lemma DiffCellsRead(norm: Normalizer, art: Artifacts, k: string, red: int, num: nat, i: nat)
    requires i < |art.orderedCols|
    ensures DiffEntry(|art.orderedCols|, SheetRow(num, DiffRow(norm, art, k, red))).cells[i]
      == Safe(RightCell(art, k, i))
  {
    DiffRowCells(norm, art, k, red, i);
    assert Values(DiffRow(norm, art, k, red))[2 + 2 * i] == Safe(RightCell(art, k, i));
  }

  /** What a row of the diff sheet says: its key, and file 2's row. */
  lemma DiffRowEntry(norm: Normalizer, art: Artifacts, k: string, red: int, num: nat, want: Row)
    requires BlankIsEmpty(norm) && !Blank(k) && |want| == |art.orderedCols|
    requires forall i :: 0 <= i < |want| ==> want[i] == RightCell(art, k, i)
    ensures var e := DiffEntry(|art.orderedCols|, SheetRow(num, DiffRow(norm, art, k, red)));
      e.key == k && SameRow(norm, e.cells, want)
  {
    assert DiffRow(norm, art, k, red)[0] == Cell(Safe(k), 0);
    forall i | 0 <= i < |want|
      ensures norm(DiffEntry(|art.orderedCols|, SheetRow(num, DiffRow(norm, art, k, red))).cells[i]) == norm(want[i])
    {
      DiffCellsRead(norm, art, k, red, num, i);
      assert norm(Safe(want[i])) == norm(want[i]);
    }
  }

  lemma RightCells(art: Artifacts, h1: seq<string>, h2: seq<string>, m1: map<string, Row>, m2: map<string,
                   Row>, key: string, k: string)
    requires Compares(art, h1, h2, m1, m2, key) && k in m2
    ensures forall i :: 0 <= i < |art.orderedCols| ==> AlignRow(m2[k], h2, art.orderedCols)[i] == RightCell(art, k, i)
  {
  }

  /** Reading back rows of changed keys gives those keys, each with its row in `want`. */
  lemma ReadChanged(norm: Normalizer, art: Artifacts, sheet: Sheet, changed: seq<string>, want: View, red: int)
    requires BlankIsEmpty(norm) && |sheet| == |changed| + 1
    requires forall j :: 0 <= j < |changed| ==> sheet[j + 1] == SheetRow(j + 2, DiffRow(norm, art, changed[j], red))
    requires forall k :: k in changed ==>
      k in want && !Blank(k) && |want[k]| == |art.orderedCols| && forall i :: 0 <= i < |art.orderedCols| ==>
        want[k][i] == RightCell(art, k, i)
    ensures KeysIn(ReadDiff(|art.orderedCols|, sheet)) == (set k | k in changed)
    ensures Agrees(norm, ReadDiff(|art.orderedCols|, sheet), want)
  {
    var entries := ReadDiff(|art.orderedCols|, sheet);
    forall j | 0 <= j < |entries|
      ensures entries[j].key == changed[j] && changed[j] in want && SameRow(norm, entries[j].cells, want[changed[j]])
    {
      assert changed[j] in changed;
      DiffRowEntry(norm, art, changed[j], red, j + 2, want[changed[j]]);
      assert entries[j] == DiffEntry(|art.orderedCols|, sheet[j + 1]);
    }
    SameMembers(entries, changed);
  }

  /** What the rows of the diff sheet say. */
  lemma DiffEntries(norm: Normalizer, art: Artifacts, h1: seq<string>, h2: seq<string>, m1: map<string, Row>,
                    m2: map<string, Row>, key: string, name1: string, name2: string, red: int)
    requires BlankIsEmpty(norm) && Compares(art, h1, h2, m1, m2, key)
    requires forall k :: k in m2 ==> !Blank(k)
    ensures var entries := ReadDiff(|art.orderedCols|, DiffSheet(norm, art, name1, name2, red));
      && (forall k :: k in KeysIn(entries) <==> k in art.commonKeys && RowDiffers(norm, art, k))
      && Agrees(norm, entries, ViewOf(m2, h2, art.orderedCols))
  {
    var sheet := DiffSheet(norm, art, name1, name2, red);
    var changed := ChangedKeys(norm, art, |art.commonKeys|);
    DiffSheetRows(norm, art, name1, name2, red, changed);
    forall k | k in changed
      ensures k in m2 && forall i :: 0 <= i < |art.orderedCols| ==>
        AlignRow(m2[k], h2, art.orderedCols)[i] == RightCell(art, k, i)
    {
      RightCells(art, h1, h2, m1, m2, key, k);
    }
    ReadChanged(norm, art, sheet, changed, ViewOf(m2, h2, art.orderedCols), red);
  }

  lemma UnchangedRowsAgree(norm: Normalizer, art: Artifacts, h1: seq<string>, h2: seq<string>, m1: map<string, Row>,
                           m2: map<string, Row>, key: string, k: string)
    requires Compares(art, h1, h2, m1, m2, key) && k in m1 && k in m2 && !RowDiffers(norm, art, k)
    ensures SameRow(norm, AlignRow(m1[k], h1, art.orderedCols), AlignRow(m2[k], h2, art.orderedCols))
  {
    forall i | 0 <= i < |art.orderedCols|
      ensures norm(CellNamed(m1[k], h1, art.orderedCols[i])) == norm(CellNamed(m2[k], h2, art.orderedCols[i]))
    {
      assert !PairDiffers(norm, art, k, i);
    }
  }

  /** Diff, then patch: the sheets written for two keyed files turn the first into the second, in its
      keys exactly and in every compared cell up to normalisation. */
  lemma DiffThenPatchGivesFile2(norm: Normalizer, art: Artifacts, h1: seq<string>, h2: seq<string>,
                                m1: map<string, Row>, m2: map<string, Row>, key: string,
                                name1: string, name2: string, red: int, incMsg: string, redMsg: string)
    requires BlankIsEmpty(norm) && Compares(art, h1, h2, m1, m2, key)
    requires KeyedFile(norm, h1, m1, key) && KeyedFile(norm, h2, m2, key)
    ensures SameTable(norm,
                      Patched(norm, ViewOf(m1, h1, art.orderedCols), h1, h2, key, art.orderedCols,
                              SimpleSheet(h1, art.reducedKeys, m1, redMsg), SimpleSheet(h2, art.incKeys, m2, incMsg),
                              DiffSheet(norm, art, name1, name2, red)),
                      ViewOf(m2, h2, art.orderedCols))
  {
    var cols := art.orderedCols;
    var v1, v2 := ViewOf(m1, h1, cols), ViewOf(m2, h2, cols);
    SimpleEntries(norm, h1, key, cols, art.reducedKeys, m1, redMsg);
    SimpleEntries(norm, h2, key, cols, art.incKeys, m2, incMsg);
    DiffEntries(norm, art, h1, h2, m1, m2, key, name1, name2, red);
    var changed := ReadDiff(|cols|, DiffSheet(norm, art, name1, name2, red));
    forall k | k in v1 && k in v2 && k !in KeysIn(changed)
      ensures SameRow(norm, v1[k], v2[k])
    {
      UnchangedRowsAgree(norm, art, h1, h2, m1, m2, key, k);
    }
    PatchWithGives(norm, v1, v2,
                   ReadSimple(norm, h1, key, cols, SimpleSheet(h1, art.reducedKeys, m1, redMsg)),
                   ReadSimple(norm, h2, key, cols, SimpleSheet(h2, art.incKeys, m2, incMsg)),
                   changed);
  }
}
