/** The three sheets of the export.  Each writer streams rows to an append-only sheet; the diff
    writer works with a bounded cache of normal forms and fingerprints and with a bit mask, and is
    proved to emit what a direct comparison of every pair of cells would emit. */
module DiffWriter {
  import opened Text
  import opened Domain
  import opened KeyGuess
  import opened KeyedRead
  import opened Compare
  import opened DiffMask

  // ----- Sheets -----

  /** A cell with its style; style 0 is the default. */
  datatype Cell = Cell(value: string, style: int)

  datatype SheetRow = SheetRow(num: nat, cells: seq<Cell>)

  type Sheet = seq<SheetRow>

  /** The library's stream writer: rows must come in ascending order. */
  class StreamWriter {
    var rows: Sheet
    var last: nat

    constructor ()
      ensures rows == [] && last == 0
    {
      rows, last := [], 0;
    }

    method SetRow(num: nat, cells: seq<Cell>) returns (ok: bool)
      modifies this
      ensures ok <==> num > old(last)
      ensures if ok then rows == old(rows) + [SheetRow(num, cells)] && last == num
              else rows == old(rows) && last == old(last)
    {
      ok := num > last;
      if ok {
        rows := rows + [SheetRow(num, cells)];
        last := num;
      }
    }
  }

  /** safeCellValue: blank cells are written as empty. */
  function Safe(v: string): string {
    if Blank(v) then "" else v
  }

  function Message(msg: string): Sheet {
    [SheetRow(1, [Cell(msg, 0)])]
  }

  function Plain(values: seq<string>): seq<Cell> {
    seq(|values|, i requires 0 <= i < |values| => Cell(values[i], 0))
  }

  function SafeRow(row: Row, width: nat): seq<Cell> {
    seq(width, i requires 0 <= i < width => Cell(Safe(CellAt(row, i)), 0))
  }

  // ----- The increase and reduction sheets -----

  function KeyedRowsOf(width: nat, keys: seq<string>, byKey: map<string, Row>, n: nat): Sheet
    requires n <= |keys|
  {
    if n == 0 then []
    else
      var r := KeyedRowsOf(width, keys, byKey, n - 1);
      if keys[n - 1] in byKey then r + [SheetRow(|r| + 2, SafeRow(byKey[keys[n - 1]], width))] else r
  }

  function SimpleSheet(headers: seq<string>, keys: seq<string>, byKey: map<string, Row>, emptyMsg: string): Sheet {
    if headers == [] || keys == [] then Message(emptyMsg)
    else [SheetRow(1, Plain(headers))] + KeyedRowsOf(|headers|, keys, byKey, |keys|)
  }

  /** Overwrites the whole row buffer, which is reused from row to row. */
  method FillRow(row: array<Cell>, r: Row)
    modifies row
    ensures row[..] == SafeRow(r, row.Length)
  {
    for i := 0 to row.Length
      invariant row[..i] == SafeRow(r, row.Length)[..i]
    {
      row[i] := Cell(if i < |r| then Safe(r[i]) else "", 0);
    }
  }

  method WriteSimpleKeyedSheet(headers: seq<string>, keys: seq<string>, byKey: map<string, Row>, emptyMsg: string)
    returns (sheet: Sheet, ok: bool)
    ensures ok && sheet == SimpleSheet(headers, keys, byKey, emptyMsg)
  {
    var sw := new StreamWriter();
    if |headers| == 0 || |keys| == 0 {
      ok := sw.SetRow(1, [Cell(emptyMsg, 0)]);
      return sw.rows, ok;
    }
    var rowNum := 1;
    ok := sw.SetRow(rowNum, Plain(headers));
    rowNum := rowNum + 1;
    var row := new Cell[|headers|](_ => Cell("", 0));
    ghost var head := sw.rows;
    for n := 0 to |keys|
      invariant ok && sw.last == rowNum - 1
      invariant sw.rows == head + KeyedRowsOf(|headers|, keys, byKey, n)
      invariant rowNum == |sw.rows| + 1
    {
      if keys[n] !in byKey {
        continue;
      }
      FillRow(row, byKey[keys[n]]);
      ok := sw.SetRow(rowNum, row[..]);
      rowNum := rowNum + 1;
    }
    sheet := sw.rows;
  }

  // ----- The diff sheet, compared pair by pair -----

  function HeaderCells(cols: seq<string>, name1: string, name2: string, n: nat): seq<Cell>
    requires n <= |cols|
  {
    if n == 0 then []
    else
      HeaderCells(cols, name1, name2, n - 1)
        + [Cell(cols[n - 1] + "（" + name1 + "）", 0), Cell(cols[n - 1] + "（" + name2 + "）", 0)]
  }

  function HeaderRow(art: Artifacts, name1: string, name2: string): seq<Cell> {
    [Cell(art.key, 0)] + HeaderCells(art.orderedCols, name1, name2, |art.orderedCols|)
  }

  /** The two cells of a column, red exactly when their normal forms differ. */
  function Pair(norm: Normalizer, art: Artifacts, k: string, red: int, i: nat): seq<Cell> {
    var style := if PairDiffers(norm, art, k, i) && red > 0 then red else 0;
    [Cell(Safe(LeftCell(art, k, i)), style), Cell(Safe(RightCell(art, k, i)), style)]
  }

  function PairOf(norm: Normalizer, art: Artifacts, k: string, red: int): nat -> seq<Cell> {
    (i: nat) => Pair(norm, art, k, red, i)
  }

  /** pair(0), pair(1), ..., pair(n - 1) in a row. */
  function Joined(pair: nat -> seq<Cell>, n: nat): seq<Cell> {
    if n == 0 then [] else Joined(pair, n - 1) + pair(n - 1)
  }

  function DiffRow(norm: Normalizer, art: Artifacts, k: string, red: int): seq<Cell> {
    [Cell(Safe(k), 0)] + Joined(PairOf(norm, art, k, red), |art.orderedCols|)
  }

  /** Those of the first `n` common keys whose rows differ. */
  function ChangedKeys(norm: Normalizer, art: Artifacts, n: nat): seq<string>
    requires n <= |art.commonKeys|
  {
    if n == 0 then []
    else
      var r := ChangedKeys(norm, art, n - 1);
      if RowDiffers(norm, art, art.commonKeys[n - 1]) then r + [art.commonKeys[n - 1]] else r
  }

  /** One row for each changed key, on consecutive rows from row 2 on. */
  function DiffRows(norm: Normalizer, art: Artifacts, red: int, changed: seq<string>): (r: Sheet)
    ensures |r| == |changed|
  {
    if changed == [] then []
    else
      var n := |changed| - 1;
      DiffRows(norm, art, red, changed[..n]) + [SheetRow(n + 2, DiffRow(norm, art, changed[n], red))]
  }

  /** Nothing if nothing changed, and otherwise the header and then the rows. */
  function HeadedRows(norm: Normalizer, art: Artifacts, header: seq<Cell>, red: int, changed: seq<string>): Sheet {
    if changed == [] then [] else [SheetRow(1, header)] + DiffRows(norm, art, red, changed)
  }

  function DiffSheet(norm: Normalizer, art: Artifacts, name1: string, name2: string, red: int): Sheet {
    var changed := ChangedKeys(norm, art, |art.commonKeys|);
    if changed == [] then Message("无变动项目") else HeadedRows(norm, art, HeaderRow(art, name1, name2), red, changed)
  }

  function DisplayName(fileName: string, fallback: string): string {
    var t := TrimSpace(fileName);
    if t == "" then fallback else t
  }

  // ----- The streaming diff writer -----

  type Hash = string -> int

  /** Normal forms and fingerprints already computed, at most `max` of them. */
  class NormCache {
    var m: map<string, (string, int)>
    const max: nat
    const norm: Normalizer
    const fp: Hash
    const size: string -> nat

    /** Whatever is cached is what would be computed. */
    ghost predicate Valid()
      reads this
    {
      forall raw :: raw in m ==> m[raw] == (norm(raw), fp(norm(raw)))
    }

    constructor (max: nat, norm: Normalizer, fp: Hash, size: string -> nat)
      ensures Valid() && this.norm == norm && this.fp == fp
    {
      this.max, this.norm, this.fp, this.size := max, norm, fp, size;
      m := map[];
    }

    method NormalizeFP(raw: string) returns (n: string, h: int)
      requires Valid()
      modifies this
      ensures Valid() && n == norm(raw) && h == fp(norm(raw))
      ensures |m| <= |old(m)| || |m| <= max
    {
      if size(raw) <= 64 {
        if raw in m {
          return m[raw].0, m[raw].1;
        }
        n := norm(raw);
        h := fp(n);
        if |m| < max {
          m := m[raw := (n, h)];
        }
        return;
      }
      n := norm(raw);
      h := fp(n);
    }
  }

  /** The mask marks exactly those of the first `n` columns whose cells differ. */
  ghost predicate Marks(mask: seq<Word>, norm: Normalizer, art: Artifacts, k: string, n: int) {
    forall c: int :: Get(mask, c) <==> 0 <= c < n && PairDiffers(norm, art, k, c)
  }

  ghost predicate Cleared(mask: seq<Word>) {
    forall c: int :: !Get(mask, c)
  }

  lemma MarkNext(mask: seq<Word>, norm: Normalizer, art: Artifacts, k: string, n: nat)
    requires Marks(mask, norm, art, k, n) && n / 64 < |mask|
    ensures Marks(if PairDiffers(norm, art, k, n) then With(mask, n) else mask, norm, art, k, n + 1)
  {
    forall c: int
      ensures Get(With(mask, n), c) <==> c == n || Get(mask, c)
    {
      WithSetsOneBit(mask, n, c);
    }
  }

  /** The cached fingerprints decide whether two cells differ: different ones prove different texts,
      equal ones leave it to the texts. */
  method CellsDiffer(cache: NormCache, va: string, vb: string) returns (isDiff: bool)
    requires cache.Valid()
    modifies cache
    ensures cache.Valid()
    ensures isDiff <==> cache.norm(va) != cache.norm(vb)
  {
    var n1, h1 := cache.NormalizeFP(va);
    var n2, h2 := cache.NormalizeFP(vb);
    isDiff := false;
    if h1 != h2 {
      isDiff := true;
    } else if n1 != n2 {
      isDiff := true;
    }
  }

  /** Marks the differing columns of one row. */
  method MarkRow(cache: NormCache, mask: Mask, art: Artifacts, k: string) returns (hasDiff: bool)
    requires cache.Valid() && mask.Valid() && mask.mask.Length == Words(|art.orderedCols|)
    requires Cleared(mask.mask[..])
    modifies cache, mask, mask.mask
    ensures cache.Valid() && mask.Valid()
    ensures hasDiff <==> RowDiffers(cache.norm, art, k)
    ensures Marks(mask.mask[..], cache.norm, art, k, |art.orderedCols|)
  {
    hasDiff := false;
    for i := 0 to |art.orderedCols|
      invariant cache.Valid() && mask.Valid()
      invariant hasDiff <==> exists c :: 0 <= c < i && PairDiffers(cache.norm, art, k, c)
      invariant Marks(mask.mask[..], cache.norm, art, k, i)
    {
      var isDiff := CellsDiffer(cache, LeftCell(art, k, i), RightCell(art, k, i));
      MarkNext(mask.mask[..], cache.norm, art, k, i);
      if isDiff {
        assert PairDiffers(cache.norm, art, k, i);
        hasDiff := true;
        mask.Set(i);
      }
    }
  }

  /** The two cells of a column, by the mask. */
  method PairFromMask(norm: Normalizer, mask: Mask, art: Artifacts, k: string, red: int,
                      ghost pairs: nat -> seq<Cell>, i: nat)
    returns (pair: seq<Cell>)
    requires Marks(mask.mask[..], norm, art, k, |art.orderedCols|) && i < |art.orderedCols|
    requires pairs == PairOf(norm, art, k, red)
    ensures pair == pairs(i)
  {
    var isDiff := Get(mask.mask[..], i);
    var ca, cb := Cell(Safe(LeftCell(art, k, i)), 0), Cell(Safe(RightCell(art, k, i)), 0);
    if isDiff && red > 0 {
      ca, cb := ca.(style := red), cb.(style := red);
    }
    return [ca, cb];
  }

  lemma Assoc<T>(a: seq<T>, b: seq<T>, c: seq<T>)
    ensures (a + b) + c == a + (b + c)
  {
  }

  /** Appends the cells of all columns to a row that starts with its key. */
  method AppendPairs(norm: Normalizer, mask: Mask, art: Artifacts, k: string, red: int,
                     ghost pairs: nat -> seq<Cell>, head: Cell)
    returns (row: seq<Cell>)
    requires Marks(mask.mask[..], norm, art, k, |art.orderedCols|)
    requires pairs == PairOf(norm, art, k, red)
    ensures row == [head] + Joined(pairs, |art.orderedCols|)
  {
    row := [head];
    for i := 0 to |art.orderedCols|
      invariant row == [head] + Joined(pairs, i)
    {
      var pair := PairFromMask(norm, mask, art, k, red, pairs, i);
      Assoc([head], Joined(pairs, i), pair);
      row := row + pair;
    }
  }

  /** Emits one row from the mask. */
  method RowFromMask(norm: Normalizer, mask: Mask, art: Artifacts, k: string, red: int) returns (row: seq<Cell>)
    requires Marks(mask.mask[..], norm, art, k, |art.orderedCols|)
    ensures row == DiffRow(norm, art, k, red)
  {
    row := AppendPairs(norm, mask, art, k, red, PairOf(norm, art, k, red), Cell(Safe(k), 0));
  }

  method HeaderFor(art: Artifacts, name1: string, name2: string) returns (header: seq<Cell>)
    ensures header == HeaderRow(art, name1, name2)
  {
    header := [Cell(art.key, 0)];
    for i := 0 to |art.orderedCols|
      invariant header == [Cell(art.key, 0)] + HeaderCells(art.orderedCols, name1, name2, i)
    {
      var c := art.orderedCols[i];
      header := header + [Cell(c + "（" + name1 + "）", 0), Cell(c + "（" + name2 + "）", 0)];
    }
  }

  lemma RowAppended(norm: Normalizer, art: Artifacts, header: seq<Cell>, red: int, changed: seq<string>, k: string)
    ensures HeadedRows(norm, art, header, red, changed + [k])
      == (if changed == [] then [SheetRow(1, header)] else HeadedRows(norm, art, header, red, changed))
         + [SheetRow(|changed| + 2, DiffRow(norm, art, k, red))]
  {
    assert (changed + [k])[..|changed|] == changed;
  }

  /** Emits the row of a changed key, with the header before the first one. */
  method EmitChanged(sw: StreamWriter, norm: Normalizer, mask: Mask, art: Artifacts, k: string, name1: string,
                     name2: string,
                     red: int, rowNum: nat, firstWritten: bool, ghost changed: seq<string>)
    returns (ok: bool, nextRow: nat)
    requires Marks(mask.mask[..], norm, art, k, |art.orderedCols|)
    requires firstWritten <==> changed != []
    requires sw.rows == HeadedRows(norm, art, HeaderRow(art, name1, name2), red, changed)
    requires sw.last == |sw.rows| && rowNum == sw.last + 1
    modifies sw
    ensures ok && sw.rows == HeadedRows(norm, art, HeaderRow(art, name1, name2), red, changed + [k])
    ensures sw.last == |sw.rows| && nextRow == sw.last + 1
  {
    nextRow := rowNum;
    if !firstWritten {
      var header := HeaderFor(art, name1, name2);
      ok := sw.SetRow(nextRow, header);
      nextRow := nextRow + 1;
    }
    var row := RowFromMask(norm, mask, art, k, red);
    ok := sw.SetRow(nextRow, row);
    nextRow := nextRow + 1;
    RowAppended(norm, art, HeaderRow(art, name1, name2), red, changed, k);
  }

  /** The rows of the common keys, each compared through the cache and the mask. */
  method WriteChangedRows(sw: StreamWriter, cache: NormCache, mask: Mask, art: Artifacts, name1: string,
                          name2: string, red: int)
    returns (ok: bool)
    requires sw.rows == [] && sw.last == 0
    requires cache.Valid() && mask.Valid() && mask.mask.Length == Words(|art.orderedCols|)
    requires Cleared(mask.mask[..])
    modifies sw, cache, mask, mask.mask
    ensures ok && sw.last == |sw.rows|
    ensures sw.rows == HeadedRows(cache.norm, art, HeaderRow(art, name1, name2), red,
                                  ChangedKeys(cache.norm, art, |art.commonKeys|))
  {
    ghost var changed: seq<string> := [];
    var rowNum := 1;
    var firstWritten := false;
    ok := true;
    for n := 0 to |art.commonKeys|
      invariant ok && cache.Valid() && mask.Valid()
      invariant Cleared(mask.mask[..])
      invariant changed == ChangedKeys(cache.norm, art, n)
      invariant firstWritten <==> changed != []
      invariant sw.rows == HeadedRows(cache.norm, art, HeaderRow(art, name1, name2), red, changed)
      invariant sw.last == |sw.rows| && rowNum == sw.last + 1
    {
      var k := art.commonKeys[n];
      var hasDiff := MarkRow(cache, mask, art, k);
      if !hasDiff {
        mask.Reset();
        continue;
      }
      ok, rowNum := EmitChanged(sw, cache.norm, mask, art, k, name1, name2, red, rowNum, firstWritten, changed);
      changed := changed + [k];
      firstWritten := true;
      mask.Reset();
    }
  }

  /** The streaming writer refines the direct comparison, for every cache bound, every fingerprint
      function and every list of common keys; and it never asks for a row out of order. */
  method WriteDiffSideBySide(norm: Normalizer, fp: Hash, size: string -> nat, cacheMax: nat, art: Artifacts,
                             file1Name: string, file2Name: string, red: int)
    returns (sheet: Sheet, ok: bool)
    ensures ok
    ensures sheet == DiffSheet(norm, art, DisplayName(file1Name, "文件1"), DisplayName(file2Name, "文件2"), red)
  {
    var sw := new StreamWriter();
    if |art.commonKeys| == 0 {
      ok := sw.SetRow(1, [Cell("无变动项目", 0)]);
      return sw.rows, ok;
    }
    var name1, name2 := DisplayName(file1Name, "文件1"), DisplayName(file2Name, "文件2");
    var cache := new NormCache(cacheMax, norm, fp, size);
    var mask := new Mask(|art.orderedCols|);
    ok := WriteChangedRows(sw, cache, mask, art, name1, name2, red);
    if |sw.rows| == 0 {
      ok := sw.SetRow(1, [Cell("无变动项目", 0)]);
    }
    sheet := sw.rows;
  }
}
