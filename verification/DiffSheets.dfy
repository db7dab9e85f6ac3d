/** What the emitted sheets say, cell by cell. */
module DiffSheets {
  import opened Text
  import opened Headers
  import opened KeyOrder
  import opened KeyGuess
  import opened KeyedRead
  import opened Compare
  import opened DiffWriter

  // ----- The increase and reduction sheets -----

  lemma {:induction false} KeyedRowAt(width: nat, keys: seq<string>, byKey: map<string, Row>, n: nat)
    requires n <= |keys| && forall k :: k in keys ==> k in byKey
    ensures |KeyedRowsOf(width, keys, byKey, n)| == n
    ensures forall j :: 0 <= j < n ==>
      KeyedRowsOf(width, keys, byKey, n)[j] == SheetRow(j + 2, SafeRow(byKey[keys[j]], width))
  {
    if n > 0 {
      KeyedRowAt(width, keys, byKey, n - 1);
      assert keys[n - 1] in keys;
    }
  }

  /** One row for each key in the order of the keys, below a first row. */
  lemma SimpleSheetRows(headers: seq<string>, keys: seq<string>, byKey: map<string, Row>, msg: string)
    requires headers != [] && forall k :: k in keys ==> k in byKey
    ensures |SimpleSheet(headers, keys, byKey, msg)| == |keys| + 1
    ensures forall j :: 0 <= j < |keys| ==>
      SimpleSheet(headers, keys, byKey, msg)[j + 1] == SheetRow(j + 2, SafeRow(byKey[keys[j]], |headers|))
    ensures SimpleSheet(headers, keys, byKey, msg)[0] == SheetRow(1, if keys
      == [] then [Cell(msg, 0)] else Plain(headers))
  {
    KeyedRowAt(|headers|, keys, byKey, |keys|);
  }

  /** The cells of the header row are the headers, and those of a data row are the row's, blank ones empty, all
      in the default style and at the width of the header row. */
  lemma SimpleSheetCells(headers: seq<string>, keys: seq<string>, byKey: map<string, Row>, msg: string, j: nat, x: nat)
    requires headers != [] && (forall k :: k in keys ==> k in byKey) && j < |keys| && x < |headers|
    ensures var sheet := SimpleSheet(headers, keys, byKey, msg);
      && |sheet| == |keys| + 1 && |sheet[0].cells| == |headers| && |sheet[j + 1].cells| == |headers|
      && sheet[0].num == 1 && sheet[0].cells[x] == Cell(headers[x], 0) && sheet[j + 1].num == j + 2
      && var row := byKey[keys[j]];
         sheet[j + 1].cells[x] == Cell(if x >= |row| || Blank(row[x]) then "" else row[x], 0)
  {
    SimpleSheetRows(headers, keys, byKey, msg);
    var sheet := SimpleSheet(headers, keys, byKey, msg);
    assert sheet[j + 1] == SheetRow(j + 2, SafeRow(byKey[keys[j]], |headers|));
  }

  // ----- The diff sheet -----

  lemma {:induction false} HeaderCellsAt(cols: seq<string>, name1: string, name2: string, n: nat, i: nat)
    requires i < n <= |cols|
    ensures |HeaderCells(cols, name1, name2, n)| == 2 * n
    ensures HeaderCells(cols, name1, name2, n)[2 * i] == Cell(cols[i] + "（" + name1 + "）", 0)
    ensures HeaderCells(cols, name1, name2, n)[2 * i + 1] == Cell(cols[i] + "（" + name2 + "）", 0)
    decreases n
  {
    if n > 1 {
      HeaderCellsAt(cols, name1, name2, n - 1, if i < n - 1 then i else 0);
    }
    assert |HeaderCells(cols, name1, name2, n - 1)| == 2 * (n - 1);
  }

  /** The header row: the key, then every column twice, once with the name of each file. */
  lemma HeaderRowCells(art: Artifacts, name1: string, name2: string, i: nat)
    requires i < |art.orderedCols|
    ensures var h := HeaderRow(art, name1, name2);
      && |h| == 1 + 2 * |art.orderedCols| && h[0] == Cell(art.key, 0)
      && h[1 + 2 * i] == Cell(art.orderedCols[i] + "（" + name1 + "）", 0)
      && h[2 + 2 * i] == Cell(art.orderedCols[i] + "（" + name2 + "）", 0)
  {
    HeaderCellsAt(art.orderedCols, name1, name2, |art.orderedCols|, i);
  }

  /** A file without a name goes by the fallback. */
  lemma DisplayNames(fileName: string, fallback: string)
    ensures Blank(fileName) ==> DisplayName(fileName, fallback) == fallback
    ensures !Blank(fileName) ==> DisplayName(fileName, fallback) == TrimSpace(fileName)
  {
    BlankIffTrimmedAway(fileName);
  }

  /** The changed keys are exactly the common keys with a differing row, in their order. */
  lemma {:induction false} ChangedKeysAre(norm: Normalizer, art: Artifacts, n: nat)
    requires n <= |art.commonKeys| && Ascending(art.commonKeys)
    ensures forall k :: k in ChangedKeys(norm, art, n) <==>
      exists i :: 0 <= i < n && art.commonKeys[i] == k && RowDiffers(norm, art, k)
    ensures Ascending(ChangedKeys(norm, art, n))
  {
    if n > 0 {
      ChangedKeysAre(norm, art, n - 1);
      var before := ChangedKeys(norm, art, n - 1);
      forall j | 0 <= j < |before|
        ensures Less(before[j], art.commonKeys[n - 1])
      {
        assert before[j] in before;
        var i :| 0 <= i < n - 1 && art.commonKeys[i] == before[j];
      }
    }
  }

  lemma {:induction false} JoinedAt(pair: nat -> seq<Cell>, n: nat, i: nat)
    requires i < n && forall k: nat :: |pair(k)| == 2
    ensures |Joined(pair, n)| == 2 * n
    ensures Joined(pair, n)[2 * i] == pair(i)[0] && Joined(pair, n)[2 * i + 1] == pair(i)[1]
    decreases n
  {
    if n > 1 {
      JoinedAt(pair, n - 1, if i < n - 1 then i else 0);
    }
    assert |Joined(pair, n - 1)| == 2 * (n - 1);
    assert |pair(n - 1)| == 2;
  }

  lemma RowAt(head: Cell, pair: nat -> seq<Cell>, n: nat, i: nat)
    requires i < n && forall k: nat :: |pair(k)| == 2
    ensures |[head] + Joined(pair, n)| == 1 + 2 * n
    ensures ([head] + Joined(pair, n))[1 + 2 * i] == pair(i)[0] && ([head] + Joined(pair, n))[2 + 2 * i] == pair(i)[1]
  {
    JoinedAt(pair, n, i);
  }

  lemma PairCells(norm: Normalizer, art: Artifacts, k: string, red: int)
    ensures forall i: nat :: |PairOf(norm, art, k, red)(i)| == 2
    ensures forall i: nat :: PairOf(norm, art, k, red)(i) == Pair(norm, art, k, red, i)
  {
  }

  /** The row of a key: the key, then for every column the two files' cells, both in the red style
      (if there is one) if their normal forms differ, and both in the default style if not. */
  lemma DiffRowCells(norm: Normalizer, art: Artifacts, k: string, red: int, i: nat)
    requires i < |art.orderedCols|
    ensures |DiffRow(norm, art, k, red)| == 1 + 2 * |art.orderedCols|
    ensures DiffRow(norm, art, k, red)[0] == Cell(Safe(k), 0)
    ensures var a, b := LeftCell(art, k, i), RightCell(art, k, i);
      var style := if norm(a) != norm(b) && red > 0 then red else 0;
      && DiffRow(norm, art, k, red)[1 + 2 * i] == Cell(if Blank(a) then "" else a, style)
      && DiffRow(norm, art, k, red)[2 + 2 * i] == Cell(if Blank(b) then "" else b, style)
  {
    PairCells(norm, art, k, red);
    RowAt(Cell(Safe(k), 0), PairOf(norm, art, k, red), |art.orderedCols|, i);
  }

  lemma {:induction false} DiffRowAt(norm: Normalizer, art: Artifacts, red: int, changed: seq<string>)
    ensures forall j :: 0 <= j < |changed| ==>
      DiffRows(norm, art, red, changed)[j] == SheetRow(j + 2, DiffRow(norm, art, changed[j], red))
  {
    if changed != [] {
      DiffRowAt(norm, art, red, changed[..|changed| - 1]);
    }
  }

  lemma ChangedKeysDiffer(norm: Normalizer, art: Artifacts)
    requires Ascending(art.commonKeys)
    ensures forall k :: k in ChangedKeys(norm, art, |art.commonKeys|) <==> k in art.commonKeys && RowDiffers(norm,
      art, k)
  {
    ChangedKeysAre(norm, art, |art.commonKeys|);
    forall k | k in art.commonKeys
      ensures exists i :: 0 <= i < |art.commonKeys| && art.commonKeys[i] == k
    {
    }
  }

  lemma HeadedRowsAt(norm: Normalizer, art: Artifacts, header: seq<Cell>, red: int, changed: seq<string>)
    requires changed != []
    ensures |HeadedRows(norm, art, header, red, changed)| == |changed| + 1
    ensures HeadedRows(norm, art, header, red, changed)[0] == SheetRow(1, header)
    ensures forall j :: 0 <= j < |changed| ==>
      HeadedRows(norm, art, header, red, changed)[j + 1] == SheetRow(j + 2, DiffRow(norm, art, changed[j], red))
  {
    DiffRowAt(norm, art, red, changed);
    var rows := DiffRows(norm, art, red, changed);
    forall j | 0 <= j < |changed|
      ensures ([SheetRow(1, header)] + rows)[j + 1] == rows[j]
    {
    }
  }

  /** The diff sheet has a header row if and only if some common row differs; below it stand exactly
      the changed keys, in ascending order, on consecutive rows. */
  lemma DiffSheetRows(norm: Normalizer, art: Artifacts, name1: string, name2: string, red: int, changed: seq<string>)
    requires Ascending(art.commonKeys) && changed == ChangedKeys(norm, art, |art.commonKeys|)
    ensures forall k :: k in changed <==> k in art.commonKeys && RowDiffers(norm, art, k)
    ensures Ascending(changed)
    ensures |DiffSheet(norm, art, name1, name2, red)| == |changed| + 1
    ensures DiffSheet(norm, art, name1, name2, red)[0]
      == SheetRow(1, if changed == [] then [Cell("无变动项目", 0)] else HeaderRow(art, name1, name2))
    ensures forall j :: 0 <= j < |changed| ==>
      DiffSheet(norm, art, name1, name2, red)[j + 1] == SheetRow(j + 2, DiffRow(norm, art, changed[j], red))
  {
    ChangedKeysAre(norm, art, |art.commonKeys|);
    ChangedKeysDiffer(norm, art);
    if changed != [] {
      HeadedRowsAt(norm, art, HeaderRow(art, name1, name2), red, changed);
    }
  }
}
