/** Reading a sheet into a key-to-row map: the streaming reader that peeks at a few rows to guess
    the key and then goes on, and the batch reader that takes the whole table first.  All of it
    works for any cell normaliser `norm`; the program's is Normalize.NormalizeScalar. */
module KeyedRead {
  import opened Text
  import opened Domain
  import opened Headers
  import opened KeyGuess

  type Normalizer = string -> string

  // ----- One row -----

  /** Every data row gets the width of the header row. */
  function PadRow(cols: Row, n: nat): (r: Row)
    ensures |r| == n && forall i :: 0 <= i < n ==> r[i] == if i < |cols| then cols[i] else ""
  {
    if n == 0 then []
    else if |cols| == n then cols
    else seq(n, i requires 0 <= i < n => if i < |cols| then cols[i] else "")
  }

  /** The row's key, if it has one. */
  function KeyOf(norm: Normalizer, row: Row, keyIdx: nat): Option<string> {
    if keyIdx >= |row| then None
    else
      var k := norm(row[keyIdx]);
      if Blank(k) then None else Some(k)
  }

  // ----- The key index -----

  datatype Keyed = Keyed(rows: map<string, Row>, dups: seq<string>, seenDup: set<string>)

  const EMPTY: Keyed := Keyed(map[], [], {})

  /** The first row of a key wins; the first ten repeated keys are reported. */
  function AddRow(st: Keyed, row: Row, k: Option<string>): Keyed {
    if k.None? then st
    else if k.value in st.rows then
      if k.value in st.seenDup then st
      else st.(seenDup := st.seenDup + {k.value}, dups := if |st.dups| < 10 then st.dups + [k.value] else st.dups)
    else st.(rows := st.rows[k.value := row])
  }

  function KeysOf(norm: Normalizer, rows: seq<Row>, keyIdx: nat): (keys: seq<Option<string>>)
    ensures |keys| == |rows| && forall i :: 0 <= i < |rows| ==> keys[i] == KeyOf(norm, rows[i], keyIdx)
  {
    seq(|rows|, i requires 0 <= i < |rows| => KeyOf(norm, rows[i], keyIdx))
  }

  /** The index of the first `n` rows, given the key of each row. */
  function Build(rows: seq<Row>, keys: seq<Option<string>>, n: nat): Keyed
    requires n <= |rows| == |keys|
  {
    if n == 0 then EMPTY else AddRow(Build(rows, keys, n - 1), rows[n - 1], keys[n - 1])
  }

  /** The index of a whole table. */
  function Index(norm: Normalizer, rows: seq<Row>, keyIdx: nat): Keyed {
    Build(rows, KeysOf(norm, rows, keyIdx), |rows|)
  }

  /** The reader's maps, and the `add` that its two loops share. */
  class KeyIndex {
    var rowsByKey: map<string, Row>
    var dups: seq<string>
    var seenDup: set<string>
    const norm: Normalizer
    const keyIdx: nat

    constructor (norm: Normalizer, keyIdx: nat)
      ensures this.norm == norm && this.keyIdx == keyIdx && State() == EMPTY
    {
      this.norm, this.keyIdx := norm, keyIdx;
      rowsByKey, dups, seenDup := map[], [], {};
    }

    function State(): Keyed
      reads this
    {
      Keyed(rowsByKey, dups, seenDup)
    }

    method Add(row: Row)
      modifies this
      ensures State() == AddRow(old(State()), row, KeyOf(norm, row, keyIdx))
      ensures keyIdx >= |row| || Blank(norm(row[keyIdx])) ==> State() == old(State())
      ensures keyIdx < |row| && !Blank(norm(row[keyIdx])) ==>
        var k := norm(row[keyIdx]);
        && rowsByKey == (if k in old(rowsByKey) then old(rowsByKey) else old(rowsByKey)[k := row])
        && seenDup == (if k in old(rowsByKey) then old(seenDup) + {k} else old(seenDup))
        && dups == old(dups) + if k in old(rowsByKey) && k !in old(seenDup) && |old(dups)| < 10 then [k] else []
    {
      if keyIdx >= |row| {
        return;
      }
      var k := norm(row[keyIdx]);
      BlankIffTrimmedAway(k);
      if TrimSpace(k) == "" {
        return;
      }
      if k in rowsByKey {
        if k !in seenDup {
          seenDup := seenDup + {k};
          if |dups| < 10 {
            dups := dups + [k];
          }
        }
        return;
      }
      rowsByKey := rowsByKey[k := row];
    }
  }

  // ----- The batch reader -----

  datatype Table = Table(headers: seq<string>, rows: seq<Row>)

  /** The data rows of a sheet, below its header row, at the width of that row. */
  function DataRows(raw: seq<Row>, width: nat): (rows: seq<Row>)
    requires raw != []
    ensures |rows| == |raw| - 1 && forall i :: 0 <= i < |rows| ==> rows[i] == PadRow(raw[i + 1], width)
  {
    seq(|raw| - 1, i requires 0 <= i < |raw| - 1 => PadRow(raw[i + 1], width))
  }

  /** The padded table of a sheet whose first row is the header row. */
  function TableOf(raw: seq<Row>): Table {
    if raw == [] then Table([], [])
    else
      var h := NormalHeaders(raw[0]);
      Table(h, if h == [] then [] else DataRows(raw, |h|))
  }

  method PadByHand(cols: Row, n: nat) returns (row: Row)
    ensures row == PadRow(cols, n)
  {
    row := [];
    for c := 0 to n
      invariant row == PadRow(cols, n)[..c]
    {
      row := row + [if c < |cols| then cols[c] else ""];
    }
  }

  method ReadTable(raw: seq<Row>) returns (t: Table)
    ensures t == TableOf(raw)
  {
    var headers: seq<string> := [];
    var rows: seq<Row> := [];
    var rowIdx := 0;
    while rowIdx < |raw|
      invariant 0 <= rowIdx <= |raw|
      invariant headers == if rowIdx == 0 then [] else NormalHeaders(raw[0])
      invariant |rows| == if |headers| == 0 then 0 else rowIdx - 1
      invariant forall k :: 0 <= k < |rows| ==> rows[k] == PadRow(raw[k + 1], |headers|)
    {
      var cols := raw[rowIdx];
      rowIdx := rowIdx + 1;
      if rowIdx == 1 {
        headers := NormalizeHeaders(cols);
        continue;
      }
      if |headers| == 0 {
        continue;
      }
      var row := PadByHand(cols, |headers|);
      rows := rows + [row];
    }
    t := Table(headers, rows);
  }

  method BuildKeyRowMap(norm: Normalizer, t: Table, keyIdx: nat) returns (st: Keyed)
    ensures st == Index(norm, t.rows, keyIdx) && IsIndex(norm, t.rows, keyIdx, st)
  {
    ghost var keys := KeysOf(norm, t.rows, keyIdx);
    var index := new KeyIndex(norm, keyIdx);
    for i := 0 to |t.rows|
      invariant index.State() == Build(t.rows, keys, i)
    {
      index.Add(t.rows[i]);
    }
    st := index.State();
    IndexIs(norm, t.rows, keyIdx);
  }

  // ----- Loading a sheet by key -----

  datatype Loaded =
    | NoHeader                      // an empty sheet, no error
    | NoGuess                       // error: no column can be the key
    | BlankKey                      // error: the key column has no name
    | NoSuchColumn                  // error: the key column is not in the sheet
    | Sheet(headers: seq<string>, key: string, st: Keyed)

  /** Loading as a specification: read the whole table, then guess, then index. */
  function BatchLoad(norm: Normalizer, raw: seq<Row>, checkRows: int, key: string, allowGuess: bool,
                     score: Score): Loaded {
    if raw == [] then NoHeader
    else
      var t := TableOf(raw);
      var guess := Guess(t.headers, t.rows[..RowsChecked(t.rows, checkRows)], score);
      if allowGuess && guess.None? then NoGuess
      else
        var used := if allowGuess then guess.value else TrimSpace(key);
        if used == "" then BlankKey
        else
          var idx := IndexOf(t.headers, used);
          if idx < 0 then NoSuchColumn else Sheet(t.headers, used, Index(norm, t.rows, idx))
  }

  /** What a loaded sheet is. */
  lemma LoadedSheet(norm: Normalizer, raw: seq<Row>, checkRows: int, key: string, allowGuess: bool, score: Score)
    requires BatchLoad(norm, raw, checkRows, key, allowGuess, score).Sheet?
    ensures raw != [] && BatchLoad(norm, raw, checkRows, key, allowGuess, score).headers == TableOf(raw).headers
    ensures BatchLoad(norm, raw, checkRows, key, allowGuess, score).key in TableOf(raw).headers
    ensures var l := BatchLoad(norm, raw, checkRows, key, allowGuess, score);
      l.st == Index(norm, TableOf(raw).rows, IndexOf(l.headers, l.key)) && (!allowGuess ==> l.key == TrimSpace(key))
  {
  }

  /** The streaming reader's first loop: at most `check` rows, and the cursor behind them. */
  method Peek(raw: seq<Row>, width: nat, check: nat) returns (peek: seq<Row>, next: nat)
    requires raw != []
    ensures 1 <= next <= |raw| && peek == DataRows(raw, width)[..next - 1]
    ensures next - 1 == if |raw| - 1 < check then |raw| - 1 else check
  {
    peek, next := [], 1;
    while |peek| < check && next < |raw|
      invariant 1 <= next <= |raw| && next - 1 <= check && peek == DataRows(raw, width)[..next - 1]
    {
      peek := peek + [PadRow(raw[next], width)];
      next := next + 1;
    }
  }

  /** Adds the n-th data row. */
  method AddAt(index: KeyIndex, row: Row, ghost rows: seq<Row>, ghost keys: seq<Option<string>>, ghost n: nat)
    requires n < |rows| == |keys| && row == rows[n]
    requires keys == KeysOf(index.norm, rows, index.keyIdx) && index.State() == Build(rows, keys, n)
    modifies index
    ensures index.State() == Build(rows, keys, n + 1)
  {
    index.Add(row);
  }

  /** Its second loop: index the peeked rows. */
  method IndexPeeked(index: KeyIndex, peek: seq<Row>, ghost rows: seq<Row>, ghost keys: seq<Option<string>>)
    requires |peek| <= |rows| == |keys| && peek == rows[..|peek|]
    requires keys == KeysOf(index.norm, rows, index.keyIdx) && index.State() == EMPTY
    modifies index
    ensures index.State() == Build(rows, keys, |peek|)
  {
    for i := 0 to |peek|
      invariant index.State() == Build(rows, keys, i)
    {
      AddAt(index, peek[i], rows, keys, i);
    }
  }

  /** Its third loop: index the rest of the sheet. */
  method IndexRest(index: KeyIndex, raw: seq<Row>, width: nat, start: nat, ghost rows: seq<Row>,
                   ghost keys: seq<Option<string>>)
    requires 1 <= start <= |raw| == |rows| + 1 && |keys| == |rows|
    requires forall m :: 1 <= m < |raw| ==> rows[m - 1] == PadRow(raw[m], width)
    requires keys == KeysOf(index.norm, rows, index.keyIdx) && index.State() == Build(rows, keys, start - 1)
    modifies index
    ensures index.State() == Build(rows, keys, |rows|)
  {
    var next := start;
    while next < |raw|
      invariant start <= next <= |raw| && index.State() == Build(rows, keys, next - 1)
    {
      var cols := raw[next];
      AddAt(index, PadRow(cols, width), rows, keys, next - 1);
      next := next + 1;
    }
  }

  method IndexRows(norm: Normalizer, raw: seq<Row>, width: nat, peek: seq<Row>, start: nat, keyIdx: nat)
    returns (st: Keyed)
    requires 1 <= start <= |raw| && peek == DataRows(raw, width)[..start - 1]
    ensures st == Index(norm, DataRows(raw, width), keyIdx)
  {
    ghost var rows := DataRows(raw, width);
    ghost var keys := KeysOf(norm, rows, keyIdx);
    var index := new KeyIndex(norm, keyIdx);
    IndexPeeked(index, peek, rows, keys);
    IndexRest(index, raw, width, start, rows, keys);
    st := index.State();
  }

  /** The streaming reader: it loses no row and reads none twice, so its result is that of the batch
      reader, whatever the number of rows it peeks at. */
  method LoadKeyedSheet(norm: Normalizer, raw: seq<Row>, checkRows: int, key: string, allowGuess: bool, score: Score)
    returns (r: Loaded)
    ensures r == BatchLoad(norm, raw, checkRows, key, allowGuess, score)
    ensures r.Sheet? ==>
      && raw != [] && r.headers == NormalHeaders(raw[0]) && r.key in r.headers
      && Holds(norm, raw, IndexOf(r.headers, r.key), |r.headers|, r.st)
  {
    if raw == [] {
      return NoHeader;
    }
    var headers := NormalizeHeaders(raw[0]);
    var check := if checkRows <= 0 then 5 else checkRows;
    var peek, next := Peek(raw, |headers|, check);
    var used, guessed := ChooseKey(raw, headers, peek, checkRows, check, key, allowGuess, score);
    if !guessed {
      return NoGuess;
    }
    if used == "" {
      return BlankKey;
    }
    var keyIdx := IndexOfHeader(headers, used);
    if keyIdx < 0 {
      return NoSuchColumn;
    }
    var st := IndexRows(norm, raw, |headers|, peek, next, keyIdx);
    IndexHolds(norm, raw, |headers|, keyIdx);
    return Sheet(headers, used, st);
  }

  /** The key to use, and whether there is one. */
  method ChooseKey(ghost raw: seq<Row>, headers: seq<string>, peek: seq<Row>, ghost checkRows: int, check: nat,
                   key: string,
                   allowGuess: bool, score: Score) returns (used: string, guessed: bool)
    requires raw != [] && headers == NormalHeaders(raw[0]) && check == if checkRows <= 0 then 5 else checkRows
    requires peek == DataRows(raw, |headers|)[..if |raw| - 1 < check then |raw| - 1 else check]
    ensures var t := TableOf(raw);
      var guess := Guess(t.headers, t.rows[..RowsChecked(t.rows, checkRows)], score);
      guessed == (allowGuess ==> guess.Some?) && (guessed ==>
        used == if allowGuess then guess.value else TrimSpace(key))
  {
    used := TrimSpace(key);
    guessed := true;
    if allowGuess {
      var guess := GuessPrimaryKeyColumn(headers, peek, check, score);
      SameGuess(raw, checkRows, peek, score);
      if guess.None? {
        return "", false;
      }
      used := guess.value;
    }
  }

  /** The guess from the peeked rows is the guess from the whole table. */
  lemma SameGuess(raw: seq<Row>, checkRows: int, peek: seq<Row>, score: Score)
    requires raw != []
    requires var check := if checkRows <= 0 then 5 else checkRows;
      peek == DataRows(raw, |NormalHeaders(raw[0])|)[..if |raw| - 1 < check then |raw| - 1 else check]
    ensures var t := TableOf(raw);
      Guess(t.headers, peek[..RowsChecked(peek, checkRows)], score)
        == Guess(t.headers, t.rows[..RowsChecked(t.rows, checkRows)], score)
  {
    var t := TableOf(raw);
    if t.headers != [] {
      assert peek[..RowsChecked(peek, checkRows)] == t.rows[..RowsChecked(t.rows, checkRows)];
    }
  }

  // ----- What the key index holds -----

  type Keys = seq<Option<string>>

  ghost predicate Occurs(keys: Keys, n: nat, k: string)
    requires n <= |keys|
  {
    exists i :: 0 <= i < n && keys[i] == Some(k)
  }

  ghost predicate Repeated(keys: Keys, n: nat, k: string)
    requires n <= |keys|
  {
    exists i, j :: 0 <= i < j < n && keys[i] == Some(k) && keys[j] == Some(k)
  }

  /** `row` is the first row with key `k`. */
  ghost predicate FirstOf(rows: seq<Row>, keys: Keys, n: nat, k: string, row: Row)
    requires n <= |rows| == |keys|
  {
    exists i :: 0 <= i < n && rows[i] == row && keys[i] == Some(k) && forall j :: 0 <= j < i ==> keys[j] != Some(k)
  }

  /** The index holds exactly the keys that occur, each with its first row; it has noticed exactly the
      keys that occur again. */
  lemma {:induction false} IndexIsFirstWins(rows: seq<Row>, keys: Keys, n: nat)
    requires n <= |rows| == |keys|
    ensures forall k :: k in Build(rows, keys, n).rows <==> Occurs(keys, n, k)
    ensures forall k :: k in Build(rows, keys, n).rows ==> FirstOf(rows, keys, n, k, Build(rows, keys, n).rows[k])
    ensures forall k :: k in Build(rows, keys, n).seenDup <==> Repeated(keys, n, k)
  {
    if n > 0 {
      IndexIsFirstWins(rows, keys, n - 1);
      var st, before := Build(rows, keys, n), Build(rows, keys, n - 1);
      forall k
        ensures k in st.rows <==> Occurs(keys, n, k)
        ensures k in st.rows ==> FirstOf(rows, keys, n, k, st.rows[k])
        ensures k in st.seenDup <==> Repeated(keys, n, k)
      {
        assert k in before.rows <==> Occurs(keys, n - 1, k);
        assert Repeated(keys, n, k) <==> Repeated(keys, n - 1, k) || (keys[n - 1] == Some(k) && Occurs(keys, n - 1, k));
      }
    }
  }

  /** The repeated keys in the order in which their first repetitions are met. */
  ghost function Repeats(keys: Keys, n: nat): seq<string>
    requires n <= |keys|
  {
    if n == 0 then []
    else
      var r := Repeats(keys, n - 1);
      var k := keys[n - 1];
      if k.Some? && Occurs(keys, n - 1, k.value) && !Repeated(keys, n - 1, k.value) then r + [k.value] else r
  }

  lemma {:induction false} RepeatsAreRepeated(keys: Keys, n: nat)
    requires n <= |keys|
    ensures Distinct(Repeats(keys, n)) && forall k :: k in Repeats(keys, n) <==> Repeated(keys, n, k)
  {
    if n > 0 {
      RepeatsAreRepeated(keys, n - 1);
      forall k
        ensures Repeated(keys, n, k) <==> Repeated(keys, n - 1, k) || (keys[n - 1] == Some(k) && Occurs(keys, n - 1, k))
      {
      }
    }
  }

  function Capped(l: seq<string>): seq<string> {
    if |l| <= 10 then l else l[..10]
  }

  /** The report lists the first ten repeated keys, each once, in the order of their first repetitions. */
  lemma {:induction false} ReportIsFirstTen(rows: seq<Row>, keys: Keys, n: nat)
    requires n <= |rows| == |keys|
    ensures Build(rows, keys, n).dups == Capped(Repeats(keys, n))
    ensures Distinct(Repeats(keys, n)) && forall k :: k in Repeats(keys, n) <==> Repeated(keys, n, k)
  {
    RepeatsAreRepeated(keys, n);
    if n > 0 {
      ReportIsFirstTen(rows, keys, n - 1);
      IndexIsFirstWins(rows, keys, n - 1);
    }
  }

  /** Row `i` reaches column `c`, and its cell there normalises to `k`, which is not blank. */
  ghost predicate RowHasKey(norm: Normalizer, rows: seq<Row>, c: nat, i: int, k: string) {
    0 <= i < |rows| && c < |rows[i]| && norm(rows[i][c]) == k && !Blank(k)
  }

  /** The index holds each key that occurs, with the first of its rows. */
  ghost predicate IsIndex(norm: Normalizer, rows: seq<Row>, c: nat, st: Keyed) {
    && (forall k :: k in st.rows <==> exists i :: RowHasKey(norm, rows, c, i, k))
    && (forall i, k :: RowHasKey(norm, rows, c, i, k) && (forall j :: j < i ==> !RowHasKey(norm, rows, c, j, k)) ==>
      k in st.rows && st.rows[k] == rows[i])
  }

  lemma KeysOfRows(norm: Normalizer, rows: seq<Row>, c: nat)
    ensures forall i, k :: RowHasKey(norm, rows, c, i, k) <==> 0 <= i < |rows| && KeysOf(norm, rows, c)[i] == Some(k)
  {
  }

  lemma IndexIs(norm: Normalizer, rows: seq<Row>, c: nat)
    ensures IsIndex(norm, rows, c, Index(norm, rows, c))
  {
    var keys := KeysOf(norm, rows, c);
    var st := Index(norm, rows, c);
    IndexIsFirstWins(rows, keys, |rows|);
    KeysOfRows(norm, rows, c);
    forall k
      ensures k in st.rows <==> exists i :: RowHasKey(norm, rows, c, i, k)
    {
      if i :| RowHasKey(norm, rows, c, i, k) {
        assert keys[i] == Some(k);
      }
      if k in st.rows {
        var i :| 0 <= i < |rows| && keys[i] == Some(k);
        assert RowHasKey(norm, rows, c, i, k);
      }
    }
    forall i, k | RowHasKey(norm, rows, c, i, k) && forall j :: j < i ==> !RowHasKey(norm, rows, c, j, k)
      ensures k in st.rows && st.rows[k] == rows[i]
    {
      FirstIs(norm, rows, keys, c, i, k, st.rows[k]);
    }
  }

  /** There is only one first row. */
  lemma FirstIs(norm: Normalizer, rows: seq<Row>, keys: Keys, c: nat, i: int, k: string, row: Row)
    requires |rows| == |keys| && RowHasKey(norm, rows, c, i, k)
    requires forall x, y :: RowHasKey(norm, rows, c, x, y) <==> 0 <= x < |rows| && keys[x] == Some(y)
    requires forall j :: j < i ==> !RowHasKey(norm, rows, c, j, k)
    requires FirstOf(rows, keys, |rows|, k, row)
    ensures row == rows[i]
  {
    var f :| 0 <= f < |rows| && rows[f] == row && keys[f] == Some(k) && forall j :: 0 <= j < f ==> keys[j] != Some(k);
    assert RowHasKey(norm, rows, c, f, k);
  }

  /** So a sheet passes the duplicate test exactly when no two of its rows share a key. */
  lemma NoReportIffKeysDistinct(norm: Normalizer, rows: seq<Row>, keyIdx: nat)
    ensures Index(norm, rows, keyIdx).dups == [] <==>
      forall i, j :: 0 <= i < j < |rows| && keyIdx < |rows[i]| && keyIdx < |rows[j]| ==>
        norm(rows[i][keyIdx]) == norm(rows[j][keyIdx]) ==> Blank(norm(rows[i][keyIdx]))
  {
    var keys := KeysOf(norm, rows, keyIdx);
    ReportIsFirstTen(rows, keys, |rows|);
    KeysOfRows(norm, rows, keyIdx);
    var again := Repeats(keys, |rows|);
    forall i, j | 0 <= i < j < |rows| && keyIdx < |rows[i]| && keyIdx < |rows[j]|
      && norm(rows[i][keyIdx]) == norm(rows[j][keyIdx]) && !Blank(norm(rows[i][keyIdx]))
      ensures again != []
    {
      var k := norm(rows[i][keyIdx]);
      assert RowHasKey(norm, rows, keyIdx, i, k) && RowHasKey(norm, rows, keyIdx, j, k);
      assert Repeated(keys, |rows|, k);
    }
    if again != [] {
      assert again[0] in again && Repeated(keys, |rows|, again[0]);
      var i, j :| 0 <= i < j < |rows| && keys[i] == Some(again[0]) && keys[j] == Some(again[0]);
      assert RowHasKey(norm, rows, keyIdx, i, again[0]) && RowHasKey(norm, rows, keyIdx, j, again[0]);
    }
  }

  // ----- The loaded sheet, told from the raw rows -----

  /** A cell of a raw row, which may be short. */
  function RawCell(row: Row, c: nat): string {
    if c < |row| then row[c] else ""
  }

  /** Row `i` of the sheet, below its header row, has key `k`: its cell in column `c` normalises to that, and it
      is not blank. */
  ghost predicate HasKey(norm: Normalizer, raw: seq<Row>, c: nat, i: nat, k: string) {
    1 <= i < |raw| && !Blank(k) && norm(RawCell(raw[i], c)) == k
  }

  ghost predicate OccursIn(norm: Normalizer, raw: seq<Row>, c: nat, k: string) {
    exists i :: HasKey(norm, raw, c, i, k)
  }

  /** Two rows share the key. */
  ghost predicate SharedIn(norm: Normalizer, raw: seq<Row>, c: nat, k: string) {
    exists i, j :: i < j && HasKey(norm, raw, c, i, k) && HasKey(norm, raw, c, j, k)
  }

  /** Row `i` is the first with key `k`, and `row` is that row at the width of the header row. */
  ghost predicate IsFirstRow(norm: Normalizer, raw: seq<Row>, c: nat, width: nat, k: string, i: nat, row: Row) {
    && HasKey(norm, raw, c, i, k) && (forall j :: HasKey(norm, raw, c, j, k) ==> i <= j)
    && |row| == width && forall x :: 0 <= x < width ==> row[x] == RawCell(raw[i], x)
  }

  /** The index holds exactly the keys that occur, each with its first row, and reports at most ten of the
      keys that rows share; all of them, if it reports fewer. */
  ghost predicate Holds(norm: Normalizer, raw: seq<Row>, c: nat, width: nat, st: Keyed) {
    && (forall k :: k in st.rows <==> OccursIn(norm, raw, c, k))
    && (forall k :: k in st.rows ==> exists i :: IsFirstRow(norm, raw, c, width, k, i, st.rows[k]))
    && (forall k :: k in st.dups ==> SharedIn(norm, raw, c, k))
    && |st.dups| <= 10
    && (|st.dups| < 10 ==> forall k :: SharedIn(norm, raw, c, k) ==> k in st.dups)
  }

  lemma KeyFromRaw(norm: Normalizer, raw: seq<Row>, width: nat, c: nat, i: nat, k: string)
    requires raw != [] && c < width && i < |raw| - 1
    ensures KeyOf(norm, DataRows(raw, width)[i], c) == Some(k) <==> HasKey(norm, raw, c, i + 1, k)
  {
  }

  /** `keys` are the keys of the raw rows below the header row. */
  ghost predicate KeysAre(norm: Normalizer, raw: seq<Row>, c: nat, keys: Keys) {
    |keys| == |raw| - 1 && forall i, k :: 0 <= i < |keys| ==> (keys[i] == Some(k) <==> HasKey(norm, raw, c, i + 1, k))
  }

  lemma FirstRowFromRaw(norm: Normalizer, raw: seq<Row>, width: nat, c: nat, rows: seq<Row>, keys: Keys, k: string,
                        row: Row)
    requires KeysAre(norm, raw, c, keys) && |rows| == |keys| && FirstOf(rows, keys, |rows|, k, row)
    requires forall i :: 0 <= i < |rows| ==> rows[i] == PadRow(raw[i + 1], width)
    ensures exists i :: IsFirstRow(norm, raw, c, width, k, i, row)
  {
    var i :| 0 <= i < |rows| && rows[i] == row && keys[i] == Some(k) && forall j :: 0 <= j < i ==> keys[j] != Some(k);
    forall j | HasKey(norm, raw, c, j, k)
      ensures i + 1 <= j
    {
      assert keys[j - 1] == Some(k);
    }
    assert IsFirstRow(norm, raw, c, width, k, i + 1, row);
  }

  lemma OccurrencesFromRaw(norm: Normalizer, raw: seq<Row>, c: nat, keys: Keys, k: string)
    requires KeysAre(norm, raw, c, keys)
    ensures Occurs(keys, |keys|, k) <==> OccursIn(norm, raw, c, k)
    ensures Repeated(keys, |keys|, k) <==> SharedIn(norm, raw, c, k)
  {
    if i :| HasKey(norm, raw, c, i, k) {
      assert keys[i - 1] == Some(k);
    }
    if i, j :| i < j && HasKey(norm, raw, c, i, k) && HasKey(norm, raw, c, j, k) {
      assert keys[i - 1] == Some(k) && keys[j - 1] == Some(k);
    }
    if i, j :| 0 <= i < j < |keys| && keys[i] == Some(k) && keys[j] == Some(k) {
      assert HasKey(norm, raw, c, i + 1, k) && HasKey(norm, raw, c, j + 1, k);
    }
  }

  lemma IndexHolds(norm: Normalizer, raw: seq<Row>, width: nat, c: nat)
    requires raw != [] && c < width
    ensures Holds(norm, raw, c, width, Index(norm, DataRows(raw, width), c))
  {
    var rows := DataRows(raw, width);
    var keys := KeysOf(norm, rows, c);
    forall i: nat, k | i < |keys|
      ensures keys[i] == Some(k) <==> HasKey(norm, raw, c, i + 1, k)
    {
      KeyFromRaw(norm, raw, width, c, i, k);
    }
    KeysHold(norm, raw, width, c, rows, keys);
  }

  lemma KeysHold(norm: Normalizer, raw: seq<Row>, width: nat, c: nat, rows: seq<Row>, keys: Keys)
    requires KeysAre(norm, raw, c, keys) && |rows| == |keys|
    requires forall i :: 0 <= i < |rows| ==> rows[i] == PadRow(raw[i + 1], width)
    ensures Holds(norm, raw, c, width, Build(rows, keys, |rows|))
  {
    RowsHold(norm, raw, width, c, rows, keys);
    DupsHold(norm, raw, c, rows, keys);
  }

  lemma RowsHold(norm: Normalizer, raw: seq<Row>, width: nat, c: nat, rows: seq<Row>, keys: Keys)
    requires KeysAre(norm, raw, c, keys) && |rows| == |keys|
    requires forall i :: 0 <= i < |rows| ==> rows[i] == PadRow(raw[i + 1], width)
    ensures var st := Build(rows, keys, |rows|);
      && (forall k :: k in st.rows <==> OccursIn(norm, raw, c, k))
      && (forall k :: k in st.rows ==> exists i :: IsFirstRow(norm, raw, c, width, k, i, st.rows[k]))
  {
    var st := Build(rows, keys, |rows|);
    IndexIsFirstWins(rows, keys, |rows|);
    forall k
      ensures k in st.rows <==> OccursIn(norm, raw, c, k)
    {
      OccurrencesFromRaw(norm, raw, c, keys, k);
    }
    forall k | k in st.rows
      ensures exists i :: IsFirstRow(norm, raw, c, width, k, i, st.rows[k])
    {
      FirstRowFromRaw(norm, raw, width, c, rows, keys, k, st.rows[k]);
    }
  }

  lemma DupsHold(norm: Normalizer, raw: seq<Row>, c: nat, rows: seq<Row>, keys: Keys)
    requires KeysAre(norm, raw, c, keys) && |rows| == |keys|
    ensures var dups := Build(rows, keys, |rows|).dups;
      && (forall k :: k in dups ==> SharedIn(norm, raw, c, k))
      && |dups| <= 10
      && (|dups| < 10 ==> forall k :: SharedIn(norm, raw, c, k) ==> k in dups)
  {
    ReportIsFirstTen(rows, keys, |rows|);
    var again := Repeats(keys, |rows|);
    forall k
      ensures k in again <==> SharedIn(norm, raw, c, k)
    {
      OccurrencesFromRaw(norm, raw, c, keys, k);
    }
  }

  /** What a loaded sheet is: its columns are those of the header row, its key is one of them, and its index
      holds what the raw rows have in the first column of that name. */
  lemma LoadedSheetHolds(norm: Normalizer, raw: seq<Row>, checkRows: int, key: string, allowGuess: bool, score: Score)
    requires BatchLoad(norm, raw, checkRows, key, allowGuess, score).Sheet?
    ensures var l := BatchLoad(norm, raw, checkRows, key, allowGuess, score);
      && raw != [] && l.headers == NormalHeaders(raw[0]) && l.key in l.headers
      && Holds(norm, raw, IndexOf(l.headers, l.key), |l.headers|, l.st)
  {
    var l := BatchLoad(norm, raw, checkRows, key, allowGuess, score);
    IndexHolds(norm, raw, |l.headers|, IndexOf(l.headers, l.key));
  }

  /** What the other outcomes of loading say. */
  lemma LoadOutcomes(norm: Normalizer, raw: seq<Row>, checkRows: int, key: string, allowGuess: bool, score: Score)
    ensures var l := BatchLoad(norm, raw, checkRows, key, allowGuess, score);
      && (l.NoHeader? <==> raw == [])
      && (raw != [] ==>
           var h := NormalHeaders(raw[0]);
           var guess := Guess(h, DataRows(raw, |h|)[..RowsChecked(DataRows(raw, |h|), checkRows)], score);
           && (l.NoGuess? <==> allowGuess && guess.None?)
           && (l.BlankKey? <==> !allowGuess && Blank(key))
           && (l.NoSuchColumn? <==> !allowGuess && !Blank(key) && TrimSpace(key) !in h)
           && (l.Sheet? && allowGuess ==> guess == Some(l.key))
           && (l.Sheet? && !allowGuess ==> l.key == TrimSpace(key)))
  {
    BlankIffTrimmedAway(key);
    if raw != [] && NormalHeaders(raw[0]) == [] {
      assert TableOf(raw).rows[..RowsChecked(TableOf(raw).rows, checkRows)] == [];
    }
  }

  /** The rows of a key index over a sheet of width `n`: each has that width and carries its key. */
  predicate KeyedRows(norm: Normalizer, m: map<string, Row>, n: nat, keyIdx: nat) {
    forall k :: k in m ==> |m[k]| == n && KeyOf(norm, m[k], keyIdx) == Some(k)
  }

  lemma LoadedRowsAreKeyed(norm: Normalizer, rows: seq<Row>, width: nat, keyIdx: nat)
    requires forall i :: 0 <= i < |rows| ==> |rows[i]| == width
    ensures KeyedRows(norm, Index(norm, rows, keyIdx).rows, width, keyIdx)
  {
    var keys := KeysOf(norm, rows, keyIdx);
    var st := Build(rows, keys, |rows|);
    IndexIsFirstWins(rows, keys, |rows|);
    assert forall k :: k in st.rows ==> FirstOf(rows, keys, |rows|, k, st.rows[k]);
    forall k | k in st.rows
      ensures |st.rows[k]| == width && KeyOf(norm, st.rows[k], keyIdx) == Some(k)
    {
      assert FirstOf(rows, keys, |rows|, k, st.rows[k]);
      var i :| 0 <= i < |rows| && rows[i] == st.rows[k] && keys[i] == Some(k);
    }
  }
}
