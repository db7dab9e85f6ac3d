/** The whole export: read both files by key, compare them, and write the three sheets.  Here the cell
    normaliser and the fingerprint are the program's own. */
module Export {
  import opened Text
  import opened Domain
  import opened Decimal
  import opened Headers
  import opened KeyGuess
  import opened KeyedRead
  import opened Compare
  import opened DiffWriter
  import opened Patch
  import Normalize
  import Fingerprint
  import SheetName

  const CACHE_MAX: nat := 80000

  function Norm(v: string): string { Normalize.NormalizeScalar(v) }

  function FnvText(v: string): int { Fingerprint.Fnv(Fingerprint.Utf8(v)) }

  function ByteLength(v: string): nat { |Fingerprint.Utf8(v)| }

  datatype Side = File1 | File2

  datatype Report =
    | Unreadable(side: Side, why: Loaded)    // no key column to be guessed, a blank key, no such column
    | Duplicates(side: Side, dups: seq<string>)
    | NoKey
    | Exported(incName: string, redName: string, diffName: string, inc: Sheet, red: Sheet, diff: Sheet)

  /** What was loaded; an empty sheet has no headers and no rows, and keeps the key it was asked for. */
  datatype File = File(headers: seq<string>, key: string, rows: map<string, Row>, dups: seq<string>)

  datatype Opening = Opened(file: File) | Refused(why: Loaded)

  function Open(l: Loaded, key: string): Opening {
    match l
    case NoHeader => Opened(File([], key, map[], []))
    case Sheet(h, k, st) => Opened(File(h, k, st.rows, st.dups))
    case _ => Refused(l)
  }

  function First(raw: seq<Row>, score: Score): Opening {
    Open(BatchLoad(Norm, raw, 5, "", true, score), "")
  }

  function Second(raw: seq<Row>, key: string, score: Score): Opening {
    Open(BatchLoad(Norm, raw, 0, key, false, score), key)
  }

  /** What each outcome of the export says about the two files. */
  ghost predicate Reports(r: Report, raw1: seq<Row>, raw2: seq<Row>, name1: string, name2: string, red: int,
                          score: Score) {
    var f1 := First(raw1, score);
    if f1.Refused? then r == Unreadable(File1, f1.why)
    else if f1.file.dups != [] then r == Duplicates(File1, f1.file.dups)
    else
      var f2 := Second(raw2, f1.file.key, score);
      if f2.Refused? then r == Unreadable(File2, f2.why)
      else if f2.file.dups != [] then r == Duplicates(File2, f2.file.dups)
      else if TrimSpace(f1.file.key) == "" then r == NoKey
      else r.Exported? && Written(r, f1.file, f2.file, name1, name2, red) && Patches(r, f1.file, f2.file)
  }

  function IncreaseTitle(name1: string, name2: string): string {
    SheetName.SheetBaseName(name2) + "相比" + SheetName.SheetBaseName(name1) + "增加"
  }

  function ReductionTitle(name1: string, name2: string): string {
    SheetName.SheetBaseName(name2) + "相比" + SheetName.SheetBaseName(name1) + "减少"
  }

  const DIFF_TITLE: string := "变动项目"

  /** `name` is the sheet name that a title gets when `used` are taken. */
  ghost predicate Named(name: string, title: string, used: set<string>) {
    exists i: nat :: SheetName.FirstFree(name, SheetName.Base(title), i, used)
  }

  /** The sheets are named after the two files, each with the first name that is free. */
  ghost predicate NamedAfter(r: Report, name1: string, name2: string)
    requires r.Exported?
  {
    var base1, base2 := SheetName.SheetBaseName(name1), SheetName.SheetBaseName(name2);
    && Named(r.incName, base2 + "相比" + base1 + "增加", {})
    && Named(r.redName, base2 + "相比" + base1 + "减少", {r.incName})
    && Named(r.diffName, "变动项目", {r.incName, r.redName})
  }

  /** The sheets of the report are those of the comparison of the two files. */
  ghost predicate Written(r: Report, f1: File, f2: File, name1: string, name2: string, red: int)
    requires r.Exported?
  {
    exists art ::
      && Compares(art, f1.headers, f2.headers, f1.rows, f2.rows, f1.key)
      && r.inc == SimpleSheet(f2.headers, art.incKeys, f2.rows, "无增加项")
      && r.red == SimpleSheet(f1.headers, art.reducedKeys, f1.rows, "无减少项")
      && r.diff == DiffSheet(Norm, art, DisplayName(name1, "文件1"), DisplayName(name2, "文件2"), red)
  }

  /** The sheets of the report turn file 1 into file 2. */
  ghost predicate Patches(r: Report, f1: File, f2: File)
    requires r.Exported?
  {
    && r.inc != [] && r.red != [] && r.diff != []
    && var cols := UnionCols(f1.headers, f2.headers, f1.key);
       SameTable(Norm,
                 Patched(Norm, ViewOf(f1.rows, f1.headers, cols), f1.headers, f2.headers, f1.key, cols, r.red,
                   r.inc, r.diff),
                 ViewOf(f2.rows, f2.headers, cols))
  }

  lemma NumberedIsTrimmed(name: string, sep: string, n: nat)
    requires name != "" && !IsSpace(name[0])
    ensures Trimmed(name + sep + Digits(n))
  {
    var d := Digits(n);
    assert (name + sep + d)[|name + sep + d| - 1] == d[|d| - 1];
  }

  lemma FilledIsTrimmed(v: string, i: nat)
    ensures FilledCell(v, i) != "" && Trimmed(FilledCell(v, i))
  {
    if TrimSpace(v) == "" {
      NumberedIsTrimmed("Unnamed: ", "", i);
      assert "Unnamed: " + "" + Digits(i) == "Unnamed: " + Digits(i);
    } else {
      TrimSpaceIsTrimmed(v);
    }
  }

  lemma HeadersAreTrimmed(raw: Row, i: nat)
    requires i < |raw|
    ensures Trimmed(NormalHeaders(raw)[i])
  {
    var h := Filled(raw);
    FilledIsTrimmed(raw[i], i);
    NumberedIsTrimmed(h[i], ".", Count(h, i, h[i]));
  }

  lemma HeaderIsFixed(raw: Row, key: string)
    requires key in NormalHeaders(raw)
    ensures TrimSpace(key) == key
  {
    var i :| 0 <= i < |raw| && NormalHeaders(raw)[i] == key;
    HeadersAreTrimmed(raw, i);
    TrimmedIsFixed(key);
  }

  lemma FirstIsKeyed(raw: seq<Row>, score: Score)
    requires First(raw, score).Opened?
    ensures var f := First(raw, score).file; KeyedFile(Norm, f.headers, f.rows, f.key) && TrimSpace(f.key) == f.key
  {
    var l := BatchLoad(Norm, raw, 5, "", true, score);
    if l.Sheet? {
      LoadedFileIsKeyed(Norm, raw, 5, "", true, score);
      LoadedSheet(Norm, raw, 5, "", true, score);
      HeaderIsFixed(raw[0], l.key);
    }
  }

  lemma SecondIsKeyed(raw: seq<Row>, key: string, score: Score)
    requires TrimSpace(key) == key && Second(raw, key, score).Opened?
    ensures var f := Second(raw, key, score).file; KeyedFile(Norm, f.headers, f.rows, key)
  {
    var l := BatchLoad(Norm, raw, 0, key, false, score);
    if l.Sheet? {
      LoadedFileIsKeyed(Norm, raw, 0, key, false, score);
      LoadedSheet(Norm, raw, 0, key, false, score);
    }
  }

  lemma NormBlankIsEmpty()
    ensures BlankIsEmpty(Norm)
  {
    forall v: string | Blank(v)
      ensures Norm(v) == Norm("")
    {
      Normalize.BlankNormalizes(v);
      Normalize.BlankNormalizes("");
    }
  }

  // ----- What the export says of the raw sheets -----

  function HeadersOf(raw: seq<Row>): seq<string> {
    if raw == [] then [] else NormalHeaders(raw[0])
  }

  /** `c` is the first column named `key`. */
  predicate IsFirst(h: seq<string>, key: string, c: nat) {
    c < |h| && h[c] == key && key !in h[..c]
  }

  /** `c` is the last column named `col`. */
  predicate IsLast(h: seq<string>, col: string, c: nat) {
    c < |h| && h[c] == col && col !in h[c + 1..]
  }

  /** The sheet has key `k`: in the first column named `key`, some data row's cell has that normal form. */
  ghost predicate KeyInSheet(raw: seq<Row>, key: string, k: string) {
    exists c :: IsFirst(HeadersOf(raw), key, c) && OccursIn(Norm, raw, c, k)
  }

  ghost predicate SharedInSheet(raw: seq<Row>, key: string, k: string) {
    exists c :: IsFirst(HeadersOf(raw), key, c) && SharedIn(Norm, raw, c, k)
  }

  /** Row `i` is the first row of the sheet with key `k`. */
  ghost predicate FirstRowWith(raw: seq<Row>, key: string, k: string, i: nat) {
    exists c ::
      && IsFirst(HeadersOf(raw), key, c) && HasKey(Norm, raw, c, i, k)
      && forall j :: HasKey(Norm, raw, c, j, k) ==> i <= j
  }

  /** `v` is what row `i` of the sheet has in the last column named `col`, and nothing if there is none. */
  ghost predicate CellIs(raw: seq<Row>, i: nat, col: string, v: string) {
    if col in HeadersOf(raw) then i < |raw| && exists c :: IsLast(HeadersOf(raw), col, c) && v == RawCell(raw[i], c)
    else v == ""
  }

  /** The table has the keys of the sheet, and for each of them the cells of its first row. */
  ghost predicate ViewIs(v: View, raw: seq<Row>, key: string, cols: seq<string>) {
    && (forall k :: k in v <==> KeyInSheet(raw, key, k))
    && (forall k :: k in v ==> |v[k]| == |cols|)
    && (forall k :: k in v ==> exists i ::
         FirstRowWith(raw, key, k, i) && forall j :: 0 <= j < |cols| ==> CellIs(raw, i, cols[j], v[k][j]))
  }

  /** `v1` and `v2` are the tables of the two sheets in the compared columns; patching the first with the
      sheets of the report gives the keys of the second, and cells with the same normal forms. */
  ghost predicate RestoresTo(r: Report, raw1: seq<Row>, raw2: seq<Row>, key: string, cols: seq<string>, v1: View,
                             v2: View)
    requires r.Exported? && r.inc != [] && r.red != [] && r.diff != []
  {
    var h1, h2 := HeadersOf(raw1), HeadersOf(raw2);
    var patched := Patched(Norm, v1, h1, h2, key, cols, r.red, r.inc, r.diff);
    && (forall x :: x in cols <==> (x in h1 || x in h2) && x != key)
    && ViewIs(v1, raw1, key, cols) && ViewIs(v2, raw2, key, cols)
    && patched.Keys == v2.Keys
    && forall k, j :: k in v2 && 0 <= j < |cols| && j < |v2[k]| ==>
         k in patched && j < |patched[k]| && Norm(patched[k][j]) == Norm(v2[k][j])
  }

  ghost predicate Restores(r: Report, raw1: seq<Row>, raw2: seq<Row>, key: string)
    requires r.Exported?
  {
    && r.inc != [] && r.red != [] && r.diff != []
    && exists cols, v1, v2 :: RestoresTo(r, raw1, raw2, key, cols, v1, v2)
  }

  /** The key column of the first sheet: the guess from its first five data rows. */
  ghost function KeyColumn(raw: seq<Row>, score: Score): Option<string>
    requires raw != []
  {
    var h := NormalHeaders(raw[0]);
    Guess(h, DataRows(raw, |h|)[..if |raw| - 1 < 5 then |raw| - 1 else 5], score)
  }

  /** The report of duplicates lists at least one, and only keys that rows of the sheet share. */
  ghost predicate ReportsDuplicates(r: Report, side: Side, raw: seq<Row>, key: string) {
    r.Duplicates? && r.side == side && r.dups != [] && forall k :: k in r.dups ==> SharedInSheet(raw, key, k)
  }

  /** What is reported, by what the raw sheets are. */
  ghost predicate Verdict(r: Report, raw1: seq<Row>, raw2: seq<Row>, score: Score) {
    if raw1 == [] then r == if raw2 == [] then NoKey else Unreadable(File2, BlankKey)
    else
      match KeyColumn(raw1, score)
      case None => r == Unreadable(File1, NoGuess)
      case Some(key) =>
        if exists k :: SharedInSheet(raw1, key, k) then ReportsDuplicates(r, File1, raw1, key)
        else if raw2 != [] && key !in NormalHeaders(raw2[0]) then r == Unreadable(File2, NoSuchColumn)
        else if exists k :: SharedInSheet(raw2, key, k) then ReportsDuplicates(r, File2, raw2, key)
        else r.Exported? && Restores(r, raw1, raw2, key)
  }

  lemma FirstColumn(h: seq<string>, key: string, c: nat)
    requires key in h
    ensures IsFirst(h, key, c) <==> c == IndexOf(h, key)
  {
    var i := IndexOf(h, key);
    assert forall k :: 0 <= k < i ==> h[k] != key;
    assert c < |h| ==> forall k :: 0 <= k < c ==> h[..c][k] == h[k];
  }

  /** What a sheet that was loaded by `key` holds, told by column names. */
  lemma SheetHolds(raw: seq<Row>, key: string, st: Keyed)
    requires var h := HeadersOf(raw); key in h && Holds(Norm, raw, IndexOf(h, key), |h|, st)
    ensures forall k :: k in st.rows <==> KeyInSheet(raw, key, k)
    ensures st.dups != [] <==> exists k :: SharedInSheet(raw, key, k)
    ensures forall k :: k in st.dups ==> SharedInSheet(raw, key, k)
  {
    var h := HeadersOf(raw);
    var c := IndexOf(h, key);
    forall x: nat
      ensures IsFirst(h, key, x) <==> x == c
    {
      FirstColumn(h, key, x);
    }
    forall k
      ensures KeyInSheet(raw, key, k) <==> OccursIn(Norm, raw, c, k)
      ensures SharedInSheet(raw, key, k) <==> SharedIn(Norm, raw, c, k)
    {
    }
    if st.dups != [] {
      assert st.dups[0] in st.dups && SharedInSheet(raw, key, st.dups[0]);
    }
  }

  /** A cell of a loaded row, by the name of its column. */
  lemma CellByName(raw: seq<Row>, i: nat, row: Row, col: string)
    requires var h := HeadersOf(raw);
      i < |raw| && |row| == |h| && forall x :: 0 <= x < |h| ==> row[x] == RawCell(raw[i], x)
    ensures CellIs(raw, i, col, CellNamed(row, HeadersOf(raw), col))
  {
    var h := HeadersOf(raw);
    var c := LastIndexOf(h, col);
    if col in h {
      assert IsLast(h, col, c);
    }
  }

  lemma RowByName(raw: seq<Row>, key: string, k: string, row: Row, cols: seq<string>)
    requires var h := HeadersOf(raw);
      key in h && exists i :: IsFirstRow(Norm, raw, IndexOf(h, key), |h|, k, i, row)
    ensures exists i ::
      FirstRowWith(raw, key, k, i) && forall j :: 0 <= j < |cols| ==>
        CellIs(raw, i, cols[j], CellNamed(row, HeadersOf(raw), cols[j]))
  {
    var h := HeadersOf(raw);
    var c := IndexOf(h, key);
    var i :| IsFirstRow(Norm, raw, c, |h|, k, i, row);
    FirstColumn(h, key, c);
    assert FirstRowWith(raw, key, k, i);
    forall j | 0 <= j < |cols|
      ensures CellIs(raw, i, cols[j], CellNamed(row, h, cols[j]))
    {
      CellByName(raw, i, row, cols[j]);
    }
  }

  lemma LoadedViewIs(raw: seq<Row>, key: string, st: Keyed, cols: seq<string>)
    requires var h := HeadersOf(raw); key in h && Holds(Norm, raw, IndexOf(h, key), |h|, st)
    ensures ViewIs(ViewOf(st.rows, HeadersOf(raw), cols), raw, key, cols)
  {
    SheetHolds(raw, key, st);
    var v := ViewOf(st.rows, HeadersOf(raw), cols);
    forall k | k in v
      ensures exists i :: FirstRowWith(raw, key, k, i) && forall j :: 0 <= j < |cols| ==> CellIs(raw, i, cols[j],
        v[k][j])
    {
      RowByName(raw, key, k, st.rows[k], cols);
    }
  }

  /** An empty sheet has no keys. */
  lemma EmptyViewIs(key: string, cols: seq<string>)
    ensures ViewIs(map[], [], key, cols) && forall k :: !SharedInSheet([], key, k)
  {
  }

  /** The file was opened by `key`, and `st` is what was loaded. */
  ghost predicate OpensAs(f: Opening, raw: seq<Row>, key: string, st: Keyed) {
    var h := HeadersOf(raw);
    && key in h && f == Opened(File(h, key, st.rows, st.dups))
    && Holds(Norm, raw, IndexOf(h, key), |h|, st)
  }

  /** What opening the first file gives: the guess of its key column, and its rows by that key. */
  lemma FirstOpens(raw: seq<Row>, score: Score)
    requires raw != []
    ensures var guess, f := KeyColumn(raw, score), First(raw, score);
      if guess.None? then f == Refused(NoGuess) else exists st :: OpensAs(f, raw, guess.value, st)
  {
    var l := BatchLoad(Norm, raw, 5, "", true, score);
    LoadOutcomes(Norm, raw, 5, "", true, score);
    if l.Sheet? {
      LoadedSheetHolds(Norm, raw, 5, "", true, score);
      assert OpensAs(First(raw, score), raw, l.key, l.st);
    }
  }

  /** What opening the second file gives: its rows by the key of the first, if it has that column. */
  lemma SecondOpens(raw: seq<Row>, key: string, score: Score)
    requires raw != [] && TrimSpace(key) == key
    ensures var f := Second(raw, key, score);
      if key == "" then f == Refused(BlankKey)
      else if key !in HeadersOf(raw) then f == Refused(NoSuchColumn)
      else exists st :: OpensAs(f, raw, key, st)
  {
    var l := BatchLoad(Norm, raw, 0, key, false, score);
    LoadOutcomes(Norm, raw, 0, key, false, score);
    BlankIffTrimmedAway(key);
    if l.Sheet? {
      LoadedSheetHolds(Norm, raw, 0, key, false, score);
      assert OpensAs(Second(raw, key, score), raw, key, l.st);
    }
  }

  lemma GuessIsTrimmed(raw: seq<Row>, score: Score)
    requires raw != [] && KeyColumn(raw, score).Some?
    ensures var key := KeyColumn(raw, score).value; key != "" && TrimSpace(key) == key && key in HeadersOf(raw)
  {
    FirstOpens(raw, score);
    HeaderIsFixed(raw[0], KeyColumn(raw, score).value);
  }

  /** Of two opened files the sheets tell what they tell of the raw ones. */
  lemma PatchRestores(r: Report, raw1: seq<Row>, raw2: seq<Row>, key: string, cols: seq<string>, v1: View, v2: View)
    requires r.Exported? && r.inc != [] && r.red != [] && r.diff != []
    requires forall x :: x in cols <==> (x in HeadersOf(raw1) || x in HeadersOf(raw2)) && x != key
    requires ViewIs(v1, raw1, key, cols) && ViewIs(v2, raw2, key, cols)
    requires SameTable(Norm, Patched(Norm, v1, HeadersOf(raw1), HeadersOf(raw2), key, cols, r.red, r.inc, r.diff), v2)
    ensures Restores(r, raw1, raw2, key)
  {
    var patched := Patched(Norm, v1, HeadersOf(raw1), HeadersOf(raw2), key, cols, r.red, r.inc, r.diff);
    SameCells(patched, v2, cols);
    assert RestoresTo(r, raw1, raw2, key, cols, v1, v2);
  }

  lemma SameCells(a: View, b: View, cols: seq<string>)
    requires SameTable(Norm, a, b)
    ensures a.Keys == b.Keys
    ensures forall k, j :: k in b && 0 <= j < |cols| && j < |b[k]| ==>
      k in a && j < |a[k]| && Norm(a[k][j]) == Norm(b[k][j])
  {
    forall k | k in b
      ensures k in a && SameRow(Norm, a[k], b[k])
    {
      assert k in a.Keys;
    }
  }

  /** The two files are those of the sheets, and each has the table of its sheet. */
  ghost predicate Matches(f: File, raw: seq<Row>, key: string, cols: seq<string>) {
    f.headers == HeadersOf(raw) && ViewIs(ViewOf(f.rows, f.headers, cols), raw, key, cols)
  }

  lemma FilesRestore(r: Report, raw1: seq<Row>, raw2: seq<Row>, f1: File, f2: File, key: string)
    requires r.Exported? && Patches(r, f1, f2) && f1.key == key
    requires forall cols :: Matches(f1, raw1, key, cols) && Matches(f2, raw2, key, cols)
    ensures Restores(r, raw1, raw2, key)
  {
    var cols := UnionCols(f1.headers, f2.headers, key);
    assert Matches(f1, raw1, key, cols) && Matches(f2, raw2, key, cols);
    forall x
      ensures x in cols <==> (x in f1.headers || x in f2.headers) && x != key
    {
      ColumnsCompared(f1.headers, f2.headers, key, x);
    }
    PatchRestores(r, raw1, raw2, key, cols, ViewOf(f1.rows, f1.headers, cols), ViewOf(f2.rows, f2.headers, cols));
  }

  lemma OpenedMatches(f: File, raw: seq<Row>, key: string, st: Keyed)
    requires OpensAs(Opened(f), raw, key, st)
    ensures forall cols :: Matches(f, raw, key, cols)
    ensures f.dups != [] <==> exists k :: SharedInSheet(raw, key, k)
    ensures forall k :: k in f.dups ==> SharedInSheet(raw, key, k)
  {
    SheetHolds(raw, key, st);
    forall cols
      ensures Matches(f, raw, key, cols)
    {
      LoadedViewIs(raw, key, st, cols);
    }
  }

  lemma EmptyMatches(key: string)
    ensures forall cols :: Matches(File([], key, map[], []), [], key, cols)
    ensures forall k :: !SharedInSheet([], key, k)
  {
    forall cols
      ensures Matches(File([], key, map[], []), [], key, cols)
    {
      EmptyViewIs(key, cols);
      assert ViewOf(map[], [], cols) == map[];
    }
  }

  /** With the first file opened and without duplicates: the verdict is that on the second. */
  lemma SecondVerdict(r: Report, raw1: seq<Row>, raw2: seq<Row>, name1: string, name2: string, red: int, score: Score,
                      st: Keyed, key: string)
    requires Reports(r, raw1, raw2, name1, name2, red, score) && raw1 != []
    requires OpensAs(First(raw1, score), raw1, key, st) && KeyColumn(raw1, score) == Some(key)
    requires First(raw1, score).file.dups == [] && forall k :: !SharedInSheet(raw1, key, k)
    ensures Verdict(r, raw1, raw2, score)
  {
    GuessIsTrimmed(raw1, score);
    var f1 := First(raw1, score).file;
    OpenedMatches(f1, raw1, key, st);
    if raw2 == [] {
      EmptyMatches(key);
      FilesRestore(r, raw1, raw2, f1, File([], key, map[], []), key);
    } else {
      SecondOpens(raw2, key, score);
      if key in HeadersOf(raw2) {
        var f2 := Second(raw2, key, score).file;
        var st2 :| OpensAs(Opened(f2), raw2, key, st2);
        OpenedMatches(f2, raw2, key, st2);
        if f2.dups == [] {
          FilesRestore(r, raw1, raw2, f1, f2, key);
        }
      }
    }
  }

  /** What the export reports of the files that it opened, it reports of the raw sheets. */
  lemma ReportsVerdict(r: Report, raw1: seq<Row>, raw2: seq<Row>, name1: string, name2: string, red: int, score: Score)
    requires Reports(r, raw1, raw2, name1, name2, red, score)
    ensures Verdict(r, raw1, raw2, score)
  {
    if raw1 == [] {
      if raw2 != [] {
        SecondOpens(raw2, "", score);
      }
    } else {
      FirstOpens(raw1, score);
      var guess, f1 := KeyColumn(raw1, score), First(raw1, score);
      if guess.Some? {
        var st :| OpensAs(f1, raw1, guess.value, st);
        OpenedMatches(f1.file, raw1, guess.value, st);
        if f1.file.dups == [] {
          SecondVerdict(r, raw1, raw2, name1, name2, red, score, st, guess.value);
        }
      }
    }
  }

  predicate ValidName(n: string) { SheetName.WellFormed(n) && |n| <= 31 }

  predicate Different(a: string, b: string, c: string) { a != b && b != c && a != c }

  /** Reading one file. */
  method Load(raw: seq<Row>, checkRows: int, key: string, allowGuess: bool, score: Score) returns (f: Opening)
    ensures f == Open(BatchLoad(Norm, raw, checkRows, key, allowGuess, score), key)
  {
    var l := LoadKeyedSheet(Norm, raw, checkRows, key, allowGuess, score);
    f := Open(l, key);
  }

  /** Writing the three sheets of two loaded files. */
  method WriteSheets(f1: File, f2: File, name1: string, name2: string, red: int)
    returns (inc: DiffWriter.Sheet, reduced: DiffWriter.Sheet, diff: DiffWriter.Sheet, ghost art: Artifacts)
    requires TrimSpace(f1.key) != ""
    ensures Compares(art, f1.headers, f2.headers, f1.rows, f2.rows, f1.key)
    ensures inc == SimpleSheet(f2.headers, art.incKeys, f2.rows, "无增加项")
    ensures reduced == SimpleSheet(f1.headers, art.reducedKeys, f1.rows, "无减少项")
    ensures diff == DiffSheet(Norm, art, DisplayName(name1, "文件1"), DisplayName(name2, "文件2"), red)
  {
    var c := CompareArtifactsFromMaps(f1.headers, f2.headers, f1.rows, f2.rows, f1.key);
    var a := c.value;
    art := a;
    var ok;
    inc, ok := WriteSimpleKeyedSheet(a.incHeaders, a.incKeys, a.right, "无增加项");
    reduced, ok := WriteSimpleKeyedSheet(a.redHeaders, a.reducedKeys, a.left, "无减少项");
    diff, ok := WriteDiffSideBySide(Norm, FnvText, ByteLength, CACHE_MAX, a, name1, name2, red);
  }

  lemma WrittenSheetsPatch(f1: File, f2: File, name1: string, name2: string, red: int, art: Artifacts,
                           inc: DiffWriter.Sheet, reduced: DiffWriter.Sheet, diff: DiffWriter.Sheet)
    requires Compares(art, f1.headers, f2.headers, f1.rows, f2.rows, f1.key)
    requires KeyedFile(Norm, f1.headers, f1.rows, f1.key) && KeyedFile(Norm, f2.headers, f2.rows, f1.key)
    requires inc == SimpleSheet(f2.headers, art.incKeys, f2.rows, "无增加项")
    requires reduced == SimpleSheet(f1.headers, art.reducedKeys, f1.rows, "无减少项")
    requires diff == DiffSheet(Norm, art, name1, name2, red)
    ensures Patches(Exported("", "", "", inc, reduced, diff), f1, f2)
  {
    NormBlankIsEmpty();
    DiffThenPatchGivesFile2(Norm, art, f1.headers, f2.headers, f1.rows, f2.rows, f1.key, name1, name2, red, "无增加项",
      "无减少项");
  }

  /** The export, with what it reports of the files as they were loaded. */
  method ReportOn(raw1: seq<Row>, raw2: seq<Row>, name1: string, name2: string, red: int, score: Score)
    returns (r: Report)
    ensures Reports(r, raw1, raw2, name1, name2, red, score)
    ensures r.Exported? ==> NamedAfter(r, name1, name2) && Different(r.incName, r.redName, r.diffName)
    ensures r.Exported? ==> ValidName(r.incName) && ValidName(r.redName) && ValidName(r.diffName)
  {
    var l1 := Load(raw1, 5, "", true, score);
    if l1.Refused? {
      return Unreadable(File1, l1.why);
    }
    var f1 := l1.file;
    if |f1.dups| > 0 {
      return Duplicates(File1, f1.dups);
    }
    var l2 := Load(raw2, 0, f1.key, false, score);
    if l2.Refused? {
      return Unreadable(File2, l2.why);
    }
    var f2 := l2.file;
    if |f2.dups| > 0 {
      return Duplicates(File2, f2.dups);
    }
    if TrimSpace(f1.key) == "" {
      return NoKey;
    }
    var incName, redName, diffName := ThreeNames(IncreaseTitle(name1, name2), ReductionTitle(name1, name2), DIFF_TITLE);
    var inc, reduced, diff, art := WriteSheets(f1, f2, name1, name2, red);
    FirstIsKeyed(raw1, score);
    SecondIsKeyed(raw2, f1.key, score);
    WrittenSheetsPatch(f1, f2, DisplayName(name1, "文件1"), DisplayName(name2, "文件2"), red, art, inc, reduced, diff);
    r := Exported(incName, redName, diffName, inc, reduced, diff);
  }

  /** The export reports exactly what is wrong with the raw sheets, or else writes sheets that turn the first
      into the second, under three different valid sheet names. */
  method GenerateCompareExport(raw1: seq<Row>, raw2: seq<Row>, name1: string, name2: string, red: int, score: Score)
    returns (r: Report)
    ensures Reports(r, raw1, raw2, name1, name2, red, score) && Verdict(r, raw1, raw2, score)
    ensures r.Exported? ==> NamedAfter(r, name1, name2) && Different(r.incName, r.redName, r.diffName)
    ensures r.Exported? ==> ValidName(r.incName) && ValidName(r.redName) && ValidName(r.diffName)
  {
    r := ReportOn(raw1, raw2, name1, name2, red, score);
    ReportsVerdict(r, raw1, raw2, name1, name2, red, score);
  }

  method ThreeNames(a: string, b: string, c: string) returns (n1: string, n2: string, n3: string)
    ensures Named(n1, a, {}) && Named(n2, b, {n1}) && Named(n3, c, {n1, n2})
    ensures Different(n1, n2, n3)
    ensures ValidName(n1) && ValidName(n2) && ValidName(n3)
  {
    var names := new SheetName.SheetNames();
    n1 := NextName(names, a);
    assert names.used == {n1};
    n2 := NextName(names, b);
    assert names.used == {n1, n2};
    n3 := NextName(names, c);
  }

  method NextName(names: SheetName.SheetNames, title: string) returns (n: string)
    requires |names.used| <= 2
    modifies names
    ensures names.used == old(names.used) + {n} && n !in old(names.used)
    ensures Named(n, title, old(names.used)) && ValidName(n)
  {
    ghost var tried;
    n, tried := names.UniqueSheetName(title);
    Fits(title, n, tried, old(names.used));
  }

  lemma Fits(name: string, r: string, i: nat, used: set<string>)
    requires SheetName.FirstFree(r, SheetName.Base(name), i, used) && |used| <= 2
    ensures r !in used && ValidName(r)
  {
    SheetName.UniqueNameIsValid(name, r, i, used);
    assert SheetName.Pow10(29) == 10 * SheetName.Pow10(28);
  }
}
