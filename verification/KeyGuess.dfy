/** Guessing the primary key column from the first few rows.  How a column is scored (keywords in
    its name, shape of its values) is left open: `score` is any function of both. */
module KeyGuess {
  import opened Text
  import opened Domain

  type Row = seq<string>

  type Score = (string, seq<string>) -> nat

  function RowsChecked(rows: seq<Row>, checkRows: int): (n: nat)
    ensures n <= |rows|
  {
    var n := if checkRows <= 0 then 5 else checkRows;
    if |rows| < n then |rows| else n
  }

  /** Every checked row has a non-blank cell in column `c`. */
  predicate Full(top: seq<Row>, c: nat) {
    forall i :: 0 <= i < |top| ==> c < |top[i]| && !Blank(top[i][c])
  }

  /** The checked cells of column `c`, trimmed. */
  function Values(top: seq<Row>, c: nat): seq<string>
    requires Full(top, c)
  {
    seq(|top|, i requires 0 <= i < |top| => TrimSpace(top[i][c]))
  }

  predicate AllDistinct(values: seq<string>) {
    forall i, j :: 0 <= i < j < |values| ==> values[i] != values[j]
  }

  /** There are rows to look at, and the column's cells in them are filled and pairwise distinct. */
  predicate Eligible(top: seq<Row>, c: nat) {
    |top| > 0 && Full(top, c) && AllDistinct(Values(top, c))
  }

  /** The score of a column that may be the key. */
  function Grade(headers: seq<string>, top: seq<Row>, score: Score, c: nat): Option<nat>
    requires c < |headers|
  {
    if Eligible(top, c) then Some(score(headers[c], Values(top, c))) else None
  }

  function Grades(headers: seq<string>, top: seq<Row>, score: Score): (g: seq<Option<nat>>)
    ensures |g| == |headers| && forall c :: 0 <= c < |g| ==> g[c] == Grade(headers, top, score, c)
  {
    seq(|headers|, c requires 0 <= c < |headers| => Grade(headers, top, score, c))
  }

  /** The winner among the first `upTo` columns, as the program's scan picks it. */
  function Leader(g: seq<Option<nat>>, upTo: nat): (b: int)
    requires upTo <= |g|
    ensures -1 <= b < upTo && (b >= 0 ==> g[b].Some?)
  {
    if upTo == 0 then -1
    else
      var b, c := Leader(g, upTo - 1), upTo - 1;
      if g[c].Some? && (b < 0 || g[c].value > g[b].value) then c else b
  }

  /** The guess depends on the header row and the checked rows only. */
  function Guess(headers: seq<string>, top: seq<Row>, score: Score): Option<string> {
    var b := Leader(Grades(headers, top, score), |headers|);
    if b < 0 || headers[b] == "" then None else Some(headers[b])
  }

  /** The winner is the leftmost eligible column of the highest score, and there is one as soon as
      any column is eligible. */
  lemma {:induction false} LeaderIsLeftmostBest(g: seq<Option<nat>>, upTo: nat)
    requires upTo <= |g|
    ensures var b := Leader(g, upTo);
      && (b < 0 <==> forall c :: 0 <= c < upTo ==> g[c].None?)
      && (b >= 0 ==> forall c :: 0 <= c < upTo && g[c].Some? ==>
          g[c].value <= g[b].value && (c < b ==> g[c].value < g[b].value))
  {
    if upTo > 0 {
      LeaderIsLeftmostBest(g, upTo - 1);
    }
  }

  /** The cells of one column, unless one of them is missing or blank. */
  method Gather(top: seq<Row>, c: nat) returns (values: seq<string>, hasNull: bool)
    ensures hasNull <==> !Full(top, c)
    ensures !hasNull ==> values == Values(top, c)
  {
    values, hasNull := [], false;
    for i := 0 to |top|
      invariant !hasNull && |values| == i
      invariant forall k :: 0 <= k < i ==> c < |top[k]| && values[k] == TrimSpace(top[k][c]) && !Blank(top[k][c])
    {
      if c >= |top[i]| {
        return [], true;
      }
      var v := TrimSpace(top[i][c]);
      BlankIffTrimmedAway(top[i][c]);
      if v == "" {
        return [], true;
      }
      values := values + [v];
    }
  }

  method CheckDistinct(values: seq<string>) returns (ok: bool)
    ensures ok <==> AllDistinct(values)
  {
    var uniq: set<string> := {};
    for i := 0 to |values|
      invariant uniq == set v | v in values[..i]
      invariant AllDistinct(values[..i])
    {
      if values[i] in uniq {
        assert values[i] in values[..i];
        return false;
      }
      assert values[..i + 1] == values[..i] + [values[i]];
      uniq := uniq + {values[i]};
    }
    assert values[..|values|] == values;
    return true;
  }

  /** One turn of the scan over the columns: skip the column, or score it. */
  method GradeColumn(headers: seq<string>, top: seq<Row>, score: Score, ghost g: seq<Option<nat>>, c: nat)
    returns (grade: Option<nat>)
    requires c < |headers| && g == Grades(headers, top, score)
    ensures grade == g[c]
  {
    if |top| == 0 {
      return None;
    }
    var values, hasNull := Gather(top, c);
    if hasNull {
      return None;
    }
    var different := CheckDistinct(values);
    if !different {
      return None;
    }
    return Some(score(headers[c], values));
  }

  /** The scan has seen `upTo` columns, and remembers name and score of their leader. */
  ghost predicate Leading(headers: seq<string>, g: seq<Option<nat>>, upTo: nat, bestCol: string, bestScore: int)
    requires upTo <= |g| == |headers|
  {
    var b := Leader(g, upTo);
    if b < 0 then bestScore == -1 && bestCol == "" else bestScore == g[b].value && bestCol == headers[b]
  }

  /** A column takes the lead only if it scores more than the leader. */
  method Challenge(headers: seq<string>, ghost g: seq<Option<nat>>, c: nat, grade: Option<nat>,
                   bestCol: string, bestScore: int)
    returns (col: string, best: int)
    requires c < |g| == |headers| && grade == g[c] && Leading(headers, g, c, bestCol, bestScore)
    ensures Leading(headers, g, c + 1, col, best)
  {
    col, best := bestCol, bestScore;
    if grade.Some? && grade.value > bestScore {
      best := grade.value;
      col := headers[c];
    }
  }

  /** The scan over the columns. */
  method ScanColumns(headers: seq<string>, top: seq<Row>, score: Score, ghost g: seq<Option<nat>>)
    returns (bestCol: string, bestScore: int)
    requires g == Grades(headers, top, score)
    ensures Leading(headers, g, |headers|, bestCol, bestScore)
  {
    bestCol := "";
    bestScore := -1;
    for c := 0 to |headers|
      invariant Leading(headers, g, c, bestCol, bestScore)
    {
      var grade := GradeColumn(headers, top, score, g, c);
      bestCol, bestScore := Challenge(headers, g, c, grade, bestCol, bestScore);
    }
  }

  method GuessPrimaryKeyColumn(headers: seq<string>, rows: seq<Row>, checkRows: int, score: Score)
    returns (guess: Option<string>)
    ensures guess == Guess(headers, rows[..RowsChecked(rows, checkRows)], score)
  {
    if headers == [] {
      return None;
    }
    var top := rows[..RowsChecked(rows, checkRows)];
    var bestCol, bestScore := ScanColumns(headers, top, score, Grades(headers, top, score));
    return if bestCol == "" then None else Some(bestCol);
  }

  // ----- The guess, told from the rows -----

  /** The first `n` rows reach column `c`, and their cells there are filled and, trimmed, pairwise distinct. */
  ghost predicate MayBeKey(rows: seq<Row>, n: nat, c: nat)
    requires n <= |rows|
  {
    && (forall i :: 0 <= i < n ==> c < |rows[i]| && !Blank(rows[i][c]))
    && (forall i, j :: 0 <= i < j < n ==> c < |rows[i]| && c < |rows[j]| ==>
      TrimSpace(rows[i][c]) != TrimSpace(rows[j][c]))
  }

  /** The score is that of the column's name and of its trimmed cells in the first `n` rows. */
  ghost predicate Scores(headers: seq<string>, rows: seq<Row>, n: nat, score: Score, c: nat, points: nat)
    requires n <= |rows| && c < |headers|
  {
    exists values: seq<string> :: |values| == n && points == score(headers[c], values) &&
      forall i :: 0 <= i < n ==> c < |rows[i]| && values[i] == TrimSpace(rows[i][c])
  }

  /** Column `c` beats, or at least equals, every other column that may be the key, and those to its left it
      beats. */
  ghost predicate Wins(headers: seq<string>, rows: seq<Row>, n: nat, score: Score, c: nat)
    requires n <= |rows| && c < |headers|
  {
    && MayBeKey(rows, n, c)
    && forall d: nat, p: nat, q: nat ::
         d < |headers| && MayBeKey(rows, n, d)
         && Scores(headers, rows, n, score, c, p) && Scores(headers, rows, n, score, d, q) ==>
           q <= p && (d < c ==> q < p)
  }

  lemma EligibleIs(rows: seq<Row>, n: nat, c: nat)
    requires n <= |rows|
    ensures Eligible(rows[..n], c) <==> n > 0 && MayBeKey(rows, n, c)
  {
    if Full(rows[..n], c) {
      var values := Values(rows[..n], c);
      assert forall i :: 0 <= i < n ==> values[i] == TrimSpace(rows[i][c]);
    } else if MayBeKey(rows, n, c) {
      assert forall i :: 0 <= i < n ==> rows[..n][i] == rows[i];
    }
  }

  lemma GradeIs(headers: seq<string>, rows: seq<Row>, n: nat, score: Score, c: nat, p: nat)
    requires 0 < n <= |rows| && c < |headers| && MayBeKey(rows, n, c)
    ensures Scores(headers, rows, n, score, c, p) <==> Grade(headers, rows[..n], score, c) == Some(p)
  {
    EligibleIs(rows, n, c);
    var values := Values(rows[..n], c);
    assert forall i :: 0 <= i < n ==> values[i] == TrimSpace(rows[i][c]);
    if Scores(headers, rows, n, score, c, p) {
      var other: seq<string> :| |other| == n && p == score(headers[c], other) &&
        forall i :: 0 <= i < n ==> c < |rows[i]| && other[i] == TrimSpace(rows[i][c]);
      assert other == values;
    }
  }

  /** The guess looks at the first `checkRows` rows, or at five if that is not positive.  It is the name of the
      leftmost column of the highest score among those that may be the key; there is none if there are no
      rows, no such column, or the column has no name. */
  lemma GuessIsLeftmostBest(headers: seq<string>, rows: seq<Row>, checkRows: int, score: Score)
    ensures var limit := if checkRows <= 0 then 5 else checkRows;
      var n := if |rows| < limit then |rows| else limit;
      var guess := Guess(headers, rows[..RowsChecked(rows, checkRows)], score);
      && (guess.Some? ==>
           && n > 0 && guess.value != ""
           && exists c: nat :: c < |headers| && headers[c] == guess.value && Wins(headers, rows, n, score, c))
      && (guess.None? && n > 0 ==> forall c: nat :: c < |headers| && headers[c] != "" ==>
            !Wins(headers, rows, n, score, c))
  {
    var n := RowsChecked(rows, checkRows);
    if n > 0 {
      LeaderWins(headers, rows, n, score);
    }
  }

  lemma LeaderWins(headers: seq<string>, rows: seq<Row>, n: nat, score: Score)
    requires 0 < n <= |rows|
    ensures var b := Leader(Grades(headers, rows[..n], score), |headers|);
      && (b < 0 ==> forall c: nat :: c < |headers| ==> !Wins(headers, rows, n, score, c))
      && (b >= 0 ==> Wins(headers, rows, n, score, b))
      && (b >= 0 ==> forall c: nat :: c < |headers| && Wins(headers, rows, n, score, c) ==> c == b)
  {
    var g := Grades(headers, rows[..n], score);
    var b := Leader(g, |headers|);
    LeaderIsLeftmostBest(g, |headers|);
    forall c: nat | c < |headers|
      ensures g[c].Some? <==> MayBeKey(rows, n, c)
      ensures MayBeKey(rows, n, c) ==> forall p: nat :: Scores(headers, rows, n, score, c, p) <==> g[c] == Some(p)
    {
      EligibleIs(rows, n, c);
      if MayBeKey(rows, n, c) {
        forall p: nat
          ensures Scores(headers, rows, n, score, c, p) <==> g[c] == Some(p)
        {
          GradeIs(headers, rows, n, score, c, p);
        }
      }
    }
    forall c: nat | c < |headers| && Wins(headers, rows, n, score, c) && b >= 0
      ensures c == b
    {
      assert Scores(headers, rows, n, score, c, g[c].value) && Scores(headers, rows, n, score, b, g[b].value);
    }
  }
}
