/** Sheet names: made safe, cut to length, and made unique with a numbered suffix. */
module SheetName {
  import opened Text
  import opened Decimal

  const MAX_RUNES: nat := 31

  const FORBIDDEN: string := ":\\/?*[]"

  predicate IsForbidden(c: char) { c in FORBIDDEN }

  /** What every sheet name must be, whatever its length. */
  predicate WellFormed(s: string) {
    s != "" && forall i :: 0 <= i < |s| ==> !IsForbidden(s[i])
  }

  // ----- sheetBaseName -----

  const NO_NAME: string := "文件"

  function StripSlashes(p: string): (r: string)
    ensures |r| <= |p| && r == p[..|r|] && (r == "" || r[|r| - 1] != '/')
  {
    if p != "" && p[|p| - 1] == '/' then StripSlashes(p[..|p| - 1]) else p
  }

  function AfterLast(p: string, c: char): string {
    if p == "" || p[|p| - 1] == c then "" else AfterLast(p[..|p| - 1], c) + [p[|p| - 1]]
  }

  lemma {:induction false} AfterLastCuts(p: string, c: char)
    ensures var r := AfterLast(p, c); |r| <= |p| && r == p[|p| - |r|..] && c !in r
  {
    if p != "" && p[|p| - 1] != c {
      AfterLastCuts(p[..|p| - 1], c);
    }
  }

  /** The last element of a path that is not empty. */
  function PathBase(p: string): string {
    var q := StripSlashes(p);
    if q == "" then "/" else AfterLast(q, '/')
  }

  /** The name up to its last point, unless that is its first character. */
  function WithoutExtension(name: string): string {
    var ext := AfterLast(name, '.');
    if |ext| + 1 < |name| then name[..|name| - |ext| - 1] else name
  }

  /** What a sheet title says of a file. */
  function SheetBaseName(filename: string): string {
    var name := TrimSpace(filename);
    if name == "" then NO_NAME
    else
      var base := TrimSpace(WithoutExtension(PathBase(name)));
      if base == "" then NO_NAME else base
  }

  // ----- What the title says of a path -----

  lemma {:induction false} StripsSlashes(p: string, slashes: string)
    requires (forall i :: 0 <= i < |slashes| ==> slashes[i] == '/') && (p == "" || p[|p| - 1] != '/')
    ensures StripSlashes(p + slashes) == p
  {
    var s := p + slashes;
    if slashes == "" {
      assert s == p;
    } else {
      var fewer := slashes[..|slashes| - 1];
      StripsSlashes(p, fewer);
      assert s[..|s| - 1] == p + fewer;
    }
  }

  lemma {:induction false} AfterLastIs(p: string, c: char, r: string)
    requires c !in r && (p == "" || p[|p| - 1] == c)
    ensures AfterLast(p + r, c) == r
  {
    var s, n := p + r, |r| - 1;
    if r == "" {
      assert s == p;
    } else {
      AfterLastIs(p, c, r[..n]);
      assert s[..|s| - 1] == p + r[..n] && r == r[..n] + [r[n]];
      assert s[|s| - 1] == r[n] && r[n] in r;
    }
  }

  /** The last element of a path, slashes at the end aside; a path of slashes only is the root. */
  lemma LastElement(dir: string, last: string, slashes: string)
    requires (dir == "" || dir[|dir| - 1] == '/') && '/' !in last
    requires forall i :: 0 <= i < |slashes| ==> slashes[i] == '/'
    ensures last != "" ==> PathBase(dir + last + slashes) == last
    ensures PathBase(slashes) == "/"
  {
    StripsSlashes("", slashes);
    assert "" + slashes == slashes;
    if last != "" {
      StripsSlashes(dir + last, slashes);
      AfterLastIs(dir, '/', last);
    }
  }

  /** A name without its extension; a name that has no point, or begins with its only one, is its own stem. */
  lemma Stem(stem: string, ext: string)
    requires '.' !in ext
    ensures stem != "" ==> WithoutExtension(stem + "." + ext) == stem
    ensures WithoutExtension("." + ext) == "." + ext && WithoutExtension(ext) == ext
  {
    AfterLastIs(stem + ".", '.', ext);
    AfterLastIs(".", '.', ext);
    AfterLastIs("", '.', ext);
    assert "" + ext == ext;
  }

  /** So the title names a file after its stem, wherever it lies. */
  lemma TitleNamesStem(dir: string, stem: string, ext: string)
    requires (dir == "" || dir[|dir| - 1] == '/') && '/' !in stem && '/' !in ext && '.' !in ext && stem != ""
    requires Trimmed(dir + stem + "." + ext)
    ensures SheetBaseName(dir + stem + "." + ext) == if Blank(stem) then "文件" else TrimSpace(stem)
  {
    var last := stem + "." + ext;
    TrimmedIsFixed(dir + stem + "." + ext);
    assert dir + stem + "." + ext == dir + last + "";
    LastElement(dir, last, "");
    Stem(stem, ext);
    BlankIffTrimmedAway(stem);
  }

  lemma PathBaseIsPlain(p: string)
    ensures PathBase(p) == "/" || (PathBase(p) != "" && '/' !in PathBase(p))
  {
    AfterLastCuts(StripSlashes(p), '/');
  }

  lemma WithoutExtensionKeeps(name: string, c: char)
    requires name != ""
    ensures WithoutExtension(name) != "" && (c in WithoutExtension(name) ==> c in name)
    ensures name == "/" ==> WithoutExtension(name) == "/"
  {
    AfterLastCuts(name, '.');
  }

  lemma TrimKeeps(s: string, c: char)
    ensures c in TrimSpace(s) ==> c in s
  {
    var l := TrimLeft(s);
    TrimLeftCuts(s);
    TrimRightCuts(l);
    assert forall x :: x in TrimRight(l) ==> x in l;
    assert forall x :: x in l ==> x in s;
  }

  lemma StemIsPlain(name: string)
    ensures '/' in WithoutExtension(PathBase(name)) ==> WithoutExtension(PathBase(name)) == "/"
  {
    PathBaseIsPlain(name);
    WithoutExtensionKeeps(PathBase(name), '/');
  }

  lemma TrimmedStaysPlain(s: string)
    requires '/' in s ==> s == "/"
    ensures '/' in TrimSpace(s) ==> TrimSpace(s) == "/"
  {
    TrimKeeps(s, '/');
    if s == "/" {
      TrimmedIsFixed(s);
    }
  }

  /** It is never empty, and names no directory but the root. */
  lemma BaseNameIsPlain(filename: string)
    ensures SheetBaseName(filename) != ""
    ensures '/' in SheetBaseName(filename) ==> SheetBaseName(filename) == "/"
  {
    StemIsPlain(TrimSpace(filename));
    TrimmedStaysPlain(WithoutExtension(PathBase(TrimSpace(filename))));
  }

  // ----- trimRunes -----

  function Cut(s: string, n: int): (r: string)
    ensures |r| == if n <= 0 then 0 else if |s| <= n then |s| else n
  {
    if n <= 0 then "" else if |s| <= n then s else s[..n]
  }

  method TrimRunes(s: string, n: int) returns (out: string)
    ensures out == Cut(s, n)
  {
    if n <= 0 {
      return "";
    }
    if |s| <= n {
      return s;
    }
    out := "";
    for i := 0 to |s|
      invariant i < n && out == s[..i]
    {
      out := out + [s[i]];
      if |out| >= n {
        break;
      }
    }
  }

  // ----- safeSheetName -----

  /** Every forbidden character becomes an underscore. */
  function Cleaned(s: string): string {
    seq(|s|, i requires 0 <= i < |s| => if IsForbidden(s[i]) then '_' else s[i])
  }

  function Base(name: string): string {
    var t := TrimSpace(name);
    Cut(Cleaned(if t == "" then "Sheet" else t), MAX_RUNES)
  }

  function ReplaceAll(s: string, c: char): string {
    seq(|s|, i requires 0 <= i < |s| => if s[i] == c then '_' else s[i])
  }

  lemma CleanedIsSafe(s: string)
    requires s != ""
    ensures WellFormed(Cleaned(s)) && |Cleaned(s)| == |s|
  {
  }

  /** One pass for every forbidden character. */
  method Clean(t: string) returns (s: string)
    ensures s == Cleaned(t)
  {
    s := t;
    for n := 0 to |FORBIDDEN|
      invariant |s| == |t|
      invariant forall i :: 0 <= i < |t| ==> s[i] == if t[i] in FORBIDDEN[..n] then '_' else t[i]
    {
      var c := FORBIDDEN[n];
      assert FORBIDDEN[..n + 1] == FORBIDDEN[..n] + [c];
      assert c != '_';
      assert '_' !in FORBIDDEN[..n];
      s := ReplaceAll(s, c);
    }
    assert FORBIDDEN[..|FORBIDDEN|] == FORBIDDEN;
  }

  method SafeSheetName(name: string) returns (s: string)
    ensures s == Base(name)
  {
    s := TrimSpace(name);
    if s == "" {
      s := "Sheet";
    }
    s := Clean(s);
    if |s| > MAX_RUNES {
      s := TrimRunes(s, MAX_RUNES);
    }
  }

  /** A title becomes its own sheet name, but for the white space around it, the seven characters that a name
      must not have, and what goes beyond 31 runes; a blank one becomes "Sheet". */
  lemma BaseIsTitle(name: string)
    ensures var t := if Blank(name) then "Sheet" else TrimSpace(name);
      && |Base(name)| == (if |t| <= 31 then |t| else 31)
      && forall i :: 0 <= i < |Base(name)| ==> Base(name)[i] == if t[i] in ":\\/?*[]" then '_' else t[i]
  {
    BlankIffTrimmedAway(name);
  }

  /** The name tried first is the base, and the i-th one ends in its number. */
  lemma CandidatesAre(base: string, i: nat)
    ensures i <= 1 ==> Candidate(base, i) == base
    ensures i >= 2 && |Digits(i)| < 30 && |base| <= 31 ==>
      exists n :: 0 <= n <= |base| && Candidate(base, i) == base[..n] + "_" + Digits(i) &&
        (n == |base| || n + 1 + |Digits(i)| == 31)
  {
    if i >= 2 && |Digits(i)| < 30 && |base| <= 31 {
      var room := 31 - |Suffix(i)|;
      var n := if |base| <= room then |base| else room;
      assert Candidate(base, i) == base[..n] + "_" + Digits(i);
    }
  }

  lemma BaseIsSafe(name: string)
    ensures WellFormed(Base(name)) && |Base(name)| <= MAX_RUNES
  {
    var t := TrimSpace(name);
    CleanedIsSafe(if t == "" then "Sheet" else t);
  }

  // ----- uniqueSheetName -----

  function Suffix(i: nat): string { "_" + Digits(i) }

  /** The name tried first, and from then on the base cut to make room for a numbered suffix. */
  function Candidate(base: string, i: nat): string {
    if i <= 1 then base
    else Cut(base, if MAX_RUNES - |Suffix(i)| < 1 then 1 else MAX_RUNES - |Suffix(i)|) + Suffix(i)
  }

  lemma SuffixesDiffer(a: string, b: string, i: nat, j: nat)
    requires i != j
    ensures a + Suffix(i) != b + Suffix(j)
  {
    assert a + Suffix(i) == a + ['_'] + Digits(i) && b + Suffix(j) == b + ['_'] + Digits(j);
    if a + Suffix(i) == b + Suffix(j) {
      SuffixInjective(a, b, '_', i, j);
    }
  }

  /** Two suffixed candidates always differ, however much of the base was cut off. */
  lemma CandidatesDistinct(base: string, i: nat, j: nat)
    requires 2 <= i < j
    ensures Candidate(base, i) != Candidate(base, j)
  {
    SuffixesDiffer(Cut(base, if MAX_RUNES - |Suffix(i)| < 1 then 1 else MAX_RUNES - |Suffix(i)|),
                   Cut(base, if MAX_RUNES - |Suffix(j)| < 1 then 1 else MAX_RUNES - |Suffix(j)|), i, j);
  }

  /** Every candidate is a well-formed name, and fits exactly if its suffix leaves room for one rune. */
  lemma CandidateShape(base: string, i: nat)
    requires WellFormed(base) && |base| <= MAX_RUNES
    ensures WellFormed(Candidate(base, i))
    ensures |Candidate(base, i)| <= MAX_RUNES <==> i <= 1 || |Suffix(i)| <= MAX_RUNES - 1
  {
    if i > 1 {
      var s := Suffix(i);
      assert forall k :: 0 <= k < |s| ==> s[k] == '_' || IsDigit(s[k]);
    }
  }

  function Pow10(k: nat): (p: nat)
    ensures p >= 1
  {
    if k == 0 then 1 else 10 * Pow10(k - 1)
  }

  lemma {:induction false} DigitsLength(n: nat, k: nat)
    requires k > 0
    ensures |Digits(n)| <= k <==> n < Pow10(k)
  {
    if k == 1 {
      assert Pow10(1) == 10;
    } else if n >= 10 {
      DigitsLength(n / 10, k - 1);
    }
  }

  /** The names tried before the i-th candidate were all taken, so they are no more than those in use. */
  lemma {:induction false} TakenCount(base: string, i: nat, used: set<string>) returns (tried: set<string>)
    requires i >= 2 && forall j :: 2 <= j < i ==> Candidate(base, j) in used
    ensures tried <= used && |tried| == i - 2
    ensures forall c :: c in tried ==> exists j :: 2 <= j < i && c == Candidate(base, j)
  {
    if i == 2 {
      tried := {};
    } else {
      tried := TakenCount(base, i - 1, used);
      var c := Candidate(base, i - 1);
      forall j | 2 <= j < i - 1
        ensures c != Candidate(base, j)
      {
        CandidatesDistinct(base, j, i - 1);
      }
      tried := tried + {c};
    }
  }

  lemma TakenBound(base: string, i: nat, used: set<string>)
    requires forall j :: 1 <= j < i ==> Candidate(base, j) in used
    ensures i <= |used| + 2
  {
    if i >= 2 {
      var tried := TakenCount(base, i, used);
      assert used == tried + (used - tried);
    }
  }

  /** `r` is the first candidate that is not in use. */
  ghost predicate FirstFree(r: string, base: string, i: nat, used: set<string>) {
    i >= 1 && r == Candidate(base, i) && r !in used && forall j :: 1 <= j < i ==> Candidate(base, j) in used
  }

  /** The sheet names of a workbook in the making. */
  class SheetNames {
    var used: set<string>

    constructor ()
      ensures used == {}
    {
      used := {};
    }

    /** The search ends within |used| + 2 candidates; `tried` says at which one. */
    method UniqueSheetName(name: string) returns (cand: string, ghost tried: nat)
      modifies this
      ensures FirstFree(cand, Base(name), tried, old(used)) && tried <= |old(used)| + 2
      ensures used == old(used) + {cand}
    {
      var base := SafeSheetName(name);
      cand := base;
      var i := 2;
      while cand in used
        invariant i >= 2 && used == old(used) && cand == Candidate(base, i - 1)
        invariant forall j :: 1 <= j < i - 1 ==> Candidate(base, j) in used
        decreases |used| + 3 - i
      {
        TakenBound(base, i, used);
        var suffix := "_" + Digits(i);
        var maxLen := MAX_RUNES - |suffix|;
        if maxLen < 1 {
          maxLen := 1;
        }
        cand := base;
        if |cand| > maxLen {
          cand := TrimRunes(cand, maxLen);
        }
        cand := cand + suffix;
        i := i + 1;
      }
      TakenBound(base, i - 1, used);
      tried := i - 1;
      used := used + {cand};
    }
  }

  /** Whatever the names in use, the first free candidate is new and well-formed; and it has at most
      31 runes unless some 10^29 names are in use already. */
  lemma UniqueNameIsValid(name: string, r: string, i: nat, used: set<string>)
    requires FirstFree(r, Base(name), i, used)
    ensures r !in used && WellFormed(r)
    ensures i <= |used| + 2
    ensures |r| <= MAX_RUNES <==> i < Pow10(29)
  {
    BaseIsSafe(name);
    CandidateShape(Base(name), i);
    TakenBound(Base(name), i, used);
    DigitsLength(i, 29);
    if i <= 1 {
      DigitsLength(1, 29);
      DigitsLength(i, 1);
    }
  }
}
