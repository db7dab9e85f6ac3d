/** Text as sequences of code points, with the whitespace trimming that Go's
    strings.TrimSpace performs.  Every "is it blank" test of the pipeline and of
    the table engine goes through `TrimSpace`. */
module Text {

  /** The code points unicode.IsSpace accepts. */
  predicate IsSpace(c: char) {
    || c == ' '
    || '\t' <= c <= '\r'
    || c == '\U{85}' || c == '\U{A0}' || c == '\U{1680}'
    || '\U{2000}' <= c <= '\U{200A}'
    || c == '\U{2028}' || c == '\U{2029}' || c == '\U{202F}'
    || c == '\U{205F}' || c == '\U{3000}'
  }

  function TrimLeft(s: string): string {
    if s != "" && IsSpace(s[0]) then TrimLeft(s[1..]) else s
  }

  function TrimRight(s: string): string {
    if s != "" && IsSpace(s[|s| - 1]) then TrimRight(s[..|s| - 1]) else s
  }

  /** What is cut off is white space, and what remains does not begin with any. */
  lemma {:induction false} TrimLeftCuts(s: string)
    ensures var r := TrimLeft(s);
      && (r == "" || !IsSpace(r[0]))
      && |r| <= |s| && r == s[|s| - |r|..]
      && forall i :: 0 <= i < |s| - |r| ==> IsSpace(s[i])
  {
    if s != "" && IsSpace(s[0]) {
      TrimLeftCuts(s[1..]);
    }
  }

  lemma {:induction false} TrimRightCuts(s: string)
    ensures var r := TrimRight(s);
      && (r == "" || !IsSpace(r[|r| - 1]))
      && |r| <= |s| && r == s[..|r|]
      && forall i :: |r| <= i < |s| ==> IsSpace(s[i])
  {
    if s != "" && IsSpace(s[|s| - 1]) {
      TrimRightCuts(s[..|s| - 1]);
    }
  }

  function TrimSpace(s: string): string {
    TrimRight(TrimLeft(s))
  }

  /** A text with no leading and no trailing white space. */
  predicate Trimmed(s: string) {
    s != "" ==> !IsSpace(s[0]) && !IsSpace(s[|s| - 1])
  }

  /** What the program tests as strings.TrimSpace(s) == "" (see BlankIffTrimmedAway). */
  predicate Blank(s: string) {
    forall i :: 0 <= i < |s| ==> IsSpace(s[i])
  }

  lemma TrimSpaceIsTrimmed(s: string)
    ensures Trimmed(TrimSpace(s))
  {
    var l := TrimLeft(s);
    var r := TrimRight(l);
    TrimLeftCuts(s);
    TrimRightCuts(l);
    if r != "" {
      assert r[0] == l[0];
    }
  }

  lemma TrimmedIsFixed(s: string)
    requires Trimmed(s)
    ensures TrimSpace(s) == s
  {
  }

  /** Trimming leaves nothing exactly of the texts that are all white space. */
  lemma BlankIffTrimmedAway(s: string)
    ensures Blank(s) <==> TrimSpace(s) == ""
  {
    var l := TrimLeft(s);
    var r := TrimRight(l);
    TrimLeftCuts(s);
    TrimRightCuts(l);
    if r == "" {
      assert l == "";
    } else {
      assert s[|s| - |l|] == l[0] == r[0];
      TrimSpaceIsTrimmed(s);
    }
  }

  /** The code points with the Unicode property White_Space. */
  const WHITE_SPACE: set<int> := {
    9, 10, 11, 12, 13, 32, 133, 160, 5760, 8192, 8193, 8194, 8195, 8196, 8197, 8198, 8199, 8200, 8201, 8202,
    8232, 8233, 8239, 8287, 12288
  }

  lemma SpacesAre(c: char)
    ensures IsSpace(c) <==> c as int in WHITE_SPACE
  {
  }

  /** Trimming cuts white space off both ends, as much as there is: nothing else remains of a text. */
  lemma TrimSpaceIs(before: string, s: string, after: string)
    requires (forall i :: 0 <= i < |before| ==> before[i] as int in WHITE_SPACE)
    requires (forall i :: 0 <= i < |after| ==> after[i] as int in WHITE_SPACE)
    requires s != "" ==> s[0] as int !in WHITE_SPACE && s[|s| - 1] as int !in WHITE_SPACE
    ensures TrimSpace(before + s + after) == s
  {
    var t := before + s + after;
    forall c: char
      ensures IsSpace(c) <==> c as int in WHITE_SPACE
    {
      SpacesAre(c);
    }
    if s == "" {
      assert Blank(t);
      BlankIffTrimmedAway(t);
    } else {
      TrimLeftCuts(t);
      TrimRightCuts(TrimLeft(t));
      LeftEnd(before, s, after, TrimLeft(t));
      RightEnd(s, after, TrimRight(TrimLeft(t)));
    }
  }

  lemma LeftEnd(before: string, s: string, after: string, l: string)
    requires Blank(before) && s != "" && !IsSpace(s[0])
    requires var t := before + s + after;
      |l| <= |t| && l == t[|t| - |l|..] && (l == "" || !IsSpace(l[0])) && forall i ::
        0 <= i < |t| - |l| ==> IsSpace(t[i])
    ensures l == s + after
  {
    var t := before + s + after;
    var cut := |t| - |l|;
    assert t[|before|] == s[0];
    assert cut <= |before| && l[0] == t[cut];
    assert forall i :: 0 <= i < |before| ==> t[i] == before[i];
  }

  lemma RightEnd(s: string, after: string, r: string)
    requires Blank(after) && s != "" && !IsSpace(s[|s| - 1])
    requires var l := s + after;
      |r| <= |l| && r == l[..|r|] && (r == "" || !IsSpace(r[|r| - 1])) && forall i :: |r| <= i < |l| ==> IsSpace(l[i])
    ensures r == s
  {
    var l := s + after;
    assert l[|s| - 1] == s[|s| - 1];
    assert |s| <= |r| && r[|r| - 1] == l[|r| - 1];
    assert forall i :: |s| <= i < |l| ==> l[i] == after[i - |s|];
  }
}
