/** The site index's text handling: splitting and joining strings, and normalizing a section. */
module SiteText {

  // ----- strings.Split and strings.Join

  predicate At(s: string, i: nat, sub: string) {
    i + |sub| <= |s| && s[i..i + |sub|] == sub
  }

  /** The leftmost occurrence at or after i, or -1. */
  function IndexFrom(s: string, sub: string, i: nat): (k: int)
    requires i <= |s| && sub != []
    decreases |s| - i
    ensures -1 <= k && (k >= 0 ==> i <= k && At(s, k, sub) && forall j: nat :: i <= j < k ==> !At(s, j, sub))
    ensures k < 0 ==> forall j: nat :: i <= j ==> !At(s, j, sub)
  {
    if i + |sub| > |s| then -1
    else if At(s, i, sub) then i
    else IndexFrom(s, sub, i + 1)
  }

  function Split(s: string, sep: string): (parts: seq<string>)
    requires sep != []
    decreases |s|
    ensures parts != []
  {
    var i := IndexFrom(s, sep, 0);
    if i < 0 then [s] else [s[..i]] + Split(s[i + |sep|..], sep)
  }

  function Join(parts: seq<string>, sep: string): string {
    if parts == [] then []
    else if |parts| == 1 then parts[0]
    else parts[0] + sep + Join(parts[1..], sep)
  }

  lemma {:induction false} JoinSplit(s: string, sep: string)
    requires sep != []
    ensures Join(Split(s, sep), sep) == s
    decreases |s|
  {
    var i := IndexFrom(s, sep, 0);
    if i >= 0 {
      JoinSplit(s[i + |sep|..], sep);
      assert s == s[..i] + sep + s[i + |sep|..];
      assert Split(s, sep)[1..] == Split(s[i + |sep|..], sep);
    }
  }

  // ----- normalized text

  const NL := "\n"
  const BLANK := "\n\n"

  predicate NoTriple(s: string) {
    forall i :: 0 <= i && i + 2 < |s| ==> !(s[i] == s[i + 1] == s[i + 2] == '\n')
  }

  /** No run of three line breaks, and none at either end. */
  predicate Normal(s: string) {
    s != [] && s[0] != '\n' && s[|s| - 1] != '\n' && NoTriple(s)
  }

  /** Every run of three or more line breaks becomes two. */
  function CollapseBlank(s: string): (r: string)
    ensures NoTriple(r)
  {
    if s == [] then []
    else
      var front, c := CollapseBlank(s[..|s| - 1]), s[|s| - 1];
      if c == '\n' && |front| >= 2 && front[|front| - 1] == front[|front| - 2] == '\n' then front else front + [c]
  }

  /** What unicode.IsSpace answers; only that a line break is one matters. */
  predicate TreatsBreakAsSpace(isSpace: char -> bool) {
    isSpace('\n')
  }

  function TrimLeft(s: string, isSpace: char -> bool): (r: string)
    ensures |r| <= |s| && r == s[|s| - |r|..] && (r != [] ==> !isSpace(r[0]))
    ensures forall i :: 0 <= i < |s| - |r| ==> isSpace(s[i])
  {
    if s != [] && isSpace(s[0]) then TrimLeft(s[1..], isSpace) else s
  }

  function TrimRight(s: string, isSpace: char -> bool): (r: string)
    ensures r <= s && (r != [] ==> !isSpace(r[|r| - 1]))
    ensures forall i :: |r| <= i < |s| ==> isSpace(s[i])
  {
    if s != [] && isSpace(s[|s| - 1]) then TrimRight(s[..|s| - 1], isSpace) else s
  }

  function NormalizeBody(lines: seq<string>, isSpace: char -> bool): string {
    TrimRight(TrimLeft(CollapseBlank(Join(lines, NL)), isSpace), isSpace)
  }

  // ----- nothing but space is lost

  /** The runes of a text that are not space, in order. */
  function Ink(s: string, isSpace: char -> bool): string {
    if s == [] then []
    else Ink(s[..|s| - 1], isSpace) + if isSpace(s[|s| - 1]) then [] else [s[|s| - 1]]
  }

  function InkOf(texts: seq<string>, isSpace: char -> bool): string {
    if texts == [] then [] else InkOf(texts[..|texts| - 1], isSpace) + Ink(texts[|texts| - 1], isSpace)
  }

  lemma {:induction false} InkAppend(a: string, b: string, isSpace: char -> bool)
    ensures Ink(a + b, isSpace) == Ink(a, isSpace) + Ink(b, isSpace)
  {
    if b == [] {
      assert a + b == a;
    } else {
      var front, last := b[..|b| - 1], b[|b| - 1];
      assert (a + b)[..|a + b| - 1] == a + front;
      InkAppend(a, front, isSpace);
    }
  }

  lemma {:induction false} InkOfAppend(a: seq<string>, b: seq<string>, isSpace: char -> bool)
    ensures InkOf(a + b, isSpace) == InkOf(a, isSpace) + InkOf(b, isSpace)
  {
    if b == [] {
      assert a + b == a;
    } else {
      assert (a + b)[..|a + b| - 1] == a + b[..|b| - 1];
      InkOfAppend(a, b[..|b| - 1], isSpace);
    }
  }

  lemma {:induction false} SpaceHasNoInk(s: string, isSpace: char -> bool)
    requires forall i :: 0 <= i < |s| ==> isSpace(s[i])
    ensures Ink(s, isSpace) == []
  {
    if s != [] {
      SpaceHasNoInk(s[..|s| - 1], isSpace);
    }
  }

  /** Trimming cuts off space only. */
  lemma TrimKeepsInk(s: string, isSpace: char -> bool)
    ensures Ink(TrimLeft(s, isSpace), isSpace) == Ink(s, isSpace) == Ink(TrimRight(s, isSpace), isSpace)
  {
    hide Ink, TrimLeft, TrimRight;
    var l, r := TrimLeft(s, isSpace), TrimRight(s, isSpace);
    var cutLeft, cutRight := s[..|s| - |l|], s[|r|..];
    assert s == cutLeft + l && s == r + cutRight;
    InkAppend(cutLeft, l, isSpace);
    InkAppend(r, cutRight, isSpace);
    SpaceHasNoInk(cutLeft, isSpace);
    SpaceHasNoInk(cutRight, isSpace);
    assert [] + Ink(l, isSpace) == Ink(l, isSpace) && Ink(r, isSpace) + [] == Ink(r, isSpace);
  }

  /** Collapsing drops line breaks only: whatever else counts as space, all other runes stay, in order. */
  lemma {:induction false} CollapseKeepsInk(s: string, isSpace: char -> bool)
    requires TreatsBreakAsSpace(isSpace)
    ensures Ink(CollapseBlank(s), isSpace) == Ink(s, isSpace)
  {
    if s != [] {
      var front, c := CollapseBlank(s[..|s| - 1]), s[|s| - 1];
      CollapseKeepsInk(s[..|s| - 1], isSpace);
      InkAppend(front, [c], isSpace);
      assert Ink([c], isSpace) == if isSpace(c) then [] else [c];
    }
  }

  /** A text without a triple break is left as it is. */
  lemma {:induction false} CollapseLeavesNormal(s: string)
    requires NoTriple(s)
    ensures CollapseBlank(s) == s
  {
    if s != [] {
      var front := s[..|s| - 1];
      SliceNoTriple(s, 0, |front|);
      assert s[0..|front|] == front;
      CollapseLeavesNormal(front);
      assert |front| >= 2 ==> !(s[|front| - 2] == s[|front| - 1] == s[|front|] == '\n');
      assert s == front + [s[|s| - 1]];
    }
  }

  function Breaks(k: nat): (s: string)
    ensures |s| == k && forall i :: 0 <= i < k ==> s[i] == '\n'
  {
    seq(k, _ => '\n')
  }

  predicate EndsInText(s: string) {
    s != [] ==> s[|s| - 1] != '\n'
  }

  lemma {:induction false} CollapseEnds(s: string)
    ensures s == [] <==> CollapseBlank(s) == []
    ensures s != [] ==> CollapseBlank(s)[0] == s[0] && CollapseBlank(s)[|CollapseBlank(s)| - 1] == s[|s| - 1]
  {
    if s != [] {
      CollapseEnds(s[..|s| - 1]);
    }
  }

  lemma CollapseSnoc(s: string, c: char)
    ensures CollapseBlank(s + [c]) == if c == '\n' && EndsInBreaks(CollapseBlank(s)) then CollapseBlank(s)
                                      else CollapseBlank(s) + [c]
  {
    hide CollapseBlank, EndsInBreaks;
    var t := s + [c];
    assert t != [] && t[|t| - 1] == c && t[..|t| - 1] == s;
    CollapseLast(t);
  }

  lemma CollapseLast(t: string)
    requires t != []
    ensures var front, c := CollapseBlank(t[..|t| - 1]), t[|t| - 1];
            CollapseBlank(t) == if c == '\n' && EndsInBreaks(front) then front else front + [c]
  {
  }

  predicate EndsInBreaks(s: string) {
    |s| >= 2 && s[|s| - 1] == s[|s| - 2] == '\n'
  }

  lemma BreaksSnoc(k: nat)
    ensures Breaks(k + 1) == Breaks(k) + ['\n']
  {
  }

  /** A run of line breaks at the end: one or two stay, more become two. */
  lemma {:induction false} CollapseRunAtEnd(a: string, k: nat)
    requires EndsInText(a)
    ensures CollapseBlank(a + Breaks(k)) == CollapseBlank(a) + Breaks(if k < 2 then k else 2)
  {
    hide CollapseBlank, Breaks;
    if k == 0 {
      assert a + Breaks(0) == a && CollapseBlank(a) + Breaks(0) == CollapseBlank(a);
    } else {
      CollapseRunAtEnd(a, k - 1);
      CollapseEnds(a);
      var done, m: nat := CollapseBlank(a), if k - 1 < 2 then k - 1 else 2;
      BreaksSnoc(k - 1);
      assert a + Breaks(k) == a + Breaks(k - 1) + ['\n'];
      CollapseSnoc(a + Breaks(k - 1), '\n');
      RunEnds(done, m);
      BreaksSnoc(m);
      assert done + Breaks(m) + ['\n'] == done + Breaks(m + 1);
    }
  }

  lemma RunEnds(done: string, m: nat)
    requires EndsInText(done) && m <= 2
    ensures EndsInBreaks(done + Breaks(m)) <==> m == 2
  {
    hide Breaks;
    var s := done + Breaks(m);
    if m == 1 && |s| >= 2 {
      assert s[|s| - 2] == done[|done| - 1];
    }
  }

  /** Every run of line breaks between text: one or two stay, more become exactly two, the rest is collapsed apart. */
  lemma {:induction false} CollapseRun(a: string, k: nat, b: string)
    requires EndsInText(a) && (b != [] ==> b[0] != '\n')
    ensures CollapseBlank(a + Breaks(k) + b) == CollapseBlank(a) + Breaks(if k < 2 then k else 2) + CollapseBlank(b)
  {
    hide CollapseBlank, Breaks, EndsInText, EndsInBreaks;
    CollapseEnds(b);
    var done := CollapseBlank(a) + Breaks(if k < 2 then k else 2);
    if b == [] {
      assert a + Breaks(k) + b == a + Breaks(k) && done + CollapseBlank(b) == done;
      CollapseRunAtEnd(a, k);
    } else {
      var front, c := b[..|b| - 1], b[|b| - 1];
      CollapseRun(a, k, front);
      CollapseEnds(front);
      assert front == [] ==> c != '\n';
      assert a + Breaks(k) + b == a + Breaks(k) + front + [c] && b == front + [c];
      OneMoreRune(a + Breaks(k) + front, done, front, c);
    }
  }

  lemma OneMoreRune(s: string, done: string, front: string, c: char)
    requires CollapseBlank(s) == done + CollapseBlank(front)
    requires front == [] ==> c != '\n' && CollapseBlank(front) == []
    requires front != [] ==> CollapseBlank(front) != [] && CollapseBlank(front)[0] != '\n'
    ensures CollapseBlank(s + [c]) == done + CollapseBlank(front + [c])
  {
    hide CollapseBlank, EndsInBreaks;
    CollapseSnoc(s, c);
    CollapseSnoc(front, c);
    TailEnds(done, CollapseBlank(front));
    assert done + CollapseBlank(front) + [c] == done + (CollapseBlank(front) + [c]);
  }

  lemma TailEnds(done: string, more: string)
    requires more != [] ==> more[0] != '\n'
    ensures more != [] ==> (EndsInBreaks(done + more) <==> EndsInBreaks(more))
  {
    var s := done + more;
    if |more| == 1 {
      assert s[|s| - 1] == more[0];
    }
  }

  lemma {:induction false} JoinInk(lines: seq<string>, isSpace: char -> bool)
    requires TreatsBreakAsSpace(isSpace)
    ensures Ink(Join(lines, NL), isSpace) == InkOf(lines, isSpace)
  {
    if |lines| == 1 {
      hide Ink;
      assert lines[..0] == [] && [] + Ink(lines[0], isSpace) == Ink(lines[0], isSpace);
    } else if |lines| > 1 {
      hide Ink, InkOf;
      var first, rest := lines[0], lines[1..];
      JoinInk(rest, isSpace);
      assert Join(lines, NL) == first + NL + Join(rest, NL);
      InkAppend(first + NL, Join(rest, NL), isSpace);
      InkAppend(first, NL, isSpace);
      SpaceHasNoInk(NL, isSpace);
      assert Ink(first, isSpace) + [] == Ink(first, isSpace);
      assert lines == [first] + rest;
      InkOfAppend([first], rest, isSpace);
      InkOfOne(first, isSpace);
    }
  }

  lemma InkOfOne(text: string, isSpace: char -> bool)
    ensures InkOf([text], isSpace) == Ink(text, isSpace)
  {
    hide Ink;
    assert [text][..0] == [] && [] + Ink(text, isSpace) == Ink(text, isSpace);
  }

  /** What a section says is all there: normalizing its lines loses nothing but space. */
  lemma BodyKeepsInk(lines: seq<string>, isSpace: char -> bool)
    requires TreatsBreakAsSpace(isSpace)
    ensures Ink(NormalizeBody(lines, isSpace), isSpace) == InkOf(lines, isSpace)
  {
    var joined := Join(lines, NL);
    JoinInk(lines, isSpace);
    CollapseKeepsInk(joined, isSpace);
    TrimKeepsInk(CollapseBlank(joined), isSpace);
    TrimKeepsInk(TrimLeft(CollapseBlank(joined), isSpace), isSpace);
  }

  /** So what is indexed is empty or normalized. */
  lemma BodyIsNormal(lines: seq<string>, isSpace: char -> bool)
    requires TreatsBreakAsSpace(isSpace)
    ensures NormalizeBody(lines, isSpace) == [] || Normal(NormalizeBody(lines, isSpace))
  {
    hide CollapseBlank, NoTriple, TrimLeft, TrimRight, Join;
    var c := CollapseBlank(Join(lines, NL));
    var l := TrimLeft(c, isSpace);
    var r := TrimRight(l, isSpace);
    SliceNoTriple(c, |c| - |l|, |c|);
    assert c[|c| - |l|..|c|] == l;
    SliceNoTriple(l, 0, |r|);
    assert l[0..|r|] == r;
    assert r != [] ==> r[0] == l[0];
  }

  lemma SliceNoTriple(s: string, lo: nat, hi: nat)
    requires lo <= hi <= |s| && NoTriple(s)
    ensures NoTriple(s[lo..hi])
  {
    var r := s[lo..hi];
    forall i | 0 <= i && i + 2 < |r| ensures !(r[i] == r[i + 1] == r[i + 2] == '\n') {
      assert !(s[lo + i] == s[lo + i + 1] == s[lo + i + 2] == '\n');
    }
  }

  predicate OneLine(s: string) {
    '\n' !in s
  }

  /** A paragraph: no blank line inside, no line break at the ends. */
  ghost predicate IsPara(s: string) {
    s != [] && s[0] != '\n' && s[|s| - 1] != '\n' && forall j: nat :: !At(s, j, BLANK)
  }

  lemma {:induction false} NormalSplits(s: string)
    requires Normal(s)
    ensures forall n :: 0 <= n < |Split(s, BLANK)| ==> IsPara(Split(s, BLANK)[n])
    decreases |s|
  {
    var i := IndexFrom(s, BLANK, 0);
    if i >= 0 {
      var head, rest := s[..i], s[i + 2..];
      assert s[i] == '\n' && s[i + 1] == '\n' by {
        assert s[i..i + 2][0] == '\n' && s[i..i + 2][1] == '\n';
      }
      assert i > 0;
      assert s[i - 1] != '\n';
      assert i + 2 < |s|;
      assert s[i + 2] != '\n';
      forall j: nat ensures !At(head, j, BLANK) {
        if j + 2 <= i {
          assert head[j..j + 2] == s[j..j + 2];
          assert !At(s, j, BLANK);
        }
      }
      assert IsPara(head);
      assert Normal(rest) by {
        forall k | 0 <= k && k + 2 < |rest| ensures !(rest[k] == rest[k + 1] == rest[k + 2] == '\n') {
          assert rest[k] == s[i + 2 + k] && rest[k + 1] == s[i + 3 + k] && rest[k + 2] == s[i + 4 + k];
        }
      }
      NormalSplits(rest);
    }
  }

  lemma {:induction false} LinesAreLines(s: string)
    ensures forall n :: 0 <= n < |Split(s, NL)| ==> OneLine(Split(s, NL)[n])
    decreases |s|
  {
    var i := IndexFrom(s, NL, 0);
    if i < 0 {
      assert forall j :: 0 <= j < |s| ==> !At(s, j, NL) && s[j..j + 1] == [s[j]];
    } else {
      forall j | 0 <= j < i ensures s[..i][j] != '\n' {
        assert !At(s, j, NL) && s[j..j + 1] == [s[j]];
      }
      LinesAreLines(s[i + 1..]);
    }
  }

  lemma {:induction false} ParaSplits(s: string)
    requires IsPara(s)
    ensures forall n :: 0 <= n < |Split(s, NL)| ==> Split(s, NL)[n] != []
    decreases |s|
  {
    var i := IndexFrom(s, NL, 0);
    if i >= 0 {
      var rest := s[i + 1..];
      assert s[i] == '\n' by {
        assert s[i..i + 1][0] == '\n';
      }
      assert s[i + 1] != '\n' by {
        assert !At(s, i, BLANK);
        assert s[i..i + 2] == [s[i], s[i + 1]];
      }
      forall j: nat ensures !At(rest, j, BLANK) {
        if j + 2 <= |rest| {
          assert rest[j..j + 2] == s[i + 1 + j..i + 3 + j];
          assert !At(s, i + 1 + j, BLANK);
        }
      }
      ParaSplits(rest);
    }
  }
}
