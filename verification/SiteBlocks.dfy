/** splitBlocks: packing paragraphs and lines into parts of bounded size, losing nothing but separators. */
module SiteBlocks {
  import opened SiteText

  const MAX_CHUNK_CHARS := 1200

  /** A piece the text is packed from, and the separator that came before it. */
  datatype Unit = Unit(text: string, sep: string)

  /** Units after the first keep their separators; the first one's is not written. */
  function Spread(units: seq<Unit>): string {
    if units == [] then []
    else if |units| == 1 then units[0].text
    else Spread(units[..|units| - 1]) + units[|units| - 1].sep + units[|units| - 1].text
  }

  lemma SpreadSnoc(units: seq<Unit>, u: Unit)
    ensures Spread(units + [u]) == if units == [] then u.text else Spread(units) + u.sep + u.text
  {
    assert (units + [u])[..|units|] == units;
  }

  /** A whole paragraph if it is short enough, its lines otherwise. */
  function ParaUnits(para: string): seq<Unit> {
    if |para| <= MAX_CHUNK_CHARS then [Unit(para, BLANK)] else LineUnits(Split(para, NL))
  }

  function LineUnits(lines: seq<string>): (units: seq<Unit>)
    ensures |units| == |lines|
  {
    seq(|lines|, n requires 0 <= n < |lines| => Unit(lines[n], if n == 0 then BLANK else NL))
  }

  function UnitsOf(paras: seq<string>): seq<Unit> {
    if paras == [] then [] else UnitsOf(paras[..|paras| - 1]) + ParaUnits(paras[|paras| - 1])
  }

  // ----- packing

  /** The parts closed so far and the one being filled. */
  datatype Pack = Pack(parts: seq<string>, current: string)

  /** A unit that does not fit closes the current part, and its separator is dropped. */
  function Added(p: Pack, u: Unit): Pack {
    if p.current != "" && |p.current| + |u.text| > MAX_CHUNK_CHARS then Pack(p.parts + [p.current], u.text)
    else if p.current != "" then Pack(p.parts, p.current + u.sep + u.text)
    else Pack(p.parts, u.text)
  }

  function AddedAll(p: Pack, units: seq<Unit>): Pack {
    if units == [] then p else Added(AddedAll(p, units[..|units| - 1]), units[|units| - 1])
  }

  function Finished(p: Pack): seq<string> {
    if p.current != "" then p.parts + [p.current] else p.parts
  }

  /** The parts of a text. */
  function Blocks(text: string): seq<string> {
    if |text| <= MAX_CHUNK_CHARS then [text]
    else Finished(AddedAll(Pack([], ""), UnitsOf(Split(text, BLANK))))
  }

  lemma AddedSnoc(p: Pack, units: seq<Unit>, u: Unit)
    ensures AddedAll(p, units + [u]) == Added(AddedAll(p, units), u)
  {
    assert (units + [u])[..|units|] == units;
  }

  lemma {:induction false} AddedAppend(p: Pack, a: seq<Unit>, b: seq<Unit>)
    ensures AddedAll(p, a + b) == AddedAll(AddedAll(p, a), b)
  {
    if b == [] {
      assert a + b == a;
    } else {
      var front, last := b[..|b| - 1], b[|b| - 1];
      AddedAppend(p, a, front);
      assert a + b == (a + front) + [last];
      AddedSnoc(p, a + front, last);
    }
  }

  /** The closure `add`. */
  method Add(parts: seq<string>, current: string, unit: string, sep: string)
    returns (parts': seq<string>, current': string)
    ensures Pack(parts', current') == Added(Pack(parts, current), Unit(unit, sep))
  {
    parts', current' := parts, current;
    var size, length := |unit|, |current|;
    if length > 0 && length + size > MAX_CHUNK_CHARS {
      parts' := parts' + [current'];
      current' := "";
      length := 0;
    }
    if length > 0 {
      current' := current' + sep;
    }
    current' := current' + unit;
  }

  method SplitBlocks(text: string) returns (parts: seq<string>)
    ensures parts == Blocks(text)
  {
    if |text| <= MAX_CHUNK_CHARS {
      return [text];
    }
    hide AddedAll, UnitsOf, Split;
    parts := [];
    var current := "";
    ghost var none := Pack([], "");
    var paras := Split(text, BLANK);
    NothingYet(none, paras);
    for p := 0 to |paras|
      invariant Pack(parts, current) == AddedAll(none, UnitsOf(paras[..p]))
    {
      UnitsSnoc(paras, p);
      AddedAppend(none, UnitsOf(paras[..p]), ParaUnits(paras[p]));
      parts, current := AddPara(parts, current, paras[p]);
    }
    assert paras[..|paras|] == paras;
    if |current| > 0 {
      parts := parts + [current];
    }
  }

  lemma NothingYet(none: Pack, paras: seq<string>)
    ensures AddedAll(none, UnitsOf(paras[..0])) == none
  {
  }

  lemma UnitsSnoc(paras: seq<string>, p: nat)
    requires p < |paras|
    ensures UnitsOf(paras[..p + 1]) == UnitsOf(paras[..p]) + ParaUnits(paras[p])
  {
    assert paras[..p + 1][..p] == paras[..p];
  }

  /** One turn of the loop over paragraphs: whole if short enough, else line by line. */
  method AddPara(parts: seq<string>, current: string, para: string) returns (parts': seq<string>, current': string)
    ensures Pack(parts', current') == AddedAll(Pack(parts, current), ParaUnits(para))
  {
    ghost var start := Pack(parts, current);
    if |para| <= MAX_CHUNK_CHARS {
      parts', current' := Add(parts, current, para, BLANK);
      AddedSnoc(start, [], Unit(para, BLANK));
      return;
    }
    parts', current' := parts, current;
    var lines := Split(para, NL);
    for i := 0 to |lines|
      invariant Pack(parts', current') == AddedAll(start, LineUnits(lines)[..i])
    {
      var sep := NL;
      if i == 0 {
        sep := BLANK;
      }
      assert LineUnits(lines)[..i + 1] == LineUnits(lines)[..i] + [Unit(lines[i], sep)];
      AddedSnoc(start, LineUnits(lines)[..i], Unit(lines[i], sep));
      parts', current' := Add(parts', current', lines[i], sep);
    }
    assert LineUnits(lines)[..|lines|] == LineUnits(lines);
  }

  // ----- the bound

  predicate Fits(part: string) {
    |part| <= MAX_CHUNK_CHARS + 2 || OneLine(part)
  }

  /** A unit is short or a single line, and comes after a line break or a blank line. */
  predicate IsUnit(u: Unit) {
    (|u.text| <= MAX_CHUNK_CHARS || OneLine(u.text)) && (u.sep == NL || u.sep == BLANK)
  }

  predicate AreUnits(units: seq<Unit>) {
    forall n :: 0 <= n < |units| ==> IsUnit(units[n])
  }

  lemma {:induction false} TextUnits(paras: seq<string>)
    ensures AreUnits(UnitsOf(paras))
  {
    if paras != [] {
      TextUnits(paras[..|paras| - 1]);
      LinesAreLines(paras[|paras| - 1]);
    }
  }

  lemma {:induction false} PackFits(units: seq<Unit>)
    requires AreUnits(units)
    ensures var p := AddedAll(Pack([], ""), units);
            Fits(p.current) && forall n :: 0 <= n < |p.parts| ==> Fits(p.parts[n])
  {
    if units != [] {
      PackFits(units[..|units| - 1]);
    }
  }

  /** For any text: no part exceeds the bound by more than a separator, unless it is a single line. */
  lemma BlocksFit(text: string)
    ensures forall n :: 0 <= n < |Blocks(text)| ==> Fits(Blocks(text)[n])
  {
    TextUnits(Split(text, BLANK));
    PackFits(UnitsOf(Split(text, BLANK)));
  }

  /** Within the bound that the comment promises. */
  predicate Within(part: string) {
    |part| <= MAX_CHUNK_CHARS || OneLine(part)
  }

  /** Unit n goes to the current part, which it fits without its separator and not with it. */
  ghost predicate Overflows(units: seq<Unit>, n: nat)
    requires n < |units|
  {
    var current := AddedAll(Pack([], ""), units[..n]).current;
    && current != "" && |current| + |units[n].text| <= MAX_CHUNK_CHARS
    && MAX_CHUNK_CHARS < |current| + |units[n].sep| + |units[n].text|
  }

  ghost predicate NoneOverflows(units: seq<Unit>) {
    forall n :: 0 <= n < |units| ==> !Overflows(units, n)
  }

  ghost predicate AllWithin(p: Pack) {
    Within(p.current) && forall n :: 0 <= n < |p.parts| ==> Within(p.parts[n])
  }

  lemma OverflowsSnoc(units: seq<Unit>, u: Unit)
    ensures NoneOverflows(units + [u]) <==> NoneOverflows(units) && !Overflows(units + [u], |units|)
  {
    var all := units + [u];
    assert forall n :: 0 <= n < |units| ==> all[..n] == units[..n] && all[n] == units[n];
    assert forall n :: 0 <= n < |units| ==> Overflows(all, n) == Overflows(units, n);
  }

  /** A part that is too long stays too long, and is closed by whatever comes next. */
  lemma AddedWithin(p: Pack, u: Unit)
    requires IsUnit(u)
    ensures AllWithin(Added(p, u)) <==>
              AllWithin(p) && !(p.current != ""
                && |p.current| + |u.text| <= MAX_CHUNK_CHARS < |p.current| + |u.sep| + |u.text|)
  {
    var q := Added(p, u);
    assert forall n :: 0 <= n < |p.parts| ==> q.parts[n] == p.parts[n];
    if p.current != "" && |p.current| + |u.text| > MAX_CHUNK_CHARS {
      assert q.parts[|p.parts|] == p.current;
    } else if p.current != "" {
      assert q.current[|p.current|] == '\n';
    }
  }

  lemma {:induction false} PackWithin(units: seq<Unit>)
    requires AreUnits(units)
    ensures AllWithin(AddedAll(Pack([], ""), units)) <==> NoneOverflows(units)
  {
    if units != [] {
      var front, u := units[..|units| - 1], units[|units| - 1];
      assert units == front + [u];
      PackWithin(front);
      OverflowsSnoc(front, u);
      AddedWithin(AddedAll(Pack([], ""), front), u);
      assert units[..|front|] == front;
    }
  }

  /** For any text that is split: every part but single lines keeps the bound exactly if no unit overflows. */
  lemma BoundIsKept(text: string)
    ensures PartsWithin(Blocks(text)) <==> |text| <= MAX_CHUNK_CHARS || NoneOverflows(UnitsOf(Split(text, BLANK)))
  {
    hide NoneOverflows, AddedAll, UnitsOf, Split, IsUnit, AllWithin, Finished, OneLine;
    if |text| > MAX_CHUNK_CHARS {
      hide PartsWithin;
      TextUnits(Split(text, BLANK));
      PackWithin(UnitsOf(Split(text, BLANK)));
      FinishedWithin(AddedAll(Pack([], ""), UnitsOf(Split(text, BLANK))));
    }
  }

  predicate PartsWithin(parts: seq<string>) {
    forall n :: 0 <= n < |parts| ==> Within(parts[n])
  }

  lemma FinishedWithin(p: Pack)
    ensures AllWithin(p) <==> PartsWithin(Finished(p))
  {
    assert p.current != "" ==> Finished(p)[|p.parts|] == p.current;
    assert forall n :: 0 <= n < |p.parts| ==> Finished(p)[n] == p.parts[n];
  }

  lemma SplitsInTwo(a: string, b: string)
    requires OneLine(a) && OneLine(b)
    ensures Split(a + BLANK + b, BLANK) == [a, b]
  {
    var s := a + BLANK + b;
    assert s[..|a|] == a && s[|a|..|a| + 2] == BLANK && s[|a| + 2..] == b;
    var i := IndexFrom(s, BLANK, 0);
    assert At(s, |a|, BLANK);
    assert i == |a| by {
      assert At(s, i, BLANK);
      assert s[i] == s[i..i + 2][0] == '\n';
    }
    forall j: nat ensures !At(b, j, BLANK) {
      assert j + 2 <= |b| ==> b[j..j + 2][0] == b[j] != '\n';
    }
    assert Split(b, BLANK) == [b];
  }

  /** Two lines that share a part although they exceed the bound with the blank line between them. */
  lemma TwoLinesOverflow(a: string, b: string)
    requires OneLine(a) && OneLine(b) && a != "" && |a| + |b| <= MAX_CHUNK_CHARS < |a| + 2 + |b|
    ensures Blocks(a + BLANK + b) == [a + BLANK + b]
  {
    var text, none, ua, ub := a + BLANK + b, Pack([], ""), Unit(a, BLANK), Unit(b, BLANK);
    SplitsInTwo(a, b);
    assert UnitsOf([a, b]) == [ua, ub] by {
      assert [a, b][..1] == [a] && [a][..0] == [];
      assert UnitsOf([a]) == [ua];
    }
    AddedSnoc(none, [], ua);
    AddedSnoc(none, [ua], ub);
    assert [] + [ua] == [ua] && [ua] + [ub] == [ua, ub];
  }

  const HALF := seq(600, _ => 'x')

  /** The separator is not counted: a text of two paragraphs of 600 is one part of 1202. */
  lemma BoundIsReached()
    ensures Blocks(HALF + BLANK + HALF) == [HALF + BLANK + HALF] && |HALF + BLANK + HALF| == MAX_CHUNK_CHARS + 2
    ensures !Within(HALF + BLANK + HALF)
  {
    TwoLinesOverflow(HALF, HALF);
    assert (HALF + BLANK + HALF)[600] == '\n';
  }

  // ----- tightness

  /** Some unit that part b begins with would not have fitted on part a. */
  ghost predicate NeedsBoundary(a: string, b: string, units: seq<Unit>) {
    exists u :: u in units && u.text <= b && |a| + |u.text| > MAX_CHUNK_CHARS
  }

  /** No boundary is needless. */
  ghost predicate Tight(parts: seq<string>, units: seq<Unit>) {
    forall n :: 0 <= n < |parts| - 1 ==> NeedsBoundary(parts[n], parts[n + 1], units)
  }

  /** An empty part can only be open after an overlong one. */
  ghost predicate TightPack(p: Pack, units: seq<Unit>) {
    && Tight(Finished(p), units)
    && (p.current == "" && p.parts != [] ==> |p.parts[|p.parts| - 1]| > MAX_CHUNK_CHARS)
  }

  lemma BoundaryStays(a: string, b: string, units: seq<Unit>, b': string, u: Unit)
    requires NeedsBoundary(a, b, units) && b <= b'
    ensures NeedsBoundary(a, b', units + [u])
  {
    var v :| v in units && v.text <= b && |a| + |v.text| > MAX_CHUNK_CHARS;
    assert v in units + [u] && v.text <= b';
  }

  lemma NewBoundary(a: string, units: seq<Unit>, u: Unit)
    requires |a| + |u.text| > MAX_CHUNK_CHARS
    ensures NeedsBoundary(a, u.text, units + [u])
  {
    assert u in units + [u] && u.text <= u.text;
  }

  lemma AddedTight(p: Pack, units: seq<Unit>, u: Unit)
    requires TightPack(p, units)
    ensures TightPack(Added(p, u), units + [u])
  {
    hide NeedsBoundary;
    var parts, parts' := Finished(p), Finished(Added(p, u));
    forall n | 0 <= n < |parts'| - 1 ensures NeedsBoundary(parts'[n], parts'[n + 1], units + [u]) {
      if n < |parts| - 1 {
        BoundaryStays(parts[n], parts[n + 1], units, parts'[n + 1], u);
      } else {
        NewBoundary(parts'[n], units, u);
      }
    }
  }

  lemma {:induction false} PackIsTight(units: seq<Unit>)
    ensures TightPack(AddedAll(Pack([], ""), units), units)
  {
    if units != [] {
      var front, last := units[..|units| - 1], units[|units| - 1];
      PackIsTight(front);
      AddedTight(AddedAll(Pack([], ""), front), front, last);
      assert front + [last] == units;
    }
  }

  /** For a text that is split: a part is only closed because the next paragraph or line did not fit. */
  lemma BlocksTight(text: string)
    requires |text| > MAX_CHUNK_CHARS
    ensures Tight(Blocks(text), UnitsOf(Split(text, BLANK)))
  {
    PackIsTight(UnitsOf(Split(text, BLANK)));
  }

  // ----- nothing is lost

  /** `parts` with `seps` between them. */
  function Rejoin(parts: seq<string>, seps: seq<string>): string
    requires |seps| + 1 == |parts| || parts == seps == []
  {
    if parts == [] then []
    else if |parts| == 1 then parts[0]
    else Rejoin(parts[..|parts| - 1], seps[..|seps| - 1]) + seps[|seps| - 1] + parts[|parts| - 1]
  }

  lemma RejoinSnoc(parts: seq<string>, seps: seq<string>, sep: string, part: string)
    requires |seps| + 1 == |parts|
    ensures Rejoin(parts + [part], seps + [sep]) == Rejoin(parts, seps) + sep + part
  {
    assert (parts + [part])[..|parts|] == parts && (seps + [sep])[..|seps|] == seps;
  }

  lemma RejoinLast(parts: seq<string>, part: string, seps: seq<string>)
    requires |seps| == |parts|
    ensures parts == [] ==> Rejoin(parts + [part], seps) == part
    ensures parts != [] ==> Rejoin(parts + [part], seps) == Rejoin(parts, seps[..|seps| - 1]) + seps[|seps| - 1] + part
  {
    assert (parts + [part])[..|parts|] == parts;
  }

  lemma Extend(parts: seq<string>, current: string, u: Unit, seps: seq<string>)
    requires |seps| == |parts|
    ensures Rejoin(parts + [current + u.sep + u.text], seps) == Rejoin(parts + [current], seps) + u.sep + u.text
  {
    hide Rejoin;
    var longer := current + u.sep + u.text;
    RejoinLast(parts, current, seps);
    RejoinLast(parts, longer, seps);
    if parts != [] {
      var front := Rejoin(parts, seps[..|seps| - 1]) + seps[|seps| - 1];
      assert front + longer == front + current + u.sep + u.text;
    }
  }

  /** Parts that make up a text again once the dropped line breaks are put back between them. */
  ghost predicate MakesUp(parts: seq<string>, text: string) {
    exists seps: seq<string> :: Restores(parts, seps, text)
  }

  predicate Restores(parts: seq<string>, seps: seq<string>, text: string) {
    && |seps| + 1 == |parts| && Rejoin(parts, seps) == text
    && (forall n :: 0 <= n < |seps| ==> seps[n] == NL || seps[n] == BLANK)
    && (forall n :: 0 <= n < |parts| ==> parts[n] != [])
  }

  /** What has been packed is what the units spread out to. */
  predicate Complete(units: seq<Unit>, p: Pack, seps: seq<string>) {
    if units == [] then p == Pack([], "")
    else p.current != "" && |seps| == |p.parts| && Restores(p.parts + [p.current], seps, Spread(units))
  }

  lemma AddedComplete(units: seq<Unit>, p: Pack, seps: seq<string>, u: Unit) returns (seps': seq<string>)
    requires Complete(units, p, seps) && IsUnit(u) && u.text != ""
    ensures Complete(units + [u], Added(p, u), seps')
  {
    hide Spread, Rejoin;
    SpreadSnoc(units, u);
    if units == [] {
      seps' := [];
      RejoinLast([], u.text, []);
      assert [] + [u.text] == [u.text];
    } else if |p.current| + |u.text| > MAX_CHUNK_CHARS {
      seps' := seps + [u.sep];
      RejoinSnoc(p.parts + [p.current], seps, u.sep, u.text);
      assert Restores(p.parts + [p.current] + [u.text], seps', Spread(units + [u]));
    } else {
      seps' := seps;
      Extend(p.parts, p.current, u, seps);
      assert forall n :: 0 <= n < |p.parts| ==> (p.parts + [p.current])[n] == p.parts[n];
      assert Restores(p.parts + [p.current + u.sep + u.text], seps', Spread(units + [u]));
    }
  }

  lemma {:induction false} PackCompletes(units: seq<Unit>) returns (seps: seq<string>)
    requires AreUnits(units) && forall n :: 0 <= n < |units| ==> units[n].text != ""
    ensures Complete(units, AddedAll(Pack([], ""), units), seps)
  {
    var none := Pack([], "");
    if units == [] {
      seps := [];
    } else {
      hide Complete, Added, AddedAll, Spread;
      var front, last := units[..|units| - 1], units[|units| - 1];
      assert front + [last] == units;
      seps := PackCompletes(front);
      seps := AddedComplete(front, AddedAll(none, front), seps, last);
      AddedSnoc(none, front, last);
    }
  }

  lemma {:induction false} UnitsNotEmpty(paras: seq<string>)
    requires forall n :: 0 <= n < |paras| ==> IsPara(paras[n])
    ensures forall n :: 0 <= n < |UnitsOf(paras)| ==> UnitsOf(paras)[n].text != ""
  {
    if paras != [] {
      UnitsNotEmpty(paras[..|paras| - 1]);
      ParaSplits(paras[|paras| - 1]);
    }
  }

  /** For a normalized text: putting the dropped line breaks back between the parts gives the text. */
  lemma BlocksRestore(text: string)
    requires Normal(text)
    ensures MakesUp(Blocks(text), text)
  {
    if |text| <= MAX_CHUNK_CHARS {
      assert Restores([text], [], text);
    } else {
      var paras := Split(text, BLANK);
      NormalSplits(text);
      TextUnits(paras);
      UnitsNotEmpty(paras);
      UnitsSpread(paras, text);
      var seps := PackCompletes(UnitsOf(paras));
      ParasSpread(paras);
    }
  }

  // ----- the units spread out are the text

  lemma {:induction false} SpreadAppend(a: seq<Unit>, b: seq<Unit>)
    requires a != [] && b != []
    ensures Spread(a + b) == Spread(a) + b[0].sep + Spread(b)
  {
    hide Spread;
    var front, last := b[..|b| - 1], b[|b| - 1];
    assert a + b == (a + front) + [last] && b == front + [last];
    SpreadSnoc(a + front, last);
    SpreadSnoc(front, last);
    if front == [] {
      assert a + front == a;
    } else {
      SpreadAppend(a, front);
      Regroup(Spread(a) + b[0].sep, Spread(front), last.sep, last.text);
    }
  }

  lemma Regroup(a: string, b: string, c: string, d: string)
    ensures a + b + c + d == a + (b + c + d)
  {
  }

  lemma {:induction false} JoinSnoc(parts: seq<string>, part: string, sep: string)
    requires parts != []
    ensures Join(parts + [part], sep) == Join(parts, sep) + sep + part
  {
    if |parts| == 1 {
      assert (parts + [part])[1..] == [part];
    } else {
      assert (parts + [part])[1..] == parts[1..] + [part];
      JoinSnoc(parts[1..], part, sep);
    }
  }

  lemma {:induction false} LinesSpread(lines: seq<string>, n: nat)
    requires 1 <= n <= |lines|
    ensures Spread(LineUnits(lines)[..n]) == Join(lines[..n], NL)
  {
    var units := LineUnits(lines);
    if n > 1 {
      LinesSpread(lines, n - 1);
      assert units[..n] == units[..n - 1] + [units[n - 1]] && lines[..n] == lines[..n - 1] + [lines[n - 1]];
      SpreadSnoc(units[..n - 1], units[n - 1]);
      JoinSnoc(lines[..n - 1], lines[n - 1], NL);
    }
  }

  lemma ParaSpreads(para: string)
    ensures ParaUnits(para) != [] && ParaUnits(para)[0].sep == BLANK && Spread(ParaUnits(para)) == para
  {
    if |para| > MAX_CHUNK_CHARS {
      var lines := Split(para, NL);
      LinesSpread(lines, |lines|);
      JoinSplit(para, NL);
      assert LineUnits(lines)[..|lines|] == LineUnits(lines) && lines[..|lines|] == lines;
    }
  }

  lemma {:induction false} ParasSpread(paras: seq<string>)
    requires paras != []
    ensures UnitsOf(paras) != [] && Spread(UnitsOf(paras)) == Join(paras, BLANK)
  {
    var front, last := paras[..|paras| - 1], paras[|paras| - 1];
    ParaSpreads(last);
    assert paras == front + [last];
    if front == [] {
      assert UnitsOf(paras) == ParaUnits(last);
    } else {
      ParasSpread(front);
      SpreadAppend(UnitsOf(front), ParaUnits(last));
      JoinSnoc(front, last, BLANK);
    }
  }

  lemma UnitsSpread(paras: seq<string>, text: string)
    requires paras == Split(text, BLANK)
    ensures Spread(UnitsOf(paras)) == text
  {
    ParasSpread(paras);
    JoinSplit(text, BLANK);
  }
}
