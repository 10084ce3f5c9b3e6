/** chunkDocument: from the lines of a document to its chunks, and the index over many documents. */
module SiteIndex {
  import opened Domain
  import opened SiteText
  import opened SiteBlocks
  import opened SiteIds

  const MAX_HEADING_LEVEL := 6

  /** The regular expressions and Unicode tables, as functions of a line. */
  datatype Syntax = Syntax(
    /** A fence line and the language it names. */
    fence: string -> Option<string>,
    /** A heading line: its level and its text. */
    heading: string -> Option<(nat, string)>,
    /** cleanLine: what is left of a line, if it is kept. */
    cleanLine: string -> Option<string>,
    stripInline: string -> string,
    lower: string -> string,
    isSpace: char -> bool)

  ghost predicate Sound(syn: Syntax) {
    && TreatsBreakAsSpace(syn.isSpace)
    && forall line :: syn.heading(line).Some? ==> 1 <= syn.heading(line).value.0 <= MAX_HEADING_LEVEL
  }

  datatype Mode = Prose | Fenced | Skipped

  /** Whether a line belongs to a fence depends on the fence lines before it. */
  function ModeAfter(lines: seq<string>, syn: Syntax): Mode {
    if lines == [] then Prose
    else
      var before, fence := ModeAfter(lines[..|lines| - 1], syn), syn.fence(lines[|lines| - 1]);
      if fence.None? then before
      else if before != Prose then Prose
      else if fence.value == "mermaid" then Skipped
      else Fenced
  }

  /** What of a line reaches the index: fences verbatim, diagrams and headings not, prose cleaned. */
  function KeptOf(line: string, mode: Mode, syn: Syntax): seq<string> {
    match mode
    case Fenced => [line]
    case Skipped => []
    case Prose =>
      var fence := syn.fence(line);
      if fence.Some? then (if fence.value == "mermaid" then [] else [line])
      else if syn.heading(line).Some? then []
      else match syn.cleanLine(line)
        case None => []
        case Some(cleaned) => [cleaned]
  }

  function Kept(lines: seq<string>, syn: Syntax): seq<string> {
    if lines == [] then []
    else
      var front, line := lines[..|lines| - 1], lines[|lines| - 1];
      Kept(front, syn) + KeptOf(line, ModeAfter(front, syn), syn)
  }

  lemma ModeSnoc(lines: seq<string>, i: nat, syn: Syntax)
    requires i < |lines|
    ensures var before, fence := ModeAfter(lines[..i], syn), syn.fence(lines[i]);
            ModeAfter(lines[..i + 1], syn) ==
              if fence.None? then before
              else if before != Prose then Prose
              else if fence.value == "mermaid" then Skipped
              else Fenced
  {
    assert lines[..i + 1][..i] == lines[..i];
  }

  lemma KeptCases(line: string, mode: Mode, syn: Syntax)
    ensures mode == Fenced ==> KeptOf(line, mode, syn) == [line]
    ensures mode == Skipped ==> KeptOf(line, mode, syn) == []
    ensures mode == Prose && syn.fence(line).Some? ==>
              KeptOf(line, mode, syn) == if syn.fence(line).value == "mermaid" then [] else [line]
    ensures mode == Prose && syn.fence(line).None? && syn.heading(line).None? ==>
              KeptOf(line, mode, syn) == if syn.cleanLine(line).None? then [] else [syn.cleanLine(line).value]
  {
  }

  function Flatten(bodies: seq<seq<string>>): seq<string> {
    if bodies == [] then [] else Flatten(bodies[..|bodies| - 1]) + bodies[|bodies| - 1]
  }

  function Texts(chunks: seq<Chunk>): (texts: seq<string>)
    ensures |texts| == |chunks|
  {
    seq(|chunks|, n requires 0 <= n < |chunks| => chunks[n].text)
  }

  lemma FlattenSnoc(bodies: seq<seq<string>>, body: seq<string>)
    ensures Flatten(bodies + [body]) == Flatten(bodies) + body
  {
    assert (bodies + [body])[..|bodies|] == bodies;
  }

  // ----- where sections begin

  /** A heading outside fences. */
  predicate IsHead(line: string, mode: Mode, syn: Syntax) {
    mode == Prose && syn.fence(line).None? && syn.heading(line).Some?
  }

  /** The kept lines by section: the preamble first, then a new section at every heading. */
  function Bodies(lines: seq<string>, syn: Syntax): (bodies: seq<seq<string>>)
    ensures bodies != []
  {
    if lines == [] then [[]]
    else
      var front, line := lines[..|lines| - 1], lines[|lines| - 1];
      var mode, before := ModeAfter(front, syn), Bodies(front, syn);
      if IsHead(line, mode, syn) then before + [[]]
      else before[..|before| - 1] + [before[|before| - 1] + KeptOf(line, mode, syn)]
  }

  lemma BodiesSnoc(lines: seq<string>, i: nat, syn: Syntax)
    requires i < |lines|
    ensures var mode, before := ModeAfter(lines[..i], syn), Bodies(lines[..i], syn);
            Bodies(lines[..i + 1], syn) ==
              if IsHead(lines[i], mode, syn) then before + [[]]
              else before[..|before| - 1] + [before[|before| - 1] + KeptOf(lines[i], mode, syn)]
  {
    assert lines[..i + 1][..i] == lines[..i];
  }

  /** One section more than headings, and together the sections are the kept lines. */
  lemma {:induction false} SectionsCover(lines: seq<string>, syn: Syntax)
    ensures |Bodies(lines, syn)| == |HeadsOf(lines, syn)| + 1
    ensures Flatten(Bodies(lines, syn)) == Kept(lines, syn)
  {
    if lines == [] {
      assert Flatten([[]]) == Flatten([]) + [];
    } else {
      var last := |lines| - 1;
      var front := lines[..last];
      SectionsCover(front, syn);
      var before := Bodies(front, syn);
      if IsHead(lines[last], ModeAfter(front, syn), syn) {
        FlattenSnoc(before, []);
      } else {
        FlattenSnoc(before[..|before| - 1], before[|before| - 1] + KeptOf(lines[last], ModeAfter(front, syn), syn));
      }
    }
  }

  /** A line belongs to the section of the last heading before it: what comes later leaves earlier sections alone. */
  lemma {:induction false} SectionsStand(lines: seq<string>, i: nat, syn: Syntax)
    requires i <= |lines|
    ensures var k, before, all := |HeadsOf(lines[..i], syn)|, Bodies(lines[..i], syn), Bodies(lines, syn);
            |before| == k + 1 <= |all| && before[..k] == all[..k] && before[k] <= all[k]
    decreases |lines|
  {
    SectionsCover(lines[..i], syn);
    if i == |lines| {
      assert lines[..i] == lines;
    } else {
      var front := lines[..|lines| - 1];
      assert front[..i] == lines[..i];
      SectionsStand(front, i, syn);
    }
  }

  /** The sections that have text, by number. */
  function Filled(bodies: seq<seq<string>>, isSpace: char -> bool): seq<nat> {
    if bodies == [] then []
    else
      var last: nat := |bodies| - 1;
      var front := Filled(bodies[..last], isSpace);
      if HasText(bodies[last], isSpace) then front + [last] else front
  }

  predicate HasText(body: seq<string>, isSpace: char -> bool) {
    NormalizeBody(body, isSpace) != ""
  }

  lemma FilledSnoc(bodies: seq<seq<string>>, body: seq<string>, isSpace: char -> bool)
    ensures Filled(bodies + [body], isSpace)
            == Filled(bodies, isSpace) + if HasText(body, isSpace) then [|bodies|] else []
  {
    hide HasText;
    assert (bodies + [body])[..|bodies|] == bodies;
  }

  /** In order, and no section with text is left out. */
  lemma {:induction false} FilledAre(bodies: seq<seq<string>>, isSpace: char -> bool)
    ensures forall j, k :: 0 <= j < k < |Filled(bodies, isSpace)| ==>
              Filled(bodies, isSpace)[j] < Filled(bodies, isSpace)[k]
    ensures forall n :: n in Filled(bodies, isSpace) <==> 0 <= n < |bodies| && HasText(bodies[n], isSpace)
  {
    hide HasText;
    if bodies != [] {
      var front := bodies[..|bodies| - 1];
      FilledAre(front, isSpace);
      assert forall j :: 0 <= j < |Filled(front, isSpace)| ==> Filled(front, isSpace)[j] in Filled(front, isSpace);
      assert forall n :: 0 <= n < |front| ==> front[n] == bodies[n];
    }
  }

  // ----- sections

  datatype Heading = Heading(level: nat, title: string)

  /** The heading lines outside fences, in order. */
  function HeadsOf(lines: seq<string>, syn: Syntax): seq<Heading> {
    if lines == [] then []
    else
      var front, line := lines[..|lines| - 1], lines[|lines| - 1];
      HeadsOf(front, syn)
      + if IsHead(line, ModeAfter(front, syn), syn)
        then [Heading(syn.heading(line).value.0, syn.stripInline(syn.heading(line).value.1))]
        else []
  }

  lemma HeadsSnoc(lines: seq<string>, i: nat, syn: Syntax)
    requires i < |lines|
    ensures HeadsOf(lines[..i + 1], syn) == HeadsOf(lines[..i], syn)
            + if IsHead(lines[i], ModeAfter(lines[..i], syn), syn)
              then [Heading(syn.heading(lines[i]).value.0, syn.stripInline(syn.heading(lines[i]).value.1))]
              else []
  {
    assert lines[..i + 1][..i] == lines[..i];
  }

  /** The heading of a level that a position is under: the last one, unless a higher heading came after it. */
  function Enclosing(heads: seq<Heading>, level: nat): string {
    if heads == [] then ""
    else
      var last := heads[|heads| - 1];
      if last.level == level then last.title
      else if last.level < level then ""
      else Enclosing(heads[..|heads| - 1], level)
  }

  function NonEmpty(titles: seq<string>): seq<string> {
    if titles == [] then []
    else NonEmpty(titles[..|titles| - 1]) + if titles[|titles| - 1] == "" then [] else [titles[|titles| - 1]]
  }

  function Levels(heads: seq<Heading>): seq<string> {
    seq(MAX_HEADING_LEVEL + 1, level requires level >= 0 => Enclosing(heads, level))
  }

  /** The file and the headings a position is under, joined. */
  function Crumbs(rel: string, heads: seq<Heading>): string {
    Join([rel] + NonEmpty(Levels(heads)), " > ")
  }

  /** A section's chunk: named after its heading and placed under the headings above, or the preamble. */
  predicate IsUnder(rel: string, c: Chunk, heads: seq<Heading>) {
    && c.trail == Crumbs(rel, heads) && (c.preamble <==> heads == [])
    && c.title == if heads == [] then rel else heads[|heads| - 1].title
  }

  lemma NoHeadings(rel: string)
    ensures Crumbs(rel, []) == rel && Levels([]) == seq(MAX_HEADING_LEVEL + 1, _ => "")
  {
    var none := Levels([]);
    assert none == ["", "", "", "", "", "", ""];
    AllEmpty(none);
    assert [rel] + [] == [rel];
  }

  lemma {:induction false} AllEmpty(titles: seq<string>)
    requires forall n :: 0 <= n < |titles| ==> titles[n] == ""
    ensures NonEmpty(titles) == []
  {
    if titles != [] {
      AllEmpty(titles[..|titles| - 1]);
    }
  }

  /** buildTrail: the loop over the array of titles. */
  method BuildTrail(rel: string, trail: seq<string>) returns (s: string)
    ensures s == Join([rel] + NonEmpty(trail), " > ")
  {
    var parts := [rel];
    for i := 0 to |trail|
      invariant parts == [rel] + NonEmpty(trail[..i])
    {
      assert trail[..i + 1][..i] == trail[..i];
      if trail[i] != "" {
        parts := parts + [trail[i]];
      }
    }
    assert trail[..|trail|] == trail;
    s := Join(parts, " > ");
  }

  /** The chunk of section n: its text, under the n headings up to its own. */
  ghost predicate IsSection(rel: string, c: Chunk, bodies: seq<seq<string>>, heads: seq<Heading>, n: nat,
                            isSpace: char -> bool) {
    && n < |bodies| && n <= |heads| && c.file == rel && Normal(c.text)
    && c.text == NormalizeBody(bodies[n], isSpace) && IsUnder(rel, c, heads[..n])
  }

  /** The chunks are those of the sections with text, in order. */
  ghost predicate AreSections(rel: string, chunks: seq<Chunk>, bodies: seq<seq<string>>, heads: seq<Heading>,
                              isSpace: char -> bool) {
    && |chunks| == |Filled(bodies, isSpace)|
    && forall j :: 0 <= j < |chunks| ==> IsSection(rel, chunks[j], bodies, heads, Filled(bodies, isSpace)[j], isSpace)
  }

  lemma MoreSections(rel: string, c: Chunk, bodies: seq<seq<string>>, heads: seq<Heading>, n: nat,
                     isSpace: char -> bool,
                     body: seq<string>, head: Heading)
    requires IsSection(rel, c, bodies, heads, n, isSpace)
    ensures IsSection(rel, c, bodies + [body], heads, n, isSpace)
            && IsSection(rel, c, bodies, heads + [head], n, isSpace)
  {
    hide Normal, NormalizeBody, IsUnder;
    assert (heads + [head])[..n] == heads[..n];
  }

  /** The closure `flush`: a section without text leaves no chunk. */
  method Flush(rel: string, chunks: seq<Chunk>, current: Chunk, body: seq<string>, isSpace: char -> bool,
               ghost bodies: seq<seq<string>>, ghost heads: seq<Heading>)
    returns (chunks': seq<Chunk>)
    requires TreatsBreakAsSpace(isSpace) && current.file == rel && IsUnder(rel, current, heads) && |bodies| == |heads|
    requires AreSections(rel, chunks, bodies, heads, isSpace)
    ensures AreSections(rel, chunks', bodies + [body], heads, isSpace)
  {
    hide NormalizeBody, Normal, Crumbs, Filled, IsSection;
    var text := NormalizeBody(body, isSpace);
    BodyIsNormal(body, isSpace);
    FilledSnoc(bodies, body, isSpace);
    forall j | 0 <= j < |chunks|
      ensures IsSection(rel, chunks[j], bodies + [body], heads, Filled(bodies, isSpace)[j], isSpace)
    {
      MoreSections(rel, chunks[j], bodies, heads, Filled(bodies, isSpace)[j], isSpace, body, Heading(1, ""));
    }
    if text == "" {
      return chunks;
    }
    NewSection(rel, current, bodies, heads, body, isSpace);
    chunks' := chunks + [current.(text := text)];
  }

  lemma NewSection(rel: string, current: Chunk, bodies: seq<seq<string>>, heads: seq<Heading>, body: seq<string>,
                   isSpace: char -> bool)
    requires current.file == rel && IsUnder(rel, current, heads) && |bodies| == |heads|
             && Normal(NormalizeBody(body, isSpace))
    ensures IsSection(rel, current.(text := NormalizeBody(body, isSpace)), bodies + [body], heads, |bodies|, isSpace)
  {
    hide NormalizeBody, Normal, Crumbs;
    assert heads[..|bodies|] == heads;
  }

  /** `trail[level] = title` and the levels below it cleared. */
  method Descend(trail: seq<string>, level: nat, title: string, ghost heads: seq<Heading>) returns (trail': seq<string>)
    requires trail == Levels(heads) && 1 <= level <= MAX_HEADING_LEVEL
    ensures trail' == Levels(heads + [Heading(level, title)])
  {
    trail' := trail[level := title];
    for deeper := level + 1 to MAX_HEADING_LEVEL + 1
      invariant |trail'| == MAX_HEADING_LEVEL + 1
      invariant forall l :: 0 <= l < |trail'| ==>
                  trail'[l] == if l == level then title else if level < l < deeper then "" else trail[l]
    {
      trail' := trail'[deeper := ""];
    }
    assert (heads + [Heading(level, title)])[..|heads|] == heads;
  }

  /**
   * The loop over the lines.  A new section begins at every heading outside fences; the chunks are the
   * sections with text, each named after its own heading and placed under the headings above it.
   */
  method Sections(rel: string, lines: seq<string>, syn: Syntax) returns (chunks: seq<Chunk>)
    requires Sound(syn)
    ensures AreSections(rel, chunks, Bodies(lines, syn), HeadsOf(lines, syn), syn.isSpace)
    ensures forall j :: 0 <= j < |chunks| ==>
              Ink(chunks[j].text, syn.isSpace)
              == InkOf(Bodies(lines, syn)[Filled(Bodies(lines, syn), syn.isSpace)[j]], syn.isSpace)
    ensures InkOf(Texts(chunks), syn.isSpace) == InkOf(Kept(lines, syn), syn.isSpace)
  {
    hide Filled, AreSections, Ink, InkOf, Kept, Texts, KeptOf, ModeAfter, HeadsOf, Levels, Crumbs, Bodies;
    chunks := [];
    NoSections(rel, lines, syn);
    NoHeadings(rel);
    var trail := seq(MAX_HEADING_LEVEL + 1, _ => "");
    var current := Chunk("", rel, "", rel, rel, "", true);
    var body: seq<string> := [];
    var inFence, inSkip := false, false;
    ghost var heads: seq<Heading> := [];
    ghost var bodies: seq<seq<string>> := [];
    for i := 0 to |lines|
      invariant heads == HeadsOf(lines[..i], syn) && trail == Levels(heads)
      invariant current.file == rel && IsUnder(rel, current, heads)
      invariant ModeAfter(lines[..i], syn) == if !inFence then Prose else if inSkip then Skipped else Fenced
      invariant !inFence ==> !inSkip
      invariant bodies + [body] == Bodies(lines[..i], syn) && |bodies| == |heads|
      invariant AreSections(rel, chunks, bodies, heads, syn.isSpace)
    {
      var line := lines[i];
      ModeSnoc(lines, i, syn);
      BodiesSnoc(lines, i, syn);
      HeadsSnoc(lines, i, syn);
      KeptCases(line, ModeAfter(lines[..i], syn), syn);
      assert (bodies + [body])[..|bodies|] == bodies && body + [] == body;
      var fence := syn.fence(line);
      if fence.Some? {
        if inFence {
          if !inSkip {
            body := body + [line];
          }
          inFence, inSkip := false, false;
          continue;
        }
        inFence := true;
        inSkip := fence.value == "mermaid";
        if !inSkip {
          body := body + [line];
        }
        continue;
      }
      if inFence {
        if !inSkip {
          body := body + [line];
        }
        continue;
      }
      var found := syn.heading(line);
      if found.None? {
        var cleaned := syn.cleanLine(line);
        if cleaned.Some? {
          body := body + [cleaned.value];
        }
        continue;
      }
      chunks := Flush(rel, chunks, current, body, syn.isSpace, bodies, heads);
      bodies, body := bodies + [body], [];
      var level := found.value.0;
      var title := syn.stripInline(found.value.1);
      trail := Descend(trail, level, title, heads);
      var crumbs := BuildTrail(rel, trail);
      current := Chunk("", rel, "", title, crumbs, "", false);
      NewHeading(rel, chunks, bodies, current, heads, Heading(level, title), trail, syn.isSpace);
      heads := heads + [Heading(level, title)];
    }
    assert lines[..|lines|] == lines;
    chunks := Flush(rel, chunks, current, body, syn.isSpace, bodies, heads);
    SectionsKeepInk(rel, chunks, Bodies(lines, syn), HeadsOf(lines, syn), syn.isSpace);
    SectionsCover(lines, syn);
  }

  // ----- nothing but space is lost

  /** Each section's runes are in its chunk, and a section without a chunk has none. */
  lemma SectionsKeepInk(rel: string, chunks: seq<Chunk>, bodies: seq<seq<string>>, heads: seq<Heading>,
                        isSpace: char -> bool)
    requires AreSections(rel, chunks, bodies, heads, isSpace) && TreatsBreakAsSpace(isSpace)
    ensures forall j :: 0 <= j < |chunks| ==>
              && Filled(bodies, isSpace)[j] < |bodies|
              && Ink(chunks[j].text, isSpace) == InkOf(bodies[Filled(bodies, isSpace)[j]], isSpace)
    ensures InkOf(Texts(chunks), isSpace) == InkOf(Flatten(bodies), isSpace)
  {
    hide NormalizeBody, Filled, Ink, InkOf, Normal, IsUnder;
    var filled := Filled(bodies, isSpace);
    forall j | 0 <= j < |chunks|
      ensures filled[j] < |bodies| && chunks[j].text == NormalizeBody(bodies[filled[j]], isSpace)
      ensures Ink(chunks[j].text, isSpace) == InkOf(bodies[filled[j]], isSpace)
    {
      assert IsSection(rel, chunks[j], bodies, heads, filled[j], isSpace);
      BodyKeepsInk(bodies[filled[j]], isSpace);
    }
    FilledInk(bodies, Texts(chunks), isSpace);
  }

  lemma {:induction false} FilledInk(bodies: seq<seq<string>>, texts: seq<string>, isSpace: char -> bool)
    requires TreatsBreakAsSpace(isSpace) && |texts| == |Filled(bodies, isSpace)|
    requires forall j :: 0 <= j < |texts| ==>
               && Filled(bodies, isSpace)[j] < |bodies|
               && texts[j] == NormalizeBody(bodies[Filled(bodies, isSpace)[j]], isSpace)
    ensures InkOf(texts, isSpace) == InkOf(Flatten(bodies), isSpace)
  {
    hide NormalizeBody, Ink;
    if bodies != [] {
      hide InkOf;
      var front, body := bodies[..|bodies| - 1], bodies[|bodies| - 1];
      BodyKeepsInk(body, isSpace);
      InkOfAppend(Flatten(front), body, isSpace);
      FilledAre(front, isSpace);
      var rest := if HasText(body, isSpace) then texts[..|texts| - 1] else texts;
      assert forall j :: 0 <= j < |rest| ==> Filled(front, isSpace)[j] in Filled(front, isSpace);
      FilledInk(front, rest, isSpace);
      if HasText(body, isSpace) {
        assert texts == rest + [NormalizeBody(body, isSpace)];
        InkOfAppend(rest, [NormalizeBody(body, isSpace)], isSpace);
        InkOfOne(NormalizeBody(body, isSpace), isSpace);
      } else {
        SpaceHasNoInk("", isSpace);
        assert InkOf(rest, isSpace) + [] == InkOf(rest, isSpace);
      }
    }
  }

  /** Parts that make a text up hold its runes, in order. */
  lemma PartsKeepInk(parts: seq<string>, text: string, isSpace: char -> bool)
    requires MakesUp(parts, text) && TreatsBreakAsSpace(isSpace)
    ensures InkOf(parts, isSpace) == Ink(text, isSpace)
  {
    hide Rejoin, Ink, InkOf;
    var seps: seq<string> :| Restores(parts, seps, text);
    RejoinInk(parts, seps, isSpace);
  }

  lemma {:induction false} RejoinInk(parts: seq<string>, seps: seq<string>, isSpace: char -> bool)
    requires |seps| + 1 == |parts| && TreatsBreakAsSpace(isSpace)
    requires forall n :: 0 <= n < |seps| ==> seps[n] == NL || seps[n] == BLANK
    ensures Ink(Rejoin(parts, seps), isSpace) == InkOf(parts, isSpace)
  {
    hide Ink;
    if |parts| == 1 {
      assert parts == [parts[0]];
      InkOfOne(parts[0], isSpace);
    } else {
      hide InkOf;
      var front, last, sep := parts[..|parts| - 1], parts[|parts| - 1], seps[|seps| - 1];
      var whole := Rejoin(front, seps[..|seps| - 1]);
      RejoinInk(front, seps[..|seps| - 1], isSpace);
      InkAppend(whole + sep, last, isSpace);
      InkAppend(whole, sep, isSpace);
      SpaceHasNoInk(sep, isSpace);
      assert Ink(whole, isSpace) + [] == Ink(whole, isSpace);
      assert parts == front + [last];
      InkOfAppend(front, [last], isSpace);
      InkOfOne(last, isSpace);
    }
  }

  lemma {:induction false} SplitInk(split: seq<seq<string>>, texts: seq<string>, isSpace: char -> bool)
    requires |split| == |texts|
    requires forall j :: 0 <= j < |split| ==> InkOf(split[j], isSpace) == Ink(texts[j], isSpace)
    ensures InkOf(Flatten(split), isSpace) == InkOf(texts, isSpace)
  {
    hide Ink;
    if split != [] {
      SplitInk(split[..|split| - 1], texts[..|texts| - 1], isSpace);
      InkOfAppend(Flatten(split[..|split| - 1]), split[|split| - 1], isSpace);
    }
  }

  /** The same for a whole document, whose sections are divided into parts. */
  lemma PiecesKeepInk(rel: string, named: seq<Chunk>, split: seq<seq<string>>, bodies: seq<seq<string>>,
                      heads: seq<Heading>,
                      isSpace: char -> bool)
    requires AreSections(rel, named, bodies, heads, isSpace) && TreatsBreakAsSpace(isSpace)
    requires Divides(split, Filled(bodies, isSpace), bodies, isSpace)
    ensures KeepsInk(split, Filled(bodies, isSpace), bodies, isSpace)
    ensures InkOf(Flatten(split), isSpace) == InkOf(Flatten(bodies), isSpace)
  {
    hide Ink, InkOf, Filled, NormalizeBody, MakesUp, Normal, IsUnder, Flatten;
    SectionsKeepInk(rel, named, bodies, heads, isSpace);
    var filled := Filled(bodies, isSpace);
    forall j | 0 <= j < |split|
      ensures InkOf(split[j], isSpace) == Ink(named[j].text, isSpace) == InkOf(bodies[filled[j]], isSpace)
    {
      assert IsSection(rel, named[j], bodies, heads, filled[j], isSpace);
      PartsKeepInk(split[j], named[j].text, isSpace);
    }
    SplitInk(split, Texts(named), isSpace);
  }

  /** The parts of each section hold the section's runes, in order. */
  ghost predicate KeepsInk(split: seq<seq<string>>, filled: seq<nat>, bodies: seq<seq<string>>, isSpace: char -> bool) {
    && |split| == |filled|
    && forall j :: 0 <= j < |split| ==>
         filled[j] < |bodies| && InkOf(split[j], isSpace) == InkOf(bodies[filled[j]], isSpace)
  }

  lemma NewHeading(rel: string, chunks: seq<Chunk>, bodies: seq<seq<string>>, current: Chunk, heads: seq<Heading>,
                   head: Heading, trail: seq<string>, isSpace: char -> bool)
    requires AreSections(rel, chunks, bodies, heads, isSpace)
    requires trail == Levels(heads + [head]) && current.trail == Join([rel] + NonEmpty(trail), " > ")
    requires current.title == head.title && !current.preamble
    ensures AreSections(rel, chunks, bodies, heads + [head], isSpace) && IsUnder(rel, current, heads + [head])
  {
    hide IsSection, Filled;
    forall j | 0 <= j < |chunks|
      ensures IsSection(rel, chunks[j], bodies, heads + [head], Filled(bodies, isSpace)[j], isSpace)
    {
      MoreSections(rel, chunks[j], bodies, heads, Filled(bodies, isSpace)[j], isSpace, [], head);
    }
  }

  lemma NoSections(rel: string, lines: seq<string>, syn: Syntax)
    ensures AreSections(rel, [], [], [], syn.isSpace)
    ensures Bodies(lines[..0], syn) == [[]] && ModeAfter(lines[..0], syn) == Prose && HeadsOf(lines[..0], syn) == []
  {
  }

  // ----- ids

  /** A chunk of this file with an id that says so. */
  ghost predicate IsChunkOf(rel: string, c: Chunk) {
    && c.file == rel && Clean(c.anchor) && Fits(c.text)
    && exists k: nat :: 1 <= k && c.id == FullId(rel, c.anchor, k)
  }

  ghost predicate IsDocument(rel: string, chunks: seq<Chunk>) {
    && (forall p :: 0 <= p < |chunks| ==> IsChunkOf(rel, chunks[p]))
    && (forall p, q :: 0 <= p < q < |chunks| ==> chunks[p].id != chunks[q].id)
  }

  /** Piece p of the output: a part of the section it comes from, under the headings of that section. */
  ghost predicate IsPartOf(rel: string, piece: Chunk, o: Origin, split: seq<seq<string>>, filled: seq<nat>,
                           heads: seq<Heading>) {
    && OfSplit(split, piece.text, o) && o.chunk < |filled| && filled[o.chunk] <= |heads|
    && IsUnder(rel, piece, heads[..filled[o.chunk]])
  }

  /** `split` holds, for each section with text, parts that make its text up again. */
  ghost predicate Divides(split: seq<seq<string>>, filled: seq<nat>, bodies: seq<seq<string>>, isSpace: char -> bool) {
    && |split| == |filled|
    && forall j :: 0 <= j < |filled| ==>
         filled[j] < |bodies| && MakesUp(split[j], NormalizeBody(bodies[filled[j]], isSpace))
  }

  /** A whole document: ids that are its own, every part with its section's title and trail, and no text lost. */
  method ChunkDocument(rel: string, lines: seq<string>, syn: Syntax)
    returns (out: seq<Chunk>, ghost split: seq<seq<string>>, ghost origins: seq<Origin>)
    requires Sound(syn)
    ensures IsDocument(rel, out)
    ensures var bodies := Bodies(lines, syn); var filled := Filled(bodies, syn.isSpace);
            && Divides(split, filled, bodies, syn.isSpace) && Texts(out) == Flatten(split) && |origins| == |out|
            && (forall p :: 0 <= p < |out| ==> IsPartOf(rel, out[p], origins[p], split, filled, HeadsOf(lines, syn)))
            && (forall p, q :: 0 <= p < q < |out| ==> Precedes(origins[p], origins[q]))
            && KeepsInk(split, filled, bodies, syn.isSpace)
            && InkOf(Texts(out), syn.isSpace) == InkOf(Kept(lines, syn), syn.isSpace)
  {
    hide Ink, InkOf, Kept, KeepsInk;
    hide Clean, Normal, Fits, IsPiece, HeadsOf, Numbered, BaseOf, OfSplit, Identified, IsSection, IsDocument;
    hide Filled, Flatten, AllPieces, MakesUp, IsSplit, Bodies, IsPartOf, NormalizeBody;
    var chunks := Sections(rel, lines, syn);
    ghost var bodies, heads := Bodies(lines, syn), HeadsOf(lines, syn);
    ghost var filled := Filled(bodies, syn.isSpace);
    var table := new Chunk[|chunks|](i requires 0 <= i < |chunks| => chunks[i]);
    assert table[..] == chunks;
    AssignIds(rel, table, syn.lower);
    var named := table[..];
    AnchorsDiffer(Anchors(named), Bases(chunks, syn.lower));
    assert forall n :: 0 <= n < |named| ==> Anchors(named)[n] == named[n].anchor;
    forall j | 0 <= j < |named|
      ensures NamedOk(rel, named[j]) && IsSection(rel, named[j], bodies, heads, filled[j], syn.isSpace)
    {
      NameKeepsRest(rel, chunks[j], named[j], bodies, heads, filled[j], syn.isSpace);
    }
    out, split, origins := SplitLong(named);
    SectionsMadeUp(rel, named, split, bodies, heads, syn.isSpace);
    PiecesKeepInk(rel, named, split, bodies, heads, syn.isSpace);
    SectionsCover(lines, syn);
    PiecesFit(named, split, out, origins);
    PiecesAreDocument(rel, named, out, origins);
    PieceTexts(named, split);
    PiecesPlaced(rel, named, out, origins, split, bodies, heads, syn.isSpace);
  }

  lemma SectionsMadeUp(rel: string, named: seq<Chunk>, split: seq<seq<string>>, bodies: seq<seq<string>>,
                       heads: seq<Heading>,
                       isSpace: char -> bool)
    requires AreSections(rel, named, bodies, heads, isSpace) && AreParts(named, split)
    ensures Divides(split, Filled(bodies, isSpace), bodies, isSpace)
    ensures forall j, k :: 0 <= j < |named| && 0 <= k < |split[j]| ==> Fits(split[j][k])
  {
    hide Normal, NormalizeBody, MakesUp, Fits, Filled, IsUnder;
    FilledAre(bodies, isSpace);
    var filled := Filled(bodies, isSpace);
    forall j | 0 <= j < |named|
      ensures Normal(named[j].text) && named[j].text == NormalizeBody(bodies[filled[j]], isSpace)
    {
      assert filled[j] in filled && IsSection(rel, named[j], bodies, heads, filled[j], isSpace);
    }
  }

  lemma {:induction false} PieceTexts(chunks: seq<Chunk>, split: seq<seq<string>>)
    requires |chunks| == |split|
    ensures Texts(AllPieces(chunks, split)) == Flatten(split)
  {
    if chunks != [] {
      var last := |chunks| - 1;
      PieceTexts(chunks[..last], split[..last]);
      assert Texts(Pieces(chunks[last], split[last])) == split[last];
      assert Texts(AllPieces(chunks, split)) == Texts(AllPieces(chunks[..last], split[..last])) + split[last];
    }
  }

  lemma PiecesPlaced(rel: string, named: seq<Chunk>, out: seq<Chunk>, origins: seq<Origin>, split: seq<seq<string>>,
                     bodies: seq<seq<string>>, heads: seq<Heading>, isSpace: char -> bool)
    requires AreSections(rel, named, bodies, heads, isSpace) && Sourced(named, split, out, origins)
    ensures forall p :: 0 <= p < |out| ==> IsPartOf(rel, out[p], origins[p], split, Filled(bodies, isSpace), heads)
  {
    hide PartId, Crumbs, Filled, Normal, NormalizeBody;
    forall p | 0 <= p < |out| ensures IsPartOf(rel, out[p], origins[p], split, Filled(bodies, isSpace), heads) {
      var j := origins[p].chunk;
      assert IsSection(rel, named[j], bodies, heads, Filled(bodies, isSpace)[j], isSpace);
    }
  }

  lemma PiecesFit(named: seq<Chunk>, split: seq<seq<string>>, out: seq<Chunk>, origins: seq<Origin>)
    requires |split| == |named| && |origins| == |out|
    requires forall i, k :: 0 <= i < |named| && 0 <= k < |split[i]| ==> Fits(split[i][k])
    requires forall p :: 0 <= p < |out| ==> OfSplit(split, out[p].text, origins[p])
    ensures forall p :: 0 <= p < |out| ==> Fits(out[p].text)
  {
    hide Fits;
    forall p | 0 <= p < |out| ensures Fits(out[p].text) {
      assert OfSplit(split, out[p].text, origins[p]);
    }
  }

  lemma NameKeepsRest(rel: string, before: Chunk, after: Chunk, bodies: seq<seq<string>>, heads: seq<Heading>, n: nat,
                      isSpace: char -> bool)
    requires IsSection(rel, before, bodies, heads, n, isSpace) && Identified(rel, before, after)
    ensures NamedOk(rel, after) && IsSection(rel, after, bodies, heads, n, isSpace)
  {
    hide Clean, Normal, Crumbs, NormalizeBody;
  }

  predicate NamedOk(rel: string, c: Chunk) {
    c.file == rel && Clean(c.anchor) && c.id == rel + "#" + c.anchor
  }

  lemma PiecesAreDocument(rel: string, named: seq<Chunk>, out: seq<Chunk>, origins: seq<Origin>)
    requires |origins| == |out| && forall n :: 0 <= n < |named| ==> NamedOk(rel, named[n])
    requires forall i, j :: 0 <= i < j < |named| ==> named[i].anchor != named[j].anchor
    requires forall p :: 0 <= p < |out| ==> IsPiece(named, out[p], origins[p]) && Fits(out[p].text)
    requires forall p, q :: 0 <= p < q < |out| ==> Precedes(origins[p], origins[q])
    ensures IsDocument(rel, out)
  {
    hide Clean, PartId, Fits;
    forall p | 0 <= p < |out|
      ensures out[p].id == FullId(rel, out[p].anchor, origins[p].part) && IsChunkOf(rel, out[p])
    {
      assert IsPiece(named, out[p], origins[p]) && NamedOk(rel, named[origins[p].chunk]);
      assert out[p].id == FullId(rel, out[p].anchor, origins[p].part);
    }
    forall p, q | 0 <= p < q < |out| ensures out[p].id != out[q].id {
      assert Precedes(origins[p], origins[q]);
      if out[p].id == out[q].id {
        IdsDetermine(rel, out[p].anchor, origins[p].part, rel, out[q].anchor, origins[q].part);
      }
    }
  }

  /** No two chunks of an index over documents with different paths share an id. */
  lemma IndexIdsUnique(rels: seq<string>, docs: seq<seq<Chunk>>, d: nat, p: nat, e: nat, q: nat)
    requires |rels| == |docs| && forall i, j :: 0 <= i < j < |rels| ==> rels[i] != rels[j]
    requires forall i :: 0 <= i < |docs| ==> IsDocument(rels[i], docs[i])
    requires d < |docs| && p < |docs[d]| && e < |docs| && q < |docs[e]| && docs[d][p].id == docs[e][q].id
    ensures d == e && p == q
  {
    assert IsChunkOf(rels[d], docs[d][p]) && IsChunkOf(rels[e], docs[e][q]);
    var j: nat :| 1 <= j && docs[d][p].id == FullId(rels[d], docs[d][p].anchor, j);
    var k: nat :| 1 <= k && docs[e][q].id == FullId(rels[e], docs[e][q].anchor, k);
    IdsDetermine(rels[d], docs[d][p].anchor, j, rels[e], docs[e][q].anchor, k);
  }
}
