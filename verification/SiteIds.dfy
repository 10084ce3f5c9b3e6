/** Chunk ids of the site index: anchors, numbering, and why no two chunks of the index share an id. */
module SiteIds {
  import opened Domain
  import opened Decimal
  import opened SiteText
  import opened SiteBlocks
  import Tally

  datatype Chunk = Chunk(id: string, file: string, anchor: string, title: string, trail: string, text: string,
                         preamble: bool)

  // ----- anchors

  const ASCII_MAX := 0x7F
  const CJK_PUNCT_FIRST := 0x3000
  const CJK_PUNCT_LAST := 0x303F
  const KATAKANA_MIDDLE_DOT := 0x30FB
  const FULLWIDTH_FIRST := 0xFF01
  const FULLWIDTH_LAST := 0xFF60

  predicate IsSlugRune(c: char) {
    var r := c as int;
    if 'a' <= c <= 'z' || '0' <= c <= '9' then true
    else if r <= ASCII_MAX then false
    else if CJK_PUNCT_FIRST <= r <= CJK_PUNCT_LAST then false
    else if r == KATAKANA_MIDDLE_DOT then false
    else if FULLWIDTH_FIRST <= r <= FULLWIDTH_LAST then false
    else true
  }

  /** What an anchor may consist of; in particular neither of the two marks that ids use. */
  predicate Clean(s: string) {
    forall c :: c in s ==> c == '-' || c == '_' || IsSlugRune(c)
  }

  /** r is s without some dashes at its ends. */
  predicate IsTrimmed(s: string, r: string, i: nat, j: nat) {
    && i <= j <= |s| && r == s[i..j]
    && (forall k :: 0 <= k < i ==> s[k] == '-') && (forall k :: j <= k < |s| ==> s[k] == '-')
  }

  function TrimDashes(s: string): (r: string)
    ensures forall c :: c in r ==> c in s
    ensures r != [] ==> r[0] != '-' && r[|r| - 1] != '-'
    decreases |s|
  {
    if s == [] then []
    else if s[0] == '-' then TrimDashes(s[1..])
    else if s[|s| - 1] == '-' then TrimDashes(s[..|s| - 1])
    else s
  }

  lemma {:induction false} TrimIs(s: string) returns (i: nat, j: nat)
    ensures IsTrimmed(s, TrimDashes(s), i, j)
    decreases |s|
  {
    if s == [] {
      i, j := 0, 0;
    } else if s[0] == '-' {
      i, j := TrimIs(s[1..]);
      i, j := i + 1, j + 1;
    } else if s[|s| - 1] == '-' {
      i, j := TrimIs(s[..|s| - 1]);
    } else {
      i, j := 0, |s|;
    }
  }

  /** Spaces become dashes; letters, digits, dashes and underscores stay; everything else goes. */
  function SlugRunes(runes: string): (r: string)
    ensures Clean(r)
  {
    if runes == [] then []
    else
      var front, c := SlugRunes(runes[..|runes| - 1]), runes[|runes| - 1];
      front + if c == ' ' then "-" else if c == '-' || c == '_' || IsSlugRune(c) then [c] else ""
  }

  function Slug(title: string, lower: string -> string): (slug: string)
    ensures Clean(slug) && (slug != [] ==> slug[0] != '-' && slug[|slug| - 1] != '-')
  {
    TrimDashes(SlugRunes(lower(title)))
  }

  /** What a rune of a lowered title leaves in the slug. */
  function Written(c: char): string {
    if c == ' ' then "-"
    else if c == '-' || c == '_' || 'a' <= c <= 'z' || '0' <= c <= '9' then [c]
    else if c as int <= 0x7F then ""
    else if 0x3000 <= c as int <= 0x303F || c as int == 0x30FB || 0xFF01 <= c as int <= 0xFF60 then ""
    else [c]
  }

  function WrittenAll(runes: string): string {
    if runes == [] then [] else WrittenAll(runes[..|runes| - 1]) + Written(runes[|runes| - 1])
  }

  lemma {:induction false} SlugIsWritten(runes: string)
    ensures SlugRunes(runes) == WrittenAll(runes)
  {
    if runes != [] {
      SlugIsWritten(runes[..|runes| - 1]);
    }
  }

  method Slugify(title: string, lower: string -> string) returns (slug: string)
    ensures slug == Slug(title, lower)
    ensures exists i, j :: IsTrimmed(WrittenAll(lower(title)), slug, i, j)
    ensures slug != [] ==> slug[0] != '-' && slug[|slug| - 1] != '-'
  {
    SlugIsWritten(lower(title));
    ghost var i, j := TrimIs(WrittenAll(lower(title)));
    var runes := lower(title);
    var out := "";
    for i := 0 to |runes|
      invariant out == SlugRunes(runes[..i])
    {
      var r := runes[i];
      assert runes[..i + 1][..i] == runes[..i];
      if r == ' ' {
        out := out + "-";
      } else if r == '-' || r == '_' {
        out := out + [r];
      } else if IsSlugRune(r) {
        out := out + [r];
      }
    }
    assert runes[..|runes|] == runes;
    return TrimDashes(out);
  }

  /** The n-th candidate for a heading's anchor: the slug itself, then `-1`, `-2`, ... */
  function Name(base: string, n: nat): string {
    if n == 0 then base else base + "-" + Digits(n)
  }

  lemma NamesDiffer(base: string, m: nat, n: nat)
    requires Name(base, m) == Name(base, n)
    ensures m == n
  {
    if m != 0 && n != 0 {
      assert Name(base, m)[|base| + 1..] == Digits(m) && Name(base, n)[|base| + 1..] == Digits(n);
      DigitsInjective(m, n);
    }
  }

  lemma NameIsClean(base: string, n: nat)
    requires Clean(base)
    ensures Clean(Name(base, n))
  {
  }

  function Names(base: string, k: nat): set<string> {
    set n | 0 <= n < k :: Name(base, n)
  }

  /** As many candidates as have been tried are different names in use. */
  lemma {:induction false} Pigeonhole(base: string, k: nat, used: set<string>)
    requires forall n :: 0 <= n < k ==> Name(base, n) in used
    ensures |Names(base, k)| == k <= |used|
  {
    hide Name;
    if k == 0 {
      assert Names(base, 0) == {};
    } else {
      Pigeonhole(base, k - 1, used);
      assert Names(base, k) == Names(base, k - 1) + {Name(base, k - 1)};
      forall n | 0 <= n < k - 1 ensures Name(base, n) != Name(base, k - 1) {
        if Name(base, n) == Name(base, k - 1) {
          NamesDiffer(base, n, k - 1);
        }
      }
      Tally.SubsetSize(Names(base, k), used);
    }
  }

  /** The numbering loop: the first candidate that no earlier chunk of the file has taken. */
  method FreeAnchor(base: string, used: set<string>) returns (anchor: string, ghost n: nat)
    ensures anchor == Name(base, n) && anchor !in used
    ensures forall m :: 0 <= m < n ==> Name(base, m) in used
  {
    anchor, n := base, 0;
    var next := 1;
    while anchor in used
      invariant next == n + 1 && anchor == Name(base, n)
      invariant forall m :: 0 <= m < n ==> Name(base, m) in used
      decreases |used| - n
    {
      Pigeonhole(base, n + 1, used);
      anchor := base + "-" + FormatInt(next);
      n := next;
      next := next + 1;
    }
  }

  /** A chunk with its anchor and id filled in. */
  predicate Identified(rel: string, before: Chunk, after: Chunk) {
    Clean(after.anchor) && after == before.(anchor := after.anchor, id := rel + "#" + after.anchor)
  }

  /** What a chunk's anchor is numbered from: nothing for a preamble, which has no heading. */
  function BaseOf(c: Chunk, lower: string -> string): string {
    if c.preamble then "" else Slug(c.title, lower)
  }

  /** The first numbering of `base` that is not taken by the earlier anchors. */
  ghost predicate FirstFree(earlier: seq<string>, anchor: string, base: string) {
    && anchor !in earlier
    && exists n: nat :: anchor == Name(base, n) && forall m: nat :: m < n ==> Name(base, m) in earlier
  }

  function Anchors(chunks: seq<Chunk>): (anchors: seq<string>)
    ensures |anchors| == |chunks|
  {
    seq(|chunks|, n requires 0 <= n < |chunks| => chunks[n].anchor)
  }

  /** One turn of the loop. */
  method AnchorFor(c: Chunk, used: set<string>, ghost earlier: seq<string>, lower: string -> string)
    returns (anchor: string)
    requires used == Tally.Elems(earlier)
    ensures Clean(anchor) && FirstFree(earlier, anchor, BaseOf(c, lower))
  {
    var base := Slugify(c.title, lower);
    if c.preamble {
      base := "";
    }
    ghost var n;
    anchor, n := FreeAnchor(base, used);
    NameIsClean(base, n);
    assert anchor == Name(base, n) && forall m: nat :: m < n ==> Name(base, m) in earlier;
  }

  /** Each anchor is the first free numbering of its base. */
  ghost predicate Numbered(anchors: seq<string>, bases: seq<string>) {
    |anchors| == |bases| && forall i :: 0 <= i < |anchors| ==> FirstFree(anchors[..i], anchors[i], bases[i])
  }

  function Bases(chunks: seq<Chunk>, lower: string -> string): (bases: seq<string>)
    ensures |bases| == |chunks|
  {
    seq(|chunks|, n requires 0 <= n < |chunks| => BaseOf(chunks[n], lower))
  }

  lemma NumberedSnoc(anchors: seq<string>, bases: seq<string>, anchor: string, base: string)
    requires Numbered(anchors, bases) && FirstFree(anchors, anchor, base)
    ensures Numbered(anchors + [anchor], bases + [base])
    ensures Tally.Elems(anchors + [anchor]) == Tally.Elems(anchors) + {anchor}
  {
    hide FirstFree;
    var all := anchors + [anchor];
    forall i | 0 <= i < |all| ensures FirstFree(all[..i], all[i], (bases + [base])[i]) {
      assert all[..i] == anchors[..i];
      assert anchors[..|anchors|] == anchors;
    }
  }

  method AssignIds(rel: string, chunks: array<Chunk>, lower: string -> string)
    modifies chunks
    ensures forall i :: 0 <= i < chunks.Length ==> Identified(rel, old(chunks[i]), chunks[i])
    ensures Numbered(Anchors(chunks[..]), Bases(old(chunks[..]), lower))
  {
    hide Clean, Name, FirstFree, BaseOf, Numbered, Tally.Elems;
    var used: set<string> := {};
    ghost var bases := Bases(old(chunks[..]), lower);
    ghost var anchors: seq<string> := [];
    NoneNumbered(bases);
    for i := 0 to chunks.Length
      invariant |anchors| == i && used == Tally.Elems(anchors) && Numbered(anchors, bases[..i])
      invariant forall j :: 0 <= j < i ==> chunks[j].anchor == anchors[j] && Identified(rel, old(chunks[j]), chunks[j])
      invariant forall j :: i <= j < chunks.Length ==> chunks[j] == old(chunks[j])
    {
      var anchor := AnchorFor(chunks[i], used, anchors, lower);
      NumberedSnoc(anchors, bases[..i], anchor, bases[i]);
      assert bases[..i + 1] == bases[..i] + [bases[i]];
      used := used + {anchor};
      anchors := anchors + [anchor];
      chunks[i] := chunks[i].(anchor := anchor, id := rel + "#" + anchor);
    }
    assert bases[..|bases|] == bases;
    assert Anchors(chunks[..]) == anchors;
  }

  lemma NoneNumbered(bases: seq<string>)
    ensures Numbered([], bases[..0]) && Tally.Elems<string>([]) == {}
  {
  }

  /** So no two chunks of a file share an anchor. */
  lemma AnchorsDiffer(anchors: seq<string>, bases: seq<string>)
    requires Numbered(anchors, bases)
    ensures forall i, j :: 0 <= i < j < |anchors| ==> anchors[i] != anchors[j]
  {
    forall i, j | 0 <= i < j < |anchors| ensures anchors[i] != anchors[j] {
      assert anchors[..j][i] == anchors[i];
    }
  }

  // ----- long sections

  /** The id of the k-th part of a chunk. */
  function PartId(id: string, k: nat): string {
    if k <= 1 then id else id + "@" + FormatInt(k)
  }

  /** Which part of which chunk an output piece is. */
  datatype Origin = Origin(chunk: nat, part: nat)

  predicate IsPiece(chunks: seq<Chunk>, piece: Chunk, o: Origin) {
    && o.chunk < |chunks| && 1 <= o.part
    && piece == chunks[o.chunk].(text := piece.text, id := PartId(chunks[o.chunk].id, o.part))
  }

  /** Chunks in order, parts in order. */
  predicate Precedes(a: Origin, b: Origin) {
    a.chunk < b.chunk || (a.chunk == b.chunk && a.part < b.part)
  }

  /** The pieces of one chunk. */
  function Pieces(c: Chunk, parts: seq<string>): (pieces: seq<Chunk>)
    ensures |pieces| == |parts|
  {
    seq(|parts|, k requires 0 <= k < |parts| => c.(text := parts[k], id := PartId(c.id, k + 1)))
  }

  function AllPieces(chunks: seq<Chunk>, split: seq<seq<string>>): seq<Chunk>
    requires |chunks| == |split|
  {
    if chunks == [] then []
    else AllPieces(chunks[..|chunks| - 1], split[..|split| - 1]) + Pieces(chunks[|chunks| - 1], split[|split| - 1])
  }

  lemma AllPiecesSnoc(chunks: seq<Chunk>, split: seq<seq<string>>, c: Chunk, parts: seq<string>)
    requires |chunks| == |split|
    ensures AllPieces(chunks + [c], split + [parts]) == AllPieces(chunks, split) + Pieces(c, parts)
  {
    assert (chunks + [c])[..|chunks|] == chunks && (split + [parts])[..|split|] == split;
  }

  method SplitLong(chunks: seq<Chunk>)
    returns (out: seq<Chunk>, ghost split: seq<seq<string>>, ghost origins: seq<Origin>)
    ensures AreParts(chunks, split) && out == AllPieces(chunks, split)
    ensures IsSplit(chunks, out)
    ensures Sourced(chunks, split, out, origins)
  {
    hide Normal, Fits, PartId, Rejoin, MakesUp, ArePartsOf;
    out, split, origins := [], [], [];
    for i := 0 to |chunks|
      invariant AreParts(chunks[..i], split) && out == AllPieces(chunks[..i], split)
      invariant Sourced(chunks, split, out, origins)
    {
      var c := chunks[i];
      assert chunks[..i + 1] == chunks[..i] + [c];
      var pieces, parts := SplitChunk(c);
      AllPiecesSnoc(chunks[..i], split, c, parts);
      SourcedSnoc(chunks, split, out, origins, parts);
      out := out + pieces;
      origins := origins + PartOrigins(i, |parts|);
      split := split + [parts];
    }
    assert chunks[..|chunks|] == chunks;
  }

  /** Parts of a chunk: of a normalized text nothing is lost and every part fits. */
  ghost predicate ArePartsOf(c: Chunk, parts: seq<string>) {
    Normal(c.text) ==> MakesUp(parts, c.text) && forall k :: 0 <= k < |parts| ==> Fits(parts[k])
  }

  ghost predicate ArePiecesOf(c: Chunk, pieces: seq<Chunk>) {
    exists parts :: ArePartsOf(c, parts) && pieces == Pieces(c, parts)
  }

  ghost predicate AreParts(chunks: seq<Chunk>, split: seq<seq<string>>) {
    |split| == |chunks| && forall i :: 0 <= i < |chunks| ==> ArePartsOf(chunks[i], split[i])
  }

  /** The output is the pieces of every chunk, in order. */
  ghost predicate IsSplit(chunks: seq<Chunk>, out: seq<Chunk>) {
    exists split :: AreParts(chunks, split) && out == AllPieces(chunks, split)
  }

  /** The body of the loop: one chunk as it is, or its parts with numbered ids. */
  method SplitChunk(c: Chunk) returns (pieces: seq<Chunk>, ghost parts: seq<string>)
    ensures ArePartsOf(c, parts) && pieces == Pieces(c, parts)
    ensures ArePiecesOf(c, pieces)
  {
    hide Normal, Fits, Restores, Blocks;
    var blocks := SplitBlocks(c.text);
    BlocksFit(c.text);
    if Normal(c.text) {
      BlocksRestore(c.text);
    }
    if |blocks| == 1 {
      OneBlock(blocks[0], c.text);
      parts := [c.text];
      assert blocks == [blocks[0]];
      assert c.(text := c.text, id := PartId(c.id, 1)) == c;
      assert Pieces(c, parts) == [c];
      return [c], parts;
    }
    parts := blocks;
    pieces := [];
    for k := 0 to |blocks|
      invariant pieces == Pieces(c, blocks)[..k]
    {
      var piece := c.(text := blocks[k]);
      if k > 0 {
        piece := piece.(id := c.id + "@" + FormatInt(k + 1));
      }
      assert piece.id == PartId(c.id, k + 1);
      assert piece == c.(text := blocks[k], id := PartId(c.id, k + 1));
      assert Pieces(c, blocks)[..k + 1] == Pieces(c, blocks)[..k] + [piece];
      pieces := pieces + [piece];
    }
  }

  /** A single block that makes up a text is that text. */
  lemma OneBlock(block: string, text: string)
    ensures MakesUp([block], text) ==> block == text
    ensures MakesUp([text], text) || text == ""
  {
    if text != "" {
      assert Restores([text], [], text);
    }
  }

  ghost predicate OfSplit(split: seq<seq<string>>, text: string, o: Origin) {
    o.chunk < |split| && 1 <= o.part <= |split[o.chunk]| && text == split[o.chunk][o.part - 1]
  }

  /** Every piece has its origin, and origins ascend. */
  ghost predicate Sourced(chunks: seq<Chunk>, split: seq<seq<string>>, out: seq<Chunk>, origins: seq<Origin>) {
    && |origins| == |out|
    && (forall p :: 0 <= p < |out| ==> IsPiece(chunks, out[p], origins[p]) && OfSplit(split, out[p].text, origins[p]))
    && (forall p, q :: 0 <= p < q < |out| ==> Precedes(origins[p], origins[q]))
  }

  ghost function PartOrigins(i: nat, n: nat): (os: seq<Origin>)
    ensures |os| == n
  {
    seq(n, k requires 0 <= k < n => Origin(i, k + 1))
  }

  lemma SourcedSnoc(chunks: seq<Chunk>, split: seq<seq<string>>, out: seq<Chunk>, origins: seq<Origin>,
                    parts: seq<string>)
    requires Sourced(chunks, split, out, origins) && |split| < |chunks|
    ensures Sourced(chunks, split + [parts], out + Pieces(chunks[|split|], parts),
                    origins + PartOrigins(|split|, |parts|))
  {
    hide PartId;
    var i := |split|;
    var more, os := Pieces(chunks[i], parts), PartOrigins(i, |parts|);
    forall k | 0 <= k < |more|
      ensures IsPiece(chunks, more[k], os[k]) && OfSplit(split + [parts], more[k].text, os[k])
    {
    }
  }

  // ----- uniqueness

  /** The text after the last `#` of an id decides the anchor and the part. */
  function Tail(anchor: string, k: nat): string {
    PartId(anchor, k)
  }

  lemma SameTail(a: string, j: nat, b: string, k: nat)
    requires Clean(a) && Clean(b) && 1 <= j && 1 <= k && Tail(a, j) == Tail(b, k)
    ensures a == b && j == k
  {
    hide Digits;
    var s := Tail(a, j);
    assert '@' as int == 64;
    assert forall c :: c in a || c in b ==> c != '@';
    assert forall i :: 0 <= i < |a| ==> s[i] == a[i] && a[i] in a;
    assert forall i :: 0 <= i < |b| ==> s[i] == b[i] && b[i] in b;
    assert j > 1 ==> s[|a|] == '@';
    assert k > 1 ==> s[|b|] == '@';
    assert |a| == |b|;
    assert a == s[..|a|] == b;
    if j > 1 && k > 1 {
      assert s[|a| + 1..] == FormatInt(j) == FormatInt(k);
      DigitsInjective(j, k);
    }
  }

  lemma TailHasNoHash(anchor: string, k: nat)
    requires Clean(anchor)
    ensures '#' !in Tail(anchor, k)
  {
    hide Digits;
    assert forall i :: 0 <= i < |anchor| ==> anchor[i] in anchor;
  }

  lemma SameFile(rel: string, s: string, rel': string, t: string)
    requires '#' !in s && '#' !in t && rel + "#" + s == rel' + "#" + t
    ensures rel == rel' && s == t
  {
    var id := rel + "#" + s;
    assert id[|rel|] == '#' && id[|rel'|] == '#';
    assert forall i :: 0 <= i < |s| ==> id[|rel| + 1 + i] == s[i];
    assert forall i :: 0 <= i < |t| ==> id[|rel'| + 1 + i] == t[i];
    assert |rel| == |rel'|;
    assert rel == id[..|rel|] == rel' && s == id[|rel| + 1..] == t;
  }

  /** An id as the index holds it. */
  function FullId(rel: string, anchor: string, k: nat): string {
    PartId(rel + "#" + anchor, k)
  }

  /** Equal ids mean the same file, heading and part, whatever characters the path has. */
  lemma IdsDetermine(rel: string, a: string, j: nat, rel': string, b: string, k: nat)
    requires Clean(a) && Clean(b) && 1 <= j && 1 <= k && FullId(rel, a, j) == FullId(rel', b, k)
    ensures rel == rel' && a == b && j == k
  {
    assert FullId(rel, a, j) == rel + "#" + Tail(a, j);
    assert FullId(rel', b, k) == rel' + "#" + Tail(b, k);
    TailHasNoHash(a, j);
    TailHasNoHash(b, k);
    SameFile(rel, Tail(a, j), rel', Tail(b, k));
    SameTail(a, j, b, k);
  }
}
