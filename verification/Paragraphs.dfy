/** How src/parsers/table_splitter.py packs the paragraphs of a text block into chunks. */
module Paragraphs {
  import opened Options
  import opened Texts

  /** White space in the sense of Python's `str.strip`. */
  predicate IsBlank(c: char) {
    || '\t' <= c <= '\r' || '\U{001C}' <= c <= ' '
    || c == '\U{0085}' || c == '\U{00A0}' || c == '\U{1680}'
    || '\U{2000}' <= c <= '\U{200A}'
    || c == '\U{2028}' || c == '\U{2029}' || c == '\U{202F}' || c == '\U{205F}' || c == '\U{3000}'
  }

  /** One by one: tab to carriage return, the four separators and the space, and the blanks of Unicode. */
  lemma BlanksAre(c: char)
    ensures IsBlank(c) <==>
      c as int in {
        9, 10, 11, 12, 13, 28, 29, 30, 31, 32, 0x85, 0xA0, 0x1680, 0x2000, 0x2001, 0x2002, 0x2003, 0x2004, 0x2005,
        0x2006, 0x2007, 0x2008, 0x2009, 0x200A, 0x2028, 0x2029, 0x202F, 0x205F, 0x3000}
  {
  }

  function Strip(text: string): string {
    Trim(text, IsBlank)
  }

  const BREAK: string := "\n\n"

  function NonBlank(parts: seq<string>): (kept: seq<string>)
    ensures |kept| <= |parts|
  {
    if parts == [] then []
    else (if Strip(parts[0]) == "" then [] else [Strip(parts[0])]) + NonBlank(parts[1..])
  }

  /** The paragraphs of a text block: stripped, and without the blank ones. */
  function ParagraphsOf(text: string): seq<string> {
    NonBlank(Split(text, BREAK))
  }

  /** The paragraphs of one chunk: those carried over from the chunk before it, and the new ones. */
  datatype Group = Group(carried: seq<string>, added: seq<string>)

  function Buffer(g: Group): seq<string> {
    g.carried + g.added
  }

  function Lengths(paragraphs: seq<string>): nat {
    if paragraphs == [] then 0 else |paragraphs[0]| + Lengths(paragraphs[1..])
  }

  /** What the next chunk repeats: the last paragraph, if it is shorter than the overlap. */
  function Carry(buffer: seq<string>, overlap: int): seq<string> {
    if buffer == [] || |buffer[|buffer| - 1]| >= overlap then [] else [buffer[|buffer| - 1]]
  }

  /** The loop of `_split_text_block`, from the buffer on. */
  function Grouped(current: Group, rest: seq<string>, size: int, overlap: int): seq<Group>
    decreases |rest|
  {
    if rest == [] then
      if Buffer(current) == [] then [] else [current]
    else if Lengths(Buffer(current)) + |rest[0]| > size && Buffer(current) != [] then
      [current] + Grouped(Group(Carry(Buffer(current), overlap), [rest[0]]), rest[1..], size, overlap)
    else
      Grouped(current.(added := current.added + [rest[0]]), rest[1..], size, overlap)
  }

  // ---------------------------------------------------------------- the promise

  /** The first group takes as many paragraphs as fit, but at least one; the rest is grouped likewise,
      beginning with what is carried over. */
  ghost predicate WellGrouped(groups: seq<Group>, carried: seq<string>, paragraphs: seq<string>, size: int, overlap: int)
    decreases |groups|
  {
    if groups == [] then paragraphs == []
    else
      var g := groups[0];
      && g.carried == carried
      && Takes(g, paragraphs, size)
      && WellGrouped(groups[1..], Carry(Buffer(g), overlap), paragraphs[|g.added|..], size, overlap)
  }

  ghost predicate Takes(g: Group, paragraphs: seq<string>, size: int) {
    && g.added != [] && g.added <= paragraphs
    && (Lengths(Buffer(g)) <= size || |g.added| == 1)
    && (|g.added| < |paragraphs| ==> Lengths(Buffer(g)) + |paragraphs[|g.added|]| > size)
  }

  lemma {:induction false} LengthsAppend(a: seq<string>, b: seq<string>)
    ensures Lengths(a + b) == Lengths(a) + Lengths(b)
  {
    if a == [] {
      assert a + b == b;
    } else {
      assert (a + b)[1..] == a[1..] + b;
      LengthsAppend(a[1..], b);
    }
  }

  lemma LengthsOne(p: string)
    ensures Lengths([p]) == |p|
  {
    assert [p][1..] == [];
  }

  /** The loop packs as promised, for every size and overlap. */
  lemma {:induction false} GroupedIsWell(current: Group, rest: seq<string>, size: int, overlap: int)
    requires current.added != [] && (Lengths(Buffer(current)) <= size || |current.added| == 1)
    ensures WellGrouped(Grouped(current, rest, size, overlap), current.carried, current.added + rest, size, overlap)
    decreases |rest|
  {
    hide Carry, Lengths;
    if rest == [] {
      assert (current.added + rest)[|current.added|..] == [];
      assert Grouped(current, rest, size, overlap)[1..] == [];
    } else if Lengths(Buffer(current)) + |rest[0]| > size {
      var next := Group(Carry(Buffer(current), overlap), [rest[0]]);
      GroupedIsWell(next, rest[1..], size, overlap);
      assert (current.added + rest)[|current.added|..] == [rest[0]] + rest[1..];
      assert Grouped(current, rest, size, overlap)[1..] == Grouped(next, rest[1..], size, overlap);
    } else {
      var longer := current.(added := current.added + [rest[0]]);
      assert Buffer(longer) == Buffer(current) + [rest[0]];
      LengthsAppend(Buffer(current), [rest[0]]);
      LengthsOne(rest[0]);
      assert longer.added + rest[1..] == current.added + rest;
      GroupedIsWell(longer, rest[1..], size, overlap);
    }
  }

  function GroupsOf(paragraphs: seq<string>, size: int, overlap: int): seq<Group> {
    Grouped(Group([], []), paragraphs, size, overlap)
  }

  lemma FirstParagraph(paragraphs: seq<string>, size: int, overlap: int)
    requires paragraphs != []
    ensures GroupsOf(paragraphs, size, overlap)
         == Grouped(Group([], [paragraphs[0]]), paragraphs[1..], size, overlap)
  {
    assert [] + [paragraphs[0]] == [paragraphs[0]];
  }

  /** There is exactly one such grouping, and the loop finds it. */
  lemma GroupsAreTheGrouping(groups: seq<Group>, paragraphs: seq<string>, size: int, overlap: int)
    ensures WellGrouped(groups, [], paragraphs, size, overlap) <==> groups == GroupsOf(paragraphs, size, overlap)
  {
    if paragraphs != [] {
      FirstParagraph(paragraphs, size, overlap);
      GroupedIsWell(Group([], [paragraphs[0]]), paragraphs[1..], size, overlap);
      assert [paragraphs[0]] + paragraphs[1..] == paragraphs;
    }
    if WellGrouped(groups, [], paragraphs, size, overlap) {
      GroupingIsUnique(groups, GroupsOf(paragraphs, size, overlap), [], paragraphs, size, overlap);
    }
  }

  lemma {:induction false} GroupingIsUnique(a: seq<Group>, b: seq<Group>, carried: seq<string>,
                                            paragraphs: seq<string>, size: int, overlap: int)
    requires WellGrouped(a, carried, paragraphs, size, overlap)
    requires WellGrouped(b, carried, paragraphs, size, overlap)
    ensures a == b
    decreases |a|
  {
    if a != [] && b != [] {
      hide WellGrouped, Takes, Carry;
      UnfoldWellGrouped(a, carried, paragraphs, size, overlap);
      UnfoldWellGrouped(b, carried, paragraphs, size, overlap);
      SameGroup(a[0], b[0], paragraphs, size);
      GroupingIsUnique(a[1..], b[1..], Carry(Buffer(a[0]), overlap), paragraphs[|a[0].added|..], size, overlap);
      assert a == [a[0]] + a[1..] && b == [b[0]] + b[1..];
    }
  }

  lemma SameGroup(a: Group, b: Group, paragraphs: seq<string>, size: int)
    requires Takes(a, paragraphs, size) && Takes(b, paragraphs, size) && a.carried == b.carried
    ensures a == b
  {
    NoShorterGroup(a, b, paragraphs, size);
    NoShorterGroup(b, a, paragraphs, size);
    assert a.added == paragraphs[..|a.added|] && b.added == paragraphs[..|b.added|];
  }

  lemma UnfoldWellGrouped(groups: seq<Group>, carried: seq<string>, paragraphs: seq<string>, size: int, overlap: int)
    requires WellGrouped(groups, carried, paragraphs, size, overlap) && groups != []
    ensures groups[0].carried == carried && Takes(groups[0], paragraphs, size)
    ensures WellGrouped(groups[1..], Carry(Buffer(groups[0]), overlap), paragraphs[|groups[0].added|..], size, overlap)
  {
  }

  lemma NoShorterGroup(short: Group, long: Group, paragraphs: seq<string>, size: int)
    requires Takes(short, paragraphs, size) && Takes(long, paragraphs, size) && short.carried == long.carried
    ensures |short.added| >= |long.added|
  {
    var n := |short.added|;
    if n < |long.added| {
      assert Buffer(long) == Buffer(short) + ([paragraphs[n]] + long.added[n + 1..]);
      LengthsAppend(Buffer(short), [paragraphs[n]] + long.added[n + 1..]);
      LengthsAppend([paragraphs[n]], long.added[n + 1..]);
      LengthsOne(paragraphs[n]);
    }
  }

  // ---------------------------------------------------------------- what follows for the chunks

  function Added(groups: seq<Group>): seq<string> {
    if groups == [] then [] else groups[0].added + Added(groups[1..])
  }

  /** Without what is carried over, the chunks hold every paragraph once, in order. */
  lemma {:induction false} NothingLostOrDoubled(groups: seq<Group>, carried: seq<string>,
                                                paragraphs: seq<string>, size: int, overlap: int)
    requires WellGrouped(groups, carried, paragraphs, size, overlap)
    ensures Added(groups) == paragraphs
    decreases |groups|
  {
    if groups != [] {
      var n := |groups[0].added|;
      NothingLostOrDoubled(groups[1..], Carry(Buffer(groups[0]), overlap), paragraphs[n..], size, overlap);
      assert paragraphs == paragraphs[..n] + paragraphs[n..];
    }
  }

  /** Each chunk has a new paragraph after at most one short repeated one, and stays within the size
      unless it has just one new paragraph. */
  lemma {:induction false} ChunkBounds(groups: seq<Group>, carried: seq<string>,
                                       paragraphs: seq<string>, size: int, overlap: int, k: nat)
    requires WellGrouped(groups, carried, paragraphs, size, overlap) && k < |groups|
    ensures groups[k].added != []
    ensures Lengths(Buffer(groups[k])) <= size || |groups[k].added| == 1
    ensures k == 0 ==> groups[k].carried == carried
    ensures k > 0 ==>
      var before := groups[k - 1].added;
      before != []
      && groups[k].carried == if |before[|before| - 1]| < overlap then [before[|before| - 1]] else []
    ensures k + 1 < |groups| ==>
      groups[k + 1].added != [] && Lengths(Buffer(groups[k])) + |groups[k + 1].added[0]| > size
    decreases |groups|
  {
    var g := groups[0];
    if k > 0 {
      ChunkBounds(groups[1..], Carry(Buffer(g), overlap), paragraphs[|g.added|..], size, overlap, k - 1);
    } else if |groups| > 1 {
      assert groups[1..][0] == groups[1];
      assert groups[1].added[0] == paragraphs[|g.added|..][0];
    }
  }

  // ---------------------------------------------------------------- the text of a chunk

  /** A stripped paragraph in which no break is left. */
  ghost predicate Clean(p: string) {
    p != "" && Trimmed(p, IsBlank) && Find(p, BREAK).None?
  }

  ghost predicate AllClean(ps: seq<string>) {
    forall i | 0 <= i < |ps| :: Clean(ps[i])
  }

  lemma NoBreakInside(text: string, i: nat, j: nat)
    requires Find(text, BREAK).None? && i <= j <= |text|
    ensures Find(text[i..j], BREAK).None?
  {
    var found := Find(text[i..j], BREAK);
    if found.Some? {
      OccursInSlice(text, BREAK, i, j, found.value);
    }
  }

  lemma {:induction false} NonBlankAreClean(parts: seq<string>)
    requires forall part | part in parts :: Find(part, BREAK).None?
    ensures AllClean(NonBlank(parts))
  {
    if parts != [] {
      var i, j := TrimSplits(parts[0], IsBlank);
      NoBreakInside(parts[0], i, j);
      NonBlankAreClean(parts[1..]);
    }
  }

  lemma ParagraphsAreClean(text: string)
    ensures AllClean(ParagraphsOf(text))
  {
    SplitPartsAreClean(text, BREAK);
    NonBlankAreClean(Split(text, BREAK));
  }

  /** A break after a clean paragraph is found right there. */
  lemma BreakAfter(p: string, rest: string)
    requires Clean(p)
    ensures Find(p + BREAK + rest, BREAK) == Some(|p|)
  {
    var text := p + BREAK + rest;
    assert text[|p|..|p| + 2] == BREAK;
    forall j: nat | j < |p|
      ensures !OccursAt(text, BREAK, j)
    {
      if OccursAt(text, BREAK, j) {
        OccurrenceChar(text, BREAK, j, 0);
        if j + 2 <= |p| {
          assert text == p + (BREAK + rest);
          OccurrenceWasThere(p, BREAK + rest, BREAK, j);
        }
        assert false;
      }
    }
    FindIs(text, BREAK, |p|);
  }

  /** The paragraphs of a chunk can be read off its text. */
  lemma {:induction false} SplitJoin(ps: seq<string>)
    requires AllClean(ps) && ps != []
    ensures Split(Join(ps, BREAK), BREAK) == ps
  {
    var text := Join(ps, BREAK);
    if |ps| > 1 {
      var rest := Join(ps[1..], BREAK);
      SplitJoin(ps[1..]);
      BreakAfter(ps[0], rest);
      assert text == ps[0] + BREAK + rest;
      assert text[..|ps[0]|] == ps[0] && text[|ps[0]| + 2..] == rest;
    }
  }

  /** Stripping the joined text, as the code does twice, changes nothing. */
  lemma {:induction false} JoinIsStripped(ps: seq<string>)
    requires AllClean(ps) && ps != []
    ensures Join(ps, BREAK) != "" && Trimmed(Join(ps, BREAK), IsBlank)
    ensures Strip(Join(ps, BREAK)) == Join(ps, BREAK)
    ensures Join(ps, BREAK)[0] == ps[0][0]
  {
    if |ps| > 1 {
      JoinIsStripped(ps[1..]);
    }
    TrimmedStays(Join(ps, BREAK), IsBlank);
  }

  lemma {:induction false} BuffersAreClean(groups: seq<Group>, carried: seq<string>, paragraphs: seq<string>,
                                           size: int, overlap: int, k: nat)
    requires WellGrouped(groups, carried, paragraphs, size, overlap) && k < |groups|
    requires AllClean(carried) && AllClean(paragraphs)
    ensures AllClean(Buffer(groups[k])) && Buffer(groups[k]) != []
    decreases |groups|
  {
    hide Clean;
    if k > 0 {
      var g := groups[0];
      assert AllClean(Carry(Buffer(g), overlap));
      BuffersAreClean(groups[1..], Carry(Buffer(g), overlap), paragraphs[|g.added|..], size, overlap, k - 1);
    }
  }

  function Content(g: Group): string {
    Join(Buffer(g), BREAK)
  }

  function Contents(groups: seq<Group>): (texts: seq<string>)
    ensures |texts| == |groups| && forall k | 0 <= k < |groups| :: texts[k] == Content(groups[k])
  {
    seq(|groups|, k requires 0 <= k < |groups| => Content(groups[k]))
  }

  /** The text of every chunk of a block splits back into exactly its paragraphs. */
  lemma ChunkReadsBack(text: string, size: int, overlap: int, k: nat)
    requires k < |GroupsOf(ParagraphsOf(text), size, overlap)|
    ensures var g := GroupsOf(ParagraphsOf(text), size, overlap)[k];
            Split(Content(g), "\n\n") == Buffer(g) && Content(g) != "" && Strip(Content(g)) == Content(g)
  {
    hide Split, WellGrouped;
    var groups := GroupsOf(ParagraphsOf(text), size, overlap);
    ParagraphsAreClean(text);
    GroupsAreTheGrouping(groups, ParagraphsOf(text), size, overlap);
    BuffersAreClean(groups, [], ParagraphsOf(text), size, overlap, k);
    SplitJoin(Buffer(groups[k]));
    JoinIsStripped(Buffer(groups[k]));
  }
}
