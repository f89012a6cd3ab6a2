/** The table-aware splitter of src/parsers/table_splitter.py: it cuts a document at its HTML tables,
    keeps every table whole, and packs the text between them paragraph by paragraph. */
module TableSplitter {
  import opened Options
  import opened Texts
  import opened Paragraphs

  /** Lower case, for the letters that occur in the table tags. */
  function Fold(c: char): char {
    if 'A' <= c <= 'Z' then c - 'A' + 'a' else c
  }

  function Lower(text: string): (lower: string)
    ensures |lower| == |text|
    ensures forall i | 0 <= i < |text| :: lower[i] == Fold(text[i])
  {
    seq(|text|, i requires 0 <= i < |text| => Fold(text[i]))
  }

  const OPEN: string := "<table"
  const CLOSE: string := "</table>"

  // ---------------------------------------------------------------- the pattern

  /** The pattern `<table[\\s\\S]*?</table>`, without case, can match from `a` to `b`. */
  predicate TableAt(text: string, a: nat, b: nat) {
    a + |OPEN| + |CLOSE| <= b <= |text|
    && OccursAt(Lower(text), OPEN, a) && OccursAt(Lower(text), CLOSE, b - |CLOSE|)
  }

  /** `c` is this lower-case letter, in either case. */
  predicate Letter(c: char, lower: char, upper: char) {
    c == lower || c == upper
  }

  predicate TableWord(text: string, i: nat)
    requires i + 5 <= |text|
  {
    && Letter(text[i], 't', 'T') && Letter(text[i + 1], 'a', 'A') && Letter(text[i + 2], 'b', 'B')
    && Letter(text[i + 3], 'l', 'L') && Letter(text[i + 4], 'e', 'E')
  }

  lemma OccursByChar(text: string, marker: string, i: nat)
    ensures OccursAt(text, marker, i) <==>
              i + |marker| <= |text| && forall k | 0 <= k < |marker| :: text[i + k] == marker[k]
  {
    if i + |marker| <= |text| {
      var part := text[i..i + |marker|];
      assert part == marker <==> forall k | 0 <= k < |marker| :: part[k] == marker[k];
      assert forall k | 0 <= k < |marker| :: part[k] == text[i + k];
    }
  }

  lemma FoldIs(c: char, x: char)
    requires !('A' <= x <= 'Z')
    ensures Fold(c) == x <==> c == x || ('a' <= x <= 'z' && c == x - 'a' + 'A')
  {
  }

  lemma TableWordIs(text: string, i: nat)
    requires i + 5 <= |text|
    ensures TableWord(text, i) <==>
              && Fold(text[i]) == 't' && Fold(text[i + 1]) == 'a' && Fold(text[i + 2]) == 'b'
              && Fold(text[i + 3]) == 'l' && Fold(text[i + 4]) == 'e'
  {
    hide Fold;
    FoldIs(text[i], 't');
    FoldIs(text[i + 1], 'a');
    FoldIs(text[i + 2], 'b');
    FoldIs(text[i + 3], 'l');
    FoldIs(text[i + 4], 'e');
  }

  /** What the pattern takes for tags: `<table` and `</table>`, each letter in either case, nothing else. */
  lemma OpeningTagIs(text: string, i: nat)
    ensures OccursAt(Lower(text), OPEN, i) <==> i + 6 <= |text| && text[i] == '<' && TableWord(text, i + 1)
  {
    hide OccursAt, Fold, TableWord;
    OccursByChar(Lower(text), OPEN, i);
    if i + 6 <= |text| {
      var l := Lower(text);
      assert OPEN[0] == '<' && OPEN[1] == 't' && OPEN[2] == 'a' && OPEN[3] == 'b' && OPEN[4] == 'l' && OPEN[5] == 'e';
      assert (forall k | 0 <= k < 6 :: l[i + k] == OPEN[k]) <==>
        l[i + 0] == OPEN[0] && l[i + 1] == OPEN[1] && l[i + 2] == OPEN[2] && l[i + 3] == OPEN[3]
        && l[i + 4] == OPEN[4] && l[i + 5] == OPEN[5];
      FoldIs(text[i], '<');
      TableWordIs(text, i + 1);
    }
  }

  lemma ClosingTagIs(text: string, i: nat)
    ensures OccursAt(Lower(text), CLOSE, i) <==>
              i + 8 <= |text| && text[i] == '<' && text[i + 1] == '/' && TableWord(text, i + 2) && text[i + 7] == '>'
  {
    hide OccursAt, Fold, TableWord;
    OccursByChar(Lower(text), CLOSE, i);
    if i + 8 <= |text| {
      var l := Lower(text);
      assert CLOSE[0] == '<' && CLOSE[1] == '/' && CLOSE[2] == 't' && CLOSE[3] == 'a' && CLOSE[4] == 'b'
        && CLOSE[5] == 'l' && CLOSE[6] == 'e' && CLOSE[7] == '>';
      assert (forall k | 0 <= k < 8 :: l[i + k] == CLOSE[k]) <==>
        l[i + 0] == CLOSE[0] && l[i + 1] == CLOSE[1] && l[i + 2] == CLOSE[2] && l[i + 3] == CLOSE[3]
        && l[i + 4] == CLOSE[4] && l[i + 5] == CLOSE[5] && l[i + 6] == CLOSE[6] && l[i + 7] == CLOSE[7];
      FoldIs(text[i], '<');
      FoldIs(text[i + 1], '/');
      FoldIs(text[i + 7], '>');
      TableWordIs(text, i + 2);
    }
  }

  datatype Span = Span(start: nat, end: nat)

  /** The match the regular expression finds: from the first opening tag to the next closing tag. */
  function NextTable(text: string): (found: Option<Span>)
    ensures found.Some? ==> found.value.start < found.value.end <= |text|
  {
    var open := Find(Lower(text), OPEN);
    if open.None? then None
    else
      var from := open.value + |OPEN|;
      var close := Find(Lower(text)[from..], CLOSE);
      if close.None? then None else Some(Span(open.value, from + close.value + |CLOSE|))
  }

  /** That match is the leftmost one, and the shortest one there; if none is found there is none. */
  lemma NextTableIsFirst(text: string)
    ensures var found := NextTable(text);
            && (found.None? ==> forall a, b :: !TableAt(text, a, b))
            && (found.Some? ==> TableAt(text, found.value.start, found.value.end))
            && (found.Some? ==> forall a, b | TableAt(text, a, b) :: found.value.start <= a)
            && (found.Some? ==> forall b | TableAt(text, found.value.start, b) :: found.value.end <= b)
  {
    hide TableAt, NextTable;
    if NextTable(text).Some? {
      FoundTable(text);
    }
    forall a: nat, b: nat | TableAt(text, a, b)
      ensures NextTable(text).Some?
      ensures NextTable(text).value.start <= a && NextTable(text).value.end <= b
    {
      NotAfter(text, a, b);
    }
  }

  lemma FoundTable(text: string)
    requires NextTable(text).Some?
    ensures TableAt(text, NextTable(text).value.start, NextTable(text).value.end)
  {
    hide Lower;
    var lower := Lower(text);
    var from := Find(lower, OPEN).value + |OPEN|;
    var close := Find(lower[from..], CLOSE).value;
    OccursShifted(lower, CLOSE, from, from + close);
  }

  /** No match starts or ends before the one that is found. */
  lemma NotAfter(text: string, a: nat, b: nat)
    requires TableAt(text, a, b)
    ensures NextTable(text).Some?
    ensures NextTable(text).value.start <= a && NextTable(text).value.end <= b
  {
    hide Lower;
    var lower := Lower(text);
    var open := Find(lower, OPEN);
    ClosesAfter(lower, open.value + |OPEN|, b - |CLOSE|);
  }

  lemma ClosesAfter(lower: string, from: nat, at: nat)
    requires from <= at && OccursAt(lower, CLOSE, at)
    ensures var close := Find(lower[from..], CLOSE); close.Some? && from + close.value <= at
  {
    OccursShifted(lower, CLOSE, from, at);
  }

  /** What `HTML_TABLE_PATTERN.split` returns: text, table, text, ..., table, text. */
  function Parts(text: string): (parts: seq<string>)
    decreases |text|
  {
    var found := NextTable(text);
    if found.None? then [text]
    else [text[..found.value.start], text[found.value.start..found.value.end]] + Parts(text[found.value.end..])
  }

  /** `part.strip().lower()` starts with the opening tag and ends with the closing one. */
  predicate LooksLikeTable(part: string) {
    var lower := Lower(Strip(part));
    && |OPEN| <= |lower| && lower[..|OPEN|] == OPEN
    && |CLOSE| <= |lower| && lower[|lower| - |CLOSE|..] == CLOSE
  }

  // ---------------------------------------------------------------- parts

  lemma {:induction false} PartsRejoin(text: string)
    ensures Concat(Parts(text)) == text
    decreases |text|
  {
    hide NextTable;
    var found := NextTable(text);
    if found.None? {
      ConcatOne(text);
    } else {
      var Span(a, b) := found.value;
      PartsRejoin(text[b..]);
      ConcatAppend([text[..a], text[a..b]], Parts(text[b..]));
      ConcatTwo(text[..a], text[a..b]);
      assert text == text[..a] + text[a..b] + text[b..];
    }
  }

  lemma ConcatTwo(first: string, second: string)
    ensures Concat([first, second]) == first + second
  {
    assert [first, second][1..] == [second];
    ConcatOne(second);
  }

  /** Tables begin and end with visible characters, so stripping leaves them alone. */
  lemma TableIsTrimmed(table: string)
    requires TableAt(table, 0, |table|)
    ensures LooksLikeTable(table) && Strip(table) == table
  {
    var lower := Lower(table);
    OccurrenceChar(lower, OPEN, 0, 0);
    OccurrenceChar(lower, CLOSE, |table| - |CLOSE|, 7);
    TrimmedStays(table, IsBlank);
  }

  lemma LowerPart(text: string, i: nat, j: nat)
    requires i <= j <= |text|
    ensures Lower(text[i..j]) == Lower(text)[i..j]
  {
  }

  /** The two tags cannot share characters. */
  lemma TagsDoNotOverlap(lower: string)
    requires OccursAt(lower, OPEN, 0) && |CLOSE| <= |lower| && OccursAt(lower, CLOSE, |lower| - |CLOSE|)
    ensures |OPEN| + |CLOSE| <= |lower|
  {
    var n := |lower| - |CLOSE|;
    if n < |OPEN| {
      OccurrenceChar(lower, CLOSE, n, 0);
      OccurrenceChar(lower, OPEN, 0, n);
      if n == 0 {
        OccurrenceChar(lower, CLOSE, n, 1);
        OccurrenceChar(lower, OPEN, 0, 1);
      }
      assert false;
    }
  }

  lemma TableInPart(text: string, i: nat, j: nat, a: nat, b: nat)
    requires i <= j <= |text| && TableAt(text[i..j], a, b)
    ensures TableAt(text, i + a, i + b)
  {
    LowerPart(text, i, j);
    hide Lower;
    OccursInSlice(Lower(text), OPEN, i, j, a);
    OccursInSlice(Lower(text), CLOSE, i, j, b - |CLOSE|);
  }

  /** What looks like a table to the loop contains a match of the pattern. */
  lemma LookalikeHasTable(part: string) returns (a: nat, b: nat)
    requires LooksLikeTable(part)
    ensures TableAt(part, a, b)
  {
    var i, j := TrimSplits(part, IsBlank);
    var lower := Lower(Strip(part));
    a, b := i, j;
    TagsDoNotOverlap(lower);
    assert TableAt(part[i..j], 0, j - i);
    TableInPart(part, i, j, 0, j - i);
  }

  ghost predicate NoTable(text: string) {
    forall a, b :: !TableAt(text, a, b)
  }

  /** A table that closes as soon as it can. */
  ghost predicate OneTable(table: string) {
    TableAt(table, 0, |table|) && forall b | TableAt(table, 0, b) :: b == |table|
  }

  /** Tables and the gaps between them alternate. */
  ghost predicate Alternates(parts: seq<string>)
    decreases |parts|
  {
    && |parts| % 2 == 1 && NoTable(parts[0])
    && (|parts| > 1 ==> OneTable(parts[1]) && Alternates(parts[2..]))
  }

  lemma CutTable(text: string)
    requires NextTable(text).Some?
    ensures var Span(a, b) := NextTable(text).value;
            NoTable(text[..a]) && OneTable(text[a..b])
  {
    NextTableIsFirst(text);
    hide NextTable, LooksLikeTable;
    var Span(a, b) := NextTable(text).value;
    forall a', b'
      ensures !TableAt(text[..a], a', b')
    {
      if TableAt(text[..a], a', b') {
        assert text[..a] == text[0..a];
        TableInPart(text, 0, a, a', b');
        assert false;
      }
    }
    LowerPart(text, a, b);
    forall b' | TableAt(text[a..b], 0, b')
      ensures b' == b - a
    {
      TableInPart(text, a, b, 0, b');
    }
    CutOccurs(text, a, b);
  }

  lemma CutOccurs(text: string, a: nat, b: nat)
    requires TableAt(text, a, b)
    ensures TableAt(text[a..b], 0, b - a)
  {
    LowerPart(text, a, b);
    hide Lower;
    var lower := Lower(text);
    SliceOfSlice(lower, a, b, 0, |OPEN|);
    SliceOfSlice(lower, a, b, b - a - |CLOSE|, b - a);
  }

  lemma {:induction false} PartsAlternate(text: string)
    ensures Alternates(Parts(text))
    decreases |text|
  {
    hide TableAt, OneTable, NoTable, NextTable, Alternates, Parts;
    if NextTable(text).None? {
      NoneMeansNoTable(text);
    } else {
      var Span(a, b) := NextTable(text).value;
      CutTable(text);
      PartsStep(text);
      PartsAlternate(text[b..]);
      AlternatesLonger(text[..a], text[a..b], Parts(text[b..]));
    }
  }

  lemma PartsStep(text: string)
    requires NextTable(text).Some?
    ensures var Span(a, b) := NextTable(text).value;
            Parts(text) == [text[..a], text[a..b]] + Parts(text[b..])
  {
    hide NextTable;
  }

  lemma AlternatesLonger(gap: string, table: string, rest: seq<string>)
    requires NoTable(gap) && OneTable(table) && Alternates(rest)
    ensures Alternates([gap, table] + rest)
  {
    hide NoTable, OneTable;
    assert ([gap, table] + rest)[2..] == rest;
  }

  lemma NoneMeansNoTable(text: string)
    requires NextTable(text).None?
    ensures NoTable(text) && Alternates(Parts(text))
  {
    hide TableAt;
    NextTableIsFirst(text);
  }

  /** The loop's starts-with and ends-with test tells the tables from the gaps, exactly. */
  lemma {:induction false} TestAgrees(parts: seq<string>, k: nat)
    requires Alternates(parts) && k < |parts|
    ensures LooksLikeTable(parts[k]) <==> k % 2 == 1
    ensures k % 2 == 1 ==> OneTable(parts[k]) && Strip(parts[k]) == parts[k]
    decreases |parts|
  {
    hide LooksLikeTable, Strip;
    if k == 0 {
      if LooksLikeTable(parts[0]) {
        var a, b := LookalikeHasTable(parts[0]);
        assert false;
      }
    } else if k == 1 {
      TableIsTrimmed(parts[1]);
    } else {
      TestAgrees(parts[2..], k - 2);
    }
  }

  // ---------------------------------------------------------------- the document

  /** `html` is the text that the table profiler is given; the chunk it returns puts a heading line, and
      mostly a summary, before that text. */
  datatype Chunk = TableChunk(html: string) | TextChunk(content: string)

  function TextChunks(contents: seq<string>): (chunks: seq<Chunk>)
    ensures |chunks| == |contents| && forall k | 0 <= k < |contents| :: chunks[k] == TextChunk(contents[k])
  {
    seq(|contents|, k requires 0 <= k < |contents| => TextChunk(contents[k]))
  }

  function BlockContents(text: string, size: int, overlap: int): seq<string> {
    Contents(GroupsOf(ParagraphsOf(text), size, overlap))
  }

  /** What one part contributes. */
  function PartChunks(part: string, size: int, overlap: int): seq<Chunk> {
    if Strip(part) == "" then []
    else if LooksLikeTable(part) then [TableChunk(Strip(part))]
    else TextChunks(BlockContents(Strip(part), size, overlap))
  }

  function AllChunks(parts: seq<string>, size: int, overlap: int): seq<Chunk> {
    if parts == [] then [] else PartChunks(parts[0], size, overlap) + AllChunks(parts[1..], size, overlap)
  }

  lemma {:induction false} AllChunksAppend(parts: seq<string>, part: string, size: int, overlap: int)
    ensures AllChunks(parts + [part], size, overlap) == AllChunks(parts, size, overlap) + PartChunks(part, size, overlap)
  {
    hide PartChunks;
    if parts == [] {
      assert [part][1..] == [] && parts + [part] == [part];
    } else {
      assert (parts + [part])[1..] == parts[1..] + [part];
      AllChunksAppend(parts[1..], part, size, overlap);
    }
  }

  function Tables(parts: seq<string>): seq<string> {
    if |parts| < 2 then [] else [parts[1]] + Tables(parts[2..])
  }

  function TableTexts(chunks: seq<Chunk>): seq<string> {
    if chunks == [] then []
    else (if chunks[0].TableChunk? then [chunks[0].html] else []) + TableTexts(chunks[1..])
  }

  lemma {:induction false} TableTextsAppend(a: seq<Chunk>, b: seq<Chunk>)
    ensures TableTexts(a + b) == TableTexts(a) + TableTexts(b)
  {
    if a == [] {
      assert a + b == b;
    } else {
      assert (a + b)[1..] == a[1..] + b;
      TableTextsAppend(a[1..], b);
    }
  }

  lemma {:induction false} TextHasNoTables(chunks: seq<Chunk>)
    requires forall k | 0 <= k < |chunks| :: chunks[k].TextChunk?
    ensures TableTexts(chunks) == []
  {
    if chunks != [] {
      TextHasNoTables(chunks[1..]);
    }
  }

  /** Every table of the document is given to the profiler, and so becomes a chunk, exactly once, character
      for character and in order. */
  lemma {:induction false} TablesStayWhole(parts: seq<string>, size: int, overlap: int)
    requires Alternates(parts)
    ensures TableTexts(AllChunks(parts, size, overlap)) == Tables(parts)
    decreases |parts|
  {
    hide LooksLikeTable, Strip, BlockContents, NoTable, OneTable;
    GapHasNoTables(parts, size, overlap);
    var first := PartChunks(parts[0], size, overlap);
    if |parts| == 1 {
      assert AllChunks(parts, size, overlap) == first + [] by { NoChunks(parts[1..], size, overlap); }
      assert first + [] == first;
    } else {
      TableIsOneChunk(parts, size, overlap);
      var rest := AllChunks(parts[2..], size, overlap);
      assert parts[1..][1..] == parts[2..] && parts[1..][0] == parts[1];
      TablesStayWhole(parts[2..], size, overlap);
      TableTextsAppend(first, [TableChunk(parts[1])] + rest);
      TableTextsAppend([TableChunk(parts[1])], rest);
      assert [TableChunk(parts[1])][1..] == [];
    }
  }

  lemma NoChunks(parts: seq<string>, size: int, overlap: int)
    requires parts == []
    ensures AllChunks(parts, size, overlap) == []
  {
  }

  lemma GapHasNoTables(parts: seq<string>, size: int, overlap: int)
    requires Alternates(parts)
    ensures TableTexts(PartChunks(parts[0], size, overlap)) == []
  {
    hide LooksLikeTable, Strip, BlockContents;
    TestAgrees(parts, 0);
    TextHasNoTables(PartChunks(parts[0], size, overlap));
  }

  lemma TableIsOneChunk(parts: seq<string>, size: int, overlap: int)
    requires Alternates(parts) && |parts| > 1
    ensures PartChunks(parts[1], size, overlap) == [TableChunk(parts[1])]
  {
    hide LooksLikeTable, Strip, BlockContents;
    TestAgrees(parts, 1);
  }

  /** Without what each text chunk repeats, the chunks of a gap hold its paragraphs, once and in order. */
  lemma BlockLaw(text: string, size: int, overlap: int)
    ensures Added(GroupsOf(ParagraphsOf(text), size, overlap)) == ParagraphsOf(text)
    ensures |BlockContents(text, size, overlap)| == |GroupsOf(ParagraphsOf(text), size, overlap)|
    ensures forall k | 0 <= k < |BlockContents(text, size, overlap)| ::
              Split(BlockContents(text, size, overlap)[k], BREAK)
              == Buffer(GroupsOf(ParagraphsOf(text), size, overlap)[k])
  {
    hide Split, WellGrouped, Added;
    var groups := GroupsOf(ParagraphsOf(text), size, overlap);
    GroupsAreTheGrouping(groups, ParagraphsOf(text), size, overlap);
    NothingLostOrDoubled(groups, [], ParagraphsOf(text), size, overlap);
    forall k | 0 <= k < |groups|
      ensures Split(Content(groups[k]), BREAK) == Buffer(groups[k])
    {
      ChunkReadsBack(text, size, overlap, k);
    }
  }

  // ---------------------------------------------------------------- the text of a document

  /** The texts of the chunks that are no tables. */
  function TextsOf(chunks: seq<Chunk>): seq<string> {
    if chunks == [] then []
    else (if chunks[0].TextChunk? then [chunks[0].content] else []) + TextsOf(chunks[1..])
  }

  /** The paragraphs of a part that is no table, as the loop groups them. */
  function PartGroups(part: string, size: int, overlap: int): seq<Group> {
    if Strip(part) == "" || LooksLikeTable(part) then [] else GroupsOf(ParagraphsOf(Strip(part)), size, overlap)
  }

  function AllGroups(parts: seq<string>, size: int, overlap: int): seq<Group> {
    if parts == [] then [] else PartGroups(parts[0], size, overlap) + AllGroups(parts[1..], size, overlap)
  }

  /** The paragraphs between the tables: of every other part. */
  function GapParagraphs(parts: seq<string>): seq<string> {
    if parts == [] then []
    else ParagraphsOf(Strip(parts[0])) + if |parts| == 1 then [] else GapParagraphs(parts[2..])
  }

  lemma {:induction false} TextsOfAppend(a: seq<Chunk>, b: seq<Chunk>)
    ensures TextsOf(a + b) == TextsOf(a) + TextsOf(b)
  {
    if a == [] {
      assert a + b == b;
    } else {
      assert (a + b)[1..] == a[1..] + b;
      TextsOfAppend(a[1..], b);
    }
  }

  lemma {:induction false} TextsOfTexts(contents: seq<string>)
    ensures TextsOf(TextChunks(contents)) == contents
  {
    if contents != [] {
      TextsOfTexts(contents[1..]);
      assert TextChunks(contents)[1..] == TextChunks(contents[1..]);
    }
  }

  lemma ContentsConcat(a: seq<Group>, b: seq<Group>)
    ensures Contents(a + b) == Contents(a) + Contents(b)
  {
    hide Content;
  }

  lemma {:induction false} AddedAppend(a: seq<Group>, b: seq<Group>)
    ensures Added(a + b) == Added(a) + Added(b)
  {
    if a == [] {
      assert a + b == b;
    } else {
      assert (a + b)[1..] == a[1..] + b;
      AddedAppend(a[1..], b);
    }
  }

  /** The text chunks of one part are its groups, and read back as such. */
  lemma PartTexts(part: string, size: int, overlap: int)
    ensures TextsOf(PartChunks(part, size, overlap)) == Contents(PartGroups(part, size, overlap))
    ensures forall g | g in PartGroups(part, size, overlap) :: Split(Content(g), BREAK) == Buffer(g)
  {
    hide Strip, LooksLikeTable, Split, Content, GroupsOf, ParagraphsOf;
    if Strip(part) == "" {
      NoTexts();
    } else if LooksLikeTable(part) {
      NoTexts();
      assert TextsOf([TableChunk(Strip(part))]) == [] by { OneTableText(Strip(part)); }
    } else {
      var text := Strip(part);
      TextsOfTexts(BlockContents(text, size, overlap));
      BlockLaw(text, size, overlap);
    }
  }

  lemma NoTexts()
    ensures TextsOf([]) == [] && Contents([]) == []
  {
  }

  lemma OneTableText(html: string)
    ensures TextsOf([TableChunk(html)]) == []
  {
    assert [TableChunk(html)][1..] == [];
  }

  lemma {:induction false} DocumentTexts(parts: seq<string>, size: int, overlap: int)
    ensures TextsOf(AllChunks(parts, size, overlap)) == Contents(AllGroups(parts, size, overlap))
    ensures forall g | g in AllGroups(parts, size, overlap) :: Split(Content(g), BREAK) == Buffer(g)
  {
    hide PartChunks, PartGroups, Split, Content, Contents;
    if parts == [] {
      NoTexts();
    } else {
      PartTexts(parts[0], size, overlap);
      DocumentTexts(parts[1..], size, overlap);
      TextsOfAppend(PartChunks(parts[0], size, overlap), AllChunks(parts[1..], size, overlap));
      ContentsConcat(PartGroups(parts[0], size, overlap), AllGroups(parts[1..], size, overlap));
    }
  }

  /** A gap adds its paragraphs, a table adds none. */
  lemma PartAdds(part: string, size: int, overlap: int)
    ensures Added(PartGroups(part, size, overlap)) == if LooksLikeTable(part) then [] else ParagraphsOf(Strip(part))
  {
    hide Strip, LooksLikeTable, GroupsOf, ParagraphsOf;
    if !LooksLikeTable(part) {
      NoParagraphs();
      BlockLaw(Strip(part), size, overlap);
    }
  }

  lemma NoParagraphs()
    ensures ParagraphsOf("") == []
  {
    assert Find("", BREAK).None?;
    assert NonBlank([""]) == NonBlank([""][1..]);
  }

  lemma {:induction false} NoParagraphIsLost(parts: seq<string>, size: int, overlap: int)
    requires Alternates(parts)
    ensures Added(AllGroups(parts, size, overlap)) == GapParagraphs(parts)
    decreases |parts|
  {
    hide PartGroups, ParagraphsOf, NoTable, OneTable, Strip, LooksLikeTable;
    TestAgrees(parts, 0);
    PartAdds(parts[0], size, overlap);
    var first := PartGroups(parts[0], size, overlap);
    AddedAppend(first, AllGroups(parts[1..], size, overlap));
    if |parts| == 1 {
      assert parts[1..] == [];
    } else {
      TestAgrees(parts, 1);
      PartAdds(parts[1], size, overlap);
      assert parts[1..][0] == parts[1] && parts[1..][1..] == parts[2..];
      AddedAppend(PartGroups(parts[1], size, overlap), AllGroups(parts[2..], size, overlap));
      NoParagraphIsLost(parts[2..], size, overlap);
    }
  }

  /** The whole document.  Its parts rejoin, and gaps and tables alternate; the table chunks are its tables,
      character for character; the text chunks read back as groups of paragraphs; and without what each
      repeats, these are the paragraphs between the tables, each once, in order. */
  lemma DocumentLaw(document: string, size: int, overlap: int)
    requires Strip(document) != ""
    ensures var parts := Parts(Strip(document));
            var chunks, groups := AllChunks(parts, size, overlap), AllGroups(parts, size, overlap);
            && Concat(parts) == Strip(document) && Alternates(parts)
            && TableTexts(chunks) == Tables(parts)
            && TextsOf(chunks) == Contents(groups)
            && (forall g | g in groups :: Split(Content(g), BREAK) == Buffer(g))
            && Added(groups) == GapParagraphs(parts)
  {
    hide Strip, Parts, AllChunks, AllGroups, Alternates, Content, Split;
    var parts := Parts(Strip(document));
    PartsRejoin(Strip(document));
    PartsAlternate(Strip(document));
    TablesStayWhole(parts, size, overlap);
    DocumentTexts(parts, size, overlap);
    NoParagraphIsLost(parts, size, overlap);
  }

  // ---------------------------------------------------------------- the code

  lemma NonBlankStep(pieces: seq<string>, k: nat)
    requires k < |pieces|
    ensures var p, rest := Strip(pieces[k]), NonBlank(pieces[k + 1..]);
            NonBlank(pieces[k..]) == if p == "" then rest else [p] + rest
  {
    hide Strip;
    assert pieces[k..][1..] == pieces[k + 1..];
  }

  lemma NonBlankPart(pieces: seq<string>, k: nat)
    requires k < |pieces| && AllClean(NonBlank(pieces[k..])) && Strip(pieces[k]) != ""
    ensures Clean(Strip(pieces[k])) && AllClean(NonBlank(pieces[k + 1..]))
  {
    hide Clean, Strip;
    NonBlankStep(pieces, k);
    assert NonBlank(pieces[k..])[0] == Strip(pieces[k]);
    assert NonBlank(pieces[k..])[1..] == NonBlank(pieces[k + 1..]);
  }

  /** The joined buffer is stripped, and appended unless that leaves nothing, which it never does. */
  method Flush(chunks: seq<string>, currentBuf: seq<string>) returns (chunks': seq<string>)
    requires AllClean(currentBuf) && currentBuf != []
    ensures chunks' == chunks + [Join(currentBuf, BREAK)]
  {
    JoinIsStripped(currentBuf);
    hide Clean, Join;
    var chunkStr := Strip(Join(currentBuf, BREAK));
    chunks' := chunks;
    if chunkStr != "" {
      chunks' := chunks' + [chunkStr];
    }
  }

  /** The buffer of the loop with its length, and the group it stands for. */
  ghost predicate Buffers(currentBuf: seq<string>, currentLen: int, current: Group) {
    currentBuf == Buffer(current) && currentLen == Lengths(currentBuf) && AllClean(currentBuf)
  }

  lemma BufferGrows(currentBuf: seq<string>, currentLen: int, current: Group, p: string)
    requires Buffers(currentBuf, currentLen, current) && Clean(p)
    ensures Buffers(currentBuf + [p], currentLen + |p|, current.(added := current.added + [p]))
  {
    hide Clean;
    LengthsAppend(currentBuf, [p]);
    LengthsOne(p);
  }

  lemma BufferRestarts(currentBuf: seq<string>, currentLen: int, current: Group, p: string, overlap: int)
    requires Buffers(currentBuf, currentLen, current) && currentBuf != [] && Clean(p)
    ensures var last := currentBuf[|currentBuf| - 1];
            var next := Group(Carry(Buffer(current), overlap), [p]);
            if |last| < overlap then Buffers([last, p], |last| + |p|, next) else Buffers([p], |p|, next)
  {
    hide Clean;
    var last := currentBuf[|currentBuf| - 1];
    assert [last] + [p] == [last, p] && [] + [p] == [p];
    LengthsAppend([last], [p]);
    LengthsOne(last);
    LengthsOne(p);
  }

  /** `_split_text_block`, without page numbers. */
  method SplitTextBlock(text: string, size: int, overlap: int) returns (chunks: seq<string>)
    ensures chunks == BlockContents(text, size, overlap)
  {
    hide Strip, Split, NonBlank, Clean, Buffers, Lengths, Carry, Content;
    chunks := [];
    var pieces := Split(text, BREAK);
    var currentBuf: seq<string>, currentLen := [], 0;
    ghost var current, groups: seq<Group> := Group([], []), [];
    ParagraphsAreClean(text);
    NothingBuffered();
    assert pieces[0..] == pieces;
    for k := 0 to |pieces|
      invariant groups + Grouped(current, NonBlank(pieces[k..]), size, overlap)
             == GroupsOf(ParagraphsOf(text), size, overlap)
      invariant AllClean(NonBlank(pieces[k..]))
      invariant Buffers(currentBuf, currentLen, current)
      invariant chunks == Contents(groups)
    {
      var p := Strip(pieces[k]);
      NonBlankStep(pieces, k);
      if p != "" {
        NonBlankPart(pieces, k);
        ghost var rest := NonBlank(pieces[k + 1..]);
        GroupedStep(current, p, rest, size, overlap);
        BufferIs(currentBuf, currentLen, current);
        if currentLen + |p| > size && currentBuf != [] {
          BufferRestarts(currentBuf, currentLen, current, p, overlap);
          ContentsAppend(groups, current);
          groups, current := groups + [current], Group(Carry(Buffer(current), overlap), [p]);
          chunks := Flush(chunks, currentBuf);
          var last := currentBuf[|currentBuf| - 1];
          if |last| < overlap {
            currentBuf, currentLen := [last, p], |last| + |p|;
          } else {
            currentBuf, currentLen := [p], |p|;
          }
        } else {
          BufferGrows(currentBuf, currentLen, current, p);
          current := current.(added := current.added + [p]);
          currentBuf, currentLen := currentBuf + [p], currentLen + |p|;
        }
      }
    }
    NoneLeft(pieces);
    BufferIs(currentBuf, currentLen, current);
    if currentBuf != [] {
      ContentsAppend(groups, current);
      chunks := Flush(chunks, currentBuf);
    }
  }

  lemma NothingBuffered()
    ensures Buffers([], 0, Group([], [])) && Contents([]) == []
  {
  }

  lemma NoneLeft(pieces: seq<string>)
    ensures NonBlank(pieces[|pieces|..]) == []
  {
  }

  lemma BufferIs(currentBuf: seq<string>, currentLen: int, current: Group)
    requires Buffers(currentBuf, currentLen, current)
    ensures currentBuf == Buffer(current) && currentLen == Lengths(Buffer(current)) && AllClean(currentBuf)
  {
  }

  lemma GroupedStep(current: Group, p: string, rest: seq<string>, size: int, overlap: int)
    ensures Grouped(current, [p] + rest, size, overlap)
         == if Lengths(Buffer(current)) + |p| > size && Buffer(current) != [] then
              [current] + Grouped(Group(Carry(Buffer(current), overlap), [p]), rest, size, overlap)
            else Grouped(current.(added := current.added + [p]), rest, size, overlap)
  {
    hide Lengths, Carry;
    assert ([p] + rest)[1..] == rest;
  }

  lemma ContentsAppend(groups: seq<Group>, g: Group)
    ensures Contents(groups + [g]) == Contents(groups) + [Join(Buffer(g), BREAK)]
  {
  }

  /** `split_document`, without headings, page numbers and table profiles. */
  method SplitDocument(document: string, size: int, overlap: int) returns (chunks: seq<Chunk>)
    ensures Strip(document) == "" ==> chunks == []
    ensures Strip(document) != "" ==> chunks == AllChunks(Parts(Strip(document)), size, overlap)
  {
    hide Strip, Parts, LooksLikeTable, BlockContents, PartChunks;
    chunks := [];
    if Strip(document) == "" {
      return;
    }
    var parts := Parts(Strip(document));
    NoChunks(parts[..0], size, overlap);
    for k := 0 to |parts|
      invariant chunks == AllChunks(parts[..k], size, overlap)
    {
      assert parts[..k + 1] == parts[..k] + [parts[k]];
      AllChunksAppend(parts[..k], parts[k], size, overlap);
      PartChunksAre(parts[k], size, overlap);
      if Strip(parts[k]) != "" {
        if LooksLikeTable(parts[k]) {
          chunks := chunks + [TableChunk(Strip(parts[k]))];
        } else {
          var texts := SplitTextBlock(Strip(parts[k]), size, overlap);
          chunks := chunks + TextChunks(texts);
        }
      }
    }
    assert parts[..|parts|] == parts;
  }

  lemma PartChunksAre(part: string, size: int, overlap: int)
    ensures PartChunks(part, size, overlap)
         == if Strip(part) == "" then []
            else if LooksLikeTable(part) then [TableChunk(Strip(part))]
            else TextChunks(BlockContents(Strip(part), size, overlap))
  {
    hide Strip, LooksLikeTable, BlockContents;
  }
}
