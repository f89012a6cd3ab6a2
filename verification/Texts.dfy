/** Searching and splitting text, as `str.find` and `split` do it: the leftmost occurrence first, and
    occurrences do not overlap. */
module Texts {
  import opened Options

  predicate OccursAt(text: string, marker: string, i: nat) {
    i + |marker| <= |text| && text[i..i + |marker|] == marker
  }

  lemma OccurrenceChar(text: string, marker: string, i: nat, k: nat)
    requires OccursAt(text, marker, i) && k < |marker|
    ensures text[i + k] == marker[k]
  {
    assert text[i..i + |marker|][k] == text[i + k];
  }

  /** The index of the leftmost occurrence. */
  function Find(text: string, marker: string): (found: Option<nat>)
    requires marker != ""
    ensures found.Some? ==> OccursAt(text, marker, found.value)
    ensures found.Some? ==> forall i: nat | i < found.value :: !OccursAt(text, marker, i)
    ensures found.None? ==> forall i: nat :: !OccursAt(text, marker, i)
  {
    FindFrom(text, marker, 0)
  }

  function FindFrom(text: string, marker: string, from: nat): (found: Option<nat>)
    requires marker != "" && from <= |text|
    ensures found.Some? ==> from <= found.value && OccursAt(text, marker, found.value)
    ensures found.Some? ==> forall i: nat | from <= i < found.value :: !OccursAt(text, marker, i)
    ensures found.None? ==> forall i: nat | from <= i :: !OccursAt(text, marker, i)
    decreases |text| - from
  {
    if OccursAt(text, marker, from) then Some(from)
    else if from == |text| then None
    else FindFrom(text, marker, from + 1)
  }

  lemma FindIs(text: string, marker: string, i: nat)
    requires marker != "" && OccursAt(text, marker, i)
    requires forall j: nat | j < i :: !OccursAt(text, marker, j)
    ensures Find(text, marker) == Some(i)
  {
    var found := Find(text, marker);
    assert found.Some?;
  }

  lemma OccurrenceSurvives(text: string, more: string, marker: string, i: nat)
    requires OccursAt(text, marker, i)
    ensures OccursAt(text + more, marker, i)
  {
    assert (text + more)[i..i + |marker|] == text[i..i + |marker|];
  }

  lemma OccurrenceWasThere(text: string, more: string, marker: string, i: nat)
    requires OccursAt(text + more, marker, i) && i + |marker| <= |text|
    ensures OccursAt(text, marker, i)
  {
    assert (text + more)[i..i + |marker|] == text[i..i + |marker|];
  }

  /** What follows cannot change where the leftmost occurrence is. */
  lemma FindIgnoresWhatFollows(text: string, more: string, marker: string)
    requires marker != "" && Find(text, marker).Some?
    ensures Find(text + more, marker) == Find(text, marker)
  {
    var i := Find(text, marker).value;
    OccurrenceSurvives(text, more, marker, i);
    forall j: nat | j < i
      ensures !OccursAt(text + more, marker, j)
    {
      if OccursAt(text + more, marker, j) {
        OccurrenceWasThere(text, more, marker, j);
        assert false;
      }
    }
    FindIs(text + more, marker, i);
  }

  /** The text before the leftmost occurrence and the text after it. */
  lemma CutAtFirst(text: string, marker: string) returns (before: string, after: string)
    requires marker != "" && Find(text, marker).Some?
    ensures text == before + marker + after && Find(before + marker, marker) == Some(|before|)
  {
    var i := Find(text, marker).value;
    before, after := text[..i], text[i + |marker|..];
    assert text == before + marker + after;
    assert OccursAt(before + marker, marker, i);
    forall j: nat | j < i
      ensures !OccursAt(before + marker, marker, j)
    {
      if OccursAt(before + marker, marker, j) {
        OccurrenceSurvives(before + marker, after, marker, j);
        assert false;
      }
    }
    FindIs(before + marker, marker, i);
  }

  /** An occurrence in the part after `skipped` characters. */
  lemma OccursShifted(text: string, marker: string, skipped: nat, i: nat)
    requires skipped <= |text| && skipped <= i
    ensures OccursAt(text, marker, i) <==> OccursAt(text[skipped..], marker, i - skipped)
  {
    if i + |marker| <= |text| {
      assert text[i..i + |marker|] == text[skipped..][i - skipped..i - skipped + |marker|];
    }
  }

  lemma SliceOfSlice(text: string, i: nat, j: nat, from: nat, to: nat)
    requires i <= j <= |text| && from <= to <= j - i
    ensures text[i..j][from..to] == text[i + from..i + to]
  {
    forall x | 0 <= x < to - from
      ensures text[i..j][from..to][x] == text[i + from..i + to][x]
    {
    }
  }

  lemma OccursInSlice(text: string, marker: string, i: nat, j: nat, k: nat)
    requires i <= j <= |text| && OccursAt(text[i..j], marker, k)
    ensures OccursAt(text, marker, i + k)
  {
    SliceOfSlice(text, i, j, k, k + |marker|);
  }

  // ---------------------------------------------------------------- joining and splitting

  function Concat(parts: seq<string>): string {
    if parts == [] then "" else parts[0] + Concat(parts[1..])
  }

  lemma {:induction false} ConcatAppend(parts: seq<string>, more: seq<string>)
    ensures Concat(parts + more) == Concat(parts) + Concat(more)
  {
    if parts == [] {
      assert parts + more == more;
    } else {
      assert (parts + more)[1..] == parts[1..] + more;
      ConcatAppend(parts[1..], more);
    }
  }

  lemma ConcatOne(part: string)
    ensures Concat([part]) == part
  {
    assert [part][1..] == [];
  }

  lemma ConcatNone()
    ensures Concat([]) == ""
  {
  }

  function Join(parts: seq<string>, separator: string): string {
    if parts == [] then ""
    else if |parts| == 1 then parts[0]
    else parts[0] + separator + Join(parts[1..], separator)
  }

  function Split(text: string, separator: string): (parts: seq<string>)
    requires separator != ""
    ensures |parts| >= 1
    decreases |text|
  {
    var found := Find(text, separator);
    if found.None? then [text]
    else [text[..found.value]] + Split(text[found.value + |separator|..], separator)
  }

  lemma {:induction false} SplitPartsAreClean(text: string, separator: string)
    requires separator != ""
    ensures forall part :: part in Split(text, separator) ==> Find(part, separator).None?
    decreases |text|
  {
    var found := Find(text, separator);
    if found.Some? {
      SplitPartsAreClean(text[found.value + |separator|..], separator);
      forall i: nat | OccursAt(text[..found.value], separator, i)
        ensures false
      {
        assert text == text[..found.value] + text[found.value..];
        OccurrenceSurvives(text[..found.value], text[found.value..], separator, i);
      }
    }
  }

  // ---------------------------------------------------------------- trimming

  function TrimStart(text: string, blank: char -> bool): (trimmed: string)
    ensures |trimmed| <= |text|
  {
    if text != "" && blank(text[0]) then TrimStart(text[1..], blank) else text
  }

  function TrimEnd(text: string, blank: char -> bool): (trimmed: string)
    ensures |trimmed| <= |text|
  {
    if text != "" && blank(text[|text| - 1]) then TrimEnd(text[..|text| - 1], blank) else text
  }

  function Trim(text: string, blank: char -> bool): string {
    TrimEnd(TrimStart(text, blank), blank)
  }

  /** Neither end is blank. */
  predicate Trimmed(text: string, blank: char -> bool) {
    text == "" || (!blank(text[0]) && !blank(text[|text| - 1]))
  }

  lemma {:induction false} TrimStartSplits(text: string, blank: char -> bool) returns (i: nat)
    ensures i <= |text| && TrimStart(text, blank) == text[i..]
    ensures forall k | 0 <= k < i :: blank(text[k])
    ensures i < |text| ==> !blank(text[i])
  {
    i := 0;
    if text != "" && blank(text[0]) {
      var rest := TrimStartSplits(text[1..], blank);
      i := rest + 1;
      assert forall k | 1 <= k < |text| :: text[k] == text[1..][k - 1];
    }
  }

  lemma {:induction false} TrimEndSplits(text: string, blank: char -> bool) returns (j: nat)
    ensures j <= |text| && TrimEnd(text, blank) == text[..j]
    ensures forall k | j <= k < |text| :: blank(text[k])
    ensures j > 0 ==> !blank(text[j - 1])
  {
    j := |text|;
    if text != "" && blank(text[|text| - 1]) {
      j := TrimEndSplits(text[..|text| - 1], blank);
      assert forall k | 0 <= k < |text| - 1 :: text[k] == text[..|text| - 1][k];
    }
  }

  /** Trimming takes the blank characters off both ends, and nothing else. */
  lemma TrimSplits(text: string, blank: char -> bool) returns (i: nat, j: nat)
    ensures i <= j <= |text| && Trim(text, blank) == text[i..j]
    ensures Trimmed(Trim(text, blank), blank)
    ensures forall k | 0 <= k < i || j <= k < |text| :: blank(text[k])
  {
    i := TrimStartSplits(text, blank);
    var n := TrimEndSplits(text[i..], blank);
    j := i + n;
    assert forall k | i <= k < |text| :: text[k] == text[i..][k - i];
  }

  lemma TrimmedStays(text: string, blank: char -> bool)
    requires Trimmed(text, blank)
    ensures Trim(text, blank) == text
  {
    assert TrimStart(text, blank) == text;
  }
}
