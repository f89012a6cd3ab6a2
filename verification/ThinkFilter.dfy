/** The streaming filter that removes `<think>...</think>` from an answer that arrives in pieces. */
module ThinkFilter {
  import opened Options
  import opened Texts

  /** The tag to look for next: the closing one inside a span, the opening one outside. */
  function Marker(inThinking: bool): (marker: string)
    ensures marker != ""
  {
    if inThinking then "</think>" else "<think>"
  }

  // ---------------------------------------------------------------- the whole-text meaning

  /** The text without its thinking spans.  A span runs from an opening tag to the next closing tag;
      one that is never closed runs to the end. */
  function WithoutThinking(text: string): string
    decreases |text|
  {
    var open := Find(text, Marker(false));
    if open.None? then text
    else
      var inside := text[open.value + |Marker(false)|..];
      var close := Find(inside, Marker(true));
      text[..open.value]
      + if close.None? then "" else WithoutThinking(inside[close.value + |Marker(true)|..])
  }

  /** The same, from a point inside or outside a span. */
  function VisibleFrom(text: string, inThinking: bool): string
    decreases |text|
  {
    var found := Find(text, Marker(inThinking));
    if found.None? then (if inThinking then "" else text)
    else
      (if inThinking then "" else text[..found.value])
      + VisibleFrom(text[found.value + |Marker(inThinking)|..], !inThinking)
  }

  lemma {:induction false} VisibleFromStart(text: string)
    ensures VisibleFrom(text, false) == WithoutThinking(text)
    decreases |text|
  {
    hide Find, Marker, VisibleFrom, WithoutThinking;
    var open := Find(text, Marker(false));
    if open.None? {
      NoMarkerLeft(text, false);
      UnfoldPlain(text);
    } else {
      var inside := text[open.value + |Marker(false)|..];
      var close := Find(inside, Marker(true));
      AtMarker(text, false, open.value);
      if close.None? {
        NoMarkerLeft(inside, true);
        UnfoldUnclosed(text, open.value);
      } else {
        AtMarker(inside, true, close.value);
        Unfold(text, open.value, close.value);
        VisibleFromStart(inside[close.value + |Marker(true)|..]);
      }
    }
  }

  lemma UnfoldPlain(text: string)
    requires Find(text, Marker(false)).None?
    ensures WithoutThinking(text) == text
  {
    hide Marker, Find;
  }

  lemma UnfoldUnclosed(text: string, open: nat)
    requires Find(text, Marker(false)) == Some(open)
    requires Find(text[open + |Marker(false)|..], Marker(true)).None?
    ensures WithoutThinking(text) == text[..open]
  {
    hide Marker, Find;
  }

  /** What a closed span contributes: nothing. */
  lemma SpanLaw(before: string, thoughts: string, rest: string)
    requires Find(before + "<think>", "<think>") == Some(|before|)
    requires Find(thoughts + "</think>", "</think>") == Some(|thoughts|)
    ensures WithoutThinking(before + "<think>" + thoughts + "</think>" + rest) == before + WithoutThinking(rest)
  {
    MarkersAre();
    SpanOfMarkers(before, thoughts, rest);
  }

  /** A span that is never closed takes the rest of the text with it. */
  lemma UnclosedLaw(before: string, thoughts: string)
    requires Find(before + "<think>", "<think>") == Some(|before|)
    requires Find(thoughts, "</think>").None?
    ensures WithoutThinking(before + "<think>" + thoughts) == before
  {
    MarkersAre();
    UnclosedMarker(before, thoughts);
  }

  /** A text without an opening tag is shown as it is; a closing tag alone means nothing. */
  lemma PlainLaw(text: string)
    requires Find(text, "<think>").None?
    ensures WithoutThinking(text) == text
  {
  }

  /** The three laws cover every text. */
  lemma EveryTextIsCovered(text: string) returns (before: string, thoughts: string, rest: string)
    ensures || Find(text, "<think>").None?
            || (&& Find(before + "<think>", "<think>") == Some(|before|)
                && Find(thoughts, "</think>").None? && text == before + "<think>" + thoughts)
            || (&& Find(before + "<think>", "<think>") == Some(|before|)
                && Find(thoughts + "</think>", "</think>") == Some(|thoughts|)
                && text == before + "<think>" + thoughts + "</think>" + rest)
  {
    hide Find;
    before, thoughts, rest := "", "", "";
    if Find(text, "<think>").Some? {
      before, thoughts := CutAtFirst(text, "<think>");
      if Find(thoughts, "</think>").Some? {
        thoughts, rest := CutAtFirst(thoughts, "</think>");
      }
    }
  }

  lemma MarkersAre()
    ensures Marker(false) == "<think>" && Marker(true) == "</think>"
  {
  }

  lemma UnclosedMarker(before: string, thoughts: string)
    requires Find(before + Marker(false), Marker(false)) == Some(|before|)
    requires Find(thoughts, Marker(true)).None?
    ensures WithoutThinking(before + Marker(false) + thoughts) == before
  {
    hide Marker, Find, WithoutThinking;
    var text := before + Marker(false) + thoughts;
    FindIgnoresWhatFollows(before + Marker(false), thoughts, Marker(false));
    assert text[|before| + |Marker(false)|..] == thoughts && text[..|before|] == before;
    UnfoldUnclosed(text, |before|);
  }

  lemma SpanOfMarkers(before: string, thoughts: string, rest: string)
    requires Find(before + Marker(false), Marker(false)) == Some(|before|)
    requires Find(thoughts + Marker(true), Marker(true)) == Some(|thoughts|)
    ensures WithoutThinking(before + Marker(false) + thoughts + Marker(true) + rest) == before + WithoutThinking(rest)
  {
    hide WithoutThinking, Marker, Find;
    var inside := thoughts + Marker(true) + rest;
    var text := before + Marker(false) + inside;
    assert before + Marker(false) + thoughts + Marker(true) + rest == text;
    FindIgnoresWhatFollows(before + Marker(false), inside, Marker(false));
    FindIgnoresWhatFollows(thoughts + Marker(true), rest, Marker(true));
    assert text[|before| + |Marker(false)|..] == inside;
    assert inside[|thoughts| + |Marker(true)|..] == rest;
    assert text[..|before|] == before;
    Unfold(text, |before|, |thoughts|);
  }

  lemma Unfold(text: string, open: nat, close: nat)
    requires Find(text, Marker(false)) == Some(open)
    requires Find(text[open + |Marker(false)|..], Marker(true)) == Some(close)
    ensures WithoutThinking(text)
         == text[..open] + WithoutThinking(text[open + |Marker(false)|..][close + |Marker(true)|..])
  {
    hide Marker, Find;
  }

  // ---------------------------------------------------------------- the held-back suffix

  predicate IsPrefixSuffix(value: string, marker: string, length: nat) {
    length < |marker| && length <= |value| && value[|value| - length..] == marker[..length]
  }

  /** The longest proper prefix of the marker that the value ends with. */
  function LongestPrefixSuffix(value: string, marker: string): (length: nat)
    requires marker != ""
    ensures IsPrefixSuffix(value, marker, length)
    ensures forall k: nat | length < k :: !IsPrefixSuffix(value, marker, k)
  {
    LongestUpTo(value, marker, if |value| < |marker| then |value| else |marker| - 1)
  }

  function LongestUpTo(value: string, marker: string, max: nat): (length: nat)
    requires max < |marker| && max <= |value|
    ensures IsPrefixSuffix(value, marker, length) && length <= max
    ensures forall k: nat | length < k <= max :: !IsPrefixSuffix(value, marker, k)
  {
    if max == 0 || IsPrefixSuffix(value, marker, max) then max
    else LongestUpTo(value, marker, max - 1)
  }

  /** No marker can begin before the held-back suffix, whatever arrives next. */
  lemma NoMarkerBeforeSuffix(text: string, rest: string, marker: string, i: nat)
    requires marker != "" && Find(text, marker).None?
    requires i < |text| - LongestPrefixSuffix(text, marker)
    ensures !OccursAt(text + rest, marker, i)
  {
    if OccursAt(text + rest, marker, i) {
      if i + |marker| <= |text| {
        OccurrenceWasThere(text, rest, marker, i);
        assert false;
      } else {
        var k := |text| - i;
        assert (text + rest)[i..i + |marker|][..k] == (text + rest)[i..|text|] == text[i..];
        assert IsPrefixSuffix(text, marker, k);
        assert false;
      }
    }
  }

  lemma FindAfter(text: string, marker: string, skipped: nat)
    requires marker != "" && skipped <= |text|
    requires forall i: nat | i < skipped :: !OccursAt(text, marker, i)
    ensures Find(text[skipped..], marker).None? <==> Find(text, marker).None?
    ensures Find(text, marker).Some? ==>
      Find(text, marker).value == skipped + Find(text[skipped..], marker).value
  {
    var later := Find(text[skipped..], marker);
    if later.Some? {
      OccursShifted(text, marker, skipped, skipped + later.value);
      forall j: nat | j < skipped + later.value
        ensures !OccursAt(text, marker, j)
      {
        if j >= skipped {
          OccursShifted(text, marker, skipped, j);
        }
      }
      FindIs(text, marker, skipped + later.value);
    } else if Find(text, marker).Some? {
      OccursShifted(text, marker, skipped, Find(text, marker).value);
      assert false;
    }
  }

  /** Text in which no marker can begin can be shown, or dropped, at once. */
  lemma VisibleFromAfter(text: string, inThinking: bool, skipped: nat)
    requires skipped <= |text|
    requires forall i: nat | i < skipped :: !OccursAt(text, Marker(inThinking), i)
    ensures VisibleFrom(text, inThinking)
         == (if inThinking then "" else text[..skipped]) + VisibleFrom(text[skipped..], inThinking)
  {
    hide Marker, Find, VisibleFrom;
    var marker := Marker(inThinking);
    FindAfter(text, marker, skipped);
    var later := Find(text[skipped..], marker);
    if later.Some? {
      MarkerAfter(text, inThinking, skipped, later.value);
    } else {
      NoMarkerLeft(text, inThinking);
      NoMarkerLeft(text[skipped..], inThinking);
      assert text == text[..skipped] + text[skipped..];
    }
  }

  lemma MarkerAfter(text: string, inThinking: bool, skipped: nat, later: nat)
    requires skipped <= |text|
    requires Find(text[skipped..], Marker(inThinking)) == Some(later)
    requires Find(text, Marker(inThinking)) == Some(skipped + later)
    ensures VisibleFrom(text, inThinking)
         == (if inThinking then "" else text[..skipped]) + VisibleFrom(text[skipped..], inThinking)
  {
    hide Marker, Find, VisibleFrom;
    var length := |Marker(inThinking)|;
    var at := skipped + later;
    AtMarker(text, inThinking, at);
    AtMarker(text[skipped..], inThinking, later);
    var rest := text[at + length..];
    assert text[skipped..][later + length..] == rest;
    var tail := VisibleFrom(rest, !inThinking);
    if inThinking {
      assert "" + ("" + tail) == tail;
    } else {
      assert text[..at] == text[..skipped] + text[skipped..][..later];
      assert text[..skipped] + (text[skipped..][..later] + tail) == text[..at] + tail;
    }
  }

  lemma AtMarker(text: string, inThinking: bool, i: nat)
    requires Find(text, Marker(inThinking)) == Some(i)
    ensures VisibleFrom(text, inThinking)
         == (if inThinking then "" else text[..i]) + VisibleFrom(text[i + |Marker(inThinking)|..], !inThinking)
  {
    hide Marker, Find;
  }

  lemma NoMarkerLeft(text: string, inThinking: bool)
    requires Find(text, Marker(inThinking)).None?
    ensures VisibleFrom(text, inThinking) == if inThinking then "" else text
  {
    hide Marker, Find;
  }

  // ---------------------------------------------------------------- one delta

  datatype Drained = Drained(visible: string, pending: string, inThinking: bool)

  /** What one delta makes visible, and what the filter then remembers. */
  function Drain(pending: string, inThinking: bool): Drained
    decreases |pending|
  {
    var marker := Marker(inThinking);
    var found := Find(pending, marker);
    if found.Some? then
      var rest := Drain(pending[found.value + |marker|..], !inThinking);
      rest.(visible := (if inThinking then "" else pending[..found.value]) + rest.visible)
    else
      var cut := |pending| - LongestPrefixSuffix(pending, marker);
      Drained(if inThinking then "" else pending[..cut], pending[cut..], inThinking)
  }

  /** Draining takes nothing from the meaning of the text, whatever follows. */
  lemma {:induction false} DrainKeepsMeaning(pending: string, inThinking: bool, rest: string)
    ensures var d := Drain(pending, inThinking);
            VisibleFrom(pending + rest, inThinking) == d.visible + VisibleFrom(d.pending + rest, d.inThinking)
    decreases |pending|
  {
    hide VisibleFrom, Marker, Find, LongestPrefixSuffix;
    var marker := Marker(inThinking);
    var found := Find(pending, marker);
    if found.Some? {
      var i := found.value;
      var tail := pending[i + |marker|..];
      FindIgnoresWhatFollows(pending, rest, marker);
      assert (pending + rest)[i + |marker|..] == tail + rest;
      assert (pending + rest)[..i] == pending[..i];
      AtMarker(pending + rest, inThinking, i);
      DrainKeepsMeaning(tail, !inThinking, rest);
    } else {
      var cut := |pending| - LongestPrefixSuffix(pending, marker);
      forall i: nat | i < cut
        ensures !OccursAt(pending + rest, marker, i)
      {
        NoMarkerBeforeSuffix(pending, rest, marker, i);
      }
      VisibleFromAfter(pending + rest, inThinking, cut);
      assert (pending + rest)[..cut] == pending[..cut];
      assert (pending + rest)[cut..] == pending[cut..] + rest;
    }
  }

  lemma DrainAtMarker(pending: string, inThinking: bool, i: nat)
    requires Find(pending, Marker(inThinking)) == Some(i)
    ensures var rest := Drain(pending[i + |Marker(inThinking)|..], !inThinking);
            Drain(pending, inThinking)
              == rest.(visible := (if inThinking then "" else pending[..i]) + rest.visible)
  {
    hide Marker, Find, LongestPrefixSuffix;
  }

  lemma DrainNoMarker(pending: string, inThinking: bool)
    requires Find(pending, Marker(inThinking)).None?
    ensures var cut := |pending| - LongestPrefixSuffix(pending, Marker(inThinking));
            Drain(pending, inThinking)
              == Drained(if inThinking then "" else pending[..cut], pending[cut..], inThinking)
  {
    hide Marker, Find, LongestPrefixSuffix;
  }

  lemma DrainNothing(inThinking: bool)
    ensures Drain("", inThinking) == Drained("", "", inThinking)
  {
  }

  /** The state between two deltas: exactly a proper prefix of the marker is held back. */
  predicate Settled(pending: string, inThinking: bool) {
    |pending| < |Marker(inThinking)| && pending == Marker(inThinking)[..|pending|]
  }

  lemma {:induction false} DrainSettles(pending: string, inThinking: bool)
    ensures var d := Drain(pending, inThinking); Settled(d.pending, d.inThinking)
    decreases |pending|
  {
    hide Marker, Find, LongestPrefixSuffix;
    var marker := Marker(inThinking);
    var found := Find(pending, marker);
    if found.Some? {
      DrainSettles(pending[found.value + |marker|..], !inThinking);
    }
  }

  /** Draining again without new text changes nothing. */
  lemma SettledDrains(pending: string, inThinking: bool)
    requires Settled(pending, inThinking)
    ensures Drain(pending, inThinking) == Drained("", pending, inThinking)
  {
    hide Marker, Find, LongestPrefixSuffix;
    var marker := Marker(inThinking);
    assert Find(pending, marker).None?;
    assert IsPrefixSuffix(pending, marker, |pending|);
    assert LongestPrefixSuffix(pending, marker) == |pending|;
  }

  // ---------------------------------------------------------------- a whole stream

  function Flushed(pending: string, inThinking: bool): string {
    if inThinking then "" else pending
  }

  /** Everything a stream of deltas makes visible, the final flush included. */
  function FilterAll(deltas: seq<string>, pending: string, inThinking: bool): string {
    if deltas == [] then Flushed(pending, inThinking)
    else
      var d := Drain(pending + deltas[0], inThinking);
      d.visible + FilterAll(deltas[1..], d.pending, d.inThinking)
  }

  lemma SettledIsAllText(pending: string, inThinking: bool)
    requires Settled(pending, inThinking)
    ensures VisibleFrom(pending, inThinking) == Flushed(pending, inThinking)
  {
    hide Marker;
    assert Find(pending, Marker(inThinking)).None?;
  }

  lemma {:induction false} FilterAllKeepsMeaning(deltas: seq<string>, pending: string, inThinking: bool)
    requires Settled(pending, inThinking)
    ensures FilterAll(deltas, pending, inThinking) == VisibleFrom(pending + Concat(deltas), inThinking)
  {
    hide Drain, Settled, Marker, Find;
    if deltas == [] {
      assert pending + Concat(deltas) == pending;
      SettledIsAllText(pending, inThinking);
    } else {
      var rest := Concat(deltas[1..]);
      var d := Drain(pending + deltas[0], inThinking);
      DrainKeepsMeaning(pending + deltas[0], inThinking, rest);
      DrainSettles(pending + deltas[0], inThinking);
      FilterAllKeepsMeaning(deltas[1..], d.pending, d.inThinking);
      assert pending + Concat(deltas) == pending + deltas[0] + rest;
    }
  }

  /** Cut independence: however the provider cuts the text into deltas, the visible pieces and the
      final flush join to the text without its thinking spans. */
  lemma CutIndependence(deltas: seq<string>)
    ensures FilterAll(deltas, "", false) == WithoutThinking(Concat(deltas))
  {
    FilterAllKeepsMeaning(deltas, "", false);
    assert "" + Concat(deltas) == Concat(deltas);
    VisibleFromStart(Concat(deltas));
  }

  // ---------------------------------------------------------------- the code

  class Filter {
    var pending: string
    var inThinking: bool

    constructor ()
      ensures pending == "" && !inThinking
    {
      pending, inThinking := "", false;
    }

    /** The nested helper of the filter: tries the longest prefix first. */
    static method ComputeLongestPrefixSuffix(value: string, marker: string) returns (length: nat)
      requires marker != ""
      ensures length == LongestPrefixSuffix(value, marker)
    {
      var maxLen := if |value| < |marker| - 1 then |value| else |marker| - 1;
      length := maxLen;
      while length > 0
        invariant length <= maxLen
        invariant LongestPrefixSuffix(value, marker) <= length
      {
        if |value| >= length && value[|value| - length..] == marker[..length] {
          assert IsPrefixSuffix(value, marker, length);
          return;
        }
        assert !IsPrefixSuffix(value, marker, length);
        length := length - 1;
      }
    }

    /** The end of the loop, when no complete tag is left: shows or drops all but a possible start of
        one. */
    static method HoldBack(buffer: string, thinking: bool, shown: seq<string>)
      returns (held: string, all: seq<string>)
      requires Find(buffer, Marker(thinking)).None?
      ensures var d := Drain(buffer, thinking);
              d == Drained(d.visible, held, thinking) && Concat(all) == Concat(shown) + d.visible
    {
      hide Drain, Find, Marker, LongestPrefixSuffix, Concat;
      DrainNoMarker(buffer, thinking);
      var length := ComputeLongestPrefixSuffix(buffer, Marker(thinking));
      var cut := |buffer| - length;
      held := buffer[cut..];
      all := shown;
      if thinking {
        assert Concat(shown) + "" == Concat(shown);
      } else {
        ConcatAppend(shown, [buffer[..cut]]);
        ConcatOne(buffer[..cut]);
        all := shown + [buffer[..cut]];
      }
    }

    method FilterDelta(delta: string) returns (visible: string)
      modifies this
      ensures Drained(visible, pending, inThinking) == Drain(old(pending) + delta, old(inThinking))
    {
      hide Drain, Find, Marker, LongestPrefixSuffix, Concat;
      var buffer := pending + delta;
      var thinking := inThinking;
      var shown: seq<string> := [];
      ConcatNone();
      ghost var whole := Drain(buffer, thinking);
      while buffer != ""
        invariant whole == Drain(buffer, thinking).(visible := Concat(shown) + Drain(buffer, thinking).visible)
        decreases |buffer|
      {
        var marker := Marker(thinking);
        var at := Find(buffer, marker);
        if at.Some? {
          DrainAtMarker(buffer, thinking, at.value);
          if !thinking {
            ConcatAppend(shown, [buffer[..at.value]]);
            ConcatOne(buffer[..at.value]);
            shown := shown + [buffer[..at.value]];
          }
          buffer := buffer[at.value + |marker|..];
          thinking := !thinking;
          continue;
        }
        buffer, shown := HoldBack(buffer, thinking, shown);
        break;
      }
      DrainNothing(thinking);
      assert whole == Drained(Concat(shown), buffer, thinking);
      pending, inThinking := buffer, thinking;
      visible := Concat(shown);
    }

    method Flush() returns (visible: string)
      modifies this
      ensures visible == Flushed(old(pending), old(inThinking))
      ensures pending == "" && inThinking == old(inThinking)
    {
      if inThinking {
        pending := "";
        return "";
      }
      visible := pending;
      pending := "";
    }
  }

  /** Yields a token event unless there is nothing to show. */
  method Send(tokens: seq<string>, piece: string) returns (sent: seq<string>)
    requires "" !in tokens
    ensures Concat(sent) == Concat(tokens) + piece && "" !in sent
  {
    sent := tokens;
    if piece != "" {
      ConcatAppend(tokens, [piece]);
      sent := tokens + [piece];
    }
  }

  lemma FilterAllNext(deltas: seq<string>, k: nat, pending: string, inThinking: bool)
    requires k < |deltas|
    ensures var d := Drain(pending + deltas[k], inThinking);
            FilterAll(deltas[k..], pending, inThinking)
              == d.visible + FilterAll(deltas[k + 1..], d.pending, d.inThinking)
  {
    assert deltas[k..][1..] == deltas[k + 1..];
  }

  /** The token loop of `stream_query_response`: empty deltas and empty results send no event. */
  method StreamTokens(deltas: seq<string>) returns (tokens: seq<string>)
    ensures Concat(tokens) == WithoutThinking(Concat(deltas))
    ensures "" !in tokens
  {
    hide Drain, Marker, WithoutThinking, Settled, FilterAll;
    var filter := new Filter();
    EmptyIsSettled();
    tokens := [];
    ghost var whole := FilterAll(deltas, "", false);
    assert deltas[0..] == deltas;
    for k := 0 to |deltas|
      invariant whole == Concat(tokens) + FilterAll(deltas[k..], filter.pending, filter.inThinking)
      invariant Settled(filter.pending, filter.inThinking)
      invariant "" !in tokens
    {
      FilterAllNext(deltas, k, filter.pending, filter.inThinking);
      if deltas[k] == "" {
        assert filter.pending + "" == filter.pending;
        SettledDrains(filter.pending, filter.inThinking);
        continue;
      }
      DrainSettles(filter.pending + deltas[k], filter.inThinking);
      var visible := filter.FilterDelta(deltas[k]);
      tokens := Send(tokens, visible);
    }
    NoDeltasLeft(filter.pending, filter.inThinking);
    assert deltas[|deltas|..] == [];
    var trailing := filter.Flush();
    tokens := Send(tokens, trailing);
    CutIndependence(deltas);
  }

  lemma NoDeltasLeft(pending: string, inThinking: bool)
    ensures FilterAll([], pending, inThinking) == Flushed(pending, inThinking)
  {
  }

  lemma EmptyIsSettled()
    ensures Settled("", false)
  {
  }
}
