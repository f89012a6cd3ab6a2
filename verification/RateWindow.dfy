/** One sliding window of src/core/ratelimit/limiter.py, and what its totals mean for the full history
    of events.  Times are exact reals. */
module RateWindow {

  datatype Scope = Scope(service: string, tenant: string)

  /** An entry of the deque. */
  datatype Event = Event(at: real, amount: nat)

  ghost predicate Sorted(events: seq<Event>) {
    forall i, j | 0 <= i < j < |events| :: events[i].at <= events[j].at
  }

  function Total(events: seq<Event>): nat {
    if events == [] then 0 else events[0].amount + Total(events[1..])
  }

  /** `clean_expired`: pops from the left while the oldest entry has expired. */
  function Unexpired(events: seq<Event>, cutoff: real): seq<Event> {
    if events != [] && events[0].at <= cutoff then Unexpired(events[1..], cutoff) else events
  }

  /** What happened after `low`. */
  function SumAfter(events: seq<Event>, low: real): nat {
    if events == [] then 0
    else (if events[0].at > low then events[0].amount else 0) + SumAfter(events[1..], low)
  }

  /** What happened in the half-open interval of length `size` that ends at `x`. */
  function InWindow(events: seq<Event>, x: real, size: real): nat {
    if events == [] then 0
    else (if x - size < events[0].at <= x then events[0].amount else 0) + InWindow(events[1..], x, size)
  }

  // ---------------------------------------------------------------- sums

  lemma {:induction false} TotalAppend(first: seq<Event>, second: seq<Event>)
    ensures Total(first + second) == Total(first) + Total(second)
  {
    if first == [] {
      assert first + second == second;
    } else {
      assert (first + second)[1..] == first[1..] + second;
      TotalAppend(first[1..], second);
    }
  }

  lemma {:induction false} SumAfterAppend(first: seq<Event>, second: seq<Event>, low: real)
    ensures SumAfter(first + second, low) == SumAfter(first, low) + SumAfter(second, low)
  {
    if first == [] {
      assert first + second == second;
    } else {
      assert (first + second)[1..] == first[1..] + second;
      SumAfterAppend(first[1..], second, low);
    }
  }

  lemma {:induction false} InWindowAppend(first: seq<Event>, second: seq<Event>, x: real, size: real)
    ensures InWindow(first + second, x, size) == InWindow(first, x, size) + InWindow(second, x, size)
  {
    if first == [] {
      assert first + second == second;
    } else {
      assert (first + second)[1..] == first[1..] + second;
      InWindowAppend(first[1..], second, x, size);
    }
  }

  lemma {:induction false} SumAfterExpired(events: seq<Event>, low: real)
    requires forall i | 0 <= i < |events| :: events[i].at <= low
    ensures SumAfter(events, low) == 0
  {
    if events != [] {
      SumAfterExpired(events[1..], low);
    }
  }

  lemma {:induction false} SumAfterAll(events: seq<Event>, low: real)
    requires forall i | 0 <= i < |events| :: events[i].at > low
    ensures SumAfter(events, low) == Total(events)
  {
    if events != [] {
      SumAfterAll(events[1..], low);
    }
  }

  lemma {:induction false} SumAfterShrinks(events: seq<Event>, low: real, later: real)
    requires low <= later
    ensures SumAfter(events, later) <= SumAfter(events, low)
  {
    if events != [] {
      SumAfterShrinks(events[1..], low, later);
    }
  }

  lemma {:induction false} WindowIsSumAfter(events: seq<Event>, x: real, size: real)
    requires forall i | 0 <= i < |events| :: events[i].at <= x
    ensures InWindow(events, x, size) == SumAfter(events, x - size)
  {
    if events != [] {
      WindowIsSumAfter(events[1..], x, size);
    }
  }

  lemma {:induction false} UnexpiredIsSuffix(events: seq<Event>, cutoff: real) returns (k: nat)
    ensures k <= |events| && Unexpired(events, cutoff) == events[k..]
    ensures forall i | 0 <= i < k :: events[i].at <= cutoff
    ensures k < |events| ==> events[k].at > cutoff
  {
    if events != [] && events[0].at <= cutoff {
      var rest := UnexpiredIsSuffix(events[1..], cutoff);
      k := rest + 1;
      assert events[1..][rest..] == events[k..];
      assert forall i | 1 <= i < k :: events[i] == events[1..][i - 1];
    } else {
      k := 0;
    }
  }

  // ---------------------------------------------------------------- the bound over the full history

  /** The promise: at no instant do the events of one window length exceed the limit. */
  ghost predicate NeverExceeds(history: seq<Event>, limit: nat, size: real) {
    forall x: real :: InWindow(history, x, size) <= limit
  }

  /** An event admitted while the unexpired total leaves room keeps the promise at every instant. */
  lemma AdmitKeepsBound(history: seq<Event>, limit: nat, size: real, now: real, amount: nat)
    requires size > 0.0 && NeverExceeds(history, limit, size)
    requires forall i | 0 <= i < |history| :: history[i].at <= now
    requires SumAfter(history, now - size) + amount <= limit
    ensures NeverExceeds(history + [Event(now, amount)], limit, size)
  {
    forall x: real
      ensures InWindow(history + [Event(now, amount)], x, size) <= limit
    {
      AdmitKeepsBoundAt(history, limit, size, now, amount, x);
    }
  }

  lemma AdmitKeepsBoundAt(history: seq<Event>, limit: nat, size: real, now: real, amount: nat, x: real)
    requires size > 0.0 && InWindow(history, x, size) <= limit
    requires forall i | 0 <= i < |history| :: history[i].at <= now
    requires SumAfter(history, now - size) + amount <= limit
    ensures InWindow(history + [Event(now, amount)], x, size) <= limit
  {
    InWindowAppend(history, [Event(now, amount)], x, size);
    assert [Event(now, amount)][1..] == [];
    if x >= now {
      WindowIsSumAfter(history, x, size);
      SumAfterShrinks(history, now - size, x - size);
    }
  }

  // ---------------------------------------------------------------- waiting

  function AtLeast(low: real, value: real): real {
    if value < low then low else value
  }

  /** The loop of `time_until_available`: the first entry at which enough has been freed. */
  function WaitFrom(events: seq<Event>, toFree: int, now: real, size: real): real {
    if events == [] then size
    else if events[0].amount >= toFree then AtLeast(0.01, events[0].at + size - now)
    else WaitFrom(events[1..], toFree - events[0].amount, now, size)
  }

  /** `time_until_available`, after cleaning. */
  function WaitTime(events: seq<Event>, now: real, limit: nat, needed: nat, size: real): real {
    if Total(events) + needed <= limit then 0.0
    else WaitFrom(events, Total(events) + needed - limit, now, size)
  }

  /** The index at which the loop stops: it is never past the end when `toFree` fits into the total. */
  lemma {:induction false} WaitStopsAt(events: seq<Event>, toFree: int, now: real, size: real) returns (k: nat)
    requires 0 < toFree <= Total(events)
    ensures k < |events|
    ensures WaitFrom(events, toFree, now, size) == AtLeast(0.01, events[k].at + size - now)
    ensures Total(events[..k]) < toFree <= Total(events[..k + 1])
  {
    if events[0].amount >= toFree {
      k := 0;
      assert events[..1][1..] == [];
    } else {
      var rest := WaitStopsAt(events[1..], toFree - events[0].amount, now, size);
      k := rest + 1;
      assert events[..k][1..] == events[1..][..rest];
      assert events[..k + 1][1..] == events[1..][..rest + 1];
    }
  }

  /** At instant `t`, if nothing else arrives, `needed` fits under the limit. */
  predicate RoomAt(events: seq<Event>, t: real, limit: nat, needed: nat, size: real) {
    SumAfter(events, t - size) + needed <= limit
  }

  /** Exact waiting.  With no new event, the window has room after the wait, and before it has not
      (apart from the floor of a hundredth of a second). */
  lemma WaitIsExact(events: seq<Event>, now: real, limit: nat, needed: nat, size: real)
    requires Sorted(events) && size > 0.0 && needed <= limit
    requires forall i | 0 <= i < |events| :: now - size < events[i].at <= now
    ensures var wait := WaitTime(events, now, limit, needed, size);
            && (wait == 0.0 <==> Total(events) + needed <= limit)
            && (wait != 0.0 ==> 0.01 <= wait <= AtLeast(0.01, size))
            && RoomAt(events, now + wait, limit, needed, size)
            && (wait > 0.01 ==> forall t | now <= t < now + wait :: !RoomAt(events, t, limit, needed, size))
  {
    var wait := WaitTime(events, now, limit, needed, size);
    if Total(events) + needed <= limit {
      SumAfterAll(events, now - size);
    } else {
      var toFree := Total(events) + needed - limit;
      var k := WaitStopsAt(events, toFree, now, size);
      FreedBy(events, k, now + wait - size);
      forall t | wait > 0.01 && now <= t < now + wait
        ensures !RoomAt(events, t, limit, needed, size)
      {
        KeptUntil(events, k, t - size);
      }
    }
  }

  /** From the expiry of entry k on, the first k + 1 entries no longer count. */
  lemma FreedBy(events: seq<Event>, k: nat, low: real)
    requires Sorted(events) && k < |events| && events[k].at <= low
    ensures SumAfter(events, low) + Total(events[..k + 1]) <= Total(events)
  {
    assert events == events[..k + 1] + events[k + 1..];
    SumAfterAppend(events[..k + 1], events[k + 1..], low);
    SumAfterExpired(events[..k + 1], low);
    TotalAppend(events[..k + 1], events[k + 1..]);
    SumAtMostTotal(events[k + 1..], low);
  }

  /** Before the expiry of entry k, at most the first k entries have stopped counting. */
  lemma KeptUntil(events: seq<Event>, k: nat, low: real)
    requires Sorted(events) && k < |events| && low < events[k].at
    ensures SumAfter(events, low) + Total(events[..k]) >= Total(events)
  {
    assert events == events[..k] + events[k..];
    SumAfterAppend(events[..k], events[k..], low);
    SumAfterAll(events[k..], low);
    TotalAppend(events[..k], events[k..]);
  }

  lemma {:induction false} SumAtMostTotal(events: seq<Event>, low: real)
    ensures SumAfter(events, low) <= Total(events)
  {
    if events != [] {
      SumAtMostTotal(events[1..], low);
    }
  }

  // ---------------------------------------------------------------- the code

  class SlidingWindow {
    const windowSize: real
    var events: seq<Event>

    /** Whose events these are, and whether they count tokens or requests. */
    ghost const owner: Scope
    ghost const countsTokens: bool

    constructor (windowSize: real, ghost owner: Scope, ghost countsTokens: bool)
      ensures this.windowSize == windowSize && events == []
      ensures this.owner == owner && this.countsTokens == countsTokens
    {
      this.windowSize := windowSize;
      this.owner, this.countsTokens := owner, countsTokens;
      events := [];
    }

    method CleanExpired(now: real)
      modifies this
      ensures events == Unexpired(old(events), now - windowSize)
    {
      var cutoff := now - windowSize;
      while events != [] && events[0].at <= cutoff
        invariant Unexpired(events, cutoff) == Unexpired(old(events), cutoff)
        decreases |events|
      {
        events := events[1..];
      }
    }

    /** `sum(item[1] for item in self.events)` */
    method Sum() returns (total: nat)
      ensures total == Total(events)
    {
      total := 0;
      for k := 0 to |events|
        invariant total + Total(events[k..]) == Total(events)
      {
        assert events[k..][1..] == events[k + 1..];
        total := total + events[k].amount;
      }
    }

    method GetTotal(now: real) returns (total: nat)
      modifies this
      ensures events == Unexpired(old(events), now - windowSize)
      ensures total == Total(events)
    {
      CleanExpired(now);
      total := Sum();
    }

    method AddEvent(now: real, amount: nat)
      modifies this
      ensures events == Unexpired(old(events), now - windowSize) + [Event(now, amount)]
    {
      CleanExpired(now);
      events := events + [Event(now, amount)];
    }

    method TimeUntilAvailable(now: real, limit: nat, needed: nat) returns (wait: real)
      modifies this
      ensures events == Unexpired(old(events), now - windowSize)
      ensures wait == WaitTime(events, now, limit, needed, windowSize)
    {
      CleanExpired(now);
      var currentTotal := Sum();
      if currentTotal + needed <= limit {
        return 0.0;
      }
      var neededFreed := currentTotal + needed - limit;
      var freed := 0;
      for k := 0 to |events|
        invariant WaitFrom(events, neededFreed, now, windowSize)
               == WaitFrom(events[k..], neededFreed - freed, now, windowSize)
        invariant freed < neededFreed
      {
        assert events[k..][0] == events[k] && events[k..][1..] == events[k + 1..];
        freed := freed + events[k].amount;
        if freed >= neededFreed {
          return AtLeast(0.01, events[k].at + windowSize - now);
        }
      }
      return windowSize;
    }
  }
}
