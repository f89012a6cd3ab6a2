/** The dual sliding-window limiter of src/core/ratelimit/limiter.py.  Its promise is stated over the
    history of all grants ever made, although it only keeps the unexpired ones, and forgets whole
    scopes when it runs out of room for new ones. */
module RateLimiter {
  import opened RateWindow
  import opened Sets

  datatype Request = Request(scope: Scope, tokens: nat)

  datatype Decision = Granted | Wait(seconds: real) | ScopesExhausted

  datatype Outcome = Acquired | BudgetTooLarge | NoScope | Unavailable | TimedOut(needed: real)

  /** The same grants, counted as requests. */
  function Ones(grants: seq<Event>): (ones: seq<Event>)
    ensures |ones| == |grants|
    ensures forall i | 0 <= i < |grants| :: ones[i] == Event(grants[i].at, 1)
  {
    seq(|grants|, i requires 0 <= i < |grants| => Event(grants[i].at, 1))
  }

  /** A window that holds everything of the history that has not expired. */
  ghost predicate Remembers(window: seq<Event>, history: seq<Event>, now: real, size: real) {
    && |window| <= |history|
    && window == history[|history| - |window|..]
    && forall i | 0 <= i < |history| - |window| :: history[i].at <= now - size
  }

  ghost predicate UpTo(history: seq<Event>, now: real) {
    Sorted(history) && forall i | 0 <= i < |history| :: history[i].at <= now
  }

  ghost predicate Within(window: seq<Event>, now: real, size: real) {
    forall i | 0 <= i < |window| :: now - size < window[i].at <= now
  }

  lemma KeptSum(history: seq<Event>, m: nat, low: real)
    requires m <= |history|
    requires forall i | 0 <= i < m :: history[i].at <= low
    requires forall i | m <= i < |history| :: history[i].at > low
    ensures Total(history[m..]) == SumAfter(history, low)
  {
    assert history == history[..m] + history[m..];
    SumAfterAppend(history[..m], history[m..], low);
    SumAfterExpired(history[..m], low);
    SumAfterAll(history[m..], low);
  }

  /** How much of the history a cleaned window leaves out. */
  lemma CleanCut(window: seq<Event>, history: seq<Event>, now: real, size: real) returns (m: nat)
    requires Remembers(window, history, now, size)
    ensures m <= |history| && Unexpired(window, now - size) == history[m..]
    ensures forall i | 0 <= i < m :: history[i].at <= now - size
    ensures m < |history| ==> history[m].at > now - size
  {
    var k := UnexpiredIsSuffix(window, now - size);
    var cut := |history| - |window|;
    m := cut + k;
    assert window[k..] == history[m..];
    forall i | cut <= i < m
      ensures history[i].at <= now - size
    {
      assert history[i] == window[i - cut];
    }
    if m < |history| {
      assert history[m] == window[k];
    }
  }

  /** What a cleaned window knows is all that matters. */
  lemma CleanRemembers(window: seq<Event>, history: seq<Event>, now: real, size: real)
    requires Remembers(window, history, now, size) && UpTo(history, now)
    ensures Remembers(Unexpired(window, now - size), history, now, size)
    ensures Within(Unexpired(window, now - size), now, size)
    ensures Sorted(Unexpired(window, now - size))
    ensures Total(Unexpired(window, now - size)) == SumAfter(history, now - size)
  {
    hide Total, SumAfter, Unexpired;
    var m := CleanCut(window, history, now, size);
    KeptSum(history, m, now - size);
  }

  lemma OnesUpTo(history: seq<Event>, now: real)
    requires UpTo(history, now)
    ensures UpTo(Ones(history), now)
  {
  }

  lemma OnesAppend(history: seq<Event>, e: Event)
    ensures Ones(history + [e]) == Ones(history) + [Event(e.at, 1)]
  {
  }

  lemma AppendRemembers(window: seq<Event>, history: seq<Event>, e: Event, now: real, size: real)
    requires Remembers(window, history, now, size)
    ensures Remembers(window + [e], history + [e], now, size)
  {
  }

  /** What is known about one scope, whether its windows exist or not. */
  ghost predicate ScopeOk(history: seq<Event>, now: real, size: real, maxRpm: nat, maxTpm: nat) {
    && UpTo(history, now)
    && NeverExceeds(Ones(history), maxRpm, size)
    && NeverExceeds(history, maxTpm, size)
  }

  lemma EmptyScopeOk(now: real, size: real, maxRpm: nat, maxTpm: nat)
    ensures ScopeOk([], now, size, maxRpm, maxTpm)
  {
    assert Ones([]) == [];
  }

  lemma ScopeOkLater(history: seq<Event>, before: real, now: real, size: real, maxRpm: nat, maxTpm: nat)
    requires ScopeOk(history, before, size, maxRpm, maxTpm) && before <= now
    ensures ScopeOk(history, now, size, maxRpm, maxTpm)
  {
  }

  lemma GrantKeepsScope(history: seq<Event>, now: real, size: real, maxRpm: nat, maxTpm: nat, tokens: nat)
    requires ScopeOk(history, now, size, maxRpm, maxTpm) && size > 0.0
    requires SumAfter(Ones(history), now - size) + 1 <= maxRpm
    requires SumAfter(history, now - size) + tokens <= maxTpm
    ensures ScopeOk(history + [Event(now, tokens)], now, size, maxRpm, maxTpm)
  {
    OnesAppend(history, Event(now, tokens));
    AdmitKeepsBound(Ones(history), maxRpm, size, now, 1);
    AdmitKeepsBound(history, maxTpm, size, now, tokens);
  }

  // ---------------------------------------------------------------- the limiter as a value

  datatype Limits = Limits(maxRpm: nat, maxTpm: nat, size: real, maxScopes: nat)

  /** The constructor raises `ValueError` for anything else. */
  predicate PositiveLimits(limits: Limits) {
    limits.maxRpm > 0 && limits.maxTpm > 0 && limits.size > 0.0 && limits.maxScopes > 0
  }

  datatype Windows = Windows(rpm: seq<Event>, tpm: seq<Event>)

  /** The windows kept in memory beside the history of every grant ever made. */
  datatype Ledger = Ledger(windows: map<Scope, Windows>, history: map<Scope, seq<Event>>)

  function HistoryOf(l: Ledger, scope: Scope): seq<Event> {
    if scope in l.history then l.history[scope] else []
  }

  /** Nothing of the history matters any more. */
  ghost predicate Forgettable(history: seq<Event>, now: real, size: real) {
    forall i | 0 <= i < |history| :: history[i].at <= now - size
  }

  /** The token window remembers the history, and the request window mirrors it, stamp by stamp. */
  ghost predicate WindowsOk(w: Windows, history: seq<Event>, now: real, size: real) {
    Remembers(w.tpm, history, now, size) && w.rpm == Ones(w.tpm)
  }

  ghost predicate LedgerOk(l: Ledger, limits: Limits, now: real) {
    && PositiveLimits(limits)
    && |l.windows| <= limits.maxScopes
    && (forall s | s in l.windows :: WindowsOk(l.windows[s], HistoryOf(l, s), now, limits.size))
    && (forall s :: ScopeOk(HistoryOf(l, s), now, limits.size, limits.maxRpm, limits.maxTpm))
    && (forall s | s !in l.windows :: Forgettable(HistoryOf(l, s), now, limits.size))
  }

  /** `not window.events or window.events[-1][0] <= current_time - window_size` */
  predicate IsStale(window: seq<Event>, now: real, size: real) {
    window == [] || window[|window| - 1].at <= now - size
  }

  function Stale(l: Ledger, now: real, size: real): set<Scope> {
    set s | s in l.windows && IsStale(l.windows[s].rpm, now, size)
  }

  /** `_get_or_create_windows`.  Stale scopes are dropped even when there is still no room after it. */
  function Opened(l: Ledger, limits: Limits, scope: Scope, now: real): Ledger {
    if scope in l.windows then l
    else
      var kept := if |l.windows| >= limits.maxScopes then l.(windows := l.windows - Stale(l, now, limits.size)) else l;
      if |kept.windows| >= limits.maxScopes then kept
      else kept.(windows := kept.windows[scope := Windows([], [])])
  }

  /** Both windows are cleaned; then either the grant is recorded or the wait is computed. */
  function DecidedWindows(before: Windows, limits: Limits, tokens: nat, now: real): (Windows, Decision) {
    var cutoff := now - limits.size;
    var w := Windows(Unexpired(before.rpm, cutoff), Unexpired(before.tpm, cutoff));
    if Total(w.rpm) + 1 <= limits.maxRpm && Total(w.tpm) + tokens <= limits.maxTpm then
      (Windows(w.rpm + [Event(now, 1)], w.tpm + [Event(now, tokens)]), Granted)
    else
      (w,
       Wait(AtLeast(WaitTime(w.rpm, now, limits.maxRpm, 1, limits.size),
                    WaitTime(w.tpm, now, limits.maxTpm, tokens, limits.size))))
  }

  /** The critical section once the windows of the scope exist. */
  function Decided(l: Ledger, limits: Limits, scope: Scope, tokens: nat, now: real): (Ledger, Decision)
    requires scope in l.windows
  {
    var (w, decision) := DecidedWindows(l.windows[scope], limits, tokens, now);
    var history := if decision.Granted? then l.history[scope := HistoryOf(l, scope) + [Event(now, tokens)]] else l.history;
    (Ledger(l.windows[scope := w], history), decision)
  }

  function Tried(l: Ledger, limits: Limits, request: Request, now: real): (Ledger, Decision) {
    var ready := Opened(l, limits, request.scope, now);
    if request.scope !in ready.windows then (ready, ScopesExhausted)
    else Decided(ready, limits, request.scope, request.tokens, now)
  }

  // ---------------------------------------------------------------- the bound is kept

  lemma WindowsOkLater(w: Windows, history: seq<Event>, before: real, now: real, size: real)
    requires WindowsOk(w, history, before, size) && before <= now
    ensures WindowsOk(w, history, now, size)
  {
  }

  lemma ForgettableLater(history: seq<Event>, before: real, now: real, size: real)
    requires Forgettable(history, before, size) && before <= now
    ensures Forgettable(history, now, size)
  {
  }

  lemma LedgerOkLater(l: Ledger, limits: Limits, before: real, now: real)
    requires LedgerOk(l, limits, before) && before <= now
    ensures LedgerOk(l, limits, now)
  {
    hide ScopeOk, WindowsOk, Forgettable;
    forall s | s in l.windows
      ensures WindowsOk(l.windows[s], HistoryOf(l, s), now, limits.size)
    {
      WindowsOkLater(l.windows[s], HistoryOf(l, s), before, now, limits.size);
    }
    forall s
      ensures ScopeOk(HistoryOf(l, s), now, limits.size, limits.maxRpm, limits.maxTpm)
    {
      ScopeOkLater(HistoryOf(l, s), before, now, limits.size, limits.maxRpm, limits.maxTpm);
    }
    forall s | s !in l.windows
      ensures Forgettable(HistoryOf(l, s), now, limits.size)
    {
      ForgettableLater(HistoryOf(l, s), before, now, limits.size);
    }
  }

  /** A scope is only forgotten when its whole history has expired. */
  lemma StaleIsForgettable(w: Windows, history: seq<Event>, now: real, size: real)
    requires WindowsOk(w, history, now, size) && UpTo(history, now) && IsStale(w.rpm, now, size)
    ensures Forgettable(history, now, size)
  {
    var cut := |history| - |w.tpm|;
    forall i | 0 <= i < |history|
      ensures history[i].at <= now - size
    {
      if i >= cut {
        assert w.rpm[|w.rpm| - 1].at == w.tpm[|w.tpm| - 1].at == history[|history| - 1].at;
      }
    }
  }

  lemma OpenKeepsLedger(l: Ledger, limits: Limits, scope: Scope, now: real)
    requires LedgerOk(l, limits, now)
    ensures LedgerOk(Opened(l, limits, scope, now), limits, now)
    ensures Opened(l, limits, scope, now).history == l.history
  {
    hide LedgerOk, Stale;
    if scope !in l.windows {
      PruneKeepsLedger(l, limits, now);
      var kept := if |l.windows| >= limits.maxScopes then l.(windows := l.windows - Stale(l, now, limits.size)) else l;
      if |kept.windows| < limits.maxScopes {
        AddScopeKeepsLedger(kept, limits, scope, now);
      }
    }
  }

  lemma ScopeIsUpTo(history: seq<Event>, now: real, size: real, maxRpm: nat, maxTpm: nat)
    requires ScopeOk(history, now, size, maxRpm, maxTpm)
    ensures UpTo(history, now)
  {
  }

  lemma PruneKeepsLedger(l: Ledger, limits: Limits, now: real)
    requires LedgerOk(l, limits, now)
    ensures LedgerOk(l.(windows := l.windows - Stale(l, now, limits.size)), limits, now)
  {
    hide ScopeOk, WindowsOk, Forgettable, IsStale;
    var kept := l.(windows := l.windows - Stale(l, now, limits.size));
    FewerKeys(l.windows, Stale(l, now, limits.size));
    forall s | s !in kept.windows
      ensures Forgettable(HistoryOf(kept, s), now, limits.size)
    {
      assert HistoryOf(kept, s) == HistoryOf(l, s);
      if s in l.windows {
        ScopeIsUpTo(HistoryOf(l, s), now, limits.size, limits.maxRpm, limits.maxTpm);
        StaleIsForgettable(l.windows[s], HistoryOf(l, s), now, limits.size);
      }
    }
    assert forall s :: HistoryOf(kept, s) == HistoryOf(l, s);
  }

  lemma FewerKeys<K, V>(m: map<K, V>, gone: set<K>)
    ensures |m - gone| <= |m|
  {
    assert (m - gone).Keys <= m.Keys;
    SubsetSize((m - gone).Keys, m.Keys);
    assert |m - gone| == |(m - gone).Keys| && |m| == |m.Keys|;
  }

  lemma AddScopeKeepsLedger(l: Ledger, limits: Limits, scope: Scope, now: real)
    requires LedgerOk(l, limits, now) && scope !in l.windows && |l.windows| < limits.maxScopes
    ensures LedgerOk(l.(windows := l.windows[scope := Windows([], [])]), limits, now)
  {
    hide ScopeOk, WindowsOk, Forgettable;
    var l' := l.(windows := l.windows[scope := Windows([], [])]);
    EmptyWindowsOk(HistoryOf(l, scope), now, limits.size);
    assert |l'.windows| == |l.windows| + 1 by {
      assert l'.windows.Keys == l.windows.Keys + {scope};
      assert |l'.windows| == |l'.windows.Keys| && |l.windows| == |l.windows.Keys|;
    }
    assert forall s :: HistoryOf(l', s) == HistoryOf(l, s);
  }

  lemma EmptyWindowsOk(history: seq<Event>, now: real, size: real)
    requires Forgettable(history, now, size)
    ensures WindowsOk(Windows([], []), history, now, size)
  {
    assert Ones([]) == [];
  }

  /** After cleaning, both windows add up to what the history says about the last window length. */
  lemma CleanWindowsOk(w: Windows, history: seq<Event>, now: real, size: real)
    requires WindowsOk(w, history, now, size) && UpTo(history, now)
    ensures var cleaned := Windows(Unexpired(w.rpm, now - size), Unexpired(w.tpm, now - size));
            && WindowsOk(cleaned, history, now, size)
            && Sorted(cleaned.tpm) && Within(cleaned.tpm, now, size)
            && Total(cleaned.tpm) == SumAfter(history, now - size)
            && Total(cleaned.rpm) == SumAfter(Ones(history), now - size)
  {
    hide Total, SumAfter, Remembers, UpTo, Within, Sorted;
    CleanRemembers(w.tpm, history, now, size);
    OnesUpTo(history, now);
    OnesRemember(w.tpm, history, now, size);
    CleanRemembers(w.rpm, Ones(history), now, size);
    UnexpiredOnes(w.tpm, now - size);
  }

  lemma OnesRemember(window: seq<Event>, history: seq<Event>, now: real, size: real)
    requires Remembers(window, history, now, size)
    ensures Remembers(Ones(window), Ones(history), now, size)
  {
  }

  lemma {:induction false} UnexpiredOnes(window: seq<Event>, cutoff: real)
    ensures Unexpired(Ones(window), cutoff) == Ones(Unexpired(window, cutoff))
  {
    if window != [] && window[0].at <= cutoff {
      assert Ones(window)[1..] == Ones(window[1..]);
      UnexpiredOnes(window[1..], cutoff);
    }
  }

  lemma UpdateScopeKeepsLedger(l: Ledger, limits: Limits, scope: Scope, w: Windows, history: seq<Event>, now: real)
    requires LedgerOk(l, limits, now) && scope in l.windows
    requires WindowsOk(w, history, now, limits.size)
    requires ScopeOk(history, now, limits.size, limits.maxRpm, limits.maxTpm)
    ensures LedgerOk(Ledger(l.windows[scope := w], l.history[scope := history]), limits, now)
  {
    hide ScopeOk, WindowsOk, Forgettable;
    var l' := Ledger(l.windows[scope := w], l.history[scope := history]);
    assert l'.windows.Keys == l.windows.Keys;
    assert |l'.windows| == |l'.windows.Keys| && |l.windows| == |l.windows.Keys|;
    assert forall s | s != scope :: HistoryOf(l', s) == HistoryOf(l, s);
    assert HistoryOf(l', scope) == history;
  }

  /** The rate bound survives every decision, and a refusal says how long to wait. */
  lemma DecideKeepsLedger(l: Ledger, limits: Limits, scope: Scope, tokens: nat, now: real)
    requires LedgerOk(l, limits, now) && scope in l.windows && tokens <= limits.maxTpm
    ensures LedgerOk(Decided(l, limits, scope, tokens, now).0, limits, now)
    ensures Decided(l, limits, scope, tokens, now).1.Wait? ==>
      Decided(l, limits, scope, tokens, now).1.seconds >= 0.01
  {
    hide LedgerOk, WindowsOk, ScopeOk;
    var history := HistoryOf(l, scope);
    var cutoff := now - limits.size;
    var w := Windows(Unexpired(l.windows[scope].rpm, cutoff), Unexpired(l.windows[scope].tpm, cutoff));
    LedgerScope(l, limits, scope, now);
    CleanWindowsOk(l.windows[scope], history, now, limits.size);
    if Total(w.rpm) + 1 <= limits.maxRpm && Total(w.tpm) + tokens <= limits.maxTpm {
      var e := Event(now, tokens);
      GrantKeepsScope(history, now, limits.size, limits.maxRpm, limits.maxTpm, tokens);
      GrantKeepsWindows(w, history, e, now, limits.size);
      UpdateScopeKeepsLedger(l, limits, scope, Windows(w.rpm + [Event(now, 1)], w.tpm + [e]), history + [e], now);
    } else {
      CleanKeepsLedger(l, limits, scope, w, now);
      if Total(w.rpm) + 1 > limits.maxRpm {
        RefusalWaits(w.rpm, now, limits.maxRpm, 1, limits.size);
      } else {
        RefusalWaits(w.tpm, now, limits.maxTpm, tokens, limits.size);
      }
    }
  }

  lemma LedgerScope(l: Ledger, limits: Limits, scope: Scope, now: real)
    requires LedgerOk(l, limits, now) && scope in l.windows
    ensures WindowsOk(l.windows[scope], HistoryOf(l, scope), now, limits.size)
    ensures ScopeOk(HistoryOf(l, scope), now, limits.size, limits.maxRpm, limits.maxTpm)
    ensures UpTo(HistoryOf(l, scope), now) && PositiveLimits(limits)
  {
  }

  lemma GrantKeepsWindows(w: Windows, history: seq<Event>, e: Event, now: real, size: real)
    requires WindowsOk(w, history, now, size)
    ensures WindowsOk(Windows(w.rpm + [Event(e.at, 1)], w.tpm + [e]), history + [e], now, size)
  {
    AppendRemembers(w.tpm, history, e, now, size);
    OnesAppend(w.tpm, e);
  }

  lemma CleanKeepsLedger(l: Ledger, limits: Limits, scope: Scope, w: Windows, now: real)
    requires LedgerOk(l, limits, now) && scope in l.windows
    requires WindowsOk(w, HistoryOf(l, scope), now, limits.size)
    ensures LedgerOk(l.(windows := l.windows[scope := w]), limits, now)
  {
    hide ScopeOk, WindowsOk, Forgettable;
    var l' := l.(windows := l.windows[scope := w]);
    assert l'.windows.Keys == l.windows.Keys;
    assert |l'.windows| == |l'.windows.Keys| && |l.windows| == |l.windows.Keys|;
    assert forall s :: HistoryOf(l', s) == HistoryOf(l, s);
  }

  lemma RefusalWaits(window: seq<Event>, now: real, limit: nat, needed: nat, size: real)
    requires Total(window) + needed > limit && needed <= limit
    ensures WaitTime(window, now, limit, needed, size) >= 0.01
  {
    var k := WaitStopsAt(window, Total(window) + needed - limit, now, size);
  }

  lemma TryKeepsLedger(l: Ledger, limits: Limits, request: Request, now: real)
    requires LedgerOk(l, limits, now) && request.tokens <= limits.maxTpm
    ensures LedgerOk(Tried(l, limits, request, now).0, limits, now)
    ensures Tried(l, limits, request, now).1.Wait? ==> Tried(l, limits, request, now).1.seconds >= 0.01
  {
    hide LedgerOk, Opened, Decided;
    OpenKeepsLedger(l, limits, request.scope, now);
    var ready := Opened(l, limits, request.scope, now);
    if request.scope in ready.windows {
      DecideKeepsLedger(ready, limits, request.scope, request.tokens, now);
    }
  }

  // ---------------------------------------------------------------- exactness

  /** By the full history, the request fits at instant `t` if nothing else is granted before. */
  predicate HasRoom(history: seq<Event>, limits: Limits, tokens: nat, t: real) {
    && SumAfter(Ones(history), t - limits.size) + 1 <= limits.maxRpm
    && SumAfter(history, t - limits.size) + tokens <= limits.maxTpm
  }

  /** What a window has forgotten never counts again. */
  lemma ForgottenStaysExpired(window: seq<Event>, history: seq<Event>, now: real, size: real, t: real)
    requires Remembers(window, history, now, size) && now <= t
    ensures SumAfter(window, t - size) == SumAfter(history, t - size)
  {
    var cut := |history| - |window|;
    assert history == history[..cut] + window;
    SumAfterAppend(history[..cut], window, t - size);
    SumAfterExpired(history[..cut], t - size);
  }

  lemma OnesForgotten(window: seq<Event>, history: seq<Event>, now: real, size: real, t: real)
    requires Remembers(window, history, now, size) && now <= t
    ensures SumAfter(Ones(window), t - size) == SumAfter(Ones(history), t - size)
  {
    OnesRemember(window, history, now, size);
    ForgottenStaysExpired(Ones(window), Ones(history), now, size, t);
  }

  /** The decision looks only at the windows kept in memory, yet it is the one the full history calls for. */
  lemma DecisionIsExact(l: Ledger, limits: Limits, scope: Scope, tokens: nat, now: real)
    requires LedgerOk(l, limits, now) && scope in l.windows && tokens <= limits.maxTpm
    ensures Decided(l, limits, scope, tokens, now).1 == Granted <==> HasRoom(HistoryOf(l, scope), limits, tokens, now)
    ensures !Decided(l, limits, scope, tokens, now).1.ScopesExhausted?
  {
    hide LedgerOk, WindowsOk, ScopeOk, Total, SumAfter, Unexpired, WaitTime;
    LedgerScope(l, limits, scope, now);
    CleanWindowsOk(l.windows[scope], HistoryOf(l, scope), now, limits.size);
  }

  /** Room, as the cleaned windows see it. */
  predicate WindowsRoom(w: Windows, limits: Limits, tokens: nat, t: real) {
    RoomAt(w.rpm, t, limits.maxRpm, 1, limits.size) && RoomAt(w.tpm, t, limits.maxTpm, tokens, limits.size)
  }

  lemma RoomIsRoom(w: Windows, history: seq<Event>, limits: Limits, tokens: nat, now: real, t: real)
    requires WindowsOk(w, history, now, limits.size) && now <= t
    ensures WindowsRoom(w, limits, tokens, t) <==> HasRoom(history, limits, tokens, t)
  {
    ForgottenStaysExpired(w.tpm, history, now, limits.size, t);
    OnesForgotten(w.tpm, history, now, limits.size, t);
  }

  lemma OnesInside(window: seq<Event>, now: real, size: real)
    requires Sorted(window) && Within(window, now, size)
    ensures Sorted(Ones(window)) && Within(Ones(window), now, size)
  {
  }

  lemma RoomStays(events: seq<Event>, t: real, later: real, limit: nat, needed: nat, size: real)
    requires RoomAt(events, t, limit, needed, size) && t <= later
    ensures RoomAt(events, later, limit, needed, size)
  {
    SumAfterShrinks(events, t - size, later - size);
  }

  /** The longer of the two waits is exact for both windows together. */
  lemma LongerWaitIsExact(w: Windows, limits: Limits, tokens: nat, now: real)
    requires PositiveLimits(limits) && tokens <= limits.maxTpm
    requires w.rpm == Ones(w.tpm) && Sorted(w.tpm) && Within(w.tpm, now, limits.size)
    ensures var wait := AtLeast(WaitTime(w.rpm, now, limits.maxRpm, 1, limits.size),
                                WaitTime(w.tpm, now, limits.maxTpm, tokens, limits.size));
            && wait >= 0.0 && WindowsRoom(w, limits, tokens, now + wait)
            && (wait > 0.01 ==> forall t | now <= t < now + wait :: !WindowsRoom(w, limits, tokens, t))
  {
    hide WaitTime, RoomAt;
    OnesInside(w.tpm, now, limits.size);
    var rpmWait := WaitTime(w.rpm, now, limits.maxRpm, 1, limits.size);
    var tpmWait := WaitTime(w.tpm, now, limits.maxTpm, tokens, limits.size);
    var wait := AtLeast(rpmWait, tpmWait);
    WaitIsExact(w.rpm, now, limits.maxRpm, 1, limits.size);
    WaitIsExact(w.tpm, now, limits.maxTpm, tokens, limits.size);
    RoomStays(w.rpm, now + rpmWait, now + wait, limits.maxRpm, 1, limits.size);
    RoomStays(w.tpm, now + tpmWait, now + wait, limits.maxTpm, tokens, limits.size);
  }

  /** A refused caller is told the exact time: when nothing else is granted, its request fits after the
      wait, and not before it (apart from the floor of a hundredth of a second). */
  lemma RefusalIsExact(l: Ledger, limits: Limits, scope: Scope, tokens: nat, now: real)
    requires LedgerOk(l, limits, now) && scope in l.windows && tokens <= limits.maxTpm
    requires Decided(l, limits, scope, tokens, now).1.Wait?
    ensures var h, wait := HistoryOf(l, scope), Decided(l, limits, scope, tokens, now).1.seconds;
            && HasRoom(h, limits, tokens, now + wait)
            && (wait > 0.01 ==> forall t | now <= t < now + wait :: !HasRoom(h, limits, tokens, t))
  {
    hide LedgerOk, WindowsOk, ScopeOk, HasRoom, WindowsRoom, Total, SumAfter, Unexpired, WaitTime, AtLeast;
    var h, wait := HistoryOf(l, scope), Decided(l, limits, scope, tokens, now).1.seconds;
    LedgerScope(l, limits, scope, now);
    CleanWindowsOk(l.windows[scope], h, now, limits.size);
    var cutoff := now - limits.size;
    var w := Windows(Unexpired(l.windows[scope].rpm, cutoff), Unexpired(l.windows[scope].tpm, cutoff));
    MirrorOf(w, h, now, limits.size);
    LongerWaitIsExact(w, limits, tokens, now);
    RoomIsRoom(w, h, limits, tokens, now, now + wait);
    forall t | wait > 0.01 && now <= t < now + wait
      ensures !HasRoom(h, limits, tokens, t)
    {
      RoomIsRoom(w, h, limits, tokens, now, t);
    }
  }

  lemma MirrorOf(w: Windows, history: seq<Event>, now: real, size: real)
    requires WindowsOk(w, history, now, size)
    ensures w.rpm == Ones(w.tpm)
  {
  }

  /** What one try decides, by the history of the scope before it. */
  lemma TryIsExact(l: Ledger, limits: Limits, request: Request, now: real)
    requires LedgerOk(l, limits, now) && request.tokens <= limits.maxTpm
    ensures var h, (l', decision) := HistoryOf(l, request.scope), Tried(l, limits, request, now);
            && (decision == Granted ==> HasRoom(h, limits, request.tokens, now))
            && (decision != Granted ==> HistoryOf(l', request.scope) == h)
            && (decision.Wait? ==> !HasRoom(h, limits, request.tokens, now) && ExactWait(h, limits, request.tokens, now, decision.seconds))
  {
    hide LedgerOk, Opened, HasRoom, DecidedWindows;
    OpenKeepsLedger(l, limits, request.scope, now);
    var ready := Opened(l, limits, request.scope, now);
    if request.scope in ready.windows {
      assert HistoryOf(ready, request.scope) == HistoryOf(l, request.scope);
      DecisionIsExact(ready, limits, request.scope, request.tokens, now);
      DecideKeepsLedger(ready, limits, request.scope, request.tokens, now);
      if Decided(ready, limits, request.scope, request.tokens, now).1.Wait? {
        RefusalIsExact(ready, limits, request.scope, request.tokens, now);
      }
    }
  }

  /** With nothing else granted there is room after this wait, and not before it, but the wait is at least a
      hundredth of a second. */
  ghost predicate ExactWait(history: seq<Event>, limits: Limits, tokens: nat, now: real, wait: real) {
    && wait >= 0.01 && HasRoom(history, limits, tokens, now + wait)
    && (wait > 0.01 ==> forall t | now <= t < now + wait :: !HasRoom(history, limits, tokens, t))
  }

  // ---------------------------------------------------------------- the first instant with room

  ghost predicate FirstRoom(history: seq<Event>, limits: Limits, tokens: nat, start: real, first: real) {
    && start <= first && HasRoom(history, limits, tokens, first)
    && forall t | start <= t < first :: !HasRoom(history, limits, tokens, t)
  }

  /** The events from index `m` on are those after `low`. */
  ghost predicate CutAt(history: seq<Event>, m: nat, low: real) {
    && m <= |history|
    && (forall i | 0 <= i < m :: history[i].at <= low)
    && (forall i | m <= i < |history| :: history[i].at > low)
  }

  lemma RoomByCut(history: seq<Event>, limits: Limits, tokens: nat, m: nat, t: real)
    requires CutAt(history, m, t - limits.size)
    ensures HasRoom(history, limits, tokens, t)
       <==> |history| - m + 1 <= limits.maxRpm && Total(history[m..]) + tokens <= limits.maxTpm
  {
    KeptSum(history, m, t - limits.size);
    KeptSum(Ones(history), m, t - limits.size);
    assert Ones(history)[m..] == Ones(history[m..]);
    OnesTotal(history[m..]);
  }

  lemma {:induction false} OnesTotal(events: seq<Event>)
    ensures Total(Ones(events)) == |events|
  {
    if events != [] {
      assert Ones(events)[1..] == Ones(events[1..]);
      OnesTotal(events[1..]);
    }
  }

  lemma {:induction false} FirstRoomFrom(history: seq<Event>, limits: Limits, tokens: nat, m: nat, start: real)
    returns (first: real)
    requires PositiveLimits(limits) && tokens <= limits.maxTpm && Sorted(history)
    requires m <= |history| && forall i | 0 <= i < m :: history[i].at <= start - limits.size
    ensures FirstRoom(history, limits, tokens, start, first) && start <= first
    decreases |history| - m
  {
    hide HasRoom, Total;
    if m < |history| && history[m].at <= start - limits.size {
      first := FirstRoomFrom(history, limits, tokens, m + 1, start);
    } else {
      first := start;
      RoomByCut(history, limits, tokens, m, start);
      if !HasRoom(history, limits, tokens, start) {
        NoEventsNoSum(history, m);
        var next := history[m].at + limits.size;
        forall t | start <= t < next
          ensures !HasRoom(history, limits, tokens, t)
        {
          assert CutAt(history, m, t - limits.size);
          RoomByCut(history, limits, tokens, m, t);
        }
        first := FirstRoomFrom(history, limits, tokens, m + 1, next);
      }
    }
  }

  lemma NoEventsNoSum(history: seq<Event>, m: nat)
    requires m <= |history|
    ensures m == |history| ==> Total(history[m..]) == 0
  {
  }

  /** Room stays while nothing is granted. */
  lemma RoomFromFirstOn(history: seq<Event>, limits: Limits, tokens: nat, start: real, first: real, t: real)
    requires FirstRoom(history, limits, tokens, start, first) && start <= t
    ensures HasRoom(history, limits, tokens, t) <==> first <= t
  {
    if first <= t {
      SumAfterShrinks(history, first - limits.size, t - limits.size);
      SumAfterShrinks(Ones(history), first - limits.size, t - limits.size);
    }
  }

  /** So the wait of a refusal ends at that instant, or a hundredth of a second after the refusal. */
  lemma WaitEndsAtFirst(history: seq<Event>, limits: Limits, tokens: nat, start: real, first: real, now: real, wait: real)
    requires FirstRoom(history, limits, tokens, start, first) && start <= now
    requires !HasRoom(history, limits, tokens, now) && ExactWait(history, limits, tokens, now, wait)
    ensures now < first && wait == AtLeast(0.01, first - now)
  {
    hide HasRoom;
    RoomFromFirstOn(history, limits, tokens, start, first, now);
    RoomFromFirstOn(history, limits, tokens, start, first, now + wait);
  }

  /** How long an undisturbed caller takes when there is room after `d`: naps of at most a second each, and
      of no less than a hundredth. */
  function Landing(d: real): real
    decreases if d > 0.0 then d.Floor + 1 else 0
  {
    if d <= 0.0 then 0.0 else if d <= 1.0 then AtLeast(0.01, d) else 1.0 + Landing(d - 1.0)
  }

  lemma {:induction false} LandingIsClose(d: real)
    ensures d <= 0.0 ==> Landing(d) == 0.0
    ensures d > 0.0 ==> d <= Landing(d) < d + 0.01 && Landing(d) >= 0.01
    decreases if d > 0.0 then d.Floor + 1 else 0
  {
    if d > 1.0 {
      LandingIsClose(d - 1.0);
    }
  }

  /** A caller that nobody disturbs is served at the first instant with room, or less than a hundredth of a
      second later, if its timeout allows for that; and it fails at once when the timeout ends before. */
  ghost predicate Timely(outcome: Outcome, first: real, start: real, now: real, timeout: real) {
    && (outcome == Acquired <==> first == start || Landing(first - start) <= timeout)
    && (outcome == Acquired ==> first <= now && (now == first || now < first + 0.01))
    && (first == start || first + 0.01 <= start + timeout ==> outcome == Acquired)
    && (first > start && first > start + timeout ==>
          now == start && outcome == TimedOut(AtLeast(0.01, first - start)))
  }

  /** The undisturbed caller after some naps. */
  ghost predicate OnCourse(first: real, start: real, now: real, timeout: real) {
    && start <= first && start <= now && now + Landing(first - now) == start + Landing(first - start)
    && (now > start ==> now - start <= timeout && first - start <= timeout)
  }

  lemma StartsOnCourse(first: real, start: real, timeout: real)
    requires start <= first
    ensures OnCourse(first, start, start, timeout)
  {
  }

  lemma GrantIsTimely(first: real, start: real, now: real, timeout: real)
    requires OnCourse(first, start, now, timeout) && first <= now
    ensures Timely(Acquired, first, start, now, timeout)
  {
    LandingIsClose(first - start);
  }

  lemma TimeoutIsTimely(first: real, start: real, now: real, timeout: real, seconds: real)
    requires OnCourse(first, start, now, timeout) && now < first && seconds == AtLeast(0.01, first - now)
    requires timeout - (now - start) <= 0.0 || seconds > timeout - (now - start)
    ensures Timely(TimedOut(seconds), first, start, now, timeout)
  {
    LandingIsClose(first - start);
    LandingIsClose(first - now);
  }

  lemma NapStaysOnCourse(first: real, start: real, now: real, timeout: real, seconds: real, nap: real)
    requires OnCourse(first, start, now, timeout) && now < first && seconds == AtLeast(0.01, first - now)
    requires seconds <= timeout - (now - start) && nap == if seconds < 1.0 then seconds else 1.0
    ensures OnCourse(first, start, now + nap, timeout)
  {
  }

  // ---------------------------------------------------------------- runs

  /** One call of the critical section at a clock reading. */
  datatype Call = Call(request: Request, now: real)

  ghost predicate Chronological(calls: seq<Call>, start: real) {
    && (forall i | 0 <= i < |calls| :: start <= calls[i].now)
    && (forall i, j | 0 <= i < j < |calls| :: calls[i].now <= calls[j].now)
  }

  function AfterCalls(l: Ledger, limits: Limits, calls: seq<Call>): Ledger
    decreases |calls|
  {
    if calls == [] then l
    else AfterCalls(Tried(l, limits, calls[0].request, calls[0].now).0, limits, calls[1..])
  }

  const EMPTY: Ledger := Ledger(map[], map[])

  lemma {:induction false} CallsKeepLedger(l: Ledger, limits: Limits, calls: seq<Call>, start: real) returns (end: real)
    requires LedgerOk(l, limits, start) && Chronological(calls, start)
    requires forall c | c in calls :: c.request.tokens <= limits.maxTpm
    ensures start <= end && LedgerOk(AfterCalls(l, limits, calls), limits, end)
    decreases |calls|
  {
    hide LedgerOk, Tried;
    if calls == [] {
      end := start;
    } else {
      LedgerOkLater(l, limits, start, calls[0].now);
      TryKeepsLedger(l, limits, calls[0].request, calls[0].now);
      end := CallsKeepLedger(Tried(l, limits, calls[0].request, calls[0].now).0, limits, calls[1..], calls[0].now);
    }
  }

  /** The rate bound on the full history: whatever calls are made, by whichever scopes, and whichever
      scopes are evicted and created again, at every instant x the grants of a scope in (x - W, x]
      number at most max_rpm and their tokens total at most max_tpm; the scopes kept in memory
      never exceed max_scopes, and their two windows mirror each other, stamp by stamp. */
  lemma RateBound(limits: Limits, calls: seq<Call>, start: real, scope: Scope, x: real)
    requires PositiveLimits(limits) && Chronological(calls, start)
    requires forall c | c in calls :: c.request.tokens <= limits.maxTpm
    ensures var l := AfterCalls(EMPTY, limits, calls);
            && InWindow(Ones(HistoryOf(l, scope)), x, limits.size) <= limits.maxRpm
            && InWindow(HistoryOf(l, scope), x, limits.size) <= limits.maxTpm
            && |l.windows| <= limits.maxScopes
            && forall s | s in l.windows :: l.windows[s].rpm == Ones(l.windows[s].tpm)
  {
    EmptyLedgerOk(limits, start);
    var end := CallsKeepLedger(EMPTY, limits, calls, start);
    var l := AfterCalls(EMPTY, limits, calls);
    assert ScopeOk(HistoryOf(l, scope), end, limits.size, limits.maxRpm, limits.maxTpm);
  }

  lemma EmptyLedgerOk(limits: Limits, now: real)
    requires PositiveLimits(limits)
    ensures LedgerOk(EMPTY, limits, now)
  {
    EmptyScopeOk(now, limits.size, limits.maxRpm, limits.maxTpm);
  }

  // ---------------------------------------------------------------- the code

  lemma {:induction false} CleanTwice(window: seq<Event>, cutoff: real)
    ensures Unexpired(Unexpired(window, cutoff), cutoff) == Unexpired(window, cutoff)
  {
    if window != [] && window[0].at <= cutoff {
      CleanTwice(window[1..], cutoff);
    }
  }

  /** The contents of two dictionaries of windows. */
  ghost function ContentsOf(rpm: map<Scope, SlidingWindow>, tpm: map<Scope, SlidingWindow>): map<Scope, Windows>
    requires rpm.Keys == tpm.Keys
    reads rpm.Values, tpm.Values
  {
    map s | s in rpm :: Windows(rpm[s].events, tpm[s].events)
  }

  lemma ContentsWithout(rpm: map<Scope, SlidingWindow>, tpm: map<Scope, SlidingWindow>, gone: set<Scope>)
    requires rpm.Keys == tpm.Keys
    ensures (rpm - gone).Keys == (tpm - gone).Keys
    ensures ContentsOf(rpm - gone, tpm - gone) == ContentsOf(rpm, tpm) - gone
  {
  }

  lemma ContentsWith(rpm: map<Scope, SlidingWindow>, tpm: map<Scope, SlidingWindow>, scope: Scope,
                     newRpm: SlidingWindow, newTpm: SlidingWindow)
    requires rpm.Keys == tpm.Keys
    ensures ContentsOf(rpm[scope := newRpm], tpm[scope := newTpm])
         == ContentsOf(rpm, tpm)[scope := Windows(newRpm.events, newTpm.events)]
  {
  }

  lemma ContentsStale(rpm: map<Scope, SlidingWindow>, tpm: map<Scope, SlidingWindow>,
                      history: map<Scope, seq<Event>>, now: real, size: real)
    requires rpm.Keys == tpm.Keys
    ensures Stale(Ledger(ContentsOf(rpm, tpm), history), now, size)
         == set s | s in rpm && IsStale(rpm[s].events, now, size)
  {
  }

  lemma SameSize<A, B>(windows: map<Scope, A>, objects: map<Scope, B>)
    requires windows.Keys == objects.Keys
    ensures |windows| == |objects|
  {
    assert |windows| == |windows.Keys| && |objects| == |objects.Keys|;
  }

  /** A grant is the last entry of its scope's history. */
  lemma GrantRecorded(l: Ledger, limits: Limits, request: Request, now: real)
    requires Tried(l, limits, request, now).1 == Granted
    ensures var h := Tried(l, limits, request, now).0.history;
            && request.scope in h && h[request.scope] != []
            && h[request.scope][|h[request.scope]| - 1] == Event(now, request.tokens)
            && h[request.scope][..|h[request.scope]| - 1] == HistoryOf(l, request.scope)
  {
  }

  lemma OpenedIs(l: Ledger, limits: Limits, scope: Scope, now: real)
    ensures var kept := if |l.windows| >= limits.maxScopes then l.(windows := l.windows - Stale(l, now, limits.size)) else l;
            Opened(l, limits, scope, now)
            == if scope in l.windows then l
               else if |kept.windows| >= limits.maxScopes then kept
               else kept.(windows := kept.windows[scope := Windows([], [])])
  {
    hide Stale;
  }

  /** A scope is refused exactly when it is unknown and the limiter is full of scopes that are in use. */
  lemma RefusedOnlyWhenBusy(l: Ledger, limits: Limits, request: Request, now: real)
    ensures var after := Tried(l, limits, request, now).0.windows;
            && (Tried(l, limits, request, now).1 == ScopesExhausted <==>
                  request.scope !in l.windows && |l.windows| >= limits.maxScopes
                  && |l.windows - Stale(l, now, limits.size)| >= limits.maxScopes)
            && (Tried(l, limits, request, now).1 == ScopesExhausted ==>
                  request.scope !in after && |after| >= limits.maxScopes
                  && forall s | s in after :: !IsStale(after[s].rpm, now, limits.size))
  {
    hide Unexpired, WaitTime, Total, AtLeast, IsStale;
  }

  /** The scope has had a grant within the last window length. */
  ghost predicate InUse(history: seq<Event>, now: real, size: real) {
    exists i :: 0 <= i < |history| && history[i].at > now - size
  }

  lemma StaleIsNotInUse(l: Ledger, limits: Limits, s: Scope, now: real)
    requires LedgerOk(l, limits, now)
    ensures s in l.windows && !IsStale(l.windows[s].rpm, now, limits.size) <==> InUse(HistoryOf(l, s), now, limits.size)
  {
    if s in l.windows {
      LedgerScope(l, limits, s, now);
      var w, h := l.windows[s].tpm, HistoryOf(l, s);
      if IsStale(l.windows[s].rpm, now, limits.size) {
        StaleIsForgettable(l.windows[s], h, now, limits.size);
      } else {
        assert h[|h| - 1] == w[|w| - 1];
        assert l.windows[s].rpm[|w| - 1].at == w[|w| - 1].at;
      }
    }
  }

  /** A call is refused for want of a scope if and only if its scope is not in memory and as many others as
      fit there have had a grant within the last window length. */
  lemma ScopeRefusedExactly(l: Ledger, limits: Limits, request: Request, now: real)
    requires LedgerOk(l, limits, now)
    ensures var busy := set s | s in l.history && InUse(l.history[s], now, limits.size);
            Tried(l, limits, request, now).1 == ScopesExhausted <==>
              request.scope !in l.windows && |busy| >= limits.maxScopes
  {
    hide LedgerOk, Tried, Stale, InUse, IsStale;
    RefusedOnlyWhenBusy(l, limits, request, now);
    KeptIsBusy(l, limits, now);
    FewerKeys(l.windows, Stale(l, now, limits.size));
  }

  lemma KeptIsBusy(l: Ledger, limits: Limits, now: real)
    requires LedgerOk(l, limits, now)
    ensures |l.windows - Stale(l, now, limits.size)| == |set s | s in l.history && InUse(l.history[s], now, limits.size)|
  {
    hide LedgerOk, InUse, IsStale;
    var busy := set s | s in l.history && InUse(l.history[s], now, limits.size);
    var kept := l.windows - Stale(l, now, limits.size);
    forall s
      ensures s in kept <==> s in busy
    {
      StaleIsNotInUse(l, limits, s, now);
      NoHistoryNoUse(now, limits.size);
    }
    assert kept.Keys == busy;
    assert |kept| == |kept.Keys|;
  }

  lemma NoHistoryNoUse(now: real, size: real)
    ensures !InUse([], now, size)
  {
  }

  lemma LedgerFacts(l: Ledger, limits: Limits, scope: Scope, now: real)
    requires LedgerOk(l, limits, now)
    ensures PositiveLimits(limits) && Sorted(HistoryOf(l, scope))
  {
    assert ScopeOk(HistoryOf(l, scope), now, limits.size, limits.maxRpm, limits.maxTpm);
  }

  /** Nobody else comes in, and no sleep takes longer than it was to. */
  ghost predicate Calm(oversleep: nat -> real, others: nat -> seq<Request>) {
    forall k :: oversleep(k) <= 0.0 && others(k) == []
  }

  class Limiter {
    const limits: Limits
    var rpmWindows: map<Scope, SlidingWindow>
    var tpmWindows: map<Scope, SlidingWindow>
    ghost var history: map<Scope, seq<Event>>

    /** Every window ever created. */
    ghost var windows: set<SlidingWindow>

    /** Both dictionaries have the same keys, and no window serves two scopes or two purposes. */
    ghost predicate Valid()
      reads this
    {
      && rpmWindows.Keys == tpmWindows.Keys
      && rpmWindows.Values <= windows && tpmWindows.Values <= windows
      && (forall s | s in rpmWindows ::
            rpmWindows[s].windowSize == limits.size && rpmWindows[s].owner == s && !rpmWindows[s].countsTokens)
      && (forall s | s in tpmWindows ::
            tpmWindows[s].windowSize == limits.size && tpmWindows[s].owner == s && tpmWindows[s].countsTokens)
    }

    ghost function Book(): Ledger
      requires Valid()
      reads this, windows
    {
      Ledger(ContentsOf(rpmWindows, tpmWindows), history)
    }

    constructor (limits: Limits)
      requires PositiveLimits(limits)
      ensures this.limits == limits && Valid() && Book() == EMPTY
      ensures windows == {}
    {
      this.limits := limits;
      rpmWindows, tpmWindows, history, windows := map[], map[], map[], {};
    }

    /** Drops the windows of every scope whose latest event has expired. */
    method EvictStale(now: real)
      requires Valid()
      modifies this`rpmWindows, this`tpmWindows
      ensures Valid()
      ensures rpmWindows.Keys <= old(rpmWindows.Keys)
      ensures Book() == old(Book()).(windows := old(Book()).windows - Stale(old(Book()), now, limits.size))
    {
      hide IsStale, Stale;
      var expired := set s | s in rpmWindows && IsStale(rpmWindows[s].events, now, limits.size);
      ContentsStale(rpmWindows, tpmWindows, history, now, limits.size);
      ContentsWithout(rpmWindows, tpmWindows, expired);
      rpmWindows := rpmWindows - expired;
      tpmWindows := tpmWindows - expired;
    }

    method AddWindows(scope: Scope)
      requires Valid() && scope !in rpmWindows
      modifies this`rpmWindows, this`tpmWindows, this`windows
      ensures Valid() && scope in rpmWindows
      ensures Book() == old(Book()).(windows := old(Book()).windows[scope := Windows([], [])])
      ensures fresh(windows - old(windows))
    {
      hide ContentsOf;
      var rpm := new SlidingWindow(limits.size, scope, false);
      var tpm := new SlidingWindow(limits.size, scope, true);
      ContentsWith(rpmWindows, tpmWindows, scope, rpm, tpm);
      windows := windows + {rpm, tpm};
      rpmWindows := rpmWindows[scope := rpm];
      tpmWindows := tpmWindows[scope := tpm];
    }

    method GetOrCreateWindows(scope: Scope, now: real) returns (found: bool)
      requires Valid()
      modifies this`rpmWindows, this`tpmWindows, this`windows
      ensures Valid() && found == (scope in rpmWindows)
      ensures Book() == Opened(old(Book()), limits, scope, now)
      ensures fresh(windows - old(windows))
    {
      hide Stale, ContentsOf, Opened, Limiter.Valid, Limiter.Book;
      OpenedIs(Book(), limits, scope, now);
      ContentsKeys();
      SameSize(Book().windows, rpmWindows);
      if scope in rpmWindows {
        return true;
      }
      if |rpmWindows| >= limits.maxScopes {
        EvictStale(now);
        ContentsKeys();
        SameSize(Book().windows, rpmWindows);
      }
      if |rpmWindows| >= limits.maxScopes {
        return false;
      }
      AddWindows(scope);
      return true;
    }

    lemma ContentsKeys()
      requires Valid()
      ensures Book().windows.Keys == rpmWindows.Keys && Book().history == history
    {
    }

    /** The critical section of `acquire`. */
    method TryAcquire(request: Request, now: real) returns (decision: Decision)
      requires Valid()
      modifies this, windows
      ensures Valid() && (Book(), decision) == Tried(old(Book()), limits, request, now)
      ensures fresh(windows - old(windows))
    {
      hide Opened, Decided, Limiter.Valid, Limiter.Book;
      var found := GetOrCreateWindows(request.scope, now);
      ContentsKeys();
      if !found {
        return ScopesExhausted;
      }
      decision := DecideScope(request.scope, request.tokens, now);
    }

    method DecideScope(scope: Scope, tokens: nat, now: real) returns (decision: Decision)
      requires Valid() && scope in Book().windows
      modifies this`history, windows
      ensures Valid()
      ensures (Book(), decision) == Decided(old(Book()), limits, scope, tokens, now)
    {
      hide DecidedWindows, HistoryOf, ContentsOf;
      ghost var book := Book();
      decision := DecideWindows(scope, tokens, now);
      if decision.Granted? {
        history := history[scope := HistoryOf(book, scope) + [Event(now, tokens)]];
      }
    }

    method DecideWindows(scope: Scope, tokens: nat, now: real) returns (decision: Decision)
      requires Valid() && scope in Book().windows
      modifies windows
      ensures Valid()
      ensures var (w, d) := DecidedWindows(old(Book()).windows[scope], limits, tokens, now);
              decision == d && Book() == old(Book()).(windows := old(Book()).windows[scope := w])
    {
      hide DecidedWindows;
      var rpm, tpm := rpmWindows[scope], tpmWindows[scope];
      decision := Decide(rpm, tpm, tokens, now);
    }

    /** Reads both totals, then either records the grant or computes the wait. */
    method Decide(rpm: SlidingWindow, tpm: SlidingWindow, tokens: nat, now: real) returns (decision: Decision)
      requires rpm != tpm && rpm.windowSize == limits.size && tpm.windowSize == limits.size
      modifies rpm, tpm
      ensures (Windows(rpm.events, tpm.events), decision)
           == DecidedWindows(Windows(old(rpm.events), old(tpm.events)), limits, tokens, now)
    {
      var currReqs := rpm.GetTotal(now);
      var currTokens := tpm.GetTotal(now);
      CleanTwice(old(rpm.events), now - limits.size);
      CleanTwice(old(tpm.events), now - limits.size);
      if currReqs + 1 <= limits.maxRpm && currTokens + tokens <= limits.maxTpm {
        rpm.AddEvent(now, 1);
        tpm.AddEvent(now, tokens);
        decision := Granted;
      } else {
        var rpmWait := rpm.TimeUntilAvailable(now, limits.maxRpm, 1);
        var tpmWait := tpm.TimeUntilAvailable(now, limits.maxTpm, tokens);
        decision := Wait(if tpmWait < rpmWait then rpmWait else tpmWait);
      }
    }

    /** Requests of other callers at one instant. */
    method Others(requests: seq<Request>, now: real)
      requires Valid() && LedgerOk(Book(), limits, now)
      modifies this, windows
      ensures Valid() && LedgerOk(Book(), limits, now)
      ensures fresh(windows - old(windows))
      ensures requests == [] ==> Book() == old(Book())
    {
      hide LedgerOk, Tried, Limiter.Valid, Limiter.Book;
      for k := 0 to |requests|
        invariant Valid() && LedgerOk(Book(), limits, now)
        invariant fresh(windows - old(windows))
        invariant k == 0 ==> Book() == old(Book())
      {
        if requests[k].tokens <= limits.maxTpm {
          TryKeepsLedger(Book(), limits, requests[k], now);
          var decision := TryAcquire(requests[k], now);
        }
      }
    }

    /** `acquire`.  `oversleep(k)` is by how much sleep number k overruns, and `others(k)` are the
        requests that get in before the caller is back in the critical section.  The promise holds
        whatever they are; the loop ends after at most timeout / 0.01 + 1 rounds.

        `first` is the first instant at which the history leaves room, if nothing else is granted. */
    method Acquire(request: Request, timeout: real, block: bool, start: real,
                   oversleep: nat -> real, others: nat -> seq<Request>)
      returns (outcome: Outcome, now: real, rounds: nat, ghost first: real)
      requires Valid() && LedgerOk(Book(), limits, start)
      modifies this, windows
      ensures Valid() && start <= now && LedgerOk(Book(), limits, now)
      ensures outcome == BudgetTooLarge <==> request.tokens > limits.maxTpm
      ensures outcome == BudgetTooLarge ==> Book() == old(Book()) && rounds == 0
      ensures outcome == Acquired ==>
        request.scope in history && history[request.scope] != []
        && history[request.scope][|history[request.scope]| - 1] == Event(now, request.tokens)
        && HasRoom(history[request.scope][..|history[request.scope]| - 1], limits, request.tokens, now)
      ensures outcome == Unavailable ==> !block && !HasRoom(HistoryOf(Book(), request.scope), limits, request.tokens, now)
      ensures outcome.TimedOut? ==> block && (now - start >= timeout || outcome.needed > timeout - (now - start))
      ensures outcome.TimedOut? ==>
        && !HasRoom(HistoryOf(Book(), request.scope), limits, request.tokens, now)
        && ExactWait(HistoryOf(Book(), request.scope), limits, request.tokens, now, outcome.needed)
      ensures outcome == NoScope ==> request.scope !in rpmWindows && |rpmWindows| >= limits.maxScopes
      ensures !block ==> rounds <= 1
      ensures rounds > 1 ==> 0.01 * (rounds - 1) as real <= timeout
      ensures outcome != BudgetTooLarge ==>
        FirstRoom(old(HistoryOf(Book(), request.scope)), limits, request.tokens, start, first)
      ensures !block && (outcome == Acquired || outcome == Unavailable) ==> (outcome == Acquired <==> first == start)
      ensures Calm(oversleep, others) && block && (outcome == Acquired || outcome.TimedOut?) ==>
        Timely(outcome, first, start, now, timeout)
    {
      hide LedgerOk, Tried, Limiter.Valid, Limiter.Book, HasRoom, FirstRoom, ExactWait, Timely, OnCourse, HistoryOf;
      now, rounds, first := start, 0, start;
      if request.tokens > limits.maxTpm {
        return BudgetTooLarge, now, rounds, first;
      }
      ghost var h := HistoryOf(Book(), request.scope);
      LedgerFacts(Book(), limits, request.scope, start);
      first := FirstRoomFrom(h, limits, request.tokens, 0, start);
      StartsOnCourse(first, start, timeout);
      while true
        invariant Valid() && start <= now && LedgerOk(Book(), limits, now)
        invariant fresh(windows - old(windows))
        invariant 0.01 * rounds as real <= now - start
        invariant rounds > 0 ==> block && 0.01 * rounds as real <= timeout
        invariant rounds == 0 ==> now == start
        invariant rounds == 0 || Calm(oversleep, others) ==> HistoryOf(Book(), request.scope) == h
        invariant Calm(oversleep, others) ==> OnCourse(first, start, now, timeout)
        decreases if timeout - (now - start) > 0.0 then 1 + ((timeout - (now - start)) * 100.0).Floor else 0
      {
        ghost var before := Book();
        TryKeepsLedger(before, limits, request, now);
        TryIsExact(before, limits, request, now);
        var decision := TryAcquire(request, now);
        rounds := rounds + 1;
        if HistoryOf(before, request.scope) == h {
          RoomFromFirstOn(h, limits, request.tokens, start, first, now);
        }
        match decision {
          case Granted =>
            GrantRecorded(before, limits, request, now);
            if Calm(oversleep, others) {
              GrantIsTimely(first, start, now, timeout);
            }
            ContentsKeys();
            return Acquired, now, rounds, first;
          case ScopesExhausted =>
            RefusedOnlyWhenBusy(before, limits, request, now);
            ContentsKeys();
            SameSize(Book().windows, rpmWindows);
            return NoScope, now, rounds, first;
          case Wait(seconds) =>
            if HistoryOf(before, request.scope) == h {
              WaitEndsAtFirst(h, limits, request.tokens, start, first, now, seconds);
            }
            if !block {
              return Unavailable, now, rounds, first;
            }
            var elapsed := now - start;
            var remaining := timeout - elapsed;
            if remaining <= 0.0 || seconds > remaining {
              if Calm(oversleep, others) {
                TimeoutIsTimely(first, start, now, timeout, seconds);
              }
              return TimedOut(seconds), now, rounds, first;
            }
            var nap := if seconds < 1.0 then seconds else 1.0;
            var later := now + nap + AtLeast(0.0, oversleep(rounds));
            if Calm(oversleep, others) {
              NapStaysOnCourse(first, start, now, timeout, seconds, nap);
            }
            LedgerOkLater(Book(), limits, now, later);
            now := later;
            Others(others(rounds), now);
        }
      }
    }
  }
}
