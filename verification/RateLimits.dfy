/**
 Sliding-window limits (src/arena/server/rate_limits.py). Every call is serialised by the
 limiter's lock; `now` is the time the call read, which never runs backwards between calls.
 */
module RateLimits {
  import opened Arithmetic
  import opened Wrappers

  const ACTION_WINDOW_S: real := 1.0
  const PRUNE_THRESHOLD: int := 4096

  // ---------------------------------------------------------------------------
  // Windows
  // ---------------------------------------------------------------------------

  /** A window without its leading timestamps at or before `cutoff`. */
  function Pruned(window: seq<real>, cutoff: real): seq<real> {
    if window != [] && window[0] <= cutoff then Pruned(window[1..], cutoff) else window
  }

  /** The pruning loop. */
  method Prune(window: seq<real>, now: real, span: real) returns (r: seq<real>)
    ensures r == Pruned(window, now - span)
  {
    var cutoff := now - span;
    r := window;
    while r != [] && r[0] <= cutoff
      invariant Pruned(r, cutoff) == Pruned(window, cutoff)
      decreases |r|
    {
      r := r[1..];
    }
  }

  /** A key's window; empty for an absent key. */
  function Lookup(windows: map<string, seq<real>>, key: string): seq<real> {
    if key in windows then windows[key] else []
  }

  predicate Sorted(s: seq<real>) {
    forall i, j :: 0 <= i < j < |s| ==> s[i] <= s[j]
  }

  /** How many timestamps lie in the half-open interval from `low` to `high`. */
  function CountIn(s: seq<real>, low: real, high: real): nat {
    if s == [] then 0
    else (if low <= s[0] < high then 1 else 0) + CountIn(s[1..], low, high)
  }

  /** How many timestamps lie after `cutoff`. */
  function CountAfter(s: seq<real>, cutoff: real): nat {
    if s == [] then 0 else (if s[0] > cutoff then 1 else 0) + CountAfter(s[1..], cutoff)
  }

  /** `window` is `log` without some leading timestamps, all at or before `cutoff`. */
  ghost predicate IsTail(log: seq<real>, window: seq<real>, cutoff: real) {
    || log == window
    || (log != [] && log[0] <= cutoff && IsTail(log[1..], window, cutoff))
  }

  lemma {:induction false} PrunedIsTail(log: seq<real>, window: seq<real>, before: real, cutoff: real)
    requires IsTail(log, window, before) && before <= cutoff
    ensures IsTail(log, Pruned(window, cutoff), cutoff)
    decreases |log| + |window|
  {
    if log == window {
      if window != [] && window[0] <= cutoff {
        PrunedIsTail(log[1..], window[1..], cutoff, cutoff);
      }
    } else {
      PrunedIsTail(log[1..], window, before, cutoff);
    }
  }

  lemma {:induction false} TailStays(log: seq<real>, window: seq<real>, before: real, cutoff: real)
    requires IsTail(log, window, before) && before <= cutoff
    ensures IsTail(log, window, cutoff)
    decreases |log|
  {
    if log != window {
      TailStays(log[1..], window, before, cutoff);
    }
  }

  lemma {:induction false} TailGrows(log: seq<real>, window: seq<real>, cutoff: real, x: real)
    requires IsTail(log, window, cutoff)
    ensures IsTail(log + [x], window + [x], cutoff)
    decreases |log|
  {
    if log != window {
      TailGrows(log[1..], window, cutoff, x);
      assert (log + [x])[1..] == log[1..] + [x];
    }
  }

  /** The tail is the end of the log, and what it lacks is old. */
  lemma {:induction false} TailIsTheEnd(log: seq<real>, window: seq<real>, cutoff: real)
    requires IsTail(log, window, cutoff)
    ensures |window| <= |log|
    ensures forall i :: |log| - |window| <= i < |log| ==> log[i] == window[i - (|log| - |window|)]
    ensures forall i :: 0 <= i < |log| - |window| ==> log[i] <= cutoff
    decreases |log|
  {
    if log != window {
      TailIsTheEnd(log[1..], window, cutoff);
      assert forall i :: 1 <= i < |log| ==> log[i] == log[1..][i - 1];
    }
  }

  lemma {:induction false} PrunedIsRecent(window: seq<real>, cutoff: real)
    requires Sorted(window)
    ensures Sorted(Pruned(window, cutoff))
    ensures forall i :: 0 <= i < |Pruned(window, cutoff)| ==> Pruned(window, cutoff)[i] > cutoff
    decreases |window|
  {
    if window != [] && window[0] <= cutoff {
      PrunedIsRecent(window[1..], cutoff);
    }
  }

  lemma {:induction false} SortedTail(log: seq<real>, window: seq<real>, cutoff: real)
    requires IsTail(log, window, cutoff) && Sorted(log)
    ensures Sorted(window)
    decreases |log|
  {
    if log != window {
      SortedTail(log[1..], window, cutoff);
    }
  }

  lemma {:induction false} CountRecent(window: seq<real>, cutoff: real)
    requires forall i :: 0 <= i < |window| ==> window[i] > cutoff
    ensures CountAfter(window, cutoff) == |window|
  {
    if window != [] {
      CountRecent(window[1..], cutoff);
    }
  }

  lemma {:induction false} CountTail(log: seq<real>, window: seq<real>, cutoff: real)
    requires IsTail(log, window, cutoff)
    ensures CountAfter(log, cutoff) == CountAfter(window, cutoff)
    decreases |log|
  {
    if log != window {
      CountTail(log[1..], window, cutoff);
    }
  }

  /** A pruned tail holds exactly the timestamps of the log that still count. */
  lemma PrunedCounts(log: seq<real>, window: seq<real>, before: real, cutoff: real)
    requires IsTail(log, window, before) && before <= cutoff && Sorted(log)
    ensures |Pruned(window, cutoff)| == CountAfter(log, cutoff)
  {
    SortedTail(log, window, before);
    PrunedIsRecent(window, cutoff);
    CountRecent(Pruned(window, cutoff), cutoff);
    PrunedIsTail(log, window, before, cutoff);
    CountTail(log, Pruned(window, cutoff), cutoff);
  }

  // ---------------------------------------------------------------------------
  // Spacing
  // ---------------------------------------------------------------------------

  /** When the next action may run, from the whole history of slots. */
  function NextSlot(slots: seq<real>, cap: nat, now: real): (slot: real)
    requires cap >= 1
    ensures slot >= now
  {
    if |slots| < cap then now
    else if slots[|slots| - cap] + ACTION_WINDOW_S > now then slots[|slots| - cap] + ACTION_WINDOW_S
    else now
  }

  /** Slots in order, each a window after the one `cap` before it. */
  ghost predicate Spaced(slots: seq<real>, cap: nat) {
    && Sorted(slots)
    && forall i, j :: 0 <= i && i + cap == j < |slots| ==> slots[j] >= slots[i] + ACTION_WINDOW_S
  }

  /** A slot in the future was put off: it is exactly a window after the one `cap` before. */
  ghost predicate PutOff(slots: seq<real>, cap: nat, clock: real) {
    forall i :: 0 <= i < |slots| && slots[i] > clock ==> i >= cap && slots[i] == slots[i - cap] + ACTION_WINDOW_S
  }

  lemma SlotKeepsSpacing(slots: seq<real>, cap: nat, clock: real, now: real)
    requires cap >= 1 && clock <= now && Spaced(slots, cap) && PutOff(slots, cap, clock)
    ensures Spaced(slots + [NextSlot(slots, cap, now)], cap)
    ensures PutOff(slots + [NextSlot(slots, cap, now)], cap, now)
  {
    var slot := NextSlot(slots, cap, now);
    var n := |slots|;
    if n > 0 && slots[n - 1] > now {
      assert slots[n - 1] == slots[n - 1 - cap] + ACTION_WINDOW_S;
      assert slots[n - 1 - cap] <= slots[n - cap];
    }
    assert n > 0 ==> slots[n - 1] <= slot;
  }

  /** And it puts no action off for longer than that takes: no earlier slot, from now on, would
      be spaced. */
  lemma NoEarlierSlot(slots: seq<real>, cap: nat, now: real, slot: real)
    requires cap >= 1 && now <= slot && Spaced(slots + [slot], cap)
    ensures NextSlot(slots, cap, now) <= slot
  {
    var n := |slots|;
    if n >= cap {
      var all := slots + [slot];
      assert all[n] >= all[n - cap] + ACTION_WINDOW_S;
    }
  }

  /** The slot the pruned window gives is the one the whole history gives. */
  lemma WindowGivesNextSlot(slots: seq<real>, window: seq<real>, cap: nat, now: real)
    requires cap >= 1 && IsTail(slots, window, now - ACTION_WINDOW_S)
    ensures NextSlot(window, cap, now) == NextSlot(slots, cap, now)
  {
    TailIsTheEnd(slots, window, now - ACTION_WINDOW_S);
    if |slots| >= cap > |window| {
      assert slots[|slots| - cap] <= now - ACTION_WINDOW_S;
    }
  }

  lemma {:induction false} CountAtMost(s: seq<real>, low: real, high: real, k: nat)
    requires forall i :: 0 <= i < |s| - k ==> s[i] < low
    ensures CountIn(s, low, high) <= k
    decreases |s|
  {
    if |s| > k {
      CountAtMost(s[1..], low, high, k);
    } else if s != [] {
      CountAtMost(s[1..], low, high, k - 1);
    }
  }

  lemma {:induction false} CountWithoutLast(s: seq<real>, low: real, high: real)
    requires s != [] && s[|s| - 1] >= high
    ensures CountIn(s, low, high) == CountIn(s[..|s| - 1], low, high)
    decreases |s|
  {
    if |s| > 1 {
      CountWithoutLast(s[1..], low, high);
      assert s[1..][..|s| - 2] == s[..|s| - 1][1..];
    }
  }

  /** No half-open interval of one window holds more than `cap` slots. */
  lemma {:induction false} AtMostCapPerWindow(slots: seq<real>, cap: nat, from: real)
    requires cap >= 1 && Spaced(slots, cap)
    ensures CountIn(slots, from, from + ACTION_WINDOW_S) <= cap
    decreases |slots|
  {
    if slots != [] {
      var n := |slots| - 1;
      if slots[n] >= from + ACTION_WINDOW_S {
        AtMostCapPerWindow(slots[..n], cap, from);
        CountWithoutLast(slots, from, from + ACTION_WINDOW_S);
      } else {
        forall i | 0 <= i < |slots| - cap
          ensures slots[i] < from
        {
          assert i + cap <= n;
          assert slots[i + cap] >= slots[i] + ACTION_WINDOW_S;
        }
        CountAtMost(slots, from, from + ACTION_WINDOW_S, cap);
      }
    }
  }

  // ---------------------------------------------------------------------------
  // A burst
  // ---------------------------------------------------------------------------

  /** A history of slots, then those of a burst of `m` calls at one instant. */
  ghost function Burst(slots: seq<real>, cap: nat, now: real, m: nat): (all: seq<real>)
    requires cap >= 1
    ensures |all| == |slots| + m && slots <= all
  {
    if m == 0 then slots else var before := Burst(slots, cap, now, m - 1); before + [NextSlot(before, cap, now)]
  }

  lemma DivShift(i: int, cap: int)
    requires 1 <= cap <= i
    ensures i / cap == (i - cap) / cap + 1
    ensures (i - cap) / cap >= 0
  {
    var q := (i - cap) / cap;
    DivisionIsUnique(i, cap, q + 1, (i - cap) % cap);
  }

  /** A window that prunes to nothing has nothing recent. */
  lemma {:induction false} PrunedAway(slots: seq<real>, cutoff: real, i: nat)
    requires Pruned(slots, cutoff) == [] && i < |slots|
    ensures slots[i] <= cutoff
  {
    if i > 0 {
      PrunedAway(slots[1..], cutoff, i - 1);
    }
  }

  /** Whatever was reserved before: if the match's window has emptied, call number `i` of a
      burst, from 0, waits exactly `i / cap` windows. */
  lemma {:induction false} BurstWaits(slots: seq<real>, cap: nat, now: real, m: nat, i: nat)
    requires cap >= 1 && i < m && Pruned(slots, now - ACTION_WINDOW_S) == []
    ensures Burst(slots, cap, now, m)[|slots| + i] == now + (i / cap) as real * ACTION_WINDOW_S
    decreases m
  {
    var before := Burst(slots, cap, now, m - 1);
    if i < m - 1 {
      BurstWaits(slots, cap, now, m - 1, i);
    } else if i < cap {
      DivisionIsUnique(i, cap, 0, i);
      if |before| >= cap {
        assert before[|before| - cap] == slots[|before| - cap];
        PrunedAway(slots, now - ACTION_WINDOW_S, |before| - cap);
      }
    } else {
      DivShift(i, cap);
      BurstWaits(slots, cap, now, m - 1, i - cap);
    }
  }

  // ---------------------------------------------------------------------------
  // The action throttle
  // ---------------------------------------------------------------------------

  /** One match's window against the slots ever reserved for it. */
  ghost predicate ThrottleOk(slots: seq<real>, window: seq<real>, cap: nat, clock: real) {
    IsTail(slots, window, clock - ACTION_WINDOW_S) && Spaced(slots, cap) && PutOff(slots, cap, clock)
  }

  lemma ThrottleLater(slots: seq<real>, window: seq<real>, cap: nat, clock: real, now: real)
    requires ThrottleOk(slots, window, cap, clock) && clock <= now
    ensures ThrottleOk(slots, window, cap, now)
  {
    TailStays(slots, window, clock - ACTION_WINDOW_S, now - ACTION_WINDOW_S);
  }

  lemma ThrottleReserves(slots: seq<real>, window: seq<real>, cap: nat, clock: real, now: real)
    requires cap >= 1 && ThrottleOk(slots, window, cap, clock) && clock <= now
    ensures var pruned := Pruned(window, now - ACTION_WINDOW_S);
            var slot := NextSlot(slots, cap, now);
            && NextSlot(pruned, cap, now) == slot
            && |pruned| == CountAfter(slots, now - ACTION_WINDOW_S)
            && ThrottleOk(slots, pruned, cap, now)
            && ThrottleOk(slots + [slot], pruned + [slot], cap, now)
  {
    var pruned := Pruned(window, now - ACTION_WINDOW_S);
    PrunedIsTail(slots, window, clock - ACTION_WINDOW_S, now - ACTION_WINDOW_S);
    PrunedCounts(slots, window, clock - ACTION_WINDOW_S, now - ACTION_WINDOW_S);
    WindowGivesNextSlot(slots, pruned, cap, now);
    SlotKeepsSpacing(slots, cap, clock, now);
    TailGrows(slots, pruned, now - ACTION_WINDOW_S, NextSlot(slots, cap, now));
  }

  ghost predicate AllThrottled(history: map<string, seq<real>>, actions: map<string, seq<real>>, cap: nat, clock: real) {
    forall k :: ThrottleOk(Lookup(history, k), Lookup(actions, k), cap, clock)
  }

  lemma AllThrottledAfter(
      history: map<string, seq<real>>, actions: map<string, seq<real>>, cap: nat, clock: real, now: real,
      id: string, slots: seq<real>, window: seq<real>)
    requires AllThrottled(history, actions, cap, clock) && clock <= now
    requires ThrottleOk(slots, window, cap, now)
    ensures AllThrottled(history[id := slots], actions[id := window], cap, now)
  {
    var grown, held := history[id := slots], actions[id := window];
    forall k
      ensures ThrottleOk(Lookup(grown, k), Lookup(held, k), cap, now)
    {
      if k != id {
        ThrottleLater(Lookup(history, k), Lookup(actions, k), cap, clock, now);
      }
    }
  }

  /** What one call may do to a throttle: keep the pruned window, or take the next slot. */
  lemma CallKeepsThrottle(
      history: map<string, seq<real>>, actions: map<string, seq<real>>, cap: nat, clock: real, now: real, id: string)
    requires cap >= 1 && AllThrottled(history, actions, cap, clock) && clock <= now
    ensures var slots := Lookup(history, id);
            var pruned := Pruned(Lookup(actions, id), now - ACTION_WINDOW_S);
            var slot := NextSlot(slots, cap, now);
            && NextSlot(pruned, cap, now) == slot
            && |pruned| == CountAfter(slots, now - ACTION_WINDOW_S)
            && AllThrottled(history[id := slots], actions[id := pruned], cap, now)
            && AllThrottled(history[id := slots + [slot]], actions[id := pruned + [slot]], cap, now)
  {
    var slots := Lookup(history, id);
    var pruned := Pruned(Lookup(actions, id), now - ACTION_WINDOW_S);
    var slot := NextSlot(slots, cap, now);
    assert ThrottleOk(slots, Lookup(actions, id), cap, clock);
    ThrottleReserves(slots, Lookup(actions, id), cap, clock, now);
    AllThrottledAfter(history, actions, cap, clock, now, id, slots, pruned);
    AllThrottledAfter(history, actions, cap, clock, now, id, slots + [slot], pruned + [slot]);
  }

  /** Whatever was called and whatever was pruned: of all the slots ever reserved for a
      match, no window holds more than `cap`. */
  lemma ThrottleHolds(history: map<string, seq<real>>, actions: map<string, seq<real>>, cap: nat, clock: real, id: string, from: real)
    requires cap >= 1 && AllThrottled(history, actions, cap, clock)
    ensures CountIn(Lookup(history, id), from, from + ACTION_WINDOW_S) <= cap
  {
    assert ThrottleOk(Lookup(history, id), Lookup(actions, id), cap, clock);
    AtMostCapPerWindow(Lookup(history, id), cap, from);
  }

  /** The per-match action windows, with the slots reserved since each match was last
      forgotten as ghost history. */
  class ActionThrottle {
    const cap: nat
    var actions: map<string, seq<real>>
    ghost var history: map<string, seq<real>>
    ghost var clock: real

    ghost predicate Valid()
      reads this
    {
      cap >= 1 && AllThrottled(history, actions, cap, clock)
    }

    constructor (cap: nat, start: real)
      requires cap >= 1
      ensures Valid() && this.cap == cap && clock == start && history == map[]
    {
      this.cap := cap;
      actions, history := map[], map[];
      clock := start;
    }

    /** Reserves the next slot: the one the whole history of slots gives, although the window
        has forgotten most of it. */
    method ReserveAction(matchId: string, now: real) returns (delay: real)
      requires Valid() && clock <= now
      modifies this
      ensures Valid() && clock == now
      ensures delay == NextSlot(Lookup(old(history), matchId), cap, now) - now
      ensures delay >= 0.0
      ensures history == old(history)[matchId := Lookup(old(history), matchId) + [now + delay]]
    {
      CallKeepsThrottle(history, actions, cap, clock, now, matchId);
      var window := Prune(Lookup(actions, matchId), now, ACTION_WINDOW_S);
      var slot := now;
      if |window| >= cap {
        var after := window[|window| - cap] + ACTION_WINDOW_S;
        slot := if after > now then after else now;
      }
      assert slot == NextSlot(window, cap, now);
      actions := actions[matchId := window + [slot]];
      history := history[matchId := Lookup(history, matchId) + [slot]];
      clock := now;
      delay := slot - now;
    }

    /** Refuses when `cap` slots already lie in the trailing window; else takes one now. */
    method CheckAction(matchId: string, now: real) returns (ok: bool)
      requires Valid() && clock <= now
      modifies this
      ensures Valid() && clock == now
      ensures ok <==> CountAfter(Lookup(old(history), matchId), now - ACTION_WINDOW_S) < cap
      ensures history == old(history)[matchId := Lookup(old(history), matchId) + if ok then [now] else []]
    {
      CallKeepsThrottle(history, actions, cap, clock, now, matchId);
      var window := Prune(Lookup(actions, matchId), now, ACTION_WINDOW_S);
      ok := |window| < cap;
      assert ok ==> NextSlot(window, cap, now) == now;
      assert Lookup(history, matchId) + [] == Lookup(history, matchId);
      actions := actions[matchId := if ok then window + [now] else window];
      history := history[matchId := Lookup(history, matchId) + if ok then [now] else []];
      clock := now;
    }

    method ForgetMatch(matchId: string)
      requires Valid()
      modifies this
      ensures Valid() && clock == old(clock) && history == old(history) - {matchId}
    {
      ghost var before, held := history, actions;
      actions := actions - {matchId};
      history := history - {matchId};
      forall k
        ensures ThrottleOk(Lookup(history, k), Lookup(actions, k), cap, clock)
      {
        assert k != matchId ==> ThrottleOk(Lookup(before, k), Lookup(held, k), cap, clock);
      }
    }
  }

  // ---------------------------------------------------------------------------
  // Keyed windows with lazy cleanup
  // ---------------------------------------------------------------------------

  /** One key's window against everything ever recorded under it. */
  ghost predicate WindowOk(log: seq<real>, window: seq<real>, clock: real, span: real) {
    && Sorted(log)
    && (forall i :: 0 <= i < |log| ==> log[i] <= clock)
    && IsTail(log, window, clock - span)
  }

  lemma WindowLater(log: seq<real>, window: seq<real>, clock: real, now: real, span: real)
    requires WindowOk(log, window, clock, span) && clock <= now
    ensures WindowOk(log, window, now, span)
  {
    TailStays(log, window, clock - span, now - span);
  }

  /** A window that is empty, or whose last timestamp is out of the span, may be forgotten. */
  lemma {:induction false} StaleIsForgettable(log: seq<real>, window: seq<real>, cutoff: real)
    requires IsTail(log, window, cutoff) && Sorted(log)
    requires window == [] || window[|window| - 1] <= cutoff
    ensures IsTail(log, [], cutoff)
    decreases |log|
  {
    if log == [] {
    } else if log == window {
      assert log[0] <= log[|log| - 1];
      StaleIsForgettable(log[1..], window[1..], cutoff);
    } else {
      StaleIsForgettable(log[1..], window, cutoff);
    }
  }

  lemma WindowRecords(log: seq<real>, window: seq<real>, clock: real, now: real, span: real)
    requires span > 0.0 && WindowOk(log, window, clock, span) && clock <= now
    ensures var pruned := Pruned(window, now - span);
            && |pruned| == CountAfter(log, now - span)
            && WindowOk(log, pruned, now, span)
            && WindowOk(log + [now], pruned + [now], now, span)
  {
    PrunedIsTail(log, window, clock - span, now - span);
    PrunedCounts(log, window, clock - span, now - span);
    TailGrows(log, Pruned(window, now - span), now - span, now);
  }

  ghost predicate AllWindowsOk(log: map<string, seq<real>>, windows: map<string, seq<real>>, clock: real, span: real) {
    forall key :: WindowOk(Lookup(log, key), Lookup(windows, key), clock, span)
  }

  lemma AllWindowsLater(log: map<string, seq<real>>, windows: map<string, seq<real>>, clock: real, now: real, span: real)
    requires AllWindowsOk(log, windows, clock, span) && clock <= now
    ensures AllWindowsOk(log, windows, now, span)
  {
    forall key
      ensures WindowOk(Lookup(log, key), Lookup(windows, key), now, span)
    {
      WindowLater(Lookup(log, key), Lookup(windows, key), clock, now, span);
    }
  }

  lemma DropStale(log: map<string, seq<real>>, windows: map<string, seq<real>>, now: real, span: real, stale: string)
    requires AllWindowsOk(log, windows, now, span)
    requires var w := Lookup(windows, stale); w == [] || w[|w| - 1] <= now - span
    ensures AllWindowsOk(log, windows - {stale}, now, span)
  {
    forall key
      ensures WindowOk(Lookup(log, key), Lookup(windows - {stale}, key), now, span)
    {
      assert WindowOk(Lookup(log, key), Lookup(windows, key), now, span);
      if key == stale {
        StaleIsForgettable(Lookup(log, key), Lookup(windows, key), now - span);
      } else {
        assert Lookup(windows - {stale}, key) == Lookup(windows, key);
      }
    }
  }

  lemma AllWindowsAfter(
      log: map<string, seq<real>>, windows: map<string, seq<real>>, now: real, span: real,
      id: string, record: seq<real>, window: seq<real>)
    requires AllWindowsOk(log, windows, now, span) && WindowOk(record, window, now, span)
    ensures AllWindowsOk(log[id := record], windows[id := window], now, span)
  {
    var grown, held := log[id := record], windows[id := window];
    forall key
      ensures WindowOk(Lookup(grown, key), Lookup(held, key), now, span)
    {
      assert key != id ==> WindowOk(Lookup(log, key), Lookup(windows, key), now, span);
    }
  }

  /** Nothing of the window is later than the cutoff. */
  predicate IsStale(window: seq<real>, cutoff: real) {
    window == [] || window[|window| - 1] <= cutoff
  }

  function Recent(windows: map<string, seq<real>>, cutoff: real): map<string, seq<real>> {
    map k | k in windows && !IsStale(windows[k], cutoff) :: windows[k]
  }

  /** `scan` is the key count that makes the next scan due and when the last one ran. */
  predicate ScanDue(scan: Option<(int, real)>, keys: nat, now: real, span: real) {
    var (threshold, last) := if scan.Some? then scan.value else (PRUNE_THRESHOLD, now);
    keys >= threshold || (keys >= PRUNE_THRESHOLD && now - last >= span)
  }

  /** One dictionary of sliding windows (opens, creations or reads) and its next scan. The
      ghost log keeps every timestamp ever recorded, for ever. */
  class KeyedWindows {
    const span: real
    const cap: nat
    var windows: map<string, seq<real>>
    var scan: Option<(int, real)>
    ghost var log: map<string, seq<real>>
    ghost var clock: real

    ghost predicate Valid()
      reads this
    {
      span > 0.0 && AllWindowsOk(log, windows, clock, span) && |windows| <= KeyLimit() && KeyLimit() >= 4096
    }

    /** The most keys there may be before the next scan. */
    ghost function KeyLimit(): int
      reads this
    {
      if scan.Some? then scan.value.0 else 4096
    }

    constructor (span: real, cap: nat, start: real)
      requires span > 0.0
      ensures Valid() && this.span == span && this.cap == cap && clock == start && log == map[]
    {
      this.span, this.cap := span, cap;
      windows, log, scan := map[], map[], None;
      clock := start;
    }

    /** A scan is due at a new key once there are many keys, or a window after the last scan;
        it drops exactly the keys whose window is empty or wholly out of the span. */
    method ScanIfDue(key: string, now: real)
      requires Valid() && clock <= now
      modifies this`windows, this`scan, this`clock
      ensures Valid() && clock == now
      ensures windows == if key !in old(windows) && ScanDue(old(scan), |old(windows)|, now, span) then Recent(old(windows), now - span) else old(windows)
      ensures scan == if key !in old(windows) && ScanDue(old(scan), |old(windows)|, now, span)
                      then Some((if 2 * |windows| > PRUNE_THRESHOLD then 2 * |windows| else PRUNE_THRESHOLD, now)) else old(scan)
      ensures forall k :: k in old(windows) && k !in windows ==>
        old(windows)[k] == [] || old(windows)[k][|old(windows)[k]| - 1] <= now - span
      ensures key !in old(windows) && |old(windows)| >= old(KeyLimit()) ==> forall k :: k in windows ==>
        windows[k] != [] && windows[k][|windows[k]| - 1] > now - span
      ensures key !in windows ==> |windows| < KeyLimit()
      ensures key !in windows && |windows| >= 4096 ==> scan.Some? && now - scan.value.1 < span
    {
      AllWindowsLater(log, windows, clock, now, span);
      clock := now;
      if ScanDue(scan, |windows|, now, span) && key !in windows {
        var todo := windows.Keys;
        while todo != {}
          invariant AllWindowsOk(log, windows, now, span) && clock == now && scan == old(scan)
          invariant todo <= windows.Keys <= old(windows).Keys
          invariant forall k :: k in windows ==> windows[k] == old(windows)[k]
          invariant forall k :: k in old(windows) && k !in todo ==> (k in windows <==> !IsStale(old(windows)[k], now - span))
          invariant forall k :: k in todo ==> k in windows
          decreases todo
        {
          var k :| k in todo;
          todo := todo - {k};
          if IsStale(windows[k], now - span) {
            DropStale(log, windows, now, span, k);
            windows := windows - {k};
          }
        }
        assert windows == Recent(old(windows), now - span);
        scan := Some((if 2 * |windows| > PRUNE_THRESHOLD then 2 * |windows| else PRUNE_THRESHOLD, now));
      }
    }

    /** Records one event under `key` unless the cap is reached. However the dictionary was
        cleaned, the decision is that of a limiter that keeps every timestamp for ever; and it
        is cleaned often enough that it never holds more keys than twice what the last scan
        left, or 4096. */
    method Check(key: string, now: real) returns (ok: bool)
      requires Valid() && clock <= now
      modifies this
      ensures Valid() && clock == now
      ensures |windows| <= KeyLimit()
      ensures ok <==> CountAfter(Lookup(old(log), key), now - span) < cap
      ensures log == old(log)[key := Lookup(old(log), key) + if ok then [now] else []]
    {
      ScanIfDue(key, now);
      ghost var record := Lookup(log, key);
      var window := Lookup(windows, key);
      assert WindowOk(record, window, clock, span);
      WindowRecords(record, window, clock, now, span);
      window := Prune(window, now, span);
      ok := |window| < cap;
      assert record + [] == record;
      var kept := if ok then window + [now] else window;
      AllWindowsAfter(log, windows, now, span, key, record + if ok then [now] else [], kept);
      windows := windows[key := kept];
      log := log[key := record + if ok then [now] else []];
    }
  }
}
