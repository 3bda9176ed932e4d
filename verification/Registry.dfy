/**
 The registry of hosted matches: admission and eviction (src/arena/server/registry.py).
 Each locked method is one step, `create` included; the clock never goes back between them.
 */
module Registries {
  import opened Wrappers
  import opened Runtime

  /** Match ids, as the total order ties are broken by. */
  type MatchId = int

  datatype Limits = Limits(retention: real, maxAge: real, unstartedMaxAge: real, maxMatches: nat)

  /** `activity` is (lifecycle, committed turns) as the last sweep saw it, `activityAt` when it
      first did. */
  datatype Tracked = Tracked(id: MatchId, lifecycle: Lifecycle, turns: nat, activity: (Lifecycle, nat), activityAt: real, driverActive: bool)

  predicate Terminal(t: Tracked) {
    t.lifecycle == Finished || t.lifecycle == Aborted
  }

  /** May be shed for room: no driver holds it, and it has ended or never started. */
  predicate Free(t: Tracked) {
    !t.driverActive && (Terminal(t) || t.lifecycle == Created)
  }

  function LimitOf(limits: Limits, t: Tracked): real {
    if Terminal(t) then limits.retention
    else if t.lifecycle == Created then limits.unstartedMaxAge
    else limits.maxAge
  }

  /** The sweep notices a change; a match its driver holds is not looked at. */
  function Refreshed(t: Tracked, now: real): Tracked {
    if t.driverActive || t.activity == (t.lifecycle, t.turns) then t
    else t.(activity := (t.lifecycle, t.turns), activityAt := now)
  }

  predicate Expired(limits: Limits, t: Tracked, now: real) {
    !t.driverActive && now - Refreshed(t, now).activityAt >= LimitOf(limits, t)
  }

  predicate Distinct(ms: seq<Tracked>) {
    forall i, j :: 0 <= i < j < |ms| ==> ms[i].id != ms[j].id
  }

  function Ids(ms: seq<Tracked>): set<MatchId> {
    set t | t in ms :: t.id
  }

  // ---------------------------------------------------------------------------
  // One sweep
  // ---------------------------------------------------------------------------

  /** What has not expired, refreshed, in order. */
  function Unexpired(limits: Limits, ms: seq<Tracked>, now: real): seq<Tracked> {
    if ms == [] then []
    else if Expired(limits, ms[0], now) then Unexpired(limits, ms[1..], now)
    else [Refreshed(ms[0], now)] + Unexpired(limits, ms[1..], now)
  }

  function ExpiredIds(limits: Limits, ms: seq<Tracked>, now: real): seq<MatchId> {
    if ms == [] then []
    else if Expired(limits, ms[0], now) then [ms[0].id] + ExpiredIds(limits, ms[1..], now)
    else ExpiredIds(limits, ms[1..], now)
  }

  /** Ended before never started, then oldest activity first, then by id. */
  predicate ShedBefore(a: Tracked, b: Tracked) {
    if Terminal(a) != Terminal(b) then Terminal(a)
    else a.activityAt < b.activityAt || (a.activityAt == b.activityAt && a.id <= b.id)
  }

  function Insert(t: Tracked, ranked: seq<Tracked>): seq<Tracked> {
    if ranked == [] || ShedBefore(t, ranked[0]) then [t] + ranked else [ranked[0]] + Insert(t, ranked[1..])
  }

  /** The free matches in the order they are shed. */
  function Sheddable(ms: seq<Tracked>): seq<Tracked> {
    if ms == [] then []
    else if Free(ms[0]) then Insert(ms[0], Sheddable(ms[1..]))
    else Sheddable(ms[1..])
  }

  /** Enough of them to leave room for one more match, or all of them. */
  function Shed(limits: Limits, ms: seq<Tracked>): seq<Tracked> {
    var ranked := Sheddable(ms);
    var overflow := |ms| - limits.maxMatches + 1;
    if overflow <= 0 then [] else if overflow <= |ranked| then ranked[..overflow] else ranked
  }

  function Without(ms: seq<Tracked>, gone: set<MatchId>): seq<Tracked> {
    if ms == [] then []
    else if ms[0].id in gone then Without(ms[1..], gone)
    else [ms[0]] + Without(ms[1..], gone)
  }

  /** What a sweep at `now` leaves. */
  function Swept(limits: Limits, ms: seq<Tracked>, now: real): seq<Tracked> {
    var left := Unexpired(limits, ms, now);
    Without(left, Ids(Shed(limits, left)))
  }

  // ---------------------------------------------------------------------------
  // What a sweep leaves
  // ---------------------------------------------------------------------------

  lemma {:induction false} UnexpiredAre(limits: Limits, ms: seq<Tracked>, now: real)
    ensures forall r :: r in Unexpired(limits, ms, now) <==> exists t :: t in ms && !Expired(limits, t, now) && r == Refreshed(t, now)
    ensures Distinct(ms) ==> Distinct(Unexpired(limits, ms, now))
    ensures |Unexpired(limits, ms, now)| <= |ms|
  {
    if ms != [] {
      var rest := Unexpired(limits, ms[1..], now);
      UnexpiredAre(limits, ms[1..], now);
      forall r | r in rest
        ensures exists t :: t in ms && !Expired(limits, t, now) && r == Refreshed(t, now)
      {
        var t :| t in ms[1..] && !Expired(limits, t, now) && r == Refreshed(t, now);
        assert t in ms;
      }
      forall t | t in ms && !Expired(limits, t, now)
        ensures Refreshed(t, now) in Unexpired(limits, ms, now)
      {
        assert t == ms[0] || t in ms[1..];
      }
      if Distinct(ms) {
        forall j | 0 <= j < |rest|
          ensures rest[j].id != ms[0].id
        {
          assert rest[j] in rest;
          var t :| t in ms[1..] && rest[j] == Refreshed(t, now);
        }
      }
    }
  }

  predicate Ranked(ms: seq<Tracked>) {
    forall i, j :: 0 <= i < j < |ms| ==> ShedBefore(ms[i], ms[j])
  }

  lemma {:induction false} InsertRanks(t: Tracked, ranked: seq<Tracked>)
    requires Ranked(ranked)
    ensures Ranked(Insert(t, ranked)) && |Insert(t, ranked)| == |ranked| + 1
    ensures forall x :: x in Insert(t, ranked) <==> x == t || x in ranked
    ensures Distinct(ranked) && t.id !in Ids(ranked) ==> Distinct(Insert(t, ranked))
  {
    if ranked != [] && !ShedBefore(t, ranked[0]) {
      var rest := Insert(t, ranked[1..]);
      InsertRanks(t, ranked[1..]);
      assert ranked == [ranked[0]] + ranked[1..];
      forall j | 0 <= j < |rest|
        ensures ShedBefore(ranked[0], rest[j])
        ensures Distinct(ranked) && t.id !in Ids(ranked) ==> ranked[0].id != rest[j].id
      {
        assert rest[j] in rest;
      }
    }
  }

  lemma {:induction false} SheddableRanks(ms: seq<Tracked>)
    ensures Ranked(Sheddable(ms)) && |Sheddable(ms)| <= |ms|
    ensures forall t :: t in Sheddable(ms) <==> t in ms && Free(t)
    ensures Distinct(ms) ==> Distinct(Sheddable(ms))
  {
    if ms != [] {
      var rest := Sheddable(ms[1..]);
      SheddableRanks(ms[1..]);
      assert ms == [ms[0]] + ms[1..];
      if Free(ms[0]) {
        InsertRanks(ms[0], rest);
        if Distinct(ms) {
          forall x | x in rest
            ensures x.id != ms[0].id
          {
            assert x in ms[1..];
          }
        }
      }
    }
  }

  lemma {:induction false} WithoutAre(ms: seq<Tracked>, gone: set<MatchId>)
    ensures forall t :: t in Without(ms, gone) <==> t in ms && t.id !in gone
    ensures Distinct(ms) ==> Distinct(Without(ms, gone))
    ensures |Without(ms, gone)| <= |ms|
  {
    if ms != [] {
      var rest := Without(ms[1..], gone);
      WithoutAre(ms[1..], gone);
      assert ms == [ms[0]] + ms[1..];
      if Distinct(ms) {
        forall j | 0 <= j < |rest|
          ensures rest[j].id != ms[0].id
        {
          assert rest[j] in rest;
        }
      }
    }
  }

  lemma {:induction false} WithoutNobody(ms: seq<Tracked>, gone: set<MatchId>)
    requires forall t :: t in ms ==> t.id !in gone
    ensures Without(ms, gone) == ms
  {
    if ms != [] {
      assert ms[0] in ms;
      WithoutNobody(ms[1..], gone);
    }
  }

  lemma {:induction false} WithoutOneMore(ms: seq<Tracked>, gone: set<MatchId>, t: Tracked)
    requires Distinct(ms) && t in ms && t.id !in gone
    ensures |Without(ms, gone + {t.id})| == |Without(ms, gone)| - 1
  {
    if t == ms[0] {
      assert forall x :: x in ms[1..] ==> x.id != t.id;
      WithoutSame(ms[1..], gone, gone + {t.id});
    } else {
      assert t in ms[1..];
      WithoutOneMore(ms[1..], gone, t);
    }
  }

  lemma {:induction false} WithoutSame(ms: seq<Tracked>, gone: set<MatchId>, other: set<MatchId>)
    requires forall t :: t in ms ==> (t.id in gone <==> t.id in other)
    ensures Without(ms, gone) == Without(ms, other)
  {
    if ms != [] {
      assert ms[0] in ms;
      WithoutSame(ms[1..], gone, other);
    }
  }

  lemma {:induction false} WithoutCounts(ms: seq<Tracked>, shed: seq<Tracked>)
    requires Distinct(ms) && Distinct(shed) && forall t :: t in shed ==> t in ms
    ensures |Without(ms, Ids(shed))| == |ms| - |shed|
    decreases |shed|
  {
    if shed == [] {
      WithoutNobody(ms, Ids(shed));
    } else {
      var last := shed[|shed| - 1];
      var before := shed[..|shed| - 1];
      WithoutCounts(ms, before);
      assert shed == before + [last];
      assert Ids(shed) == Ids(before) + {last.id};
      WithoutOneMore(ms, Ids(before), last);
    }
  }

  lemma DistinctFinds(ms: seq<Tracked>, a: Tracked, b: Tracked)
    requires Distinct(ms) && a in ms && b in ms && a.id == b.id
    ensures a == b
  {
  }

  /** A sweep drops a match only if it has expired or, at capacity, is free; it keeps every
      match its driver holds and every running one that has not expired. */
  lemma SweepSpares(limits: Limits, ms: seq<Tracked>, now: real, t: Tracked)
    requires Distinct(ms) && t in ms
    ensures Refreshed(t, now) !in Swept(limits, ms, now) ==>
      !t.driverActive && (Expired(limits, t, now) || (Free(t) && |Unexpired(limits, ms, now)| >= limits.maxMatches))
    ensures t.driverActive ==> t in Swept(limits, ms, now)
  {
    var left := Unexpired(limits, ms, now);
    var shed := Shed(limits, left);
    UnexpiredAre(limits, ms, now);
    SheddableRanks(left);
    WithoutAre(left, Ids(shed));
    var r := Refreshed(t, now);
    if r in left && r.id in Ids(shed) {
      var s :| s in shed && s.id == r.id;
      assert s in Sheddable(left);
      DistinctFinds(left, s, r);
    }
  }

  /** What is shed for room: a never-started match only once no free ended one is left, and of
      two alike in that the one unchanged for longer, by id where they tie. */
  lemma EndedAreShedFirst(limits: Limits, ms: seq<Tracked>, now: real, a: Tracked, b: Tracked)
    requires Distinct(ms) && a in Unexpired(limits, ms, now) && a !in Swept(limits, ms, now)
    requires b in Swept(limits, ms, now) && !b.driverActive && b.lifecycle != Running
    ensures !a.driverActive && a.lifecycle != Running
    ensures a.lifecycle == Created ==> b.lifecycle == Created
    ensures (a.lifecycle == Created <==> b.lifecycle == Created) ==>
      a.activityAt < b.activityAt || (a.activityAt == b.activityAt && a.id < b.id)
  {
    var left := Unexpired(limits, ms, now);
    var ranked := Sheddable(left);
    var shed := Shed(limits, left);
    UnexpiredAre(limits, ms, now);
    SheddableRanks(left);
    WithoutAre(left, Ids(shed));
    assert a.id in Ids(shed);
    var s :| s in shed && s.id == a.id;
    assert s in ranked;
    DistinctFinds(left, s, a);
    var i :| 0 <= i < |shed| && shed[i] == a;
    var j := Beyond(ranked, |shed|, b);
    assert ranked[i] == a && ShedBefore(ranked[i], ranked[j]);
  }

  lemma Beyond(ranked: seq<Tracked>, n: nat, t: Tracked) returns (j: nat)
    requires n <= |ranked| && t in ranked && t !in ranked[..n]
    ensures n <= j < |ranked| && ranked[j] == t
  {
    assert ranked == ranked[..n] + ranked[n..];
    j :| 0 <= j < |ranked[n..]| && ranked[n..][j] == t;
    j := j + n;
  }

  /** No more is shed than makes room, and room is made unless nothing free is left. */
  lemma SweepMakesJustRoom(limits: Limits, ms: seq<Tracked>, now: real)
    requires Distinct(ms)
    ensures var left := Unexpired(limits, ms, now);
            var kept := Swept(limits, ms, now);
            && (|left| < limits.maxMatches ==> kept == left)
            && (|left| >= limits.maxMatches > 0 ==> |kept| >= limits.maxMatches - 1)
            && (|kept| < limits.maxMatches || forall t :: t in kept ==> !Free(t))
  {
    var left := Unexpired(limits, ms, now);
    var shed := Shed(limits, left);
    UnexpiredAre(limits, ms, now);
    SheddableRanks(left);
    WithoutAre(left, Ids(shed));
    if shed == [] {
      WithoutNobody(left, Ids(shed));
    }
    forall t | t in shed
      ensures t in left
    {
      assert t in Sheddable(left);
    }
    WithoutCounts(left, shed);
    if |Swept(limits, ms, now)| >= limits.maxMatches {
      assert shed == Sheddable(left);
      forall t | t in Swept(limits, ms, now)
        ensures !Free(t)
      {
        assert t in left && t.id !in Ids(shed);
        assert t !in shed;
      }
    }
  }

  lemma SweptIdsAreOld(limits: Limits, ms: seq<Tracked>, now: real)
    ensures Ids(Swept(limits, ms, now)) <= Ids(ms)
  {
    var left := Unexpired(limits, ms, now);
    UnexpiredAre(limits, ms, now);
    WithoutAre(left, Ids(Shed(limits, left)));
    forall r | r in Swept(limits, ms, now)
      ensures r.id in Ids(ms)
    {
      var t :| t in ms && r == Refreshed(t, now);
    }
  }

  // ---------------------------------------------------------------------------
  // The registry
  // ---------------------------------------------------------------------------

  /** A session never goes back, so a pair seen before and seen again never changed between. */
  predicate SeenRightly(t: Tracked, changedAt: real, clock: real) {
    && changedAt <= clock && t.activityAt <= clock
    && t.activity.1 <= t.turns && Stage(t.activity.0) <= Stage(t.lifecycle)
    && (t.activity == (t.lifecycle, t.turns) ==> changedAt <= t.activityAt)
  }

  ghost predicate AllSeenRightly(ms: seq<Tracked>, changedAt: map<MatchId, real>, clock: real) {
    forall t :: t in ms ==> t.id in changedAt && SeenRightly(t, changedAt[t.id], clock)
  }

  /** A match expires only once its limit has passed since its true last change. */
  lemma ExpiresInTime(limits: Limits, t: Tracked, changedAt: real, clock: real, now: real)
    requires SeenRightly(t, changedAt, clock) && clock <= now && Expired(limits, t, now)
    ensures now - changedAt >= LimitOf(limits, t)
  {
  }

  /** What a sweep of a registry loses: never a match its driver holds; else one unchanged for
      the whole time its lifecycle allows since its true last change; else, at capacity, one
      that has ended or never started. A running match is lost only to age. */
  lemma EvictionKeepsTheLive(limits: Limits, ms: seq<Tracked>, changedAt: map<MatchId, real>, clock: real, now: real, t: Tracked)
    requires AllSeenRightly(ms, changedAt, clock) && Distinct(ms) && clock <= now && t in ms
    requires t.id !in Ids(Swept(limits, ms, now))
    ensures !t.driverActive
    ensures (match t.lifecycle
             case Created => now - changedAt[t.id] >= limits.unstartedMaxAge
             case Running => now - changedAt[t.id] >= limits.maxAge
             case _ => now - changedAt[t.id] >= limits.retention)
            || (t.lifecycle != Running && |Unexpired(limits, ms, now)| >= limits.maxMatches)
  {
    SweepSpares(limits, ms, now, t);
    assert Refreshed(t, now) !in Swept(limits, ms, now);
    if Expired(limits, t, now) {
      ExpiresInTime(limits, t, changedAt[t.id], clock, now);
    }
  }

  /** And a match nobody drives, seen by an earlier sweep as it still stands, goes once the time
      its lifecycle allows has passed since then. */
  lemma IdleMatchesGo(limits: Limits, ms: seq<Tracked>, now: real, t: Tracked)
    requires Distinct(ms) && t in ms && !t.driverActive && t.activity == (t.lifecycle, t.turns)
    requires match t.lifecycle
             case Created => now - t.activityAt >= limits.unstartedMaxAge
             case Running => now - t.activityAt >= limits.maxAge
             case _ => now - t.activityAt >= limits.retention
    ensures t.id !in Ids(Swept(limits, ms, now))
  {
    assert t.id in ExpiredIds(limits, ms, now) by {
      ExpiredIdsAre(limits, ms, now);
    }
    DoomedAre(limits, ms, now, t.id);
  }

  lemma SweptSeenRightly(limits: Limits, ms: seq<Tracked>, changedAt: map<MatchId, real>, clock: real, now: real)
    requires AllSeenRightly(ms, changedAt, clock) && clock <= now && Distinct(ms)
    ensures AllSeenRightly(Swept(limits, ms, now), changedAt, now) && Distinct(Swept(limits, ms, now))
  {
    var left := Unexpired(limits, ms, now);
    UnexpiredAre(limits, ms, now);
    WithoutAre(left, Ids(Shed(limits, left)));
    forall r | r in left
      ensures r.id in changedAt && SeenRightly(r, changedAt[r.id], now)
    {
      var t :| t in ms && r == Refreshed(t, now);
    }
  }

  /** One match has moved on since it was last seen. */
  lemma MovedSeenRightly(ms: seq<Tracked>, changedAt: map<MatchId, real>, clock: real, i: nat, moved: Tracked, now: real)
    requires AllSeenRightly(ms, changedAt, clock) && Distinct(ms) && i < |ms| && clock <= now
    requires moved == ms[i].(lifecycle := moved.lifecycle, turns := moved.turns, driverActive := moved.driverActive)
    requires Stage(ms[i].lifecycle) <= Stage(moved.lifecycle) && ms[i].turns <= moved.turns
    requires Stage(ms[i].lifecycle) == Stage(moved.lifecycle) ==> ms[i].lifecycle == moved.lifecycle
    ensures Distinct(ms[i := moved])
    ensures (ms[i].lifecycle, ms[i].turns) == (moved.lifecycle, moved.turns) ==> AllSeenRightly(ms[i := moved], changedAt, now)
    ensures (ms[i].lifecycle, ms[i].turns) != (moved.lifecycle, moved.turns) ==> AllSeenRightly(ms[i := moved], changedAt[moved.id := now], now)
  {
    assert ms[i] in ms;
    var changed := (ms[i].lifecycle, ms[i].turns) != (moved.lifecycle, moved.turns);
    var changedAt' := if changed then changedAt[moved.id := now] else changedAt;
    forall t | t in ms[i := moved]
      ensures t.id in changedAt' && SeenRightly(t, changedAt'[t.id], now)
    {
      var k :| 0 <= k < |ms| && ms[i := moved][k] == t;
      if k != i {
        assert ms[k] in ms && ms[k].id != moved.id;
      }
    }
  }

  lemma {:induction false} ExpiredIdsAre(limits: Limits, ms: seq<Tracked>, now: real)
    ensures forall id :: id in ExpiredIds(limits, ms, now) <==> exists t :: t in ms && t.id == id && Expired(limits, t, now)
  {
    if ms != [] {
      ExpiredIdsAre(limits, ms[1..], now);
      forall t | t in ms && Expired(limits, t, now)
        ensures t.id in ExpiredIds(limits, ms, now)
      {
        assert t == ms[0] || t in ms[1..];
      }
      forall id | id in ExpiredIds(limits, ms, now)
        ensures exists t :: t in ms && t.id == id && Expired(limits, t, now)
      {
        if !Expired(limits, ms[0], now) || id != ms[0].id {
          var t :| t in ms[1..] && t.id == id && Expired(limits, t, now);
          assert t in ms;
        } else {
          assert ms[0] in ms;
        }
      }
    }
  }

  /** The ids a sweep returns are the ones it removed. */
  lemma DoomedAre(limits: Limits, ms: seq<Tracked>, now: real, id: MatchId)
    requires Distinct(ms)
    ensures var shed := Ids(Shed(limits, Unexpired(limits, ms, now)));
            id in ExpiredIds(limits, ms, now) || id in shed <==> id in Ids(ms) && id !in Ids(Swept(limits, ms, now))
  {
    var left := Unexpired(limits, ms, now);
    var shed := Shed(limits, left);
    UnexpiredAre(limits, ms, now);
    SheddableRanks(left);
    WithoutAre(left, Ids(shed));
    ExpiredIdsAre(limits, ms, now);
    if id in Ids(shed) {
      var s :| s in shed && s.id == id;
      assert s in Sheddable(left);
      var t :| t in ms && s == Refreshed(t, now);
    }
    if t :| t in ms && t.id == id {
      if !Expired(limits, t, now) {
        assert Refreshed(t, now) in left;
        if id !in Ids(shed) {
          assert Refreshed(t, now) in Swept(limits, ms, now);
        }
      } else {
        forall r | r in Swept(limits, ms, now)
          ensures r.id != id
        {
          var u :| u in ms && !Expired(limits, u, now) && r == Refreshed(u, now);
          if u.id == id {
            DistinctFinds(ms, t, u);
          }
        }
      }
    }
  }

  lemma {:induction false} SweepSnoc(limits: Limits, ms: seq<Tracked>, t: Tracked, now: real)
    ensures Unexpired(limits, ms + [t], now) == Unexpired(limits, ms, now) + if Expired(limits, t, now) then [] else [Refreshed(t, now)]
    ensures ExpiredIds(limits, ms + [t], now) == ExpiredIds(limits, ms, now) + if Expired(limits, t, now) then [t.id] else []
  {
    if ms == [] {
      assert [] + [t] == [t] && [t][1..] == [];
    } else {
      assert (ms + [t])[1..] == ms[1..] + [t];
      SweepSnoc(limits, ms[1..], t, now);
    }
  }

  function IdsInOrder(ms: seq<Tracked>): (r: seq<MatchId>)
    ensures forall id :: id in r <==> id in Ids(ms)
  {
    if ms == [] then []
    else
      assert ms == [ms[0]] + ms[1..];
      [ms[0].id] + IdsInOrder(ms[1..])
  }

  lemma AdmitSeenRightly(ms: seq<Tracked>, changedAt: map<MatchId, real>, now: real, id: MatchId)
    requires AllSeenRightly(ms, changedAt, now) && Distinct(ms) && id !in Ids(ms)
    ensures var t := Tracked(id, Created, 0, (Created, 0), now, false);
            AllSeenRightly(ms + [t], changedAt[id := now], now) && Distinct(ms + [t])
  {
    forall t | t in ms
      ensures t.id != id
    {
      assert t.id in Ids(ms);
    }
  }

  class MatchRegistry {
    const limits: Limits
    var matches: seq<Tracked>
    ghost var changedAt: map<MatchId, real>
    ghost var clock: real

    ghost predicate Valid()
      reads this
    {
      && limits.retention > 0.0 && limits.maxAge > 0.0 && limits.unstartedMaxAge > 0.0
      && Distinct(matches) && |matches| <= limits.maxMatches
      && AllSeenRightly(matches, changedAt, clock)
    }

    constructor (limits: Limits, start: real)
      requires limits.retention > 0.0 && limits.maxAge > 0.0 && limits.unstartedMaxAge > 0.0
      ensures Valid() && this.limits.maxMatches == limits.maxMatches && matches == [] && clock == start
      ensures this.limits.retention == limits.retention && this.limits.maxAge == limits.maxAge
      ensures this.limits.unstartedMaxAge == if limits.unstartedMaxAge <= limits.maxAge then limits.unstartedMaxAge else limits.maxAge
    {
      this.limits := limits.(unstartedMaxAge := if limits.unstartedMaxAge <= limits.maxAge then limits.unstartedMaxAge else limits.maxAge);
      matches, changedAt, clock := [], map[], start;
    }

    /** A hosted match moves on by itself: its lifecycle or its turns, or its driver starting
        and stopping. */
    method MatchMoves(i: nat, lifecycle: Lifecycle, turns: nat, driverActive: bool, now: real)
      requires Valid() && clock <= now && i < |matches|
      requires Stage(matches[i].lifecycle) <= Stage(lifecycle) && matches[i].turns <= turns
      requires Stage(matches[i].lifecycle) == Stage(lifecycle) ==> matches[i].lifecycle == lifecycle
      modifies this
      ensures Valid() && clock == now
      ensures matches == old(matches)[i := old(matches)[i].(lifecycle := lifecycle, turns := turns, driverActive := driverActive)]
    {
      var moved := matches[i].(lifecycle := lifecycle, turns := turns, driverActive := driverActive);
      MovedSeenRightly(matches, changedAt, clock, i, moved, now);
      if matches[i].lifecycle != lifecycle || matches[i].turns != turns {
        changedAt := changedAt[matches[i].id := now];
      }
      clock := now;
      matches := matches[i := moved];
    }

    /** The loop over every match, then the shedding. */
    method EvictExpired(now: real) returns (doomed: seq<MatchId>)
      requires Valid() && clock <= now
      modifies this
      ensures Valid() && clock == now && changedAt == old(changedAt)
      ensures matches == Swept(limits, old(matches), now)
      ensures forall id :: id in doomed <==> id in Ids(old(matches)) && id !in Ids(matches)
    {
      var left: seq<Tracked> := [];
      doomed := [];
      for i := 0 to |matches|
        invariant matches == old(matches) && changedAt == old(changedAt) && clock == old(clock)
        invariant left == Unexpired(limits, matches[..i], now)
        invariant doomed == ExpiredIds(limits, matches[..i], now)
      {
        assert matches[..i + 1] == matches[..i] + [matches[i]];
        SweepSnoc(limits, matches[..i], matches[i], now);
        if Expired(limits, matches[i], now) {
          doomed := doomed + [matches[i].id];
        } else {
          left := left + [Refreshed(matches[i], now)];
        }
      }
      assert matches[..|matches|] == matches;
      var shed := Shed(limits, left);
      SweptSeenRightly(limits, matches, changedAt, clock, now);
      WithoutAre(left, Ids(shed));
      UnexpiredAre(limits, matches, now);
      forall id
        ensures id in doomed || id in Ids(shed) <==> id in Ids(matches) && id !in Ids(Swept(limits, matches, now))
      {
        DoomedAre(limits, matches, now, id);
      }
      doomed := doomed + IdsInOrder(shed);
      matches := Without(left, Ids(shed));
      clock := now;
    }

    /** A new match is admitted once room is made for it, or refused when nothing can be shed. */
    method Create(id: MatchId, now: real) returns (ok: bool)
      requires Valid() && clock <= now && id !in Ids(matches)
      modifies this
      ensures Valid() && clock == now
      ensures ok <==> |Swept(limits, old(matches), now)| < limits.maxMatches
      ensures matches == Swept(limits, old(matches), now) + if ok then [Tracked(id, Created, 0, (Created, 0), now, false)] else []
      ensures !ok ==> forall t :: t in matches ==> !Free(t)
    {
      SweepMakesJustRoom(limits, matches, now);
      SweptIdsAreOld(limits, matches, now);
      var _ := EvictExpired(now);
      ok := |matches| < limits.maxMatches;
      if ok {
        AdmitSeenRightly(matches, changedAt, now, id);
        changedAt := changedAt[id := now];
        matches := matches + [Tracked(id, Created, 0, (Created, 0), now, false)];
      }
    }
  }
}
