/**
 The server's two caches: each viewer's match transcript, extended as turns are added, and
 the last spectator welcome of each match (src/arena/server/runtime_bridge.py:296-360, 430-502).
 */
module ViewCaches {
  import opened Lists
  import opened Wrappers
  import opened Games
  import opened LocalMatches
  import opened Transcripts
  import opened Redaction
  import opened Replay
  import Drivers
  import DriverSessions
  import Runtime

  const VIEW_TRANSCRIPTS_MAX: nat := 12
  const SPECTATOR_WELCOMES_MAX: nat := 16

  type MatchId = string

  // ---------------------------------------------------------------------------
  // Least recently used order
  // ---------------------------------------------------------------------------

  function Without<K(==, !new)>(order: seq<K>, key: K): (r: seq<K>)
    ensures forall k :: k in r <==> k in order && k != key
  {
    if order == [] then []
    else if order[0] == key then Without(order[1..], key)
    else [order[0]] + Without(order[1..], key)
  }

  lemma {:induction false} WithoutKeeps<K(!new)>(order: seq<K>, key: K)
    requires NoRepeats(order)
    ensures NoRepeats(Without(order, key))
  {
    if order != [] {
      var rest := Without(order[1..], key);
      WithoutKeeps(order[1..], key);
      forall j | 0 <= j < |rest|
        ensures order[0] != rest[j]
      {
        assert rest[j] in rest && rest[j] in order[1..];
      }
    }
  }

  lemma {:induction false} WithoutShrinks<K(!new)>(order: seq<K>, key: K)
    ensures |Without(order, key)| <= |order|
  {
    if order != [] {
      WithoutShrinks(order[1..], key);
    }
  }

  /** The last `max` keys: what popping the oldest leaves. */
  function Newest<K>(order: seq<K>, max: nat): (r: seq<K>)
    ensures |r| <= max && |r| <= |order|
  {
    if |order| <= max then order else order[|order| - max..]
  }

  /** The order after `key` is used: it is the newest, and only `max` keys stay. */
  function Used<K(==, !new)>(order: seq<K>, key: K, max: nat): seq<K> {
    Newest(Without(order, key) + [key], max)
  }

  lemma UsedKeeps<K(!new)>(order: seq<K>, key: K, max: nat)
    requires NoRepeats(order) && max >= 1
    ensures NoRepeats(Used(order, key, max)) && key in Used(order, key, max) && |Used(order, key, max)| <= max
    ensures forall k :: k in Used(order, key, max) ==> k == key || k in order
  {
    var rest := Without(order, key);
    var moved := rest + [key];
    WithoutKeeps(order, key);
    forall i | 0 <= i < |rest|
      ensures rest[i] != key
    {
      assert rest[i] in rest;
    }
    assert moved[|moved| - 1] == key;
    forall k | k in Used(order, key, max)
      ensures k == key || k in order
    {
      assert k in moved;
    }
    if |moved| > max {
      assert Used(order, key, max)[max - 1] == key;
    }
  }

  // ---------------------------------------------------------------------------
  // One viewer's transcript
  // ---------------------------------------------------------------------------

  datatype Key = Key(matchId: MatchId, renderAs: Viewer)

  datatype ViewTranscript<+J> = ViewTranscript(base: TranscriptPayload<J>, turns: seq<TurnPayload<J>>)

  /** With perfect information one rendering, the public one, serves every viewer. */
  function RenderAs<C, S, A, O, E, J>(g: Game<C, S, A, O, E, J>, viewer: Viewer): Viewer {
    if g.hasHiddenInformation then viewer else Public
  }

  /** All of a transcript but its turns. */
  function BaseFor<C, S, A, O, E, J>(g: Game<C, S, A, O, E, J>, config: C, renderAs: Viewer): TranscriptPayload<J> {
    var (view, viewerSeat) := ViewFor(g, renderAs);
    TranscriptPayload(g.gameId, MATCH_TRANSCRIPT_SCHEMA_VERSION, g.dumpConfigFor(config, renderAs),
                      BuildSnapshotFor(g, config, g.initialState(config), renderAs), [], view, viewerSeat)
  }

  /** The transcript rendered from nothing. */
  function Rendered<C, S, A, O, E, J>(g: Game<C, S, A, O, E, J>, m: LocalMatch<C, S, A, O, E, J>, renderAs: Viewer): TranscriptPayload<J> {
    BaseFor(g, m.config, renderAs).(turns := TurnsFor(g, m.config, m.turns, renderAs))
  }

  /** An entry holds the first turns of its match, rendered. */
  predicate IsPartOf<C, S, A, O, E, J(==)>(g: Game<C, S, A, O, E, J>, m: LocalMatch<C, S, A, O, E, J>, renderAs: Viewer, e: ViewTranscript<J>) {
    e.base == BaseFor(g, m.config, renderAs) && e.turns <= TurnsFor(g, m.config, m.turns, renderAs)
  }

  predicate Continues<C(==), S(==), A(==), O(==), E(==), J(==)>(m: LocalMatch<C, S, A, O, E, J>, next: LocalMatch<C, S, A, O, E, J>) {
    next.config == m.config && m.turns <= next.turns
  }

  lemma PartOfLonger<C, S, A, O, E, J>(g: Game<C, S, A, O, E, J>, m: LocalMatch<C, S, A, O, E, J>, next: LocalMatch<C, S, A, O, E, J>,
                                       renderAs: Viewer, e: ViewTranscript<J>)
    requires IsPartOf(g, m, renderAs, e) && Continues(m, next)
    ensures IsPartOf(g, next, renderAs, e)
  {
  }

  ghost predicate AllParts<C(!new), S(!new), A(!new), O(!new), E(!new), J(!new)>(
      g: Game<C, S, A, O, E, J>, matches: map<MatchId, LocalMatch<C, S, A, O, E, J>>, cache: map<Key, ViewTranscript<J>>)
  {
    forall k :: k in cache ==> k.matchId in matches && IsPartOf(g, matches[k.matchId], k.renderAs, cache[k])
  }

  lemma PartsGrow<C(!new), S(!new), A(!new), O(!new), E(!new), J(!new)>(
      g: Game<C, S, A, O, E, J>, matches: map<MatchId, LocalMatch<C, S, A, O, E, J>>, cache: map<Key, ViewTranscript<J>>,
      id: MatchId, next: LocalMatch<C, S, A, O, E, J>)
    requires AllParts(g, matches, cache) && (id in matches ==> Continues(matches[id], next))
    ensures AllParts(g, matches[id := next], cache)
  {
    forall k | k in cache && k.matchId == id
      ensures IsPartOf(g, next, k.renderAs, cache[k])
    {
      PartOfLonger(g, matches[id], next, k.renderAs, cache[k]);
    }
  }

  /** Keeping some of the parts, one of them renewed. */
  lemma PartsKept<C(!new), S(!new), A(!new), O(!new), E(!new), J(!new)>(
      g: Game<C, S, A, O, E, J>, matches: map<MatchId, LocalMatch<C, S, A, O, E, J>>, cache: map<Key, ViewTranscript<J>>,
      key: Key, e: ViewTranscript<J>, kept: seq<Key>)
    requires AllParts(g, matches, cache) && key.matchId in matches && IsPartOf(g, matches[key.matchId], key.renderAs, e)
    requires forall k :: k in kept ==> k == key || k in cache
    ensures AllParts(g, matches, Restricted(cache[key := e], kept))
    ensures Restricted(cache[key := e], kept).Keys == Members(kept)
  {
    var renewed := cache[key := e];
    assert forall k :: k in kept ==> k in renewed;
  }

  function Restricted<K(==), W>(m: map<K, W>, kept: seq<K>): map<K, W> {
    map k | k in m && k in kept :: m[k]
  }

  class ViewTranscripts<!C(!new), !S(!new), !A(!new), !O(!new), !E(!new), !J(!new, ==)> {
    const g: Game<C, S, A, O, E, J>
    var cache: map<Key, ViewTranscript<J>>
    var order: seq<Key>
    ghost var matches: map<MatchId, LocalMatch<C, S, A, O, E, J>>

    ghost predicate Valid()
      reads this
    {
      && AllParts(g, matches, cache)
      && cache.Keys == Members(order) && NoRepeats(order) && |order| <= VIEW_TRANSCRIPTS_MAX
    }

    constructor (g: Game<C, S, A, O, E, J>)
      ensures Valid() && this.g == g && order == [] && matches == map[]
    {
      this.g := g;
      cache, order, matches := map[], [], map[];
    }

    /** A match begins, or moves on to one that continues it. */
    ghost method MatchMoves(id: MatchId, next: LocalMatch<C, S, A, O, E, J>)
      requires Valid() && (id in matches ==> Continues(matches[id], next))
      modifies this`matches
      ensures Valid() && matches == old(matches)[id := next]
    {
      PartsGrow(g, matches, cache, id, next);
      matches := matches[id := next];
    }

    /** The transcript `viewer` may receive: whatever was cached, grown or evicted before, it
        is the one rendered from nothing. */
    method TranscriptFor(id: MatchId, m: LocalMatch<C, S, A, O, E, J>, viewer: Viewer) returns (r: TranscriptPayload<J>)
      requires Valid() && id in matches && matches[id] == m
      modifies this`cache, this`order
      ensures Valid() && r == Rendered(g, m, RenderAs(g, viewer))
      ensures g.hasHiddenInformation ==> r == DumpTranscriptFor(g, m, viewer)
      ensures order == Used(old(order), Key(id, RenderAs(g, viewer)), VIEW_TRANSCRIPTS_MAX)
    {
      var renderAs := RenderAs(g, viewer);
      var key := Key(id, renderAs);
      var entry := if key in cache then cache[key] else ViewTranscript(BaseFor(g, m.config, renderAs), []);
      assert IsPartOf(g, m, renderAs, entry);
      var turns := entry.turns;
      ghost var all := TurnsFor(g, m.config, m.turns, renderAs);
      for index := |turns| to |m.turns|
        invariant |turns| == index && turns == all[..index]
      {
        turns := turns + [TurnFor(g, m.config, m.turns[index], renderAs)];
      }
      assert turns == all;
      UsedKeeps(order, key, VIEW_TRANSCRIPTS_MAX);
      order := Used(order, key, VIEW_TRANSCRIPTS_MAX);
      PartsKept(g, matches, cache, key, ViewTranscript(entry.base, turns), order);
      cache := Restricted(cache[key := ViewTranscript(entry.base, turns)], order);
      r := entry.base.(turns := turns);
    }

    /** An evicted match's entries go, and no others. */
    method Forget(id: MatchId)
      requires Valid()
      modifies this`cache, this`order
      ensures Valid()
      ensures forall k :: k in cache <==> k in old(cache) && k.matchId != id
      ensures forall k :: k in cache ==> cache[k] == old(cache)[k]
    {
      var kept: seq<Key> := [];
      for i := 0 to |order|
        invariant order == old(order) && NoRepeats(kept) && |kept| <= i
        invariant forall k :: k in kept <==> k in order[..i] && k.matchId != id
      {
        if order[i].matchId != id {
          kept := kept + [order[i]];
        }
      }
      assert order[..|order|] == order;
      cache := Restricted(cache, kept);
      order := kept;
    }
  }

  // ---------------------------------------------------------------------------
  // Perfect information
  // ---------------------------------------------------------------------------

  ghost predicate AllPublic<C, S, A, O, E, J>(g: Game<C, S, A, O, E, J>, turns: seq<TurnRecord<S, A, O, E, J>>) {
    forall i, j :: 0 <= i < |turns| && 0 <= j < |turns[i].events| ==> g.visibleTo(turns[i].events[j], Public)
  }

  lemma {:induction false} FilterKeepsAll<C, S, A, O, E, J>(g: Game<C, S, A, O, E, J>, events: seq<E>)
    ensures |FilterEvents(DumpEvents(g, events), Public)| <= |events|
    ensures FilterEvents(DumpEvents(g, events), Public) == DumpEvents(g, events) <==>
            forall j :: 0 <= j < |events| ==> g.visibleTo(events[j], Public)
  {
    if events != [] {
      FilterKeepsAll(g, events[1..]);
      var all := DumpEvents(g, events);
      assert all[1..] == DumpEvents(g, events[1..]);
      assert all == [all[0]] + all[1..];
      assert forall j :: 0 < j < |events| ==> events[j] == events[1..][j - 1];
      if !g.visibleTo(events[0], Public) {
        assert |FilterEvents(all, Public)| < |all|;
      } else {
        assert FilterEvents(all, Public) == [all[0]] + FilterEvents(all[1..], Public);
        assert FilterEvents(all, Public)[1..] == FilterEvents(all[1..], Public);
        if forall j :: 0 <= j < |events[1..]| ==> g.visibleTo(events[1..][j], Public) {
          forall j | 0 <= j < |events|
            ensures g.visibleTo(events[j], Public)
          {
            assert j > 0 ==> events[j] == events[1..][j - 1];
          }
        } else {
          var j :| 0 <= j < |events[1..]| && !g.visibleTo(events[1..][j], Public);
          assert !g.visibleTo(events[j + 1], Public);
        }
      }
    }
  }

  /** A recorded turn of a game with nothing to redact is its own public rendering, but for
      events that are not public. */
  lemma TurnIsItsPublicView<C(!new), S(!new), A(!new), O(!new), E(!new), J(!new)>(
      g: Game<C, S, A, O, E, J>, config: C, turn: TurnRecord<S, A, O, E, J>)
    requires NothingToRedact(g) && IsRecord(g, config, turn)
    ensures TurnFor(g, config, turn, Public) == DumpTurn(g, turn) <==>
            forall j :: 0 <= j < |turn.events| ==> g.visibleTo(turn.events[j], Public)
  {
    FilterKeepsAll(g, turn.events);
  }

  lemma RenderedIsFull<C(!new), S(!new), A(!new), O(!new), E(!new), J(!new)>(
      g: Game<C, S, A, O, E, J>, m: LocalMatch<C, S, A, O, E, J>, viewer: Viewer)
    requires !g.hasHiddenInformation && NothingToRedact(g) && AreRecords(g, m.config, m.turns)
    requires m.initialSnapshot == BuildSnapshot(g, m.config, g.initialState(m.config))
    ensures Rendered(g, m, RenderAs(g, viewer)) == DumpTranscriptFor(g, m, viewer) <==> AllPublic(g, m.turns)
  {
    var cached := Rendered(g, m, Public);
    var full := DumpTranscript(g, m);
    forall i | 0 <= i < |m.turns|
      ensures cached.turns[i] == full.turns[i] <==> forall j :: 0 <= j < |m.turns[i].events| ==> g.visibleTo(m.turns[i].events[j], Public)
    {
      TurnIsItsPublicView(g, m.config, m.turns[i]);
    }
    if AllPublic(g, m.turns) {
      assert cached.turns == full.turns;
    } else {
      var i, j :| 0 <= i < |m.turns| && 0 <= j < |m.turns[i].events| && !g.visibleTo(m.turns[i].events[j], Public);
      assert cached.turns[i] != full.turns[i];
    }
  }

  /** With perfect information, caching gives any viewer the full transcript of a live match
      exactly when all the match's events are public. */
  lemma CachedIsFull<C(!new), S(!new), A(!new), O(!new), E(!new), J(!new)>(
      g: Game<C, S, A, O, E, J>, m: LocalMatch<C, S, A, O, E, J>, viewer: Viewer)
    requires WellFormed(g) && !g.hasHiddenInformation && NothingToRedact(g) && IsLive(g, m)
    ensures Rendered(g, m, RenderAs(g, viewer)) == DumpTranscriptFor(g, m, viewer) <==> AllPublic(g, m.turns)
  {
    var seed: int, moves: seq<Move<A, O>> :| LiveRun(g, m.config, seed, moves) == Ok(m);
    LiveIsReplay(g, m.config, seed, moves);
    RunExtends(g, StartMatch(g, m.config, seed).value, moves);
    RunExtends(g, StartReplayMatch(g, m.config).value, MovesOf(m.turns));
    RenderedIsFull(g, m, viewer);
  }

  // ---------------------------------------------------------------------------
  // Spectator welcomes
  // ---------------------------------------------------------------------------

  datatype CachedWelcome<+V> = CachedWelcome(key: (nat, Runtime.Lifecycle), text: Drivers.Frame<V>)

  function WelcomeFor<L, T, A, V>(rules: Drivers.Rules<L, T, A, V>, s: Drivers.MatchSession<L>): Drivers.Frame<V> {
    Drivers.Welcome(s.lifecycle, Drivers.HistoryFor(rules, s, Public))
  }

  function Cached<L, T, A, V>(rules: Drivers.Rules<L, T, A, V>, s: Drivers.MatchSession<L>): CachedWelcome<V> {
    CachedWelcome(DriverSessions.WelcomeKey(rules, s), WelcomeFor(rules, s))
  }

  /** Every cached welcome is the one of the session it was built at. */
  ghost predicate AllCached<L, T, A, V>(rules: Drivers.Rules<L, T, A, V>, builtAt: map<MatchId, Drivers.MatchSession<L>>, cache: map<MatchId, CachedWelcome<V>>) {
    forall id :: id in cache ==> id in builtAt && cache[id] == Cached(rules, builtAt[id])
  }

  lemma CachedKept<L, T, A, V>(rules: Drivers.Rules<L, T, A, V>, builtAt: map<MatchId, Drivers.MatchSession<L>>, cache: map<MatchId, CachedWelcome<V>>,
                               id: MatchId, s: Drivers.MatchSession<L>, kept: seq<MatchId>)
    requires AllCached(rules, builtAt, cache) && forall k :: k in kept ==> k == id || k in cache
    ensures AllCached(rules, builtAt[id := s], Restricted(cache[id := Cached(rules, s)], kept))
    ensures Restricted(cache[id := Cached(rules, s)], kept).Keys == Members(kept)
  {
    var renewed := cache[id := Cached(rules, s)];
    assert forall k :: k in kept ==> k in renewed;
  }

  class SpectatorWelcomes<!L(!new), !T(!new), !A(!new), !V(!new)> {
    const rules: Drivers.Rules<L, T, A, V>
    var cache: map<MatchId, CachedWelcome<V>>
    var order: seq<MatchId>
    ghost var builtAt: map<MatchId, Drivers.MatchSession<L>>

    ghost predicate Valid()
      reads this
    {
      && AllCached(rules, builtAt, cache)
      && cache.Keys == Members(order) && NoRepeats(order) && |order| <= SPECTATOR_WELCOMES_MAX
    }

    constructor (rules: Drivers.Rules<L, T, A, V>)
      ensures Valid() && this.rules == rules && order == []
    {
      this.rules := rules;
      cache, order, builtAt := map[], [], map[];
    }

    /** The welcome of a match whose session only moved on since the cached one was built:
        cached or rebuilt, it is the session's own. */
    method Welcome(id: MatchId, s: Drivers.MatchSession<L>) returns (text: Drivers.Frame<V>)
      requires Valid() && (id in builtAt ==> DriverSessions.MovesOn(rules, builtAt[id], s))
      modifies this
      ensures Valid() && text == WelcomeFor(rules, s)
      ensures order == Used(old(order), id, SPECTATOR_WELCOMES_MAX)
      ensures builtAt == old(builtAt)[id := s]
    {
      var key := DriverSessions.WelcomeKey(rules, s);
      if id in cache && cache[id].key == key {
        KeyDecides(id, s);
        text := cache[id].text;
      } else {
        text := WelcomeFor(rules, s);
      }
      UsedKeeps(order, id, SPECTATOR_WELCOMES_MAX);
      order := Used(order, id, SPECTATOR_WELCOMES_MAX);
      CachedKept(rules, builtAt, cache, id, s, order);
      cache := Restricted(cache[id := CachedWelcome(key, text)], order);
      builtAt := builtAt[id := s];
    }

    /** An evicted match's welcome goes, and no other. */
    method Forget(id: MatchId)
      requires Valid()
      modifies this`cache, this`order
      ensures Valid() && cache == old(cache) - {id} && order == Without(old(order), id)
    {
      WithoutKeeps(order, id);
      WithoutShrinks(order, id);
      order := Without(order, id);
      cache := cache - {id};
    }

    /** A hit is for this very session. */
    lemma KeyDecides(id: MatchId, s: Drivers.MatchSession<L>)
      requires Valid() && id in cache && DriverSessions.MovesOn(rules, builtAt[id], s)
      requires cache[id].key == DriverSessions.WelcomeKey(rules, s)
      ensures builtAt[id] == s && cache[id].text == WelcomeFor(rules, s)
    {
    }
  }

  /** An evicted match leaves nothing in either cache; every other match's entries stay. */
  method ForgetMatchTranscripts<C(!new), S(!new), A(!new), O(!new), E(!new), J(!new, ==), L(!new), T(!new), B(!new), V(!new)>(
      transcripts: ViewTranscripts<C, S, A, O, E, J>, welcomes: SpectatorWelcomes<L, T, B, V>, id: MatchId)
    requires transcripts.Valid() && welcomes.Valid()
    modifies transcripts`cache, transcripts`order, welcomes`cache, welcomes`order
    ensures transcripts.Valid() && welcomes.Valid()
    ensures forall k :: k in transcripts.cache <==> k in old(transcripts.cache) && k.matchId != id
    ensures forall k :: k in transcripts.cache ==> transcripts.cache[k] == old(transcripts.cache)[k]
    ensures welcomes.cache == old(welcomes.cache) - {id}
  {
    transcripts.Forget(id);
    welcomes.Forget(id);
  }
}
