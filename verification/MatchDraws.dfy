/** The words a whole match draws: every chance node's are its own. */
module MatchDraws {
  import opened Wrappers
  import opened Folds
  import opened Chance
  import opened Games
  import opened LocalMatches
  import LiarsDice
  import LiarsDiceGame

  /** The counters one chance node's sampling takes: from the first, up to but not including
      the second. */
  type Span = (nat, nat)

  /** Sampling a chance node keeps the seed and takes at least one counter. */
  ghost predicate Advances<C, S(!new), A, O, E, J>(g: Game<C, S, A, O, E, J>) {
    forall s: S, rng: Rng :: g.isChanceNode(s) ==>
      g.sampleChance(s, rng).1.seed == rng.seed && g.sampleChance(s, rng).1.counter > rng.counter
  }

  /** The spans of one drain, in order. */
  ghost function DrainSpans<C, S, A, O, E, J>(g: Game<C, S, A, O, E, J>, state: S, rng: Rng, steps: nat): seq<Span>
    requires steps <= MAX_CONSECUTIVE_CHANCE_STEPS
    decreases MAX_CONSECUTIVE_CHANCE_STEPS - steps
  {
    if !g.isChanceNode(state) || steps + 1 > MAX_CONSECUTIVE_CHANCE_STEPS then []
    else
      var (outcome, next) := g.sampleChance(state, rng);
      var t := g.applyChance(state, outcome);
      if t.Err? then [] else [(rng.counter, next.counter)] + DrainSpans(g, t.value.state, next, steps + 1)
  }

  /** The spans of a run of moves from a live match, in order. */
  ghost function RunSpans<C, S, A, O, E, J>(g: Game<C, S, A, O, E, J>, m: LocalMatch<C, S, A, O, E, J>, moves: seq<Move<A, O>>): seq<Span>
    requires m.rng.Some? && RunMoves(g, m, moves).Ok?
    decreases |moves|
  {
    if moves == [] then []
    else
      var next := StepMatch(g, m, moves[0]).value;
      StepExtends(g, m, moves[0]);
      DrainSpans(g, ApplyMove(g, m.state, moves[0]).value.state, m.rng.value, 0) + RunSpans(g, next, moves[1..])
  }

  /** Spans that start no earlier than `lo`, each after the last and none empty, up to `hi`. */
  ghost predicate InOrder(lo: nat, spans: seq<Span>, hi: nat)
    decreases |spans|
  {
    if spans == [] then lo <= hi
    else lo <= spans[0].0 < spans[0].1 && InOrder(spans[0].1, spans[1..], hi)
  }

  lemma {:induction false} InOrderAppend(lo: nat, a: seq<Span>, mid: nat, b: seq<Span>, hi: nat)
    requires InOrder(lo, a, mid) && InOrder(mid, b, hi)
    ensures InOrder(lo, a + b, hi)
    decreases |a|
  {
    if a == [] {
      assert a + b == b;
      InOrderEarlier(lo, mid, b, hi);
    } else {
      assert (a + b)[1..] == a[1..] + b;
      InOrderAppend(a[0].1, a[1..], mid, b, hi);
    }
  }

  lemma InOrderEarlier(lo: nat, from: nat, spans: seq<Span>, hi: nat)
    requires lo <= from && InOrder(from, spans, hi)
    ensures InOrder(lo, spans, hi)
  {
  }

  lemma {:induction false} InOrderWithin(lo: nat, spans: seq<Span>, hi: nat, j: nat)
    requires InOrder(lo, spans, hi) && j < |spans|
    ensures lo <= spans[j].0 < spans[j].1 <= hi
    decreases |spans|
  {
    if j > 0 {
      InOrderWithin(spans[0].1, spans[1..], hi, j - 1);
    } else {
      InOrderEnds(spans[0].1, spans[1..], hi);
    }
  }

  lemma {:induction false} InOrderEnds(lo: nat, spans: seq<Span>, hi: nat)
    requires InOrder(lo, spans, hi)
    ensures lo <= hi
    decreases |spans|
  {
    if spans != [] {
      InOrderEnds(spans[0].1, spans[1..], hi);
    }
  }

  lemma {:induction false} InOrderDisjoint(lo: nat, spans: seq<Span>, hi: nat, i: nat, j: nat)
    requires InOrder(lo, spans, hi) && i < j < |spans|
    ensures spans[i].1 <= spans[j].0
    decreases |spans|
  {
    if i > 0 {
      InOrderDisjoint(spans[0].1, spans[1..], hi, i - 1, j - 1);
    } else {
      InOrderWithin(spans[0].1, spans[1..], hi, j - 1);
    }
  }

  lemma {:induction false} DrainInOrder<C, S(!new), A, O, E, J>(
      g: Game<C, S, A, O, E, J>, config: C, state: S, turns: seq<TurnRecord<S, A, O, E, J>>, rng: Rng, steps: nat)
    requires Advances(g) && steps <= MAX_CONSECUTIVE_CHANCE_STEPS
    requires DrainFrom(g, config, state, turns, Some(rng), steps).Ok?
    ensures var d := DrainFrom(g, config, state, turns, Some(rng), steps).value;
            d.rng.Some? && d.rng.value.seed == rng.seed && InOrder(rng.counter, DrainSpans(g, state, rng, steps), d.rng.value.counter)
    decreases MAX_CONSECUTIVE_CHANCE_STEPS - steps
  {
    if g.isChanceNode(state) {
      var (outcome, next) := g.sampleChance(state, rng);
      var t := g.applyChance(state, outcome).value;
      var rest := DrainSpans(g, t.state, next, steps + 1);
      DrainInOrder(g, config, t.state, turns + [RecordTurn(g, config, Resolve(outcome), t)], next, steps + 1);
      assert ([(rng.counter, next.counter)] + rest)[1..] == rest;
    }
  }

  lemma {:induction false} RunInOrder<C, S(!new), A, O, E, J>(g: Game<C, S, A, O, E, J>, m: LocalMatch<C, S, A, O, E, J>, moves: seq<Move<A, O>>)
    requires Advances(g) && m.rng.Some? && RunMoves(g, m, moves).Ok?
    ensures var last := RunMoves(g, m, moves).value;
            last.rng.Some? && last.rng.value.seed == m.rng.value.seed && InOrder(m.rng.value.counter, RunSpans(g, m, moves), last.rng.value.counter)
    decreases |moves|
  {
    if moves != [] {
      var t := ApplyMove(g, m.state, moves[0]).value;
      var next := StepMatch(g, m, moves[0]).value;
      StepExtends(g, m, moves[0]);
      DrainInOrder(g, m.config, t.state, m.turns + [RecordTurn(g, m.config, moves[0], t)], m.rng.value, 0);
      RunInOrder(g, next, moves[1..]);
      InOrderAppend(m.rng.value.counter, DrainSpans(g, t.state, m.rng.value, 0), next.rng.value.counter,
                    RunSpans(g, next, moves[1..]), RunMoves(g, m, moves).value.rng.value.counter);
    }
  }

  /** The spans of a whole live match, its opening drain included. */
  ghost function LiveSpans<C, S, A, O, E, J>(g: Game<C, S, A, O, E, J>, config: C, seed: int, moves: seq<Move<A, O>>): seq<Span>
    requires g.hasChanceNodes && LiveRun(g, config, seed, moves).Ok?
  {
    DrainSpans(g, g.initialState(config), Rng(seed, 0), 0) + RunSpans(g, StartMatch(g, config, seed).value, moves)
  }

  /** Along a whole live match, every chance node draws from counters of its own, rising from
      0 to the match's generator, all under the match's one seed. */
  lemma NoWordIsDrawnTwice<C, S(!new), A, O, E, J>(g: Game<C, S, A, O, E, J>, config: C, seed: int, moves: seq<Move<A, O>>, i: nat, j: nat)
    requires Advances(g) && g.hasChanceNodes && LiveRun(g, config, seed, moves).Ok?
    requires i < j < |LiveSpans(g, config, seed, moves)|
    ensures var spans := LiveSpans(g, config, seed, moves);
            var rng := LiveRun(g, config, seed, moves).value.rng;
            && rng.Some? && rng.value.seed == seed
            && spans[i].0 < spans[i].1 <= spans[j].0 < spans[j].1 <= rng.value.counter
  {
    var start := StartMatch(g, config, seed).value;
    var m := LiveRun(g, config, seed, moves).value;
    DrainInOrder(g, config, g.initialState(config), [], Rng(seed, 0), 0);
    RunInOrder(g, start, moves);
    InOrderAppend(0, DrainSpans(g, g.initialState(config), Rng(seed, 0), 0), start.rng.value.counter,
                  RunSpans(g, start, moves), m.rng.value.counter);
    var spans := LiveSpans(g, config, seed, moves);
    InOrderWithin(0, spans, m.rng.value.counter, i);
    InOrderWithin(0, spans, m.rng.value.counter, j);
    InOrderDisjoint(0, spans, m.rng.value.counter, i, j);
  }

  /** Liar's Dice takes a counter for every die. */
  lemma LiarsDiceAdvances(block: Block)
    ensures Advances(LiarsDiceGame.LiarsDiceDefinition(block))
  {
    var g := LiarsDiceGame.LiarsDiceDefinition(block);
    forall s: LiarsDice.State, rng: Rng | g.isChanceNode(s)
      ensures g.sampleChance(s, rng).1.seed == rng.seed && g.sampleChance(s, rng).1.counter > rng.counter
    {
      LiarsDice.SampledRollFits(block, s, rng);
    }
  }
}
