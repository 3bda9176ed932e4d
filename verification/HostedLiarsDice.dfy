/** Liar's Dice under the driver: no hosted match is ever stopped for its length. */
module HostedLiarsDice {
  import opened Wrappers
  import opened Chance
  import opened Games
  import opened LocalMatches
  import opened Runtime
  import opened LiarsDice
  import opened LiarsDiceGame
  import opened LiarsDiceEnds
  import opened Transcripts
  import D = Drivers
  import opened DriverControl
  import opened DriverFrames
  import opened DriverRounds
  import opened DriverGames
  import opened DriverSessions

  /** The server's default cap (src/arena/server/config.py:24). */
  const MAX_TURNS_PER_MATCH: nat := 5000

  type Match = LocalMatch<Config, State, Action, Roll, Event, Payload>
  type Turn = TurnRecord<State, Action, Roll, Event, Payload>
  type Hosted = D.Driver<Match, Action, TurnPayload<Payload>>
  type Step = D.Event<Match, Action>

  ghost function HostRules(block: Block, retryBudget: nat, turnCap: nat): D.Rules<Match, Turn, Action, TurnPayload<Payload>> {
    RulesOf(LiarsDiceDefinition(block), retryBudget, turnCap)
  }

  /** A match starts with a live match of some config and seed, or not at all. */
  ghost predicate StartsLive(block: Block, e: Step) {
    e.Start? && e.local.Some? ==> exists c: Config, seed: int :: StartMatch(LiarsDiceDefinition(block), c, seed) == Ok(e.local.value)
  }

  lemma StartIsWithinBudget(block: Block, c: Config, seed: int)
    requires StartMatch(LiarsDiceDefinition(block), c, seed).Ok?
    ensures WithinBudget(StartMatch(LiarsDiceDefinition(block), c, seed).value)
  {
    StartWithinBound(c);
    DrainKeepsBudget(block, c, InitialState(c), [], Some(Rng(seed, 0)), 0, TurnBound(c));
  }

  /** The match has turns left to it, and length has stopped nothing. */
  ghost predicate NeverTooLong(d: Hosted) {
    && (d.session.local.Some? ==> WithinBudget(d.session.local.value))
    && d.abort != D.Requested(D.TurnLimitExceeded)
    && d.session.reason != Some(D.TurnLimitExceeded)
  }

  lemma FewTurns(block: Block, retryBudget: nat, turnCap: nat, d: Hosted)
    requires NeverTooLong(d)
    ensures |D.TurnsOf(HostRules(block, retryBudget, turnCap), d.session)| <= 715
  {
    if d.session.local.Some? {
      var m := d.session.local.value;
      StartWithinBound(m.config);
      TurnsLeftIsNatural(m.state);
    }
  }

  /** A commit is a step of the match, so it keeps within what the start allowed. */
  lemma CommitKeepsBudget(block: Block, retryBudget: nat, turnCap: nat, d: Hosted)
    requires NeverTooLong(d) && d.session.local.Some? && D.AllAccepted(d.loops)
    requires D.Applied(HostRules(block, retryBudget, turnCap), d.session.local.value, d.loops).Some?
    ensures WithinBudget(D.Applied(HostRules(block, retryBudget, turnCap), d.session.local.value, d.loops).value)
  {
    var m := d.session.local.value;
    var move: Move<Action, Roll> := RoundMove(d.loops);
    assert StepMatch(LiarsDiceDefinition(block), m, move).Ok?;
    StepKeepsBudget(block, m, move);
  }

  /** Which steps ask for an abort, and why: never for length below the cap. */
  lemma DriverStepWhy(block: Block, retryBudget: nat, turnCap: nat, d: Hosted, trouble: D.Trouble)
    requires NeverTooLong(d) && turnCap > 715
    ensures var d' := D.DriverStep(HostRules(block, retryBudget, turnCap), d, trouble);
            d'.abort != D.Requested(D.TurnLimitExceeded) && d'.session.reason == d.session.reason
  {
    FewTurns(block, retryBudget, turnCap, d);
    DriverControl.DriverStepWhy(HostRules(block, retryBudget, turnCap), d, trouble);
  }

  lemma SeatStepWhy(block: Block, retryBudget: nat, turnCap: nat, d: Hosted, e: Step)
    requires NeverTooLong(d) && (e.Answer? || e.Malformed? || e.TimeUp? || e.GraceOver? || e.PickUp?)
    ensures var d' := D.Next(HostRules(block, retryBudget, turnCap), d, e);
            d'.abort != D.Requested(D.TurnLimitExceeded) && d'.session == d.session
  {
    var rules := HostRules(block, retryBudget, turnCap);
    SeatStepSeats(rules, d, e);
    if e.Answer? && D.Listening(d, e.seat) {
      RefusedOnlySends(D.Judged(d, e.seat, e.turnId), e.seat, e.turnId);
    }
  }

  lemma StartNeverTooLong(block: Block, retryBudget: nat, turnCap: nat, d: Hosted, e: Step)
    requires NeverTooLong(d) && StartsLive(block, e) && e.Start?
    ensures NeverTooLong(D.Next(HostRules(block, retryBudget, turnCap), d, e))
  {
    if e.local.Some? {
      var c: Config, seed: int :| StartMatch(LiarsDiceDefinition(block), c, seed) == Ok(e.local.value);
      StartIsWithinBudget(block, c, seed);
    }
  }

  /** No other step changes why a match is stopped to its length. */
  lemma NextWhy(block: Block, retryBudget: nat, turnCap: nat, d: Hosted, e: Step)
    requires NeverTooLong(d) && turnCap > 715 && !e.Start?
    ensures var d' := D.Next(HostRules(block, retryBudget, turnCap), d, e);
            d'.abort != D.Requested(D.TurnLimitExceeded) && d'.session.reason != Some(D.TurnLimitExceeded)
  {
    if e.DriverSteps? {
      DriverStepWhy(block, retryBudget, turnCap, d, e.trouble);
    } else if e.AbortSteps? {
      AbortStepWhy(HostRules(block, retryBudget, turnCap), d, e.trouble);
    } else if e.Resume? || e.Attach? || e.Detach? || e.SocketCloses? || e.FallsBehind? {
      HandlerWhy(HostRules(block, retryBudget, turnCap), d, e);
    } else {
      SeatStepWhy(block, retryBudget, turnCap, d, e);
    }
  }

  lemma NextNeverTooLong(block: Block, retryBudget: nat, turnCap: nat, d: Hosted, e: Step)
    requires NeverTooLong(d) && turnCap > 715 && StartsLive(block, e) && (d.pc == D.NotStarted ==> d.session.local.None?)
    ensures NeverTooLong(D.Next(HostRules(block, retryBudget, turnCap), d, e))
  {
    if e.Start? {
      StartNeverTooLong(block, retryBudget, turnCap, d, e);
    } else {
      NextWhy(block, retryBudget, turnCap, d, e);
      OtherStepBudget(block, retryBudget, turnCap, d, e);
    }
  }

  lemma OtherStepBudget(block: Block, retryBudget: nat, turnCap: nat, d: Hosted, e: Step)
    requires NeverTooLong(d) && !e.Start? && (d.pc == D.NotStarted ==> d.session.local.None?)
    ensures var local := D.Next(HostRules(block, retryBudget, turnCap), d, e).session.local;
            local.Some? ==> WithinBudget(local.value)
  {
    var rules := HostRules(block, retryBudget, turnCap);
    if D.Next(rules, d, e).session.local != d.session.local {
      if d.pc == D.NotStarted {
        OnlyStartsStart(rules, d, e);
      } else {
        OnlyCommitsChangeTheMatch(rules, d, e);
        CommitKeepsBudget(block, retryBudget, turnCap, d);
      }
    }
  }

  /** Whatever the seats play, fail or resume, under any cap above 715, as the server's 5000
      is: a hosted Liar's Dice match never has more than 715 turns and is never aborted for
      exceeding the cap. */
  lemma {:induction false} NeverStoppedForLength(block: Block, retryBudget: nat, turnCap: nat, events: seq<Step>)
    requires turnCap > 715 && forall i :: 0 <= i < |events| ==> StartsLive(block, events[i])
    ensures var d := D.Run(HostRules(block, retryBudget, turnCap), events);
            && NeverTooLong(d)
            && |D.TurnsOf(HostRules(block, retryBudget, turnCap), d.session)| <= 715 < MAX_TURNS_PER_MATCH
    decreases |events|
  {
    var rules := HostRules(block, retryBudget, turnCap);
    if events != [] {
      NeverStoppedForLength(block, retryBudget, turnCap, events[..|events| - 1]);
      MatchesAreWellBehaved(LiarsDiceDefinition(block), retryBudget, turnCap);
      NotStartedHasNoMatch(rules, events[..|events| - 1]);
      NextNeverTooLong(block, retryBudget, turnCap, D.Run(rules, events[..|events| - 1]), events[|events| - 1]);
    }
    FewTurns(block, retryBudget, turnCap, D.Run(rules, events));
  }
}
