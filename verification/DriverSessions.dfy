/** How a match's session moves: turns are only added, and every change moves it on. */
module DriverSessions {
  import opened Wrappers
  import opened Games
  import opened Runtime
  import opened Drivers
  import opened DriverControl
  import opened DriverFrames

  /** The point a spectator's welcome is cached under. */
  function WelcomeKey<L, T, A, V>(rules: Rules<L, T, A, V>, s: MatchSession<L>): (nat, Lifecycle) {
    (|TurnsOf(rules, s)|, s.lifecycle)
  }

  /** Histories only grow: no turn a viewer has seen is ever shown otherwise. */
  ghost predicate HistoryGrows<L, T, A, V>(rules: Rules<L, T, A, V>, s: MatchSession<L>, s': MatchSession<L>) {
    forall v :: HistoryFor(rules, s, v) <= HistoryFor(rules, s', v)
  }

  /** A session unchanged, or moved strictly on in turns or stage, never back in either. */
  ghost predicate MovesOn<L, T, A, V>(rules: Rules<L, T, A, V>, s: MatchSession<L>, s': MatchSession<L>) {
    && HistoryGrows(rules, s, s')
    && Stage(s.lifecycle) <= Stage(s'.lifecycle)
    && (s' == s || |TurnsOf(rules, s)| + Stage(s.lifecycle) < |TurnsOf(rules, s')| + Stage(s'.lifecycle))
  }

  lemma HistoryLength<L, T, A, V>(rules: Rules<L, T, A, V>, s: MatchSession<L>, s': MatchSession<L>)
    requires HistoryGrows(rules, s, s')
    ensures |TurnsOf(rules, s)| <= |TurnsOf(rules, s')|
  {
    assert HistoryFor(rules, s, Public) <= HistoryFor(rules, s', Public);
  }

  lemma MovesOnTwice<L, T, A, V>(rules: Rules<L, T, A, V>, s0: MatchSession<L>, s1: MatchSession<L>, s2: MatchSession<L>)
    requires MovesOn(rules, s0, s1) && MovesOn(rules, s1, s2)
    ensures MovesOn(rules, s0, s2)
  {
    HistoryLength(rules, s0, s1);
    HistoryLength(rules, s1, s2);
    forall v
      ensures HistoryFor(rules, s0, v) <= HistoryFor(rules, s2, v)
    {
      assert HistoryFor(rules, s0, v) <= HistoryFor(rules, s1, v);
      assert HistoryFor(rules, s1, v) <= HistoryFor(rules, s2, v);
    }
  }

  /** A committed round extends every viewer's history. */
  lemma CommitGrows<L(!new), T(!new), A(!new), V>(rules: Rules<L, T, A, V>, s: MatchSession<L>, next: L)
    requires s.local.Some? && Grows(rules, s.local.value, next)
    ensures HistoryGrows(rules, s, Committed(rules, s, next))
    ensures |TurnsOf(rules, s)| < |TurnsOf(rules, Committed(rules, s, next))|
  {
  }

  lemma SameHistory<L, T, A, V>(rules: Rules<L, T, A, V>, s: MatchSession<L>, s': MatchSession<L>)
    requires s'.local == s.local
    ensures HistoryGrows(rules, s, s') && TurnsOf(rules, s') == TurnsOf(rules, s)
  {
    forall v
      ensures HistoryFor(rules, s, v) == HistoryFor(rules, s', v)
    {
      forall i | 0 <= i < |TurnsOf(rules, s)|
        ensures TurnFor(rules, s, i, v) == TurnFor(rules, s', i, v)
      {
      }
    }
  }

  lemma AskingMovesOn<L(!new), T(!new), A(!new), V>(rules: Rules<L, T, A, V>, d: Driver<L, A, V>, trouble: Trouble)
    requires WellBehaved(rules) && Control(d) && d.pc == Asking
    ensures MovesOn(rules, d.session, AskingStep(rules, d, trouble).session)
    ensures var d' := AskingStep(rules, d, trouble);
            d'.session != d.session ==> d'.pc == Broadcasting(|TurnsOf(rules, d.session)|, true) && d.session.local.Some? && d'.session.local.Some?
  {
    SameHistory(rules, d.session, d.session);
    if AllAccepted(d.loops) && d.session.local.Some? && Applied(rules, d.session.local.value, d.loops).Some? {
      CommitGrows(rules, d.session, Applied(rules, d.session.local.value, d.loops).value);
    }
  }

  lemma DriverStepMovesOn<L(!new), T(!new), A(!new), V>(rules: Rules<L, T, A, V>, d: Driver<L, A, V>, trouble: Trouble)
    requires WellBehaved(rules) && Control(d)
    ensures MovesOn(rules, d.session, DriverStep(rules, d, trouble).session)
    ensures DriverStep(rules, d, trouble).pc == NotStarted ==> DriverStep(rules, d, trouble) == d
  {
    if d.pc == Asking {
      AskingMovesOn(rules, d, trouble);
    } else {
      SameHistory(rules, d.session, d.session);
      QuietStepKeepsSession(rules, d, trouble);
    }
  }

  lemma AbortStepMovesOn<L, T, A, V>(rules: Rules<L, T, A, V>, d: Driver<L, A, V>, trouble: Trouble)
    requires Control(d)
    ensures MovesOn(rules, d.session, AbortStep(rules, d, trouble).session)
    ensures AbortStep(rules, d, trouble).session.local == d.session.local && AbortStep(rules, d, trouble).pc == d.pc
  {
    SameHistory(rules, d.session, AbortStep(rules, d, trouble).session);
  }

  lemma NextMovesOn<L(!new), T(!new), A(!new), V>(rules: Rules<L, T, A, V>, d: Driver<L, A, V>, e: Event<L, A>)
    requires WellBehaved(rules) && Control(d) && (d.pc == NotStarted ==> d.session.local.None?)
    ensures MovesOn(rules, d.session, Next(rules, d, e).session)
    ensures Next(rules, d, e).pc == NotStarted ==> Next(rules, d, e).session.local.None?
  {
    SameHistory(rules, d.session, d.session);
    match e
    case DriverSteps(trouble) => DriverStepMovesOn(rules, d, trouble);
    case AbortSteps(trouble) => AbortStepMovesOn(rules, d, trouble);
    case Start(_, _, _) =>
    case Resume(_, _, _) =>
    case Attach(_, _) =>
    case Detach(_) =>
    case SocketCloses(_) =>
    case FallsBehind(_) =>
    case _ => SeatStepSeats(rules, d, e);
  }

  lemma QuietStepKeepsSession<L, T, A, V>(rules: Rules<L, T, A, V>, d: Driver<L, A, V>, trouble: Trouble)
    requires d.pc != Asking
    ensures DriverStep(rules, d, trouble).session == d.session
    ensures DriverStep(rules, d, trouble).pc == NotStarted <==> d.pc == NotStarted
  {
    if d.pc == AtLoop && d.session.local.Some? {
      AskSeatsOnlyAsks(rules, d, rules.acting(d.session.local.value));
    }
  }

  lemma {:induction false} RunMovesOn<L(!new), T(!new), A(!new), V>(rules: Rules<L, T, A, V>, before: seq<Event<L, A>>, after: seq<Event<L, A>>)
    requires WellBehaved(rules)
    ensures MovesOn(rules, Run(rules, before).session, Run(rules, before + after).session)
    decreases |after|
  {
    if after == [] {
      assert before + after == before;
      SameHistory(rules, Run(rules, before).session, Run(rules, before).session);
    } else {
      var shorter := after[..|after| - 1];
      var last := after[|after| - 1];
      assert (before + after)[..|before + after| - 1] == before + shorter;
      RunMovesOn(rules, before, shorter);
      RunControl(rules, before + shorter);
      NotStartedHasNoMatch(rules, before + shorter);
      NextMovesOn(rules, Run(rules, before + shorter), last);
      MovesOnTwice(rules, Run(rules, before).session, Run(rules, before + shorter).session, Run(rules, before + after).session);
    }
  }

  lemma {:induction false} NotStartedHasNoMatch<L(!new), T(!new), A(!new), V>(rules: Rules<L, T, A, V>, events: seq<Event<L, A>>)
    requires WellBehaved(rules)
    ensures Run(rules, events).pc == NotStarted ==> Run(rules, events).session.local.None?
    decreases |events|
  {
    if events != [] {
      NotStartedHasNoMatch(rules, events[..|events| - 1]);
      RunControl(rules, events[..|events| - 1]);
      NextMovesOn(rules, Run(rules, events[..|events| - 1]), events[|events| - 1]);
    }
  }

  /** A welcome cached under (turn count, lifecycle) is the one that would be built now: at
      any two points of a run with that pair the same, the session is the same. */
  lemma WelcomeKeyDecides<L(!new), T(!new), A(!new), V>(rules: Rules<L, T, A, V>, before: seq<Event<L, A>>, after: seq<Event<L, A>>)
    requires WellBehaved(rules)
    ensures var s := Run(rules, before).session;
            var s' := Run(rules, before + after).session;
            WelcomeKey(rules, s) == WelcomeKey(rules, s') ==>
              s == s' && HistoryFor(rules, s, Public) == HistoryFor(rules, s', Public)
  {
    RunMovesOn(rules, before, after);
  }
}
