/** Rounds: what a joint round hides, what a commit carries, and that no action is judged
    twice. */
module DriverRounds {
  import opened Wrappers
  import opened Games
  import opened Runtime
  import opened Drivers
  import opened DriverControl
  import opened DriverFrames

  // ---------------------------------------------------------------------------
  // A held action shows nowhere
  // ---------------------------------------------------------------------------

  predicate LoopsAlike<A(==)>(x: Loop<A>, y: Loop<A>) {
    x == y || (x.Accepted? && y.Accepted? && x.turnId == y.turnId)
  }

  /** The same in all but which actions are held for the round. */
  predicate AllButHeld<L(==), A(==), V(==)>(d: Driver<L, A, V>, d': Driver<L, A, V>) {
    || d' == d
    || (&& d.pc == Asking
        && d' == d.(loops := d'.loops)
        && LoopsAlike(d.loops.loop0, d'.loops.loop0)
        && LoopsAlike(d.loops.loop1, d'.loops.loop1))
  }

  lemma BroadcastHides<L, T, A, V>(rules: Rules<L, T, A, V>, d: Driver<L, A, V>, loops: Loops<A>, b: Broadcast<V>, trouble: Trouble)
    ensures var r := Broadcasted(rules, d, b, trouble);
            Broadcasted(rules, d.(loops := loops), b, trouble) ==
            if r.None? then None else Some(r.value.(loops := loops))
  {
    var r := Broadcasted(rules, d, b, trouble);
    var r' := Broadcasted(rules, d.(loops := loops), b, trouble);
    if r.Some? {
      assert r'.value.conns == r.value.conns;
      assert r'.value.spectators == r.value.spectators;
    }
  }

  lemma AbortStepHides<L, T, A, V>(rules: Rules<L, T, A, V>, d: Driver<L, A, V>, loops: Loops<A>, trouble: Trouble)
    ensures AbortStep(rules, d.(loops := loops), trouble) == AbortStep(rules, d, trouble).(loops := loops)
    ensures AbortStep(rules, d, trouble).loops == d.loops && AbortStep(rules, d, trouble).pc == d.pc
  {
    if d.abort == AbortAnnouncing {
      BroadcastHides(rules, d, loops, StateBroadcast(rules, d.session), StateTrouble(trouble));
    } else if d.abort == AbortNotifying {
      BroadcastHides(rules, d, loops, TerminalBroadcast(rules, d.session), trouble);
    }
  }

  lemma RejectHides<L, A, V>(d: Driver<L, A, V>, d': Driver<L, A, V>, seat: TableSeat, turnId: TurnId)
    requires AllButHeld(d, d') && Listening(d, seat)
    ensures Listening(d', seat) && AllButHeld(RejectStep(d, seat, turnId), RejectStep(d', seat, turnId))
  {
    RefusedOnlySends(d, seat, turnId);
    RefusedOnlySends(d', seat, turnId);
  }

  lemma AnswerHides<L, T, A, V>(rules: Rules<L, T, A, V>, d: Driver<L, A, V>, d': Driver<L, A, V>, seat: TableSeat, turnId: TurnId, action: A)
    requires AllButHeld(d, d') && Listening(d, seat)
    ensures Listening(d', seat) && AllButHeld(AnswerStep(rules, d, seat, turnId, action), AnswerStep(rules, d', seat, turnId, action))
  {
    if d' != d {
      assert IsAccepted(rules, d', seat, action) == IsAccepted(rules, d, seat, action);
      if !IsAccepted(rules, d, seat, action) {
        RejectHides(Judged(d, seat, turnId), Judged(d', seat, turnId), seat, turnId);
      }
    }
  }

  lemma MalformedHides<L, A, V>(d: Driver<L, A, V>, d': Driver<L, A, V>, seat: TableSeat)
    requires AllButHeld(d, d') && Listening(d, seat)
    ensures Listening(d', seat) && AllButHeld(MalformedStep(d, seat), MalformedStep(d', seat))
  {
    if d' != d {
      assert MalformedStep(d', seat).conns == MalformedStep(d, seat).conns;
    }
  }

  lemma PickUpHides<L, T, A, V>(rules: Rules<L, T, A, V>, d: Driver<L, A, V>, d': Driver<L, A, V>, seat: TableSeat)
    requires AllButHeld(d, d') && Listening(d, seat)
    ensures Listening(d', seat) && AllButHeld(PickUpStep(rules, d, seat), PickUpStep(rules, d', seat))
  {
  }

  lemma StopHides<L, A, V>(d: Driver<L, A, V>, d': Driver<L, A, V>, seat: TableSeat, why: AbortReason)
    requires AllButHeld(d, d') && Listening(d, seat)
    ensures AllButHeld(GiveUp(d, seat, why), GiveUp(d', seat, why))
    ensures AllButHeld(WithLoop(d, seat, Gone), WithLoop(d', seat, Gone))
  {
  }

  lemma SeatStepHides<L, T, A, V>(rules: Rules<L, T, A, V>, d: Driver<L, A, V>, d': Driver<L, A, V>, e: Event<L, A>)
    requires AllButHeld(d, d') && (e.Answer? || e.Malformed? || e.TimeUp? || e.GraceOver? || e.PickUp?)
    ensures AllButHeld(Next(rules, d, e), Next(rules, d', e))
  {
    assert Listening(d', e.seat) == Listening(d, e.seat);
    if Listening(d, e.seat) && d' != d {
      match e
      case Answer(seat, turnId, action) =>
        StopHides(d, d', seat, TurnDeadlineExpired);
        AnswerHides(rules, d, d', seat, turnId, action);
      case Malformed(seat) =>
        StopHides(d, d', seat, TurnDeadlineExpired);
        MalformedHides(d, d', seat);
      case PickUp(seat) => PickUpHides(rules, d, d', seat);
      case TimeUp(seat, _) => StopHides(d, d', seat, TurnDeadlineExpired);
      case GraceOver(seat, timedOut) => StopHides(d, d', seat, if timedOut then HeartbeatTimeout else PeerDisconnected);
    }
  }

  lemma HandlerHides<L, T, A, V>(rules: Rules<L, T, A, V>, d: Driver<L, A, V>, d': Driver<L, A, V>, e: Event<L, A>)
    requires AllButHeld(d, d') && (Admits(e) || e.Detach? || e.SocketCloses? || e.FallsBehind?)
    ensures AllButHeld(Next(rules, d, e), Next(rules, d', e))
  {
  }

  /** One step: unless it commits the round, it treats any held action alike. */
  lemma NextHides<L, T, A, V>(rules: Rules<L, T, A, V>, d: Driver<L, A, V>, d': Driver<L, A, V>, e: Event<L, A>)
    requires AllButHeld(d, d') && !AllAccepted(d.loops)
    ensures AllButHeld(Next(rules, d, e), Next(rules, d', e))
  {
    match e
    case DriverSteps(_) =>
    case AbortSteps(trouble) =>
      assert d' == d.(loops := d'.loops);
      AbortStepHides(rules, d, d'.loops, trouble);
    case Answer(_, _, _) => SeatStepHides(rules, d, d', e);
    case Malformed(_) => SeatStepHides(rules, d, d', e);
    case TimeUp(_, _) => SeatStepHides(rules, d, d', e);
    case GraceOver(_, _) => SeatStepHides(rules, d, d', e);
    case PickUp(_) => SeatStepHides(rules, d, d', e);
    case _ => HandlerHides(rules, d, d', e);
  }

  /** An open loop reading an action not seen before, in a running match. */
  predicate Judges<L, A, V>(d: Driver<L, A, V>, seat: TableSeat, turnId: TurnId) {
    Listening(d, seat) && d.session.lifecycle == Running && !IsDuplicate(d, seat, turnId)
  }

  lemma AnswersHide<L, T, A, V>(rules: Rules<L, T, A, V>, d: Driver<L, A, V>, seat: TableSeat, turnId: TurnId, action: A, other: A)
    requires Judges(d, seat, turnId) && IsAccepted(rules, d, seat, action) && IsAccepted(rules, d, seat, other)
    ensures AllButHeld(Next(rules, d, Answer(seat, turnId, action)), Next(rules, d, Answer(seat, turnId, other)))
  {
  }

  /** Which legal action an early seat submitted shows nowhere until every acting seat has
      one accepted: whatever happens meanwhile, an abort included, the session with its
      transcript and every frame to anyone are the same. */
  lemma {:induction false} EarlyActionIsHidden<L, T, A, V>(rules: Rules<L, T, A, V>, before: seq<Event<L, A>>, after: seq<Event<L, A>>,
                                                           seat: TableSeat, turnId: TurnId, action: A, other: A)
    requires var d := Run(rules, before);
             Judges(d, seat, turnId) && IsAccepted(rules, d, seat, action) && IsAccepted(rules, d, seat, other)
    requires forall i :: 0 <= i <= |after| ==> !AllAccepted(Run(rules, before + [Answer(seat, turnId, action)] + after[..i]).loops)
    ensures var d := Run(rules, before + [Answer(seat, turnId, action)] + after);
            var d' := Run(rules, before + [Answer(seat, turnId, other)] + after);
            && d'.session == d.session && d'.conns == d.conns && d'.seat0 == d.seat0 && d'.seat1 == d.seat1
            && AllButHeld(d, d')
    decreases |after|
  {
    var mine := before + [Answer(seat, turnId, action)];
    var theirs := before + [Answer(seat, turnId, other)];
    if after == [] {
      assert mine + after == mine && theirs + after == theirs;
      RunSnoc(rules, before, Answer(seat, turnId, action));
      RunSnoc(rules, before, Answer(seat, turnId, other));
      AnswersHide(rules, Run(rules, before), seat, turnId, action, other);
    } else {
      var shorter := after[..|after| - 1];
      var last := after[|after| - 1];
      assert mine + after == mine + shorter + [last] && theirs + after == theirs + shorter + [last];
      forall i | 0 <= i <= |shorter|
        ensures !AllAccepted(Run(rules, mine + shorter[..i]).loops)
      {
        assert shorter[..i] == after[..i];
      }
      EarlyActionIsHidden(rules, before, shorter, seat, turnId, action, other);
      assert shorter[..|shorter|] == shorter;
      RunSnoc(rules, mine + shorter, last);
      RunSnoc(rules, theirs + shorter, last);
      NextHides(rules, Run(rules, mine + shorter), Run(rules, theirs + shorter), last);
    }
  }

  // ---------------------------------------------------------------------------
  // What a commit carries
  // ---------------------------------------------------------------------------

  /** A held action was judged good for its seat at this very point. */
  predicate LoopFits<L, T, A, V>(rules: Rules<L, T, A, V>, l: L, joint: bool, seat: TableSeat, loop: Loop<A>) {
    loop.Accepted? ==> if joint then rules.check(l, seat, loop.action) else rules.act(l, seat, loop.action).Some?
  }

  /** While a round is asked for, its loops are the acting seats' and hold only good actions. */
  predicate RoundFits<L, T, A, V>(rules: Rules<L, T, A, V>, d: Driver<L, A, V>) {
    d.pc == Asking ==>
      && d.session.local.Some?
      && var l := d.session.local.value;
      && rules.acting(l) == (if Joint(d.loops) then [0, 1] else if d.loops.loop0.NoLoop? then [1] else [0])
      && (d.loops.loop0.NoLoop? ==> !d.loops.loop1.NoLoop?)
      && LoopFits(rules, l, Joint(d.loops), 0, d.loops.loop0)
      && LoopFits(rules, l, Joint(d.loops), 1, d.loops.loop1)
  }

  lemma AskSeatsFits<L, T, A, V>(rules: Rules<L, T, A, V>, d: Driver<L, A, V>)
    requires d.session.local.Some?
    ensures RoundFits(rules, AskSeats(rules, d, rules.acting(d.session.local.value)))
  {
  }

  lemma SeatStepLoops<L, T, A, V>(rules: Rules<L, T, A, V>, d: Driver<L, A, V>, e: Event<L, A>)
    requires (e.Answer? || e.Malformed? || e.TimeUp? || e.GraceOver? || e.PickUp?)
    ensures var d' := Next(rules, d, e);
            && (!Listening(d, e.seat) ==> d' == d)
            && (Listening(d, e.seat) ==>
                  var loop := d'.loops.Of(e.seat);
                  && d'.loops == WithLoopAt(d.loops, e.seat, loop) && !loop.NoLoop?
                  && (loop.Accepted? ==> e.Answer? && loop == Accepted(e.turnId, e.action) && IsAccepted(rules, d, e.seat, e.action)
                                         && !IsDuplicate(d, e.seat, e.turnId)))
  {
    if e.Answer? && Listening(d, e.seat) {
      RefusedOnlySends(Judged(d, e.seat, e.turnId), e.seat, e.turnId);
    }
  }

  lemma SeatStepFits<L, T, A, V>(rules: Rules<L, T, A, V>, d: Driver<L, A, V>, e: Event<L, A>)
    requires RoundFits(rules, d) && (e.Answer? || e.Malformed? || e.TimeUp? || e.GraceOver? || e.PickUp?)
    ensures RoundFits(rules, Next(rules, d, e))
  {
    SeatStepLoops(rules, d, e);
    SeatStepSeats(rules, d, e);
  }

  lemma NextFits<L, T, A, V>(rules: Rules<L, T, A, V>, d: Driver<L, A, V>, e: Event<L, A>)
    requires RoundFits(rules, d)
    ensures RoundFits(rules, Next(rules, d, e))
  {
    match e
    case DriverSteps(_) =>
      if d.pc == AtLoop && d.session.local.Some? {
        AskSeatsFits(rules, d);
      }
    case AbortSteps(trouble) => AbortStepHides(rules, d, d.loops, trouble);
    case Start(_, _, _) =>
    case Resume(_, _, _) =>
    case Attach(_, _) =>
    case Detach(_) =>
    case SocketCloses(_) =>
    case FallsBehind(_) =>
    case _ => SeatStepFits(rules, d, e);
  }

  lemma {:induction false} RunFits<L, T, A, V>(rules: Rules<L, T, A, V>, events: seq<Event<L, A>>)
    ensures RoundFits(rules, Run(rules, events))
    decreases |events|
  {
    if events != [] {
      RunFits(rules, events[..|events| - 1]);
      NextFits(rules, Run(rules, events[..|events| - 1]), events[|events| - 1]);
    }
  }

  /** Once begun, the match changes only by a round with every acting seat's action and no
      other: one seat's action applied, or both seats' together, each judged good at that
      point; and exactly their turn ids are marked committed. */
  lemma CommitsExactlyTheRound<L, T, A, V>(rules: Rules<L, T, A, V>, events: seq<Event<L, A>>, e: Event<L, A>)
    requires var d := Run(rules, events); d.pc != NotStarted && Next(rules, d, e).session.local != d.session.local
    ensures var d := Run(rules, events);
            var d' := Next(rules, d, e);
            && e.DriverSteps? && d.pc == Asking && d.session.local.Some? && AllAccepted(d.loops)
            && var l := d.session.local.value;
            if Joint(d.loops) then
              && rules.acting(l) == [0, 1]
              && rules.check(l, 0, d.loops.loop0.action) && rules.check(l, 1, d.loops.loop1.action)
              && d'.session.local == rules.actJointly(l, map[0 := d.loops.loop0.action, 1 := d.loops.loop1.action])
              && d'.committed == d.committed + {(0, d.loops.loop0.turnId), (1, d.loops.loop1.turnId)}
            else
              var seat: TableSeat := if d.loops.loop0.NoLoop? then 1 else 0;
              && rules.acting(l) == [seat]
              && d'.session.local == rules.act(l, seat, d.loops.Of(seat).action)
              && d'.committed == d.committed + {(seat, d.loops.Of(seat).turnId)}
  {
    var d := Run(rules, events);
    RunFits(rules, events);
    OnlyCommitsChangeTheMatch(rules, d, e);
  }

  lemma OnlyCommitsChangeTheMatch<L, T, A, V>(rules: Rules<L, T, A, V>, d: Driver<L, A, V>, e: Event<L, A>)
    requires d.pc != NotStarted && Next(rules, d, e).session.local != d.session.local
    ensures e.DriverSteps? && d.pc == Asking && AllAccepted(d.loops) && d.session.local.Some?
    ensures Next(rules, d, e) == CommitStep(rules, d)
  {
    match e
    case DriverSteps(trouble) => OnlyAskingCommits(rules, d, trouble);
    case AbortSteps(_) =>
    case Start(_, _, _) =>
    case Resume(_, _, _) =>
    case Attach(_, _) =>
    case Detach(_) =>
    case SocketCloses(_) =>
    case FallsBehind(_) =>
    case _ => SeatStepSeats(rules, d, e);
  }

  lemma OnlyAskingCommits<L, T, A, V>(rules: Rules<L, T, A, V>, d: Driver<L, A, V>, trouble: Trouble)
    requires DriverStep(rules, d, trouble).session.local != d.session.local
    ensures d.pc == Asking && AllAccepted(d.loops) && d.session.local.Some?
    ensures DriverStep(rules, d, trouble) == CommitStep(rules, d)
  {
    if d.pc == AtLoop && d.session.local.Some? {
      AskSeatsOnlyAsks(rules, d, rules.acting(d.session.local.value));
    }
  }

  lemma OnlyStartsStart<L, T, A, V>(rules: Rules<L, T, A, V>, d: Driver<L, A, V>, e: Event<L, A>)
    requires d.pc == NotStarted && !e.Start?
    ensures Next(rules, d, e).session.local == d.session.local
  {
    if e.Answer? || e.Malformed? || e.TimeUp? || e.GraceOver? || e.PickUp? {
      SeatStepSeats(rules, d, e);
    }
  }

  // ---------------------------------------------------------------------------
  // No action is judged twice
  // ---------------------------------------------------------------------------

  predicate Playing(pc: Pc) {
    pc == NotStarted || pc == Opening || pc.Broadcasting? || pc == AtLoop || pc == Asking
  }

  predicate IsHeld<L, A, V>(d: Driver<L, A, V>, key: (TableSeat, TurnId)) {
    d.pc == Asking && d.loops.Of(key.0).Accepted? && d.loops.Of(key.0).turnId == key.1
  }

  /** While the match is played, everything judged is committed, rejected or held. */
  ghost predicate Accounted<L, A, V>(d: Driver<L, A, V>) {
    && (forall i, j :: 0 <= i < j < |d.judged| ==> d.judged[i] != d.judged[j])
    && (Playing(d.pc) ==> forall i :: 0 <= i < |d.judged| ==>
          d.judged[i] in d.committed || d.judged[i] in d.rejected || IsHeld(d, d.judged[i]))
  }

  lemma RejectAccounts<L, A, V>(d: Driver<L, A, V>, seat: TableSeat, turnId: TurnId)
    requires Accounted(d) && Listening(d, seat) && !IsDuplicate(d, seat, turnId)
    ensures Accounted(RejectStep(Judged(d, seat, turnId), seat, turnId))
  {
    var d' := RejectStep(Judged(d, seat, turnId), seat, turnId);
    RefusedOnlySends(Judged(d, seat, turnId), seat, turnId);
    assert d'.judged == d.judged + [(seat, turnId)];
    assert d'.rejected == d.rejected + {(seat, turnId)} && d'.committed == d.committed;
    forall i | 0 <= i < |d.judged|
      ensures d.judged[i] != (seat, turnId)
      ensures d.judged[i] in d'.committed || d.judged[i] in d'.rejected || IsHeld(d', d.judged[i])
    {
    }
  }

  lemma AcceptAccounts<L, A, V>(d: Driver<L, A, V>, seat: TableSeat, turnId: TurnId, action: A)
    requires Accounted(d) && Listening(d, seat) && !IsDuplicate(d, seat, turnId)
    ensures Accounted(WithLoop(Judged(d, seat, turnId), seat, Accepted(turnId, action)))
  {
    var d' := WithLoop(Judged(d, seat, turnId), seat, Accepted(turnId, action));
    assert IsHeld(d', (seat, turnId));
    forall i | 0 <= i < |d.judged|
      ensures d.judged[i] != (seat, turnId)
      ensures d.judged[i] in d'.committed || d.judged[i] in d'.rejected || IsHeld(d', d.judged[i])
    {
    }
  }

  /** A step that judges nothing and lets go of no held action. */
  lemma QuietAccounts<L, A, V>(d: Driver<L, A, V>, d': Driver<L, A, V>)
    requires Accounted(d) && d'.judged == d.judged && d'.rejected == d.rejected && d.committed <= d'.committed
    requires Playing(d'.pc) ==> Playing(d.pc)
    requires forall key :: Playing(d'.pc) && IsHeld(d, key) ==> IsHeld(d', key) || key in d'.committed
    ensures Accounted(d')
  {
  }

  lemma CommitAccounts<L, T, A, V>(rules: Rules<L, T, A, V>, d: Driver<L, A, V>)
    requires Accounted(d) && d.pc == Asking && AllAccepted(d.loops)
    ensures Accounted(CommitStep(rules, d))
  {
    var d' := CommitStep(rules, d);
    forall key | Playing(d'.pc) && IsHeld(d, key)
      ensures key in d'.committed
    {
      assert key in TurnIds(d.loops);
    }
    QuietAccounts(d, d');
  }

  lemma DriverStepAccounts<L, T, A, V>(rules: Rules<L, T, A, V>, d: Driver<L, A, V>, trouble: Trouble)
    requires Accounted(d)
    ensures Accounted(DriverStep(rules, d, trouble))
  {
    var d' := DriverStep(rules, d, trouble);
    if d.pc == Asking && !trouble.crashes && AllAccepted(d.loops) {
      CommitAccounts(rules, d);
    } else {
      QuietDriverStep(rules, d, trouble);
      QuietAccounts(d, d');
    }
  }

  lemma QuietDriverStep<L, T, A, V>(rules: Rules<L, T, A, V>, d: Driver<L, A, V>, trouble: Trouble)
    requires !(d.pc == Asking && !trouble.crashes && AllAccepted(d.loops))
    ensures var d' := DriverStep(rules, d, trouble);
            && d'.judged == d.judged && d'.rejected == d.rejected && d'.committed == d.committed
            && (Playing(d'.pc) ==> Playing(d.pc))
            && (Playing(d'.pc) && d.pc == Asking ==> d' == d)
  {
    match d.pc
    case AtLoop =>
      if d.session.local.Some? {
        AskSeatsOnlyAsks(rules, d, rules.acting(d.session.local.value));
      }
    case Broadcasting(_, _) => QuietBroadcastStep(rules, d, trouble);
    case _ =>
  }

  lemma QuietBroadcastStep<L, T, A, V>(rules: Rules<L, T, A, V>, d: Driver<L, A, V>, trouble: Trouble)
    requires d.pc.Broadcasting?
    ensures var d' := BroadcastStep(rules, d, trouble);
            d'.judged == d.judged && d'.rejected == d.rejected && d'.committed == d.committed
  {
  }

  lemma SeatStepAccounts<L, T, A, V>(rules: Rules<L, T, A, V>, d: Driver<L, A, V>, e: Event<L, A>)
    requires Accounted(d) && (e.Answer? || e.Malformed? || e.TimeUp? || e.GraceOver? || e.PickUp?)
    ensures Accounted(Next(rules, d, e))
  {
    var d' := Next(rules, d, e);
    SeatStepLoops(rules, d, e);
    SeatStepSeats(rules, d, e);
    if !Listening(d, e.seat) {
    } else if e.Answer? && d.session.lifecycle == Running {
      if !IsDuplicate(d, e.seat, e.turnId) {
        if IsAccepted(rules, d, e.seat, e.action) {
          AcceptAccounts(d, e.seat, e.turnId, e.action);
        } else {
          RejectAccounts(d, e.seat, e.turnId);
        }
      }
    } else {
      QuietAccounts(d, d');
    }
  }

  lemma NextAccounts<L, T, A, V>(rules: Rules<L, T, A, V>, d: Driver<L, A, V>, e: Event<L, A>)
    requires Accounted(d)
    ensures Accounted(Next(rules, d, e))
  {
    match e
    case DriverSteps(trouble) => DriverStepAccounts(rules, d, trouble);
    case AbortSteps(trouble) =>
      AbortStepHides(rules, d, d.loops, trouble);
      QuietAccounts(d, Next(rules, d, e));
    case Start(_, _, _) => QuietAccounts(d, Next(rules, d, e));
    case Resume(_, _, _) => QuietAccounts(d, Next(rules, d, e));
    case Attach(_, _) => QuietAccounts(d, Next(rules, d, e));
    case Detach(_) => QuietAccounts(d, Next(rules, d, e));
    case SocketCloses(_) => QuietAccounts(d, Next(rules, d, e));
    case FallsBehind(_) => QuietAccounts(d, Next(rules, d, e));
    case _ => SeatStepAccounts(rules, d, e);
  }

  lemma {:induction false} RunAccounts<L, T, A, V>(rules: Rules<L, T, A, V>, events: seq<Event<L, A>>)
    ensures Accounted(Run(rules, events))
    decreases |events|
  {
    if events != [] {
      RunAccounts(rules, events[..|events| - 1]);
      NextAccounts(rules, Run(rules, events[..|events| - 1]), events[|events| - 1]);
    }
  }

  /** No (seat, turn id) pair is evaluated twice in a match, whatever is resent or when; and
      the same id from the other seat is another pair. */
  lemma NoActionIsJudgedTwice<L, T, A, V>(rules: Rules<L, T, A, V>, events: seq<Event<L, A>>)
    ensures var judged := Run(rules, events).judged;
            forall i, j :: 0 <= i < j < |judged| ==> judged[i] != judged[j]
  {
    RunAccounts(rules, events);
  }
}
