/**
 Inputs on which a property does not hold: for each result that is stated with a condition,
 a case outside the condition where it fails.
 */
module EdgeCases {
  import opened Wrappers
  import opened Games
  import opened Runtime
  import opened Drivers
  import opened DriverControl
  import opened DriverFrames
  import opened DriverEnds

  // ---------------------------------------------------------------------------
  // A match that ends without a word
  // ---------------------------------------------------------------------------

  /** A hidden-information game of joint rounds that never ends by itself. */
  function JointGame(): Rules<int, int, int, int> {
    Rules(true, (l: int) => [], (l: int, t: int, v: Viewer) => t, (l: int) => false, (l: int) => [0, 1],
          (l: int, s: TableSeat, a: int) => None, (l: int, s: TableSeat, a: int) => true,
          (l: int, m: map<TableSeat, int>) => None, 2, 5000)
  }

  type Step = Event<int, int>
  type Arena = Driver<int, int, int>

  const QUIET: Trouble := Trouble({}, {}, false)

  /** The match starts and both seats are asked (4 steps). Seat 0's time runs out; while the
      abort goes on, seat 1's loop sees it at its next frame and leaves the round (4). The
      abort stores and announces itself, and then seat 0's view of it cannot be built (4). */
  function SilentEnd(): (run: seq<Step>)
    ensures |run| == 12
  {
    [Start(1, 2, Some(0)), DriverSteps(QUIET), DriverSteps(QUIET), DriverSteps(QUIET),
     TimeUp(0, false), AbortSteps(QUIET), Malformed(1), DriverSteps(QUIET),
     AbortSteps(QUIET), AbortSteps(QUIET), AbortSteps(Trouble({OfSeat(0)}, {}, false)), DriverSteps(QUIET)]
  }

  /** The driver after the first `n` of these steps. */
  ghost function After(n: nat): Arena
    requires n <= 12
  {
    Run(JointGame(), SilentEnd()[..n])
  }

  /** What the steps keep: both seats connected and keeping up. */
  predicate BothListen(d: Arena) {
    && d.seat0 == 1 && d.seat1 == 2 && 1 in d.conns && 2 in d.conns
    && d.conns[1].open && !d.conns[1].overflowed && d.conns[2].open && !d.conns[2].overflowed
  }

  predicate Stands(d: Arena, pc: Pc, abort: AbortPc, session: MatchSession<int>, loops: Loops<int>) {
    BothListen(d) && d.pc == pc && d.abort == abort && d.session == session && d.loops == loops
  }

  const PLAYED: MatchSession<int> := MatchSession(Some(0), Running, None)
  const STOPPED: MatchSession<int> := MatchSession(Some(0), Aborted, Some(TurnDeadlineExpired))

  lemma ThenOpens()
    ensures Stands(After(1), Opening, Idle, PLAYED, NoLoops())
  {
    RunAt(JointGame(), SilentEnd(), 0);
    assert SilentEnd()[..0] == [];
  }

  lemma ThenBroadcasts()
    ensures Stands(After(2), Broadcasting(0, false), Idle, PLAYED, NoLoops())
  {
    ThenOpens();
    RunAt(JointGame(), SilentEnd(), 1);
  }

  lemma ThenLoops()
    ensures Stands(After(3), AtLoop, Idle, PLAYED, NoLoops())
  {
    ThenBroadcasts();
    RunAt(JointGame(), SilentEnd(), 2);
  }

  lemma ThenAsks()
    ensures Stands(After(4), Asking, Idle, PLAYED, Loops(Waiting(1, 2, 0), Waiting(2, 2, 0)))
  {
    ThenLoops();
    RunAt(JointGame(), SilentEnd(), 3);
  }

  lemma ThenRunsOut()
    ensures Stands(After(5), Asking, Requested(TurnDeadlineExpired), PLAYED, Loops(Aborting, Waiting(2, 2, 0)))
  {
    ThenAsks();
    RunAt(JointGame(), SilentEnd(), 4);
  }

  lemma ThenAborts()
    ensures Stands(After(6), Asking, AbortStoring, STOPPED, Loops(Aborting, Waiting(2, 2, 0)))
  {
    ThenRunsOut();
    RunAt(JointGame(), SilentEnd(), 5);
  }

  lemma ThenNotices()
    ensures Stands(After(7), Asking, AbortStoring, STOPPED, Loops(Aborting, Gone))
  {
    ThenAborts();
    RunAt(JointGame(), SilentEnd(), 6);
  }

  lemma ThenLeaves()
    ensures Stands(After(8), AwaitAbort(true), AbortStoring, STOPPED, NoLoops())
  {
    ThenNotices();
    RunAt(JointGame(), SilentEnd(), 7);
  }

  lemma ThenStores()
    ensures Stands(After(9), AwaitAbort(true), AbortAnnouncing, STOPPED, NoLoops())
  {
    ThenLeaves();
    RunAt(JointGame(), SilentEnd(), 8);
  }

  lemma ThenAnnounces()
    ensures Stands(After(10), AwaitAbort(true), AbortNotifying, STOPPED, NoLoops())
  {
    ThenStores();
    RunAt(JointGame(), SilentEnd(), 9);
  }

  /** A run the driver exits with the match aborted, both seats connected and keeping up, and
      neither told. */
  lemma SeatsAreLeftUntold()
    ensures var d := Run(JointGame(), SilentEnd());
            && d.pc == Exited && d.session == STOPPED && BothListen(d)
            && Ends(d.conns[1]) == [] && Ends(d.conns[2]) == []
  {
    ThenAnnounces();
    RunHears(JointGame(), SilentEnd()[..10]);
    RunAt(JointGame(), SilentEnd(), 10);
    RunAt(JointGame(), SilentEnd(), 11);
    assert SilentEnd()[..12] == SilentEnd();
    FailedAbortTellsNobody(JointGame(), After(10), Trouble({OfSeat(0)}, {}, false), QUIET);
  }
}

/** One-move games on which the conditions of the transcript, status and cache results fail. */
module EdgeGames {
  import opened Wrappers
  import opened Folds
  import opened Chance
  import opened Games
  import opened LocalMatches
  import opened Transcripts
  import opened Replay
  import Redaction
  import Runtime
  import ViewCaches

  type OneMove = Game<int, int, int, int, int, int>
  type OneMatch = LocalMatch<int, int, int, int, int, int>

  /** Seat 0 makes one move, with one event, and the match is drawn. `shows` is who sees the
      event, `stateFor` what a viewer is given of a state. */
  function OneMoveGame(hidden: bool, shows: Viewer -> bool, stateFor: (int, Viewer) -> int): OneMove {
    Game(
      "one_move", false, hidden,
      (c: int) => 0,
      (s: int) => s == 1,
      (s: int) => if s == 1 then Some(Draw) else None,
      (s: int) => false,
      (s: int) => [0],
      (s: int, seat: Seat, a: int) => None,
      (s: int, seat: Seat, a: int) => Ok(Transition(1, [0], Some(Draw))),
      (s: int, actions: map<Seat, int>) => Err(WrongPlayer),
      (s: int, rng: Rng) => (0, rng),
      (s: int, o: int) => Err(ChanceResolutionError),
      (e: int, v: Viewer) => shows(v),
      (c: int) => c, (p: int) => Ok(p),
      (s: int) => s, (p: int) => Ok(p),
      (a: int) => a, (p: int) => Ok(p),
      (o: int) => o, (p: int) => Ok(p),
      (e: int) => e,
      (c: int, v: Viewer) => c,
      stateFor,
      (o: int, v: Viewer) => o)
  }

  function Same(): (int, Viewer) -> int {
    (s: int, v: Viewer) => s
  }

  /** Before the move. */
  function Opened(g: OneMove): OneMatch {
    LocalMatch(0, 0, BuildSnapshot(g, 0, 0), [], None)
  }

  /** After it. */
  function Played(g: OneMove): OneMatch {
    LocalMatch(0, 1, BuildSnapshot(g, 0, 0), [RecordTurn(g, 0, Act(0, 0), Transition(1, [0], Some(Draw)))], None)
  }

  lemma OneMoveRuns(hidden: bool, shows: Viewer -> bool, stateFor: (int, Viewer) -> int)
    ensures var g := OneMoveGame(hidden, shows, stateFor);
            && WellFormed(g)
            && LiveRun(g, 0, 0, []) == Ok(Opened(g))
            && LiveRun(g, 0, 0, [Act(0, 0)]) == Ok(Played(g))
  {
    var g := OneMoveGame(hidden, shows, stateFor);
    assert StartMatch(g, 0, 0) == Ok(Opened(g));
    assert ApplyMove(g, 0, Act(0, 0)) == Ok(Transition(1, [0], Some(Draw)));
    assert [] + [RecordTurn(g, 0, Act(0, 0), Transition(1, [0], Some(Draw)))] == Played(g).turns;
    assert StepMatch(g, Opened(g), Act(0, 0)) == Ok(Played(g));
    var moves: seq<Move<int, int>> := [Act(0, 0)];
    FoldCons(Stepper(g), Opened(g), moves[0], []);
    assert moves + [] == moves && [moves[0]] + [] == moves;
  }

  /** Replay completeness fails of a live match with an event visible to no seat and not to
      the public: its own dump is refused. */
  lemma EventForNobodyIsRefused()
    ensures var g := OneMoveGame(true, (v: Viewer) => false, Same());
            && WellFormed(g) && LiveRun(g, 0, 0, [Act(0, 0)]) == Ok(Played(g))
            && ValidateTranscript(g, DumpTranscript(g, Played(g))).Err?
  {
    var g := OneMoveGame(true, (v: Viewer) => false, Same());
    OneMoveRuns(true, (v: Viewer) => false, Same());
    ReplayCompleteness(g, 0, 0, [Act(0, 0)]);
    var turn := Played(g).turns[0];
    assert turn.events[0] == 0 && !SomebodySees(g, turn.events[0]);
  }

  /** A running session of a match. */
  function Running(m: OneMatch): Runtime.Session<int, int, int, int, int, int> {
    Runtime.Session("", [], Runtime.Running, [], None, Some(m))
  }

  function SeatHook(): (int, Viewer) -> int {
    (s: int, v: Viewer) => if v == OfSeat(1) then s + 1 else s
  }

  /** Status redaction fails of a perfect-information game whose serializer has a seat hook
      of its own: the redacted status is not the seat's. */
  lemma SeatHookBreaksStatusRedaction()
    ensures var g := OneMoveGame(false, (v: Viewer) => true, SeatHook());
            var s := Running(Opened(g));
            && WellFormed(g) && Redaction.SessionOk(g, s) && Runtime.DumpStatus(g, s, Runtime.FullView).Ok?
            && Runtime.RedactStatus(g, Runtime.DumpStatus(g, s, Runtime.FullView).value, OfSeat(1))
               != Runtime.DumpStatus(g, s, Runtime.For(OfSeat(1)))
  {
    var g := OneMoveGame(false, (v: Viewer) => true, SeatHook());
    var m := Opened(g);
    OneMoveRuns(false, (v: Viewer) => true, SeatHook());
    assert LiveRun(g, m.config, 0, []) == Ok(m);
    assert Redaction.IsLive(g, m);
    assert Runtime.CurrentSeat(g, 0) == Ok(Some(0));
    Redaction.StatusRedactionCommutes(g, Running(m), OfSeat(1));
    assert g.dumpStateFor(0, OfSeat(1)) == 1;
    assert BuildSnapshotFor(g, 0, 0, OfSeat(1)).state == 1 && BuildSnapshot(g, 0, 0).state == 0;
  }

  /** The cached transcript is not the full one for a perfect-information game with a private
      event. */
  lemma PrivateEventIsLostInCache()
    ensures var g := OneMoveGame(false, (v: Viewer) => v == OfSeat(0), Same());
            && WellFormed(g) && NothingToRedact(g) && Redaction.IsLive(g, Played(g))
            && ViewCaches.Rendered(g, Played(g), ViewCaches.RenderAs(g, OfSeat(0))) != DumpTranscriptFor(g, Played(g), OfSeat(0))
  {
    var shows := (v: Viewer) => v == OfSeat(0);
    var g := OneMoveGame(false, shows, Same());
    var m := Played(g);
    OneMoveRuns(false, shows, Same());
    assert LiveRun(g, m.config, 0, [Act(0, 0)]) == Ok(m);
    assert Redaction.IsLive(g, m);
    ViewCaches.CachedIsFull(g, m, OfSeat(0));
    assert !g.visibleTo(m.turns[0].events[0], Public);
  }
}
