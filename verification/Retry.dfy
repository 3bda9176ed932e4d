/**
 The retry protocol of one seat, both halves: the server's loop for each turn
 (src/arena/server/runtime_bridge.py:1459-1794) and the client's playMatch
 (sdk-ts/src/seat.ts:145-195), joined by two queues.
 */
module Retries {
  import opened Wrappers

  datatype Message =
    | ObservationRequest
    | ActionRejected(retriesRemaining: nat)
    | MatchFinished
    | MatchAborted
    | Other
  {
    predicate Terminal() {
      MatchFinished? || MatchAborted?
    }
  }

  // ---------------------------------------------------------------------------
  // The client
  // ---------------------------------------------------------------------------

  /** Whether a request is pending; `last` is the terminal frame, once read. */
  datatype Client = Client(pending: bool, last: Option<Message>)

  /** The client answers a request, and a rejection that leaves retries. */
  predicate Answers(c: Client, m: Message) {
    c.last.None? && (m.ObservationRequest? || (m.ActionRejected? && c.pending && m.retriesRemaining > 0))
  }

  function Heard(c: Client, m: Message): Client {
    if c.last.Some? then c
    else if m.Terminal() then c.(last := Some(m))
    else c.(pending := c.pending || m.ObservationRequest?)
  }

  function ClientAfter(messages: seq<Message>): Client
    decreases |messages|
  {
    if messages == [] then Client(false, None)
    else Heard(ClientAfter(messages[..|messages| - 1]), messages[|messages| - 1])
  }

  /** The messages the client answers, by their place in the stream. */
  function Answered(messages: seq<Message>): seq<nat>
    decreases |messages|
  {
    if messages == [] then []
    else
      var before := messages[..|messages| - 1];
      if Answers(ClientAfter(before), messages[|messages| - 1]) then Answered(before) + [|before|] else Answered(before)
  }

  lemma StreamSnoc(messages: seq<Message>, i: nat)
    requires i < |messages|
    ensures ClientAfter(messages[..i + 1]) == Heard(ClientAfter(messages[..i]), messages[i])
    ensures Answered(messages[..i + 1]) ==
            if Answers(ClientAfter(messages[..i]), messages[i]) then Answered(messages[..i]) + [i] else Answered(messages[..i])
  {
    assert messages[..i + 1][..i] == messages[..i];
  }

  /** The client answers, in order, every request and every rejection of a request that
      leaves retries, up to the first terminal frame, and nothing else. */
  lemma {:induction false} AnswersThePrompts(messages: seq<Message>, i: nat)
    ensures i in Answered(messages) <==>
      && i < |messages|
      && (messages[i].ObservationRequest? ||
          (messages[i].ActionRejected? && messages[i].retriesRemaining > 0 && exists j :: 0 <= j < i && messages[j].ObservationRequest?))
      && (forall j :: 0 <= j < i ==> !messages[j].Terminal())
    decreases |messages|
  {
    if messages != [] {
      var n := |messages| - 1;
      AnswersThePrompts(messages[..n], i);
      ClientSays(messages[..n]);
    }
  }

  /** What the client knows: whether it was ever asked, and whether the match has ended. */
  lemma {:induction false} ClientSays(messages: seq<Message>)
    ensures ClientAfter(messages).last.None? <==> forall j :: 0 <= j < |messages| ==> !messages[j].Terminal()
    ensures ClientAfter(messages).last.None? ==>
      (ClientAfter(messages).pending <==> exists j :: 0 <= j < |messages| && messages[j].ObservationRequest?)
    decreases |messages|
  {
    if messages != [] {
      ClientSays(messages[..|messages| - 1]);
    }
  }

  /** And it ends with the first terminal frame there is. */
  lemma {:induction false} EndsWithTheFirst(messages: seq<Message>, i: nat)
    requires i < |messages| && messages[i].Terminal() && forall j :: 0 <= j < i ==> !messages[j].Terminal()
    ensures ClientAfter(messages).last == Some(messages[i])
    decreases |messages|
  {
    var n := |messages| - 1;
    ClientSays(messages[..n]);
    if i < n {
      EndsWithTheFirst(messages[..n], i);
    }
  }

  /** playMatch over the messages it receives: what it answers, and the terminal frame it
      resolves or rejects with, the first there is. */
  method PlayMatch(messages: seq<Message>) returns (answered: seq<nat>, outcome: Option<Message>)
    ensures answered == Answered(messages) && outcome == ClientAfter(messages).last
    ensures outcome.None? <==> forall j :: 0 <= j < |messages| ==> !messages[j].Terminal()
    ensures outcome.Some? ==> exists i :: 0 <= i < |messages| && outcome.value == messages[i] && messages[i].Terminal() &&
                                forall j :: 0 <= j < i ==> !messages[j].Terminal()
  {
    var pending := false;
    answered, outcome := [], None;
    for read := 0 to |messages|
      invariant outcome.None? ==> ClientAfter(messages[..read]) == Client(pending, None)
      invariant outcome.Some? ==> ClientAfter(messages[..read]).last == outcome
      invariant answered == Answered(messages[..read])
      invariant outcome.None? ==> forall j :: 0 <= j < read ==> !messages[j].Terminal()
      invariant outcome.Some? ==> exists i :: 0 <= i < read && outcome.value == messages[i] && messages[i].Terminal() &&
                                    forall j :: 0 <= j < i ==> !messages[j].Terminal()
    {
      StreamSnoc(messages, read);
      if outcome.None? {
        match messages[read]
        case ObservationRequest =>
          pending := true;
          answered := answered + [read];
        case ActionRejected(retriesRemaining) =>
          if pending && retriesRemaining > 0 {
            answered := answered + [read];
          }
        case MatchFinished => outcome := Some(MatchFinished);
        case MatchAborted => outcome := Some(MatchAborted);
        case Other =>
      }
    }
    assert messages[..|messages|] == messages;
  }

  // ---------------------------------------------------------------------------
  // The server
  // ---------------------------------------------------------------------------

  /** The server's side of the seat: between its turns, in one, or past the match. `told` is
      what the rejections of the turn have reported. */
  datatype Server =
    | Resting
    | Open(left: nat, told: seq<nat>)
    | Over(told: seq<nat>, exhausted: bool)

  /** Both halves and what is in flight. `nextId` is the client's next fresh turn id; `seen`
      is what the server has judged. */
  datatype System = System(server: Server, client: Client, toClient: seq<Message>, toServer: seq<nat>, nextId: nat, seen: set<nat>)

  datatype Event =
    | Asks
    | Reads(accepts: bool)
    | Chats
    | Ends(finished: bool)
    | ClientReads

  function Start(): System {
    System(Resting, Client(false, None), [], [], 0, {})
  }

  /** One rejection: it reports the further attempts before spending one; a report of 0 is
      followed by the abort. */
  function Reject(s: System): System
    requires s.server.Open?
  {
    var left := s.server.left;
    var told := s.server.told + [left];
    if left == 0 then s.(server := Over(told, true), toClient := s.toClient + [ActionRejected(0), MatchAborted])
    else s.(server := Open(left - 1, told), toClient := s.toClient + [ActionRejected(left)])
  }

  /** The server reads the oldest answer. A turn id it has judged is dropped in silence. */
  function ServerReads(s: System, accepts: bool): System
    requires s.server.Open? && s.toServer != []
  {
    var id := s.toServer[0];
    var rest := s.(toServer := s.toServer[1..]);
    if id in s.seen then rest
    else
      var judged := rest.(seen := s.seen + {id});
      if accepts then judged.(server := Resting, toClient := s.toClient + [Other])
      else Reject(judged)
  }

  function ClientReadsNext(s: System): System
    requires s.toClient != []
  {
    var m := s.toClient[0];
    var rest := s.(toClient := s.toClient[1..], client := Heard(s.client, m));
    if Answers(s.client, m) then rest.(toServer := s.toServer + [s.nextId], nextId := s.nextId + 1) else rest
  }

  function Next(budget: nat, s: System, e: Event): System {
    match e
    case Asks => if s.server == Resting then s.(server := Open(budget, []), toClient := s.toClient + [ObservationRequest]) else s
    case Reads(accepts) => if s.server.Open? && s.toServer != [] then ServerReads(s, accepts) else s
    case Chats => if s.server.Over? then s else s.(toClient := s.toClient + [Other])
    case Ends(finished) =>
      if s.server.Over? then s
      else s.(server := Over(if s.server.Open? then s.server.told else [], false),
              toClient := s.toClient + [if finished then MatchFinished else MatchAborted])
    case ClientReads => if s.toClient != [] then ClientReadsNext(s) else s
  }

  function Run(budget: nat, events: seq<Event>): System
    decreases |events|
  {
    if events == [] then Start()
    else Next(budget, Run(budget, events[..|events| - 1]), events[|events| - 1])
  }

  // ---------------------------------------------------------------------------
  // Never both waiting
  // ---------------------------------------------------------------------------

  predicate Prompts(m: Message) {
    m.ObservationRequest? || (m.ActionRejected? && m.retriesRemaining > 0)
  }

  /** The frames in flight the client will answer. */
  function CountPrompts(messages: seq<Message>): nat {
    if messages == [] then 0 else (if Prompts(messages[0]) then 1 else 0) + CountPrompts(messages[1..])
  }

  lemma {:induction false} CountPromptsAppend(a: seq<Message>, b: seq<Message>)
    ensures CountPrompts(a + b) == CountPrompts(a) + CountPrompts(b)
  {
    if a == [] {
      assert a + b == b;
    } else {
      assert (a + b)[1..] == a[1..] + b;
      CountPromptsAppend(a[1..], b);
    }
  }

  /** What the rejections of a turn may have reported: the budget, counting down by one. */
  predicate CountsDown(budget: nat, told: seq<nat>) {
    |told| <= budget + 1 && forall i :: 0 <= i < |told| ==> told[i] == budget - i
  }

  /** Nothing terminal is in flight before the server is over, and then it comes last. */
  predicate EndsLast(s: System) {
    && (!s.server.Over? ==> s.client.last.None? && forall i :: 0 <= i < |s.toClient| ==> !s.toClient[i].Terminal())
    && (s.server.Over? ==> s.client.last.Some? || (s.toClient != [] && s.toClient[|s.toClient| - 1].Terminal()))
  }

  /** Answers come from, and rejections go to, a client that has read a request. */
  predicate RequestFirst(s: System) {
    && (s.toServer != [] ==> s.client.pending)
    && (forall i :: 0 <= i < |s.toClient| && s.toClient[i].ActionRejected? ==> s.client.pending)
  }

  /** Every answer is fresh. */
  predicate Fresh(s: System) {
    && (forall i :: 0 <= i < |s.toServer| ==> s.toServer[i] < s.nextId && s.toServer[i] !in s.seen)
    && (forall i, j :: 0 <= i < j < |s.toServer| ==> s.toServer[i] != s.toServer[j])
    && (forall id :: id in s.seen ==> id < s.nextId)
  }

  /** An open turn has exactly one prompt or answer in flight; between turns there is none. */
  predicate OneInFlight(s: System) {
    && (s.server.Open? ==> |s.toServer| + CountPrompts(s.toClient) == 1)
    && (s.server == Resting ==> s.toServer == [] && CountPrompts(s.toClient) == 0)
  }

  /** The reports so far, and what is left to report. */
  predicate Reports(budget: nat, s: System) {
    match s.server
    case Resting => true
    case Open(left, told) => CountsDown(budget, told) && left == budget - |told|
    case Over(told, exhausted) => CountsDown(budget, told) && (exhausted <==> |told| == budget + 1)
  }

  /** A report of 0 in flight has the abort right behind it, as the last frame there is. */
  predicate AbortFollowsZero(s: System) {
    forall i :: 0 <= i < |s.toClient| && s.toClient[i] == ActionRejected(0) ==>
      s.server.Over? && i + 2 == |s.toClient| && s.toClient[i + 1] == MatchAborted
  }

  predicate Sound(budget: nat, s: System) {
    EndsLast(s) && RequestFirst(s) && Fresh(s) && OneInFlight(s) && Reports(budget, s) && AbortFollowsZero(s)
  }

  lemma PromptAtFront(messages: seq<Message>)
    requires messages != []
    ensures CountPrompts(messages) == (if Prompts(messages[0]) then 1 else 0) + CountPrompts(messages[1..])
  {
  }

  lemma PromptAtBack(messages: seq<Message>, m: Message)
    ensures CountPrompts(messages + [m]) == CountPrompts(messages) + if Prompts(m) then 1 else 0
  {
    CountPromptsAppend(messages, [m]);
  }

  lemma ServerReadsSound(budget: nat, s: System, accepts: bool)
    requires Sound(budget, s) && s.server.Open? && s.toServer != []
    ensures Sound(budget, ServerReads(s, accepts))
    ensures s.toServer[0] !in s.seen
  {
    PromptAtBack(s.toClient, Other);
    PromptAtBack(s.toClient, ActionRejected(s.server.left));
  }

  lemma ClientReadsSound(budget: nat, s: System)
    requires Sound(budget, s) && s.toClient != []
    ensures Sound(budget, ClientReadsNext(s))
  {
    PromptAtFront(s.toClient);
  }

  lemma AsksSound(budget: nat, s: System)
    requires Sound(budget, s)
    ensures Sound(budget, Next(budget, s, Asks))
  {
    PromptAtBack(s.toClient, ObservationRequest);
  }

  lemma ChatsSound(budget: nat, s: System)
    requires Sound(budget, s)
    ensures Sound(budget, Next(budget, s, Chats))
  {
    PromptAtBack(s.toClient, Other);
  }

  lemma EndsSound(budget: nat, s: System, finished: bool)
    requires Sound(budget, s)
    ensures Sound(budget, Next(budget, s, Ends(finished)))
  {
  }

  lemma NextSound(budget: nat, s: System, e: Event)
    requires Sound(budget, s)
    ensures Sound(budget, Next(budget, s, e))
  {
    match e
    case Asks => AsksSound(budget, s);
    case Reads(accepts) =>
      if s.server.Open? && s.toServer != [] {
        ServerReadsSound(budget, s, accepts);
      }
    case Chats => ChatsSound(budget, s);
    case Ends(finished) => EndsSound(budget, s, finished);
    case ClientReads =>
      if s.toClient != [] {
        ClientReadsSound(budget, s);
      }
  }

  lemma {:induction false} RunSound(budget: nat, events: seq<Event>)
    ensures Sound(budget, Run(budget, events))
    decreases |events|
  {
    if events != [] {
      RunSound(budget, events[..|events| - 1]);
      NextSound(budget, Run(budget, events[..|events| - 1]), events[|events| - 1]);
    }
  }

  /** Server and client never wait on each other: while a turn is open, a client that reads
      all that is on its way to it leaves an answer on its way back, and there is never more
      than one. And the rejections of a turn have
      reported budget, budget - 1, and so on, 0 only when the attempts are exhausted. A report
      of 0 on its way to the client has match_aborted right behind it and nothing after. No
      answer is one the server has judged before. */
  lemma NeverBothWaiting(budget: nat, events: seq<Event>)
    ensures var s := Run(budget, events);
            && (s.server.Open? ==> Run(budget, events + ClientCatchesUp(|s.toClient|)).toServer != [])
            && (s.server.Open? ==> |s.toServer| <= 1)
            && (s.server.Open? ==> CountsDown(budget, s.server.told) && 0 !in s.server.told)
            && (s.server.Over? ==> CountsDown(budget, s.server.told) && (0 in s.server.told <==> s.server.exhausted))
            && (forall i :: 0 <= i < |s.toServer| ==> s.toServer[i] !in s.seen)
            && (forall i :: 0 <= i < |s.toClient| && s.toClient[i] == ActionRejected(0) ==>
                  s.server.Over? && i + 2 == |s.toClient| && s.toClient[i + 1] == MatchAborted)
  {
    RunSound(budget, events);
    var s := Run(budget, events);
    if s.server.Open? {
      CatchingUpAnswers(budget, events);
    }
    if s.server.Over? && s.server.exhausted {
      assert s.server.told[budget] == 0;
    }
  }

  // ---------------------------------------------------------------------------
  // Each step of the server, in terms of the turn alone
  // ---------------------------------------------------------------------------

  /** In every run the server asks between turns and only then, with the whole budget, and says
      one end, the last thing it says. */
  lemma ServerAsksAndEnds(budget: nat, events: seq<Event>, finished: bool)
    ensures var s := Run(budget, events);
            var asked := Run(budget, events + [Asks]);
            var ended := Run(budget, events + [Ends(finished)]);
            && (if s.server.Resting? then asked == s.(server := Open(budget, []), toClient := s.toClient + [ObservationRequest]) else asked == s)
            && (s.server.Over? ==> ended == s)
            && (!s.server.Over? ==> ended.server.Over? && ended.toClient == s.toClient + [if finished then MatchFinished else MatchAborted])
  {
    RunSnoc(budget, events, Asks);
    RunSnoc(budget, events, Ends(finished));
  }

  /** In every run the server reads the oldest answer of an open turn. A good one closes the
      turn; a bad one is answered with the further attempts there are, the budget less the
      rejections so far, and after a report of 0 the match is aborted. */
  lemma ServerJudgesEveryAnswer(budget: nat, events: seq<Event>, accepts: bool)
    requires Run(budget, events).server.Open? && Run(budget, events).toServer != []
    ensures var s := Run(budget, events);
            var read := Run(budget, events + [Reads(accepts)]);
            var report := budget - |s.server.told|;
            && report >= 0
            && read.toServer == s.toServer[1..] && read.seen == s.seen + {s.toServer[0]}
            && read.toClient == s.toClient + (if accepts then [Other] else [ActionRejected(report)] + (if report == 0 then [MatchAborted] else []))
            && read.server == (if accepts then Resting
                               else if report == 0 then Over(s.server.told + [report], true)
                               else Open(report - 1, s.server.told + [report]))
  {
    RunSound(budget, events);
    RunSnoc(budget, events, Reads(accepts));
    ReadIs(budget, Run(budget, events), accepts);
  }

  lemma ReadIs(budget: nat, s: System, accepts: bool)
    requires Fresh(s) && Reports(budget, s) && s.server.Open? && s.toServer != []
    ensures var report := budget - |s.server.told|;
            report >= 0 && ServerReads(s, accepts) ==
              s.(toServer := s.toServer[1..], seen := s.seen + {s.toServer[0]},
                 toClient := s.toClient + (if accepts then [Other] else [ActionRejected(report)] + (if report == 0 then [MatchAborted] else [])),
                 server := if accepts then Resting
                           else if report == 0 then Over(s.server.told + [report], true)
                           else Open(report - 1, s.server.told + [report]))
  {
    assert s.server.left == 0 ==> [ActionRejected(0), MatchAborted] == [ActionRejected(0)] + [MatchAborted];
  }

  lemma RunSnoc(budget: nat, events: seq<Event>, e: Event)
    ensures Run(budget, events + [e]) == Next(budget, Run(budget, events), e)
  {
    assert (events + [e])[..|events|] == events;
  }

  /** The client reads `n` frames. */
  function ClientCatchesUp(n: nat): seq<Event> {
    seq(n, _ => ClientReads)
  }

  /** With no answer in flight, the prompt there is will be answered once it is read. */
  lemma {:induction false} CatchingUpAnswers(budget: nat, events: seq<Event>)
    requires Run(budget, events).server.Open?
    ensures Run(budget, events + ClientCatchesUp(|Run(budget, events).toClient|)).toServer != []
    decreases |Run(budget, events).toClient|
  {
    var s := Run(budget, events);
    var n := |s.toClient|;
    RunSound(budget, events);
    if n == 0 {
      assert events + ClientCatchesUp(n) == events;
    } else {
      RunSnoc(budget, events, ClientReads);
      CatchingUpAnswers(budget, events + [ClientReads]);
      assert events + [ClientReads] + ClientCatchesUp(n - 1) == events + ClientCatchesUp(n);
    }
  }

  /** What the client has read. */
  function ReadSoFar(budget: nat, events: seq<Event>): seq<Message>
    decreases |events|
  {
    if events == [] then []
    else
      var before := events[..|events| - 1];
      var s := Run(budget, before);
      if events[|events| - 1].ClientReads? && s.toClient != [] then ReadSoFar(budget, before) + [s.toClient[0]]
      else ReadSoFar(budget, before)
  }

  /** The client of every run is playMatch: it stands where playMatch would after what it has
      read, and has sent one answer, each with an id of its own, for every message playMatch
      would have answered. */
  lemma {:induction false} TheClientIsPlayMatch(budget: nat, events: seq<Event>)
    ensures Run(budget, events).client == ClientAfter(ReadSoFar(budget, events))
    ensures Run(budget, events).nextId == |Answered(ReadSoFar(budget, events))|
    decreases |events|
  {
    if events != [] {
      var before := events[..|events| - 1];
      var s := Run(budget, before);
      TheClientIsPlayMatch(budget, before);
      if events[|events| - 1].ClientReads? && s.toClient != [] {
        var read := ReadSoFar(budget, before);
        var more := read + [s.toClient[0]];
        assert more[..|read|] == read;
        assert Answered(more) == if Answers(ClientAfter(read), s.toClient[0]) then Answered(read) + [|read|] else Answered(read);
      } else {
        OnlyReadingMovesTheClient(budget, s, events[|events| - 1]);
      }
    }
  }

  lemma OnlyReadingMovesTheClient(budget: nat, s: System, e: Event)
    requires !(e.ClientReads? && s.toClient != [])
    ensures Next(budget, s, e).client == s.client && Next(budget, s, e).nextId == s.nextId
  {
  }
}
