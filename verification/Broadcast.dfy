/** The recipient registry of one match and its per-viewer broadcast, as the loops they are
    (src/arena/server/runtime_bridge.py:203-262, 812-873). */
module Broadcasts {
  import opened Lists
  import opened Wrappers
  import opened Games
  import opened Runtime
  import opened Drivers

  /** A viewer's frame is the frame of the view it is rendered as. */
  predicate SharesViews<V(==)>(hidden: bool, b: Broadcast<V>) {
    hidden || (b.build(OfSeat(0)) == b.build(Public) && b.build(OfSeat(1)) == b.build(Public))
  }

  /** The driver's three broadcasts do. */
  lemma BroadcastsShareViews<L, T, A, V>(rules: Rules<L, T, A, V>, s: MatchSession<L>, i: nat)
    ensures i < |TurnsOf(rules, s)| ==> SharesViews(rules.hidden, TurnBroadcast(rules, s, i))
    ensures SharesViews(rules.hidden, StateBroadcast(rules, s))
    ensures SharesViews(rules.hidden, TerminalBroadcast(rules, s))
  {
    if !rules.hidden {
      assert HistoryFor(rules, s, OfSeat(0)) == HistoryFor(rules, s, Public);
      assert HistoryFor(rules, s, OfSeat(1)) == HistoryFor(rules, s, Public);
    }
  }

  class MatchConnections<V(==)> {
    var conns: map<ConnId, Conn<V>>
    var seat0: ConnId
    var seat1: ConnId
    var spectators: seq<ConnId>

    ghost predicate Valid()
      reads this
    {
      && seat0 in conns && conns[seat0].viewer == OfSeat(0)
      && seat1 in conns && conns[seat1].viewer == OfSeat(1)
      && NoRepeats(spectators)
      && (forall i :: 0 <= i < |spectators| ==> spectators[i] in conns && conns[spectators[i]].viewer == Public)
    }

    /** This registry is the one the driver `d` holds. */
    ghost predicate IsOf<L, A>(d: Driver<L, A, V>)
      reads this
    {
      d.conns == conns && d.seat0 == seat0 && d.seat1 == seat1 && d.spectators == Members(spectators)
    }

    constructor (seat0: ConnId, seat1: ConnId)
      requires seat0 != seat1
      ensures Valid() && spectators == [] && conns.Keys == {seat0, seat1}
    {
      this.seat0, this.seat1 := seat0, seat1;
      conns := map[seat0 := Conn(OfSeat(0), [], 0, false, true), seat1 := Conn(OfSeat(1), [], 0, false, true)];
      spectators := [];
    }

    /** The recipients in their order: the seats first, then the spectators not ahead. */
    method Recipients(b: Broadcast<V>) returns (r: seq<ConnId>)
      requires Valid()
      ensures |r| >= 2 && r[0] == seat0 && r[1] == seat1 && NoRepeats(r)
      ensures forall i :: 2 <= i < |r| ==> r[i] in spectators && IsRecipient(b, conns[r[i]])
      ensures forall c :: c in spectators && IsRecipient(b, conns[c]) ==> c in r
    {
      r := [seat0, seat1];
      for i := 0 to |spectators|
        invariant |r| >= 2 && r[0] == seat0 && r[1] == seat1 && NoRepeats(r)
        invariant forall k :: 2 <= k < |r| ==> r[k] in spectators[..i] && IsRecipient(b, conns[r[k]])
        invariant forall k :: 0 <= k < i && IsRecipient(b, conns[spectators[k]]) ==> spectators[k] in r
      {
        if IsRecipient(b, conns[spectators[i]]) {
          r := r + [spectators[i]];
        }
      }
    }

    /** Every distinct view is built once, before anything is queued. A seat's failing view
        raises; the public one marks every spectator as fallen behind, and building stops. */
    method Render(hidden: bool, b: Broadcast<V>, recipients: seq<ConnId>, fails: set<Viewer>)
      returns (raised: bool, publicFails: bool, rendered: map<Viewer, Frame<V>>)
      requires Valid() && SharesViews(hidden, b)
      requires |recipients| >= 2 && recipients[0] == seat0 && recipients[1] == seat1 && NoRepeats(recipients)
      requires forall i :: 2 <= i < |recipients| ==> recipients[i] in spectators
      modifies this`conns
      ensures raised <==> exists i :: 0 <= i < 2 && (if hidden then old(conns)[recipients[i]].viewer else Public) in fails
      ensures raised ==> conns == old(conns)
      ensures !raised ==> (publicFails <==> hidden && Public in fails && |recipients| > 2)
      ensures !raised ==> forall i :: 0 <= i < |recipients| && (i < 2 || !publicFails) ==>
        var v := if hidden then old(conns)[recipients[i]].viewer else Public;
        v in rendered && rendered[v] == b.build(old(conns)[recipients[i]].viewer)
      ensures !raised && publicFails ==> Public !in rendered
      ensures !raised ==> conns == if publicFails then Marked(old(conns), Members(spectators)) else old(conns)
    {
      raised, publicFails, rendered := false, false, map[];
      var i := 0;
      while i < |recipients|
        invariant 0 <= i <= |recipients| && conns == old(conns)
        invariant forall k :: 0 <= k < i ==>
          var v := if hidden then conns[recipients[k]].viewer else Public;
          v in rendered && v !in fails
        invariant forall v :: v in rendered ==> v !in fails && rendered[v] == b.build(v)
        invariant i < 2 && hidden ==> Public !in rendered
      {
        assert i >= 2 ==> recipients[i] in spectators;
        assert i > 0 && !hidden ==> Public in rendered;
        var conn := conns[recipients[i]];
        var v := if hidden then conn.viewer else Public;
        if v !in rendered {
          if v in fails {
            if conn.viewer.OfSeat? {
              raised := true;
              return;
            }
            MarkSpectators();
            publicFails := true;
            return;
          }
          rendered := rendered[v := b.build(v)];
        }
        i := i + 1;
      }
      assert |recipients| > 2 ==> recipients[2] in spectators;
    }

    /** Every spectator is marked as fallen behind. */
    method MarkSpectators()
      requires Valid()
      modifies this`conns
      ensures conns == Marked(old(conns), Members(spectators))
    {
      for i := 0 to |spectators|
        invariant conns == Marked(old(conns), Members(spectators[..i]))
      {
        assert Members(spectators[..i + 1]) == Members(spectators[..i]) + {spectators[i]};
        conns := conns[spectators[i] := conns[spectators[i]].(overflowed := true)];
      }
      assert spectators[..|spectators|] == spectators;
    }

    /** Each recipient whose view was built is queued it; a spectator's watermark moves past
        the turn. */
    method QueueAll(hidden: bool, b: Broadcast<V>, recipients: seq<ConnId>, rendered: map<Viewer, Frame<V>>, full: set<ConnId>)
      requires NoRepeats(recipients) && forall c :: c in recipients ==> c in conns
      modifies this`conns
      ensures conns == AllQueued(old(conns), hidden, b.turn, Members(recipients), rendered, full)
    {
      for i := 0 to |recipients|
        invariant conns == AllQueued(old(conns), hidden, b.turn, Members(recipients[..i]), rendered, full)
      {
        var c := recipients[i];
        assert Members(recipients[..i + 1]) == Members(recipients[..i]) + {c};
        assert c !in recipients[..i];
        conns := conns[c := Queued(conns[c], hidden, b.turn, rendered, c !in full)];
      }
      assert recipients[..|recipients|] == recipients;
    }

    /** Spectators that fell behind are dropped. */
    method ShedOverflowed()
      requires Valid()
      modifies this`spectators
      ensures Valid() && Members(spectators) == Kept(conns, Members(old(spectators)))
    {
      var kept: seq<ConnId> := [];
      for i := 0 to |spectators|
        invariant spectators == old(spectators) && NoRepeats(kept)
        invariant forall c :: c in kept <==> c in spectators[..i] && !conns[c].overflowed
      {
        if !conns[spectators[i]].overflowed {
          kept := kept + [spectators[i]];
        }
      }
      forall i | 0 <= i < |kept|
        ensures kept[i] in conns && conns[kept[i]].viewer == Public
      {
        assert kept[i] in kept;
        assert kept[i] in spectators[..|spectators|];
      }
      spectators := kept;
    }

    /** One broadcast, a stretch of code with no suspension: what it does to every connection
        and to the list of spectators is the driver's broadcast, or nothing at all when a seat
        view cannot be built. */
    method BroadcastPerViewer<L, T, A>(ghost rules: Rules<L, T, A, V>, ghost d: Driver<L, A, V>, hidden: bool, b: Broadcast<V>, trouble: Trouble)
      returns (raised: bool)
      requires Valid() && IsOf(d) && hidden == rules.hidden && SharesViews(hidden, b)
      modifies this`conns, this`spectators
      ensures Valid()
      ensures Broadcasted(rules, d, b, trouble) ==
              if raised then None else Some(d.(conns := conns, spectators := Members(spectators)))
      ensures raised ==> conns == old(conns) && spectators == old(spectators)
    {
      var recipients := Recipients(b);
      var publicFails, rendered;
      raised, publicFails, rendered := Render(hidden, b, recipients, trouble.fails);
      assert raised <==> SeatViewFails(rules, trouble);
      if !raised {
        SpectatorsAmong(old(conns), d, b, recipients);
        QueueAll(hidden, b, recipients, rendered, trouble.full);
        LoopsDeliver(old(conns), d, hidden, b, recipients, rendered, publicFails, trouble.full);
        ShedOverflowed();
      }
    }

    /** There is a third recipient exactly when some spectator is one. */
    lemma SpectatorsAmong<L, A>(conns: map<ConnId, Conn<V>>, d: Driver<L, A, V>, b: Broadcast<V>, recipients: seq<ConnId>)
      requires d.conns == conns && (forall c :: c in d.spectators ==> c in conns && conns[c].viewer == Public)
      requires |recipients| >= 2 && recipients[0] == d.seat0 && recipients[1] == d.seat1
      requires d.seat0 in conns && conns[d.seat0].viewer == OfSeat(0) && d.seat1 in conns && conns[d.seat1].viewer == OfSeat(1)
      requires forall i :: 2 <= i < |recipients| ==> recipients[i] in d.spectators && IsRecipient(b, conns[recipients[i]])
      requires forall c :: c in d.spectators && IsRecipient(b, conns[c]) ==> c in recipients
      ensures |recipients| > 2 <==> exists c :: c in d.spectators && c in conns && IsRecipient(b, conns[c])
    {
      if |recipients| > 2 {
        assert recipients[2] in d.spectators && IsRecipient(b, conns[recipients[2]]);
      }
      if c :| c in d.spectators && c in conns && IsRecipient(b, conns[c]) {
        assert c in recipients;
      }
    }
  }

  /** One recipient, queued the view built for it, if it could be built. */
  function Queued<V>(conn: Conn<V>, hidden: bool, turn: Option<nat>, rendered: map<Viewer, Frame<V>>, room: bool): Conn<V> {
    var v := if hidden then conn.viewer else Public;
    if v !in rendered then conn
    else
      var q := Queue(conn, rendered[v], room);
      if turn.Some? && conn.viewer == Public then q.(nextTurn := turn.value + 1) else q
  }

  function AllQueued<V>(conns: map<ConnId, Conn<V>>, hidden: bool, turn: Option<nat>, recipients: set<ConnId>,
                        rendered: map<Viewer, Frame<V>>, full: set<ConnId>): map<ConnId, Conn<V>> {
    map c | c in conns :: if c in recipients then Queued(conns[c], hidden, turn, rendered, c !in full) else conns[c]
  }

  /** Marking, then queueing what was rendered, is what the broadcast does to each connection. */
  lemma LoopsDeliver<L, A, V>(conns: map<ConnId, Conn<V>>, d: Driver<L, A, V>, hidden: bool, b: Broadcast<V>, recipients: seq<ConnId>,
                              rendered: map<Viewer, Frame<V>>, publicFails: bool, full: set<ConnId>)
    requires d.conns == conns && (forall c :: c in d.spectators ==> c in conns && conns[c].viewer == Public)
    requires d.seat0 in conns && conns[d.seat0].viewer == OfSeat(0) && d.seat1 in conns && conns[d.seat1].viewer == OfSeat(1)
    requires |recipients| >= 2 && recipients[0] == d.seat0 && recipients[1] == d.seat1
    requires forall i :: 2 <= i < |recipients| ==> recipients[i] in d.spectators && IsRecipient(b, conns[recipients[i]])
    requires forall c :: c in d.spectators && IsRecipient(b, conns[c]) ==> c in recipients
    requires publicFails ==> hidden && Public !in rendered
    requires forall i :: 0 <= i < |recipients| && (i < 2 || !publicFails) ==>
      var v := if hidden then conns[recipients[i]].viewer else Public;
      v in rendered && rendered[v] == b.build(conns[recipients[i]].viewer)
    ensures AllQueued(if publicFails then Marked(conns, d.spectators) else conns, hidden, b.turn, Members(recipients), rendered, full)
         == map c | c in conns :: Delivered(conns[c], IsSeatConn(d, c), c in d.spectators, b, publicFails, c !in full)
  {
    var marked := if publicFails then Marked(conns, d.spectators) else conns;
    forall c | c in conns
      ensures (if c in Members(recipients) then Queued(marked[c], hidden, b.turn, rendered, c !in full) else marked[c])
           == Delivered(conns[c], IsSeatConn(d, c), c in d.spectators, b, publicFails, c !in full)
    {
      if c in recipients {
        var i :| 0 <= i < |recipients| && recipients[i] == c;
        assert i >= 2 ==> c in d.spectators;
      }
      if IsSeatConn(d, c) {
        assert recipients[0] == c || recipients[1] == c;
      }
    }
  }

  function Marked<V>(conns: map<ConnId, Conn<V>>, spectators: set<ConnId>): map<ConnId, Conn<V>> {
    map c | c in conns :: if c in spectators then conns[c].(overflowed := true) else conns[c]
  }
}
