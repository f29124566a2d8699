/**
  Seen from any two clients, every step of the network is a move of one of the
  two, or nothing at all: other clients, other queues and the hub's halves of an
  operation do not show.
  */
module Reduction {
  import opened Hex
  import opened Strobe
  import opened Queues
  import opened Peer
  import opened Pair
  import opened Sync
  import N = Network

  // ----- The view of two clients -----

  /** A side as if the hub had already accepted what is on its way to it. */
  function Settled(n: N.Node, p: string): Side {
    if n.outgoing.Some? && n.outgoing.value.request.to == p
    then StoreSent(n.Has(p), n.outgoing.value.request.convo, n.outgoing.value.stored)
    else n.Has(p)
  }

  function Popped(n: N.Node, from: string): seq<Mail> {
    if n.incoming.Some? && n.incoming.value.from == from then [n.incoming.value] else []
  }

  function Leaving(n: N.Node, me: string, to: string): seq<Mail> {
    if n.outgoing.Some? && ToLower(n.outgoing.value.request.to) == to
    then [Envelope(me, n.outgoing.value.request.convo, n.outgoing.value.request.content)] else []
  }

  /** From a to b, oldest first: popped but not processed, queued, not yet uploaded. */
  function OnWay(w: N.World, a: string, b: string): seq<Mail>
    requires a in w.nodes && b in w.nodes
  {
    Popped(w.nodes[b], a) + From(Queue(w.hub.pending, b), a) + Leaving(w.nodes[a], a, b)
  }

  function View(w: N.World, a: string, b: string): Pair
    requires a in w.nodes && b in w.nodes
  {
    Pair(Settled(w.nodes[a], b), Settled(w.nodes[b], a), OnWay(w, a, b), OnWay(w, b, a))
  }

  /** The move of the acting client that a step is, towards b. */
  function Effect(w: N.World, s: N.Step, b: string): Option<Move>
    requires N.Enabled(w, s)
  {
    var n := w.nodes[s.who];
    match s
    case AskContact(a, bob, e1, random) =>
      if bob == b then Some(Add(e1, random))
      else if ToLower(bob) == b then
        (match AddContact(a, n.Has(bob), bob, e1, random)
         case None => None
         case Some((_, r)) => Some(Stray(Envelope(a, r.convo, r.content))))
      else None
    case AnswerContact(a, alice, e2, random) => if alice == b then Some(Accept(e2, random)) else None
    case SendText(a, to, x, content, random) => if to == b then Some(Say(x, content, random)) else None
    case Upload(a) =>
      var o := n.outgoing.value;
      if !Admitted(o.request) && o.request.to == b then Some(Bounce(o.stored)) else None
    case Poll(a) => None
    case Process(a) => if n.incoming.value.from == b then Some(Collect) else None
  }

  function Moved(a: string, b: string, p: Pair, m: Option<Move>): Pair
    requires m.Some? ==> Enabled(p, m.value)
  {
    if m.None? then p else Act(a, b, p, m.value)
  }

  /** Seen by b and the acting client, the step to w' is the move `Effect` names. */
  ghost predicate Shows(w: N.World, w': N.World, s: N.Step, b: string)
    requires N.Enabled(w, s) && b in w.nodes
  {
    && w'.nodes.Keys == w.nodes.Keys
    && var v, m := View(w, s.who, b), Effect(w, s, b);
    && (m.Some? ==> Enabled(v, m.value))
    && View(w', s.who, b) == Moved(s.who, b, v, m)
  }

  // ----- Queues seen by one sender -----

  lemma {:induction false} FromMembers<C>(es: seq<Envelope<C>>, a: string, e: Envelope<C>)
    requires e in From(es, a)
    ensures e in es && e.from == a
  {
    if e in From(es[1..], a) {
      FromMembers(es[1..], a, e);
    }
  }

  lemma FromPush<C>(es: seq<Envelope<C>>, e: Envelope<C>, a: string)
    ensures From(es + [e], a) == From(es, a) + if e.from == a then [e] else []
  {
    FromConcat(es, [e], a);
  }

  lemma OnWayMembers(w: N.World, a: string, b: string, e: Mail)
    requires N.Good(w) && a in w.nodes && b in w.nodes && e in OnWay(w, a, b)
    ensures e.from == a && N.Owned(w, e.convo, a, b)
  {
    assert N.GoodNode(w, a, w.nodes[a]) && N.GoodNode(w, b, w.nodes[b]);
    if e in From(Queue(w.hub.pending, b), a) {
      FromMembers(Queue(w.hub.pending, b), a, e);
      var i :| 0 <= i < |w.hub.pending[b]| && w.hub.pending[b][i] == e;
      assert N.GoodMail(w, w.hub.pending[b][i], b);
    }
  }

  /** An id nobody has drawn is nowhere between the two. */
  lemma NewIdIsFresh(w: N.World, a: string, b: string, x: string)
    requires N.Good(w) && a in w.nodes && b in w.nodes && x !in w.owners
    ensures Fresh(View(w, a, b), x)
  {
    forall e | e in OnWay(w, a, b) ensures e.convo != x { OnWayMembers(w, a, b, e); }
    forall e | e in OnWay(w, b, a) ensures e.convo != x { OnWayMembers(w, b, a, e); }
    NotInSide(w, a, b, x);
    NotInSide(w, b, a, x);
  }

  lemma NotInSide(w: N.World, a: string, b: string, x: string)
    requires N.Good(w) && a in w.nodes && x !in w.owners
    ensures x !in Settled(w.nodes[a], b).convos
  {
    assert N.GoodNode(w, a, w.nodes[a]);
    if b in w.nodes[a].book {
      assert N.GoodSide(w, a, b, w.nodes[a].book[b]);
    }
  }

  lemma EffectEnabled(w: N.World, s: N.Step, b: string)
    requires N.Good(w) && N.Enabled(w, s) && b in w.nodes && b != s.who
    ensures Effect(w, s, b).Some? ==> Enabled(View(w, s.who, b), Effect(w, s, b).value)
  {
    match s
    case SendText(a, to, x, content, random) =>
      if x == "" {
        NewIdIsFresh(w, a, b, Encode(random));
      }
    case _ =>
  }

  // ----- The acting client -----

  /** A call that hands a request over, seen from any other client. */
  lemma HandShows(w: N.World, w': N.World, a: string, b: string, p: string, side: Side, r: Request, stored: Option<Bytes>)
    requires a in w.nodes && b in w.nodes && a != b && w.nodes[a].Idle() && r.to == p
    requires w'.hub == w.hub && w'.nodes.Keys == w.nodes.Keys && w'.nodes[b] == w.nodes[b]
    requires w'.nodes[a].book == w.nodes[a].book[p := side] && w'.nodes[a].incoming.None?
    requires w'.nodes[a].outgoing == Some(N.Outgoing(r, stored))
    ensures
      var v := View(w, a, b);
      View(w', a, b) == Pair(
        if p == b then StoreSent(side, r.convo, stored) else v.sa,
        v.sb,
        if ToLower(p) == b then v.ab + [Envelope(a, r.convo, r.content)] else v.ab,
        v.ba)
  {
    var v, v' := View(w, a, b), View(w', a, b);
    assert v.sa == w.nodes[a].Has(b);
    assert Leaving(w.nodes[a], a, b) == [];
    assert v'.ba == v.ba;
  }

  lemma AskMoves(w: N.World, a: string, b: string, bob: string, e1: nat, random: Bytes)
    requires N.Good(w) && b in w.nodes && a != b
    requires N.Enabled(w, N.AskContact(a, bob, e1, random))
    ensures Shows(w, N.Ask(w, a, bob, e1, random), N.AskContact(a, bob, e1, random), b)
  {
    var n := w.nodes[a];
    assert N.GoodNode(w, b, w.nodes[b]);
    match AddContact(a, n.Has(bob), bob, e1, random)
    case None =>
    case Some((side, r)) =>
      HandShows(w, N.Ask(w, a, bob, e1, random), a, b, bob, side, r, None);
  }

  lemma AnswerMoves(w: N.World, a: string, b: string, alice: string, e2: nat, random: Bytes)
    requires N.Good(w) && b in w.nodes && a != b
    requires N.Enabled(w, N.AnswerContact(a, alice, e2, random))
    ensures Shows(w, N.Answer(w, a, alice, e2, random), N.AnswerContact(a, alice, e2, random), b)
  {
    var n := w.nodes[a];
    assert N.GoodNode(w, b, w.nodes[b]);
    match AcceptContact(a, n.Has(alice), alice, e2, random)
    case None =>
    case Some((side, r)) =>
      assert N.GoodNode(w, a, n) && N.GoodSide(w, a, alice, n.book[alice]);
      HandShows(w, N.Answer(w, a, alice, e2, random), a, b, alice, side, r, None);
  }

  lemma FailedShows(w: N.World, w': N.World, a: string, b: string, to: string, side: Side)
    requires a in w.nodes && b in w.nodes && a != b && w.nodes[a].Idle()
    requires w'.hub == w.hub && w'.nodes.Keys == w.nodes.Keys && w'.nodes[b] == w.nodes[b]
    requires w'.nodes[a] == N.Sent(w.nodes[a], to, Failed(side))
    ensures View(w', a, b) == if to == b then View(w, a, b).(sa := side) else View(w, a, b)
  {
    assert Leaving(w'.nodes[a], a, b) == Leaving(w.nodes[a], a, b) == [];
  }

  lemma TextMoves(w: N.World, a: string, b: string, to: string, x: string, content: Bytes, random: Bytes)
    requires N.Good(w) && b in w.nodes && a != b
    requires N.Enabled(w, N.SendText(a, to, x, content, random))
    ensures Shows(w, N.Text(w, a, to, x, content, random), N.SendText(a, to, x, content, random), b)
  {
    hide SendMessage;
    EffectEnabled(w, N.SendText(a, to, x, content, random), b);
    var n := w.nodes[a];
    var w' := N.Text(w, a, to, x, content, random);
    var o := SendMessage(a, n.Has(to), to, x, content, random);
    SendHasShape(a, n.Has(to), to, x, content, random);
    assert N.GoodNode(w, a, n) && N.GoodNode(w, b, w.nodes[b]);
    match o
    case Failed(side) => FailedShows(w, w', a, b, to, side);
    case Ready(side, r, stored) =>
      assert N.GoodSide(w, a, to, n.book[to]);
      HandShows(w, w', a, b, to, side, r, stored);
  }

  lemma PostShows(h: Hub<Content>, to: string, e: Mail, b: string, a: string)
    ensures From(Queue(Post(h, to, e).pending, b), a)
         == From(Queue(h.pending, b), a) + if ToLower(to) == b && e.from == a then [e] else []
  {
    FromPush(Queue(h.pending, b), e, a);
  }

  /** The hub's acceptance settles what was settled. */
  lemma AcknowledgedSettles(n: N.Node, b: string)
    requires n.outgoing.Some?
    ensures Settled(N.Acknowledged(n), b) == Settled(n, b)
  {
  }

  /** It moves a message within what is on its way from its sender ... */
  lemma AcceptedStaysOnWay(w: N.World, a: string, b: string)
    requires a in w.nodes && b in w.nodes && a != b
    requires w.nodes[a].outgoing.Some? && Admitted(w.nodes[a].outgoing.value.request)
    ensures OnWay(N.Uploaded(w, a), a, b) == OnWay(w, a, b)
  {
    var r := w.nodes[a].outgoing.value.request;
    PostShows(w.hub, r.to, Envelope(a, r.convo, r.content), b, a);
    var e := if ToLower(r.to) == b then [Envelope(a, r.convo, r.content)] else [];
    assert Leaving(w.nodes[a], a, b) == e;
    assert Leaving(N.Uploaded(w, a).nodes[a], a, b) == [];
  }

  /** ... and within what is on its way to it, changes nothing. */
  lemma AcceptedIsNotOnWayBack(w: N.World, a: string, b: string)
    requires a in w.nodes && b in w.nodes && a != b
    requires w.nodes[a].outgoing.Some? && Admitted(w.nodes[a].outgoing.value.request)
    ensures OnWay(N.Uploaded(w, a), b, a) == OnWay(w, b, a)
  {
    var r := w.nodes[a].outgoing.value.request;
    PostShows(w.hub, r.to, Envelope(a, r.convo, r.content), a, b);
  }

  lemma AcceptedUploadShows(w: N.World, a: string, b: string)
    requires a in w.nodes && b in w.nodes && a != b
    requires w.nodes[a].outgoing.Some? && Admitted(w.nodes[a].outgoing.value.request)
    ensures View(N.Uploaded(w, a), a, b) == View(w, a, b)
  {
    AcknowledgedSettles(w.nodes[a], b);
    AcceptedStaysOnWay(w, a, b);
    AcceptedIsNotOnWayBack(w, a, b);
  }

  lemma RefusedUploadLeaves(w: N.World, a: string, b: string)
    requires a in w.nodes && b in w.nodes && a != b
    requires w.nodes[a].outgoing.Some? && !Admitted(w.nodes[a].outgoing.value.request)
    ensures
      var v, v' := View(w, a, b), View(N.Uploaded(w, a), a, b);
      && v'.sa == w.nodes[a].Has(b) && v'.sb == v.sb && v'.ba == v.ba
      && v.ab == v'.ab + Leaving(w.nodes[a], a, b)
  {
    hide From, Check, StoreSent;
  }

  lemma RefusedUploadShows(w: N.World, a: string, b: string)
    requires N.Good(w) && a in w.nodes && b in w.nodes && a != b
    requires w.nodes[a].outgoing.Some? && !Admitted(w.nodes[a].outgoing.value.request)
    ensures
      var v, v', o := View(w, a, b), View(N.Uploaded(w, a), a, b), w.nodes[a].outgoing.value;
      if o.request.to != b then v' == v
      else v.ab != [] && v' == Bounced(v, o.stored)
  {
    hide Check, OnWay;
    var n := w.nodes[a];
    assert N.GoodNode(w, a, n);
    var o := n.outgoing.value;
    RefusedUploadLeaves(w, a, b);
    var v, v' := View(w, a, b), View(N.Uploaded(w, a), a, b);
    if o.request.to == b {
      StoreUnstore(n.Has(b), o.request.convo, o.stored);
      assert v.ab[..|v.ab| - 1] == v'.ab;
    }
  }

  lemma UploadMoves(w: N.World, a: string, b: string)
    requires N.Good(w) && N.Enabled(w, N.Upload(a)) && b in w.nodes && a != b
    ensures Shows(w, N.Uploaded(w, a), N.Upload(a), b)
  {
    hide OnWay, Settled, Check, Bounced, AddContact, AcceptContact, SendMessage, Take;
    if Admitted(w.nodes[a].outgoing.value.request) {
      AcceptedUploadShows(w, a, b);
    } else {
      RefusedUploadShows(w, a, b);
    }
  }

  lemma PolledIsOnWay(w: N.World, a: string, b: string)
    requires N.Enabled(w, N.Poll(a)) && b in w.nodes && a != b
    ensures OnWay(N.Polled(w, a), b, a) == OnWay(w, b, a)
    ensures OnWay(N.Polled(w, a), a, b) == OnWay(w, a, b)
  {
    var q := Queue(w.hub.pending, a);
    if q != [] {
      assert From(q, b) == Popped(N.Polled(w, a).nodes[a], b) + From(q[1..], b);
    }
  }

  lemma PollMoves(w: N.World, a: string, b: string)
    requires N.Enabled(w, N.Poll(a)) && b in w.nodes && a != b
    ensures Shows(w, N.Polled(w, a), N.Poll(a), b)
  {
    PolledIsOnWay(w, a, b);
  }

  lemma ProcessedLeaves(w: N.World, a: string, b: string)
    requires N.Enabled(w, N.Process(a)) && w.nodes[a].outgoing.None? && b in w.nodes && a != b
    ensures
      var n, v, v' := w.nodes[a], View(w, a, b), View(N.Processed(w, a), a, b);
      && v'.ab == v.ab && v'.sb == v.sb
      && v.ba == Popped(n, b) + v'.ba
      && v.sa == n.Has(b)
      && v'.sa == if n.incoming.value.from == b then N.Processing(n, a).0 else v.sa
  {
    hide From, N.Processing;
  }

  lemma ProcessMoves(w: N.World, a: string, b: string)
    requires N.Good(w) && N.Enabled(w, N.Process(a)) && b in w.nodes && a != b
    ensures Shows(w, N.Processed(w, a), N.Process(a), b)
  {
    hide Receive, OnWay, Settled;
    var n := w.nodes[a];
    assert N.GoodNode(w, a, n);
    N.KnownUnderOnePeer(w, a, n.incoming.value.from, n.incoming.value.convo);
    ProcessedLeaves(w, a, b);
    var v, v' := View(w, a, b), View(N.Processed(w, a), a, b);
    if n.incoming.value.from == b {
      assert v.ba[0] == n.incoming.value && v.ba[1..] == v'.ba;
    }
  }

  lemma SwapView(w: N.World, a: string, b: string)
    requires a in w.nodes && b in w.nodes
    ensures View(w, b, a) == View(w, a, b).Swap()
  {
  }

  lemma ActorMoves(w: N.World, s: N.Step, b: string)
    requires N.Good(w) && N.Enabled(w, s) && b in w.nodes && b != s.who
    ensures Shows(w, N.Next(w, s), s, b)
  {
    match s
    case AskContact(a, bob, e1, random) => AskMoves(w, a, b, bob, e1, random);
    case AnswerContact(a, alice, e2, random) => AnswerMoves(w, a, b, alice, e2, random);
    case SendText(a, to, x, content, random) => TextMoves(w, a, b, to, x, content, random);
    case Upload(a) => UploadMoves(w, a, b);
    case Poll(a) => PollMoves(w, a, b);
    case Process(a) => ProcessMoves(w, a, b);
  }

  lemma EffectsAreHonest(w: N.World, s: N.Step, b: string)
    requires N.Enabled(w, s)
    ensures Effect(w, s, b).Some? ==> Honest(Effect(w, s, b).value)
  {
  }

  lemma SameFrom(w: N.World, s: N.Step, a: string, b: string)
    requires N.Enabled(w, s) && a != s.who && b != s.who
    ensures From(Queue(N.Next(w, s).hub.pending, b), a) == From(Queue(w.hub.pending, b), a)
  {
    if s.Upload? {
      var r := w.nodes[s.who].outgoing.value.request;
      PostShows(w.hub, r.to, Envelope(s.who, r.convo, r.content), b, a);
    }
  }

  lemma OthersStay(w: N.World, s: N.Step, a: string)
    requires N.Enabled(w, s) && a in w.nodes && a != s.who
    ensures a in N.Next(w, s).nodes && N.Next(w, s).nodes[a] == w.nodes[a]
  {
  }

  /** A step shows nothing to two clients that do not take it. */
  lemma OthersSeeNothing(w: N.World, s: N.Step, a: string, b: string)
    requires N.Enabled(w, s) && a in w.nodes && b in w.nodes
    requires a != s.who && b != s.who
    ensures a in N.Next(w, s).nodes && b in N.Next(w, s).nodes
    ensures View(N.Next(w, s), a, b) == View(w, a, b)
  {
    OthersStay(w, s, a);
    OthersStay(w, s, b);
    SameFrom(w, s, a, b);
    SameFrom(w, s, b, a);
  }

  // ----- A step of anybody, seen from two clients -----

  datatype Turn = First(m: Move) | Second(m: Move) | Nothing

  predicate CanTurn(p: Pair, t: Turn) {
    match t
    case First(m) => Enabled(p, m) && Honest(m)
    case Second(m) => Enabled(p.Swap(), m) && Honest(m)
    case Nothing => true
  }

  function Turned(a: string, b: string, p: Pair, t: Turn): Pair
    requires CanTurn(p, t)
  {
    match t
    case First(m) => Act(a, b, p, m)
    case Second(m) => Act(b, a, p.Swap(), m).Swap()
    case Nothing => p
  }

  /** Whose move a step is between two clients, if it is one. */
  function TurnOf(w: N.World, s: N.Step, a: string, b: string): Turn
    requires N.Enabled(w, s)
  {
    if s.who == a then (if Effect(w, s, b).Some? then First(Effect(w, s, b).value) else Nothing)
    else if s.who == b then (if Effect(w, s, a).Some? then Second(Effect(w, s, a).value) else Nothing)
    else Nothing
  }

  /** Every step is one client's move between the two, or nothing. */
  lemma StepIsTurn(w: N.World, s: N.Step, a: string, b: string)
    requires N.Good(w) && N.Enabled(w, s) && a in w.nodes && b in w.nodes && a != b
    ensures N.Next(w, s).nodes.Keys == w.nodes.Keys
    ensures CanTurn(View(w, a, b), TurnOf(w, s, a, b))
    ensures View(N.Next(w, s), a, b) == Turned(a, b, View(w, a, b), TurnOf(w, s, a, b))
  {
    hide View, Act, Effect, N.Next, Enabled, Honest, N.Enabled;
    if s.who == a {
      ActorMoves(w, s, b);
      EffectsAreHonest(w, s, b);
    } else if s.who == b {
      ActorMoves(w, s, a);
      EffectsAreHonest(w, s, a);
      SwapView(w, a, b);
      SwapView(N.Next(w, s), a, b);
    } else {
      N.NextKeepsGood(w, s);
      OthersSeeNothing(w, s, a, b);
    }
  }
}
