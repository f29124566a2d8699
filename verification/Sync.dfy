/**
  The relation the protocol keeps between two clients: whatever is still on its
  way, delivering all of it would leave them with crossed, equal state.
  */
module Sync {
  import opened Hex
  import opened Strobe
  import opened Crypto
  import opened Queues
  import opened Peer
  import opened Pair

  // ----- Moves of one client -----

  datatype Move =
    | Add(e1: nat, random: Bytes)
    | Accept(e2: nat, random: Bytes)
    | Say(x: string, content: Bytes, random: Bytes)
    | Collect
    | Bounce(stored: Option<Bytes>)   // the hub refused the last message
    | Stray(env: Mail)            // a request sent under a mistyped address

  predicate Fresh(p: Pair, x: string) {
    x !in p.sa.convos && x !in p.sb.convos && Avoids(p.ab, x) && Avoids(p.ba, x)
  }

  /** A stray message is a contact request. */
  predicate Honest(m: Move) {
    m.Stray? ==> m.env.content.Hs1?
  }

  predicate Enabled(p: Pair, m: Move) {
    match m
    case Say(x, _, random) => x == "" ==> |random| == 16 && Fresh(p, Encode(random))
    case Collect => p.ba != []
    case Bounce(_) => p.ab != []
    case _ => true
  }

  function Posted(a: string, p: Pair, side: Side, request: Request): Pair {
    p.(sa := side, ab := p.ab + [Envelope(a, request.convo, request.content)])
  }

  /** Takes back the optimistic `StoreSent` of a message the hub refused. */
  function Unstore(side: Side, x: string, stored: Option<Bytes>): Side {
    if stored.None? || x !in side.convos || side.convos[x].sent == [] then side
    else side.(convos := side.convos[x := side.convos[x].(sent := side.convos[x].sent[..|side.convos[x].sent| - 1])])
  }

  lemma StoreUnstore(side: Side, x: string, stored: Option<Bytes>)
    ensures Unstore(StoreSent(side, x, stored), x, stored) == side
  {
    if stored.Some? && x in side.convos {
      var c := side.convos[x];
      assert (c.sent + [stored.value])[..|c.sent|] == c.sent;
      assert side.convos[x := c] == side.convos;
    }
  }

  function Bounced(p: Pair, stored: Option<Bytes>): Pair
    requires p.ab != []
  {
    var last := |p.ab| - 1;
    p.(sa := Unstore(p.sa, p.ab[last].convo, stored), ab := p.ab[..last])
  }

  /** A move of the first client; `Swap` gives the second client's. */
  function Act(a: string, b: string, p: Pair, m: Move): Pair
    requires Enabled(p, m)
  {
    match m
    case Add(e1, random) =>
      (match AddContact(a, p.sa, b, e1, random)
       case None => p
       case Some((side, request)) => Posted(a, p, side, request))
    case Accept(e2, random) =>
      (match AcceptContact(a, p.sa, b, e2, random)
       case None => p
       case Some((side, request)) => Posted(a, p, side, request))
    case Say(x, content, random) =>
      (match SendMessage(a, p.sa, b, x, content, random)
       case Failed(side) => p.(sa := side)
       case Ready(side, request, stored) => Posted(a, p, StoreSent(side, request.convo, stored), request))
    case Collect => p.(sa := Take(a, b, p.sa, p.ba[0]).0, ba := p.ba[1..])
    case Bounce(stored) => Bounced(p, stored)
    case Stray(env) => p.(ab := p.ab + [env])
  }

  // ----- The phases of a contact -----

  predicate Idle(p: Pair) {
    p == Pair(EMPTY, EMPTY, [], [])
  }

  /** a has asked b, who has not accepted yet. */
  predicate Asked(a: string, b: string, p: Pair) {
    && p.sa.contact.WaitingForAccept? && p.sa.convos == map[] && p.ba == [] && p.sb.convos == map[]
    && var hs := p.sa.contact.hs;
    && hs.me == a && hs.peer == b
    && (if p.ab == [] then p.sb.contact == WaitingToAccept(Hs1(a, b, hs.e1))
        else p.sb.contact == NoContact && |p.ab| == 1 && p.ab[0].content == Hs1(a, b, hs.e1))
  }

  predicate OnlyRequests(es: seq<Mail>) {
    forall e :: e in es ==> e.content.Hs1?
  }

  /** Both have asked: neither will take the other's request for an answer. */
  predicate Crossing(p: Pair) {
    && p.sa.contact.WaitingForAccept? && p.sb.contact.WaitingForAccept?
    && p.sa.convos == map[] && p.sb.convos == map[]
    && OnlyRequests(p.ab) && OnlyRequests(p.ba)
  }

  predicate Joining(side: Side) {
    side.contact.ContactAdded? || (side.contact.WaitingForAccept? && side.convos == map[])
  }

  /** One side at least has completed the handshake, and the other will once it has received what is on its way. */
  predicate Linked(a: string, b: string, p: Pair) {
    && Joining(p.sa) && Joining(p.sb)
    && (p.sa.contact.ContactAdded? || p.sb.contact.ContactAdded?)
    && AllAccepted(a, b, p.sa, p.ba) && AllAccepted(b, a, p.sb, p.ab)
    && InStep(Deliver(a, b, p.sa, p.ba), Deliver(b, a, p.sb, p.ab))
  }

  predicate Synchronised(a: string, b: string, p: Pair) {
    Idle(p) || Asked(a, b, p) || Asked(b, a, p.Swap()) || Crossing(p) || Linked(a, b, p)
  }

  lemma SwapInStep(sa: Side, sb: Side)
    ensures InStep(sa, sb) ==> InStep(sb, sa)
  {
  }

  lemma SwapSynchronised(a: string, b: string, p: Pair)
    requires Synchronised(a, b, p)
    ensures Synchronised(b, a, p.Swap())
  {
    SwapInStep(Deliver(a, b, p.sa, p.ba), Deliver(b, a, p.sb, p.ab));
  }

  // ----- Every move keeps the relation -----

  /** A send no longer than the hub's limit, or one that fails before anything is written. */
  predicate Harmless(side: Side, x: string, content: Bytes) {
    || Fits(content)
    || (if x == "" then !side.contact.ContactAdded? else x !in side.convos || |content| > MAX_PLAINTEXT)
  }

  predicate Sound(p: Pair, m: Move) {
    match m
    case Say(x, content, _) => Harmless(p.sa, x, content)
    case Bounce(_) => false
    case Stray(_) => false
    case _ => true
  }

  lemma {:induction false} DeliverKeys(me: string, peer: string, side: Side, es: seq<Mail>, x: string)
    requires x !in side.convos && Avoids(es, x)
    ensures x !in Deliver(me, peer, side, es).convos
    decreases |es|
  {
    if es != [] {
      DeliverKeys(me, peer, Take(me, peer, side, es[0]).0, es[1..], x);
    }
  }

  lemma NotYetAContact(a: string, b: string, p: Pair)
    requires Synchronised(a, b, p) && p.sa.contact == NoContact
    ensures Idle(p) || Asked(b, a, p.Swap())
  {
  }

  lemma AddWrites(a: string, b: string, side: Side, e1: nat, random: Bytes)
    requires IsAddress(b)
    ensures AddContact(a, side, b, e1, random) ==
      if side.contact != NoContact then None
      else Some((Side(WaitingForAccept(Handshake(a, b, e1)), side.convos), Request(b, Encode(random), Hs1(a, b, e1))))
  {
    AddressOfKey(b);
  }

  lemma AddKeeps(a: string, b: string, p: Pair, e1: nat, random: Bytes)
    requires IsAddress(a) && IsAddress(b) && Synchronised(a, b, p)
    ensures Synchronised(a, b, Act(a, b, p, Add(e1, random)))
  {
    hide AddContact, Linked;
    AddWrites(a, b, p.sa, e1, random);
    var q := Act(a, b, p, Add(e1, random));
    if p.sa.contact == NoContact {
      NotYetAContact(a, b, p);
      assert if Idle(p) then Asked(a, b, q) else Crossing(q);
    }
  }

  lemma AcceptKeeps(a: string, b: string, p: Pair, e2: nat, random: Bytes)
    requires IsAddress(a) && IsAddress(b) && Synchronised(a, b, p)
    ensures Synchronised(a, b, Act(a, b, p, Accept(e2, random)))
  {
    AddressOfKey(b);
    if Asked(b, a, p.Swap()) && p.sa.contact.WaitingToAccept? {
      var q := Act(a, b, p, Accept(e2, random));
      var s := Session(b, a, p.sb.contact.hs.e1, e2);
      assert q.sa == Side(ContactAdded(Root(s, false), Root(s, true)), map[]);
      assert q.ab == [Envelope(a, Encode(random), Hs2(s))];
      DeliverOne(b, a, q.sb, q.ab[0]);
      assert Deliver(b, a, q.sb, q.ab) == Side(ContactAdded(Root(s, true), Root(s, false)), map[]);
    }
  }

  lemma DeliverOne(me: string, peer: string, side: Side, e: Mail)
    ensures Deliver(me, peer, side, [e]) == Take(me, peer, side, e).0
    ensures AllAccepted(me, peer, side, [e]) <==> Accepted(Take(me, peer, side, e).1)
  {
    assert [] + [e] == [e];
    DeliverAppend(me, peer, side, [], e);
  }

  /** A side that joins goes on joining, and has joined once it has accepted something. */
  lemma TakeJoins(me: string, peer: string, side: Side, e: Mail)
    requires Joining(side)
    ensures Joining(Take(me, peer, side, e).0)
    ensures side.contact.ContactAdded? ==> Take(me, peer, side, e).0.contact.ContactAdded?
    ensures Accepted(Take(me, peer, side, e).1) ==> Take(me, peer, side, e).0.contact.ContactAdded?
  {
  }

  lemma CollectKeepsLinked(a: string, b: string, p: Pair)
    requires Linked(a, b, p) && p.ba != []
    ensures Linked(a, b, Act(a, b, p, Collect))
  {
    hide Take, InStep;
    TakeJoins(a, b, p.sa, p.ba[0]);
  }

  lemma CollectKeeps(a: string, b: string, p: Pair)
    requires Synchronised(a, b, p) && p.ba != []
    ensures Synchronised(a, b, Act(a, b, p, Collect))
  {
    if Linked(a, b, p) {
      CollectKeepsLinked(a, b, p);
    } else {
      CollectKeepsWaiting(a, b, p);
    }
  }

  lemma CollectKeepsWaiting(a: string, b: string, p: Pair)
    requires Synchronised(a, b, p) && !Linked(a, b, p) && p.ba != []
    ensures Synchronised(a, b, Act(a, b, p, Collect))
  {
    hide Linked;
    var q := Act(a, b, p, Collect);
    if Asked(b, a, p.Swap()) {
      assert Asked(b, a, q.Swap());
    } else {
      assert Crossing(q);
    }
  }

  lemma ReadyIsSendable(me: string, side: Side, to: string, x: string, content: Bytes, random: Bytes)
    requires SendMessage(me, side, to, x, content, random).Ready?
    ensures x != "" ==> x in side.convos
  {
  }

  /** The receiver, once it has what was on its way, accepts the new message and is in step again. */
  lemma SayIsAccepted(a: string, b: string, p: Pair, x: string, content: Bytes, random: Bytes)
    requires IsAddress(a) && IsAddress(b) && Linked(a, b, p)
    requires Enabled(p, Say(x, content, random))
    requires SendMessage(a, Deliver(a, b, p.sa, p.ba), b, x, content, random).Ready?
    ensures
      var o := SendMessage(a, Deliver(a, b, p.sa, p.ba), b, x, content, random);
      var ab := p.ab + [Envelope(a, o.request.convo, o.request.content)];
      AllAccepted(b, a, p.sb, ab) && InStep(After(o), Deliver(b, a, p.sb, ab))
  {
    hide SendMessage, Take, InStep;
    var da, db := Deliver(a, b, p.sa, p.ba), Deliver(b, a, p.sb, p.ab);
    var o := SendMessage(a, da, b, x, content, random);
    if x == "" {
      DeliverKeys(b, a, p.sb, p.ab, Encode(random));
    }
    SendReceiveInStep(a, da, b, db, x, content, random);
    DeliverAppend(b, a, p.sb, p.ab, Envelope(a, o.request.convo, o.request.content));
  }

  lemma AfterStaysAdded(me: string, side: Side, to: string, x: string, content: Bytes, random: Bytes)
    requires side.contact.ContactAdded?
    ensures After(SendMessage(me, side, to, x, content, random)).contact.ContactAdded?
  {
    SendHasShape(me, side, to, x, content, random);
  }

  lemma SayLinked(a: string, b: string, p: Pair, x: string, content: Bytes, random: Bytes)
    requires IsAddress(a) && IsAddress(b) && Linked(a, b, p) && p.sa.contact.ContactAdded?
    requires Enabled(p, Say(x, content, random)) && SendMessage(a, p.sa, b, x, content, random).Ready?
    ensures Linked(a, b, Act(a, b, p, Say(x, content, random)))
  {
    hide SendMessage, Take, Deliver, AllAccepted, InStep, After;
    ReadyIsSendable(a, p.sa, b, x, content, random);
    DeliverCommutes(a, b, p.sa, p.ba, x, content, random);
    SayIsAccepted(a, b, p, x, content, random);
    AfterStaysAdded(a, p.sa, b, x, content, random);
    SayIsPosted(a, b, p, x, content, random);
  }

  lemma SayIsPosted(a: string, b: string, p: Pair, x: string, content: Bytes, random: Bytes)
    requires Enabled(p, Say(x, content, random)) && SendMessage(a, p.sa, b, x, content, random).Ready?
    ensures
      var o := SendMessage(a, p.sa, b, x, content, random);
      Act(a, b, p, Say(x, content, random)) == Posted(a, p, After(o), o.request)
  {
    hide SendMessage;
  }

  lemma SayKeeps(a: string, b: string, p: Pair, x: string, content: Bytes, random: Bytes)
    requires IsAddress(a) && IsAddress(b) && Synchronised(a, b, p)
    requires Enabled(p, Say(x, content, random)) && Harmless(p.sa, x, content)
    ensures Synchronised(a, b, Act(a, b, p, Say(x, content, random)))
  {
    var o := SendMessage(a, p.sa, b, x, content, random);
    if o.Ready? {
      assert Linked(a, b, p) && p.sa.contact.ContactAdded?;
      SayLinked(a, b, p, x, content, random);
    } else {
      FailedSendWritesNothing(a, p.sa, b, x, content, random);
    }
  }

  /** A harmless send that fails leaves the side as it was. */
  lemma FailedSendWritesNothing(a: string, side: Side, b: string, x: string, content: Bytes, random: Bytes)
    requires IsAddress(b) && Harmless(side, x, content)
    requires SendMessage(a, side, b, x, content, random).Failed?
    ensures SendMessage(a, side, b, x, content, random).side == side
  {
    EncodeIsLowerHex(random);
  }

  /** Whatever one of two synchronised clients does within the limits, they stay synchronised. */
  lemma MoveKeeps(a: string, b: string, p: Pair, m: Move)
    requires IsAddress(a) && IsAddress(b) && Synchronised(a, b, p)
    requires Enabled(p, m) && Sound(p, m)
    ensures Synchronised(a, b, Act(a, b, p, m))
  {
    match m
    case Add(e1, random) => AddKeeps(a, b, p, e1, random);
    case Accept(e2, random) => AcceptKeeps(a, b, p, e2, random);
    case Say(x, content, random) => SayKeeps(a, b, p, x, content, random);
    case Collect => CollectKeeps(a, b, p);
  }
}
