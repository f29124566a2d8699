/**
  What being synchronised says about the stored messages, the ratchets and the
  handshake of two clients.
  */
module Delivery {
  import opened Hex
  import opened Strobe
  import opened Crypto
  import opened Peer
  import opened Pair
  import opened Sync

  function SentOf(side: Side, x: string): seq<Bytes> {
    if x in side.convos then side.convos[x].sent else []
  }

  function GotOf(side: Side, x: string): seq<Bytes> {
    if x in side.convos then side.convos[x].got else []
  }

  /** The plaintexts on their way in one conversation; the one that opens it is a title. */
  function DataOf(es: seq<Mail>, x: string, known: bool): seq<Bytes>
    decreases |es|
  {
    if es == [] then []
    else if es[0].convo != x || !es[0].content.Ct? then DataOf(es[1..], x, known)
    else if !known then DataOf(es[1..], x, true)
    else [es[0].content.plaintext] + DataOf(es[1..], x, true)
  }

  /** The first plaintext on its way in a conversation. */
  function FirstOf(es: seq<Mail>, x: string): Option<Bytes>
    decreases |es|
  {
    if es == [] then None
    else if es[0].convo == x && es[0].content.Ct? then Some(es[0].content.plaintext)
    else FirstOf(es[1..], x)
  }

  /** The conversations that the messages on their way will open, each counted once. */
  function Openings(es: seq<Mail>, known: set<string>): nat
    decreases |es|
  {
    if es == [] then 0
    else if es[0].content.Ct? && es[0].convo !in known then 1 + Openings(es[1..], known + {es[0].convo})
    else Openings(es[1..], known)
  }

  function RatchetTimes(s: State, n: nat): State
    decreases n
  {
    if n == 0 then s else RatchetTimes(Ratchet(s), n - 1)
  }

  /** The receive state after every message on its way in one conversation. */
  function Follow(me: string, peer: string, s: State, es: seq<Mail>, x: string): State
    decreases |es|
  {
    if es == [] then s
    else if es[0].convo != x then Follow(me, peer, s, es[1..], x)
    else
      match Decrypt(me, s, x, peer, es[0].content)
      case None => Follow(me, peer, s, es[1..], x)
      case Some((_, s')) => Follow(me, peer, s', es[1..], x)
  }

  // ----- Delivering, one aspect at a time -----

  /** Receiving never touches what we send with, what we sent, or a title we have. */
  lemma {:induction false} DeliverKeepsSending(me: string, peer: string, side: Side, es: seq<Mail>, x: string)
    requires Joining(side)
    ensures
      var later := Deliver(me, peer, side, es);
      && Joining(later)
      && (side.contact.ContactAdded? ==> later.contact.ContactAdded? && later.contact.c1 == side.contact.c1)
      && (x in side.convos ==>
          && x in later.convos
          && later.convos[x].c1 == side.convos[x].c1
          && later.convos[x].sent == side.convos[x].sent
          && later.convos[x].title == side.convos[x].title)
    decreases |es|
  {
    if es != [] {
      TakeJoins(me, peer, side, es[0]);
      DeliverKeepsSending(me, peer, Take(me, peer, side, es[0]).0, es[1..], x);
    }
  }

  /** A conversation we only learn of by receiving has nothing sent in it. */
  lemma {:induction false} DeliverSendsNothing(me: string, peer: string, side: Side, es: seq<Mail>, x: string)
    requires Joining(side)
    ensures SentOf(Deliver(me, peer, side, es), x) == SentOf(side, x)
    decreases |es|
  {
    if es != [] {
      TakeJoins(me, peer, side, es[0]);
      DeliverSendsNothing(me, peer, Take(me, peer, side, es[0]).0, es[1..], x);
    }
  }

  /** One accepted message adds its plaintext to its own conversation. */
  lemma TakeLog(me: string, peer: string, side: Side, e: Mail, x: string)
    requires Joining(side) && Accepted(Take(me, peer, side, e).1)
    ensures
      var taken := Take(me, peer, side, e).0;
      var hit := e.convo == x && e.content.Ct?;
      && GotOf(taken, x) == GotOf(side, x) + (if hit && x in side.convos then [e.content.plaintext] else [])
      && (x in taken.convos <==> x in side.convos || hit)
  {
  }

  lemma {:induction false} DeliverLog(me: string, peer: string, side: Side, es: seq<Mail>, x: string)
    requires Joining(side) && AllAccepted(me, peer, side, es)
    ensures GotOf(Deliver(me, peer, side, es), x) == GotOf(side, x) + DataOf(es, x, x in side.convos)
    decreases |es|
  {
    hide Take;
    if es != [] {
      var taken := Take(me, peer, side, es[0]).0;
      TakeJoins(me, peer, side, es[0]);
      TakeLog(me, peer, side, es[0], x);
      DeliverLog(me, peer, taken, es[1..], x);
    }
  }

  lemma TakeOpens(me: string, peer: string, side: Side, e: Mail, x: string)
    requires Joining(side) && Accepted(Take(me, peer, side, e).1) && x !in side.convos
    requires e.convo == x && e.content.Ct?
    ensures x in Take(me, peer, side, e).0.convos
    ensures Take(me, peer, side, e).0.convos[x].title == e.content.plaintext
  {
  }

  lemma {:induction false} DeliverTitle(me: string, peer: string, side: Side, es: seq<Mail>, x: string)
    requires Joining(side) && AllAccepted(me, peer, side, es) && x !in side.convos
    requires x in Deliver(me, peer, side, es).convos
    ensures FirstOf(es, x) == Some(Deliver(me, peer, side, es).convos[x].title)
    decreases |es|
  {
    hide Take;
    if es != [] {
      var taken := Take(me, peer, side, es[0]).0;
      TakeJoins(me, peer, side, es[0]);
      TakeLog(me, peer, side, es[0], x);
      if x in taken.convos {
        TakeOpens(me, peer, side, es[0], x);
        DeliverKeepsSending(me, peer, taken, es[1..], x);
      } else {
        DeliverTitle(me, peer, taken, es[1..], x);
      }
    }
  }

  lemma TakeThread(me: string, peer: string, side: Side, e: Mail)
    requires side.contact.ContactAdded? && Accepted(Take(me, peer, side, e).1)
    ensures
      var taken := Take(me, peer, side, e).0;
      && e.content.Ct? && taken.contact.ContactAdded?
      && (e.convo in side.convos ==>
          taken.contact.c2 == side.contact.c2 && taken.convos.Keys == side.convos.Keys)
      && (e.convo !in side.convos ==>
          taken.contact.c2 == Ratchet(side.contact.c2) && taken.convos.Keys == side.convos.Keys + {e.convo})
  {
    var taken := Take(me, peer, side, e).0;
    if e.convo in side.convos {
      assert taken.convos.Keys == side.convos.Keys;
    }
  }

  lemma {:induction false} DeliverThread(me: string, peer: string, side: Side, es: seq<Mail>)
    requires side.contact.ContactAdded? && AllAccepted(me, peer, side, es)
    ensures Deliver(me, peer, side, es).contact.ContactAdded?
    ensures Deliver(me, peer, side, es).contact.c2 == RatchetTimes(side.contact.c2, Openings(es, side.convos.Keys))
    decreases |es|
  {
    hide Take;
    if es != [] {
      var taken := Take(me, peer, side, es[0]).0;
      TakeThread(me, peer, side, es[0]);
      DeliverThread(me, peer, taken, es[1..]);
      OpeningsUnfold(es, side.convos.Keys);
    }
  }

  lemma OpeningsUnfold(es: seq<Mail>, known: set<string>)
    requires es != [] && es[0].content.Ct?
    ensures Openings(es, known)
         == if es[0].convo in known then Openings(es[1..], known) else 1 + Openings(es[1..], known + {es[0].convo})
  {
  }

  lemma TakeSession(me: string, peer: string, side: Side, e: Mail, x: string)
    requires side.contact.ContactAdded? && x in side.convos && Accepted(Take(me, peer, side, e).1)
    ensures
      var taken := Take(me, peer, side, e).0;
      && taken.contact.ContactAdded? && x in taken.convos
      && taken.convos[x].c2 ==
         if e.convo == x && Decrypt(me, side.convos[x].c2, x, peer, e.content).Some?
         then Decrypt(me, side.convos[x].c2, x, peer, e.content).value.1 else side.convos[x].c2
  {
  }

  lemma {:induction false} DeliverSession(me: string, peer: string, side: Side, es: seq<Mail>, x: string)
    requires side.contact.ContactAdded? && x in side.convos && AllAccepted(me, peer, side, es)
    ensures x in Deliver(me, peer, side, es).convos
    ensures Deliver(me, peer, side, es).convos[x].c2 == Follow(me, peer, side.convos[x].c2, es, x)
    decreases |es|
  {
    hide Take;
    if es != [] {
      TakeSession(me, peer, side, es[0], x);
      DeliverSession(me, peer, Take(me, peer, side, es[0]).0, es[1..], x);
    }
  }

  // ----- Two synchronised clients -----

  /**
    What a has sent in a conversation is what b has stored followed by what is
    on its way: nothing lost, doubled or reordered, and the same title.
    */
  lemma PrefixDelivery(a: string, b: string, p: Pair, x: string)
    requires Linked(a, b, p)
    ensures SentOf(p.sa, x) == GotOf(p.sb, x) + DataOf(p.ab, x, x in p.sb.convos)
    ensures x in p.sa.convos && x in p.sb.convos ==> p.sa.convos[x].title == p.sb.convos[x].title
    ensures x in p.sa.convos && x !in p.sb.convos ==> FirstOf(p.ab, x) == Some(p.sa.convos[x].title)
  {
    DeliverSendsNothing(a, b, p.sa, p.ba, x);
    DeliverKeepsSending(a, b, p.sa, p.ba, x);
    DeliverKeepsSending(b, a, p.sb, p.ab, x);
    DeliverLog(b, a, p.sb, p.ab, x);
    var da, db := Deliver(a, b, p.sa, p.ba), Deliver(b, a, p.sb, p.ab);
    if x in p.sa.convos && x !in p.sb.convos {
      assert x in db.convos;
      DeliverTitle(b, a, p.sb, p.ab, x);
    }
  }

  lemma NothingBeforeLinked(a: string, b: string, p: Pair, x: string)
    requires Synchronised(a, b, p) && !Linked(a, b, p)
    ensures p.sa.convos == map[] && p.sb.convos == map[] && DataOf(p.ab, x, false) == []
  {
    NoData(p.ab, x);
  }

  lemma {:induction false} NoData(es: seq<Mail>, x: string)
    ensures (forall e :: e in es ==> !e.content.Ct?) ==> DataOf(es, x, false) == []
    decreases |es|
  {
    if es != [] {
      NoData(es[1..], x);
    }
  }

  /** The next ciphertext on its way finds a completed contact and is accepted. */
  lemma AcceptedData(a: string, b: string, p: Pair)
    requires Synchronised(a, b, p) && p.ab != [] && p.ab[0].content.Ct?
    ensures p.sb.contact.ContactAdded?
    ensures Take(b, a, p.sb, p.ab[0]).1 ==
      if p.ab[0].convo in p.sb.convos then Delivered(p.ab[0].content.plaintext) else Opened(p.ab[0].content.plaintext)
  {
    assert Linked(a, b, p);
    assert Accepted(Take(b, a, p.sb, p.ab[0]).1);
  }

  /** Folding the receive step over what is on its way takes b's receive state to a's send state. */
  lemma SessionsInStep(a: string, b: string, p: Pair, x: string)
    requires Linked(a, b, p) && p.sb.contact.ContactAdded? && x in p.sa.convos && x in p.sb.convos
    ensures Follow(b, a, p.sb.convos[x].c2, p.ab, x) == p.sa.convos[x].c1
  {
    DeliverSession(b, a, p.sb, p.ab, x);
    DeliverKeepsSending(a, b, p.sa, p.ba, x);
  }

  /** a's send thread is ahead of b's receive thread by one ratchet per thread a has opened and b has not seen. */
  lemma ThreadsInStep(a: string, b: string, p: Pair)
    requires Linked(a, b, p) && p.sa.contact.ContactAdded? && p.sb.contact.ContactAdded?
    ensures p.sa.contact.c1 == RatchetTimes(p.sb.contact.c2, Openings(p.ab, p.sb.convos.Keys))
  {
    DeliverThread(b, a, p.sb, p.ab);
    DeliverKeepsSending(a, b, p.sa, p.ba, "");
  }

  /** With nothing on its way, two connected clients hold crossed states and equal histories. */
  lemma Quiescent(a: string, b: string, p: Pair)
    requires Synchronised(a, b, p) && p.ab == [] && p.ba == []
    requires p.sa.contact.ContactAdded? || p.sb.contact.ContactAdded?
    ensures InStep(p.sa, p.sb)
  {
  }
}
