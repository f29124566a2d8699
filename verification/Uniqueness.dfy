/**
  No two encryptions anywhere in a run start from the same STROBE state. Unlike
  synchronisation this holds for every run, whatever is refused or mistyped, and
  whatever a hub that need not be honest refuses, loses, repeats or forges.
  */
module Uniqueness {
  import opened Hex
  import opened Strobe
  import opened Crypto
  import opened Queues
  import opened Peer
  import N = Network

  function Sender(root: State): string
    requires root.Root?
  {
    if root.fromInitiator then root.session.initiator else root.session.responder
  }

  function Receiver(root: State): string
    requires root.Root?
  {
    if root.fromInitiator then root.session.responder else root.session.initiator
  }

  // ----- One side -----

  predicate ThreadsOk(me: string, p: string, c1: State, c2: State) {
    && Core(c1).Root? && Core(c2).Root?
    && Core(c2) == Root(Core(c1).session, !Core(c1).fromInitiator)
    && Sender(Core(c1)) == me && Receiver(Core(c1)) == p
  }

  /** A session state of a thread we opened, or of one we answer in, derived before the thread's present state. */
  predicate SessionOk(c1: State, c2: State, s: State) {
    var base := Base(s);
    && base.Ratchet? && base.before.AD?
    && var t, role := base.before.before, base.before.role;
    && (role == "initiatorThread" || role == "responderThread")
    && (role == "initiatorThread" ==> Core(t) == Core(c1) && Depth(t) < Depth(c1))
    && (role == "responderThread" ==> Core(t) == Core(c2) && Depth(t) < Depth(c2))
  }

  ghost predicate KeysOk(me: string, p: string, side: Side) {
    && (side.contact.WaitingForAccept? ==> side.contact.hs.me == me && side.contact.hs.peer == ToLower(p))
    && (side.contact.ContactAdded? ==> ThreadsOk(me, p, side.contact.c1, side.contact.c2))
    && (forall x :: x in side.convos ==>
        side.contact.ContactAdded? && SessionOk(side.contact.c1, side.contact.c2, side.convos[x].c1))
    && (forall x, y :: x in side.convos && y in side.convos && x != y ==>
        Base(side.convos[x].c1) != Base(side.convos[y].c1))
  }

  lemma AskKeepsKeys(me: string, p: string, side: Side, e: nat, random: Bytes)
    requires KeysOk(me, p, side) && (side.contact.WaitingToAccept? ==> IsAddress(p))
    ensures AddContact(me, side, p, e, random).Some? ==> KeysOk(me, p, AddContact(me, side, p, e, random).value.0)
    ensures AcceptContact(me, side, p, e, random).Some? ==> KeysOk(me, p, AcceptContact(me, side, p, e, random).value.0)
  {
    if Decode(p).Some? {
      EncodeDecode(p);
    }
  }

  /** A session derived from the present thread state is not one derived before. */
  lemma NewSessionIsNew(c1: State, c2: State, s: State)
    requires SessionOk(c1, c2, s)
    ensures Base(s) != DeriveConvo(c1).1 && Base(s) != DeriveConvo(c2).2
    ensures SessionOk(Ratchet(c1), c2, s) && SessionOk(c1, Ratchet(c2), s)
  {
  }

  /** Writing one row whose base no other row has. */
  lemma WriteKeepsKeys(me: string, p: string, side: Side, c1: State, c2: State, x: string, c: Convo)
    requires KeysOk(me, p, side) && side.contact.ContactAdded? && ThreadsOk(me, p, c1, c2)
    requires SessionOk(c1, c2, c.c1)
    requires forall y :: y in side.convos && y != x ==>
      SessionOk(c1, c2, side.convos[y].c1) && Base(side.convos[y].c1) != Base(c.c1)
    ensures KeysOk(me, p, Side(ContactAdded(c1, c2), side.convos[x := c]))
  {
  }

  lemma OpenKeepsKeys(me: string, p: string, side: Side, c1: State, c2: State, x: string, c: Convo)
    requires KeysOk(me, p, side) && side.contact.ContactAdded? && x !in side.convos
    requires
      var t1, t2 := side.contact.c1, side.contact.c2;
      || (c1 == Ratchet(t1) && c2 == t2 && Base(c.c1) == DeriveConvo(t1).1)
      || (c1 == t1 && c2 == Ratchet(t2) && Base(c.c1) == DeriveConvo(t2).2)
    ensures KeysOk(me, p, Side(ContactAdded(c1, c2), side.convos[x := c]))
  {
    forall y | y in side.convos
      ensures SessionOk(c1, c2, side.convos[y].c1) && Base(side.convos[y].c1) != Base(c.c1)
    {
      NewSessionIsNew(side.contact.c1, side.contact.c2, side.convos[y].c1);
    }
    WriteKeepsKeys(me, p, side, c1, c2, x, c);
  }

  lemma StartThreadKeepsKeys(me: string, p: string, side: Side, title: Bytes, random: Bytes)
    requires KeysOk(me, p, side) && Encode(random) !in side.convos
    ensures KeysOk(me, p, StartThread(me, side, p, title, random).side)
  {
    if side.contact.ContactAdded? {
      var x, side' := Encode(random), StartThread(me, side, p, title, random).side;
      OpenKeepsKeys(me, p, side, side'.contact.c1, side'.contact.c2, x, side'.convos[x]);
      assert side'.convos == side.convos[x := side'.convos[x]];
    }
  }

  lemma SendKeepsKeys(me: string, p: string, side: Side, x: string, content: Bytes, random: Bytes)
    requires KeysOk(me, p, side) && (x == "" ==> Encode(random) !in side.convos)
    ensures KeysOk(me, p, SendMessage(me, side, p, x, content, random).side)
  {
    if x == "" {
      StartThreadKeepsKeys(me, p, side, content, random);
    } else if SendInConvo(me, side, p, x, content).Ready? {
      var side' := SendInConvo(me, side, p, x, content).side;
      WriteKeepsKeys(me, p, side, side.contact.c1, side.contact.c2, x, side'.convos[x]);
    }
  }

  lemma ReceiveKeepsKeys(me: string, p: string, side: Side, e: Mail, known: bool)
    requires KeysOk(me, p, side) && ToLower(p) == p && (known || e.convo !in side.convos)
    ensures KeysOk(me, p, Receive(me, p, side, e, known).0)
  {
    var side' := Receive(me, p, side, e, known).0;
    if side.contact.ContactAdded? && side' != side {
      var x := e.convo;
      if x in side.convos {
        WriteKeepsKeys(me, p, side, side.contact.c1, side.contact.c2, x, side'.convos[x]);
      } else {
        OpenKeepsKeys(me, p, side, side'.contact.c1, side'.contact.c2, x, side'.convos[x]);
        assert side'.convos == side.convos[x := side'.convos[x]];
      }
    }
  }

  // ----- One client -----

  /** The client that encrypts with the sessions of this base. */
  function Owner(s: State): string
    requires Base(s).Ratchet? && Base(s).before.AD? && Core(Base(s).before.before).Root?
  {
    var t := Base(s).before.before;
    if Base(s).before.role == "initiatorThread" then Sender(Core(t)) else Receiver(Core(t))
  }

  /** Every recorded encryption is from a state its conversation has moved past. */
  ghost predicate UseOk(n: N.Node, u: N.Use) {
    && u.peer in n.book && u.convo in n.book[u.peer].convos
    && var c1 := n.book[u.peer].convos[u.convo].c1;
    && Base(u.state) == Base(c1) && Index(u.state) < Index(c1)
  }

  ghost predicate ClientOk(a: string, n: N.Node) {
    && (forall p :: p in n.book ==> KeysOk(a, p, n.book[p]))
    && (forall i :: 0 <= i < |n.spent| ==> UseOk(n, n.spent[i]))
    && (forall i, j :: 0 <= i < j < |n.spent| ==> n.spent[i].state != n.spent[j].state)
  }

  /** Conversations of one client never share a base, with one peer or with two. */
  lemma BasesDiffer(a: string, n: N.Node, p: string, x: string, q: string, y: string)
    requires ClientOk(a, n) && p in n.book && q in n.book && x in n.book[p].convos && y in n.book[q].convos
    requires Base(n.book[p].convos[x].c1) == Base(n.book[q].convos[y].c1)
    ensures p == q && x == y
  {
    assert KeysOk(a, p, n.book[p]) && KeysOk(a, q, n.book[q]);
  }

  lemma OwnerIsClient(a: string, n: N.Node, u: N.Use)
    requires ClientOk(a, n) && u in n.spent
    ensures Base(u.state).Ratchet? && Base(u.state).before.AD? && Core(Base(u.state).before.before).Root?
    ensures Owner(u.state) == a
  {
    assert UseOk(n, u);
    assert KeysOk(a, u.peer, n.book[u.peer]);
  }

  /** Rewriting one side keeps a client in order if its sessions only move on. */
  lemma RewriteKeepsClient(a: string, n: N.Node, p: string, side: Side)
    requires ClientOk(a, n) && KeysOk(a, p, side)
    requires forall x :: x in n.Has(p).convos ==>
      && x in side.convos && Base(side.convos[x].c1) == Base(n.Has(p).convos[x].c1)
      && Index(side.convos[x].c1) >= Index(n.Has(p).convos[x].c1)
    ensures ClientOk(a, n.With(p, side))
  {
    var n' := n.With(p, side);
    forall i | 0 <= i < |n.spent|
      ensures UseOk(n', n.spent[i])
    {
      assert UseOk(n, n.spent[i]);
    }
  }

  /** What a send does to the sessions: one moves on, from the state it encrypts with. */
  lemma SendMovesOn(me: string, side: Side, p: string, x: string, content: Bytes, random: Bytes)
    requires x == "" ==> Encode(random) !in side.convos
    ensures
      var o := SendMessage(me, side, p, x, content, random);
      && (forall y :: y in side.convos ==>
          && y in o.side.convos && Base(o.side.convos[y].c1) == Base(side.convos[y].c1)
          && Index(o.side.convos[y].c1) >= Index(side.convos[y].c1))
      && (o.Ready? ==>
          && o.request.content.Ct? && o.request.convo in o.side.convos
          && var u, c := o.request.content.state, o.side.convos[o.request.convo];
          && Base(u) == Base(c.c1) && Index(u) < Index(c.c1)
          && (o.request.convo in side.convos ==> Index(u) == Index(side.convos[o.request.convo].c1)))
  {
  }

  lemma ReceiveLeavesSending(me: string, p: string, side: Side, e: Mail, known: bool)
    requires known || e.convo !in side.convos
    ensures forall y :: y in side.convos ==>
      var taken := Receive(me, p, side, e, known).0; y in taken.convos && taken.convos[y].c1 == side.convos[y].c1
  {
  }

  /** An encryption from the session's present state repeats no earlier one. */
  lemma UseKeepsClient(a: string, n: N.Node, p: string, side: Side, x: string, u: State)
    requires ClientOk(a, n) && ClientOk(a, n.With(p, side)) && x in side.convos
    requires Base(u) == Base(side.convos[x].c1) && Index(u) < Index(side.convos[x].c1)
    requires x in n.Has(p).convos ==> Index(u) == Index(n.Has(p).convos[x].c1)
    ensures ClientOk(a, n.With(p, side).(spent := n.spent + [N.Use(p, x, u)]))
  {
    var n' := n.With(p, side);
    forall i | 0 <= i < |n.spent|
      ensures n.spent[i].state != u && UseOk(n', n.spent[i])
    {
      var v := n.spent[i];
      assert UseOk(n, v) && UseOk(n', v);
      if v.state == u {
        BasesDiffer(a, n', p, x, v.peer, v.convo);
      }
    }
  }

  // ----- One step, whatever the hub answers -----

  /** The hub's part of a step: whether it accepts an upload, and what it hands over to a poll. */
  datatype Answer = Answer(accepts: bool, mail: Option<Mail>)

  /** A hub that need not be honest. Only the sender of a message is the owner of a key, as sessions are authenticated. */
  predicate Can(n: N.Node, s: N.Step, hub: Answer) {
    match s
    case AskContact(_, _, _, _) => n.Idle()
    case AnswerContact(_, _, _, _) => n.Idle()
    case SendText(_, _, x, _, random) => n.Idle() && (x == "" ==> !n.ConvoExist(Encode(random)))
    case Upload(_) => n.outgoing.Some?
    case Poll(_) => n.Idle() && (hub.mail.Some? ==> IsAddress(hub.mail.value.from))
    case Process(_) => n.incoming.Some?
  }

  /** What a step makes of the client that takes it. */
  function Local(n: N.Node, s: N.Step, hub: Answer): N.Node
    requires Can(n, s, hub)
  {
    match s
    case AskContact(a, bob, e1, random) =>
      (match AddContact(a, n.Has(bob), bob, e1, random)
       case None => n
       case Some((side, request)) => N.Hand(n, bob, side, request, None))
    case AnswerContact(a, alice, e2, random) =>
      (match AcceptContact(a, n.Has(alice), alice, e2, random)
       case None => n
       case Some((side, request)) => N.Hand(n, alice, side, request, None))
    case SendText(a, to, x, content, random) => N.Sent(n, to, SendMessage(a, n.Has(to), to, x, content, random))
    case Upload(_) => if hub.accepts then N.Acknowledged(n) else n.(outgoing := None)
    case Poll(_) => n.(incoming := hub.mail)
    case Process(a) => n.With(n.incoming.value.from, N.Processing(n, a).0).(incoming := None)
  }

  ghost predicate LocalOk(a: string, n: N.Node) {
    && ClientOk(a, n)
    && (n.incoming.Some? ==> IsAddress(n.incoming.value.from))
    && (forall p :: p in n.book && n.book[p].contact.WaitingToAccept? ==> IsAddress(p))
  }

  lemma HasKeysOk(a: string, n: N.Node, p: string)
    requires ClientOk(a, n)
    ensures KeysOk(a, p, n.Has(p))
  {
  }

  lemma HandKeepsClient(a: string, n: N.Node, n': N.Node, p: string, side: Side)
    requires ClientOk(a, n) && KeysOk(a, p, side) && side.convos == n.Has(p).convos
    requires n'.book == n.book[p := side] && n'.spent == n.spent
    ensures ClientOk(a, n')
  {
    RewriteKeepsClient(a, n, p, side);
    assert n.With(p, side).book == n'.book;
    forall i | 0 <= i < |n'.spent| ensures UseOk(n', n'.spent[i]) {
      assert UseOk(n.With(p, side), n.spent[i]);
    }
  }

  lemma AskKeepsConvos(me: string, p: string, side: Side, e: nat, random: Bytes)
    ensures AddContact(me, side, p, e, random).Some? ==>
      var side' := AddContact(me, side, p, e, random).value.0; side'.convos == side.convos && side'.contact.WaitingForAccept?
    ensures AcceptContact(me, side, p, e, random).Some? ==>
      var side' := AcceptContact(me, side, p, e, random).value.0; side'.convos == side.convos && side'.contact.ContactAdded?
  {
  }

  lemma AskKeepsLocal(n: N.Node, s: N.Step, hub: Answer)
    requires LocalOk(s.who, n) && Can(n, s, hub) && (s.AskContact? || s.AnswerContact?)
    ensures LocalOk(s.who, Local(n, s, hub))
  {
    hide KeysOk, AddContact, AcceptContact;
    var a := s.who;
    var p, e := if s.AskContact? then s.bob else s.alice, if s.AskContact? then s.e1 else s.e2;
    HasKeysOk(a, n, p);
    AskKeepsKeys(a, p, n.Has(p), e, s.random);
    AskKeepsConvos(a, p, n.Has(p), e, s.random);
    var n' := Local(n, s, hub);
    if n' != n {
      HandKeepsClient(a, n, n', p, n'.book[p]);
    }
  }

  lemma SentIsClient(a: string, n: N.Node, to: string, o: Sending)
    requires ClientOk(a, n) && ClientOk(a, n.With(to, o.side))
    requires o.Ready? ==>
      && o.request.content.Ct? && o.request.convo in o.side.convos
      && var u, c := o.request.content.state, o.side.convos[o.request.convo];
      && Base(u) == Base(c.c1) && Index(u) < Index(c.c1)
      && (o.request.convo in n.Has(to).convos ==> Index(u) == Index(n.Has(to).convos[o.request.convo].c1))
    ensures ClientOk(a, N.Sent(n, to, o))
  {
    if o.Ready? {
      var u := o.request.content.state;
      UseKeepsClient(a, n, to, o.side, o.request.convo, u);
      var n' := n.With(to, o.side).(spent := n.spent + [N.Use(to, o.request.convo, u)]);
      MailboxesDoNotMatter(a, n', N.Sent(n, to, o));
    }
  }

  lemma SendKeepsLocal(n: N.Node, s: N.Step, hub: Answer)
    requires LocalOk(s.who, n) && Can(n, s, hub) && s.SendText?
    ensures LocalOk(s.who, Local(n, s, hub))
  {
    hide SendMessage, KeysOk;
    var SendText(a, to, x, content, random) := s;
    var side := n.Has(to);
    var o := SendMessage(a, side, to, x, content, random);
    HasKeysOk(a, n, to);
    assert x == "" ==> Encode(random) !in side.convos;
    SendKeepsKeys(a, to, side, x, content, random);
    SendMovesOn(a, side, to, x, content, random);
    SendHasShape(a, side, to, x, content, random);
    RewriteKeepsClient(a, n, to, o.side);
    hide ClientOk;
    SentIsClient(a, n, to, o);
  }

  lemma StoreKeepsClient(a: string, n: N.Node, p: string, x: string, stored: Option<Bytes>)
    requires ClientOk(a, n)
    ensures ClientOk(a, n.With(p, StoreSent(n.Has(p), x, stored)))
  {
    HasKeysOk(a, n, p);
    var side := StoreSent(n.Has(p), x, stored);
    assert side.convos.Keys == n.Has(p).convos.Keys;
    RewriteKeepsClient(a, n, p, side);
  }

  /** Mailboxes play no part. */
  lemma MailboxesDoNotMatter(a: string, n: N.Node, n': N.Node)
    requires ClientOk(a, n) && n'.book == n.book && n'.spent == n.spent
    ensures ClientOk(a, n')
  {
    forall i | 0 <= i < |n'.spent| ensures UseOk(n', n'.spent[i]) {
      assert UseOk(n, n.spent[i]);
    }
  }

  lemma UploadKeepsLocal(n: N.Node, s: N.Step, hub: Answer)
    requires LocalOk(s.who, n) && Can(n, s, hub) && s.Upload?
    ensures LocalOk(s.who, Local(n, s, hub))
  {
    hide ClientOk;
    var o := n.outgoing.value;
    StoreKeepsClient(s.who, n, o.request.to, o.request.convo, o.stored);
    MailboxesDoNotMatter(s.who, if hub.accepts then n.With(o.request.to, StoreSent(n.Has(o.request.to), o.request.convo, o.stored)) else n,
      Local(n, s, hub));
  }

  lemma ProcessKeepsLocal(n: N.Node, s: N.Step, hub: Answer)
    requires LocalOk(s.who, n) && Can(n, s, hub) && s.Process?
    ensures LocalOk(s.who, Local(n, s, hub))
  {
    hide Receive, KeysOk;
    var a, e := s.who, n.incoming.value;
    var known := n.ConvoExist(e.convo);
    assert known || e.convo !in n.Has(e.from).convos;
    HasKeysOk(a, n, e.from);
    ReceiveKeepsKeys(a, e.from, n.Has(e.from), e, known);
    ReceiveLeavesSending(a, e.from, n.Has(e.from), e, known);
    RewriteKeepsClient(a, n, e.from, N.Processing(n, a).0);
    hide ClientOk;
    MailboxesDoNotMatter(a, n.With(e.from, N.Processing(n, a).0), Local(n, s, hub));
  }

  lemma LocalStepKeeps(n: N.Node, s: N.Step, hub: Answer)
    requires LocalOk(s.who, n) && Can(n, s, hub)
    ensures LocalOk(s.who, Local(n, s, hub))
  {
    match s
    case AskContact(_, _, _, _) => AskKeepsLocal(n, s, hub);
    case AnswerContact(_, _, _, _) => AskKeepsLocal(n, s, hub);
    case SendText(_, _, _, _, _) => SendKeepsLocal(n, s, hub);
    case Upload(_) => UploadKeepsLocal(n, s, hub);
    case Poll(a) => MailboxesDoNotMatter(a, n, Local(n, s, hub));
    case Process(_) => ProcessKeepsLocal(n, s, hub);
  }

  // ----- A whole life of one client -----

  datatype Event = Event(step: N.Step, hub: Answer)

  const NEWBORN := N.Node(map[], None, None, [])

  /** A client's own steps, each with what the hub answers. */
  predicate Lives(a: string, n: N.Node, life: seq<Event>)
    decreases |life|
  {
    life == [] ||
    (life[0].step.who == a && Can(n, life[0].step, life[0].hub)
     && Lives(a, Local(n, life[0].step, life[0].hub), life[1..]))
  }

  function Lived(a: string, n: N.Node, life: seq<Event>): N.Node
    requires Lives(a, n, life)
    decreases |life|
  {
    if life == [] then n else Lived(a, Local(n, life[0].step, life[0].hub), life[1..])
  }

  lemma {:induction false} LifeKeepsLocal(a: string, n: N.Node, life: seq<Event>)
    requires LocalOk(a, n) && Lives(a, n, life)
    ensures LocalOk(a, Lived(a, n, life))
    decreases |life|
  {
    if life != [] {
      LocalStepKeeps(n, life[0].step, life[0].hub);
      LifeKeepsLocal(a, Local(n, life[0].step, life[0].hub), life[1..]);
    }
  }

  /**
    Whatever the hub does (refusing, losing, repeating, reordering or forging
    messages), two encryptions from the same state, by the same client or by two,
    are the same encryption.
    */
  lemma FreshUnderAnyHub(a: string, life: seq<Event>, i: nat, b: string, life': seq<Event>, j: nat)
    requires Lives(a, NEWBORN, life) && Lives(b, NEWBORN, life') && (a == b ==> life == life')
    requires i < |Lived(a, NEWBORN, life).spent| && j < |Lived(b, NEWBORN, life').spent|
    requires Lived(a, NEWBORN, life).spent[i].state == Lived(b, NEWBORN, life').spent[j].state
    ensures a == b && i == j
  {
    LifeKeepsLocal(a, NEWBORN, life);
    LifeKeepsLocal(b, NEWBORN, life');
    SpentOnce(a, Lived(a, NEWBORN, life), i, b, Lived(b, NEWBORN, life'), j);
  }

  lemma SpentOnce(a: string, n: N.Node, i: nat, b: string, n': N.Node, j: nat)
    requires ClientOk(a, n) && ClientOk(b, n') && (a == b ==> n == n')
    requires i < |n.spent| && j < |n'.spent| && n.spent[i].state == n'.spent[j].state
    ensures a == b && i == j
  {
    OwnerIsClient(a, n, n.spent[i]);
    OwnerIsClient(b, n', n'.spent[j]);
  }

  // ----- Every run of the network -----

  ghost predicate AllOk(w: N.World) {
    forall a :: a in w.nodes ==> LocalOk(a, w.nodes[a])
  }

  /** The honest hub's part of a step. */
  function HonestAnswer(w: N.World, s: N.Step): Answer
    requires N.Enabled(w, s)
  {
    match s
    case Upload(a) => Answer(Admitted(w.nodes[a].outgoing.value.request), None)
    case Poll(a) => Answer(false, Pop(w.hub, a).1)
    case _ => Answer(false, None)
  }

  lemma NextIsLocal(w: N.World, s: N.Step)
    requires N.Good(w) && N.Enabled(w, s)
    ensures Can(w.nodes[s.who], s, HonestAnswer(w, s))
    ensures N.Next(w, s).nodes == w.nodes[s.who := Local(w.nodes[s.who], s, HonestAnswer(w, s))]
  {
    hide AddContact, AcceptContact, SendMessage, Receive, Admitted, Post;
    var n := w.nodes[s.who];
    match s
    case SendText(a, to, x, content, random) =>
      if x == "" {
        NewIdIsUnknown(w, a, random);
      }
    case Poll(a) =>
      if Pop(w.hub, a).1.Some? {
        assert N.GoodMail(w, w.hub.pending[a][0], a);
        assert N.GoodNode(w, Pop(w.hub, a).1.value.from, w.nodes[Pop(w.hub, a).1.value.from]);
      } else {
        assert n.(incoming := None) == n;
      }
    case _ =>
  }

  lemma NewIdIsUnknown(w: N.World, a: string, random: Bytes)
    requires N.Good(w) && a in w.nodes && Encode(random) !in w.owners
    ensures !w.nodes[a].ConvoExist(Encode(random))
  {
    assert N.GoodNode(w, a, w.nodes[a]);
    forall p | p in w.nodes[a].book ensures Encode(random) !in w.nodes[a].book[p].convos {
      assert N.GoodSide(w, a, p, w.nodes[a].book[p]);
    }
  }

  lemma NextKeepsAllOk(w: N.World, s: N.Step)
    requires N.Good(w) && AllOk(w) && N.Enabled(w, s)
    ensures N.Good(N.Next(w, s)) && AllOk(N.Next(w, s))
  {
    hide LocalOk, Local;
    N.NextKeepsGood(w, s);
    NextIsLocal(w, s);
    LocalStepKeeps(w.nodes[s.who], s, HonestAnswer(w, s));
  }

  lemma {:induction false} RunKeepsAllOk(w: N.World, steps: seq<N.Step>)
    requires N.Good(w) && AllOk(w) && N.IsRun(w, steps)
    ensures N.Good(N.End(w, steps)) && AllOk(N.End(w, steps))
    decreases |steps|
  {
    if steps != [] {
      NextKeepsAllOk(w, steps[0]);
      RunKeepsAllOk(N.Next(w, steps[0]), steps[1..]);
    }
  }

  /** In every run, any two encryptions from the same state are the same encryption. */
  lemma EveryEncryptionIsFresh(addresses: set<string>, steps: seq<N.Step>, a: string, i: nat, b: string, j: nat)
    requires forall c :: c in addresses ==> IsAddress(c)
    requires N.IsRun(N.Init(addresses), steps)
    requires
      var w := N.End(N.Init(addresses), steps);
      && a in w.nodes && b in w.nodes && i < |w.nodes[a].spent| && j < |w.nodes[b].spent|
      && w.nodes[a].spent[i].state == w.nodes[b].spent[j].state
    ensures a == b && i == j
  {
    var w0 := N.Init(addresses);
    N.InitGood(addresses);
    RunKeepsAllOk(w0, steps);
    var w := N.End(w0, steps);
    SpentOnce(a, w.nodes[a], i, b, w.nodes[b], j);
  }
}
