/**
  What a completed handshake says about the other client. Unlike synchronisation
  this holds in every run, whatever is refused or mistyped, because only the
  client that was asked makes the message that completes the one that asked.
  */
module Agreement {
  import opened Hex
  import opened Strobe
  import opened Crypto
  import opened Peer
  import opened Pair
  import opened Sync
  import opened Reduction
  import N = Network

  // ----- One pair -----

  /** The peer's contact holds the answering end of this session. */
  predicate Answered(contact: Contact, s: Session) {
    contact.ContactAdded? && Core(contact.c1) == Root(s, false) && Core(contact.c2) == Root(s, true)
  }

  predicate Crossed(c: Contact, d: Contact) {
    d.ContactAdded? && c.ContactAdded? && Core(c.c1) == Core(d.c2) && Core(c.c2) == Core(d.c1)
  }

  /** An answer to a on its way was made by the present contact of b. */
  predicate AnswersStand(a: string, b: string, p: Pair) {
    forall e :: e in p.ba && e.content.Hs2? && e.content.session.initiator == a && e.content.session.responder == b ==>
      Answered(p.sb.contact, e.content.session)
  }

  /** What holds of a as the one that asks, and of b as the one that is asked. */
  predicate Agreed(a: string, b: string, p: Pair) {
    && AnswersStand(a, b, p)
    && (p.sa.contact.WaitingForAccept? ==> p.sa.contact.hs.me == a && p.sa.contact.hs.peer == b)
    && (p.sa.contact.ContactAdded? && Core(p.sa.contact.c1).Root? && Core(p.sa.contact.c1).fromInitiator ==>
        Crossed(p.sa.contact, p.sb.contact))
  }

  /** A contact that has advanced without a handshake message: at most by a ratchet. */
  predicate SameCores(c: Contact, c': Contact) {
    if c.ContactAdded? then c'.ContactAdded? && Core(c'.c1) == Core(c.c1) && Core(c'.c2) == Core(c.c2)
    else !c'.ContactAdded?
  }

  lemma SendKeepsCores(me: string, side: Side, to: string, x: string, content: Bytes, random: Bytes)
    ensures
      var o := SendMessage(me, side, to, x, content, random);
      && SameCores(side.contact, After(o).contact)
      && (!side.contact.ContactAdded? ==> After(o).contact == side.contact)
      && (o.Ready? ==> o.request.content.Ct?)
  {
  }

  /** Once completed, a contact keeps the handshake it was completed with. */
  lemma TakeKeepsCores(me: string, peer: string, side: Side, e: Mail)
    ensures
      var contact := Take(me, peer, side, e).0.contact;
      && (side.contact.ContactAdded? ==> SameCores(side.contact, contact))
      && (side.contact.WaitingForAccept? ==>
          || contact == side.contact
          || (e.content.Hs2? && FinishHandshake(side.contact.hs, e.content) == Some((contact.c1, contact.c2)) && contact.ContactAdded?))
      && (!side.contact.ContactAdded? && !side.contact.WaitingForAccept? ==> contact.WaitingToAccept?)
  {
  }

  /** The move of the one that asks. */
  lemma AskerKeepsAgreed(a: string, b: string, p: Pair, m: Move)
    requires IsAddress(b) && Enabled(p, m) && Agreed(a, b, p)
    ensures Agreed(a, b, Act(a, b, p, m))
  {
    match m
    case Add(e1, random) => AddWrites(a, b, p.sa, e1, random);
    case Say(x, content, random) => SendKeepsCores(a, p.sa, b, x, content, random);
    case Collect => TakeKeepsCores(a, b, p.sa, p.ba[0]);
    case _ =>
  }

  /** The move of the one that is asked. */
  lemma AskedKeepsAgreed(a: string, b: string, p: Pair, m: Move)
    requires IsAddress(a) && Enabled(p.Swap(), m) && Honest(m) && Agreed(a, b, p)
    ensures Agreed(a, b, Act(b, a, p.Swap(), m).Swap())
  {
    match m
    case Accept(e2, random) => AddressOfKey(a);
    case Say(x, content, random) => SendKeepsCores(b, p.sb, a, x, content, random);
    case Collect => TakeKeepsCores(b, a, p.sb, p.ab[0]);
    case _ =>
  }

  // ----- The keys that were drawn -----

  /**
    The ephemeral keys a has drawn for requests to b, under b's address as it is
    and under any spelling of it, and those b has drawn to answer a.
    */
  datatype Drawn = Drawn(asked: set<nat>, named: set<nat>, answered: set<nat>)

  predicate Request(content: Content, a: string, b: string) {
    content.Hs1? && content.initiator == a && content.responder == b
  }

  /** The handshake of a, asking, with b is made of keys the two have drawn. */
  predicate FromDrawn(a: string, b: string, p: Pair, d: Drawn) {
    && (p.sa.contact.WaitingForAccept? ==> p.sa.contact.hs.e1 in d.asked)
    && (forall e :: e in p.ab && Request(e.content, a, b) ==> e.content.e1 in d.named)
    && (p.sb.contact.WaitingToAccept? && Request(p.sb.contact.request, a, b) ==> p.sb.contact.request.e1 in d.named)
    && AnswerDrawn(a, b, p.sb.contact, d) && AskDrawn(a, b, p.sa.contact, d)
  }

  predicate AnswerDrawn(a: string, b: string, contact: Contact, d: Drawn) {
    contact.ContactAdded? && Core(contact.c1).Root? && !Core(contact.c1).fromInitiator ==>
      var s := Core(contact.c1).session;
      s.initiator == a && s.responder == b && s.e1 in d.named && s.e2 in d.answered && Core(contact.c2) == Root(s, true)
  }

  predicate AskDrawn(a: string, b: string, contact: Contact, d: Drawn) {
    contact.ContactAdded? && Core(contact.c1).Root? && Core(contact.c1).fromInitiator ==>
      var s := Core(contact.c1).session;
      s.initiator == a && s.responder == b && s.e1 in d.asked && Core(contact.c2) == Root(s, false)
  }

  lemma AskerKeepsDrawn(a: string, b: string, p: Pair, m: Move, d: Drawn)
    requires IsAddress(b) && Enabled(p, m) && Agreed(a, b, p) && FromDrawn(a, b, p, d)
    requires m.Add? ==> m.e1 in d.asked && m.e1 in d.named
    requires m.Stray? ==> Request(m.env.content, a, b) ==> m.env.content.e1 in d.named
    ensures FromDrawn(a, b, Act(a, b, p, m), d)
  {
    match m
    case Add(e1, random) => AddWrites(a, b, p.sa, e1, random);
    case Say(x, content, random) => SendKeepsCores(a, p.sa, b, x, content, random);
    case Collect => TakeKeepsCores(a, b, p.sa, p.ba[0]);
    case _ =>
  }

  lemma AskedKeepsDrawn(a: string, b: string, p: Pair, m: Move, d: Drawn)
    requires IsAddress(a) && Enabled(p.Swap(), m) && FromDrawn(a, b, p, d)
    requires m.Accept? ==> m.e2 in d.answered
    ensures FromDrawn(a, b, Act(b, a, p.Swap(), m).Swap(), d)
  {
    match m
    case Accept(e2, random) => AddressOfKey(a);
    case Say(x, content, random) => SendKeepsCores(b, p.sb, a, x, content, random);
    case Collect =>
      TakeKeepsCores(b, a, p.sb, p.ab[0]);
      StrangersAreStored(b, a, p.sb, p.ab[0]);
    case _ =>
  }

  /** Whatever a stranger sends is stored as its request, and an unanswered one stays. */
  lemma StrangersAreStored(me: string, peer: string, side: Side, e: Mail)
    ensures
      var contact := Take(me, peer, side, e).0.contact;
      && (side.contact == NoContact ==> contact == WaitingToAccept(e.content))
      && (side.contact.WaitingToAccept? ==> contact == side.contact)
  {
  }

  // ----- Every run -----

  ghost predicate AllAgree(w: N.World) {
    forall a, b :: a in w.nodes && b in w.nodes && a != b ==> Agreed(a, b, View(w, a, b))
  }

  lemma PairStaysAgreed(w: N.World, s: N.Step, a: string, b: string)
    requires N.Good(w) && N.Enabled(w, s) && a in w.nodes && b in w.nodes && a != b
    requires Agreed(a, b, View(w, a, b))
    ensures N.Next(w, s).nodes.Keys == w.nodes.Keys
    ensures Agreed(a, b, View(N.Next(w, s), a, b))
  {
    hide Agreed, View, Act, N.Next, TurnOf;
    assert N.GoodNode(w, a, w.nodes[a]) && N.GoodNode(w, b, w.nodes[b]);
    StepIsTurn(w, s, a, b);
    match TurnOf(w, s, a, b)
    case First(m) => AskerKeepsAgreed(a, b, View(w, a, b), m);
    case Second(m) => AskedKeepsAgreed(a, b, View(w, a, b), m);
    case Nothing =>
  }

  lemma NextKeepsAllAgree(w: N.World, s: N.Step)
    requires N.Good(w) && AllAgree(w) && N.Enabled(w, s)
    ensures N.Good(N.Next(w, s)) && AllAgree(N.Next(w, s)) && N.Next(w, s).nodes.Keys == w.nodes.Keys
  {
    hide Agreed, View, N.Next;
    var w' := N.Next(w, s);
    N.NextKeepsGood(w, s);
    forall a, b | a in w'.nodes && b in w'.nodes && a != b
      ensures Agreed(a, b, View(w', a, b))
    {
      PairStaysAgreed(w, s, a, b);
    }
  }

  lemma {:induction false} RunKeepsAllAgree(w: N.World, steps: seq<N.Step>)
    requires N.Good(w) && AllAgree(w) && N.IsRun(w, steps)
    ensures AllAgree(N.End(w, steps))
    decreases |steps|
  {
    hide AllAgree;
    if steps != [] {
      NextKeepsAllAgree(w, steps[0]);
      RunKeepsAllAgree(N.Next(w, steps[0]), steps[1..]);
    }
  }

  lemma ReachableAgrees(addresses: set<string>, steps: seq<N.Step>)
    requires forall a :: a in addresses ==> IsAddress(a)
    requires N.IsRun(N.Init(addresses), steps)
    ensures AllAgree(N.End(N.Init(addresses), steps))
  {
    N.InitGood(addresses);
    RunKeepsAllAgree(N.Init(addresses), steps);
  }

  /** The keys drawn in the steps taken. */
  function DrawnBy(past: seq<N.Step>, a: string, b: string): Drawn {
    Drawn(
      set s | s in past && s.AskContact? && s.who == a && s.bob == b :: s.e1,
      set s | s in past && s.AskContact? && s.who == a && ToLower(s.bob) == b :: s.e1,
      set s | s in past && s.AnswerContact? && s.who == b && s.alice == a :: s.e2)
  }

  ghost predicate AllDrawn(w: N.World, past: seq<N.Step>) {
    forall a, b :: a in w.nodes && b in w.nodes && a != b ==> FromDrawn(a, b, View(w, a, b), DrawnBy(past, a, b))
  }

  lemma DrawnGrows(a: string, b: string, p: Pair, past: seq<N.Step>, s: N.Step)
    requires FromDrawn(a, b, p, DrawnBy(past, a, b))
    ensures FromDrawn(a, b, p, DrawnBy(past + [s], a, b))
  {
    hide Core;
    forall t | t in past ensures t in past + [s] {}
    var d, d' := DrawnBy(past, a, b), DrawnBy(past + [s], a, b);
    assert d.asked <= d'.asked && d.named <= d'.named && d.answered <= d'.answered;
  }

  /** The keys of a move are those of the step it is. */
  lemma MovesDrawn(w: N.World, s: N.Step, b: string, past: seq<N.Step>)
    requires N.Enabled(w, s) && IsAddress(b) && Effect(w, s, b).Some?
    ensures
      var m, d, d' := Effect(w, s, b).value, DrawnBy(past + [s], s.who, b), DrawnBy(past + [s], b, s.who);
      && (m.Add? ==> m.e1 in d.asked && m.e1 in d.named)
      && (m.Stray? ==> m.env.content.Hs1? && m.env.content.e1 in d.named)
      && (m.Accept? ==> m.e2 in d'.answered)
  {
    assert s in past + [s];
  }

  lemma PairStaysDrawn(w: N.World, s: N.Step, past: seq<N.Step>, a: string, b: string)
    requires N.Good(w) && N.Enabled(w, s) && a in w.nodes && b in w.nodes && a != b
    requires Agreed(a, b, View(w, a, b)) && FromDrawn(a, b, View(w, a, b), DrawnBy(past, a, b))
    ensures FromDrawn(a, b, View(N.Next(w, s), a, b), DrawnBy(past + [s], a, b))
  {
    hide Agreed, FromDrawn, View, Act, N.Next, Effect, DrawnBy;
    assert IsAddress(a) && IsAddress(b) by { assert N.GoodNode(w, a, w.nodes[a]) && N.GoodNode(w, b, w.nodes[b]); }
    StepIsTurn(w, s, a, b);
    DrawnGrows(a, b, View(w, a, b), past, s);
    match TurnOf(w, s, a, b)
    case First(m) =>
      MovesDrawn(w, s, b, past);
      AskerKeepsDrawn(a, b, View(w, a, b), m, DrawnBy(past + [s], a, b));
    case Second(m) =>
      MovesDrawn(w, s, a, past);
      AskedKeepsDrawn(a, b, View(w, a, b), m, DrawnBy(past + [s], a, b));
    case Nothing =>
  }

  lemma {:induction false} RunKeepsAllDrawn(w: N.World, past: seq<N.Step>, steps: seq<N.Step>)
    requires N.Good(w) && AllAgree(w) && AllDrawn(w, past) && N.IsRun(w, steps)
    ensures AllDrawn(N.End(w, steps), past + steps)
    decreases |steps|
  {
    hide Agreed, FromDrawn, View, N.Good, N.Enabled, DrawnBy;
    if steps == [] {
      assert past + steps == past;
    } else {
      var s := steps[0];
      var w' := N.Next(w, s);
      NextKeepsAllAgree(w, s);
      forall a, b | a in w'.nodes && b in w'.nodes && a != b
        ensures FromDrawn(a, b, View(w', a, b), DrawnBy(past + [s], a, b))
      {
        PairStaysDrawn(w, s, past, a, b);
      }
      RunKeepsAllDrawn(w', past + [s], steps[1..]);
      assert past + [s] + steps[1..] == past + steps;
    }
  }

  lemma ReachableIsDrawn(addresses: set<string>, steps: seq<N.Step>)
    requires forall a :: a in addresses ==> IsAddress(a)
    requires N.IsRun(N.Init(addresses), steps)
    ensures AllDrawn(N.End(N.Init(addresses), steps), steps)
  {
    N.InitGood(addresses);
    RunKeepsAllDrawn(N.Init(addresses), [], steps);
    assert [] + steps == steps;
  }
}
