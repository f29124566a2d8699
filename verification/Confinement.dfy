/**
  What a message the hub refuses destroys: the rest of its conversation, in its
  direction, and nothing else. The proof compares two clients with the pair they
  would be had the sender stopped in that conversation just before: its row
  rewound, and its later messages taken out of what is on its way. Every move of
  theirs is a move of that pair, or nothing, so that pair stays synchronised.
  */
module Confinement {
  import opened Hex
  import opened Strobe
  import opened Crypto
  import opened Queues
  import opened Peer
  import opened Pair
  import opened Sync
  import opened Delivery
  import opened Limits

  /** Where a direction of a conversation was cut: the lost message's number, and the messages stored by then. */
  datatype Cut = Cut(number: nat, kept: nat)

  type Cuts = map<string, Cut>

  // ----- The pair without what came after the cuts -----

  /** A session state when it had processed n messages. */
  function Unwind(s: State, n: nat): State
    decreases Index(s)
  {
    if Index(s) > n then Unwind(s.before, n) else s
  }

  function Front(ms: seq<Bytes>, n: nat): seq<Bytes> {
    if n <= |ms| then ms[..n] else ms
  }

  function Rewind(c: Convo, cut: Cut): Convo {
    c.(c1 := Unwind(c.c1, cut.number), sent := Front(c.sent, cut.kept))
  }

  function Rewound(side: Side, cuts: Cuts): Side {
    Side(side.contact, map x | x in side.convos :: if x in cuts then Rewind(side.convos[x], cuts[x]) else side.convos[x])
  }

  predicate Dropped(e: Mail, cuts: Cuts) {
    e.content.Ct? && e.convo in cuts && Index(e.content.state) >= cuts[e.convo].number
  }

  function Kept(es: seq<Mail>, cuts: Cuts): seq<Mail> {
    if es == [] then [] else (if Dropped(es[0], cuts) then [] else [es[0]]) + Kept(es[1..], cuts)
  }

  /** `la` are the cuts in what a sends, `lb` those in what b sends. */
  function Healed(p: Pair, la: Cuts, lb: Cuts): Pair {
    Pair(Rewound(p.sa, la), Rewound(p.sb, lb), Kept(p.ab, la), Kept(p.ba, lb))
  }

  lemma {:induction false} KeptConcat(xs: seq<Mail>, ys: seq<Mail>, cuts: Cuts)
    ensures Kept(xs + ys, cuts) == Kept(xs, cuts) + Kept(ys, cuts)
  {
    if xs == [] {
      assert xs + ys == ys;
    } else {
      assert (xs + ys)[1..] == xs[1..] + ys;
      KeptConcat(xs[1..], ys, cuts);
    }
  }

  lemma KeptAppend(es: seq<Mail>, e: Mail, cuts: Cuts)
    ensures Kept(es + [e], cuts) == Kept(es, cuts) + if Dropped(e, cuts) then [] else [e]
  {
    KeptConcat(es, [e], cuts);
  }

  lemma {:induction false} KeptMembers(es: seq<Mail>, cuts: Cuts, e: Mail)
    ensures e in Kept(es, cuts) <==> e in es && !Dropped(e, cuts)
  {
    if es != [] {
      KeptMembers(es[1..], cuts, e);
      assert es == [es[0]] + es[1..];
    }
  }

  /** Cutting a conversation at its next message takes nothing out. */
  lemma {:induction false} KeptByNewCut(es: seq<Mail>, cuts: Cuts, x: string, cut: Cut)
    requires x !in cuts && forall e :: e in es && Hit(e, x) ==> Index(e.content.state) < cut.number
    ensures Kept(es, cuts[x := cut]) == Kept(es, cuts)
  {
    if es != [] {
      KeptByNewCut(es[1..], cuts, x, cut);
      assert es[0] in es;
    }
  }

  lemma {:induction false} RisingWithin(es: seq<Mail>, x: string, lo: nat, hi: nat)
    requires Rising(es, x, lo, hi)
    ensures lo <= hi && forall e :: e in es && Hit(e, x) ==> lo <= Index(e.content.state) < hi
    decreases |es|
  {
    if es != [] {
      RisingWithin(es[1..], x, if Hit(es[0], x) then Index(es[0].content.state) + 1 else lo, hi);
      assert es == [es[0]] + es[1..];
    }
  }

  // ----- What a cut says -----

  predicate TooBig(e: Mail) {
    e.content.Ct? && e.content.Size() > MESSAGE_MAX_CHARS
  }

  /** Messages of x that the hub has yet to refuse. */
  function Doomed(es: seq<Mail>, x: string): nat {
    if es == [] then 0
    else Doomed(es[..|es| - 1], x) + if TooBig(es[|es| - 1]) && es[|es| - 1].convo == x then 1 else 0
  }

  lemma DoomedAppend(es: seq<Mail>, e: Mail, x: string)
    ensures Doomed(es + [e], x) == Doomed(es, x) + if TooBig(e) && e.convo == x then 1 else 0
  {
    assert (es + [e])[..|es|] == es;
  }

  lemma {:induction false} DoomedTail(es: seq<Mail>, x: string)
    requires es != [] && !TooBig(es[0])
    ensures Doomed(es[1..], x) == Doomed(es, x)
    decreases |es|
  {
    if |es| > 1 {
      DoomedTail(es[..|es| - 1], x);
      assert es[1..][..|es| - 2] == es[..|es| - 1][1..];
    } else {
      assert es[..0] == [];
    }
  }

  /** The receiver waits for the lost message or an earlier one, and the sender is past it. */
  predicate CutOk(sa: Side, sb: Side, ab: seq<Mail>, x: string, cut: Cut) {
    && x in sa.convos && Heard(sb, x) <= cut.number < Sent(sa, x)
    && cut.kept + Doomed(ab, x) <= |sa.convos[x].sent|
  }

  /** Exactly the cut directions have messages the hub refuses, the lost one among them. */
  predicate MailOk(ab: seq<Mail>, la: Cuts) {
    forall e :: e in ab ==>
      && (TooBig(e) ==> Dropped(e, la))
      && (Dropped(e, la) && Index(e.content.state) == la[e.convo].number ==> TooBig(e))
  }

  predicate CutsOk(p: Pair, la: Cuts) {
    (forall x :: x in la ==> CutOk(p.sa, p.sb, p.ab, x, la[x])) && MailOk(p.ab, la)
  }

  ghost predicate AllNumbers(p: Pair) {
    forall x :: Numbered(p, x) && Numbered(p.Swap(), x)
  }

  /** Two clients that would be synchronised but for the cuts. */
  ghost predicate Confined(a: string, b: string, p: Pair, la: Cuts, lb: Cuts) {
    Synchronised(a, b, Healed(p, la, lb)) && CutsOk(p, la) && CutsOk(p.Swap(), lb)
  }

  lemma SwapConfined(a: string, b: string, p: Pair, la: Cuts, lb: Cuts)
    requires Confined(a, b, p, la, lb)
    ensures Confined(b, a, p.Swap(), lb, la)
  {
    SwapSynchronised(a, b, Healed(p, la, lb));
    assert Healed(p.Swap(), lb, la) == Healed(p, la, lb).Swap();
    assert p.Swap().Swap() == p;
  }

  // ----- Moves that have nothing to do with a cut -----

  lemma RewoundWrite(side: Side, cuts: Cuts, contact: Contact, x: string, c: Convo)
    requires x !in cuts
    ensures Rewound(Side(contact, side.convos[x := c]), cuts) == Side(contact, Rewound(side, cuts).convos[x := c])
  {
  }

  /** Receiving neither reads nor writes what a cut rewinds. */
  lemma TakeRewound(me: string, peer: string, side: Side, e: Mail, cuts: Cuts)
    requires cuts.Keys <= side.convos.Keys
    ensures
      var (taken, outcome) := Take(me, peer, side, e);
      Take(me, peer, Rewound(side, cuts), e) == (Rewound(taken, cuts), outcome)
  {
    var (taken, outcome) := Take(me, peer, side, e);
    var other := Take(me, peer, Rewound(side, cuts), e).0;
    assert other.convos == Rewound(taken, cuts).convos;
  }

  lemma SendRewound(me: string, side: Side, to: string, x: string, content: Bytes, random: Bytes, cuts: Cuts)
    requires (if x == "" then Encode(random) else x) !in cuts
    ensures
      var o := SendMessage(me, side, to, x, content, random);
      var o' := SendMessage(me, Rewound(side, cuts), to, x, content, random);
      && o'.Ready? == o.Ready? && After(o') == Rewound(After(o), cuts)
      && (o.Ready? ==> o'.request == o.request && o'.stored == o.stored)
  {
    var y := if x == "" then Encode(random) else x;
    var o := SendMessage(me, side, to, x, content, random);
    if After(o) != side {
      var c := After(o).convos[y];
      SendWritesOne(me, side, to, x, content, random);
      SendWritesOne(me, Rewound(side, cuts), to, x, content, random);
      RewoundWrite(side, cuts, After(o).contact, y, c);
    }
  }

  /** A send that writes, writes one row. */
  lemma SendWritesOne(me: string, side: Side, to: string, x: string, content: Bytes, random: Bytes)
    ensures
      var o, y := SendMessage(me, side, to, x, content, random), if x == "" then Encode(random) else x;
      After(o) != side ==> y in After(o).convos && After(o) == Side(After(o).contact, side.convos[y := After(o).convos[y]])
  {
    if x == "" {
      var o := StartThread(me, side, to, content, random);
      if After(o) != side {
        assert After(o).convos == side.convos[Encode(random) := After(o).convos[Encode(random)]];
      }
    } else if SendInConvo(me, side, to, x, content).Ready? {
      AfterData(me, side, to, x, content);
    }
  }

  lemma HealedIsFresh(p: Pair, la: Cuts, lb: Cuts, x: string)
    requires Fresh(p, x)
    ensures Fresh(Healed(p, la, lb), x)
  {
    forall e | e in Kept(p.ab, la) ensures e.convo != x { KeptMembers(p.ab, la, e); }
    forall e | e in Kept(p.ba, lb) ensures e.convo != x { KeptMembers(p.ba, lb, e); }
  }

  /** A send to no cut conversation is the same send of the healed pair. */
  lemma SayElsewhere(a: string, b: string, p: Pair, x: string, content: Bytes, random: Bytes, la: Cuts, lb: Cuts)
    requires Enabled(p, Say(x, content, random)) && (if x == "" then Encode(random) else x) !in la
    ensures Enabled(Healed(p, la, lb), Say(x, content, random))
    ensures Healed(Act(a, b, p, Say(x, content, random)), la, lb) == Act(a, b, Healed(p, la, lb), Say(x, content, random))
  {
    hide SendMessage, After, Rewound;
    if x == "" { HealedIsFresh(p, la, lb, Encode(random)); }
    SendRewound(a, p.sa, b, x, content, random, la);
    var o := SendMessage(a, p.sa, b, x, content, random);
    SayIs(a, b, p, x, content, random);
    SayIs(a, b, Healed(p, la, lb), x, content, random);
    if o.Ready? {
      SendHasShape(a, p.sa, b, x, content, random);
      KeptAppend(p.ab, Envelope(a, o.request.convo, o.request.content), la);
    }
  }

  lemma SayIs(a: string, b: string, p: Pair, x: string, content: Bytes, random: Bytes)
    requires Enabled(p, Say(x, content, random))
    ensures
      var o := SendMessage(a, p.sa, b, x, content, random);
      Act(a, b, p, Say(x, content, random)) == if o.Ready? then Posted(a, p, After(o), o.request) else p.(sa := After(o))
  {
    hide SendMessage;
  }

  // ----- A send in a cut conversation, or one that cuts it -----

  lemma UnwindNext(s: State, ad: Bytes, plaintext: Bytes, n: nat)
    requires n <= Index(s)
    ensures Unwind(AfterMsg(s, ad, plaintext), n) == Unwind(s, n)
    ensures n == Index(s) ==> Unwind(s, n) == s
  {
  }

  /** What is sent from the cut on leaves the healed pair as it is. */
  lemma SayInCut(a: string, b: string, p: Pair, x: string, content: Bytes, la: Cuts, lb: Cuts, random: Bytes)
    requires x != "" && x in la && x in p.sa.convos
    requires la[x].number <= Sent(p.sa, x) && la[x].kept <= |p.sa.convos[x].sent|
    ensures Healed(Act(a, b, p, Say(x, content, random)), la, lb) == Healed(p, la, lb)
  {
    hide SendMessage, SendInConvo;
    SayIs(a, b, p, x, content, random);
    if SendMessage(a, p.sa, b, x, content, random).Ready? {
      SendInCut(a, p.sa, b, x, content, la, random);
      KeptAppend(p.ab, Envelope(a, x, Encrypt(a, p.sa.convos[x].c1, x, b, content).value.0), la);
    } else {
      SendInCut(a, p.sa, b, x, content, la, random);
    }
  }

  lemma SendInCut(a: string, side: Side, b: string, x: string, content: Bytes, la: Cuts, random: Bytes)
    requires x != "" && x in la && x in side.convos
    requires la[x].number <= Sent(side, x) && la[x].kept <= |side.convos[x].sent|
    ensures
      var o := SendMessage(a, side, b, x, content, random);
      && Rewound(After(o), la) == Rewound(side, la)
      && (o.Ready? ==>
          && Encrypt(a, side.convos[x].c1, x, b, content).Some?
          && o.request == Request(b, x, Encrypt(a, side.convos[x].c1, x, b, content).value.0)
          && Dropped(Envelope(a, x, o.request.content), la))
  {
    if SendInConvo(a, side, b, x, content).Ready? {
      AfterData(a, side, b, x, content);
      var c := side.convos[x];
      var c' := After(SendInConvo(a, side, b, x, content)).convos[x];
      UnwindNext(c.c1, c'.c1.ad, content, la[x].number);
      assert Front(c'.sent, la[x].kept) == Front(c.sent, la[x].kept);
      assert Rewind(c', la[x]) == Rewind(c, la[x]);
      assert Rewound(After(SendInConvo(a, side, b, x, content)), la).convos == Rewound(side, la).convos;
    }
  }

  /** Cutting a conversation at its next message changes nothing yet. */
  lemma NewCutHealsAlike(p: Pair, x: string, la: Cuts, lb: Cuts)
    requires x !in la && x in p.sa.convos && Numbered(p, x)
    ensures Healed(p, la[x := Cut(Sent(p.sa, x), |p.sa.convos[x].sent|)], lb) == Healed(p, la, lb)
  {
    var c := p.sa.convos[x];
    var cut := Cut(Sent(p.sa, x), |c.sent|);
    RisingWithin(p.ab, x, Heard(p.sb, x), Sent(p.sa, x));
    KeptByNewCut(p.ab, la, x, cut);
    UnwindNext(c.c1, [], [], cut.number);
    assert Rewind(c, cut) == c;
    assert Rewound(p.sa, la[x := cut]).convos == Rewound(p.sa, la).convos;
  }

  // ----- One move, seen in the healed pair -----

  /** What the network between two clients does, as long as no title is lost and no address mistyped. */
  predicate Manageable(p: Pair, m: Move) {
    match m
    case Say(x, content, _) => x == "" ==> Harmless(p.sa, x, content)
    case Collect => p.ba != [] ==> !TooBig(p.ba[0])
    case Bounce(_) => p.ab != [] ==> TooBig(p.ab[|p.ab| - 1])
    case Stray(_) => false
    case _ => true
  }

  /** The send that cuts a conversation. */
  predicate Cutting(p: Pair, m: Move, la: Cuts) {
    m.Say? && m.x != "" && m.x !in la && !Harmless(p.sa, m.x, m.content)
  }

  function CutsAfter(p: Pair, m: Move, la: Cuts): Cuts {
    if Cutting(p, m, la) then la[m.x := Cut(Sent(p.sa, m.x), |p.sa.convos[m.x].sent|)] else la
  }

  /** The move of the healed pair: none if it is about what comes after a cut. */
  predicate Shown(p: Pair, m: Move, la: Cuts, lb: Cuts) {
    match m
    case Say(x, _, _) => x == "" || x !in CutsAfter(p, m, la)
    case Collect => p.ba != [] && !Dropped(p.ba[0], lb)
    case Bounce(_) => false
    case _ => true
  }

  lemma CutsKnown(p: Pair, la: Cuts)
    requires CutsOk(p, la)
    ensures la.Keys <= p.sa.convos.Keys
  {
  }

  lemma SayHeals(a: string, b: string, p: Pair, m: Move, la: Cuts, lb: Cuts)
    requires Enabled(p, m) && m.Say? && Manageable(p, m) && CutsOk(p, la) && Numbered(p, m.x)
    ensures
      var la', q := CutsAfter(p, m, la), Healed(p, la, lb);
      if Shown(p, m, la, lb) then Enabled(q, m) && Sound(q, m) && Healed(Act(a, b, p, m), la', lb) == Act(a, b, q, m)
      else Healed(Act(a, b, p, m), la', lb) == q
  {
    hide SendMessage, Act;
    var Say(x, content, random) := m;
    if Cutting(p, m, la) {
      NewCutHealsAlike(p, x, la, lb);
      SayInCut(a, b, p, x, content, CutsAfter(p, m, la), lb, random);
    } else if x != "" && x in la {
      assert CutOk(p.sa, p.sb, p.ab, x, la[x]);
      SayInCut(a, b, p, x, content, la, lb, random);
    } else {
      CutsKnown(p, la);
      SayElsewhere(a, b, p, x, content, random, la, lb);
      assert Rewound(p.sa, la).convos.Keys == p.sa.convos.Keys;
    }
  }

  lemma AskHeals(a: string, b: string, p: Pair, m: Move, la: Cuts, lb: Cuts)
    requires m.Add? || m.Accept?
    ensures Healed(Act(a, b, p, m), la, lb) == Act(a, b, Healed(p, la, lb), m)
  {
    if Act(a, b, p, m).ab != p.ab {
      KeptAppend(p.ab, Act(a, b, p, m).ab[|p.ab|], la);
    }
  }

  lemma UnstoreRewound(side: Side, x: string, stored: Option<Bytes>, la: Cuts)
    requires x in la && (x in side.convos ==> la[x].kept < |side.convos[x].sent|)
    ensures Rewound(Unstore(side, x, stored), la) == Rewound(side, la)
  {
    if stored.Some? && x in side.convos {
      var c := side.convos[x];
      var c' := c.(sent := c.sent[..|c.sent| - 1]);
      assert Front(c'.sent, la[x].kept) == Front(c.sent, la[x].kept);
      assert Rewind(c', la[x]) == Rewind(c, la[x]);
      assert Rewound(Unstore(side, x, stored), la).convos == Rewound(side, la).convos;
    }
  }

  /** The message about to be refused is one that a cut drops. */
  lemma LastIsDropped(p: Pair, la: Cuts)
    requires p.ab != [] && TooBig(p.ab[|p.ab| - 1]) && CutsOk(p, la)
    ensures
      var e := p.ab[|p.ab| - 1];
      && e.convo in la && e.convo in p.sa.convos && la[e.convo].kept < |p.sa.convos[e.convo].sent|
      && Kept(p.ab[..|p.ab| - 1], la) == Kept(p.ab, la)
  {
    var front, e := p.ab[..|p.ab| - 1], p.ab[|p.ab| - 1];
    assert p.ab == front + [e] && Dropped(e, la);
    KeptAppend(front, e, la);
    DoomedAppend(front, e, e.convo);
    assert CutOk(p.sa, p.sb, p.ab, e.convo, la[e.convo]);
  }

  lemma BounceHeals(a: string, b: string, p: Pair, stored: Option<Bytes>, la: Cuts, lb: Cuts)
    requires p.ab != [] && TooBig(p.ab[|p.ab| - 1]) && CutsOk(p, la)
    ensures Healed(Act(a, b, p, Bounce(stored)), la, lb) == Healed(p, la, lb)
  {
    hide CutsOk, Rewound, Unstore, Kept;
    LastIsDropped(p, la);
    UnstoreRewound(p.sa, p.ab[|p.ab| - 1].convo, stored, la);
  }

  /** Once the healed pair has a conversation, it has connected clients. */
  lemma ConvosAreLinked(a: string, b: string, q: Pair, x: string)
    requires Synchronised(a, b, q) && (x in q.sa.convos || x in q.sb.convos)
    ensures Linked(a, b, q)
  {
  }

  lemma {:induction false} FirstIsThere(es: seq<Mail>, x: string)
    ensures FirstOf(es, x).Some? ==> exists e :: e in es && Hit(e, x)
    decreases |es|
  {
    if es != [] && !Hit(es[0], x) {
      FirstIsThere(es[1..], x);
    } else if es != [] {
      assert es[0] in es;
    }
  }

  /** If everything on its way of a conversation is dropped, the healed pair does not open it. */
  lemma NoneKept(es: seq<Mail>, x: string, cuts: Cuts, hi: nat)
    requires es != [] && Dropped(es[0], cuts) && es[0].convo == x
    requires Rising(es, x, Index(es[0].content.state), hi)
    ensures FirstOf(Kept(es, cuts), x) == None
  {
    FirstIsThere(Kept(es, cuts), x);
    if FirstOf(Kept(es, cuts), x).Some? {
      var e :| e in Kept(es, cuts) && Hit(e, x);
      KeptMembers(es, cuts, e);
      RisingWithin(es, x, Index(es[0].content.state), hi);
      assert false;
    }
  }

  lemma LinkedKnows(a: string, b: string, q: Pair, x: string)
    requires Linked(a, b, q) && x in q.sb.convos && FirstOf(q.ba, x) == None
    ensures x in q.sa.convos && q.sa.contact.ContactAdded?
  {
    hide Deliver, InStep, AllAccepted;
    SwapLinkedPair(a, b, q);
    PrefixDelivery(b, a, q.Swap(), x);
  }

  /** A message from after a cut finds its conversation, ... */
  lemma DroppedIsKnown(a: string, b: string, p: Pair, la: Cuts, lb: Cuts)
    requires Synchronised(a, b, Healed(p, la, lb)) && CutsOk(p.Swap(), lb)
    requires p.ba != [] && Dropped(p.ba[0], lb) && Numbered(p.Swap(), p.ba[0].convo)
    ensures p.sa.contact.ContactAdded? && p.ba[0].convo in p.sa.convos
  {
    hide Synchronised, Linked, Kept;
    var q, x := Healed(p, la, lb), p.ba[0].convo;
    assert CutOk(p.sb, p.sa, p.ba, x, lb[x]);
    assert x in q.sb.convos;
    ConvosAreLinked(a, b, q, x);
    NoneKept(p.ba, x, lb, Sent(p.sb, x));
    LinkedKnows(a, b, q, x);
  }

  lemma SwapLinkedPair(a: string, b: string, q: Pair)
    requires Linked(a, b, q)
    ensures Linked(b, a, q.Swap())
  {
    SwapInStep(Deliver(a, b, q.sa, q.ba), Deliver(b, a, q.sb, q.ab));
  }

  /** ... which rejects it and stays as it is. */
  lemma DroppedIsRejected(a: string, b: string, p: Pair, la: Cuts, lb: Cuts)
    requires Synchronised(a, b, Healed(p, la, lb)) && CutsOk(p.Swap(), lb)
    requires p.ba != [] && Dropped(p.ba[0], lb) && !TooBig(p.ba[0]) && Numbered(p.Swap(), p.ba[0].convo)
    ensures Take(a, b, p.sa, p.ba[0]) == (p.sa, Rejected)
  {
    hide Synchronised, Take, Healed;
    var e := p.ba[0];
    DroppedIsKnown(a, b, p, la, lb);
    assert CutOk(p.sb, p.sa, p.ba, e.convo, lb[e.convo]);
    assert e in p.ba;
    LaterIsRejected(a, b, p.sa, e);
  }

  lemma LaterIsRejected(me: string, peer: string, side: Side, e: Mail)
    requires side.contact.ContactAdded? && e.convo in side.convos
    requires e.content.Ct? && Index(e.content.state) > Index(side.convos[e.convo].c2)
    ensures Take(me, peer, side, e) == (side, Rejected)
  {
  }

  lemma CollectHeals(a: string, b: string, p: Pair, la: Cuts, lb: Cuts)
    requires Synchronised(a, b, Healed(p, la, lb)) && CutsOk(p, la) && CutsOk(p.Swap(), lb)
    requires p.ba != [] && !TooBig(p.ba[0]) && Numbered(p.Swap(), p.ba[0].convo)
    ensures
      var q, p' := Healed(p, la, lb), Act(a, b, p, Collect);
      if Dropped(p.ba[0], lb) then Healed(p', la, lb) == q
      else q.ba != [] && Healed(p', la, lb) == Act(a, b, q, Collect)
  {
    hide Take, Synchronised;
    if Dropped(p.ba[0], lb) {
      DroppedIsRejected(a, b, p, la, lb);
    } else {
      CutsKnown(p, la);
      TakeRewound(a, b, p.sa, p.ba[0], la);
      assert Kept(p.ba, lb) == [p.ba[0]] + Kept(p.ba[1..], lb);
    }
  }

  /** Every such move leaves the healed pair synchronised. */
  lemma MoveKeepsHealed(a: string, b: string, p: Pair, m: Move, la: Cuts, lb: Cuts)
    requires IsAddress(a) && IsAddress(b) && Confined(a, b, p, la, lb) && AllNumbers(p)
    requires Enabled(p, m) && Manageable(p, m)
    ensures Synchronised(a, b, Healed(Act(a, b, p, m), CutsAfter(p, m, la), lb))
  {
    hide Act, Synchronised, Healed;
    var q := Healed(p, la, lb);
    match m
    case Say(x, _, _) =>
      assert Numbered(p, x);
      SayHeals(a, b, p, m, la, lb);
      if Shown(p, m, la, lb) { MoveKeeps(a, b, q, m); }
    case Add(_, _) =>
      AskHeals(a, b, p, m, la, lb);
      MoveKeeps(a, b, q, m);
    case Accept(_, _) =>
      AskHeals(a, b, p, m, la, lb);
      MoveKeeps(a, b, q, m);
    case Collect =>
      assert Numbered(p.Swap(), p.ba[0].convo);
      CollectHeals(a, b, p, la, lb);
      if !Dropped(p.ba[0], lb) { MoveKeeps(a, b, q, m); }
    case Bounce(stored) =>
      BounceHeals(a, b, p, stored, la, lb);
  }

  // ----- One move, seen by the cuts -----

  lemma AppendKeepsMail(ab: seq<Mail>, e: Mail, la: Cuts)
    requires MailOk(ab, la)
    requires TooBig(e) ==> Dropped(e, la)
    requires Dropped(e, la) && Index(e.content.state) == la[e.convo].number ==> TooBig(e)
    ensures MailOk(ab + [e], la)
  {
  }

  /** A new cut is at the message after all those on their way. */
  lemma NewCutKeepsMail(ab: seq<Mail>, la: Cuts, x: string, cut: Cut)
    requires MailOk(ab, la) && x !in la && forall e :: e in ab && Hit(e, x) ==> Index(e.content.state) < cut.number
    ensures MailOk(ab, la[x := cut])
    ensures Doomed(ab, x) == 0
  {
    NoneDoomed(ab, la, x);
  }

  lemma {:induction false} NoneDoomed(ab: seq<Mail>, la: Cuts, x: string)
    requires MailOk(ab, la) && x !in la
    ensures Doomed(ab, x) == 0
    decreases |ab|
  {
    if ab != [] {
      assert ab[|ab| - 1] in ab;
      NoneDoomed(ab[..|ab| - 1], la, x);
    }
  }

  /** What a send in a known conversation does to its row and its channel. */
  ghost predicate OneMore(p: Pair, p': Pair, x: string, content: Bytes) {
    && x in p.sa.convos && x in p'.sa.convos && p'.sa.convos.Keys == p.sa.convos.Keys
    && p'.sb == p.sb && p'.ba == p.ba && |p'.ab| == |p.ab| + 1 && p'.ab == p.ab + [p'.ab[|p.ab|]]
    && (forall y :: y in p.sa.convos && y != x ==> p'.sa.convos[y] == p.sa.convos[y])
    && Sent(p'.sa, x) == Sent(p.sa, x) + 1 && |p'.sa.convos[x].sent| == |p.sa.convos[x].sent| + 1
    && var e := p'.ab[|p.ab|];
    && Hit(e, x) && Index(e.content.state) == Sent(p.sa, x) && (TooBig(e) <==> !Fits(content))
  }

  lemma KnownSend(a: string, b: string, p: Pair, x: string, content: Bytes, random: Bytes)
    requires x != "" && Enabled(p, Say(x, content, random)) && SendMessage(a, p.sa, b, x, content, random).Ready?
    ensures OneMore(p, Act(a, b, p, Say(x, content, random)), x, content)
  {
    hide SendMessage;
    SayIs(a, b, p, x, content, random);
    KnownSendWrites(a, p.sa, b, x, content, random);
    assert Act(a, b, p, Say(x, content, random)).sa.convos.Keys == p.sa.convos.Keys;
  }

  lemma KnownSendWrites(a: string, side: Side, b: string, x: string, content: Bytes, random: Bytes)
    requires x != "" && SendMessage(a, side, b, x, content, random).Ready?
    ensures
      var o := SendMessage(a, side, b, x, content, random);
      && x in side.convos && o.request.convo == x
      && o.request.content.Ct? && o.request.content.state == side.convos[x].c1 && o.request.content.Size() == |content| + 16
      && var c := side.convos[x];
      var c' := AfterMsg(c.c1, o.request.content.ad, content);
      After(o) == Side(side.contact, side.convos[x := c.(c1 := c', sent := c.sent + [content])])
  {
    AfterData(a, side, b, x, content);
  }

  lemma OneMoreKeepsCuts(p: Pair, p': Pair, x: string, content: Bytes, la: Cuts)
    requires CutsOk(p, la) && OneMore(p, p', x, content) && (x in la || Fits(content))
    ensures CutsOk(p', la)
  {
    var e := p'.ab[|p.ab|];
    forall y | y in la ensures CutOk(p'.sa, p'.sb, p'.ab, y, la[y]) {
      assert CutOk(p.sa, p.sb, p.ab, y, la[y]);
      DoomedAppend(p.ab, e, y);
    }
    if x in la { assert CutOk(p.sa, p.sb, p.ab, x, la[x]); }
    AppendKeepsMail(p.ab, e, la);
  }

  lemma CuttingKeepsCuts(p: Pair, p': Pair, x: string, content: Bytes, la: Cuts)
    requires CutsOk(p, la) && OneMore(p, p', x, content) && x !in la && !Fits(content) && Numbered(p, x)
    ensures CutsOk(p', la[x := Cut(Sent(p.sa, x), |p.sa.convos[x].sent|)])
  {
    var e, cut := p'.ab[|p.ab|], Cut(Sent(p.sa, x), |p.sa.convos[x].sent|);
    var la' := la[x := cut];
    RisingWithin(p.ab, x, Heard(p.sb, x), Sent(p.sa, x));
    NewCutKeepsMail(p.ab, la, x, cut);
    AppendKeepsMail(p.ab, e, la');
    forall y | y in la' ensures CutOk(p'.sa, p'.sb, p'.ab, y, la'[y]) {
      if y != x { assert CutOk(p.sa, p.sb, p.ab, y, la[y]); }
      DoomedAppend(p.ab, e, y);
    }
  }

  /** Over-long content in a known conversation gets as far as the hub. */
  lemma CuttingIsReady(a: string, b: string, p: Pair, m: Move, la: Cuts, lb: Cuts)
    requires IsAddress(b) && Synchronised(a, b, Healed(p, la, lb)) && Cutting(p, m, la)
    ensures SendMessage(a, p.sa, b, m.x, m.content, m.random).Ready? && !Fits(m.content)
  {
    var q := Healed(p, la, lb);
    assert m.x in q.sa.convos;
    ConvosAreLinked(a, b, q, m.x);
    KnownIdsAreLong(a, b, q, m.x);
  }

  lemma SayKeepsCuts(a: string, b: string, p: Pair, m: Move, la: Cuts, lb: Cuts)
    requires IsAddress(b) && Confined(a, b, p, la, lb)
    requires m.Say? && Enabled(p, m) && Manageable(p, m) && Numbered(p, m.x)
    ensures CutsOk(Act(a, b, p, m), CutsAfter(p, m, la))
  {
    hide SendMessage, Synchronised, Act, CutsOk, OneMore;
    var Say(x, content, random) := m;
    var o, p' := SendMessage(a, p.sa, b, x, content, random), Act(a, b, p, m);
    SayIs(a, b, p, x, content, random);
    if Cutting(p, m, la) {
      CuttingIsReady(a, b, p, m, la, lb);
      KnownSend(a, b, p, x, content, random);
      CuttingKeepsCuts(p, p', x, content, la);
    } else if o.Ready? && x != "" {
      KnownSend(a, b, p, x, content, random);
      SendHasShape(a, p.sa, b, x, content, random);
      OneMoreKeepsCuts(p, p', x, content, la);
    } else {
      TitleKeepsCuts(a, b, p, m, la);
    }
  }

  /** A title that fits, or a send that fails. */
  lemma TitleKeepsCuts(a: string, b: string, p: Pair, m: Move, la: Cuts)
    requires CutsOk(p, la) && m.Say? && Enabled(p, m) && Manageable(p, m)
    requires m.x == "" || SendMessage(a, p.sa, b, m.x, m.content, m.random).Failed?
    ensures CutsOk(Act(a, b, p, m), la)
  {
    var o := SendMessage(a, p.sa, b, m.x, m.content, m.random);
    var y := Encode(m.random);
    SayIs(a, b, p, m.x, m.content, m.random);
    var p' := Act(a, b, p, m);
    if o.Ready? {
      var e := Envelope(a, o.request.convo, o.request.content);
      SendHasShape(a, p.sa, b, m.x, m.content, m.random);
      AppendKeepsMail(p.ab, e, la);
      SendWritesOne(a, p.sa, b, m.x, m.content, m.random);
      forall x | x in la ensures CutOk(p'.sa, p'.sb, p'.ab, x, la[x]) {
        assert CutOk(p.sa, p.sb, p.ab, x, la[x]);
        DoomedAppend(p.ab, e, x);
      }
    } else {
      FailedLeavesRows(a, p.sa, b, m.x, m.content, m.random);
      forall x | x in la ensures CutOk(p'.sa, p'.sb, p'.ab, x, la[x]) {
        assert CutOk(p.sa, p.sb, p.ab, x, la[x]);
      }
    }
  }

  lemma FailedLeavesRows(a: string, side: Side, b: string, x: string, content: Bytes, random: Bytes)
    requires SendMessage(a, side, b, x, content, random).Failed? && (x == "" ==> Encode(random) !in side.convos)
    ensures
      var side' := After(SendMessage(a, side, b, x, content, random));
      forall y :: y in side.convos ==> y in side'.convos && side'.convos[y] == side.convos[y]
  {
  }

  /** The receiver's count stays below the lost message's number. */
  lemma CollectKeepsTheirCuts(a: string, b: string, p: Pair, lb: Cuts)
    requires CutsOk(p.Swap(), lb) && p.ba != [] && !TooBig(p.ba[0])
    ensures CutsOk(Act(a, b, p, Collect).Swap(), lb)
  {
    hide Take;
    var p' := Act(a, b, p, Collect);
    var e := p.ba[0];
    assert e in p.ba;
    forall x | x in lb ensures CutOk(p'.sb, p'.sa, p'.ba, x, lb[x]) {
      assert CutOk(p.sb, p.sa, p.ba, x, lb[x]);
      TakeHears(a, b, p.sa, e, x);
      DoomedTail(p.ba, x);
    }
  }

  lemma CollectKeepsOurCuts(a: string, b: string, p: Pair, la: Cuts)
    requires CutsOk(p, la) && p.ba != []
    ensures CutsOk(Act(a, b, p, Collect), la)
  {
    hide Take;
    var p' := Act(a, b, p, Collect);
    forall x | x in la ensures CutOk(p'.sa, p'.sb, p'.ab, x, la[x]) {
      assert CutOk(p.sa, p.sb, p.ab, x, la[x]);
      TakeHears(a, b, p.sa, p.ba[0], x);
      TakeKeepsSentRow(a, b, p.sa, p.ba[0], x);
    }
  }

  lemma TakeKeepsSentRow(me: string, peer: string, side: Side, e: Mail, x: string)
    requires x in side.convos
    ensures x in Take(me, peer, side, e).0.convos && Take(me, peer, side, e).0.convos[x].sent == side.convos[x].sent
  {
  }

  lemma BounceKeepsCuts(a: string, b: string, p: Pair, stored: Option<Bytes>, la: Cuts)
    requires CutsOk(p, la) && p.ab != [] && TooBig(p.ab[|p.ab| - 1])
    ensures CutsOk(Act(a, b, p, Bounce(stored)), la)
  {
    var p' := Act(a, b, p, Bounce(stored));
    var e := p.ab[|p.ab| - 1];
    assert p.ab == p'.ab + [e];
    UnstoreKeeps(p.sa, e.convo, stored);
    forall x | x in la ensures CutOk(p'.sa, p'.sb, p'.ab, x, la[x]) {
      assert CutOk(p.sa, p.sb, p.ab, x, la[x]);
      DoomedAppend(p'.ab, e, x);
      UnstoreCounts(p.sa, e.convo, stored, x);
    }
  }

  lemma UnstoreKeeps(side: Side, y: string, stored: Option<Bytes>)
    ensures
      var side' := Unstore(side, y, stored);
      && side'.convos.Keys == side.convos.Keys
      && forall x :: x in side.convos ==>
           |side'.convos[x].sent| + (if x == y then 1 else 0) >= |side.convos[x].sent|
  {
    assert Unstore(side, y, stored).convos.Keys == side.convos.Keys;
  }

  lemma AskKeepsCuts(a: string, b: string, p: Pair, m: Move, la: Cuts)
    requires CutsOk(p, la) && (m.Add? || m.Accept?)
    ensures CutsOk(Act(a, b, p, m), la)
  {
    var p' := Act(a, b, p, m);
    if p'.ab != p.ab {
      var e := p'.ab[|p.ab|];
      assert p'.ab == p.ab + [e] && !e.content.Ct?;
      AppendKeepsMail(p.ab, e, la);
      forall x | x in la ensures CutOk(p'.sa, p'.sb, p'.ab, x, la[x]) {
        assert CutOk(p.sa, p.sb, p.ab, x, la[x]);
        DoomedAppend(p.ab, e, x);
      }
    }
  }

  /** Nothing but a receive changes what we have heard of the other's cuts. */
  lemma OthersKeepTheirCuts(a: string, b: string, p: Pair, m: Move, lb: Cuts)
    requires CutsOk(p.Swap(), lb) && Enabled(p, m) && Manageable(p, m) && !m.Collect?
    ensures CutsOk(Act(a, b, p, m).Swap(), lb)
  {
    var p' := Act(a, b, p, m);
    forall x | x in lb ensures CutOk(p'.sb, p'.sa, p'.ba, x, lb[x]) {
      assert CutOk(p.sb, p.sa, p.ba, x, lb[x]);
      match m
      case Say(_, _, _) => SayCounts(a, b, p, m, x);
      case Bounce(stored) => UnstoreCounts(p.sa, p.ab[|p.ab| - 1].convo, stored, x);
      case _ =>
    }
  }

  /**
    Every move of either client, over-long messages and their refusal included,
    leaves the two synchronised but for the cuts.
    */
  lemma MoveKeepsConfined(a: string, b: string, p: Pair, m: Move, la: Cuts, lb: Cuts)
    requires IsAddress(a) && IsAddress(b) && Confined(a, b, p, la, lb) && AllNumbers(p)
    requires Enabled(p, m) && Manageable(p, m)
    ensures Confined(a, b, Act(a, b, p, m), CutsAfter(p, m, la), lb)
  {
    hide Synchronised, Healed, CutsOk, Act, Cutting;
    MoveKeepsHealed(a, b, p, m, la, lb);
    if m.Collect? { CollectKeepsTheirCuts(a, b, p, lb); } else { OthersKeepTheirCuts(a, b, p, m, lb); }
    OurCutsKept(a, b, p, m, la, lb);
  }

  lemma OurCutsKept(a: string, b: string, p: Pair, m: Move, la: Cuts, lb: Cuts)
    requires IsAddress(b) && Confined(a, b, p, la, lb) && AllNumbers(p)
    requires Enabled(p, m) && Manageable(p, m)
    ensures CutsOk(Act(a, b, p, m), CutsAfter(p, m, la))
  {
    hide Synchronised, Healed, CutsOk, Act;
    match m
    case Say(x, _, _) =>
      assert Numbered(p, x);
      SayKeepsCuts(a, b, p, m, la, lb);
    case Collect => CollectKeepsOurCuts(a, b, p, la);
    case Bounce(stored) => BounceKeepsCuts(a, b, p, stored, la);
    case _ => AskKeepsCuts(a, b, p, m, la);
  }

  // ----- What is left of delivery -----

  lemma {:induction false} KeptShowsOthers(me: string, peer: string, es: seq<Mail>, cuts: Cuts, x: string, known: bool, s: State)
    requires x !in cuts
    ensures DataOf(Kept(es, cuts), x, known) == DataOf(es, x, known)
    ensures FirstOf(Kept(es, cuts), x) == FirstOf(es, x)
    ensures Follow(me, peer, s, Kept(es, cuts), x) == Follow(me, peer, s, es, x)
    decreases |es|
  {
    if es != [] {
      var e, rest := es[0], Kept(es[1..], cuts);
      var d := if e.convo == x then Decrypt(me, s, x, peer, e.content) else None;
      KeptShowsOthers(me, peer, es[1..], cuts, x, known || (e.convo == x && e.content.Ct?), if d.Some? then d.value.1 else s);
      if Dropped(e, cuts) {
        assert Kept(es, cuts) == rest;
      } else {
        assert Kept(es, cuts)[0] == e && Kept(es, cuts)[1..] == rest;
      }
    }
  }

  /** In a conversation a has not cut, everything is as between synchronised clients. */
  lemma UncutDelivery(a: string, b: string, p: Pair, la: Cuts, lb: Cuts, x: string)
    requires Confined(a, b, p, la, lb) && x !in la
    ensures SentOf(p.sa, x) == GotOf(p.sb, x) + DataOf(p.ab, x, x in p.sb.convos)
    ensures x in p.sa.convos && x in p.sb.convos ==> p.sa.convos[x].title == p.sb.convos[x].title
    ensures x in p.sa.convos && x !in p.sb.convos ==> FirstOf(p.ab, x) == Some(p.sa.convos[x].title)
  {
    hide Synchronised, Linked;
    var q := Healed(p, la, lb);
    assert q.sa.convos.Keys == p.sa.convos.Keys && q.sb.convos.Keys == p.sb.convos.Keys;
    KeptShowsOthers(b, a, p.ab, la, x, x in p.sb.convos, Root(Session("", "", 0, 0), true));
    if Linked(a, b, q) {
      PrefixDelivery(a, b, q, x);
    } else {
      NothingBeforeLinked(a, b, q, x);
      assert x !in q.sa.convos && x !in q.sb.convos;
    }
  }

  /** Its receive state follows what is on its way to its send state. */
  lemma UncutSession(a: string, b: string, p: Pair, la: Cuts, lb: Cuts, x: string)
    requires Confined(a, b, p, la, lb) && x !in la && x in p.sa.convos && x in p.sb.convos
    ensures Follow(b, a, p.sb.convos[x].c2, p.ab, x) == p.sa.convos[x].c1
  {
    hide Synchronised, Linked;
    var q := Healed(p, la, lb);
    assert q.sa.convos.Keys == p.sa.convos.Keys && q.sb.convos.Keys == p.sb.convos.Keys;
    ConvosAreLinked(a, b, q, x);
    HasConvoIsAdded(a, b, q, x);
    SessionsInStep(a, b, q, x);
    KeptShowsOthers(b, a, p.ab, la, x, true, p.sb.convos[x].c2);
  }

  /** The first message of x on its way, if any, is from before the cut. */
  predicate Led(es: seq<Mail>, cuts: Cuts, x: string)
    decreases |es|
  {
    es == [] || (if Hit(es[0], x) then !Dropped(es[0], cuts) else Led(es[1..], cuts, x))
  }

  lemma {:induction false} OpenedIsLed(es: seq<Mail>, cuts: Cuts, x: string, lo: nat, hi: nat)
    requires Rising(es, x, lo, hi) && FirstOf(Kept(es, cuts), x).Some?
    ensures Led(es, cuts, x)
    decreases |es|
  {
    if es != [] {
      if Hit(es[0], x) {
        if Dropped(es[0], cuts) {
          NoneKept(es, x, cuts, hi);
          assert false;
        }
      } else {
        if Dropped(es[0], cuts) {
          assert Kept(es, cuts) == Kept(es[1..], cuts);
        } else {
          assert Kept(es, cuts)[1..] == Kept(es[1..], cuts);
        }
        OpenedIsLed(es[1..], cuts, x, lo, hi);
      }
    }
  }

  lemma {:induction false} KeptOpenings(es: seq<Mail>, cuts: Cuts, known: set<string>)
    requires forall x :: x in cuts ==> x in known || Led(es, cuts, x)
    ensures Openings(Kept(es, cuts), known) == Openings(es, known)
    decreases |es|
  {
    if es != [] {
      var e, rest := es[0], Kept(es[1..], cuts);
      if Dropped(e, cuts) {
        assert Hit(e, e.convo);
        assert Kept(es, cuts) == rest;
        KeptOpenings(es[1..], cuts, known);
      } else {
        assert Kept(es, cuts)[0] == e && Kept(es, cuts)[1..] == rest;
        KeptOpenings(es[1..], cuts, if e.content.Ct? then known + {e.convo} else known);
        assert e.convo in known ==> known + {e.convo} == known;
      }
    }
  }

  lemma CutIsLed(a: string, b: string, p: Pair, la: Cuts, lb: Cuts, x: string)
    requires Confined(a, b, p, la, lb) && x in la && Numbered(p, x)
    ensures x in p.sb.convos || Led(p.ab, la, x)
  {
    hide Synchronised, Linked;
    var q := Healed(p, la, lb);
    RewoundShows(p, la, lb, x);
    ConvosAreLinked(a, b, q, x);
    PrefixDelivery(a, b, q, x);
    if x !in p.sb.convos {
      OpenedIsLed(p.ab, la, x, Heard(p.sb, x), Sent(p.sa, x));
    }
  }

  /** The cuts leave the threads alone. */
  lemma CutThreads(a: string, b: string, p: Pair, la: Cuts, lb: Cuts)
    requires Confined(a, b, p, la, lb) && AllNumbers(p)
    requires p.sa.contact.ContactAdded? && p.sb.contact.ContactAdded?
    ensures p.sa.contact.c1 == RatchetTimes(p.sb.contact.c2, Openings(p.ab, p.sb.convos.Keys))
  {
    hide Synchronised, Linked;
    var q := Healed(p, la, lb);
    forall x | x in la ensures x in p.sb.convos.Keys || Led(p.ab, la, x) {
      assert Numbered(p, x);
      CutIsLed(a, b, p, la, lb, x);
    }
    assert q.sb.convos.Keys == p.sb.convos.Keys;
    KeptOpenings(p.ab, la, p.sb.convos.Keys);
    AddedAreLinked(a, b, q);
    ThreadsInStep(a, b, q);
  }

  lemma AddedAreLinked(a: string, b: string, q: Pair)
    requires Synchronised(a, b, q) && q.sa.contact.ContactAdded?
    ensures Linked(a, b, q)
  {
  }

  /** A message of an uncut conversation is accepted. */
  lemma UncutIsAccepted(a: string, b: string, p: Pair, la: Cuts, lb: Cuts)
    requires Confined(a, b, p, la, lb) && p.ab != [] && p.ab[0].content.Ct? && p.ab[0].convo !in la
    ensures p.sb.contact.ContactAdded?
    ensures Take(b, a, p.sb, p.ab[0]).1 ==
      if p.ab[0].convo in p.sb.convos then Delivered(p.ab[0].content.plaintext) else Opened(p.ab[0].content.plaintext)
  {
    hide Take, Synchronised, Rewound;
    var q := Healed(p, la, lb);
    assert q.ab[0] == p.ab[0];
    CutsKnown(p.Swap(), lb);
    AcceptedData(a, b, q);
    TakeRewound(b, a, p.sb, p.ab[0], lb);
    RewoundKeys(p.sb, lb);
  }

  lemma RewoundKeys(side: Side, cuts: Cuts)
    ensures Rewound(side, cuts).convos.Keys == side.convos.Keys && Rewound(side, cuts).contact == side.contact
  {
  }

  lemma HasConvoIsAdded(a: string, b: string, q: Pair, x: string)
    requires Linked(a, b, q) && x in q.sb.convos
    ensures q.sb.contact.ContactAdded?
  {
  }

  /** In one it has cut, what it had stored by then arrives, and nothing else. */
  lemma CutDelivery(a: string, b: string, p: Pair, la: Cuts, lb: Cuts, x: string)
    requires Confined(a, b, p, la, lb) && x in la
    ensures x in p.sa.convos && la[x].kept <= |SentOf(p.sa, x)|
    ensures SentOf(p.sa, x)[..la[x].kept] == GotOf(p.sb, x) + DataOf(Kept(p.ab, la), x, x in p.sb.convos)
  {
    hide Synchronised, Linked;
    var q := Healed(p, la, lb);
    RewoundShows(p, la, lb, x);
    ConvosAreLinked(a, b, q, x);
    PrefixDelivery(a, b, q, x);
  }

  lemma RewoundShows(p: Pair, la: Cuts, lb: Cuts, x: string)
    requires CutsOk(p, la) && x in la
    ensures x in p.sa.convos && la[x].kept <= |SentOf(p.sa, x)|
    ensures
      var q := Healed(p, la, lb);
      && q.sa.convos.Keys == p.sa.convos.Keys && q.sb.convos.Keys == p.sb.convos.Keys
      && SentOf(q.sa, x) == SentOf(p.sa, x)[..la[x].kept] && GotOf(q.sb, x) == GotOf(p.sb, x)
  {
    assert CutOk(p.sa, p.sb, p.ab, x, la[x]);
  }

  /** Either way, what b has stored is a beginning of what a has sent. */
  lemma StoredIsPrefix(a: string, b: string, p: Pair, la: Cuts, lb: Cuts, x: string)
    requires Confined(a, b, p, la, lb)
    ensures GotOf(p.sb, x) <= SentOf(p.sa, x)
  {
    hide Confined, Kept;
    var got, sent := GotOf(p.sb, x), SentOf(p.sa, x);
    if x in la {
      CutDelivery(a, b, p, la, lb, x);
      var more := DataOf(Kept(p.ab, la), x, x in p.sb.convos);
      assert sent == (got + more) + sent[la[x].kept..];
    } else {
      UncutDelivery(a, b, p, la, lb, x);
    }
  }

  lemma StrangersAreConfined(a: string, b: string)
    ensures Confined(a, b, Pair(EMPTY, EMPTY, [], []), map[], map[])
  {
    var p := Pair(EMPTY, EMPTY, [], []);
    assert Healed(p, map[], map[]).sa.convos == map[] && Healed(p, map[], map[]).sb.convos == map[];
    assert Idle(Healed(p, map[], map[]));
  }
}
