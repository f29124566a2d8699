/**
  No data before readiness. That a client only ever receives data from a
  completed contact needs nothing of the sizes of messages: it holds between any
  two clients as long as neither has mistyped the other's address.
  */
module Readiness {
  import opened Hex
  import opened Crypto
  import opened Peer
  import opened Pair
  import opened Sync
  import opened Reduction
  import opened Runs
  import N = Network

  // ----- One pair -----

  predicate OnlyData(es: seq<Mail>) {
    forall e :: e in es ==> e.content.Ct?
  }

  /** A completed contact with data on its way, or one that the first message on its way completes. */
  predicate Completing(side: Side, es: seq<Mail>) {
    if side.contact.ContactAdded? then OnlyData(es)
    else
      && side.contact.WaitingForAccept? && side.convos == map[]
      && es != [] && FinishHandshake(side.contact.hs, es[0].content).Some? && OnlyData(es[1..])
  }

  predicate Joined(p: Pair) {
    && (p.sa.contact.ContactAdded? || p.sb.contact.ContactAdded?)
    && Completing(p.sa, p.ba) && Completing(p.sb, p.ab)
  }

  /** The phases of a contact, whatever has become of conversations. */
  predicate InPhase(a: string, b: string, p: Pair) {
    Idle(p) || Asked(a, b, p) || Asked(b, a, p.Swap()) || Crossing(p) || Joined(p)
  }

  lemma {:induction false} AcceptedIsData(me: string, peer: string, side: Side, es: seq<Mail>)
    requires side.contact.ContactAdded? && AllAccepted(me, peer, side, es)
    ensures OnlyData(es)
    decreases |es|
  {
    if es != [] {
      TakeJoins(me, peer, side, es[0]);
      AcceptedIsData(me, peer, Take(me, peer, side, es[0]).0, es[1..]);
      assert es == [es[0]] + es[1..];
    }
  }

  lemma AcceptedCompletes(me: string, peer: string, side: Side, es: seq<Mail>)
    requires Joining(side) && AllAccepted(me, peer, side, es)
    requires side.contact.ContactAdded? || Deliver(me, peer, side, es).contact.ContactAdded?
    ensures Completing(side, es)
  {
    if side.contact.ContactAdded? {
      AcceptedIsData(me, peer, side, es);
    } else {
      TakeJoins(me, peer, side, es[0]);
      AcceptedIsData(me, peer, Take(me, peer, side, es[0]).0, es[1..]);
    }
  }

  lemma SynchronisedIsInPhase(a: string, b: string, p: Pair)
    requires Synchronised(a, b, p)
    ensures InPhase(a, b, p)
  {
    if Linked(a, b, p) {
      AcceptedCompletes(a, b, p.sa, p.ba);
      AcceptedCompletes(b, a, p.sb, p.ab);
    }
  }

  /** A message the hub refuses is a ciphertext: handshake messages are short. */
  predicate Refusable(p: Pair, m: Move) {
    match m
    case Stray(_) => false
    case Bounce(_) => p.ab != [] && p.ab[|p.ab| - 1].content.Ct?
    case _ => true
  }

  lemma SayKeepsJoined(a: string, b: string, p: Pair, x: string, content: Bytes, random: Bytes)
    requires Joined(p) && Enabled(p, Say(x, content, random))
    ensures Joined(Act(a, b, p, Say(x, content, random)))
  {
    hide SendMessage;
    var o := SendMessage(a, p.sa, b, x, content, random);
    SendHasShape(a, p.sa, b, x, content, random);
    if o.Ready? {
      assert p.sa.contact.ContactAdded?;
    }
  }

  lemma CollectKeepsJoined(a: string, b: string, p: Pair)
    requires Joined(p) && p.ba != []
    ensures Joined(Act(a, b, p, Collect))
  {
    hide ReceiveTitle, ReceiveData;
    assert p.ba == [p.ba[0]] + p.ba[1..];
    ReceiveHasShape(a, b, p.sa, p.ba[0], p.ba[0].convo in p.sa.convos);
  }

  lemma BounceKeepsJoined(a: string, b: string, p: Pair, stored: Option<Bytes>)
    requires Joined(p) && Refusable(p, Bounce(stored))
    ensures Joined(Act(a, b, p, Bounce(stored)))
  {
    var q := Act(a, b, p, Bounce(stored));
    assert forall i :: 0 <= i < |q.ab| ==> q.ab[i] == p.ab[i];
    if q.ab != [] {
      assert q.ab[1..] == p.ab[1..][..|q.ab| - 1];
    }
  }

  lemma MoveKeepsJoined(a: string, b: string, p: Pair, m: Move)
    requires Joined(p) && Enabled(p, m) && Refusable(p, m)
    ensures Joined(Act(a, b, p, m))
  {
    match m
    case Say(x, content, random) => SayKeepsJoined(a, b, p, x, content, random);
    case Collect => CollectKeepsJoined(a, b, p);
    case Bounce(stored) => BounceKeepsJoined(a, b, p, stored);
    case _ =>
  }

  /** Whatever either client sends, however long, the two stay in one of the phases. */
  lemma MoveKeepsPhase(a: string, b: string, p: Pair, m: Move)
    requires IsAddress(a) && IsAddress(b) && InPhase(a, b, p)
    requires Enabled(p, m) && Refusable(p, m)
    ensures InPhase(a, b, Act(a, b, p, m))
  {
    hide Joined, Act;
    if Joined(p) {
      MoveKeepsJoined(a, b, p, m);
    } else {
      NothingToLose(a, b, p, m);
      MoveKeeps(a, b, p, m);
      SynchronisedIsInPhase(a, b, Act(a, b, p, m));
    }
  }

  lemma NothingToLose(a: string, b: string, p: Pair, m: Move)
    requires InPhase(a, b, p) && !Joined(p) && Enabled(p, m) && Refusable(p, m)
    ensures Synchronised(a, b, p) && Sound(p, m)
  {
  }

  lemma SwapPhase(a: string, b: string, p: Pair)
    requires InPhase(a, b, p)
    ensures InPhase(b, a, p.Swap())
  {
  }

  lemma DataMeetsCompleted(a: string, b: string, p: Pair)
    requires InPhase(a, b, p) && p.ab != [] && p.ab[0].content.Ct?
    ensures p.sb.contact.ContactAdded?
  {
  }

  lemma CompletedDiscardsNothing(me: string, peer: string, side: Side, e: Mail, known: bool)
    requires side.contact.ContactAdded?
    ensures Receive(me, peer, side, e, known).1 != Discarded
  {
  }

  // ----- Every run -----

  /** Neither of the two has asked the other under a mistyped address. */
  ghost predicate WellAddressed(w: N.World, a: string, b: string) {
    && a in w.nodes && b in w.nodes && a != b
    && N.Mistyped(a, b) !in w.damage && N.Mistyped(b, a) !in w.damage
  }

  ghost predicate AllInPhase(w: N.World) {
    forall a, b :: WellAddressed(w, a, b) ==> InPhase(a, b, View(w, a, b))
  }

  lemma WellAddressedBefore(w: N.World, s: N.Step, a: string, b: string)
    requires N.Good(w) && N.Enabled(w, s) && WellAddressed(N.Next(w, s), a, b)
    ensures WellAddressed(w, a, b)
  {
    hide N.Next;
    N.NextKeepsGood(w, s);
  }

  lemma EffectIsRefusable(w: N.World, s: N.Step, b: string)
    requires N.Good(w) && N.Enabled(w, s) && b in w.nodes && b != s.who
    requires WellAddressed(N.Next(w, s), s.who, b) && Effect(w, s, b).Some?
    ensures Refusable(View(w, s.who, b), Effect(w, s, b).value)
  {
    assert N.GoodNode(w, s.who, w.nodes[s.who]);
  }

  lemma PairStaysInPhase(w: N.World, s: N.Step, a: string, b: string)
    requires N.Good(w) && N.Enabled(w, s) && WellAddressed(w, a, b) && WellAddressed(N.Next(w, s), a, b)
    requires InPhase(a, b, View(w, a, b))
    ensures InPhase(a, b, View(N.Next(w, s), a, b))
  {
    hide InPhase, View, Act, N.Next, Refusable;
    assert N.GoodNode(w, a, w.nodes[a]) && N.GoodNode(w, b, w.nodes[b]);
    StepIsTurn(w, s, a, b);
    SwapView(w, a, b);
    var p := View(w, a, b);
    match TurnOf(w, s, a, b)
    case First(m) =>
      EffectIsRefusable(w, s, b);
      MoveKeepsPhase(a, b, p, m);
    case Second(m) =>
      EffectIsRefusable(w, s, a);
      SwapPhase(a, b, p);
      MoveKeepsPhase(b, a, p.Swap(), m);
      SwapPhase(b, a, Act(b, a, p.Swap(), m));
    case Nothing =>
  }

  lemma {:induction false} RunKeepsAllInPhase(w: N.World, steps: seq<N.Step>)
    requires N.Good(w) && AllInPhase(w) && N.IsRun(w, steps)
    ensures N.Good(N.End(w, steps)) && AllInPhase(N.End(w, steps))
    decreases |steps|
  {
    hide InPhase, View;
    if steps != [] {
      var w' := N.Next(w, steps[0]);
      N.NextKeepsGood(w, steps[0]);
      forall a, b | WellAddressed(w', a, b)
        ensures InPhase(a, b, View(w', a, b))
      {
        WellAddressedBefore(w, steps[0], a, b);
        PairStaysInPhase(w, steps[0], a, b);
      }
      RunKeepsAllInPhase(w', steps[1..]);
    }
  }

  lemma ReachableIsInPhase(addresses: set<string>, steps: seq<N.Step>)
    requires forall a :: a in addresses ==> IsAddress(a)
    requires N.IsRun(N.Init(addresses), steps)
    ensures N.Good(N.End(N.Init(addresses), steps)) && AllInPhase(N.End(N.Init(addresses), steps))
  {
    var w := N.Init(addresses);
    InitSafe(addresses);
    forall a, b | WellAddressed(w, a, b)
      ensures InPhase(a, b, View(w, a, b))
    {
      assert Idle(View(w, a, b));
    }
    RunKeepsAllInPhase(w, steps);
  }
}
