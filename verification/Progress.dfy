/**
  What can still happen: an unanswered request can always be completed, crossed
  requests never can, and polling empties a queue.
  */
module Progress {
  import opened Hex
  import opened Queues
  import opened Peer
  import opened Pair
  import opened Sync
  import opened Delivery
  import opened Reduction
  import opened Runs
  import N = Network

  // ----- Crossed requests -----

  /** Only a client that has completed the handshake has sent an answer. */
  predicate AnswersAreFinal(p: Pair) {
    forall e :: e in p.ab && e.content.Hs2? ==> p.sa.contact.ContactAdded?
  }

  predicate BothWaiting(p: Pair) {
    p.sa.contact.WaitingForAccept? && p.sb.contact.WaitingForAccept?
  }

  lemma MoveKeepsAnswersFinal(a: string, b: string, p: Pair, m: Move)
    requires Enabled(p, m) && Honest(m) && AnswersAreFinal(p) && AnswersAreFinal(p.Swap())
    ensures AnswersAreFinal(Act(a, b, p, m)) && AnswersAreFinal(Act(a, b, p, m).Swap())
  {
    if m.Say? {
      SendHasShape(a, p.sa, b, m.x, m.content, m.random);
    }
  }

  /** No move of either client ends a wait on both sides. */
  lemma MoveKeepsBothWaiting(a: string, b: string, p: Pair, m: Move)
    requires Enabled(p, m) && AnswersAreFinal(p.Swap()) && BothWaiting(p)
    ensures BothWaiting(Act(a, b, p, m))
  {
    if m.Say? {
      SendHasShape(a, p.sa, b, m.x, m.content, m.random);
    }
  }

  // ----- Runs that only poll, process and upload -----

  predicate Quiet(s: N.Step) {
    s.Poll? || s.Process? || s.Upload?
  }

  /** Two clients finish what they are doing and poll, and do nothing else but these steps. */
  predicate Catching(steps: seq<N.Step>, a: string, b: string, also: set<N.Step>) {
    forall s :: s in steps ==> s in also || (Quiet(s) && (s.who == a || s.who == b))
  }

  /** a has asked b, or one of the two has completed the handshake. */
  predicate Underway(a: string, b: string, p: Pair) {
    Asked(a, b, p) || Linked(a, b, p)
  }

  lemma SwapLinked(a: string, b: string, p: Pair)
    requires Linked(a, b, p)
    ensures Linked(b, a, p.Swap())
  {
    SwapInStep(Deliver(a, b, p.sa, p.ba), Deliver(b, a, p.sb, p.ab));
  }

  lemma OtherCollectKeepsLinked(a: string, b: string, p: Pair)
    requires Linked(a, b, p) && p.ab != []
    ensures Linked(a, b, Act(b, a, p.Swap(), Collect).Swap())
  {
    SwapLinked(a, b, p);
    CollectKeepsLinked(b, a, p.Swap());
    SwapLinked(b, a, Act(b, a, p.Swap(), Collect));
  }

  lemma CollectKeepsAsked(a: string, b: string, p: Pair)
    requires Asked(a, b, p) && p.ab != []
    ensures Asked(a, b, Act(b, a, p.Swap(), Collect).Swap())
  {
    assert p.ab[1..] == [];
  }

  /** One of the two has received its next message, or nothing has happened. */
  predicate ReceivesOne(a: string, b: string, p: Pair, p': Pair) {
    || p' == p
    || (p.ba != [] && p' == Act(a, b, p, Collect))
    || (p.ab != [] && p' == Act(b, a, p.Swap(), Collect).Swap())
  }

  /** A poll, process or upload by anyone shows a clean pair a receive by one of the two, or nothing. */
  lemma QuietShows(w: N.World, s: N.Step, a: string, b: string)
    requires Safe(w) && Clean(w, a, b) && N.Enabled(w, s) && Quiet(s)
    ensures Safe(N.Next(w, s)) && Clean(N.Next(w, s), a, b)
    ensures ReceivesOne(a, b, View(w, a, b), View(N.Next(w, s), a, b))
  {
    hide Synchronised, View, Act, N.Next, Effect;
    NextKeepsSafe(w, s);
    QuietDamagesNothing(w, s);
    StepIsTurn(w, s, a, b);
    if s.who == a {
      QuietEffect(w, s, b);
    } else if s.who == b {
      QuietEffect(w, s, a);
    }
  }

  lemma QuietDamagesNothing(w: N.World, s: N.Step)
    requires N.Enabled(w, s) && Quiet(s)
    ensures N.Next(w, s).damage == w.damage && N.Next(w, s).nodes.Keys == w.nodes.Keys
  {
    hide Receive, Post, Pop;
  }

  /** Between clean clients nothing is refused. */
  lemma QuietEffect(w: N.World, s: N.Step, b: string)
    requires N.Good(w) && N.Enabled(w, s) && Quiet(s) && Clean(w, s.who, b)
    ensures Effect(w, s, b).Some? ==> Effect(w, s, b).value == Collect
  {
    hide From, Receive;
    assert N.GoodNode(w, s.who, w.nodes[s.who]);
  }

  lemma QuietKeepsLinked(w: N.World, s: N.Step, a: string, b: string)
    requires Safe(w) && Clean(w, a, b) && N.Enabled(w, s) && Quiet(s) && Linked(a, b, View(w, a, b))
    ensures Safe(N.Next(w, s)) && Clean(N.Next(w, s), a, b)
    ensures Linked(a, b, View(N.Next(w, s), a, b))
  {
    var p := View(w, a, b);
    QuietShows(w, s, a, b);
    if p.ba != [] { CollectKeepsLinked(a, b, p); }
    if p.ab != [] { OtherCollectKeepsLinked(a, b, p); }
  }

  lemma QuietKeepsUnderway(w: N.World, s: N.Step, a: string, b: string)
    requires Safe(w) && Clean(w, a, b) && N.Enabled(w, s) && Quiet(s) && Underway(a, b, View(w, a, b))
    ensures Safe(N.Next(w, s)) && Clean(N.Next(w, s), a, b)
    ensures Underway(a, b, View(N.Next(w, s), a, b))
  {
    var p := View(w, a, b);
    QuietShows(w, s, a, b);
    if Linked(a, b, p) {
      QuietKeepsLinked(w, s, a, b);
    } else if p.ab != [] {
      CollectKeepsAsked(a, b, p);
    }
  }

  lemma {:induction false} QuietRun(w: N.World, steps: seq<N.Step>, a: string, b: string)
    requires Safe(w) && Clean(w, a, b) && N.IsRun(w, steps) && Underway(a, b, View(w, a, b))
    requires forall s :: s in steps ==> Quiet(s)
    ensures Safe(N.End(w, steps)) && Clean(N.End(w, steps), a, b)
    ensures Underway(a, b, View(N.End(w, steps), a, b))
    decreases |steps|
  {
    if steps != [] {
      QuietKeepsUnderway(w, steps[0], a, b);
      QuietRun(N.Next(w, steps[0]), steps[1..], a, b);
    }
  }

  /** What a client has sent and titled stays as it is. */
  predicate KeepsSent(side: Side, side': Side, x: string) {
    && SentOf(side', x) == SentOf(side, x)
    && (x in side.convos ==> x in side'.convos && side'.convos[x].title == side.convos[x].title)
  }

  lemma CollectKeepsSent(a: string, b: string, p: Pair, x: string)
    requires Joining(p.sa) && p.ba != []
    ensures KeepsSent(p.sa, Act(a, b, p, Collect).sa, x)
  {
    hide Take, Joining;
    DeliverOne(a, b, p.sa, p.ba[0]);
    DeliverSendsNothing(a, b, p.sa, [p.ba[0]], x);
    DeliverKeepsSending(a, b, p.sa, [p.ba[0]], x);
  }

  lemma QuietStepKeepsSent(w: N.World, s: N.Step, a: string, b: string, x: string)
    requires Safe(w) && Clean(w, a, b) && N.Enabled(w, s) && Quiet(s) && Linked(a, b, View(w, a, b))
    ensures Clean(N.Next(w, s), a, b)
    ensures KeepsSent(View(w, a, b).sa, View(N.Next(w, s), a, b).sa, x)
  {
    hide Take, View, Deliver, AllAccepted, InStep;
    var p := View(w, a, b);
    QuietShows(w, s, a, b);
    if p.ba != [] {
      CollectKeepsSent(a, b, p, x);
    }
  }

  lemma {:induction false} QuietRunKeepsSent(w: N.World, steps: seq<N.Step>, a: string, b: string, x: string)
    requires Safe(w) && Clean(w, a, b) && N.IsRun(w, steps) && Linked(a, b, View(w, a, b))
    requires forall s :: s in steps ==> Quiet(s)
    ensures Clean(N.End(w, steps), a, b) && Linked(a, b, View(N.End(w, steps), a, b))
    ensures KeepsSent(View(w, a, b).sa, View(N.End(w, steps), a, b).sa, x)
    decreases |steps|
  {
    if steps != [] {
      QuietKeepsLinked(w, steps[0], a, b);
      QuietStepKeepsSent(w, steps[0], a, b, x);
      QuietRunKeepsSent(N.Next(w, steps[0]), steps[1..], a, b, x);
    }
  }

  lemma {:induction false} RunConcat(w: N.World, xs: seq<N.Step>, ys: seq<N.Step>)
    requires N.IsRun(w, xs) && N.IsRun(N.End(w, xs), ys)
    ensures N.IsRun(w, xs + ys) && N.End(w, xs + ys) == N.End(N.End(w, xs), ys)
    decreases |xs|
  {
    if xs == [] {
      assert xs + ys == ys;
    } else {
      assert (xs + ys)[1..] == xs[1..] + ys;
      RunConcat(N.Next(w, xs[0]), xs[1..], ys);
    }
  }

  // ----- Draining a queue -----

  function Polls(b: string, n: nat): (r: seq<N.Step>)
    ensures |r| == 2 * n
    ensures forall s :: s in r ==> Quiet(s) && s.who == b
  {
    if n == 0 then [] else [N.Poll(b), N.Process(b)] + Polls(b, n - 1)
  }

  /** Only b's book and queue have changed. */
  ghost predicate OnlyAt(w: N.World, w': N.World, b: string) {
    && w'.nodes.Keys == w.nodes.Keys && w'.owners == w.owners && w'.damage == w.damage
    && (forall c :: c in w.nodes && c != b ==> w'.nodes[c] == w.nodes[c])
    && (forall r :: r != b ==> Queue(w'.hub.pending, r) == Queue(w.hub.pending, r))
  }

  lemma OneStep(w: N.World, s: N.Step)
    requires N.Enabled(w, s)
    ensures N.IsRun(w, [s]) && N.End(w, [s]) == N.Next(w, s)
  {
    assert [s][1..] == [];
    assert N.IsRun(N.Next(w, s), []);
  }

  lemma PollOnce(w: N.World, b: string)
    requires b in w.nodes && w.nodes[b].Idle() && Queue(w.hub.pending, b) != []
    ensures
      var steps := [N.Poll(b), N.Process(b)];
      && N.IsRun(w, steps)
      && var w' := N.End(w, steps);
      && OnlyAt(w, w', b) && w'.nodes[b].Idle() && Queue(w'.hub.pending, b) == Queue(w.hub.pending, b)[1..]
  {
    var w1 := N.Polled(w, b);
    var w2 := N.Processed(w1, b);
    assert [N.Poll(b), N.Process(b)][1..] == [N.Process(b)];
    OneStep(w1, N.Process(b));
  }

  /** Polling once per pending message empties the queue and touches nothing else. */
  lemma {:induction false} Drain(w: N.World, b: string, n: nat)
    requires b in w.nodes && w.nodes[b].Idle() && n == |Queue(w.hub.pending, b)|
    ensures N.IsRun(w, Polls(b, n))
    ensures var w' := N.End(w, Polls(b, n)); OnlyAt(w, w', b) && w'.nodes[b].Idle() && Queue(w'.hub.pending, b) == []
    decreases n
  {
    hide N.Next, N.Enabled;
    if n > 0 {
      var two := [N.Poll(b), N.Process(b)];
      PollOnce(w, b);
      Drain(N.End(w, two), b, n - 1);
      RunConcat(w, two, Polls(b, n - 1));
    }
  }

  // ----- Completing a request -----

  /** The rest of a client's operation in flight. */
  function Finish(w: N.World, a: string): (r: seq<N.Step>)
    requires a in w.nodes
    ensures |r| <= 1 && forall s :: s in r ==> Quiet(s) && s.who == a
  {
    var n := w.nodes[a];
    if n.outgoing.Some? then [N.Upload(a)]
    else if n.incoming.Some? then [N.Process(a)]
    else []
  }

  lemma FinishOnce(w: N.World, a: string)
    requires N.Good(w) && a in w.nodes
    ensures N.IsRun(w, Finish(w, a))
    ensures
      var w' := N.End(w, Finish(w, a));
      && w'.nodes.Keys == w.nodes.Keys && w'.owners == w.owners
      && w'.nodes[a].Idle()
      && (forall c :: c in w.nodes && c != a ==> w'.nodes[c] == w.nodes[c])
      && (forall r :: |Queue(w'.hub.pending, r)| <= |Queue(w.hub.pending, r)| + 1)
  {
    assert N.GoodNode(w, a, w.nodes[a]);
    var steps := Finish(w, a);
    if steps != [] {
      OneStep(w, steps[0]);
    }
  }

  /** With b idle and its queue empty, all that can be on its way to b is what a has not uploaded. */
  lemma NothingOnItsWay(w: N.World, a: string, b: string)
    requires a in w.nodes && b in w.nodes && w.nodes[b].Idle() && w.nodes[a].outgoing.None?
    requires Queue(w.hub.pending, b) == []
    ensures OnWay(w, a, b) == []
  {
  }

  /** First stage: both finish what they are doing, and b empties its queue. */
  lemma Settle(w: N.World, a: string, b: string) returns (steps: seq<N.Step>)
    requires Safe(w) && Clean(w, a, b) && Underway(a, b, View(w, a, b))
    ensures N.IsRun(w, steps) && Catching(steps, a, b, {}) && |steps| <= 6 + 2 * |Queue(w.hub.pending, b)|
    ensures
      var w' := N.End(w, steps);
      && Safe(w') && Clean(w', a, b) && Underway(a, b, View(w', a, b)) && w'.owners == w.owners
      && w'.nodes[a].Idle() && w'.nodes[b].Idle() && View(w', a, b).ab == []
      && |Queue(w'.hub.pending, a)| <= |Queue(w.hub.pending, a)| + 2
  {
    var s1 := Finish(w, a);
    FinishOnce(w, a);
    QuietRun(w, s1, a, b);
    var w1 := N.End(w, s1);
    var s2 := Finish(w1, b);
    FinishOnce(w1, b);
    QuietRun(w1, s2, a, b);
    var w2 := N.End(w1, s2);
    var n := |Queue(w2.hub.pending, b)|;
    Drain(w2, b, n);
    QuietRun(w2, Polls(b, n), a, b);
    var w3 := N.End(w2, Polls(b, n));
    NothingOnItsWay(w3, a, b);
    RunConcat(w1, s2, Polls(b, n));
    RunConcat(w, s1, s2 + Polls(b, n));
    steps := s1 + (s2 + Polls(b, n));
  }

  lemma AddedIsLinked(a: string, b: string, p: Pair)
    requires Synchronised(a, b, p) && (p.sa.contact.ContactAdded? || p.sb.contact.ContactAdded?)
    ensures Linked(a, b, p)
  {
  }

  lemma LinkedAndEmptyIsAdded(a: string, b: string, p: Pair)
    requires Linked(a, b, p)
    ensures p.ab == [] ==> p.sb.contact.ContactAdded?
    ensures p.ba == [] ==> p.sa.contact.ContactAdded?
  {
  }

  lemma AnswerIsReady(a: string, b: string, p: Pair, e2: nat, random: Bytes)
    requires IsAddress(a) && Asked(a, b, p) && p.ab == []
    ensures AcceptContact(b, p.sb, a, e2, random).Some?
    ensures AcceptContact(b, p.sb, a, e2, random).value.0.contact.ContactAdded?
  {
    AddressOfKey(a);
  }

  /** b's acceptance of a waiting request, up to the upload. */
  lemma AnswerHands(w: N.World, a: string, b: string, e2: nat, random: Bytes)
    requires N.Good(w) && a in w.nodes && b in w.nodes && a != b && N.NewId(w, random)
    requires Asked(a, b, View(w, a, b)) && w.nodes[b].Idle() && View(w, a, b).ab == []
    ensures
      var w' := N.Answer(w, b, a, e2, random);
      && N.Enabled(w, N.AnswerContact(b, a, e2, random))
      && w'.nodes[b].outgoing.Some? && w'.nodes[b].Has(a).contact.ContactAdded?
      && w'.nodes[a] == w.nodes[a] && w'.damage == w.damage && w'.hub == w.hub && w'.nodes.Keys == w.nodes.Keys
  {
    assert N.GoodNode(w, a, w.nodes[a]);
    AnswerIsReady(a, b, View(w, a, b), e2, random);
  }

  lemma UploadLeavesContacts(w: N.World, a: string, b: string)
    requires N.Good(w) && a in w.nodes && b in w.nodes && a != b && w.nodes[b].outgoing.Some?
    ensures
      var w' := N.Uploaded(w, b);
      && w'.nodes[b].Idle() && w'.nodes[b].Has(a).contact == w.nodes[b].Has(a).contact
      && w'.nodes[a] == w.nodes[a] && w'.damage == w.damage && w'.nodes.Keys == w.nodes.Keys
      && |Queue(w'.hub.pending, a)| <= |Queue(w.hub.pending, a)| + 1
  {
    assert N.GoodNode(w, b, w.nodes[b]);
  }

  lemma SafeIsGood(w: N.World)
    requires Safe(w)
    ensures N.Good(w)
  {
  }

  lemma AnswerAndUpload(w: N.World, a: string, b: string, e2: nat, random: Bytes)
    requires Safe(w) && Clean(w, a, b) && N.NewId(w, random)
    requires Asked(a, b, View(w, a, b)) && w.nodes[a].Idle() && w.nodes[b].Idle() && View(w, a, b).ab == []
    ensures
      var steps := [N.AnswerContact(b, a, e2, random), N.Upload(b)];
      && N.IsRun(w, steps)
      && var w' := N.End(w, steps);
      && Safe(w') && Clean(w', a, b) && w'.nodes[b].Has(a).contact.ContactAdded?
      && w'.nodes[a].Idle() && w'.nodes[b].Idle()
      && |Queue(w'.hub.pending, a)| <= |Queue(w.hub.pending, a)| + 1
  {
    hide Safe, Asked, View, AcceptContact;
    var s := N.AnswerContact(b, a, e2, random);
    SafeIsGood(w);
    AnswerHands(w, a, b, e2, random);
    NextKeepsSafe(w, s);
    var w1 := N.Next(w, s);
    SafeIsGood(w1);
    UploadLeavesContacts(w1, a, b);
    NextKeepsSafe(w1, N.Upload(b));
    OneStep(w1, N.Upload(b));
    assert [s, N.Upload(b)][1..] == [N.Upload(b)];
  }

  /** Second stage: b answers, if it has not done so. */
  lemma Reply(w: N.World, a: string, b: string, e2: nat, random: Bytes) returns (steps: seq<N.Step>)
    requires Safe(w) && Clean(w, a, b) && Underway(a, b, View(w, a, b)) && N.NewId(w, random)
    requires w.nodes[a].Idle() && w.nodes[b].Idle() && View(w, a, b).ab == []
    ensures N.IsRun(w, steps) && |steps| <= 2 && Catching(steps, a, b, {N.AnswerContact(b, a, e2, random)})
    ensures
      var w' := N.End(w, steps);
      && Safe(w') && Clean(w', a, b) && w'.nodes[b].Has(a).contact.ContactAdded?
      && w'.nodes[a].Idle() && w'.nodes[b].Idle()
      && |Queue(w'.hub.pending, a)| <= |Queue(w.hub.pending, a)| + 1
  {
    hide Synchronised, N.Next;
    if Linked(a, b, View(w, a, b)) {
      LinkedAndEmptyIsAdded(a, b, View(w, a, b));
      steps := [];
    } else {
      AnswerAndUpload(w, a, b, e2, random);
      steps := [N.AnswerContact(b, a, e2, random), N.Upload(b)];
    }
  }

  /** Last stage: a empties its queue. */
  lemma Conclude(w: N.World, a: string, b: string)
    requires Safe(w) && Clean(w, a, b) && w.nodes[b].Has(a).contact.ContactAdded?
    requires w.nodes[a].Idle() && w.nodes[b].Idle()
    ensures
      var steps := Polls(a, |Queue(w.hub.pending, a)|);
      && N.IsRun(w, steps)
      && var w' := N.End(w, steps);
      && Clean(w', a, b)
      && w'.nodes[a].Has(b).contact.ContactAdded? && w'.nodes[b].Has(a).contact.ContactAdded?
  {
    var n := |Queue(w.hub.pending, a)|;
    AddedIsLinked(a, b, View(w, a, b));
    Drain(w, a, n);
    QuietRun(w, Polls(a, n), a, b);
    var w' := N.End(w, Polls(a, n));
    NothingOnItsWay(w', b, a);
    assert w'.nodes[b] == w.nodes[b];
    AddedIsLinked(a, b, View(w', a, b));
    LinkedAndEmptyIsAdded(a, b, View(w', a, b));
  }

  /**
    Once a has asked b and b has not asked a, a bounded number of polls, one
    acceptance and the uploads in between complete both ends, from any reachable
    state and whatever other clients have queued.
    */
  lemma RequestCanComplete(w: N.World, a: string, b: string, e2: nat, random: Bytes) returns (steps: seq<N.Step>)
    requires Safe(w) && Clean(w, a, b) && Underway(a, b, View(w, a, b)) && N.NewId(w, random)
    ensures N.IsRun(w, steps) && Catching(steps, a, b, {N.AnswerContact(b, a, e2, random)})
    ensures |steps| <= 14 + 2 * |Queue(w.hub.pending, a)| + 2 * |Queue(w.hub.pending, b)|
    ensures
      var w' := N.End(w, steps);
      && Clean(w', a, b)
      && w'.nodes[a].Has(b).contact.ContactAdded? && w'.nodes[b].Has(a).contact.ContactAdded?
  {
    var s1 := Settle(w, a, b);
    var w1 := N.End(w, s1);
    var s2 := Reply(w1, a, b, e2, random);
    var w2 := N.End(w1, s2);
    var s3 := Polls(a, |Queue(w2.hub.pending, a)|);
    Conclude(w2, a, b);
    RunConcat(w1, s2, s3);
    RunConcat(w, s1, s2 + s3);
    steps := s1 + (s2 + s3);
  }
}
