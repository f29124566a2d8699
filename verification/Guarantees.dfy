/**
  What the protocol promises its users, over every run of the network from a
  state in which nobody knows anybody. Each statement about two clients a and b
  names what neither may have exceeded towards the other, and no more: nothing at
  all, or `WellAddressed` (no mistyped address), `Titled` (nor a lost title),
  `Intact` (nor a lost message of this conversation in this direction), `Clean`
  (nothing exceeded).
  */
module Guarantees {
  import opened Hex
  import opened Strobe
  import opened Queues
  import opened Peer
  import opened Pair
  import opened Sync
  import opened Delivery
  import opened Reduction
  import opened Runs
  import opened Progress
  import opened Agreement
  import opened Readiness
  import opened Confinement
  import opened Aftermath
  import N = Network

  // ----- What keeps a pair clean -----

  /**
    A call by which one of the two exceeds a limit towards the other: checkable
    before the call, by the one who makes it.
    */
  predicate Breach(w: N.World, s: N.Step, a: string, b: string)
    requires N.Enabled(w, s)
  {
    match s
    case AskContact(who, bob, e1, random) =>
      && ToLower(bob) != bob && N.Mistyped(who, ToLower(bob)).Between(a, b)
      && AddContact(who, w.nodes[who].Has(bob), bob, e1, random).Some?
    case SendText(who, to, x, content, _) =>
      !Harmless(w.nodes[who].Has(to), x, content) && ((who == a && to == b) || (who == b && to == a))
    case _ => false
  }

  predicate SomeBreach(w: N.World, steps: seq<N.Step>, a: string, b: string)
    requires N.IsRun(w, steps)
    decreases |steps|
  {
    steps != [] && (Breach(w, steps[0], a, b) || SomeBreach(N.Next(w, steps[0]), steps[1..], a, b))
  }

  lemma OneStepBreaches(w: N.World, s: N.Step, a: string, b: string)
    requires N.Enabled(w, s)
    ensures Clean(N.Next(w, s), a, b) <==> Clean(w, a, b) && !Breach(w, s, a, b)
  {
    hide SendMessage, AcceptContact, Post, Pop;
    assert N.Next(w, s).nodes.Keys == w.nodes.Keys;
  }

  /** A run leaves two clients clean exactly when neither exceeds a limit towards the other in it. */
  lemma {:induction false} CleanIffNoBreach(w: N.World, steps: seq<N.Step>, a: string, b: string)
    requires N.IsRun(w, steps)
    ensures Clean(N.End(w, steps), a, b) <==> Clean(w, a, b) && !SomeBreach(w, steps, a, b)
    decreases |steps|
  {
    if steps != [] {
      OneStepBreaches(w, steps[0], a, b);
      CleanIffNoBreach(N.Next(w, steps[0]), steps[1..], a, b);
    }
  }

  // ----- Messages -----

  /**
    However long the messages anybody sends: data the hub hands over from a
    client finds its contact completed, so no data is ever discarded, as long as
    neither of the two has mistyped the other's address.
    */
  lemma DataIsNeverDiscarded(addresses: set<string>, steps: seq<N.Step>, a: string, b: string)
    requires Reaches(addresses, steps) && WellAddressed(Reached(addresses, steps), a, b)
    requires
      var mail := Reached(addresses, steps).nodes[b].incoming;
      mail.Some? && mail.value.from == a && mail.value.content.Ct?
    ensures
      var n := Reached(addresses, steps).nodes[b];
      n.Has(a).contact.ContactAdded? && N.Processing(n, b).1 != Discarded
  {
    hide InPhase, View, Receive;
    ReachableIsInPhase(addresses, steps);
    var w := Reached(addresses, steps);
    IncomingIsFirst(w, a, b);
    DataMeetsCompleted(a, b, View(w, a, b));
    CompletedDiscardsNothing(b, a, w.nodes[b].Has(a), w.nodes[b].incoming.value, w.nodes[b].ConvoExist(w.nodes[b].incoming.value.convo));
  }

  /** a has sent b nothing over the hub's limit in this conversation, and no title that was lost. */
  ghost predicate Intact(w: N.World, a: string, b: string, x: string) {
    Titled(w, a, b) && N.LostMessage(a, b, x) !in w.damage
  }

  /**
    A message the hub hands over is accepted and decrypted to what was encrypted,
    whatever has been lost in other conversations or in the other direction.
    */
  lemma PoppedDataIsAccepted(addresses: set<string>, steps: seq<N.Step>, a: string, b: string)
    requires Reaches(addresses, steps)
    requires
      var w := Reached(addresses, steps);
      && a in w.nodes && b in w.nodes && w.nodes[b].incoming.Some?
      && var mail := w.nodes[b].incoming.value;
      && mail.from == a && mail.content.Ct? && Intact(w, a, b, mail.convo)
    ensures
      var n := Reached(addresses, steps).nodes[b];
      var plaintext := n.incoming.value.content.plaintext;
      && n.Has(a).contact.ContactAdded?
      && N.Processing(n, b).1 ==
         if n.ConvoExist(n.incoming.value.convo) then Delivered(plaintext) else Opened(plaintext)
  {
    hide Confined, Receive, View;
    var w := Reached(addresses, steps);
    var la, lb := ReachablePair(addresses, steps, a, b);
    var n := w.nodes[b];
    var e := n.incoming.value;
    IncomingIsFirst(w, a, b);
    N.KnownUnderOnePeer(w, b, a, e.convo);
    UncutIsAccepted(a, b, View(w, a, b), la, lb);
  }

  lemma IncomingIsFirst(w: N.World, a: string, b: string)
    requires N.Good(w) && a in w.nodes && b in w.nodes && w.nodes[b].incoming.Some? && w.nodes[b].incoming.value.from == a
    ensures
      var p, e := View(w, a, b), w.nodes[b].incoming.value;
      && p.ab != [] && p.ab[0] == e && p.sb == w.nodes[b].Has(a) && N.Owned(w, e.convo, a, b)
  {
    assert N.GoodNode(w, b, w.nodes[b]);
  }

  /**
    In every reachable state, what a has sent b in a conversation (counting a
    message the hub is about to accept) is what b has stored followed by what is
    on its way, and the titles agree. Messages the hub has refused between the
    two in other conversations, or from b to a in this one, make no difference.
    */
  lemma EndToEnd(addresses: set<string>, steps: seq<N.Step>, a: string, b: string, x: string)
    requires Reaches(addresses, steps) && Intact(Reached(addresses, steps), a, b, x)
    ensures
      var w := Reached(addresses, steps);
      var here, there, onWay := Settled(w.nodes[a], b), w.nodes[b].Has(a), OnWay(w, a, b);
      && SentOf(here, x) == GotOf(there, x) + DataOf(onWay, x, x in there.convos)
      && (x in here.convos && x in there.convos ==> here.convos[x].title == there.convos[x].title)
      && (x in here.convos && x !in there.convos ==> FirstOf(onWay, x) == Some(here.convos[x].title))
  {
    hide Confined;
    var w := Reached(addresses, steps);
    var la, lb := ReachablePair(addresses, steps, a, b);
    SettledShows(w.nodes[b], a, x);
    UncutDelivery(a, b, View(w, a, b), la, lb, x);
  }

  /** In a conversation that is not intact, b still never stores anything but a beginning of what a has sent. */
  lemma NeverAnythingElse(addresses: set<string>, steps: seq<N.Step>, a: string, b: string, x: string)
    requires Reaches(addresses, steps) && Titled(Reached(addresses, steps), a, b)
    ensures
      var w := Reached(addresses, steps);
      GotOf(w.nodes[b].Has(a), x) <= SentOf(Settled(w.nodes[a], b), x)
  {
    hide Confined;
    var w := Reached(addresses, steps);
    var la, lb := ReachablePair(addresses, steps, a, b);
    SettledShows(w.nodes[b], a, x);
    StoredIsPrefix(a, b, View(w, a, b), la, lb, x);
  }

  /**
    In every reachable state, each end's receive ratchets reach the other end's
    send ratchets by following exactly what is on its way: the threads, and the
    sessions of every intact conversation.
    */
  lemma RatchetsInStep(addresses: set<string>, steps: seq<N.Step>, a: string, b: string, x: string)
    requires Reaches(addresses, steps) && Titled(Reached(addresses, steps), a, b)
    requires
      var w := Reached(addresses, steps);
      w.nodes[a].Has(b).contact.ContactAdded? && w.nodes[b].Has(a).contact.ContactAdded?
    ensures
      var w := Reached(addresses, steps);
      var here, there, onWay := w.nodes[a].Has(b), w.nodes[b].Has(a), OnWay(w, a, b);
      && here.contact.c1 == RatchetTimes(there.contact.c2, Openings(onWay, there.convos.Keys))
      && (x in here.convos && x in there.convos && Intact(w, a, b, x) ==>
          Follow(b, a, there.convos[x].c2, onWay, x) == here.convos[x].c1)
  {
    hide Confined, AllNumbers;
    var w := Reached(addresses, steps);
    var p := View(w, a, b);
    var la, lb := ReachablePair(addresses, steps, a, b);
    SettledShows(w.nodes[a], b, x);
    SettledShows(w.nodes[b], a, x);
    CutThreads(a, b, p, la, lb);
    if x in p.sa.convos && x in p.sb.convos && Intact(w, a, b, x) {
      UncutSession(a, b, p, la, lb, x);
    }
  }

  /** With nothing on its way, connected clients hold crossed states, equal titles and equal histories. */
  lemma QuiescentClientsAgree(addresses: set<string>, steps: seq<N.Step>, a: string, b: string)
    requires Reaches(addresses, steps) && Clean(Reached(addresses, steps), a, b)
    requires
      var w := Reached(addresses, steps);
      && OnWay(w, a, b) == [] && OnWay(w, b, a) == []
      && (w.nodes[a].Has(b).contact.ContactAdded? || w.nodes[b].Has(a).contact.ContactAdded?)
    ensures var w := Reached(addresses, steps); InStep(Settled(w.nodes[a], b), Settled(w.nodes[b], a))
  {
    Reachable(addresses, steps);
    Quiescent(a, b, View(Reached(addresses, steps), a, b));
  }

  /** What was sent in a conversation is still that, and stored at the other end under the same title. */
  predicate CaughtUp(before: Side, here: Side, there: Side, x: string) {
    && SentOf(here, x) == SentOf(before, x) == GotOf(there, x)
    && (x in before.convos ==> x in there.convos && there.convos[x].title == before.convos[x].title)
  }

  /**
    Whatever is pending, finishing what is under way and a bounded number of
    polls bring b up to date: it has stored exactly what a had sent (a message in
    a's hands included) in every conversation, under a's titles, and a has sent
    nothing else meanwhile.
    */
  lemma PollingCatchesUp(addresses: set<string>, run: seq<N.Step>, a: string, b: string) returns (steps: seq<N.Step>)
    requires Reaches(addresses, run) && Clean(Reached(addresses, run), a, b)
    requires Reached(addresses, run).nodes[a].Has(b).contact.ContactAdded?
    ensures
      var w := Reached(addresses, run);
      && N.IsRun(w, steps) && Catching(steps, a, b, {}) && |steps| <= 6 + 2 * |Queue(w.hub.pending, b)|
      && var w' := N.End(w, steps);
      && Clean(w', a, b)
      && (forall x :: CaughtUp(Settled(w.nodes[a], b), w'.nodes[a].Has(b), w'.nodes[b].Has(a), x))
  {
    Reachable(addresses, run);
    var w := Reached(addresses, run);
    AddedIsLinked(a, b, View(w, a, b));
    steps := Settle(w, a, b);
    var w' := N.End(w, steps);
    forall x
      ensures CaughtUp(Settled(w.nodes[a], b), w'.nodes[a].Has(b), w'.nodes[b].Has(a), x)
    {
      QuietRunKeepsSent(w, steps, a, b, x);
      PrefixDelivery(a, b, View(w', a, b), x);
    }
  }

  // ----- Handshakes -----

  /**
    In every run, whatever else was refused or mistyped: a client that asked and
    has been answered was answered by a client that is ready, and the thread
    states of the two come from one handshake, crossed.
    */
  lemma AskerConnectedOnlyToReady(addresses: set<string>, steps: seq<N.Step>, a: string, b: string)
    requires Reaches(addresses, steps) && a != b
    requires a in Reached(addresses, steps).nodes && b in Reached(addresses, steps).nodes
    requires
      var contact := Reached(addresses, steps).nodes[a].Has(b).contact;
      contact.ContactAdded? && Core(contact.c1).Root? && Core(contact.c1).fromInitiator
    ensures
      var here, there := Reached(addresses, steps).nodes[a].Has(b).contact, Reached(addresses, steps).nodes[b].Has(a).contact;
      there.ContactAdded? && Core(here.c1) == Core(there.c2) && Core(here.c2) == Core(there.c1)
  {
    ReachableAgrees(addresses, steps);
    var w := Reached(addresses, steps);
    assert Agreed(a, b, View(w, a, b));
    SettledShows(w.nodes[a], b, "");
    SettledShows(w.nodes[b], a, "");
  }

  /**
    The session a completed asker holds is that of the request it made and of the
    answer its peer made to it, with the keys both drew, and its peer holds it too.
    */
  lemma HandshakeIsTheOneTaken(addresses: set<string>, steps: seq<N.Step>, a: string, b: string)
    requires Reaches(addresses, steps) && a != b
    requires a in Reached(addresses, steps).nodes && b in Reached(addresses, steps).nodes
    requires
      var contact := Reached(addresses, steps).nodes[a].Has(b).contact;
      contact.ContactAdded? && Core(contact.c1).Root? && Core(contact.c1).fromInitiator
    ensures
      var here, there := Reached(addresses, steps).nodes[a].Has(b).contact, Reached(addresses, steps).nodes[b].Has(a).contact;
      var s := Core(here.c1).session;
      && s.initiator == a && s.responder == b
      && (exists i, random :: 0 <= i < |steps| && steps[i] == N.AskContact(a, b, s.e1, random))
      && (exists i, random :: 0 <= i < |steps| && steps[i] == N.AnswerContact(b, a, s.e2, random))
      && here.ContactAdded? && Core(here.c1) == Root(s, true) && Core(here.c2) == Root(s, false)
      && there.ContactAdded? && Core(there.c1) == Root(s, false) && Core(there.c2) == Root(s, true)
  {
    hide View, N.IsRun;
    AskerConnectedOnlyToReady(addresses, steps, a, b);
    var w := Reached(addresses, steps);
    ReachableIsDrawn(addresses, steps);
    SettledShows(w.nodes[a], b, "");
    SettledShows(w.nodes[b], a, "");
    ViewSides(w, a, b);
    assert FromDrawn(a, b, View(w, a, b), DrawnBy(steps, a, b));
    var s := Core(w.nodes[a].Has(b).contact.c1).session;
    AskWasTaken(steps, a, b, s.e1);
    AnswerWasTaken(steps, a, b, s.e2);
  }

  lemma ViewSides(w: N.World, a: string, b: string)
    requires a in w.nodes && b in w.nodes
    ensures View(w, a, b).sa == Settled(w.nodes[a], b) && View(w, a, b).sb == Settled(w.nodes[b], a)
  {
  }

  lemma AskWasTaken(steps: seq<N.Step>, a: string, b: string, e1: nat)
    requires e1 in DrawnBy(steps, a, b).asked
    ensures exists i, random :: 0 <= i < |steps| && steps[i] == N.AskContact(a, b, e1, random)
  {
    var s :| s in steps && s.AskContact? && s.who == a && s.bob == b && s.e1 == e1;
    var i :| 0 <= i < |steps| && steps[i] == s;
    assert steps[i] == N.AskContact(a, b, e1, s.random);
  }

  lemma AnswerWasTaken(steps: seq<N.Step>, a: string, b: string, e2: nat)
    requires e2 in DrawnBy(steps, a, b).answered
    ensures exists i, random :: 0 <= i < |steps| && steps[i] == N.AnswerContact(b, a, e2, random)
  {
    var s :| s in steps && s.AnswerContact? && s.who == b && s.alice == a && s.e2 == e2;
    var i :| 0 <= i < |steps| && steps[i] == s;
    assert steps[i] == N.AnswerContact(b, a, e2, s.random);
  }

  /** A client that has accepted holds the session of a request its peer made, under some spelling, and of its own answer. */
  lemma AnsweredWasAsked(addresses: set<string>, steps: seq<N.Step>, a: string, b: string)
    requires Reaches(addresses, steps) && a != b
    requires a in Reached(addresses, steps).nodes && b in Reached(addresses, steps).nodes
    requires
      var contact := Reached(addresses, steps).nodes[b].Has(a).contact;
      contact.ContactAdded? && Core(contact.c1).Root? && !Core(contact.c1).fromInitiator
    ensures
      var s := Core(Reached(addresses, steps).nodes[b].Has(a).contact.c1).session;
      && s.initiator == a && s.responder == b
      && (exists i, bob, random :: 0 <= i < |steps| && ToLower(bob) == b && steps[i] == N.AskContact(a, bob, s.e1, random))
      && (exists i, random :: 0 <= i < |steps| && steps[i] == N.AnswerContact(b, a, s.e2, random))
  {
    hide View, N.IsRun;
    var w := Reached(addresses, steps);
    ReachableIsDrawn(addresses, steps);
    SettledShows(w.nodes[b], a, "");
    ViewSides(w, a, b);
    assert FromDrawn(a, b, View(w, a, b), DrawnBy(steps, a, b));
    var s := Core(w.nodes[b].Has(a).contact.c1).session;
    AnswerWasTaken(steps, a, b, s.e2);
    var t :| t in steps && t.AskContact? && t.who == a && ToLower(t.bob) == b && t.e1 == s.e1;
    var i :| 0 <= i < |steps| && steps[i] == t;
    assert ToLower(t.bob) == b && steps[i] == N.AskContact(a, t.bob, s.e1, t.random);
  }

  /**
    One unanswered request can always be completed: the one that was asked
    accepts, and the two finish what they are doing and poll, boundedly often.
    */
  lemma UnansweredRequestCanComplete(addresses: set<string>, run: seq<N.Step>, a: string, b: string, e2: nat, random: Bytes)
    returns (steps: seq<N.Step>)
    requires Reaches(addresses, run) && Clean(Reached(addresses, run), a, b) && N.NewId(Reached(addresses, run), random)
    requires
      var w := Reached(addresses, run);
      w.nodes[a].Has(b).contact.WaitingForAccept? && !w.nodes[b].Has(a).contact.WaitingForAccept?
    ensures
      var w := Reached(addresses, run);
      && N.IsRun(w, steps) && Catching(steps, a, b, {N.AnswerContact(b, a, e2, random)})
      && |steps| <= 14 + 2 * |Queue(w.hub.pending, a)| + 2 * |Queue(w.hub.pending, b)|
      && var w' := N.End(w, steps);
      && a in w'.nodes && b in w'.nodes
      && w'.nodes[a].Has(b).contact.ContactAdded? && w'.nodes[b].Has(a).contact.ContactAdded?
  {
    Reachable(addresses, run);
    var w := Reached(addresses, run);
    assert Underway(a, b, View(w, a, b));
    steps := RequestCanComplete(w, a, b, e2, random);
  }

  ghost predicate AnswersFinal(w: N.World) {
    forall a, b :: a in w.nodes && b in w.nodes && a != b ==> AnswersAreFinal(View(w, a, b))
  }

  lemma PairKeepsAnswersFinal(w: N.World, s: N.Step, a: string, b: string)
    requires N.Good(w) && AnswersFinal(w) && N.Enabled(w, s) && a in w.nodes && b in w.nodes && a != b
    ensures AnswersAreFinal(View(N.Next(w, s), a, b))
  {
    hide AnswersAreFinal, View, Act, TurnOf;
    StepIsTurn(w, s, a, b);
    SwapView(w, a, b);
    var p := View(w, a, b);
    assert AnswersAreFinal(p) && AnswersAreFinal(p.Swap());
    match TurnOf(w, s, a, b)
    case First(m) => MoveKeepsAnswersFinal(a, b, p, m);
    case Second(m) => MoveKeepsAnswersFinal(b, a, p.Swap(), m);
    case Nothing =>
  }

  lemma NextKeepsAnswersFinal(w: N.World, s: N.Step)
    requires N.Good(w) && AnswersFinal(w) && N.Enabled(w, s)
    ensures N.Good(N.Next(w, s)) && AnswersFinal(N.Next(w, s))
  {
    hide AnswersAreFinal, View, N.Next;
    var w' := N.Next(w, s);
    N.NextKeepsGood(w, s);
    forall a, b | a in w'.nodes && b in w'.nodes && a != b
      ensures AnswersAreFinal(View(w', a, b))
    {
      PairKeepsAnswersFinal(w, s, a, b);
    }
  }

  lemma {:induction false} RunKeepsAnswersFinal(w: N.World, steps: seq<N.Step>)
    requires N.Good(w) && AnswersFinal(w) && N.IsRun(w, steps)
    ensures N.Good(N.End(w, steps)) && AnswersFinal(N.End(w, steps))
    decreases |steps|
  {
    if steps != [] {
      NextKeepsAnswersFinal(w, steps[0]);
      RunKeepsAnswersFinal(N.Next(w, steps[0]), steps[1..]);
    }
  }

  lemma NextKeepsBothWaiting(w: N.World, s: N.Step, a: string, b: string)
    requires N.Good(w) && AnswersFinal(w) && N.Enabled(w, s) && a in w.nodes && b in w.nodes && a != b
    requires BothWaiting(View(w, a, b))
    ensures a in N.Next(w, s).nodes && b in N.Next(w, s).nodes && BothWaiting(View(N.Next(w, s), a, b))
  {
    hide AnswersAreFinal, View, Act, TurnOf;
    StepIsTurn(w, s, a, b);
    SwapView(w, a, b);
    var p := View(w, a, b);
    assert AnswersAreFinal(p) && AnswersAreFinal(p.Swap());
    match TurnOf(w, s, a, b)
    case First(m) => MoveKeepsBothWaiting(a, b, p, m);
    case Second(m) => MoveKeepsBothWaiting(b, a, p.Swap(), m);
    case Nothing =>
  }

  lemma {:induction false} RunKeepsBothWaiting(w: N.World, steps: seq<N.Step>, a: string, b: string)
    requires N.Good(w) && AnswersFinal(w) && N.IsRun(w, steps) && a in w.nodes && b in w.nodes && a != b
    requires BothWaiting(View(w, a, b))
    ensures a in N.End(w, steps).nodes && b in N.End(w, steps).nodes && BothWaiting(View(N.End(w, steps), a, b))
    decreases |steps|
  {
    if steps != [] {
      NextKeepsBothWaiting(w, steps[0], a, b);
      NextKeepsAnswersFinal(w, steps[0]);
      RunKeepsBothWaiting(N.Next(w, steps[0]), steps[1..], a, b);
    }
  }

  lemma StartsFinal(addresses: set<string>)
    ensures AnswersFinal(N.Init(addresses))
  {
  }

  /** Two clients that have asked each other wait for ever, whatever anybody does. */
  lemma CrossedRequestsNeverComplete(addresses: set<string>, run: seq<N.Step>, steps: seq<N.Step>, a: string, b: string)
    requires Reaches(addresses, run) && a in addresses && b in addresses && a != b
    requires
      var w := Reached(addresses, run);
      && a in w.nodes && b in w.nodes && N.IsRun(w, steps)
      && w.nodes[a].Has(b).contact.WaitingForAccept? && w.nodes[b].Has(a).contact.WaitingForAccept?
    ensures
      var w' := N.End(Reached(addresses, run), steps);
      && a in w'.nodes && b in w'.nodes
      && w'.nodes[a].Has(b).contact.WaitingForAccept? && w'.nodes[b].Has(a).contact.WaitingForAccept?
  {
    hide AnswersFinal;
    StartsFinal(addresses);
    var w0 := N.Init(addresses);
    N.InitGood(addresses);
    RunKeepsAnswersFinal(w0, run);
    var w := N.End(w0, run);
    RunKeepsBothWaiting(w, steps, a, b);
  }

  /** Under an address not typed in lower case no contact is ever completed. */
  lemma MistypedAddressNeverConnects(addresses: set<string>, steps: seq<N.Step>, a: string, typed: string)
    requires Reaches(addresses, steps) && a in Reached(addresses, steps).nodes && ToLower(typed) != typed
    ensures !Reached(addresses, steps).nodes[a].Has(typed).contact.ContactAdded?
  {
    Reachable(addresses, steps);
    var w := Reached(addresses, steps);
    assert N.GoodNode(w, a, w.nodes[a]);
    if typed in w.nodes[a].book {
      assert N.GoodSide(w, a, typed, w.nodes[a].book[typed]);
    }
  }

  lemma AskAdvances(me: string, p: string, side: Side, e: nat, random: Bytes)
    ensures AddContact(me, side, p, e, random).Some? ==>
      Advances(side.contact, AddContact(me, side, p, e, random).value.0.contact)
    ensures AcceptContact(me, side, p, e, random).Some? ==>
      Advances(side.contact, AcceptContact(me, side, p, e, random).value.0.contact)
  {
  }

  lemma SendAdvances(me: string, p: string, side: Side, x: string, content: Bytes, random: Bytes)
    ensures Advances(side.contact, SendMessage(me, side, p, x, content, random).side.contact)
  {
  }

  lemma ReceiveAdvances(me: string, p: string, side: Side, mail: Mail, known: bool)
    ensures Advances(side.contact, Receive(me, p, side, mail, known).0.contact)
  {
  }

  lemma StayingAdvances(c: Contact)
    ensures Advances(c, c)
  {
  }

  /** In every run, a contact's status moves along one of the two handshake paths, never back. */
  lemma StatusOnlyAdvances(w: N.World, s: N.Step, a: string, p: string)
    requires N.Enabled(w, s) && a in w.nodes
    ensures a in N.Next(w, s).nodes
    ensures Advances(w.nodes[a].Has(p).contact, N.Next(w, s).nodes[a].Has(p).contact)
  {
    hide AddContact, AcceptContact, SendMessage, Receive, Advances;
    StayingAdvances(w.nodes[a].Has(p).contact);
    if a == s.who {
      var n := w.nodes[a];
      var side := n.Has(p);
      match s
      case AskContact(_, _, e1, random) => AskAdvances(a, p, side, e1, random);
      case AnswerContact(_, _, e2, random) => AskAdvances(a, p, side, e2, random);
      case SendText(_, _, x, content, random) => SendAdvances(a, p, side, x, content, random);
      case Process(_) => ReceiveAdvances(a, p, side, n.incoming.value, n.ConvoExist(n.incoming.value.convo));
      case _ =>
    } else {
      OthersStay(w, s, a);
    }
  }

  // ----- The hub -----

  /** In every run, what the hub has accepted for a recipient is what it has handed over and what is pending. */
  lemma {:induction false} HubLosesNothing(w: N.World, steps: seq<N.Step>)
    requires N.IsRun(w, steps) && Conserved(w.hub)
    ensures Conserved(N.End(w, steps).hub)
    decreases |steps|
  {
    if steps != [] {
      var w' := N.Next(w, steps[0]);
      match steps[0] {
        case Upload(a) =>
          var r := w.nodes[a].outgoing.value.request;
          PostConserves(w.hub, r.to, Envelope(a, r.convo, r.content));
        case Poll(a) =>
          PopConserves(w.hub, a);
        case _ =>
      }
      assert Conserved(w'.hub);
      HubLosesNothing(w', steps[1..]);
    }
  }
}
