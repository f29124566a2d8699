/**
  After the hub has refused a message of a conversation, nothing its sender
  encrypts in that conversation is ever decrypted again, in any continuation.
  */
module Refusals {
  import opened Hex
  import opened Strobe
  import opened Queues
  import opened Peer
  import opened Sync
  import opened Limits
  import opened Reduction
  import opened Runs
  import N = Network

  ghost predicate AllNumbered(w: N.World, x: string) {
    forall a, b :: a in w.nodes && b in w.nodes && a != b ==> Numbered(View(w, a, b), x)
  }

  lemma PairKeepsNumbered(w: N.World, s: N.Step, a: string, b: string, x: string)
    requires N.Good(w) && AllNumbered(w, x) && N.Enabled(w, s) && a in w.nodes && b in w.nodes && a != b
    ensures Numbered(View(N.Next(w, s), a, b), x)
  {
    hide Numbered, View, Act, TurnOf;
    StepIsTurn(w, s, a, b);
    SwapView(w, a, b);
    var p := View(w, a, b);
    assert Numbered(p, x) && Numbered(p.Swap(), x);
    match TurnOf(w, s, a, b)
    case First(m) => MoveKeepsNumbered(a, b, p, m, x);
    case Second(m) => MoveKeepsNumbered(b, a, p.Swap(), m, x);
    case Nothing =>
  }

  lemma NextKeepsNumbered(w: N.World, s: N.Step, x: string)
    requires N.Good(w) && AllNumbered(w, x) && N.Enabled(w, s)
    ensures N.Good(N.Next(w, s)) && AllNumbered(N.Next(w, s), x)
  {
    hide Numbered, View, N.Next;
    var w' := N.Next(w, s);
    N.NextKeepsGood(w, s);
    forall a, b | a in w'.nodes && b in w'.nodes && a != b
      ensures Numbered(View(w', a, b), x)
    {
      PairKeepsNumbered(w, s, a, b, x);
    }
  }

  lemma {:induction false} RunKeepsNumbered(w: N.World, steps: seq<N.Step>, x: string)
    requires N.Good(w) && AllNumbered(w, x) && N.IsRun(w, steps)
    ensures N.Good(N.End(w, steps)) && AllNumbered(N.End(w, steps), x)
    decreases |steps|
  {
    if steps != [] {
      NextKeepsNumbered(w, steps[0], x);
      RunKeepsNumbered(N.Next(w, steps[0]), steps[1..], x);
    }
  }

  lemma NextKeepsStuck(w: N.World, s: N.Step, a: string, b: string, x: string, r: nat)
    requires N.Good(w) && N.Enabled(w, s) && a in w.nodes && b in w.nodes && a != b
    requires Stuck(View(w, a, b), x, r)
    ensures a in N.Next(w, s).nodes && b in N.Next(w, s).nodes && Stuck(View(N.Next(w, s), a, b), x, r)
  {
    hide Stuck, View, Act, TurnOf;
    StepIsTurn(w, s, a, b);
    match TurnOf(w, s, a, b)
    case First(m) => SenderStaysStuck(a, b, View(w, a, b), m, x, r);
    case Second(m) => ReceiverStaysStuck(a, b, View(w, a, b), m, x, r);
    case Nothing =>
  }

  lemma {:induction false} RunKeepsStuck(w: N.World, steps: seq<N.Step>, a: string, b: string, x: string, r: nat)
    requires N.Good(w) && N.IsRun(w, steps) && a in w.nodes && b in w.nodes && a != b
    requires Stuck(View(w, a, b), x, r)
    ensures N.Good(N.End(w, steps))
    ensures a in N.End(w, steps).nodes && b in N.End(w, steps).nodes && Stuck(View(N.End(w, steps), a, b), x, r)
    decreases |steps|
  {
    if steps != [] {
      NextKeepsStuck(w, steps[0], a, b, x, r);
      N.NextKeepsGood(w, steps[0]);
      RunKeepsStuck(N.Next(w, steps[0]), steps[1..], a, b, x, r);
    }
  }

  /** The client whose upload the hub is about to refuse. */
  ghost predicate AboutToBeRefused(w: N.World, a: string, b: string) {
    && a in w.nodes && b in w.nodes && a != b && w.nodes[a].outgoing.Some?
    && var r := w.nodes[a].outgoing.value.request;
    && !Admitted(r) && r.to == b && r.content.Ct?
  }

  lemma RefusalMakesStuck(w: N.World, a: string, b: string)
    requires N.Good(w) && AboutToBeRefused(w, a, b)
    requires AllNumbered(w, w.nodes[a].outgoing.value.request.convo)
    ensures
      var r := w.nodes[a].outgoing.value.request;
      && N.Enabled(w, N.Upload(a)) && N.Next(w, N.Upload(a)).nodes.Keys == w.nodes.Keys
      && Stuck(View(N.Next(w, N.Upload(a)), a, b), r.convo, Index(r.content.state))
  {
    assert N.GoodNode(w, a, w.nodes[a]);
    var o := w.nodes[a].outgoing.value;
    ActorMoves(w, N.Upload(a), b);
    var p := View(w, a, b);
    assert Effect(w, N.Upload(a), b) == Some(Bounce(o.stored));
    assert p.ab[|p.ab| - 1] == Envelope(a, o.request.convo, o.request.content);
    RefusalIsStuck(a, b, p, o.request.convo, o.stored);
  }

  /**
    Once the hub has refused a message of a to b, in no continuation does b
    accept any message of that conversation that a encrypted with the refused
    one or later.
    */
  lemma RefusalIsFinal(addresses: set<string>, run: seq<N.Step>, steps: seq<N.Step>, a: string, b: string)
    requires Reaches(addresses, run) && AboutToBeRefused(Reached(addresses, run), a, b)
    requires
      var w := Reached(addresses, run);
      N.Enabled(w, N.Upload(a)) && N.IsRun(N.Next(w, N.Upload(a)), steps)
    requires
      var lost := Reached(addresses, run).nodes[a].outgoing.value.request;
      var w' := N.End(N.Next(Reached(addresses, run), N.Upload(a)), steps);
      && b in w'.nodes && w'.nodes[b].incoming.Some?
      && var mail := w'.nodes[b].incoming.value;
      && mail.from == a && Hit(mail, lost.convo) && Index(mail.content.state) >= Index(lost.content.state)
    ensures
      var w' := N.End(N.Next(Reached(addresses, run), N.Upload(a)), steps);
      var outcome := N.Processing(w'.nodes[b], b).1;
      !outcome.Delivered? && !outcome.Opened?
  {
    var w0, w := N.Init(addresses), Reached(addresses, run);
    var lost := w.nodes[a].outgoing.value.request;
    N.InitGood(addresses);
    RunKeepsNumbered(w0, run, lost.convo);
    RefusalMakesStuck(w, a, b);
    var w1 := N.Next(w, N.Upload(a));
    N.NextKeepsGood(w, N.Upload(a));
    RunKeepsStuck(w1, steps, a, b, lost.convo, Index(lost.content.state));
    StuckInboxRejects(N.End(w1, steps), a, b, lost.convo, Index(lost.content.state));
  }

  lemma StuckInboxRejects(w: N.World, a: string, b: string, x: string, r: nat)
    requires N.Good(w) && a in w.nodes && b in w.nodes && a != b && w.nodes[b].incoming.Some?
    requires Stuck(View(w, a, b), x, r)
    requires var mail := w.nodes[b].incoming.value; mail.from == a && Hit(mail, x) && Index(mail.content.state) >= r
    ensures var outcome := N.Processing(w.nodes[b], b).1; !outcome.Delivered? && !outcome.Opened?
  {
    var n := w.nodes[b];
    assert N.GoodNode(w, b, n);
    N.KnownUnderOnePeer(w, b, a, n.incoming.value.convo);
    assert View(w, a, b).ab[0] == n.incoming.value;
    StuckRejects(a, b, View(w, a, b), x, r);
  }
}
