/**
  What it costs to add a contact a second time under another spelling of its
  address: no thread opened towards it afterwards is ever read.
  */
module Misaddressed {
  import opened Hex
  import opened Queues
  import opened Peer
  import opened Sync
  import opened Threads
  import opened Reduction
  import opened Runs
  import N = Network

  /** Nothing that either of the two has sent the other is lost. */
  ghost predicate NothingLost(w: N.World, a: string, b: string) {
    && a in w.nodes && b in w.nodes && a != b
    && (forall d :: d in w.damage && d.Between(a, b) ==> d.Mistyped?)
  }

  lemma EffectIsLossless(w: N.World, s: N.Step, b: string)
    requires N.Good(w) && N.Enabled(w, s) && b in w.nodes && b != s.who
    requires NothingLost(N.Next(w, s), s.who, b) && Effect(w, s, b).Some?
    ensures Lossless(View(w, s.who, b), Effect(w, s, b).value)
  {
    hide From, AddContact, AcceptContact, SendMessage, Receive;
    assert N.GoodNode(w, s.who, w.nodes[s.who]);
    EffectsAreHonest(w, s, b);
    if s.SendText? {
      assert View(w, s.who, b).sa == w.nodes[s.who].Has(b);
    }
  }

  lemma NextKeepsOvertaken(w: N.World, s: N.Step, a: string, b: string, ids: set<string>)
    requires N.Good(w) && N.Enabled(w, s) && a in w.nodes && b in w.nodes && a != b
    requires NothingLost(N.Next(w, s), a, b) && Overtaken(a, b, View(w, a, b), ids)
    ensures Overtaken(a, b, View(N.Next(w, s), a, b), ids)
  {
    hide Overtaken, View, Act, N.Next, Lossless;
    assert N.GoodNode(w, a, w.nodes[a]) && N.GoodNode(w, b, w.nodes[b]);
    StepIsTurn(w, s, a, b);
    SwapView(w, a, b);
    match TurnOf(w, s, a, b)
    case First(m) =>
      EffectIsLossless(w, s, b);
      SenderStaysOvertaken(a, b, View(w, a, b), m, ids);
    case Second(m) =>
      EffectIsLossless(w, s, a);
      ReceiverStaysOvertaken(a, b, View(w, a, b), m, ids);
    case Nothing =>
  }

  lemma NothingLostBefore(w: N.World, s: N.Step, a: string, b: string)
    requires N.Good(w) && N.Enabled(w, s) && NothingLost(N.Next(w, s), a, b)
    ensures NothingLost(w, a, b)
  {
    hide N.Next;
    N.NextKeepsGood(w, s);
  }

  lemma {:induction false} NothingLostAtStart(w: N.World, steps: seq<N.Step>, a: string, b: string)
    requires N.Good(w) && N.IsRun(w, steps) && NothingLost(N.End(w, steps), a, b)
    ensures NothingLost(w, a, b)
    decreases |steps|
  {
    hide NothingLost, N.Good;
    if steps != [] {
      N.NextKeepsGood(w, steps[0]);
      NothingLostAtStart(N.Next(w, steps[0]), steps[1..], a, b);
      NothingLostBefore(w, steps[0], a, b);
    }
  }

  lemma {:induction false} RunKeepsOvertaken(w: N.World, steps: seq<N.Step>, a: string, b: string, ids: set<string>)
    requires N.Good(w) && N.IsRun(w, steps) && a in w.nodes && b in w.nodes && a != b
    requires NothingLost(N.End(w, steps), a, b) && Overtaken(a, b, View(w, a, b), ids)
    ensures N.Good(N.End(w, steps)) && Overtaken(a, b, View(N.End(w, steps), a, b), ids)
    decreases |steps|
  {
    hide Overtaken, View, N.Good;
    if steps != [] {
      var w' := N.Next(w, steps[0]);
      N.NextKeepsGood(w, steps[0]);
      NothingLostAtStart(w', steps[1..], a, b);
      NextKeepsOvertaken(w, steps[0], a, b, ids);
      RunKeepsOvertaken(w', steps[1..], a, b, ids);
    }
  }

  /** A connected client asks its peer once more, under another spelling. */
  ghost predicate AsksAgain(w: N.World, s: N.Step, a: string, b: string) {
    && N.Enabled(w, s) && s.AskContact? && s.who == a && s.bob != b && ToLower(s.bob) == b
    && AddContact(a, w.nodes[a].Has(s.bob), s.bob, s.e1, s.random).Some?
    && w.nodes[a].Has(b).contact.ContactAdded?
  }

  lemma AskingAgainOvertakes(w: N.World, s: N.Step, a: string, b: string)
    requires Safe(w) && Clean(w, a, b) && AsksAgain(w, s, a, b)
    ensures N.Good(N.Next(w, s)) && a in N.Next(w, s).nodes && b in N.Next(w, s).nodes
    ensures Overtaken(a, b, View(N.Next(w, s), a, b), w.owners.Keys)
  {
    hide Overtaken, From;
    N.NextKeepsGood(w, s);
    ActorMoves(w, s, b);
    var p := View(w, a, b);
    var r := AddContact(a, w.nodes[a].Has(s.bob), s.bob, s.e1, s.random).value.1;
    assert Effect(w, s, b) == Some(Stray(Envelope(a, r.convo, r.content)));
    NewIdIsFresh(w, a, b, Encode(s.random));
    forall e | e in p.ab ensures e.convo in w.owners { OnWayMembers(w, a, b, e); }
    assert N.GoodNode(w, a, w.nodes[a]) && N.GoodSide(w, a, b, w.nodes[a].book[b]);
    assert Linked(a, b, p);
    MistypedOvertakes(a, b, p, Envelope(a, r.convo, r.content), w.owners.Keys);
  }

  lemma InboxIsNotRead(w: N.World, a: string, b: string, ids: set<string>)
    requires N.Good(w) && a in w.nodes && b in w.nodes && a != b && w.nodes[b].incoming.Some?
    requires Overtaken(a, b, View(w, a, b), ids)
    requires var mail := w.nodes[b].incoming.value; mail.from == a && OfNewThread(mail, ids)
    ensures !Accepted(N.Processing(w.nodes[b], b).1)
  {
    hide Receive, Outrun;
    var e := w.nodes[b].incoming.value;
    assert N.GoodNode(w, b, w.nodes[b]);
    N.KnownUnderOnePeer(w, b, a, e.convo);
    assert View(w, a, b).ab[0] == e;
  }

  lemma OvertakenFromThere(w: N.World, s: N.Step, steps: seq<N.Step>, a: string, b: string)
    requires Safe(w) && Clean(w, a, b) && AsksAgain(w, s, a, b) && N.IsRun(N.Next(w, s), steps)
    requires NothingLost(N.End(N.Next(w, s), steps), a, b)
    ensures N.Good(N.End(N.Next(w, s), steps))
    ensures Overtaken(a, b, View(N.End(N.Next(w, s), steps), a, b), w.owners.Keys)
  {
    hide Overtaken, Safe, View, AddContact;
    AskingAgainOvertakes(w, s, a, b);
    RunKeepsOvertaken(N.Next(w, s), steps, a, b, w.owners.Keys);
  }

  /**
    Once a connected client has asked its peer again under another spelling, in
    every continuation in which nothing between the two is lost, no message of a
    thread that it opens from then on is accepted.
    */
  lemma NoLaterThreadIsRead(addresses: set<string>, run: seq<N.Step>, s: N.Step, steps: seq<N.Step>, a: string, b: string)
    requires Reaches(addresses, run) && Clean(Reached(addresses, run), a, b)
    requires AsksAgain(Reached(addresses, run), s, a, b) && N.IsRun(N.Next(Reached(addresses, run), s), steps)
    requires
      var w' := N.End(N.Next(Reached(addresses, run), s), steps);
      && NothingLost(w', a, b) && w'.nodes[b].incoming.Some?
      && var mail := w'.nodes[b].incoming.value;
      && mail.from == a && OfNewThread(mail, Reached(addresses, run).owners.Keys)
    ensures
      var w' := N.End(N.Next(Reached(addresses, run), s), steps);
      !Accepted(N.Processing(w'.nodes[b], b).1)
  {
    hide Overtaken, OfNewThread, Safe, View, AddContact, Receive;
    Reachable(addresses, run);
    var w := Reached(addresses, run);
    OvertakenFromThere(w, s, steps, a, b);
    InboxIsNotRead(N.End(N.Next(w, s), steps), a, b, w.owners.Keys);
  }
}
