/**
  Confinement in every run: between two clients that have neither mistyped an
  address nor lost a title, messages the hub refuses cut the conversations they
  were sent in, in their direction, and leave everything else in step.
  */
module Aftermath {
  import opened Hex
  import opened Queues
  import opened Peer
  import opened Pair
  import opened Sync
  import opened Delivery
  import opened Limits
  import opened Confinement
  import opened Reduction
  import opened Runs
  import opened Refusals
  import N = Network

  /** Settling a side only adds to what we sent. */
  lemma SettledShows(n: N.Node, p: string, x: string)
    ensures GotOf(Settled(n, p), x) == GotOf(n.Has(p), x)
    ensures Settled(n, p).convos.Keys == n.Has(p).convos.Keys && Settled(n, p).contact == n.Has(p).contact
    ensures x in n.Has(p).convos ==>
      && Settled(n, p).convos[x].title == n.Has(p).convos[x].title
      && Settled(n, p).convos[x].c1 == n.Has(p).convos[x].c1 && Settled(n, p).convos[x].c2 == n.Has(p).convos[x].c2
  {
    assert Settled(n, p).convos.Keys == n.Has(p).convos.Keys;
  }

  /** Whatever they have exceeded towards each other, it was with messages of conversations. */
  ghost predicate Titled(w: N.World, a: string, b: string) {
    && a in w.nodes && b in w.nodes && a != b
    && (forall d :: d in w.damage && d.Between(a, b) ==> d.LostMessage?)
  }

  /** The cuts are the conversations in which a has sent b a message the hub refuses. */
  ghost predicate CutsMatch(w: N.World, a: string, b: string, la: Cuts) {
    forall x :: x in la <==> N.LostMessage(a, b, x) in w.damage
  }

  ghost predicate Contained(w: N.World, a: string, b: string)
    requires a in w.nodes && b in w.nodes
  {
    exists la, lb :: Confined(a, b, View(w, a, b), la, lb) && CutsMatch(w, a, b, la) && CutsMatch(w, b, a, lb)
  }

  ghost predicate Numbers(w: N.World) {
    forall x :: AllNumbered(w, x)
  }

  // ----- One step -----

  lemma TitledBefore(w: N.World, s: N.Step, a: string, b: string)
    requires N.Good(w) && N.Enabled(w, s) && Titled(N.Next(w, s), a, b)
    ensures Titled(w, a, b)
  {
    hide N.Next;
    N.NextKeepsGood(w, s);
  }

  lemma EffectIsManageable(w: N.World, s: N.Step, b: string)
    requires N.Good(w) && N.Enabled(w, s) && b in w.nodes && b != s.who
    requires Titled(N.Next(w, s), s.who, b) && Effect(w, s, b).Some?
    ensures Manageable(View(w, s.who, b), Effect(w, s, b).value)
  {
    hide From, AddContact, AcceptContact, SendMessage, Receive;
    assert N.GoodNode(w, s.who, w.nodes[s.who]);
    if s.SendText? {
      assert View(w, s.who, b).sa == w.nodes[s.who].Has(b);
    }
  }

  /** A step damages only what its client sends. */
  lemma DamageIsOwn(w: N.World, s: N.Step)
    requires N.Enabled(w, s)
    ensures forall d :: d in N.Next(w, s).damage && d !in w.damage ==> d.from == s.who
    ensures w.damage <= N.Next(w, s).damage
  {
    hide AddContact, AcceptContact, SendMessage, Receive, Post, Pop;
  }

  /** It cuts the conversation that its move cuts. */
  lemma CutsStayMatched(w: N.World, s: N.Step, b: string, la: Cuts)
    requires N.Enabled(w, s) && b in w.nodes && b != s.who && CutsMatch(w, s.who, b, la)
    ensures
      var m := Effect(w, s, b);
      CutsMatch(N.Next(w, s), s.who, b, if m.Some? then CutsAfter(View(w, s.who, b), m.value, la) else la)
  {
    hide AddContact, AcceptContact, SendMessage, Receive, Post, Pop, From;
    if s.SendText? {
      assert View(w, s.who, b).sa == w.nodes[s.who].Has(b);
    }
  }

  lemma FirstKeepsContained(w: N.World, s: N.Step, b: string, la: Cuts, lb: Cuts)
    requires N.Good(w) && Numbers(w) && N.Enabled(w, s) && b in w.nodes && b != s.who
    requires Titled(w, s.who, b) && Titled(N.Next(w, s), s.who, b)
    requires Confined(s.who, b, View(w, s.who, b), la, lb) && CutsMatch(w, s.who, b, la) && CutsMatch(w, b, s.who, lb)
    ensures Contained(N.Next(w, s), s.who, b)
  {
    hide Confined, View, Act, Effect, N.Next, N.Enabled, Enabled, Manageable, CutsAfter;
    var a, w', p := s.who, N.Next(w, s), View(w, s.who, b);
    var m := Effect(w, s, b);
    ActorMoves(w, s, b);
    CutsStayMatched(w, s, b, la);
    DamageIsOwn(w, s);
    assert CutsMatch(w', b, a, lb);
    if m.Some? {
      EffectIsManageable(w, s, b);
      assert IsAddress(a) && IsAddress(b) by { assert N.GoodNode(w, a, w.nodes[a]) && N.GoodNode(w, b, w.nodes[b]); }
      NumbersOfPair(w, a, b);
      MoveKeepsConfined(a, b, p, m.value, la, lb);
      assert Confined(a, b, View(w', a, b), CutsAfter(p, m.value, la), lb);
    } else {
      assert Confined(a, b, View(w', a, b), la, lb);
    }
  }

  lemma NumbersOfPair(w: N.World, a: string, b: string)
    requires Numbers(w) && a in w.nodes && b in w.nodes && a != b
    ensures AllNumbers(View(w, a, b))
  {
    forall x ensures Numbered(View(w, a, b), x) && Numbered(View(w, a, b).Swap(), x) {
      SwapView(w, a, b);
      assert AllNumbered(w, x);
    }
  }

  lemma SwapContained(w: N.World, a: string, b: string)
    requires a in w.nodes && b in w.nodes && Contained(w, a, b)
    ensures Contained(w, b, a)
  {
    hide Confined, View;
    var la, lb :| Confined(a, b, View(w, a, b), la, lb) && CutsMatch(w, a, b, la) && CutsMatch(w, b, a, lb);
    SwapView(w, a, b);
    SwapConfined(a, b, View(w, a, b), la, lb);
  }

  lemma NextKeepsContained(w: N.World, s: N.Step, a: string, b: string)
    requires N.Good(w) && Numbers(w) && N.Enabled(w, s)
    requires Titled(w, a, b) && Titled(N.Next(w, s), a, b) && Contained(w, a, b)
    ensures Contained(N.Next(w, s), a, b)
  {
    hide Confined, View, N.Next, CutsMatch;
    if s.who == a {
      var la, lb :| Confined(a, b, View(w, a, b), la, lb) && CutsMatch(w, a, b, la) && CutsMatch(w, b, a, lb);
      FirstKeepsContained(w, s, b, la, lb);
    } else if s.who == b {
      SwapContained(w, a, b);
      var lb, la :| Confined(b, a, View(w, b, a), lb, la) && CutsMatch(w, b, a, lb) && CutsMatch(w, a, b, la);
      FirstKeepsContained(w, s, a, lb, la);
      SwapContained(N.Next(w, s), b, a);
    } else {
      OtherKeepsContained(w, s, a, b);
    }
  }

  lemma OtherKeepsContained(w: N.World, s: N.Step, a: string, b: string)
    requires N.Good(w) && N.Enabled(w, s) && s.who != a && s.who != b
    requires a in w.nodes && b in w.nodes && Contained(w, a, b)
    ensures a in N.Next(w, s).nodes && b in N.Next(w, s).nodes && Contained(N.Next(w, s), a, b)
  {
    hide Confined, View, N.Next;
    var la, lb :| Confined(a, b, View(w, a, b), la, lb) && CutsMatch(w, a, b, la) && CutsMatch(w, b, a, lb);
    OthersSeeNothing(w, s, a, b);
    DamageIsOwn(w, s);
    assert Confined(a, b, View(N.Next(w, s), a, b), la, lb);
  }

  // ----- Every run -----

  ghost predicate AllContained(w: N.World) {
    forall a, b :: Titled(w, a, b) ==> Contained(w, a, b)
  }

  lemma {:induction false} RunKeepsContained(w: N.World, steps: seq<N.Step>)
    requires N.Good(w) && Numbers(w) && AllContained(w) && N.IsRun(w, steps)
    ensures N.Good(N.End(w, steps)) && Numbers(N.End(w, steps)) && AllContained(N.End(w, steps))
    decreases |steps|
  {
    hide Contained, AllNumbered, Titled;
    if steps != [] {
      var w' := N.Next(w, steps[0]);
      forall x ensures AllNumbered(w', x) { NextKeepsNumbered(w, steps[0], x); }
      N.NextKeepsGood(w, steps[0]);
      NextKeepsAllContained(w, steps[0]);
      RunKeepsContained(w', steps[1..]);
    }
  }

  lemma NextKeepsAllContained(w: N.World, s: N.Step)
    requires N.Good(w) && Numbers(w) && AllContained(w) && N.Enabled(w, s)
    ensures AllContained(N.Next(w, s))
  {
    hide N.Next, View, Numbers, N.Good;
    forall a, b | Titled(N.Next(w, s), a, b)
      ensures Contained(N.Next(w, s), a, b)
    {
      TitledBefore(w, s, a, b);
      NextKeepsContained(w, s, a, b);
    }
  }

  lemma StrangersAreContained(w: N.World, a: string, b: string)
    requires a in w.nodes && b in w.nodes && Idle(View(w, a, b)) && w.damage == {}
    ensures Contained(w, a, b)
  {
    hide Confined, OnWay, Settled;
    StrangersAreConfined(a, b);
    assert View(w, a, b) == Pair(EMPTY, EMPTY, [], []);
    assert CutsMatch(w, a, b, map[]) && CutsMatch(w, b, a, map[]);
  }

  lemma ReachableIsContained(addresses: set<string>, steps: seq<N.Step>)
    requires Reaches(addresses, steps)
    ensures Numbers(Reached(addresses, steps)) && AllContained(Reached(addresses, steps))
    ensures N.Good(Reached(addresses, steps))
  {
    var w := N.Init(addresses);
    N.InitGood(addresses);
    forall a, b | Titled(w, a, b) ensures Contained(w, a, b) {
      StrangersAreContained(w, a, b);
    }
    RunKeepsContained(w, steps);
  }

  /** The cuts of a reachable pair. */
  lemma ReachablePair(addresses: set<string>, steps: seq<N.Step>, a: string, b: string) returns (la: Cuts, lb: Cuts)
    requires Reaches(addresses, steps) && Titled(Reached(addresses, steps), a, b)
    ensures
      var w := Reached(addresses, steps);
      && N.Good(w) && AllNumbers(View(w, a, b))
      && Confined(a, b, View(w, a, b), la, lb) && CutsMatch(w, a, b, la) && CutsMatch(w, b, a, lb)
  {
    ReachableIsContained(addresses, steps);
    var w := Reached(addresses, steps);
    NumbersOfPair(w, a, b);
    assert Contained(w, a, b);
    la, lb :| Confined(a, b, View(w, a, b), la, lb) && CutsMatch(w, a, b, la) && CutsMatch(w, b, a, lb);
  }
}
