/**
  Every run of the network: between any two clients that have stayed within the
  limits, the pair relation holds after every step.
  */
module Runs {
  import opened Hex
  import opened Sync
  import opened Reduction
  import N = Network

  ghost predicate Clean(w: N.World, a: string, b: string) {
    a in w.nodes && b in w.nodes && a != b && forall d :: d in w.damage ==> !d.Between(a, b)
  }

  ghost predicate Safe(w: N.World) {
    && N.Good(w)
    && (forall a, b :: Clean(w, a, b) ==> Synchronised(a, b, View(w, a, b)))
  }

  /** A run from the initial state of some set of clients. */
  ghost predicate Reaches(addresses: set<string>, steps: seq<N.Step>) {
    && (forall a :: a in addresses ==> IsAddress(a))
    && N.IsRun(N.Init(addresses), steps)
  }

  function Reached(addresses: set<string>, steps: seq<N.Step>): N.World
    requires N.IsRun(N.Init(addresses), steps)
  {
    N.End(N.Init(addresses), steps)
  }

  lemma InitSafe(addresses: set<string>)
    requires forall a :: a in addresses ==> IsAddress(a)
    ensures Safe(N.Init(addresses))
  {
    N.InitGood(addresses);
    var w := N.Init(addresses);
    forall a, b | Clean(w, a, b)
      ensures Synchronised(a, b, View(w, a, b))
    {
      assert Idle(View(w, a, b));
    }
  }

  /** A step that leaves a pair clean is a move within the limits. */
  lemma CleanMovesAreSound(w: N.World, s: N.Step, b: string)
    requires N.Good(w) && N.Enabled(w, s) && Clean(N.Next(w, s), s.who, b) && b in w.nodes
    ensures Effect(w, s, b).Some? ==> Sound(View(w, s.who, b), Effect(w, s, b).value)
  {
    assert N.GoodNode(w, s.who, w.nodes[s.who]);
    N.NextKeepsGood(w, s);
  }

  lemma ActorKeepsSynchronised(w: N.World, s: N.Step, b: string)
    requires Safe(w) && N.Enabled(w, s) && Clean(w, s.who, b) && Clean(N.Next(w, s), s.who, b)
    ensures Synchronised(s.who, b, View(N.Next(w, s), s.who, b))
  {
    ActorMoves(w, s, b);
    CleanMovesAreSound(w, s, b);
    assert N.GoodNode(w, s.who, w.nodes[s.who]) && N.GoodNode(w, b, w.nodes[b]);
    var m := Effect(w, s, b);
    if m.Some? {
      MoveKeeps(s.who, b, View(w, s.who, b), m.value);
    }
  }

  /** Damage is only added. */
  lemma CleanBefore(w: N.World, s: N.Step, a: string, b: string)
    requires N.Good(w) && N.Enabled(w, s) && Clean(N.Next(w, s), a, b)
    ensures Clean(w, a, b) && Clean(w, b, a) && Clean(N.Next(w, s), b, a)
  {
    hide N.Next;
    N.NextKeepsGood(w, s);
  }

  lemma PairStaysSynchronised(w: N.World, s: N.Step, a: string, b: string)
    requires Safe(w) && N.Enabled(w, s) && Clean(w, a, b) && Clean(N.Next(w, s), a, b)
    ensures Synchronised(a, b, View(N.Next(w, s), a, b))
  {
    hide Synchronised, View, N.Next;
    var w' := N.Next(w, s);
    CleanBefore(w, s, a, b);
    if s.who == a {
      ActorKeepsSynchronised(w, s, b);
    } else if s.who == b {
      ActorKeepsSynchronised(w, s, a);
      SwapView(w', b, a);
      SwapSynchronised(b, a, View(w', b, a));
    } else {
      OthersSeeNothing(w, s, a, b);
    }
  }

  lemma NextKeepsSafe(w: N.World, s: N.Step)
    requires Safe(w) && N.Enabled(w, s)
    ensures Safe(N.Next(w, s))
  {
    hide Synchronised, View, N.Next;
    var w' := N.Next(w, s);
    N.NextKeepsGood(w, s);
    forall a, b | Clean(w', a, b)
      ensures Synchronised(a, b, View(w', a, b))
    {
      CleanBefore(w, s, a, b);
      PairStaysSynchronised(w, s, a, b);
    }
  }

  lemma {:induction false} RunKeepsSafe(w: N.World, steps: seq<N.Step>)
    requires Safe(w) && N.IsRun(w, steps)
    ensures Safe(N.End(w, steps))
    decreases |steps|
  {
    if steps != [] {
      NextKeepsSafe(w, steps[0]);
      RunKeepsSafe(N.Next(w, steps[0]), steps[1..]);
    }
  }

  /** Every reachable state is safe. */
  lemma Reachable(addresses: set<string>, steps: seq<N.Step>)
    requires forall a :: a in addresses ==> IsAddress(a)
    requires N.IsRun(N.Init(addresses), steps)
    ensures Safe(N.End(N.Init(addresses), steps))
  {
    InitSafe(addresses);
    RunKeepsSafe(N.Init(addresses), steps);
  }
}
