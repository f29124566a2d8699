/**
  What two clients can always still do: connect, unless they have asked each
  other, and get a message across. Both start from any reachable state, with
  any operations in flight and anything queued.
  */
module Liveness {
  import opened Hex
  import opened Queues
  import opened Peer
  import opened Pair
  import opened Sync
  import opened Delivery
  import opened Limits
  import opened Reduction
  import opened Runs
  import opened Progress
  import N = Network

  // ----- Connecting -----

  lemma DistinctIds(r1: Bytes, r2: Bytes)
    requires r1 != r2
    ensures Encode(r1) != Encode(r2)
  {
    DecodeEncode(r1);
    DecodeEncode(r2);
  }

  /** Between strangers, finishing what a is doing for others shows nothing. */
  lemma FinishBetweenStrangers(w: N.World, a: string, b: string)
    requires Safe(w) && Clean(w, a, b) && Idle(View(w, a, b))
    ensures N.IsRun(w, Finish(w, a))
    ensures
      var w' := N.End(w, Finish(w, a));
      && Safe(w') && Clean(w', a, b) && Idle(View(w', a, b)) && w'.nodes[a].Idle() && w'.owners == w.owners
      && |Queue(w'.hub.pending, a)| <= |Queue(w.hub.pending, a)| + 1
      && |Queue(w'.hub.pending, b)| <= |Queue(w.hub.pending, b)| + 1
  {
    FinishOnce(w, a);
    if Finish(w, a) != [] {
      QuietShows(w, Finish(w, a)[0], a, b);
      OneStep(w, Finish(w, a)[0]);
    }
  }

  /** An idle client's request to a stranger. */
  lemma AskStranger(w: N.World, a: string, b: string, e1: nat, random: Bytes)
    requires Safe(w) && Clean(w, a, b) && Idle(View(w, a, b)) && w.nodes[a].Idle() && N.NewId(w, random)
    ensures
      var s := N.AskContact(a, b, e1, random);
      && N.Enabled(w, s)
      && var w' := N.Next(w, s);
      && Safe(w') && Clean(w', a, b) && Asked(a, b, View(w', a, b))
      && w'.owners.Keys <= w.owners.Keys + {Encode(random)} && w'.hub == w.hub
  {
    var s := N.AskContact(a, b, e1, random);
    assert N.GoodNode(w, a, w.nodes[a]) && N.GoodNode(w, b, w.nodes[b]);
    NextKeepsSafe(w, s);
    ActorMoves(w, s, b);
    AddWrites(a, b, EMPTY, e1, random);
  }

  lemma IdleStrangersCanConnect(w: N.World, a: string, b: string, e1: nat, r1: Bytes, e2: nat, r2: Bytes)
    returns (steps: seq<N.Step>)
    requires Safe(w) && Clean(w, a, b) && Idle(View(w, a, b)) && w.nodes[a].Idle()
    requires N.NewId(w, r1) && N.NewId(w, r2) && r1 != r2
    ensures N.IsRun(w, steps) && Catching(steps, a, b, {N.AskContact(a, b, e1, r1), N.AnswerContact(b, a, e2, r2)})
    ensures |steps| <= 15 + 2 * |Queue(w.hub.pending, a)| + 2 * |Queue(w.hub.pending, b)|
    ensures
      var w' := N.End(w, steps);
      && Clean(w', a, b)
      && w'.nodes[a].Has(b).contact.ContactAdded? && w'.nodes[b].Has(a).contact.ContactAdded?
  {
    hide View, Idle, Synchronised, Asked, AddContact;
    DistinctIds(r1, r2);
    var ask := N.AskContact(a, b, e1, r1);
    AskStranger(w, a, b, e1, r1);
    OneStep(w, ask);
    var w1 := N.Next(w, ask);
    var rest := RequestCanComplete(w1, a, b, e2, r2);
    RunConcat(w, [ask], rest);
    steps := [ask] + rest;
  }

  lemma StrangersCanConnect(w: N.World, a: string, b: string, e1: nat, r1: Bytes, e2: nat, r2: Bytes)
    returns (steps: seq<N.Step>)
    requires Safe(w) && Clean(w, a, b) && Idle(View(w, a, b))
    requires N.NewId(w, r1) && N.NewId(w, r2) && r1 != r2
    ensures N.IsRun(w, steps) && Catching(steps, a, b, {N.AskContact(a, b, e1, r1), N.AnswerContact(b, a, e2, r2)})
    ensures |steps| <= 20 + 2 * |Queue(w.hub.pending, a)| + 2 * |Queue(w.hub.pending, b)|
    ensures
      var w' := N.End(w, steps);
      && Clean(w', a, b)
      && w'.nodes[a].Has(b).contact.ContactAdded? && w'.nodes[b].Has(a).contact.ContactAdded?
  {
    hide View, Idle, Safe;
    var first := Finish(w, a);
    FinishBetweenStrangers(w, a, b);
    var rest := IdleStrangersCanConnect(N.End(w, first), a, b, e1, r1, e2, r2);
    RunConcat(w, first, rest);
    steps := first + rest;
  }

  /**
    From every reachable state two clients within the limits can still connect,
    by a request and an answer and boundedly many polls, unless each is waiting
    for the other (when `CrossedRequestsNeverComplete`).
    */
  lemma CanConnectUnlessCrossed(addresses: set<string>, run: seq<N.Step>, a: string, b: string, e1: nat, r1: Bytes, e2: nat, r2: Bytes)
    returns (steps: seq<N.Step>)
    requires Reaches(addresses, run) && Clean(Reached(addresses, run), a, b)
    requires N.NewId(Reached(addresses, run), r1) && N.NewId(Reached(addresses, run), r2) && r1 != r2
    requires
      var w := Reached(addresses, run);
      !(w.nodes[a].Has(b).contact.WaitingForAccept? && w.nodes[b].Has(a).contact.WaitingForAccept?)
    ensures
      var w := Reached(addresses, run);
      && N.IsRun(w, steps)
      && Catching(steps, a, b, {N.AskContact(a, b, e1, r1), N.AnswerContact(b, a, e2, r2), N.AnswerContact(a, b, e2, r2)})
      && |steps| <= 20 + 2 * |Queue(w.hub.pending, a)| + 2 * |Queue(w.hub.pending, b)|
      && var w' := N.End(w, steps);
      && Clean(w', a, b)
      && w'.nodes[a].Has(b).contact.ContactAdded? && w'.nodes[b].Has(a).contact.ContactAdded?
  {
    Reachable(addresses, run);
    var w := Reached(addresses, run);
    var p := View(w, a, b);
    SwapView(w, a, b);
    if Idle(p) {
      steps := StrangersCanConnect(w, a, b, e1, r1, e2, r2);
    } else if Underway(a, b, p) {
      steps := RequestCanComplete(w, a, b, e2, r2);
    } else {
      assert Underway(b, a, View(w, b, a));
      steps := RequestCanComplete(w, b, a, e2, r2);
    }
  }

  // ----- Getting a message across -----

  /** The conversation a send ends up in. */
  function Target(x: string, random: Bytes): string {
    if x == "" then Encode(random) else x
  }

  lemma SendIsReady(a: string, side: Side, b: string, x: string, content: Bytes, random: Bytes)
    requires IsAddress(b) && side.contact.ContactAdded? && Fits(content)
    requires x == "" || (x in side.convos && |x| == 32 && IsHex(x))
    ensures
      var o := SendMessage(a, side, b, x, content, random);
      && o.Ready?
      && Target(x, random) in After(o).convos
      && (if x == "" then After(o).convos[Target(x, random)].title == content
          else SentOf(After(o), x) == SentOf(side, x) + [content])
  {
    EncodeIsLowerHex(random);
  }

  /** What a fitting send leaves with its sender. */
  lemma SendWrites(a: string, b: string, p: Pair, x: string, content: Bytes, random: Bytes)
    requires IsAddress(a) && IsAddress(b) && Linked(a, b, p) && p.sa.contact.ContactAdded? && Fits(content)
    requires Enabled(p, Say(x, content, random)) && (x == "" || x in p.sa.convos)
    ensures
      var p' := Act(a, b, p, Say(x, content, random));
      && Linked(a, b, p')
      && Target(x, random) in p'.sa.convos
      && (if x == "" then p'.sa.convos[Target(x, random)].title == content
          else SentOf(p'.sa, x) == SentOf(p.sa, x) + [content])
  {
    if x != "" {
      KnownIdsAreLong(a, b, p, x);
    }
    hide SendMessage, After, Linked, Fits;
    SendIsReady(a, p.sa, b, x, content, random);
    SayIsPosted(a, b, p, x, content, random);
    SayLinked(a, b, p, x, content, random);
  }

  lemma SendTextWrites(w: N.World, a: string, b: string, x: string, content: Bytes, random: Bytes)
    requires Safe(w) && Clean(w, a, b) && w.nodes[a].Idle() && w.nodes[a].Has(b).contact.ContactAdded?
    requires Fits(content) && (x == "" ==> N.NewId(w, random)) && (x != "" ==> x in w.nodes[a].Has(b).convos)
    ensures
      var s := N.SendText(a, b, x, content, random);
      && N.Enabled(w, s)
      && var w' := N.Next(w, s);
      && Safe(w') && Clean(w', a, b) && Linked(a, b, View(w', a, b)) && w'.hub == w.hub
      && var side := View(w', a, b).sa;
      && Target(x, random) in side.convos
      && (if x == "" then side.convos[Target(x, random)].title == content
          else SentOf(side, x) == SentOf(w.nodes[a].Has(b), x) + [content])
  {
    hide SendMessage, Linked;
    var s := N.SendText(a, b, x, content, random);
    assert N.GoodNode(w, a, w.nodes[a]) && N.GoodNode(w, b, w.nodes[b]);
    NextKeepsSafe(w, s);
    ActorMoves(w, s, b);
    AddedIsLinked(a, b, View(w, a, b));
    SendWrites(a, b, View(w, a, b), x, content, random);
  }

  /**
    From every reachable state a connected client's next message, if it fits,
    arrives: sending it and polling is a run after which the other end has
    stored everything sent before followed by it, or the thread it opens.
    */
  lemma MessageArrives(addresses: set<string>, run: seq<N.Step>, a: string, b: string, x: string, content: Bytes, random: Bytes)
    returns (steps: seq<N.Step>)
    requires Reaches(addresses, run) && Clean(Reached(addresses, run), a, b) && Fits(content)
    requires
      var w := Reached(addresses, run);
      && w.nodes[a].Idle() && w.nodes[a].Has(b).contact.ContactAdded?
      && (x == "" ==> N.NewId(w, random)) && (x != "" ==> x in w.nodes[a].Has(b).convos)
    ensures steps != [] && steps[0] == N.SendText(a, b, x, content, random) && Catching(steps[1..], a, b, {})
    ensures
      var w := Reached(addresses, run);
      && N.IsRun(w, steps) && |steps| <= 7 + 2 * |Queue(w.hub.pending, b)|
      && var w' := N.End(w, steps);
      && Clean(w', a, b)
      && var there, y := w'.nodes[b].Has(a), Target(x, random);
      && y in there.convos
      && (if x == "" then there.convos[y].title == content
          else there.convos[y].got == SentOf(w.nodes[a].Has(b), x) + [content])
  {
    Reachable(addresses, run);
    var w := Reached(addresses, run);
    var s := N.SendText(a, b, x, content, random);
    SendTextWrites(w, a, b, x, content, random);
    var w1 := N.Next(w, s);
    var rest := Settle(w1, a, b);
    var y := Target(x, random);
    QuietRunKeepsSent(w1, rest, a, b, y);
    var w2 := N.End(w1, rest);
    PrefixDelivery(a, b, View(w2, a, b), y);
    OneStep(w, s);
    RunConcat(w, [s], rest);
    steps := [s] + rest;
  }
}
