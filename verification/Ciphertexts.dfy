/**
  The record of encryptions is complete: every ciphertext the hub has ever
  accepted is in its sender's record, and no two of them start from one state.
  */
module Ciphertexts {
  import opened Hex
  import opened Strobe
  import opened Queues
  import opened Peer
  import opened Uniqueness
  import N = Network

  /** The i-th message ever accepted for r is a ciphertext. */
  predicate Accepted(w: N.World, r: string, i: int) {
    r in w.hub.accepted && 0 <= i < |w.hub.accepted[r]| && w.hub.accepted[r][i].content.Ct?
  }

  function StateAt(w: N.World, r: string, i: int): State
    requires Accepted(w, r, i)
  {
    w.hub.accepted[r][i].content.state
  }

  predicate Recorded(n: N.Node, s: State) {
    exists k :: 0 <= k < |n.spent| && n.spent[k].state == s
  }

  ghost predicate AllRecorded(w: N.World) {
    forall r, i :: Accepted(w, r, i) ==>
      w.hub.accepted[r][i].from in w.nodes && Recorded(w.nodes[w.hub.accepted[r][i].from], StateAt(w, r, i))
  }

  ghost predicate AllDistinct(w: N.World) {
    forall r, i, q, j :: Accepted(w, r, i) && Accepted(w, q, j) && StateAt(w, r, i) == StateAt(w, q, j) ==> r == q && i == j
  }

  predicate HasCiphertext(n: N.Node) {
    n.outgoing.Some? && n.outgoing.value.request.content.Ct?
  }

  function InHand(n: N.Node): State
    requires HasCiphertext(n)
  {
    n.outgoing.value.request.content.state
  }

  /** A ciphertext that waits for the hub is recorded, and was never accepted before. */
  ghost predicate HandsNew(w: N.World) {
    forall a :: a in w.nodes && HasCiphertext(w.nodes[a]) ==>
      && Recorded(w.nodes[a], InHand(w.nodes[a]))
      && forall r, i :: Accepted(w, r, i) ==> StateAt(w, r, i) != InHand(w.nodes[a])
  }

  ghost predicate Complete(w: N.World) {
    AllRecorded(w) && AllDistinct(w) && HandsNew(w)
  }

  /** Two clients' records share no state. */
  lemma RecordsDiffer(w: N.World, a: string, b: string, s: State)
    requires AllOk(w) && a in w.nodes && b in w.nodes && Recorded(w.nodes[a], s) && Recorded(w.nodes[b], s)
    ensures a == b
  {
    var i :| 0 <= i < |w.nodes[a].spent| && w.nodes[a].spent[i].state == s;
    var j :| 0 <= j < |w.nodes[b].spent| && w.nodes[b].spent[j].state == s;
    SpentOnce(a, w.nodes[a], i, b, w.nodes[b], j);
  }

  // ----- One step -----

  /** No new ciphertext in hand, and none recorded, or one of each, from the same state. */
  predicate Hands(n: N.Node, n': N.Node) {
    if |n'.spent| == |n.spent| then n'.spent == n.spent && (HasCiphertext(n') ==> HasCiphertext(n) && InHand(n') == InHand(n))
    else
      && |n'.spent| == |n.spent| + 1 && n'.spent[..|n.spent|] == n.spent
      && HasCiphertext(n') && n'.spent[|n.spent|].state == InHand(n')
  }

  lemma RecordStays(n: N.Node, n': N.Node, s: State)
    requires Hands(n, n') && Recorded(n, s)
    ensures Recorded(n', s)
  {
    var k :| 0 <= k < |n.spent| && n.spent[k].state == s;
    assert n'.spent[..|n.spent|][k] == n'.spent[k];
    assert n'.spent[k].state == s;
  }

  /** What a client newly records, nobody had recorded. */
  lemma NewIsNotRecorded(w: N.World, w': N.World, a: string, n': N.Node, b: string, s: State)
    requires AllOk(w') && a in w.nodes && b in w.nodes && w'.nodes == w.nodes[a := n']
    requires
      var n := w.nodes[a];
      |n'.spent| == |n.spent| + 1 && n'.spent[..|n.spent|] == n.spent && n'.spent[|n.spent|].state == s
    ensures !Recorded(w.nodes[b], s)
  {
    hide ClientOk;
    var n := w.nodes[a];
    assert LocalOk(a, w'.nodes[a]) && LocalOk(b, w'.nodes[b]);
    if Recorded(w.nodes[b], s) {
      var k :| 0 <= k < |w.nodes[b].spent| && w.nodes[b].spent[k].state == s;
      if b == a {
        assert n'.spent[..|n.spent|][k] == n'.spent[k];
      }
      SpentOnce(a, n', |n.spent|, b, w'.nodes[b], k);
      assert false;
    }
  }

  lemma LocalKeepsHands(w: N.World, w': N.World, a: string, n': N.Node)
    requires AllOk(w') && AllRecorded(w) && HandsNew(w) && a in w.nodes
    requires w'.hub.accepted == w.hub.accepted && w'.nodes == w.nodes[a := n'] && Hands(w.nodes[a], n')
    ensures HandsNew(w')
  {
    hide LocalOk, Recorded;
    forall b | b in w'.nodes && HasCiphertext(w'.nodes[b])
      ensures Recorded(w'.nodes[b], InHand(w'.nodes[b]))
      ensures forall r, i :: Accepted(w', r, i) ==> StateAt(w', r, i) != InHand(w'.nodes[b])
    {
      if b == a && n'.spent != w.nodes[a].spent {
        LastIsRecorded(n');
        forall r, i | Accepted(w', r, i)
          ensures StateAt(w', r, i) != InHand(n')
        {
          assert Accepted(w, r, i);
          NewIsNotRecorded(w, w', a, n', w.hub.accepted[r][i].from, InHand(n'));
        }
      } else {
        assert HasCiphertext(w.nodes[b]) && InHand(w.nodes[b]) == InHand(w'.nodes[b]);
        if b == a { RecordStays(w.nodes[a], n', InHand(n')); }
        forall r, i | Accepted(w', r, i)
          ensures StateAt(w', r, i) != InHand(w'.nodes[b])
        {
          assert Accepted(w, r, i);
        }
      }
    }
  }

  lemma LastIsRecorded(n: N.Node)
    requires HasCiphertext(n) && n.spent != [] && n.spent[|n.spent| - 1].state == InHand(n)
    ensures Recorded(n, InHand(n))
  {
  }

  /** A step that leaves the hub's past alone, and hands over no ciphertext but one it newly records. */
  lemma LocalKeepsComplete(w: N.World, w': N.World, a: string, n': N.Node)
    requires AllOk(w') && Complete(w) && a in w.nodes
    requires w'.hub.accepted == w.hub.accepted && w'.nodes == w.nodes[a := n'] && Hands(w.nodes[a], n')
    ensures Complete(w')
  {
    hide LocalOk, Recorded, HandsNew, Hands;
    LocalKeepsHands(w, w', a, n');
    forall r, i | Accepted(w', r, i)
      ensures w'.hub.accepted[r][i].from in w'.nodes && Recorded(w'.nodes[w'.hub.accepted[r][i].from], StateAt(w', r, i))
    {
      assert Accepted(w, r, i);
      if w.hub.accepted[r][i].from == a { RecordStays(w.nodes[a], n', StateAt(w, r, i)); }
    }
    forall r, i, q, j | Accepted(w', r, i) && Accepted(w', q, j) && StateAt(w', r, i) == StateAt(w', q, j)
      ensures r == q && i == j
    {
      assert Accepted(w, r, i) && Accepted(w, q, j);
    }
  }

  /** The hub accepts what was in hand. */
  lemma UploadKeepsComplete(w: N.World, a: string)
    requires AllOk(w) && Complete(w) && N.Enabled(w, N.Upload(a)) && Admitted(w.nodes[a].outgoing.value.request)
    ensures Complete(N.Uploaded(w, a))
  {
    hide Recorded, Admitted;
    var w' := N.Uploaded(w, a);
    var req := w.nodes[a].outgoing.value.request;
    var k, n := ToLower(req.to), |Queue(w.hub.accepted, ToLower(req.to))|;
    AcceptedGrows(w, a);
    forall b ensures b in w.nodes ==> forall s :: Recorded(w.nodes[b], s) ==> Recorded(w'.nodes[b], s) {
      if b in w.nodes { SameRecord(w, a, b); }
    }
    forall r, i | Accepted(w', r, i)
      ensures w'.hub.accepted[r][i].from in w'.nodes && Recorded(w'.nodes[w'.hub.accepted[r][i].from], StateAt(w', r, i))
    {
      assert (r == k && i == n) || Accepted(w, r, i);
    }
    forall r, i, q, j | Accepted(w', r, i) && Accepted(w', q, j) && StateAt(w', r, i) == StateAt(w', q, j)
      ensures r == q && i == j
    {
      assert ((r == k && i == n) || Accepted(w, r, i)) && ((q == k && j == n) || Accepted(w, q, j));
    }
    forall b | b in w'.nodes && HasCiphertext(w'.nodes[b])
      ensures Recorded(w'.nodes[b], InHand(w'.nodes[b]))
      ensures forall r, i :: Accepted(w', r, i) ==> StateAt(w', r, i) != InHand(w'.nodes[b])
    {
      assert b != a && w'.nodes[b] == w.nodes[b];
      forall r, i | Accepted(w', r, i)
        ensures StateAt(w', r, i) != InHand(w'.nodes[b])
      {
        if r == k && i == n {
          if StateAt(w', r, i) == InHand(w.nodes[b]) { RecordsDiffer(w, a, b, InHand(w.nodes[b])); }
        } else {
          assert Accepted(w, r, i);
        }
      }
    }
  }

  lemma SameRecord(w: N.World, a: string, b: string)
    requires N.Enabled(w, N.Upload(a)) && b in w.nodes
    ensures b in N.Uploaded(w, a).nodes && N.Uploaded(w, a).nodes[b].spent == w.nodes[b].spent
    ensures forall s :: Recorded(w.nodes[b], s) ==> Recorded(N.Uploaded(w, a).nodes[b], s)
  {
  }

  /** Accepting adds one message at the end of one list. */
  lemma AcceptedGrows(w: N.World, a: string)
    requires N.Enabled(w, N.Upload(a)) && Admitted(w.nodes[a].outgoing.value.request)
    ensures
      var w', req := N.Uploaded(w, a), w.nodes[a].outgoing.value.request;
      var k, n := ToLower(req.to), |Queue(w.hub.accepted, ToLower(req.to))|;
      && k in w'.hub.accepted && |w'.hub.accepted[k]| == n + 1
      && w'.hub.accepted[k][n] == Envelope(a, req.convo, req.content)
      && (forall r, i :: !(r == k && i == n) ==>
          (Accepted(w', r, i) <==> Accepted(w, r, i))
          && (Accepted(w, r, i) ==> w'.hub.accepted[r][i] == w.hub.accepted[r][i]))
      && w'.nodes.Keys == w.nodes.Keys && w'.nodes[a].outgoing.None?
      && (forall b :: b in w.nodes && b != a ==> w'.nodes[b] == w.nodes[b])
  {
    hide Check;
  }

  lemma NextKeepsComplete(w: N.World, s: N.Step)
    requires N.Good(w) && AllOk(w) && Complete(w) && N.Enabled(w, s)
    ensures Complete(N.Next(w, s))
  {
    hide Complete, LocalOk, SendMessage, AddContact, AcceptContact, Receive, Admitted, N.Good;
    var w' := N.Next(w, s);
    NextKeepsAllOk(w, s);
    if s.Upload? && Admitted(w.nodes[s.who].outgoing.value.request) {
      UploadKeepsComplete(w, s.who);
    } else {
      ActorHands(w, s);
      LocalKeepsComplete(w, w', s.who, w'.nodes[s.who]);
    }
  }

  /** What a step other than an acceptance makes of the client's record and of what it hands over. */
  lemma ActorHands(w: N.World, s: N.Step)
    requires N.Good(w) && N.Enabled(w, s) && !(s.Upload? && Admitted(w.nodes[s.who].outgoing.value.request))
    ensures
      var w' := N.Next(w, s);
      && w'.hub.accepted == w.hub.accepted && s.who in w'.nodes && w'.nodes == w.nodes[s.who := w'.nodes[s.who]]
      && Hands(w.nodes[s.who], w'.nodes[s.who])
  {
    match s
    case AskContact(a, bob, e1, random) => AskHandsNoCiphertext(a, w.nodes[a].Has(bob), bob, e1, random);
    case AnswerContact(a, alice, e2, random) => AskHandsNoCiphertext(a, w.nodes[a].Has(alice), alice, e2, random);
    case SendText(a, to, x, content, random) => SendRecords(w.nodes[a], a, to, x, content, random);
    case _ =>
  }

  lemma AskHandsNoCiphertext(me: string, side: Side, p: string, e: nat, random: Bytes)
    ensures AddContact(me, side, p, e, random).Some? ==> AddContact(me, side, p, e, random).value.1.content.Hs1?
    ensures AcceptContact(me, side, p, e, random).Some? ==> AcceptContact(me, side, p, e, random).value.1.content.Hs2?
  {
  }

  /** A send that hands over a request records the state it encrypted from; one that fails records nothing. */
  lemma SendRecords(n: N.Node, a: string, to: string, x: string, content: Bytes, random: Bytes)
    requires n.Idle()
    ensures
      var o := SendMessage(a, n.Has(to), to, x, content, random);
      var n' := N.Sent(n, to, o);
      if o.Ready? then
        HasCiphertext(n') && n'.spent == n.spent + [N.Use(to, o.request.convo, InHand(n'))]
      else n'.spent == n.spent && !HasCiphertext(n')
  {
    hide SendMessage;
    SendHasShape(a, n.Has(to), to, x, content, random);
  }

  // ----- Every run -----

  lemma {:induction false} RunKeepsComplete(w: N.World, steps: seq<N.Step>)
    requires N.Good(w) && AllOk(w) && Complete(w) && N.IsRun(w, steps)
    ensures Complete(N.End(w, steps))
    decreases |steps|
  {
    hide Complete, AllOk;
    if steps != [] {
      NextKeepsComplete(w, steps[0]);
      NextKeepsAllOk(w, steps[0]);
      RunKeepsComplete(N.Next(w, steps[0]), steps[1..]);
    }
  }

  /**
    In every run, no two ciphertexts the hub ever accepts, from whomever and for
    whomever, start from one STROBE state, and each is on its sender's record.
    */
  lemma NoTwoCiphertextsShareAState(addresses: set<string>, steps: seq<N.Step>, r: string, i: nat, q: string, j: nat)
    requires forall c :: c in addresses ==> IsAddress(c)
    requires N.IsRun(N.Init(addresses), steps)
    requires var w := N.End(N.Init(addresses), steps); Accepted(w, r, i) && Accepted(w, q, j)
    ensures
      var w := N.End(N.Init(addresses), steps);
      && (StateAt(w, r, i) == StateAt(w, q, j) ==> r == q && i == j)
      && w.hub.accepted[r][i].from in w.nodes && Recorded(w.nodes[w.hub.accepted[r][i].from], StateAt(w, r, i))
  {
    N.InitGood(addresses);
    RunKeepsComplete(N.Init(addresses), steps);
  }
}
