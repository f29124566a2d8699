/**
  What the size limits are for. The sender writes its advanced state before the
  hub answers, so a refused message leaves the two ends out of step, for good.
  */
module Limits {
  import opened Hex
  import opened Strobe
  import opened Crypto
  import opened Queues
  import opened Peer
  import opened Pair
  import opened Sync
  import opened Delivery

  // ----- The exact condition for a send to keep the ends in step -----

  /** A send by the first client together with the hub's answer to it. */
  function SayAndAnswer(a: string, b: string, p: Pair, x: string, content: Bytes, random: Bytes): Pair
    requires Enabled(p, Say(x, content, random))
  {
    var q := Act(a, b, p, Say(x, content, random));
    match SendMessage(a, p.sa, b, x, content, random)
    case Failed(_) => q
    case Ready(_, request, stored) =>
      if Admitted(request) then q else Act(a, b, q, Bounce(stored))
  }

  lemma AdmittedIffFits(a: string, b: string, p: Pair, x: string, content: Bytes, random: Bytes)
    requires IsAddress(b) && Linked(a, b, p) && Enabled(p, Say(x, content, random))
    requires SendMessage(a, p.sa, b, x, content, random).Ready?
    ensures Admitted(SendMessage(a, p.sa, b, x, content, random).request) <==> Fits(content)
  {
    hide SendMessage, Linked;
    KnownIdsAreLong(a, b, p, x);
    SendHasShape(a, p.sa, b, x, content, random);
  }

  lemma KnownIdsAreLong(a: string, b: string, p: Pair, x: string)
    requires Linked(a, b, p)
    ensures x in p.sa.convos ==> |x| == 32 && IsHex(x)
  {
    DeliverKeepsSending(a, b, p.sa, p.ba, x);
  }

  /** Whatever b receives, it will expect what a would have sent before this send. */
  lemma AheadIsNotLinked(a: string, b: string, p: Pair, q: Pair, x: string)
    requires Linked(a, b, p) && p.sa.contact.ContactAdded? && q.sa.contact.ContactAdded?
    requires q.sb == p.sb && q.ab == p.ab && q.ba == p.ba
    requires q.sa.contact.c1 != p.sa.contact.c1
          || (x in p.sa.convos && x in q.sa.convos && q.sa.convos[x].c1 != p.sa.convos[x].c1)
    ensures !Synchronised(a, b, q)
  {
    DeliverKeepsSending(a, b, p.sa, p.ba, x);
    DeliverKeepsSending(a, b, q.sa, q.ba, x);
  }

  lemma PostBounce(a: string, b: string, p: Pair, side: Side, r: Request, stored: Option<Bytes>)
    ensures Posted(a, p, StoreSent(side, r.convo, stored), r).ab != []
    ensures Act(a, b, Posted(a, p, StoreSent(side, r.convo, stored), r), Bounce(stored)) == p.(sa := side)
  {
    StoreUnstore(side, r.convo, stored);
    assert (p.ab + [Envelope(a, r.convo, r.content)])[..|p.ab|] == p.ab;
  }

  /** A refused message leaves what the first half of the send wrote, and nothing else. */
  lemma RefusedLeavesSide(a: string, b: string, p: Pair, x: string, content: Bytes, random: Bytes)
    requires IsAddress(b) && Linked(a, b, p) && Enabled(p, Say(x, content, random)) && !Fits(content)
    ensures SayAndAnswer(a, b, p, x, content, random) == p.(sa := SendMessage(a, p.sa, b, x, content, random).side)
  {
    var o := SendMessage(a, p.sa, b, x, content, random);
    if o.Ready? {
      AdmittedIffFits(a, b, p, x, content, random);
      PostBounce(a, b, p, o.side, o.request, o.stored);
    }
  }

  /** An over-long send that got as far as writing has advanced a thread or a session. */
  lemma OverlongAdvances(a: string, side: Side, b: string, x: string, content: Bytes, random: Bytes)
    requires IsAddress(b) && side.contact.ContactAdded?
    requires !Harmless(side, x, content) && (x == "" || (IsHex(x) && |x| == 32))
    ensures
      var side' := SendMessage(a, side, b, x, content, random).side;
      && side'.contact.ContactAdded?
      && (side'.contact.c1 != side.contact.c1
          || (x in side.convos && x in side'.convos && side'.convos[x].c1 != side.convos[x].c1))
  {
  }

  /**
    Whatever the phase, a send keeps two clients synchronised exactly when its
    content fits the hub's limit or it fails before anything is written.
    */
  lemma SynchronisedIffWithinLimits(a: string, b: string, p: Pair, x: string, content: Bytes, random: Bytes)
    requires IsAddress(a) && IsAddress(b) && Synchronised(a, b, p)
    requires Enabled(p, Say(x, content, random))
    ensures Synchronised(a, b, SayAndAnswer(a, b, p, x, content, random)) <==> Harmless(p.sa, x, content)
  {
    if !Harmless(p.sa, x, content) {
      OnlyLinkedWrite(a, b, p, x, content);
      KnownIdsAreLong(a, b, p, x);
      OverlongAdvances(a, p.sa, b, x, content, random);
      RefusedLeavesSide(a, b, p, x, content, random);
      AheadIsNotLinked(a, b, p, SayAndAnswer(a, b, p, x, content, random), x);
    } else {
      SayKeeps(a, b, p, x, content, random);
      if SendMessage(a, p.sa, b, x, content, random).Ready? {
        OnlyLinkedSend(a, b, p, x, content, random);
        AdmittedIffFits(a, b, p, x, content, random);
      }
    }
  }

  lemma OnlyLinkedWrite(a: string, b: string, p: Pair, x: string, content: Bytes)
    requires Synchronised(a, b, p) && !Harmless(p.sa, x, content)
    ensures Linked(a, b, p) && p.sa.contact.ContactAdded?
  {
  }

  lemma OnlyLinkedSend(a: string, b: string, p: Pair, x: string, content: Bytes, random: Bytes)
    requires Synchronised(a, b, p) && SendMessage(a, p.sa, b, x, content, random).Ready?
    ensures Linked(a, b, p)
  {
  }

  /** The web front end's limit, on the plaintext. */
  const WEB_MAX_CHARS: nat := 10000

  /**
    The front end admits contents that break the conversation they are sent in,
    or the thread they open: the longest sixteen.
    */
  lemma WebLimitIsTooHigh(a: string, b: string, p: Pair, x: string, content: Bytes, random: Bytes)
    requires IsAddress(a) && IsAddress(b) && Synchronised(a, b, p) && p.sa.contact.ContactAdded?
    requires Enabled(p, Say(x, content, random)) && (x == "" || x in p.sa.convos)
    requires 0 < |content| <= WEB_MAX_CHARS
    ensures Synchronised(a, b, SayAndAnswer(a, b, p, x, content, random)) <==> |content| <= WEB_MAX_CHARS - 16
  {
    SynchronisedIffWithinLimits(a, b, p, x, content, random);
  }

  // ----- Message numbers, in every run -----

  predicate Hit(e: Mail, x: string) {
    e.convo == x && e.content.Ct?
  }

  /** The messages of x carry increasing numbers, from lo on and below hi. */
  predicate Rising(es: seq<Mail>, x: string, lo: nat, hi: nat)
    decreases |es|
  {
    if es == [] then lo <= hi
    else if Hit(es[0], x) then lo <= Index(es[0].content.state) && Rising(es[1..], x, Index(es[0].content.state) + 1, hi)
    else Rising(es[1..], x, lo, hi)
  }

  lemma {:induction false} RisingFrom(es: seq<Mail>, x: string, lo: nat, lo': nat, hi: nat)
    requires Rising(es, x, lo, hi) && lo' <= lo
    ensures Rising(es, x, lo', hi) && lo <= hi
    decreases |es|
  {
    if es != [] {
      if Hit(es[0], x) {
        var i := Index(es[0].content.state) + 1;
        RisingFrom(es[1..], x, i, i, hi);
      } else {
        RisingFrom(es[1..], x, lo, lo', hi);
      }
    }
  }

  lemma {:induction false} RisingAppend(es: seq<Mail>, x: string, lo: nat, hi: nat, e: Mail)
    requires Rising(es, x, lo, hi) && (Hit(e, x) ==> Index(e.content.state) == hi)
    ensures Rising(es + [e], x, lo, if Hit(e, x) then hi + 1 else hi)
    decreases |es|
  {
    if es == [] {
      assert es + [e] == [e];
      assert [e][1..] == [];
    } else {
      assert (es + [e])[1..] == es[1..] + [e];
      RisingAppend(es[1..], x, if Hit(es[0], x) then Index(es[0].content.state) + 1 else lo, hi, e);
    }
  }

  lemma {:induction false} RisingDrop(es: seq<Mail>, x: string, lo: nat, hi: nat)
    requires Rising(es, x, lo, hi) && es != []
    ensures Rising(es[..|es| - 1], x, lo, hi)
    ensures forall e :: e in es[..|es| - 1] && Hit(e, x) && Hit(es[|es| - 1], x) ==>
      Index(e.content.state) < Index(es[|es| - 1].content.state)
    ensures Hit(es[|es| - 1], x) ==> lo <= Index(es[|es| - 1].content.state) < hi
    decreases |es|
  {
    var lo' := if Hit(es[0], x) then Index(es[0].content.state) + 1 else lo;
    RisingFrom(es[1..], x, lo', lo', hi);
    if |es| == 1 {
      assert es[..0] == [];
    } else {
      RisingDrop(es[1..], x, lo', hi);
      assert es[..|es| - 1] == [es[0]] + es[1..][..|es| - 2];
      assert es[..|es| - 1][1..] == es[1..][..|es| - 2];
    }
  }

  /** How many messages a has encrypted, and b has decrypted, in one direction of a conversation. */
  function Sent(side: Side, x: string): nat {
    if x in side.convos then Index(side.convos[x].c1) else 0
  }

  function Heard(side: Side, x: string): nat {
    if x in side.convos then Index(side.convos[x].c2) else 0
  }

  predicate Numbered(p: Pair, x: string) {
    Rising(p.ab, x, Heard(p.sb, x), Sent(p.sa, x))
  }

  /** One receive moves the count on only when it decrypts message number `Heard`. */
  ghost predicate Hears(me: string, peer: string, side: Side, e: Mail, x: string) {
    var (taken, outcome) := Take(me, peer, side, e);
    && Sent(taken, x) == Sent(side, x)
    && (Heard(taken, x) == Heard(side, x)
        || (Hit(e, x) && Index(e.content.state) == Heard(side, x) && Heard(taken, x) == Heard(side, x) + 1))
    && ((outcome.Delivered? || outcome.Opened?) && e.convo == x ==> Hit(e, x) && Index(e.content.state) == Heard(side, x))
    && (x in side.convos ==> x in taken.convos)
  }

  lemma TakeHears(me: string, peer: string, side: Side, e: Mail, x: string)
    ensures Hears(me, peer, side, e, x)
  {
    if side.contact.ContactAdded? && |e.convo| == 32 {
      if e.convo in side.convos {
        DataHears(me, peer, side, e, x);
      } else {
        TitleHears(me, peer, side, e, x);
      }
    }
  }

  lemma DataHears(me: string, peer: string, side: Side, e: Mail, x: string)
    requires side.contact.ContactAdded? && |e.convo| == 32 && e.convo in side.convos
    ensures Hears(me, peer, side, e, x)
  {
    var (side', outcome) := ReceiveData(me, peer, side, e);
    assert Take(me, peer, side, e) == (side', outcome);
    var c := side.convos[e.convo];
    assert outcome.Delivered? ==> e.content.Ct? && e.content.state == c.c2 && side'.convos[e.convo].c2.before == c.c2;
  }

  lemma TitleHears(me: string, peer: string, side: Side, e: Mail, x: string)
    requires side.contact.ContactAdded? && |e.convo| == 32 && e.convo !in side.convos
    ensures Hears(me, peer, side, e, x)
  {
    var (side', outcome) := ReceiveTitle(me, peer, side, e);
    assert Take(me, peer, side, e) == (side', outcome);
    var s1 := DeriveConvo(side.contact.c2).1;
    assert Index(s1) == 0 && Index(side'.convos[e.convo].c1) == 0;
    assert outcome.Opened? ==> e.content.Ct? && e.content.state == s1;
  }

  /** One send takes the next number. */
  lemma SendCounts(me: string, side: Side, to: string, x: string, content: Bytes, random: Bytes, y: string)
    requires x == "" ==> Encode(random) !in side.convos
    ensures
      var o := SendMessage(me, side, to, x, content, random);
      var e := if o.Ready? then Some(Envelope(me, o.request.convo, o.request.content)) else None;
      && Heard(After(o), y) == Heard(side, y)
      && (y in side.convos ==> y in After(o).convos)
      && (e.Some? && Hit(e.value, y) ==>
          y in After(o).convos && Index(e.value.content.state) == Sent(side, y) && Sent(After(o), y) == Sent(side, y) + 1)
      && (!(e.Some? && Hit(e.value, y)) ==> Sent(After(o), y) == Sent(side, y))
  {
  }

  lemma AskCounts(me: string, side: Side, to: string, e: nat, random: Bytes)
    ensures AddContact(me, side, to, e, random).Some? ==>
      var (side', r) := AddContact(me, side, to, e, random).value; side'.convos == side.convos && !r.content.Ct?
    ensures AcceptContact(me, side, to, e, random).Some? ==>
      var (side', r) := AcceptContact(me, side, to, e, random).value; side'.convos == side.convos && !r.content.Ct?
  {
  }

  lemma UnstoreCounts(side: Side, y: string, stored: Option<Bytes>, x: string)
    ensures Sent(Unstore(side, y, stored), x) == Sent(side, x) && Heard(Unstore(side, y, stored), x) == Heard(side, x)
    ensures Unstore(side, y, stored).convos.Keys == side.convos.Keys
  {
    assert Unstore(side, y, stored).convos.Keys == side.convos.Keys;
  }

  lemma SayCounts(a: string, b: string, p: Pair, m: Move, x: string)
    requires Enabled(p, m) && m.Say?
    ensures
      var q := Act(a, b, p, m);
      && q.sb == p.sb && q.ba == p.ba && Heard(q.sa, x) == Heard(p.sa, x)
      && (x in p.sa.convos ==> x in q.sa.convos)
      && (|| (q.ab == p.ab && Sent(q.sa, x) == Sent(p.sa, x))
          || (|q.ab| == |p.ab| + 1 && q.ab[..|p.ab|] == p.ab
              && var e := q.ab[|p.ab|];
              && (Hit(e, x) ==> Index(e.content.state) == Sent(p.sa, x) && x in q.sa.convos)
              && Sent(q.sa, x) == Sent(p.sa, x) + if Hit(e, x) then 1 else 0))
  {
    SendCounts(a, p.sa, b, m.x, m.content, m.random, x);
  }

  lemma CollectKeepsNumbered(a: string, b: string, p: Pair, x: string)
    requires p.ba != [] && Numbered(p, x) && Numbered(p.Swap(), x)
    ensures Numbered(Act(a, b, p, Collect), x) && Numbered(Act(a, b, p, Collect).Swap(), x)
  {
    var taken := Take(a, b, p.sa, p.ba[0]).0;
    TakeHears(a, b, p.sa, p.ba[0], x);
    var lo := if Hit(p.ba[0], x) then Index(p.ba[0].content.state) + 1 else Heard(p.sa, x);
    RisingFrom(p.ba[1..], x, lo, Heard(taken, x), Sent(p.sb, x));
  }

  lemma BounceKeepsNumbered(a: string, b: string, p: Pair, stored: Option<Bytes>, x: string)
    requires p.ab != [] && Numbered(p, x) && Numbered(p.Swap(), x)
    ensures Numbered(Act(a, b, p, Bounce(stored)), x) && Numbered(Act(a, b, p, Bounce(stored)).Swap(), x)
  {
    UnstoreCounts(p.sa, p.ab[|p.ab| - 1].convo, stored, x);
    RisingDrop(p.ab, x, Heard(p.sb, x), Sent(p.sa, x));
  }

  /** Every move, by either client, keeps both directions of every conversation numbered. */
  lemma MoveKeepsNumbered(a: string, b: string, p: Pair, m: Move, x: string)
    requires Enabled(p, m) && Honest(m) && Numbered(p, x) && Numbered(p.Swap(), x)
    ensures Numbered(Act(a, b, p, m), x) && Numbered(Act(a, b, p, m).Swap(), x)
  {
    match m
    case Collect => CollectKeepsNumbered(a, b, p, x);
    case Bounce(stored) => BounceKeepsNumbered(a, b, p, stored, x);
    case _ =>
      match m {
        case Add(e1, random) => AskCounts(a, p.sa, b, e1, random);
        case Accept(e2, random) => AskCounts(a, p.sa, b, e2, random);
        case Say(_, _, _) => SayCounts(a, b, p, m, x);
        case _ =>
      }
      AppendKeepsNumbered(p, Act(a, b, p, m), x);
  }

  lemma AppendKeepsNumbered(p: Pair, q: Pair, x: string)
    requires Numbered(p, x) && q.sb == p.sb && Heard(q.sa, x) == Heard(p.sa, x) && q.ba == p.ba
    requires Numbered(p.Swap(), x)
    requires
      || (q.ab == p.ab && Sent(q.sa, x) == Sent(p.sa, x))
      || (|q.ab| == |p.ab| + 1 && q.ab[..|p.ab|] == p.ab
          && var e := q.ab[|p.ab|];
          && (Hit(e, x) ==> Index(e.content.state) == Sent(p.sa, x))
          && Sent(q.sa, x) == Sent(p.sa, x) + if Hit(e, x) then 1 else 0)
    ensures Numbered(q, x) && Numbered(q.Swap(), x)
  {
    if q.ab != p.ab {
      var e := q.ab[|p.ab|];
      assert q.ab == p.ab + [e];
      RisingAppend(p.ab, x, Heard(p.sb, x), Sent(p.sa, x), e);
    }
  }

  // ----- After a refusal -----

  /** Message number r of a's direction of x is lost: b waits for it or an earlier one. */
  predicate Stuck(p: Pair, x: string, r: nat) {
    && Heard(p.sb, x) <= r < Sent(p.sa, x)
    && (forall e :: e in p.ab && Hit(e, x) ==> Index(e.content.state) != r)
  }

  /** A message the hub refuses is lost for good. */
  lemma RefusalIsStuck(a: string, b: string, p: Pair, x: string, stored: Option<Bytes>)
    requires Numbered(p, x) && p.ab != [] && Hit(p.ab[|p.ab| - 1], x)
    ensures Stuck(Act(a, b, p, Bounce(stored)), x, Index(p.ab[|p.ab| - 1].content.state))
  {
    UnstoreCounts(p.sa, p.ab[|p.ab| - 1].convo, stored, x);
    RisingDrop(p.ab, x, Heard(p.sb, x), Sent(p.sa, x));
  }

  lemma SenderStaysStuck(a: string, b: string, p: Pair, m: Move, x: string, r: nat)
    requires Enabled(p, m) && Honest(m) && Stuck(p, x, r)
    ensures Stuck(Act(a, b, p, m), x, r)
  {
    match m
    case Add(e1, random) => AskCounts(a, p.sa, b, e1, random);
    case Accept(e2, random) => AskCounts(a, p.sa, b, e2, random);
    case Stray(env) =>
    case Say(_, _, _) =>
      SayCounts(a, b, p, m, x);
      var q := Act(a, b, p, m);
      forall e | e in q.ab && Hit(e, x)
        ensures Index(e.content.state) != r
      {
        var i :| 0 <= i < |q.ab| && q.ab[i] == e;
        assert i < |p.ab| ==> p.ab[i] == q.ab[..|p.ab|][i];
      }
    case Collect => TakeHears(a, b, p.sa, p.ba[0], x);
    case Bounce(stored) => UnstoreCounts(p.sa, p.ab[|p.ab| - 1].convo, stored, x);
  }

  lemma ReceiverStaysStuck(a: string, b: string, p: Pair, m: Move, x: string, r: nat)
    requires Enabled(p.Swap(), m) && Stuck(p, x, r)
    ensures Stuck(Act(b, a, p.Swap(), m).Swap(), x, r)
  {
    match m
    case Add(e1, random) => AskCounts(b, p.sb, a, e1, random);
    case Accept(e2, random) => AskCounts(b, p.sb, a, e2, random);
    case Stray(env) =>
    case Say(_, _, _) => SayCounts(b, a, p.Swap(), m, x);
    case Collect => TakeHears(b, a, p.sb, p.ab[0], x);
    case Bounce(stored) => UnstoreCounts(p.sb, p.ba[|p.ba| - 1].convo, stored, x);
  }

  /** From then on b accepts nothing that a encrypted at or after the lost message. */
  lemma StuckRejects(a: string, b: string, p: Pair, x: string, r: nat)
    requires Stuck(p, x, r) && p.ab != [] && Hit(p.ab[0], x) && Index(p.ab[0].content.state) >= r
    ensures var outcome := Take(b, a, p.sb, p.ab[0]).1; !outcome.Delivered? && !outcome.Opened?
  {
    TakeHears(b, a, p.sb, p.ab[0], x);
  }
}
