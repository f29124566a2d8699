/**
  What a lost title and a mistyped request do to a thread. Both move one end of
  it on by one ratchet: a lost title the sender's, a mistyped request the
  receiver's. From then on the ends disagree on every thread opened in that
  direction, until something moves the other end as well.
  */
module Threads {
  import opened Hex
  import opened Strobe
  import opened Crypto
  import opened Queues
  import opened Peer
  import opened Pair
  import opened Sync
  import opened Delivery

  // ----- A request under a mistyped address -----

  /** A mistyped request leaves two clients synchronised only if they wait for each other. */
  lemma MistypedIff(a: string, b: string, p: Pair, env: Mail)
    requires Synchronised(a, b, p) && env.content.Hs1?
    ensures Synchronised(a, b, Act(a, b, p, Stray(env))) <==> Crossing(p)
  {
    hide InStep, Deliver;
    var q := Act(a, b, p, Stray(env));
    assert q.ab[|p.ab|] == env;
    if Linked(a, b, p) {
      StrayIsNotAccepted(a, b, p, env);
    } else if Crossing(p) {
      assert Crossing(q);
    }
  }

  lemma StrayIsNotAccepted(a: string, b: string, p: Pair, env: Mail)
    requires Linked(a, b, p) && env.content.Hs1?
    ensures !AllAccepted(b, a, p.sb, p.ab + [env])
  {
    hide Take, InStep;
    DeliverAppend(b, a, p.sb, p.ab, env);
    DeliverJoins(b, a, p.sb, p.ab);
    MistypedTaken(b, a, Deliver(b, a, p.sb, p.ab), env);
  }

  lemma {:induction false} DeliverJoins(me: string, peer: string, side: Side, es: seq<Mail>)
    requires Joining(side)
    ensures Joining(Deliver(me, peer, side, es))
    ensures side.contact.ContactAdded? ==> Deliver(me, peer, side, es).contact.ContactAdded?
    decreases |es|
  {
    if es != [] {
      TakeJoins(me, peer, side, es[0]);
      DeliverJoins(me, peer, Take(me, peer, side, es[0]).0, es[1..]);
    }
  }

  /**
    What the recipient makes of it. A stranger takes it for a request, one that
    waits refuses it and stays as it was, and one that is connected has ratcheted
    its receive thread by the time it finds out.
    */
  lemma MistypedTaken(me: string, peer: string, side: Side, env: Mail)
    requires env.content.Hs1?
    ensures
      var (taken, outcome) := Take(me, peer, side, env);
      match side.contact
      case NoContact => outcome == Requested && taken.contact == WaitingToAccept(env.content)
      case WaitingForAccept(_) => outcome == Rejected && taken == side
      case WaitingToAccept(_) => outcome == Discarded && taken == side
      case ContactAdded(c1, c2) =>
        && outcome == Rejected
        && taken.contact == (if |env.convo| == 32 && env.convo !in side.convos then ContactAdded(c1, Ratchet(c2)) else side.contact)
  {
  }

  // ----- What decides whether a thread opens -----

  lemma TitleIsReady(a: string, side: Side, b: string, title: Bytes, random: Bytes)
    requires IsAddress(b) && side.contact.ContactAdded? && |title| <= MAX_PLAINTEXT
    ensures StartThread(a, side, b, title, random).Ready?
  {
    EncodeIsLowerHex(random);
  }

  /** A title is read exactly when the thread states agree; either way each end ratchets once. */
  lemma ThreadOpensIff(a: string, sa: Side, b: string, sb: Side, title: Bytes, random: Bytes)
    requires IsAddress(a) && IsAddress(b) && sa.contact.ContactAdded? && sb.contact.ContactAdded?
    requires |random| == 16 && Encode(random) !in sb.convos && |title| <= MAX_PLAINTEXT
    ensures
      var o := StartThread(a, sa, b, title, random);
      && o.Ready?
      && var (sb', outcome) := Take(b, a, sb, Envelope(a, o.request.convo, o.request.content));
      && outcome == (if sa.contact.c1 == sb.contact.c2 then Opened(title) else Rejected)
      && After(o).contact == ContactAdded(Ratchet(sa.contact.c1), sa.contact.c2)
      && sb'.contact == ContactAdded(sb.contact.c1, Ratchet(sb.contact.c2))
  {
    TitleIsReady(a, sa, b, title, random);
    EncodeIsLowerHex(random);
    AfterTitle(a, sa, b, title, random);
    DecryptEncrypt(a, b, DeriveConvo(sa.contact.c1).1, Encode(random), title);
  }

  /** Between ends that disagree the next thread is not read, and they are as far apart as before. */
  lemma NextThreadIsLost(a: string, sa: Side, b: string, sb: Side, env: Mail, title: Bytes, random: Bytes)
    requires IsAddress(a) && IsAddress(b) && InStep(sa, sb)
    requires env.content.Hs1? && |env.convo| == 32 && env.convo !in sb.convos
    requires |random| == 16 && Encode(random) !in sb.convos && Encode(random) != env.convo && |title| <= MAX_PLAINTEXT
    ensures
      var o := StartThread(a, sa, b, title, random);
      && o.Ready?
      && var (sb2, outcome) := Take(b, a, Take(b, a, sb, env).0, Envelope(a, o.request.convo, o.request.content));
      && outcome == Rejected && sb2.contact.ContactAdded? && After(o).contact.ContactAdded?
      && sb2.contact.c2 == Ratchet(After(o).contact.c1)
  {
    hide StartThread;
    TakeAddsOne(b, a, sb, env);
    MistypedTaken(b, a, sb, env);
    var sb1 := Take(b, a, sb, env).0;
    RatchetDiffers(sa.contact.c1);
    ThreadOpensIff(a, sa, b, sb1, title, random);
  }

  lemma TakeAddsOne(me: string, peer: string, side: Side, env: Mail)
    ensures Take(me, peer, side, env).0.convos.Keys <= side.convos.Keys + {env.convo}
  {
    ReceiveHasShape(me, peer, side, env, env.convo in side.convos);
  }

  lemma RatchetDiffers(s: State)
    ensures Ratchet(s) != s
  {
    assert Depth(Ratchet(s)) == 1 + Depth(s);
  }

  // ----- A title too long -----

  /** The row a send of a title writes before it is encrypted, and what it leaves once it is. */
  lemma TitleLeaves(a: string, sa: Side, b: string, title: Bytes, random: Bytes)
    requires IsAddress(b) && sa.contact.ContactAdded? && |random| == 16 && !Fits(title)
    ensures
      var o := StartThread(a, sa, b, title, random);
      var (t', s1, s2) := DeriveConvo(sa.contact.c1);
      var row := Convo(title, if |title| > MAX_PLAINTEXT then s1 else Encrypt(a, s1, Encode(random), b, title).value.1, s2, [], []);
      && (o.Failed? <==> |title| > MAX_PLAINTEXT)
      && (o.Failed? || (Encrypt(a, s1, Encode(random), b, title).Some? && !Admitted(o.request)))
      && o.side == Side(ContactAdded(t', sa.contact.c2), sa.convos[Encode(random) := row])
  {
    EncodeIsLowerHex(random);
    SendHasShape(a, sa, b, "", title, random);
    if |title| <= MAX_PLAINTEXT {
      TitleIsReady(a, sa, b, title, random);
      AfterTitle(a, sa, b, title, random);
    }
  }

  lemma InStepThreads(sa: Side, sb: Side)
    requires InStep(sa, sb)
    ensures sa.contact.ContactAdded? && sb.contact.ContactAdded? && sb.contact.c2 == sa.contact.c1
  {
  }

  lemma EncryptCounts(me: string, s: State, x: string, to: string, content: Bytes)
    requires Encrypt(me, s, x, to, content).Some?
    ensures
      var (ct, s') := Encrypt(me, s, x, to, content).value;
      ct.Ct? && ct.state == s && Index(s') == 1 + Index(s)
  {
  }

  /** Crossed sides that have both opened a conversation are crossed in all the others. */
  lemma RestInStep(sa: Side, sb: Side, t: State, x: string, c: Convo, d: Convo)
    requires InStep(sa, sb) && x !in sb.convos
    ensures
      var sa', sb' := Side(sa.contact.(c1 := t), sa.convos[x := c]), Side(sb.contact.(c2 := t), sb.convos[x := d]);
      InStep(sa'.(convos := sa'.convos - {x}), sb'.(convos := sb'.convos - {x}))
  {
    assert sa.convos[x := c] - {x} == sa.convos && sb.convos[x := d] - {x} == sb.convos;
  }

  /** A first message of a conversation from another state than the title's. */
  lemma TakeWrongTitle(me: string, peer: string, side: Side, e: Mail)
    requires side.contact.ContactAdded? && |e.convo| == 32 && e.convo !in side.convos
    requires e.content.Ct? && e.content.state != DeriveConvo(side.contact.c2).1
    ensures
      var (t', s1, s2) := DeriveConvo(side.contact.c2);
      Take(me, peer, side, e) == (Side(side.contact.(c2 := t'), side.convos[e.convo := Convo([], s2, s1, [], [])]), Rejected)
  {
  }

  /**
    A title too long to encrypt leaves its row behind. The next message in it is
    taken for the title: the states are crossed again, thread and session, but
    the receiver has stored no message, and another title.
    */
  lemma MessageBecomesTitle(a: string, sa: Side, b: string, sb: Side, title: Bytes, content: Bytes, random: Bytes)
    requires IsAddress(a) && IsAddress(b) && InStep(sa, sb)
    requires |random| == 16 && Encode(random) !in sb.convos
    requires |title| > MAX_PLAINTEXT && |content| <= MAX_PLAINTEXT
    ensures
      var x := Encode(random);
      var failed := StartThread(a, sa, b, title, random);
      var o := SendInConvo(a, failed.side, b, x, content);
      && failed.Failed? && o.Ready?
      && var (sb', outcome) := Take(b, a, sb, Envelope(a, x, o.request.content));
      && outcome == Opened(content)
      && x in After(o).convos && x in sb'.convos
      && var c, d := After(o).convos[x], sb'.convos[x];
      && c == Convo(title, d.c2, d.c1, [content], []) && d.title == content && d.got == [] && d.sent == []
      && InStep(After(o).(convos := After(o).convos - {x}), sb'.(convos := sb'.convos - {x}))
  {
    hide StartThread, SendInConvo, Take, InStep, Encrypt, Admitted;
    var x := Encode(random);
    EncodeIsLowerHex(random);
    InStepThreads(sa, sb);
    TitleLeaves(a, sa, b, title, random);
    var (t', s1, s2) := DeriveConvo(sa.contact.c1);
    SecondMessage(a, StartThread(a, sa, b, title, random).side, b, x, content);
    TakeTitle(a, b, sb, x, content);
    var s1' := Encrypt(a, s1, x, b, content).value.1;
    RestInStep(sa, sb, t', x, Convo(title, s1', s2, [content], []), Convo(content, s2, s1', [], []));
    WrittenLast(sa.convos, x, Convo(title, s1, s2, [], []), Convo(title, s1', s2, [content], []));
  }

  lemma WrittenLast(m: map<string, Convo>, x: string, c: Convo, c': Convo)
    ensures m[x := c][x := c'] == m[x := c']
  {
  }

  /** A message in the row a title has left. */
  lemma SecondMessage(a: string, side: Side, b: string, x: string, content: Bytes)
    requires IsAddress(b) && x in side.convos && |x| == 32 && IsHex(x) && |content| <= MAX_PLAINTEXT
    ensures
      var c := side.convos[x];
      && Encrypt(a, c.c1, x, b, content).Some?
      && var (ct, s') := Encrypt(a, c.c1, x, b, content).value;
      var o := SendInConvo(a, side, b, x, content);
      && o.Ready? && o.request == Request(b, x, ct)
      && After(o) == Side(side.contact, side.convos[x := c.(c1 := s', sent := c.sent + [content])])
  {
    AfterData(a, side, b, x, content);
  }

  /**
    A title the hub refuses leaves a row ahead of the receiver. The next message
    in it is rejected, and with that the thread states are crossed again: what is
    lost is the conversation, not the thread.
    */
  lemma MessageAfterRefusedTitle(a: string, sa: Side, b: string, sb: Side, title: Bytes, content: Bytes, random: Bytes)
    requires IsAddress(a) && IsAddress(b) && InStep(sa, sb)
    requires |random| == 16 && Encode(random) !in sb.convos
    requires !Fits(title) && |title| <= MAX_PLAINTEXT && |content| <= MAX_PLAINTEXT
    ensures
      var x := Encode(random);
      var refused := StartThread(a, sa, b, title, random);
      && refused.Ready? && !Admitted(refused.request)
      && var o := SendInConvo(a, refused.side, b, x, content);
      && o.Ready?
      && var (sb', outcome) := Take(b, a, sb, Envelope(a, x, o.request.content));
      && outcome == Rejected
      && InStep(After(o).(convos := After(o).convos - {x}), sb'.(convos := sb'.convos - {x}))
      && x in After(o).convos && x in sb'.convos && After(o).convos[x].c1 != sb'.convos[x].c2
  {
    hide StartThread, SendInConvo, Take, InStep, Encrypt, Admitted;
    var x := Encode(random);
    EncodeIsLowerHex(random);
    InStepThreads(sa, sb);
    TitleLeaves(a, sa, b, title, random);
    var (t', s1, s2) := DeriveConvo(sa.contact.c1);
    var s1' := Encrypt(a, s1, x, b, title).value.1;
    EncryptCounts(a, s1, x, b, title);
    SecondMessage(a, StartThread(a, sa, b, title, random).side, b, x, content);
    var (ct, s1'') := Encrypt(a, s1', x, b, content).value;
    EncryptCounts(a, s1', x, b, content);
    TakeWrongTitle(b, a, sb, Envelope(a, x, ct));
    RestInStep(sa, sb, t', x, Convo(title, s1'', s2, [content], []), Convo([], s2, s1, [], []));
    WrittenLast(sa.convos, x, Convo(title, s1', s2, [], []), Convo(title, s1'', s2, [content], []));
    assert [] + [content] == [content];
    assert After(SendInConvo(a, StartThread(a, sa, b, title, random).side, b, x, content))
        == Side(ContactAdded(t', sa.contact.c2), sa.convos[x := Convo(title, s1'', s2, [content], [])]);
  }

  // ----- A receiver that has run ahead -----

  /** A session state of a thread that its sender opened. */
  predicate Opener(s: State) {
    Base(s).Ratchet? && Base(s).before.AD? && Base(s).before.role == "initiatorThread"
  }

  /** A message of a thread that its sender has opened since these ids were known. */
  predicate OfNewThread(e: Mail, ids: set<string>) {
    e.content.Ct? && e.convo !in ids && Opener(e.content.state)
  }

  predicate NoThreadOpens(me: string, peer: string, side: Side, es: seq<Mail>, ids: set<string>)
    decreases |es|
  {
    es == [] ||
    ((OfNewThread(es[0], ids) ==> !Accepted(Take(me, peer, side, es[0]).1))
     && NoThreadOpens(me, peer, Take(me, peer, side, es[0]).0, es[1..], ids))
  }

  /** The receiver's thread is ahead of the sender's, and its sessions of the sender's new threads are not theirs. */
  predicate Outrun(sa: Side, db: Side, ids: set<string>) {
    && sa.contact.ContactAdded? && db.contact.ContactAdded? && Depth(sa.contact.c1) < Depth(db.contact.c2)
    && (forall x :: x in sa.convos && Opener(sa.convos[x].c1) ==>
        x in db.convos && (x !in ids ==> Base(db.convos[x].c2) != Base(sa.convos[x].c1)))
  }

  predicate Overtaken(a: string, b: string, p: Pair, ids: set<string>) {
    && Joining(p.sb) && NoThreadOpens(b, a, p.sb, p.ab, ids)
    && Outrun(p.sa, Deliver(b, a, p.sb, p.ab), ids)
  }

  lemma {:induction false} NoThreadAppend(me: string, peer: string, side: Side, es: seq<Mail>, e: Mail, ids: set<string>)
    requires NoThreadOpens(me, peer, side, es, ids)
    requires OfNewThread(e, ids) ==> !Accepted(Take(me, peer, Deliver(me, peer, side, es), e).1)
    ensures NoThreadOpens(me, peer, side, es + [e], ids)
    decreases |es|
  {
    if es == [] {
      assert es + [e] == [e] && [e][1..] == [];
    } else {
      assert (es + [e])[1..] == es[1..] + [e];
      NoThreadAppend(me, peer, Take(me, peer, side, es[0]).0, es[1..], e, ids);
    }
  }

  lemma {:induction false} OldMailOpensNothing(me: string, peer: string, side: Side, es: seq<Mail>, ids: set<string>)
    requires forall e :: e in es ==> e.convo in ids
    ensures NoThreadOpens(me, peer, side, es, ids)
    decreases |es|
  {
    if es != [] {
      OldMailOpensNothing(me, peer, Take(me, peer, side, es[0]).0, es[1..], ids);
    }
  }

  /** What the recipient of one more message becomes. */
  lemma AppendOvertakes(a: string, b: string, p: Pair, sa': Side, e: Mail, ids: set<string>)
    requires Overtaken(a, b, p, ids)
    requires
      var (taken, outcome) := Take(b, a, Deliver(b, a, p.sb, p.ab), e);
      && Outrun(sa', taken, ids) && (OfNewThread(e, ids) ==> !Accepted(outcome))
    ensures Overtaken(a, b, p.(sa := sa', ab := p.ab + [e]), ids)
  {
    hide Take, Outrun;
    NoThreadAppend(b, a, p.sb, p.ab, e, ids);
    DeliverAppend(b, a, p.sb, p.ab, e);
  }

  /** A mistyped request between connected clients: everything already on its way is still read. */
  lemma MistypedOvertakes(a: string, b: string, p: Pair, env: Mail, ids: set<string>)
    requires Linked(a, b, p) && p.sa.contact.ContactAdded?
    requires env.content.Hs1? && |env.convo| == 32 && Fresh(p, env.convo)
    requires p.sa.convos.Keys <= ids && forall e :: e in p.ab ==> e.convo in ids
    ensures Overtaken(a, b, Act(a, b, p, Stray(env)), ids)
  {
    hide Take;
    OldMailOpensNothing(b, a, p.sb, p.ab, ids);
    DeliverKeepsSending(a, b, p.sa, p.ba, "");
    forall x | x in p.sa.convos ensures x in Deliver(b, a, p.sb, p.ab).convos {
      DeliverKeepsSending(a, b, p.sa, p.ba, x);
    }
    DeliverKeys(b, a, p.sb, p.ab, env.convo);
    var db := Deliver(b, a, p.sb, p.ab);
    MistypedTaken(b, a, db, env);
    TakeKeepsRows(b, a, db, env);
    NoThreadAppend(b, a, p.sb, p.ab, env, ids);
    DeliverAppend(b, a, p.sb, p.ab, env);
  }

  /** Receiving drops no row and leaves every session's base. */
  lemma TakeKeepsRows(me: string, peer: string, side: Side, e: Mail)
    requires side.contact.ContactAdded?
    ensures
      var taken := Take(me, peer, side, e).0;
      && taken.contact.ContactAdded? && taken.contact.c1 == side.contact.c1 && Depth(taken.contact.c2) >= Depth(side.contact.c2)
      && (forall x :: x in side.convos ==>
          x in taken.convos && taken.convos[x].c1 == side.convos[x].c1 && Base(taken.convos[x].c2) == Base(side.convos[x].c2))
      && (forall x :: x in taken.convos && x !in side.convos ==> !Opener(taken.convos[x].c1))
  {
  }

  /** Both ends open a thread, each from its own thread state. */
  lemma OutrunWrites(sa: Side, db: Side, ids: set<string>, x: string, c: Convo, d: Convo)
    requires Outrun(sa, db, ids) && x !in db.convos
    requires Base(c.c1) == DeriveConvo(sa.contact.c1).1 && Base(d.c2) == DeriveConvo(db.contact.c2).1
    ensures Outrun(
      Side(sa.contact.(c1 := Ratchet(sa.contact.c1)), sa.convos[x := c]),
      Side(db.contact.(c2 := Ratchet(db.contact.c2)), db.convos[x := d]), ids)
  {
  }

  lemma TitleOvertaken(a: string, b: string, p: Pair, title: Bytes, random: Bytes, ids: set<string>)
    requires IsAddress(a) && IsAddress(b) && Overtaken(a, b, p, ids)
    requires Enabled(p, Say("", title, random)) && Fits(title)
    ensures Overtaken(a, b, Act(a, b, p, Say("", title, random)), ids)
  {
    hide Take, NoThreadOpens;
    var x, db := Encode(random), Deliver(b, a, p.sb, p.ab);
    var o := StartThread(a, p.sa, b, title, random);
    DeliverKeys(b, a, p.sb, p.ab, x);
    ThreadOpensIff(a, p.sa, b, db, title, random);
    SayIsPosted(a, b, p, "", title, random);
    AfterTitle(a, p.sa, b, title, random);
    var e := Envelope(a, o.request.convo, o.request.content);
    TakeWrongTitle(b, a, db, e);
    OutrunWrites(p.sa, db, ids, x, After(o).convos[x], Take(b, a, db, e).0.convos[x]);
    AppendOvertakes(a, b, p, After(o), e, ids);
  }

  lemma DataOvertaken(a: string, b: string, p: Pair, x: string, content: Bytes, random: Bytes, ids: set<string>)
    requires Overtaken(a, b, p, ids) && x != "" && SendMessage(a, p.sa, b, x, content, random).Ready?
    requires Enabled(p, Say(x, content, random))
    ensures Overtaken(a, b, Act(a, b, p, Say(x, content, random)), ids)
  {
    hide Take, NoThreadOpens, Deliver;
    var db := Deliver(b, a, p.sb, p.ab);
    var o := SendMessage(a, p.sa, b, x, content, random);
    SayIsPosted(a, b, p, x, content, random);
    AfterData(a, p.sa, b, x, content);
    var e := Envelope(a, x, o.request.content);
    TakeKeepsRows(b, a, db, e);
    if x in db.convos && Base(db.convos[x].c2) != Base(p.sa.convos[x].c1) {
      LaterOrOtherIsRejected(b, a, db, e);
    }
    AppendOvertakes(a, b, p, After(o), e, ids);
  }

  lemma LaterOrOtherIsRejected(me: string, peer: string, side: Side, e: Mail)
    requires side.contact.ContactAdded? && e.convo in side.convos
    requires e.content.Ct? && Base(e.content.state) != Base(side.convos[e.convo].c2)
    ensures Take(me, peer, side, e) == (side, Rejected)
  {
  }

  /** The moves of a connected pair that lose nothing, whatever is mistyped. */
  predicate Lossless(p: Pair, m: Move) {
    Honest(m) && !m.Bounce? && (m.Say? ==> Harmless(p.sa, m.x, m.content))
  }

  lemma SenderStaysOvertaken(a: string, b: string, p: Pair, m: Move, ids: set<string>)
    requires IsAddress(a) && IsAddress(b) && Overtaken(a, b, p, ids) && Enabled(p, m) && Lossless(p, m)
    ensures Overtaken(a, b, Act(a, b, p, m), ids)
  {
    hide NoThreadOpens, Deliver, Take;
    match m
    case Say(x, content, random) =>
      if SendMessage(a, p.sa, b, x, content, random).Failed? {
        FailedSendWritesNothing(a, p.sa, b, x, content, random);
      } else if x == "" {
        TitleOvertaken(a, b, p, content, random, ids);
      } else {
        DataOvertaken(a, b, p, x, content, random, ids);
      }
    case Stray(env) =>
      TakeKeepsRows(b, a, Deliver(b, a, p.sb, p.ab), env);
      AppendOvertakes(a, b, p, p.sa, env, ids);
    case Collect =>
      TakeKeepsRows(a, b, p.sa, p.ba[0]);
    case _ =>
  }

  // ----- The receiver's own moves -----

  lemma {:induction false} NoThreadCommutes(me: string, peer: string, side: Side, es: seq<Mail>, x: string, content: Bytes, random: Bytes, ids: set<string>)
    requires side.contact.ContactAdded? && Sendable(side, es, x, random)
    requires NoThreadOpens(me, peer, side, es, ids)
    ensures NoThreadOpens(me, peer, After(SendMessage(me, side, peer, x, content, random)), es, ids)
    decreases |es|
  {
    hide SendMessage, Take, After;
    if es != [] {
      var taken := Take(me, peer, side, es[0]).0;
      if x == "" {
        StartThreadCommutes(me, peer, side, es[0], content, random);
      } else {
        SendInConvoCommutes(me, peer, side, es[0], x, content, random);
      }
      TakeKeepsRows(me, peer, side, es[0]);
      NoThreadCommutes(me, peer, taken, es[1..], x, content, random, ids);
    }
  }

  /** A send writes no receive state that was there. */
  lemma SendKeepsReceiving(me: string, side: Side, to: string, x: string, content: Bytes, random: Bytes)
    requires side.contact.ContactAdded? && (x == "" ==> Encode(random) !in side.convos)
    ensures
      var after := After(SendMessage(me, side, to, x, content, random));
      && after.contact.ContactAdded? && after.contact.c2 == side.contact.c2
      && (forall y :: y in side.convos ==> y in after.convos && after.convos[y].c2 == side.convos[y].c2)
  {
  }

  lemma ReceiverSayStaysOvertaken(a: string, b: string, p: Pair, x: string, content: Bytes, random: Bytes, ids: set<string>)
    requires Overtaken(a, b, p, ids) && Enabled(p.Swap(), Say(x, content, random)) && p.sb.contact.ContactAdded?
    requires x == "" || x in p.sb.convos
    ensures Overtaken(a, b, Act(b, a, p.Swap(), Say(x, content, random)).Swap(), ids)
  {
    hide SendMessage, Take, NoThreadOpens, Deliver, After;
    var db := Deliver(b, a, p.sb, p.ab);
    DeliverCommutes(b, a, p.sb, p.ab, x, content, random);
    NoThreadCommutes(b, a, p.sb, p.ab, x, content, random, ids);
    if x == "" {
      DeliverKeys(b, a, p.sb, p.ab, Encode(random));
    }
    SendKeepsReceiving(b, db, a, x, content, random);
    SendKeepsReceiving(b, p.sb, a, x, content, random);
    SayActs(b, a, p.Swap(), x, content, random);
  }

  lemma SayActs(a: string, b: string, p: Pair, x: string, content: Bytes, random: Bytes)
    requires Enabled(p, Say(x, content, random))
    ensures
      var p' := Act(a, b, p, Say(x, content, random));
      p'.sa == After(SendMessage(a, p.sa, b, x, content, random)) && p'.sb == p.sb && p'.ba == p.ba
  {
    hide SendMessage;
  }

  lemma ReceiverStaysOvertaken(a: string, b: string, p: Pair, m: Move, ids: set<string>)
    requires Overtaken(a, b, p, ids) && Enabled(p.Swap(), m) && Lossless(p.Swap(), m)
    ensures Overtaken(a, b, Act(b, a, p.Swap(), m).Swap(), ids)
  {
    hide Outrun, Take;
    match m
    case Say(x, content, random) =>
      if p.sb.contact.ContactAdded? && (x == "" || x in p.sb.convos) {
        ReceiverSayStaysOvertaken(a, b, p, x, content, random, ids);
      } else {
        assert SendMessage(b, p.sb, a, x, content, random) == Failed(p.sb);
      }
    case Collect => TakeJoins(b, a, p.sb, p.ab[0]);
    case _ =>
  }
}
