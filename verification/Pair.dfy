/**
  Two clients a and b, what each stores about the other, and the messages on
  their way in each direction. Everything the protocol does between them is a
  `Move` of one of the two.
  */
module Pair {
  import opened Hex
  import opened Strobe
  import opened Crypto
  import opened Queues
  import opened Peer

  datatype Pair = Pair(sa: Side, sb: Side, ab: seq<Mail>, ba: seq<Mail>)
  {
    function Swap(): Pair { Pair(sb, sa, ba, ab) }
  }

  // ----- Receiving everything on its way -----

  function Take(me: string, peer: string, side: Side, env: Mail): (Side, Outcome) {
    Receive(me, peer, side, env, env.convo in side.convos)
  }

  function Deliver(me: string, peer: string, side: Side, es: seq<Mail>): Side
    decreases |es|
  {
    if es == [] then side else Deliver(me, peer, Take(me, peer, side, es[0]).0, es[1..])
  }

  predicate AllAccepted(me: string, peer: string, side: Side, es: seq<Mail>)
    decreases |es|
  {
    es == [] ||
    (Accepted(Take(me, peer, side, es[0]).1) && AllAccepted(me, peer, Take(me, peer, side, es[0]).0, es[1..]))
  }

  lemma {:induction false} DeliverAppend(me: string, peer: string, side: Side, es: seq<Mail>, e: Mail)
    ensures Deliver(me, peer, side, es + [e]) == Take(me, peer, Deliver(me, peer, side, es), e).0
    ensures AllAccepted(me, peer, side, es + [e])
       <==> AllAccepted(me, peer, side, es) && Accepted(Take(me, peer, Deliver(me, peer, side, es), e).1)
    decreases |es|
  {
    if es == [] {
      assert es + [e] == [e] && [e][1..] == [];
    } else {
      assert (es + [e])[1..] == es[1..] + [e];
      DeliverAppend(me, peer, Take(me, peer, side, es[0]).0, es[1..], e);
    }
  }

  // ----- Sending -----

  /** The sender's side once the hub has accepted what a send handed over. */
  function After(o: Sending): Side {
    match o
    case Ready(side, request, stored) => StoreSent(side, request.convo, stored)
    case Failed(side) => side
  }

  /**
    Sending and receiving on one side give the same rows in either order, for
    every message and every outcome: each writes its own direction only.
    */
  ghost predicate Commute(me: string, peer: string, side: Side, env: Mail, x: string, content: Bytes, random: Bytes) {
    var (taken, outcome) := Take(me, peer, side, env);
    var o := SendMessage(me, side, peer, x, content, random);
    var o' := SendMessage(me, taken, peer, x, content, random);
    && o'.Ready? == o.Ready?
    && (o.Ready? ==> o'.request == o.request && o'.stored == o.stored)
    && Take(me, peer, After(o), env) == (After(o'), outcome)
  }

  /** Receiving does not look at the send thread state or at another conversation's row. */
  lemma TakeFrame(me: string, peer: string, side: Side, env: Mail, t: State, x: string, c: Convo)
    requires side.contact.ContactAdded? && env.convo != x
    ensures
      var (taken, outcome) := Take(me, peer, side, env);
      && taken.contact.ContactAdded? && taken.contact.c1 == side.contact.c1
      && Take(me, peer, Side(side.contact.(c1 := t), side.convos[x := c]), env)
      == (Side(taken.contact.(c1 := t), taken.convos[x := c]), outcome)
  {
    var (taken, outcome) := Take(me, peer, side, env);
    var other := Take(me, peer, Side(side.contact.(c1 := t), side.convos[x := c]), env).0;
    assert other.convos == taken.convos[x := c];
  }

  lemma StartThreadCommutes(me: string, peer: string, side: Side, env: Mail, title: Bytes, random: Bytes)
    requires side.contact.ContactAdded? && env.convo != Encode(random)
    ensures Commute(me, peer, side, env, "", title, random)
  {
    var x := Encode(random);
    var o := StartThread(me, side, peer, title, random);
    var c := After(o).convos[x];
    var t := After(o).contact.c1;
    assert After(o) == Side(side.contact.(c1 := t), side.convos[x := c]);
    TakeFrame(me, peer, side, env, t, x, c);
    var taken := Take(me, peer, side, env).0;
    assert After(StartThread(me, taken, peer, title, random)) == Side(taken.contact.(c1 := t), taken.convos[x := c]);
  }

  /** Receiving neither reads nor writes the send state and the sent messages of a row. */
  lemma TakeSendFrame(me: string, peer: string, side: Side, env: Mail, x: string, s: State, sent: seq<Bytes>)
    requires side.contact.ContactAdded? && x in side.convos
    ensures
      var (taken, outcome) := Take(me, peer, side, env);
      && taken.contact.ContactAdded? && x in taken.convos
      && taken.convos[x].c1 == side.convos[x].c1 && taken.convos[x].sent == side.convos[x].sent
      && Take(me, peer, Side(side.contact, side.convos[x := side.convos[x].(c1 := s, sent := sent)]), env)
      == (Side(taken.contact, taken.convos[x := taken.convos[x].(c1 := s, sent := sent)]), outcome)
  {
    var taken := Take(me, peer, side, env).0;
    var side' := Side(side.contact, side.convos[x := side.convos[x].(c1 := s, sent := sent)]);
    var taken' := Take(me, peer, side', env).0;
    assert taken'.convos == taken.convos[x := taken.convos[x].(c1 := s, sent := sent)];
  }

  /** What a completed data send has written. */
  lemma AfterData(a: string, sa: Side, b: string, x: string, content: Bytes)
    requires SendInConvo(a, sa, b, x, content).Ready?
    ensures
      var c := sa.convos[x];
      var (ct, s') := Encrypt(a, c.c1, x, b, content).value;
      && SendInConvo(a, sa, b, x, content).request == Request(b, x, ct)
      && After(SendInConvo(a, sa, b, x, content)) == Side(sa.contact, sa.convos[x := c.(c1 := s', sent := c.sent + [content])])
  {
    var c := sa.convos[x];
    var s' := Encrypt(a, c.c1, x, b, content).value.1;
    var c' := c.(c1 := s', sent := c.sent + [content]);
    assert sa.convos[x := c.(c1 := s')][x := c'] == sa.convos[x := c'];
  }

  lemma SendInConvoCommutes(me: string, peer: string, side: Side, env: Mail, x: string, content: Bytes, random: Bytes)
    requires side.contact.ContactAdded? && x != "" && x in side.convos
    ensures Commute(me, peer, side, env, x, content, random)
  {
    var o := SendInConvo(me, side, peer, x, content);
    if o.Ready? {
      AfterData(me, side, peer, x, content);
      var c := After(o).convos[x];
      TakeSendFrame(me, peer, side, env, x, c.c1, c.sent);
      AfterData(me, Take(me, peer, side, env).0, peer, x, content);
    } else {
      TakeSendFrame(me, peer, side, env, x, side.convos[x].c1, side.convos[x].sent);
    }
  }

  predicate Avoids(es: seq<Mail>, x: string) {
    forall e :: e in es ==> e.convo != x
  }

  /** The conversation a send concerns: a known one, or one whose id nobody has used. */
  predicate Sendable(side: Side, es: seq<Mail>, x: string, random: Bytes) {
    if x == "" then Avoids(es, Encode(random)) else x in side.convos
  }

  lemma {:induction false} DeliverCommutes(me: string, peer: string, side: Side, es: seq<Mail>, x: string, content: Bytes, random: Bytes)
    requires side.contact.ContactAdded? && Sendable(side, es, x, random)
    ensures
      var later := Deliver(me, peer, side, es);
      var o := SendMessage(me, side, peer, x, content, random);
      var o' := SendMessage(me, later, peer, x, content, random);
      && later.contact.ContactAdded?
      && o'.Ready? == o.Ready?
      && (o.Ready? ==> o'.request == o.request && o'.stored == o.stored)
      && Deliver(me, peer, After(o), es) == After(o')
      && AllAccepted(me, peer, After(o), es) == AllAccepted(me, peer, side, es)
    decreases |es|
  {
    if es != [] {
      var (taken, outcome) := Take(me, peer, side, es[0]);
      if x == "" {
        StartThreadCommutes(me, peer, side, es[0], content, random);
      } else {
        SendInConvoCommutes(me, peer, side, es[0], x, content, random);
      }
      DeliverCommutes(me, peer, taken, es[1..], x, content, random);
    }
  }

  // ----- Being in step -----

  predicate Mirrored(c: Convo, d: Convo) {
    c.title == d.title && c.c1 == d.c2 && c.c2 == d.c1 && c.sent == d.got && c.got == d.sent
  }

  /** The two sides hold crossed thread states and crossed, otherwise equal, conversations. */
  predicate InStep(sa: Side, sb: Side) {
    && sa.contact.ContactAdded? && sb.contact.ContactAdded?
    && sa.contact.c1 == sb.contact.c2 && sa.contact.c2 == sb.contact.c1
    && sa.convos.Keys == sb.convos.Keys
    && (forall x :: x in sa.convos ==> |x| == 32 && IsHex(x) && Mirrored(sa.convos[x], sb.convos[x]))
  }

  /** The hub's limit on a ciphertext, as a limit on the plaintext. */
  predicate Fits(content: Bytes) {
    |content| + 16 <= MESSAGE_MAX_CHARS
  }

  /** A recipient holding the sender's state recovers the plaintext and the sender's next state. */
  lemma DecryptEncrypt(a: string, b: string, s: State, x: string, content: Bytes)
    requires IsAddress(a) && Encrypt(a, s, x, b, content).Some?
    ensures Decrypt(b, s, x, a, Encrypt(a, s, x, b, content).value.0)
         == Some((content, Encrypt(a, s, x, b, content).value.1))
  {
  }

  /** Crossed sides stay crossed when both write mirrored rows and the same thread state. */
  lemma WriteInStep(sa: Side, sb: Side, t: State, x: string, c: Convo, d: Convo)
    requires InStep(sa, sb) && |x| == 32 && IsHex(x) && Mirrored(c, d)
    ensures InStep(Side(sa.contact.(c1 := t), sa.convos[x := c]), Side(sb.contact.(c2 := t), sb.convos[x := d]))
  {
    assert sa.convos[x := c].Keys == sa.convos.Keys + {x} == sb.convos[x := d].Keys;
  }

  /** What a recipient in step makes of a title. */
  lemma TakeTitle(a: string, b: string, sb: Side, x: string, title: Bytes)
    requires IsAddress(a) && sb.contact.ContactAdded? && |x| == 32 && x !in sb.convos
    requires Encrypt(a, DeriveConvo(sb.contact.c2).1, x, b, title).Some?
    ensures
      var (t', s1, s2) := DeriveConvo(sb.contact.c2);
      var (ct, s1') := Encrypt(a, s1, x, b, title).value;
      Take(b, a, sb, Envelope(a, x, ct))
      == (Side(sb.contact.(c2 := t'), sb.convos[x := Convo(title, s2, s1', [], [])]), Opened(title))
  {
    var (t', s1, s2) := DeriveConvo(sb.contact.c2);
    DecryptEncrypt(a, b, s1, x, title);
    var (row, row') := (Convo([], s2, s1, [], []), Convo(title, s2, Encrypt(a, s1, x, b, title).value.1, [], []));
    assert sb.convos[x := row][x := row'] == sb.convos[x := row'];
  }

  lemma TakeData(a: string, b: string, sb: Side, x: string, content: Bytes)
    requires IsAddress(a) && sb.contact.ContactAdded? && |x| == 32 && x in sb.convos
    requires Encrypt(a, sb.convos[x].c2, x, b, content).Some?
    ensures
      var d := sb.convos[x];
      var (ct, s') := Encrypt(a, d.c2, x, b, content).value;
      Take(b, a, sb, Envelope(a, x, ct))
      == (sb.(convos := sb.convos[x := d.(c2 := s', got := d.got + [content])]), Delivered(content))
  {
    DecryptEncrypt(a, b, sb.convos[x].c2, x, content);
  }

  /** What a completed title send has written. */
  lemma AfterTitle(a: string, sa: Side, b: string, title: Bytes, random: Bytes)
    requires StartThread(a, sa, b, title, random).Ready?
    ensures
      var x := Encode(random);
      var (t', s1, s2) := DeriveConvo(sa.contact.c1);
      && Encrypt(a, s1, x, b, title).Some?
      && var (ct, s1') := Encrypt(a, s1, x, b, title).value;
      && StartThread(a, sa, b, title, random).request == Request(b, x, ct)
      && After(StartThread(a, sa, b, title, random))
      == Side(sa.contact.(c1 := t'), sa.convos[x := Convo(title, s1', s2, [], [])])
  {
    var x := Encode(random);
    var (t', s1, s2) := DeriveConvo(sa.contact.c1);
    var row, row' := Convo(title, s1, s2, [], []), Convo(title, Encrypt(a, s1, x, b, title).value.1, s2, [], []);
    assert sa.convos[x := row][x := row'] == sa.convos[x := row'];
  }

  lemma TitleInStep(a: string, sa: Side, b: string, sb: Side, title: Bytes, random: Bytes)
    requires IsAddress(a) && InStep(sa, sb)
    requires |random| == 16 && Encode(random) !in sb.convos
    requires StartThread(a, sa, b, title, random).Ready?
    ensures
      var o := StartThread(a, sa, b, title, random);
      var (sb', outcome) := Take(b, a, sb, Envelope(a, o.request.convo, o.request.content));
      outcome == Opened(title) && InStep(After(o), sb')
  {
    AfterTitle(a, sa, b, title, random);
    var x := Encode(random);
    var (t', s1, s2) := DeriveConvo(sa.contact.c1);
    var s1' := Encrypt(a, s1, x, b, title).value.1;
    EncodeIsLowerHex(random);
    TakeTitle(a, b, sb, x, title);
    WriteInStep(sa, sb, t', x, Convo(title, s1', s2, [], []), Convo(title, s2, s1', [], []));
  }

  lemma DataInStep(a: string, sa: Side, b: string, sb: Side, x: string, content: Bytes)
    requires IsAddress(a) && InStep(sa, sb)
    requires SendInConvo(a, sa, b, x, content).Ready?
    ensures
      var o := SendInConvo(a, sa, b, x, content);
      var (sb', outcome) := Take(b, a, sb, Envelope(a, o.request.convo, o.request.content));
      outcome == Delivered(content) && InStep(After(o), sb')
  {
    var c, d := sa.convos[x], sb.convos[x];
    var s' := Encrypt(a, c.c1, x, b, content).value.1;
    TakeData(a, b, sb, x, content);
    var c', d' := c.(c1 := s', sent := c.sent + [content]), d.(c2 := s', got := d.got + [content]);
    WriteInStep(sa, sb, sa.contact.c1, x, c', d');
    assert sa.contact.(c1 := sa.contact.c1) == sa.contact && sb.contact.(c2 := sa.contact.c1) == sb.contact;
    AfterData(a, sa, b, x, content);
  }

  /** From crossed sides, what one sends the other accepts, and they are crossed again. */
  lemma SendReceiveInStep(a: string, sa: Side, b: string, sb: Side, x: string, content: Bytes, random: Bytes)
    requires IsAddress(a) && IsAddress(b) && InStep(sa, sb)
    requires x == "" ==> |random| == 16 && Encode(random) !in sb.convos
    requires SendMessage(a, sa, b, x, content, random).Ready?
    ensures
      var o := SendMessage(a, sa, b, x, content, random);
      var (sb', outcome) := Take(b, a, sb, Envelope(a, o.request.convo, o.request.content));
      && outcome == (if x == "" then Opened(content) else Delivered(content))
      && InStep(After(o), sb')
  {
    if x == "" {
      TitleInStep(a, sa, b, sb, content, random);
    } else {
      DataInStep(a, sa, b, sb, x, content);
    }
  }
}
