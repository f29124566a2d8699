/**
  The receiving end of a new conversation to the letter of sasayaki.go:105-120:
  the session states are stored in the order they were derived, and the state
  after the title is dropped. The rest of this project follows the stated design
  (crypto.go:7-12), in which the receiver sends with the responder's state and
  receives with the initiator's, past the title.
  */
module AsWritten {
  import opened Hex
  import opened Strobe
  import opened Crypto
  import opened Queues
  import P = Peer
  import Q = Pair

  type Mail = P.Mail

  function ReceiveTitle(me: string, peer: string, side: P.Side, env: Mail): (P.Side, P.Outcome)
    requires side.contact.ContactAdded?
  {
    var (t2', s1, s2) := DeriveConvo(side.contact.c2);
    var x := env.convo;
    var row := P.Convo([], s1, s2, [], []);
    match Decrypt(me, s1, x, peer, env.content)
    case None => (P.Side(side.contact.(c2 := t2'), side.convos[x := row]), P.Rejected)
    case Some((title, _)) => (P.Side(side.contact.(c2 := t2'), side.convos[x := row.(title := title)]), P.Opened(title))
  }

  /** The title itself is read, from any sender in step. */
  lemma TitleIsRead(a: string, sa: P.Side, b: string, sb: P.Side, title: Bytes, random: Bytes)
    requires IsAddress(a) && Q.InStep(sa, sb) && |random| == 16
    requires P.StartThread(a, sa, b, title, random).Ready?
    ensures
      var o := P.StartThread(a, sa, b, title, random);
      ReceiveTitle(b, a, sb, Envelope(a, o.request.convo, o.request.content)).1 == P.Opened(title)
  {
    Q.AfterTitle(a, sa, b, title, random);
    Q.DecryptEncrypt(a, b, DeriveConvo(sa.contact.c1).1, Encode(random), title);
  }

  /**
    Nothing after the title is: whatever the opener encrypts with its own session
    is rejected, and leaves the receiver where it was, for ever.
    */
  lemma NothingAfterTheTitleIsRead(me: string, peer: string, side: P.Side, opening: Mail, later: Mail)
    requires side.contact.ContactAdded? && later.convo == opening.convo
    requires later.content.Ct? && Base(later.content.state) == DeriveConvo(side.contact.c2).1
    ensures
      var received := ReceiveTitle(me, peer, side, opening).0;
      P.ReceiveData(me, peer, received, later) == (received, P.Rejected)
  {
  }

  /**
    And the receiver's reply starts from the state the title was encrypted from:
    the freshness of encryption states, too, depends on storing them crossed.
    */
  lemma ReplyRepeatsTheTitleState(a: string, sa: P.Side, b: string, sb: P.Side, title: Bytes, random: Bytes, reply: Bytes)
    requires IsAddress(a) && IsAddress(b) && Q.InStep(sa, sb) && |random| == 16
    requires P.StartThread(a, sa, b, title, random).Ready? && |reply| <= MAX_PLAINTEXT
    ensures
      var o := P.StartThread(a, sa, b, title, random);
      var x := o.request.convo;
      var answer := P.SendInConvo(b, ReceiveTitle(b, a, sb, Envelope(a, x, o.request.content)).0, a, x, reply);
      answer.Ready? && answer.request.content.state == o.request.content.state
  {
    Q.AfterTitle(a, sa, b, title, random);
    EncodeIsLowerHex(random);
  }
}
