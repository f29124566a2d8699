/**
  The end-to-end encryption service (crypto.go): the key schedule, message
  protection, and the two handshake messages that add a contact.
  */
module Crypto {
  import opened Hex
  import opened Strobe

  const MAX_PLAINTEXT: nat := 65535 - 1000

  // ----- Associated data -----

  /** What `copy(dst[off:off+n], src)` leaves in n zeroed bytes. */
  function Padded(src: Bytes, n: nat): (r: Bytes)
    ensures |r| == n
  {
    seq(n, i requires 0 <= i < n => if i < |src| then src[i] else 0)
  }

  /** The 80 authenticated bytes: conversation id, sender key, recipient key. */
  function AuthData(convo: Bytes, sender: Bytes, recipient: Bytes): (r: Bytes)
    ensures |r| == 80
  {
    Padded(convo, 16) + Padded(sender, 32) + Padded(recipient, 32)
  }

  /** Copies as much of `src` as fits into `dst[from..to]`. */
  method CopyInto(dst: array<byte>, from: nat, to: nat, src: Bytes)
    requires from <= to <= dst.Length
    modifies dst
    ensures forall i :: 0 <= i < dst.Length ==>
      dst[i] == if from <= i < to && i - from < |src| then src[i - from] else old(dst[i])
  {
    var n := if to - from < |src| then to - from else |src|;
    for k := 0 to n
      invariant forall i :: 0 <= i < dst.Length ==>
        dst[i] == if from <= i < from + k then src[i - from] else old(dst[i])
    {
      dst[from + k] := src[k];
    }
  }

  method ToAuthenticate(convo: Bytes, sender: Bytes, recipient: Bytes) returns (buffer: array<byte>)
    ensures fresh(buffer)
    ensures buffer[..] == AuthData(convo, sender, recipient)
    ensures |convo| == 16 && |sender| == |recipient| == 32 ==> buffer[..] == convo + sender + recipient
  {
    buffer := new byte[80](_ => 0);
    CopyInto(buffer, 0, 16, convo);
    CopyInto(buffer, 16, 48, sender);
    CopyInto(buffer, 48, 80, recipient);
    if |convo| == 16 && |sender| == |recipient| == 32 {
      AuthDataFields(convo, sender, recipient);
    }
  }

  /** Fields of the right length lie side by side: conversation, sender, recipient. */
  lemma AuthDataFields(convo: Bytes, sender: Bytes, recipient: Bytes)
    requires |convo| == 16 && |sender| == |recipient| == 32
    ensures AuthData(convo, sender, recipient) == convo + sender + recipient
  {
    assert Padded(convo, 16) == convo && Padded(sender, 32) == sender && Padded(recipient, 32) == recipient;
  }

  lemma PaddedInjective(a: Bytes, b: Bytes, n: nat)
    requires |a| == |b| == n && Padded(a, n) == Padded(b, n)
    ensures a == b
  {
    forall i | 0 <= i < n
      ensures a[i] == b[i]
    {
      assert Padded(a, n)[i] == a[i] && Padded(b, n)[i] == b[i];
    }
  }

  /**
    For well-formed ids, the buffers of two parties agree exactly when they
    name the same conversation, sender and recipient, in any letter case.
    */
  lemma AuthDataAgreesIff(x: string, s: string, r: string, x': string, s': string, r': string)
    requires |x| == |x'| == 32 && |s| == |s'| == |r| == |r'| == 64
    requires IsHex(x) && IsHex(x') && IsHex(s) && IsHex(s') && IsHex(r) && IsHex(r')
    ensures AuthData(Decode(x).value, Decode(s).value, Decode(r).value)
         == AuthData(Decode(x').value, Decode(s').value, Decode(r').value)
       <==> ToLower(x) == ToLower(x') && ToLower(s) == ToLower(s') && ToLower(r) == ToLower(r')
  {
    SameKeyIffSameLowerCase(x, x');
    SameKeyIffSameLowerCase(s, s');
    SameKeyIffSameLowerCase(r, r');
    var a, b, c := Decode(x).value, Decode(s).value, Decode(r).value;
    var a', b', c' := Decode(x').value, Decode(s').value, Decode(r').value;
    if AuthData(a, b, c) == AuthData(a', b', c') {
      assert Padded(a, 16) == AuthData(a, b, c)[..16] == Padded(a', 16);
      assert Padded(b, 32) == AuthData(a, b, c)[16..48] == Padded(b', 32);
      assert Padded(c, 32) == AuthData(a, b, c)[48..] == Padded(c', 32);
      PaddedInjective(a, a', 16);
      PaddedInjective(b, b', 32);
      PaddedInjective(c, c', 32);
    }
  }

  // ----- Messages -----

  /** The raw public key of the client known as `me`. */
  function KeyOf(me: string): Bytes {
    if Decode(me).Some? then Decode(me).value else []
  }

  function Encrypt(me: string, s: State, convo: string, to: string, plaintext: Bytes): Option<(Content, State)> {
    if |plaintext| > MAX_PLAINTEXT || Decode(convo).None? || Decode(to).None? then None
    else Some(SendAead(s, plaintext, AuthData(Decode(convo).value, KeyOf(me), Decode(to).value)))
  }

  function Decrypt(me: string, s: State, convo: string, from: string, content: Content): Option<(Bytes, State)> {
    if Decode(convo).None? || Decode(from).None? then None
    else RecvAead(s, content, AuthData(Decode(convo).value, Decode(from).value, KeyOf(me)))
  }

  /** An id of a conversation or of a client, in either letter case. */
  predicate IsId(s: string, n: nat) {
    |s| == n && IsHex(s)
  }

  /** Encryption fails exactly on a plaintext of more than 64535 bytes or an id that is not hexadecimal. */
  lemma EncryptsIff(me: string, s: State, convo: string, to: string, plaintext: Bytes)
    ensures Encrypt(me, s, convo, to, plaintext).Some? <==>
      |plaintext| <= 64535 && |convo| % 2 == 0 && IsHex(convo) && |to| % 2 == 0 && IsHex(to)
  {
  }

  /** What a ciphertext authenticates: the conversation's id, the sender's key, the recipient's key. */
  lemma EncryptAuthenticates(me: string, s: State, convo: string, to: string, plaintext: Bytes)
    requires IsId(convo, 32) && IsId(me, 64) && IsId(to, 64) && |plaintext| <= 64535
    ensures
      var r := Encrypt(me, s, convo, to, plaintext);
      && r.Some?
      && var (ct, s') := r.value;
      && ct.Ct? && ct.state == s && ct.plaintext == plaintext && |ct.ad| == 80
      && ct.ad[..16] == Decode(convo).value && ct.ad[16..48] == Decode(me).value && ct.ad[48..] == Decode(to).value
      && s' == AfterMsg(s, ct.ad, plaintext)
  {
    AuthDataFields(Decode(convo).value, Decode(me).value, Decode(to).value);
  }

  /**
    A ciphertext of a for b in x is accepted exactly by whoever holds the state
    it was made from, and under the same conversation, sender and recipient, in
    any letter case; it then gives the plaintext and the sender's next state.
    */
  lemma DecryptsIff(a: string, s: State, x: string, b: string, plaintext: Bytes, b': string, s': State, x': string, a': string)
    requires IsId(x, 32) && IsId(a, 64) && IsId(b, 64) && IsId(x', 32) && IsId(a', 64) && IsId(b', 64)
    requires |plaintext| <= 64535
    ensures
      var (ct, after) := Encrypt(a, s, x, b, plaintext).value;
      Decrypt(b', s', x', a', ct) ==
        if s' == s && ToLower(x') == ToLower(x) && ToLower(a') == ToLower(a) && ToLower(b') == ToLower(b)
        then Some((plaintext, after)) else None
  {
    hide AuthData;
    AuthDataAgreesIff(x, a, b, x', a', b');
  }

  /** Nothing but a ciphertext is ever decrypted. */
  lemma OnlyCiphertextsDecrypt(me: string, s: State, convo: string, from: string, content: Content)
    ensures Decrypt(me, s, convo, from, content).Some? ==>
      && content.Ct? && content.state == s
      && Decrypt(me, s, convo, from, content) == Some((content.plaintext, AfterMsg(s, content.ad, content.plaintext)))
  {
  }

  // ----- Threads -----

  /** The next thread state and the initiator's and responder's session states. */
  function DeriveConvo(t: State): (State, State, State) {
    (Ratchet(t), Ratchet(AD(t, "initiatorThread")), Ratchet(AD(t, "responderThread")))
  }

  /**
    Both sessions come from the thread state as it was, one for each role, and
    none of the four states is another.
    */
  lemma SessionsOfAThread(t: State)
    ensures
      var (t', s1, s2) := DeriveConvo(t);
      && t' == Ratchet(t) && s1 == Ratchet(AD(t, "initiatorThread")) && s2 == Ratchet(AD(t, "responderThread"))
      && |{t, t', s1, s2}| == 4
  {
    var (t', s1, s2) := DeriveConvo(t);
    assert Depth(t') == Depth(t) + 1;
    assert "initiatorThread"[0] != "responderThread"[0];
    assert t' != s1 && t' != s2 && s1 != s2;
    NotWithin(t, s1.before.role);
    NotWithin(t, s2.before.role);
    assert {t, t', s1, s2} == {t} + {t'} + {s1} + {s2};
  }

  /** The number of constructors of a state. */
  function Height(s: State): nat {
    if s.Root? then 0 else 1 + Height(s.before)
  }

  lemma NotWithin(t: State, role: string)
    ensures Ratchet(AD(t, role)) != t
  {
    assert Height(Ratchet(AD(t, role))) == 2 + Height(t);
  }

  // ----- Contacts -----

  /** The initiator's serialised handshake after message 1. */
  datatype Handshake = Handshake(me: string, peer: string, e1: nat)

  function StartHandshake(me: string, peer: string, e1: nat): (Content, Handshake) {
    (Hs1(me, peer, e1), Handshake(me, peer, e1))
  }

  /** The responder's (send state, receive state, message 2). */
  function AcceptHandshake(me: string, peer: string, msg: Content, e2: nat): Option<(State, State, Content)> {
    if msg.Hs1? && msg.initiator == peer && msg.responder == me then
      var s := Session(peer, me, msg.e1, e2);
      Some((Root(s, false), Root(s, true), Hs2(s)))
    else None
  }

  /** The initiator's (send state, receive state). */
  function FinishHandshake(hs: Handshake, msg: Content): Option<(State, State)> {
    if msg.Hs2? && msg.session.initiator == hs.me && msg.session.responder == hs.peer && msg.session.e1 == hs.e1
    then Some((Root(msg.session, true), Root(msg.session, false)))
    else None
  }

  /** An acceptance succeeds exactly on a request from that peer to us. */
  lemma AcceptsIff(me: string, peer: string, msg: Content, e2: nat)
    ensures AcceptHandshake(me, peer, msg, e2).Some? <==> exists e1: nat :: msg == Hs1(peer, me, e1)
  {
    if AcceptHandshake(me, peer, msg, e2).Some? {
      assert msg == Hs1(peer, me, msg.e1);
    }
  }

  /** The asker finishes exactly on an answer of its peer to its own request. */
  lemma FinishesIff(hs: Handshake, msg: Content)
    ensures FinishHandshake(hs, msg).Some? <==> exists e2: nat :: msg == Hs2(Session(hs.me, hs.peer, hs.e1, e2))
  {
    if FinishHandshake(hs, msg).Some? {
      assert msg == Hs2(Session(hs.me, hs.peer, hs.e1, msg.session.e2));
    }
  }

  /**
    A whole handshake, with the ephemeral keys drawn: the asker is left with the
    states of the session of both, the one that answers with the same, crossed.
    */
  lemma HandshakeCompletes(a: string, b: string, e1: nat, e2: nat)
    ensures
      var (request, hs) := StartHandshake(a, b, e1);
      var s := Session(a, b, e1, e2);
      && AcceptHandshake(b, a, request, e2).Some?
      && var (ts1, ts2, answer) := AcceptHandshake(b, a, request, e2).value;
      && answer == Hs2(s) && ts1 == Root(s, false) && ts2 == Root(s, true)
      && FinishHandshake(hs, answer) == Some((ts2, ts1))
  {
  }

  /** Two handshakes share a state, or an answer, only if they are one: same clients, same keys on both ends. */
  lemma HandshakesDiffer(me: string, peer: string, msg: Content, e2: nat, me': string, peer': string, msg': Content, e2': nat)
    requires AcceptHandshake(me, peer, msg, e2).Some? && AcceptHandshake(me', peer', msg', e2').Some?
    requires
      var (ts1, ts2, answer) := AcceptHandshake(me, peer, msg, e2).value;
      var (ts1', ts2', answer') := AcceptHandshake(me', peer', msg', e2').value;
      answer == answer' || ts1 == ts1' || ts2 == ts2' || ts1 == ts2' || ts2 == ts1'
    ensures me == me' && peer == peer' && msg == msg' && e2 == e2'
  {
  }

  /** An answer to another request is refused, as is one by another client. */
  lemma OtherAnswersAreRefused(hs: Handshake, me: string, peer: string, msg: Content, e2: nat)
    requires AcceptHandshake(me, peer, msg, e2).Some?
    ensures FinishHandshake(hs, AcceptHandshake(me, peer, msg, e2).value.2).Some? <==>
      msg == Hs1(hs.me, hs.peer, hs.e1) && peer == hs.me && me == hs.peer
  {
  }
}
