/**
  The encryption service as crypto.go runs it: every call recovers a STROBE
  object from a serialised state, mutates it, and serialises the result.
  */
module Encryption {
  import opened Hex
  import opened Strobe
  import opened Crypto

  class StrobeObject {
    var state: State

    constructor Recover(s: State)
      ensures state == s
    {
      state := s;
    }

    method Clone() returns (c: StrobeObject)
      ensures fresh(c) && c.state == state
    {
      c := new StrobeObject.Recover(state);
    }

    method MetaAD(role: string)
      modifies this
      ensures state == AD(old(state), role)
    {
      state := AD(state, role);
    }

    method RATCHET()
      modifies this
      ensures state == Ratchet(old(state))
    {
      state := Ratchet(state);
    }

    method SendAEAD(plaintext: Bytes, ad: Bytes) returns (ct: Content)
      modifies this
      ensures (ct, state) == SendAead(old(state), plaintext, ad)
    {
      ct := Ct(state, ad, plaintext);
      state := AfterMsg(state, ad, plaintext);
    }

    method RecvAEAD(ct: Content, ad: Bytes) returns (plaintext: Option<Bytes>)
      modifies this
      ensures plaintext.Some? <==> RecvAead(old(state), ct, ad).Some?
      ensures plaintext.Some? ==> RecvAead(old(state), ct, ad) == Some((plaintext.value, state))
    {
      if ct.Ct? && ct.state == state && ct.ad == ad {
        plaintext := Some(ct.plaintext);
        state := AfterMsg(state, ad, ct.plaintext);
      } else {
        plaintext := None;
      }
    }
  }

  /**
    A Noise IK handshake in progress. Completing it yields the same two states
    at both ends: initiator to responder first, responder to initiator second.
    */
  class HandshakeObject {
    const initiator: bool
    const me: string
    const peer: string
    var e1: Option<nat>

    constructor Initialize(initiator: bool, me: string, peer: string)
      ensures this.initiator == initiator && this.me == me && this.peer == peer && e1 == None
    {
      this.initiator, this.me, this.peer := initiator, me, peer;
      e1 := None;
    }

    constructor Recover(hs: Handshake)
      ensures initiator && me == hs.me && peer == hs.peer && e1 == Some(hs.e1)
    {
      initiator, me, peer := true, hs.me, hs.peer;
      e1 := Some(hs.e1);
    }

    method WriteFirst(e: nat) returns (msg: Content)
      requires initiator && e1 == None
      modifies this
      ensures e1 == Some(e) && msg == Hs1(me, peer, e)
    {
      e1 := Some(e);
      msg := Hs1(me, peer, e);
    }

    method ReadFirst(msg: Content) returns (ok: bool)
      requires !initiator && e1 == None
      modifies this
      ensures ok <==> msg.Hs1? && msg.initiator == peer && msg.responder == me
      ensures e1 == if ok then Some(msg.e1) else None
    {
      ok := msg.Hs1? && msg.initiator == peer && msg.responder == me;
      if ok {
        e1 := Some(msg.e1);
      }
    }

    method WriteSecond(e2: nat) returns (forward: State, backward: State, msg: Content)
      requires !initiator && e1.Some?
      ensures var s := Session(peer, me, e1.value, e2); (forward, backward, msg) == (Root(s, true), Root(s, false), Hs2(s))
    {
      var s := Session(peer, me, e1.value, e2);
      return Root(s, true), Root(s, false), Hs2(s);
    }

    method ReadSecond(msg: Content) returns (states: Option<(State, State)>)
      requires initiator && e1.Some?
      ensures states == FinishHandshake(Handshake(me, peer, e1.value), msg)
    {
      if !msg.Hs2? {
        return None;
      }
      var s := msg.session;
      if s.initiator != me || s.responder != peer || s.e1 != e1.value {
        return None;
      }
      return Some((Root(s, true), Root(s, false)));
    }
  }

  class EncryptionState {
    const publicKey: Bytes
    const address: string

    constructor (address: string)
      requires IsAddress(address)
      ensures this.address == address && Valid()
    {
      this.address := address;
      this.publicKey := Decode(address).value;
    }

    predicate Valid() {
      IsAddress(address) && publicKey == KeyOf(address)
    }

    method EncryptMessage(s: State, convo: string, to: string, content: Bytes) returns (r: Option<(Content, State)>)
      requires Valid()
      ensures r == Encrypt(address, s, convo, to, content)
    {
      if |content| > 65535 - 1000 {
        return None;
      }
      var s1 := new StrobeObject.Recover(s);
      var convoId, bobPubKey := Decode(convo), Decode(to);
      if convoId.None? || bobPubKey.None? {
        return None;
      }
      var toAuthenticate := ToAuthenticate(convoId.value, publicKey, bobPubKey.value);
      var ct := s1.SendAEAD(content, toAuthenticate[..]);
      r := Some((ct, s1.state));
    }

    method DecryptMessage(s: State, convo: string, from: string, content: Content) returns (r: Option<(Bytes, State)>)
      requires Valid()
      ensures r == Decrypt(address, s, convo, from, content)
    {
      var convoId, bobPubKey := Decode(convo), Decode(from);
      if convoId.None? || bobPubKey.None? {
        return None;
      }
      var toAuthenticate := ToAuthenticate(convoId.value, bobPubKey.value, publicKey);
      var s2 := new StrobeObject.Recover(s);
      var plaintext := s2.RecvAEAD(content, toAuthenticate[..]);
      if plaintext.None? {
        return None;
      }
      r := Some((plaintext.value, s2.state));
    }

    /** Used for a new conversation and for one opened by a message: both derive alike. */
    method CreateConvo(threadState: State) returns (t: State, initiator: State, responder: State)
      ensures (t, initiator, responder) == DeriveConvo(threadState)
    {
      var ts := new StrobeObject.Recover(threadState);
      var s1 := ts.Clone();
      var s2 := ts.Clone();
      s1.MetaAD("initiatorThread");
      s1.RATCHET();
      s2.MetaAD("responderThread");
      s2.RATCHET();
      ts.RATCHET();
      return ts.state, s1.state, s2.state;
    }

    method AddContact(bob: string, e1: nat) returns (msg: Content, serialised: Handshake)
      requires Valid()
      ensures (msg, serialised) == StartHandshake(address, bob, e1)
    {
      var hs := new HandshakeObject.Initialize(true, address, bob);
      msg := hs.WriteFirst(e1);
      serialised := Handshake(hs.me, hs.peer, hs.e1.value);
    }

    /** The responder sends with the second state and receives with the first. */
    method AcceptContact(alice: string, firstMessage: Content, e2: nat) returns (r: Option<(State, State, Content)>)
      requires Valid()
      ensures r == AcceptHandshake(address, alice, firstMessage, e2)
    {
      var hs := new HandshakeObject.Initialize(false, address, alice);
      var ok := hs.ReadFirst(firstMessage);
      if !ok {
        return None;
      }
      var ts2, ts1, msg := hs.WriteSecond(e2);
      return Some((ts1, ts2, msg));
    }

    method FinishAddContact(serialised: Handshake, secondMessage: Content) returns (r: Option<(State, State)>)
      ensures r == FinishHandshake(serialised, secondMessage)
    {
      var hs := new HandshakeObject.Recover(serialised);
      r := hs.ReadSecond(secondMessage);
    }
  }
}
