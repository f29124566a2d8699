/**
  Symbolic STROBE states and Noise IK handshake messages. A state is the free
  term that records every operation performed on it, so two states are equal
  exactly when they have the same history.
  */
module Strobe {
  import opened Hex

  /** A completed IK handshake: who started it, who answered, both ephemeral keys. */
  datatype Session = Session(initiator: string, responder: string, e1: nat, e2: nat)

  datatype State =
    | Root(session: Session, fromInitiator: bool)
    | AD(before: State, role: string)
    | Ratchet(before: State)
    | AfterMsg(before: State, ad: Bytes, plaintext: Bytes)

  /** What travels in the content field of a message. */
  datatype Content =
    | Hs1(initiator: string, responder: string, e1: nat)
    | Hs2(session: Session)
    | Ct(state: State, ad: Bytes, plaintext: Bytes)
    | Other(bytes: Bytes)   // anything else; no client of this program sends it
  {
    /**
      Byte length on the wire: IK message 1 is e (32), encrypted s (48) and an
      empty payload's tag (16), message 2 is e and a tag (48), both sent in
      hexadecimal; a ciphertext carries a 16-byte tag.
      */
    function Size(): nat {
      match this
      case Hs1(_, _, _) => 192
      case Hs2(_) => 96
      case Ct(_, _, p) => |p| + 16
      case Other(bytes) => |bytes|
    }
  }

  function SendAead(s: State, plaintext: Bytes, ad: Bytes): (Content, State) {
    (Ct(s, ad, plaintext), AfterMsg(s, ad, plaintext))
  }

  /** Succeeds exactly on a ciphertext made from this state and this associated data. */
  function RecvAead(s: State, content: Content, ad: Bytes): Option<(Bytes, State)> {
    if content.Ct? && content.state == s && content.ad == ad
    then Some((content.plaintext, AfterMsg(s, ad, content.plaintext)))
    else None
  }

  /** The number of messages a session state has processed. */
  function Index(s: State): nat {
    if s.AfterMsg? then 1 + Index(s.before) else 0
  }

  /** The session state before any message. */
  function Base(s: State): State {
    if s.AfterMsg? then Base(s.before) else s
  }

  /** The number of ratchets on top of a thread state. */
  function Depth(s: State): nat {
    if s.Ratchet? then 1 + Depth(s.before) else 0
  }

  /** The handshake output a thread state was ratcheted from. */
  function Core(s: State): State {
    if s.Ratchet? then Core(s.before) else s
  }
}
