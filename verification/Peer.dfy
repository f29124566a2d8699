/**
  What a client stores about one other client, and the protocol steps
  (sasayaki.go) as functions on it. The rows of the contacts and conversations
  tables that carry the other client's public key form one `Side`.
  */
module Peer {
  import opened Hex
  import opened Strobe
  import opened Crypto
  import opened Queues

  datatype Contact =
    | NoContact
    | WaitingForAccept(hs: Handshake)
    | WaitingToAccept(request: Content)
    | ContactAdded(c1: State, c2: State)

  /** c1 encrypts to the peer, c2 decrypts from it; `sent` and `got` are the stored messages. */
  datatype Convo = Convo(title: Bytes, c1: State, c2: State, sent: seq<Bytes>, got: seq<Bytes>)

  datatype Side = Side(contact: Contact, convos: map<string, Convo>)

  const EMPTY := Side(NoContact, map[])

  datatype Request = Request(to: string, convo: string, content: Content)

  type Mail = Envelope<Content>

  /** The hub's checks on what a client hands over. */
  predicate Admitted(request: Request) {
    Check(request.to, request.convo, Some(request.content.Size())) == Fine
  }

  // ----- Handshake steps -----

  function AddContact(me: string, side: Side, bob: string, e1: nat, random: Bytes): Option<(Side, Request)> {
    if |bob| != 64 || side.contact != NoContact then None
    else
      match Decode(bob)
      case None => None
      case Some(key) =>
        var (msg, hs) := StartHandshake(me, Encode(key), e1);
        Some((side.(contact := WaitingForAccept(hs)), Request(bob, Encode(random), msg)))
  }

  function AcceptContact(me: string, side: Side, alice: string, e2: nat, random: Bytes): Option<(Side, Request)> {
    if |alice| != 64 || !side.contact.WaitingToAccept? then None
    else
      match Decode(alice)
      case None => None
      case Some(key) =>
        match AcceptHandshake(me, Encode(key), side.contact.request, e2)
        case None => None
        case Some((ts1, ts2, msg)) =>
          Some((side.(contact := ContactAdded(ts1, ts2)), Request(alice, Encode(random), msg)))
  }

  // ----- Sending -----

  /**
    The state a send leaves behind before the hub has answered. `Ready` hands
    over a request and the plaintext to store once the hub accepts it (nothing
    for a title); `Failed` reports an error, with whatever was written by then.
    */
  datatype Sending =
    | Ready(side: Side, request: Request, stored: Option<Bytes>)
    | Failed(side: Side)

  function StartThread(me: string, side: Side, to: string, title: Bytes, random: Bytes): Sending {
    match side.contact
    case ContactAdded(t1, t2) =>
      var x := Encode(random);
      var (t1', s1, s2) := DeriveConvo(t1);
      var begun := Side(ContactAdded(t1', t2), side.convos[x := Convo(title, s1, s2, [], [])]);
      (match Encrypt(me, s1, x, to, title)
       case None => Failed(begun)
       case Some((ct, s1')) =>
         Ready(begun.(convos := begun.convos[x := Convo(title, s1', s2, [], [])]), Request(to, x, ct), None))
    case _ => Failed(side)
  }

  function SendInConvo(me: string, side: Side, to: string, x: string, content: Bytes): Sending {
    if x !in side.convos then Failed(side)
    else
      var c := side.convos[x];
      match Encrypt(me, c.c1, x, to, content)
      case None => Failed(side)
      case Some((ct, c1')) =>
        Ready(side.(convos := side.convos[x := c.(c1 := c1')]), Request(to, x, ct), Some(content))
  }

  /** An empty conversation id asks for a new thread, with the content as its title. */
  function SendMessage(me: string, side: Side, to: string, x: string, content: Bytes, random: Bytes): Sending {
    if x == "" then StartThread(me, side, to, content, random)
    else SendInConvo(me, side, to, x, content)
  }

  /** After the hub's acceptance: the plaintext joins the stored messages. */
  function StoreSent(side: Side, x: string, stored: Option<Bytes>): Side {
    if stored.None? || x !in side.convos then side
    else side.(convos := side.convos[x := side.convos[x].(sent := side.convos[x].sent + [stored.value])])
  }

  // ----- Receiving -----

  datatype Outcome =
    | Requested
    | Finalized
    | Discarded
    | Opened(title: Bytes)
    | Delivered(plaintext: Bytes)
    | Rejected

  predicate Accepted(o: Outcome) {
    o != Discarded && o != Rejected
  }

  /**
    The first message of an unknown conversation. The row and the thread state
    are written before the title is decrypted. The peer begun the thread, so
    its initiator state is what we decrypt with.
    */
  function ReceiveTitle(me: string, peer: string, side: Side, env: Mail): (Side, Outcome)
    requires side.contact.ContactAdded?
  {
    var (t2', s1, s2) := DeriveConvo(side.contact.c2);
    var x := env.convo;
    var begun := Side(side.contact.(c2 := t2'), side.convos[x := Convo([], s2, s1, [], [])]);
    match Decrypt(me, s1, x, peer, env.content)
    case None => (begun, Rejected)
    case Some((title, s1')) =>
      (begun.(convos := begun.convos[x := Convo(title, s2, s1', [], [])]), Opened(title))
  }

  function ReceiveData(me: string, peer: string, side: Side, env: Mail): (Side, Outcome) {
    var x := env.convo;
    if x !in side.convos then (side, Rejected)
    else
      var c := side.convos[x];
      match Decrypt(me, c.c2, x, peer, env.content)
      case None => (side, Rejected)
      case Some((plaintext, c2')) =>
        (side.(convos := side.convos[x := c.(c2 := c2', got := c.got + [plaintext])]), Delivered(plaintext))
  }

  /** `known` says whether any conversation row, for any peer, has this id. */
  function HandleNewMessage(me: string, peer: string, side: Side, env: Mail, known: bool): (Side, Outcome)
    requires side.contact.ContactAdded?
  {
    if |env.convo| != 32 then (side, Rejected)
    else if !known then ReceiveTitle(me, peer, side, env)
    else ReceiveData(me, peer, side, env)
  }

  function Receive(me: string, peer: string, side: Side, env: Mail, known: bool): (Side, Outcome) {
    match side.contact
    case NoContact => (side.(contact := WaitingToAccept(env.content)), Requested)
    case WaitingForAccept(hs) =>
      (match FinishHandshake(hs, env.content)
       case None => (side, Rejected)
       case Some((ts1, ts2)) => (side.(contact := ContactAdded(ts1, ts2)), Finalized))
    case WaitingToAccept(_) => (side, Discarded)
    case ContactAdded(_, _) => HandleNewMessage(me, peer, side, env, known)
  }

  // ----- When each step succeeds, and what its errors leave -----

  /** A client asks exactly a stranger with a key for an address, in the stranger's name as the hub spells it. */
  lemma AsksIff(me: string, side: Side, bob: string, e1: nat, random: Bytes)
    ensures
      AddContact(me, side, bob, e1, random) ==
      if |bob| == 64 && IsHex(bob) && side.contact == NoContact
      then Some((Side(WaitingForAccept(Handshake(me, ToLower(bob), e1)), side.convos),
                 Request(bob, Encode(random), Hs1(me, ToLower(bob), e1))))
      else None
  {
    if IsHex(bob) && |bob| == 64 {
      EncodeDecode(bob);
    }
  }

  /** It answers exactly a stored request of that client to it. */
  lemma AnswersIff(me: string, side: Side, alice: string, e2: nat, random: Bytes)
    ensures
      var r := AcceptContact(me, side, alice, e2, random);
      && (r.Some? <==>
          && |alice| == 64 && IsHex(alice)
          && exists e1: nat :: side.contact == WaitingToAccept(Hs1(ToLower(alice), me, e1)))
      && (r.Some? ==>
          var s := Session(ToLower(alice), me, side.contact.request.e1, e2);
          r == Some((Side(ContactAdded(Root(s, false), Root(s, true)), side.convos), Request(alice, Encode(random), Hs2(s)))))
  {
    if |alice| == 64 && IsHex(alice) && side.contact.WaitingToAccept? {
      EncodeDecode(alice);
      AcceptsIff(me, ToLower(alice), side.contact.request, e2);
    }
  }

  /** A send that can be refused before anything is written is, and leaves everything as it was. */
  lemma SendFailsCleanly(me: string, side: Side, to: string, x: string, content: Bytes, random: Bytes)
    requires if x == "" then !side.contact.ContactAdded?
             else x !in side.convos || |content| > 64535 || !IsHex(x) || !IsHex(to) || |x| % 2 == 1 || |to| % 2 == 1
    ensures SendMessage(me, side, to, x, content, random) == Failed(side)
  {
  }

  /** What a message is taken for, by the status of its sender, and every message that is refused. */
  lemma ReceivesByStatus(me: string, peer: string, side: Side, env: Mail, known: bool)
    ensures
      var (side', outcome) := Receive(me, peer, side, env, known);
      match side.contact
      case NoContact => outcome == Requested && side' == Side(WaitingToAccept(env.content), side.convos)
      case WaitingForAccept(hs) =>
        && (outcome == Finalized <==> exists e2: nat :: env.content == Hs2(Session(hs.me, hs.peer, hs.e1, e2)))
        && (if outcome == Finalized then
              side' == Side(ContactAdded(Root(env.content.session, true), Root(env.content.session, false)), side.convos)
            else outcome == Rejected && side' == side)
      case WaitingToAccept(_) => outcome == Discarded && side' == side
      case ContactAdded(_, _) =>
        && (|env.convo| != 32 || (known && env.convo !in side.convos) ==> outcome == Rejected && side' == side)
        && (known && !env.content.Ct? ==> outcome == Rejected && side' == side)
        && (outcome == Rejected || outcome.Delivered? || outcome.Opened?)
        && (outcome.Delivered? || outcome.Opened? ==> env.content.Ct?)
  {
    if side.contact.WaitingForAccept? {
      FinishesIff(side.contact.hs, env.content);
    }
  }

  // ----- What one step can change -----

  /** A send adds at most the conversation it opens and keeps the kind of contact. */
  ghost predicate SendShape(side: Side, to: string, x: string, fits: bool, o: Sending) {
    && o.side.convos.Keys <= side.convos.Keys + {x}
    && (o.side != side ==> (side.contact.ContactAdded? || x in side.convos))
    && o.side.contact.ContactAdded? == side.contact.ContactAdded?
    && (!o.side.contact.ContactAdded? ==> o.side.contact == side.contact)
    && (o.Ready? ==>
        && o.request.to == to && o.request.convo == x && IsHex(to) && x in o.side.convos
        && o.request.content.Ct? && (fits <==> o.request.content.Size() <= MESSAGE_MAX_CHARS)
        && (side.contact.ContactAdded? || x in side.convos))
  }

  lemma TitleHasShape(me: string, side: Side, to: string, title: Bytes, random: Bytes)
    ensures
      var o := StartThread(me, side, to, title, random);
      SendShape(side, to, Encode(random), |title| + 16 <= MESSAGE_MAX_CHARS, o) && (o.Ready? ==> |title| <= MAX_PLAINTEXT)
  {
    hide AuthData, DeriveConvo;
  }

  lemma DataHasShape(me: string, side: Side, to: string, x: string, content: Bytes)
    ensures
      var o := SendInConvo(me, side, to, x, content);
      SendShape(side, to, x, |content| + 16 <= MESSAGE_MAX_CHARS, o) && (o.Ready? ==> |content| <= MAX_PLAINTEXT)
  {
    hide AuthData;
  }

  lemma SendHasShape(me: string, side: Side, to: string, x: string, content: Bytes, random: Bytes)
    ensures SendShape(side, to, if x == "" then Encode(random) else x, |content| + 16 <= MESSAGE_MAX_CHARS,
                      SendMessage(me, side, to, x, content, random))
    ensures x != "" && x !in side.convos ==> SendMessage(me, side, to, x, content, random) == Failed(side)
    ensures SendMessage(me, side, to, x, content, random).Ready? ==> |content| <= MAX_PLAINTEXT
  {
    hide StartThread, SendShape, Encrypt;
    if x == "" {
      TitleHasShape(me, side, to, content, random);
    } else {
      DataHasShape(me, side, to, x, content);
    }
  }

  /** A receive adds at most the conversation of the message, to a completed contact. */
  ghost predicate ReceiveShape(side: Side, x: string, side': Side) {
    && side'.convos.Keys <= side.convos.Keys + {x}
    && (side'.convos.Keys != side.convos.Keys ==> |x| == 32 && side.contact.ContactAdded?)
    && (side.contact.ContactAdded? ==> side'.contact.ContactAdded?)
  }

  lemma ReceiveHasShape(me: string, peer: string, side: Side, env: Mail, known: bool)
    ensures ReceiveShape(side, env.convo, Receive(me, peer, side, env, known).0)
  {
  }

  // ----- The two handshake paths -----

  /** The steps a contact's status can take: asker and asked, each to completion. */
  ghost predicate Advances(c: Contact, c': Contact) {
    match c
    case NoContact => !c'.ContactAdded?
    case WaitingForAccept(hs) =>
      c' == c || (c'.ContactAdded? && exists m: Content :: FinishHandshake(hs, m) == Some((c'.c1, c'.c2)))
    case WaitingToAccept(m) =>
      c' == c || (c'.ContactAdded? && m.Hs1?
                  && c'.c1.Root? && c'.c2 == Root(c'.c1.session, !c'.c1.fromInitiator)
                  && c'.c1.session.initiator == m.initiator && c'.c1.session.e1 == m.e1)
    case ContactAdded(c1, c2) =>
      c'.ContactAdded? && (c' == c || c' == ContactAdded(Ratchet(c1), c2) || c' == ContactAdded(c1, Ratchet(c2)))
  }
}
