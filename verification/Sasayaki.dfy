/**
  The core of a client (sasayaki.go) over its database and encryption service.
  Each method is one operation under the query mutex, up to the point where the
  hub is called; the hub's part of it is a separate call. The steps of the
  network model are the functions these methods are proved to compute.
  */
module Sasayaki {
  import opened Hex
  import opened Strobe
  import opened Crypto
  import opened Queues
  import P = Peer
  import opened Storage
  import opened Database
  import opened Encryption

  lemma EncryptAdvances(me: string, s: State, x: string, to: string, content: Bytes)
    requires Encrypt(me, s, x, to, content).Some?
    ensures Encrypt(me, s, x, to, content).value.1 != s
  {
  }

  class SasayakiState {
    const myAddress: string
    const storage: StorageState
    const e2e: EncryptionState

    constructor (address: string)
      requires IsAddress(address)
      ensures Valid() && fresh(storage) && fresh(e2e) && myAddress == address
      ensures storage.All() == Tables(map[], map[], [])
    {
      myAddress := address;
      storage := new StorageState();
      e2e := new EncryptionState(address);
    }

    ghost predicate Valid()
      reads storage
    {
      storage.Valid() && e2e.Valid() && e2e.address == myAddress && IsAddress(myAddress)
    }

    function Peer(p: string): P.Side
      requires Valid()
      reads storage
    {
      SideOf(storage.All(), p)
    }

    method AliceAddContact(bob: string, e1: nat, random: Bytes) returns (r: Option<P.Request>)
      requires Valid()
      modifies storage
      ensures Valid()
      ensures
        match P.AddContact(myAddress, old(Peer(bob)), bob, e1, random)
        case None => r == None && storage.All() == old(storage.All())
        case Some((side, request)) => r == Some(request) && Becomes(old(storage.All()), storage.All(), bob, side)
    {
      if |bob| != 64 {
        return None;
      }
      var status := storage.GetStateContact(bob);
      if status != P.NoContact {
        return None;
      }
      var bobPubKey := Decode(bob);
      if bobPubKey.None? {
        return None;
      }
      var firstHandshakeMessage, hs := e2e.AddContact(Encode(bobPubKey.value), e1);
      storage.AddContact(bob, hs);
      r := Some(P.Request(bob, Encode(random), firstHandshakeMessage));
    }

    method BobReceiveContactRequest(alice: string, message: Content) returns (ok: bool)
      requires Valid()
      modifies storage
      ensures Valid()
      ensures ok <==> old(Peer(alice)).contact == P.NoContact
      ensures ok ==> Becomes(old(storage.All()), storage.All(), alice,
        old(Peer(alice)).(contact := P.WaitingToAccept(message)))
      ensures !ok ==> storage.All() == old(storage.All())
    {
      var status := storage.GetStateContact(alice);
      if status != P.NoContact {
        return false;
      }
      storage.AddContactFromReq(alice, message);
      return true;
    }

    method BobAcceptContact(alice: string, e2: nat, random: Bytes) returns (r: Option<P.Request>)
      requires Valid()
      modifies storage
      ensures Valid()
      ensures
        match P.AcceptContact(myAddress, old(Peer(alice)), alice, e2, random)
        case None => r == None && storage.All() == old(storage.All())
        case Some((side, request)) => r == Some(request) && Becomes(old(storage.All()), storage.All(), alice, side)
    {
      if |alice| != 64 {
        return None;
      }
      var status := storage.GetStateContact(alice);
      if !status.WaitingToAccept? {
        return None;
      }
      var alicePubKey := Decode(alice);
      if alicePubKey.None? {
        return None;
      }
      var states := e2e.AcceptContact(Encode(alicePubKey.value), status.request, e2);
      if states.None? {
        return None;
      }
      var (ts1, ts2, secondHandshakeMsg) := states.value;
      var found := storage.FinalizeContact(alice, ts1, ts2);
      r := Some(P.Request(alice, Encode(random), secondHandshakeMsg));
    }

    method AliceAckAcceptContact(bob: string, message: Content) returns (ok: bool)
      requires Valid()
      modifies storage
      ensures Valid()
      ensures
        var contact := old(Peer(bob)).contact;
        var states := if contact.WaitingForAccept? then FinishHandshake(contact.hs, message) else None;
        && ok == states.Some?
        && (ok ==> Becomes(old(storage.All()), storage.All(), bob,
              old(Peer(bob)).(contact := P.ContactAdded(states.value.0, states.value.1))))
        && (!ok ==> storage.All() == old(storage.All()))
    {
      var status := storage.GetStateContact(bob);
      if !status.WaitingForAccept? {
        return false;
      }
      var states := e2e.FinishAddContact(status.hs, message);
      if states.None? {
        return false;
      }
      var found := storage.FinalizeContact(bob, states.value.0, states.value.1);
      return true;
    }

    // ----- Messages -----

    /** A new thread: every write comes before the title is encrypted. */
    method StartThread(to: string, title: Bytes, random: Bytes) returns (request: Option<P.Request>)
      requires Valid() && !KnownToSome(storage.All(), Encode(random))
      modifies storage
      ensures Valid()
      ensures
        var o := P.StartThread(myAddress, old(Peer(to)), to, title, random);
        && (if o.side == old(Peer(to)) then storage.All() == old(storage.All())
            else Becomes(old(storage.All()), storage.All(), to, o.side))
        && (match o case Failed(_) => request == None case Ready(_, r, stored) => request == Some(r) && stored == None)
    {
      hide Encrypt, KnownToSome;
      ghost var t0, side := storage.All(), Peer(to);
      var x := Encode(random);
      var threads := storage.GetThreadRatchetStates(to);
      if threads.None? {
        return None;
      }
      var threadState, s1, s2 := e2e.CreateConvo(threads.value.0);
      ghost var row := P.Convo(title, s1, s2, [], []);
      ghost var side1 := P.Side(side.contact.(c1 := threadState), side.convos);
      ghost var side2 := side1.(convos := side1.convos[x := row]);
      WriteThread(to, x, title, threadState, s1, s2);
      ghost var t2 := storage.All();
      var encrypted := e2e.EncryptMessage(s1, x, to, title);
      if encrypted.None? {
        return None;
      }
      storage.UpdateSessionKeys(x, to, Some(encrypted.value.1), None);
      WrittenTwice(side1, x, row, row.(c1 := encrypted.value.1));
      BecomesTwice(t0, t2, storage.All(), to, side2, side1.(convos := side1.convos[x := row.(c1 := encrypted.value.1)]));
      return Some(P.Request(to, x, encrypted.value.0));
    }

    /** The thread state, and the row of the new conversation. */
    method WriteThread(to: string, x: string, title: Bytes, threadState: State, s1: State, s2: State)
      requires Valid() && Peer(to).contact.ContactAdded? && !KnownToSome(storage.All(), x)
      modifies storage
      ensures Valid()
      ensures
        var side := old(Peer(to));
        Becomes(old(storage.All()), storage.All(), to,
          P.Side(side.contact.(c1 := threadState), side.convos[x := P.Convo(title, s1, s2, [], [])]))
    {
      ghost var t0 := storage.All();
      storage.UpdateThreadRatchetStates(to, Some(threadState), None);
      ghost var t1, side1 := storage.All(), SideOf(storage.All(), to);
      storage.CreateConvo(x, to, title, s1, s2);
      BecomesTwice(t0, t1, storage.All(), to, side1, side1.(convos := side1.convos[x := P.Convo(title, s1, s2, [], [])]));
    }

    method SendInConvo(to: string, x: string, content: Bytes) returns (request: Option<P.Request>)
      requires Valid()
      modifies storage
      ensures Valid()
      ensures
        match P.SendInConvo(myAddress, old(Peer(to)), to, x, content)
        case Failed(_) => request == None && storage.All() == old(storage.All())
        case Ready(side, r, stored) =>
          request == Some(r) && stored == Some(content) && Becomes(old(storage.All()), storage.All(), to, side)
    {
      var keys := storage.GetSessionKeys(x, to);
      if keys.None? {
        return None;
      }
      var encrypted := e2e.EncryptMessage(keys.value.0, x, to, content);
      if encrypted.None? {
        return None;
      }
      storage.UpdateSessionKeys(x, to, Some(encrypted.value.1), None);
      return Some(P.Request(to, x, encrypted.value.0));
    }

    /** Returns what to hand to the hub, and what to store once it has accepted. */
    method SendMessage(to: string, x: string, content: Bytes, random: Bytes)
      returns (request: Option<P.Request>, stored: Option<Bytes>)
      requires Valid() && (x == "" ==> !KnownToSome(storage.All(), Encode(random)))
      modifies storage
      ensures Valid()
      ensures
        var o := P.SendMessage(myAddress, old(Peer(to)), to, x, content, random);
        && (if o.side == old(Peer(to)) then storage.All() == old(storage.All())
            else Becomes(old(storage.All()), storage.All(), to, o.side))
        && (match o
            case Failed(_) => request == None
            case Ready(_, r, s) => request == Some(r) && stored == s)
    {
      stored := None;
      if x == "" {
        request := StartThread(to, content, random);
      } else {
        ghost var side := Peer(to);
        request := SendInConvo(to, x, content);
        stored := Some(content);
        if request.Some? {
          EncryptAdvances(myAddress, side.convos[x].c1, x, to, content);
        }
      }
    }

    /** After the hub has accepted a message of a known conversation. */
    method MessageAccepted(to: string, x: string, content: Bytes)
      requires Valid() && x in Peer(to).convos
      modifies storage
      ensures Valid()
      ensures Becomes(old(storage.All()), storage.All(), to, P.StoreSent(old(Peer(to)), x, Some(content)))
    {
      storage.StoreMessage(x, true, content, to);
    }

    method ReceiveTitle(from: string, x: string, content: Content) returns (outcome: P.Outcome)
      requires Valid() && Peer(from).contact.ContactAdded?
      requires !KnownToSome(storage.All(), x)
      modifies storage
      ensures Valid()
      ensures
        var (side, o) := P.ReceiveTitle(myAddress, from, old(Peer(from)), Envelope(from, x, content));
        outcome == o && Becomes(old(storage.All()), storage.All(), from, side)
    {
      ghost var t0 := storage.All();
      var threads := storage.GetThreadRatchetStates(from);
      var threadState, s1, s2 := e2e.CreateConvo(threads.value.1);
      storage.CreateConvo(x, from, [], s2, s1);
      ghost var t1, side1 := storage.All(), SideOf(storage.All(), from);
      storage.UpdateThreadRatchetStates(from, None, Some(threadState));
      ghost var t2, row := storage.All(), P.Convo([], s2, s1, [], []);
      ghost var contact := SideOf(t0, from).contact.(c2 := threadState);
      ghost var before := P.Side(contact, SideOf(t0, from).convos);
      ghost var side2 := before.(convos := before.convos[x := row]);
      BecomesTwice(t0, t1, t2, from, side1, side2);
      var title := e2e.DecryptMessage(s1, x, from, content);
      if title.None? {
        return P.Rejected;
      }
      WriteTitle(from, x, title.value.0, title.value.1);
      ghost var row' := row.(title := title.value.0, c2 := title.value.1);
      WrittenTwice(before, x, row, row');
      BecomesTwice(t0, t2, storage.All(), from, side2, before.(convos := before.convos[x := row']));
      return P.Opened(title.value.0);
    }

    /** The state after the title, and the title itself. */
    method WriteTitle(from: string, x: string, title: Bytes, c2: State)
      requires Valid() && x in Peer(from).convos
      modifies storage
      ensures Valid()
      ensures
        var side := old(Peer(from));
        Becomes(old(storage.All()), storage.All(), from,
          side.(convos := side.convos[x := side.convos[x].(title := title, c2 := c2)]))
    {
      ghost var t0, side := storage.All(), Peer(from);
      ghost var c := side.convos[x];
      storage.UpdateSessionKeys(x, from, None, Some(c2));
      ghost var t1 := storage.All();
      storage.UpdateTitle(x, from, title);
      WrittenTwice(side, x, c.(c2 := c2), c.(c2 := c2, title := title));
      BecomesTwice(t0, t1, storage.All(), from, side.(convos := side.convos[x := c.(c2 := c2)]),
        side.(convos := side.convos[x := c.(title := title, c2 := c2)]));
    }

    method ReceiveData(from: string, x: string, content: Content) returns (outcome: P.Outcome)
      requires Valid()
      modifies storage
      ensures Valid()
      ensures
        var (side, o) := P.ReceiveData(myAddress, from, old(Peer(from)), Envelope(from, x, content));
        && outcome == o
        && (if o.Delivered? then Becomes(old(storage.All()), storage.All(), from, side)
            else storage.All() == old(storage.All()) && side == old(Peer(from)))
    {
      var keys := storage.GetSessionKeys(x, from);
      if keys.None? {
        return P.Rejected;
      }
      var decrypted := e2e.DecryptMessage(keys.value.1, x, from, content);
      if decrypted.None? {
        return P.Rejected;
      }
      ghost var t0, side := storage.All(), Peer(from);
      ghost var c := side.convos[x].(c2 := decrypted.value.1);
      storage.UpdateSessionKeys(x, from, None, Some(decrypted.value.1));
      ghost var t1 := storage.All();
      storage.StoreMessage(x, false, decrypted.value.0, from);
      ghost var c' := c.(got := c.got + [decrypted.value.0]);
      WrittenTwice(side, x, c, c');
      BecomesTwice(t0, t1, storage.All(), from, side.(convos := side.convos[x := c]), side.(convos := side.convos[x := c']));
      return P.Delivered(decrypted.value.0);
    }

    method HandleNewMessage(from: string, x: string, content: Content) returns (outcome: P.Outcome)
      requires Valid() && Peer(from).contact.ContactAdded?
      modifies storage
      ensures Valid()
      ensures
        var known := KnownToSome(old(storage.All()), x);
        var (side, o) := P.HandleNewMessage(myAddress, from, old(Peer(from)), Envelope(from, x, content), known);
        && outcome == o
        && (if storage.All() == old(storage.All()) then side == old(Peer(from))
            else Becomes(old(storage.All()), storage.All(), from, side))
    {
      hide P.ReceiveTitle, P.ReceiveData, KnownToSome;
      if |x| != 32 {
        return P.Rejected;
      }
      var known := storage.ConvoExist(x);
      if !known {
        outcome := ReceiveTitle(from, x, content);
      } else {
        outcome := ReceiveData(from, x, content);
      }
    }

    /** What follows the hub's answer in `getNextMessage`: dispatch on the sender's contact state. */
    method ProcessMail(from: string, x: string, content: Content) returns (outcome: P.Outcome)
      requires Valid()
      modifies storage
      ensures Valid()
      ensures
        var known := KnownToSome(old(storage.All()), x);
        var (side, o) := P.Receive(myAddress, from, old(Peer(from)), Envelope(from, x, content), known);
        && outcome == o
        && (if storage.All() == old(storage.All()) then side == old(Peer(from))
            else Becomes(old(storage.All()), storage.All(), from, side))
    {
      hide P.HandleNewMessage, KnownToSome;
      var status := storage.GetStateContact(from);
      match status
      case NoContact =>
        var ok := BobReceiveContactRequest(from, content);
        return P.Requested;
      case WaitingForAccept(_) =>
        var ok := AliceAckAcceptContact(from, content);
        return if ok then P.Finalized else P.Rejected;
      case WaitingToAccept(_) =>
        return P.Discarded;
      case ContactAdded(_, _) =>
        outcome := HandleNewMessage(from, x, content);
    }
  }
}
