/**
  The storage service as an object: each method is one query or update of
  storage.go, specified by what becomes of the sides of all peers.
  */
module Database {
  import opened Hex
  import opened Strobe
  import opened Crypto
  import opened Peer
  import opened Storage

  /** Only the rows of bob have changed, and they now give this side. */
  ghost predicate Becomes(t: Tables, t': Tables, bob: string, side: Side)
    requires TablesOk(t)
  {
    && TablesOk(t')
    && (forall p :: SideOf(t', p) == if p == bob then side else SideOf(t, p))
  }

  lemma BecomesTwice(t: Tables, t1: Tables, t2: Tables, bob: string, s1: Side, s2: Side)
    requires TablesOk(t) && Becomes(t, t1, bob, s1) && Becomes(t1, t2, bob, s2)
    ensures Becomes(t, t2, bob, s2)
    ensures SideOf(t1, bob) == s1
  {
  }

  /** The later of two writes to a row counts. */
  lemma WrittenTwice(side: Side, x: string, c: Convo, c': Convo)
    ensures side.(convos := side.convos[x := c]).(convos := side.convos[x := c][x := c'])
         == side.(convos := side.convos[x := c'])
  {
    assert side.convos[x := c][x := c'] == side.convos[x := c'];
  }

  class StorageState {
    var contacts: map<string, ContactRow>
    var conversations: map<(string, string), ConvoRow>
    var messages: seq<MessageRow>

    constructor ()
      ensures Valid() && All() == Tables(map[], map[], [])
    {
      contacts, conversations, messages := map[], map[], [];
    }

    function All(): Tables
      reads this
    {
      Tables(contacts, conversations, messages)
    }

    ghost predicate Valid()
      reads this
    {
      TablesOk(All())
    }

    function Peer(p: string): Side
      requires Valid()
      reads this
    {
      SideOf(All(), p)
    }

    // ----- Queries -----

    method GetStateContact(bob: string) returns (c: Contact)
      requires Valid()
      ensures c == Peer(bob).contact
    {
      if bob !in contacts {
        return NoContact;
      }
      var row := contacts[bob];
      if row.state[0] == Tag(0) {
        c := WaitingForAccept(row.state[1].hs);
      } else if row.state[0] == Tag(1) {
        c := WaitingToAccept(if |row.state| == 1 then NOTHING else row.state[1].message);
      } else {
        c := ContactAdded(row.c1.value, row.c2.value);
      }
    }

    method GetThreadRatchetStates(bob: string) returns (r: Option<(State, State)>)
      requires Valid()
      ensures r.Some? <==> Peer(bob).contact.ContactAdded?
      ensures r.Some? ==> r.value == (Peer(bob).contact.c1, Peer(bob).contact.c2)
    {
      if bob !in contacts {
        return None;
      }
      ThreadStatesIffAdded(contacts[bob]);
      r := ThreadStates(contacts[bob]);
    }

    method ConvoExist(x: string) returns (known: bool)
      requires Valid()
      ensures known <==> KnownToSome(All(), x)
    {
      known := exists k :: k in conversations && k.0 == x;
      KnownIffWithSomePeer(All(), x);
    }

    method GetSessionKeys(x: string, bob: string) returns (r: Option<(State, State)>)
      requires Valid()
      ensures r.Some? <==> x in Peer(bob).convos
      ensures r.Some? ==> r.value == (Peer(bob).convos[x].c1, Peer(bob).convos[x].c2)
    {
      SideRows(All(), bob, x);
      if (x, bob) !in conversations {
        return None;
      }
      var row := conversations[(x, bob)];
      r := Some((row.c1, row.c2));
    }

    // ----- Contacts -----

    method AddContact(bob: string, hs: Handshake)
      requires Valid() && bob !in contacts
      modifies this`contacts
      ensures Becomes(old(All()), All(), bob, old(Peer(bob)).(contact := WaitingForAccept(hs)))
      ensures contacts == old(contacts)[bob := ContactRow([Tag(0), Serialised(hs)], None, None)]
    {
      Write(bob, ContactRow([Tag(0), Serialised(hs)], None, None));
    }

    method AddContactFromReq(alice: string, message: Content)
      requires Valid() && alice !in contacts
      modifies this`contacts
      ensures Becomes(old(All()), All(), alice, old(Peer(alice)).(contact := WaitingToAccept(message)))
      ensures contacts == old(contacts)[alice := ContactRow([Tag(1)] + Blob(message), None, None)]
    {
      Write(alice, ContactRow([Tag(1)] + Blob(message), None, None));
    }

    method FinalizeContact(bob: string, ts1: State, ts2: State) returns (found: bool)
      requires Valid()
      modifies this`contacts
      ensures found == old(bob in contacts)
      ensures found ==> Becomes(old(All()), All(), bob, old(Peer(bob)).(contact := ContactAdded(ts1, ts2)))
      ensures found ==> contacts == old(contacts)[bob := ContactRow([Tag(2)], Some(ts1), Some(ts2))]
      ensures !found ==> All() == old(All())
    {
      found := bob in contacts;
      if found {
        Write(bob, ContactRow([Tag(2)], Some(ts1), Some(ts2)));
      }
    }

    /** Writes one direction: the first of the two states that is given. */
    method UpdateThreadRatchetStates(bob: string, ts1: Option<State>, ts2: Option<State>)
      requires Valid() && (ts1.Some? || ts2.Some?) && Peer(bob).contact.ContactAdded?
      modifies this`contacts
      ensures
        var side := old(Peer(bob));
        Becomes(old(All()), All(), bob,
          side.(contact := if ts1.Some? then side.contact.(c1 := ts1.value) else side.contact.(c2 := ts2.value)))
      ensures
        var row := old(contacts[bob]);
        contacts == old(contacts)[bob := if ts1.Some? then row.(c1 := ts1) else row.(c2 := ts2)]
    {
      var row := contacts[bob];
      if ts1.Some? {
        Write(bob, row.(c1 := ts1));
      } else {
        Write(bob, row.(c2 := ts2));
      }
    }

    method Write(bob: string, row: ContactRow)
      requires Valid() && RowOk(row)
      modifies this`contacts
      ensures Becomes(old(All()), All(), bob, old(Peer(bob)).(contact := DecodeRow(row)))
      ensures contacts == old(contacts)[bob := row]
    {
      ghost var t := All();
      contacts := contacts[bob := row];
      assert All() == t.(contacts := t.contacts[bob := row]);
      forall p
        ensures TablesOk(All()) && SideOf(All(), p) == if p == bob then SideOf(t, p).(contact := DecodeRow(row)) else SideOf(t, p)
      {
        WriteContact(t, bob, row, p);
      }
    }

    // ----- Conversations and messages -----

    method CreateConvo(x: string, bob: string, title: Bytes, c1: State, c2: State)
      requires Valid() && !KnownToSome(All(), x)
      modifies this`conversations
      ensures
        var side := old(Peer(bob));
        Becomes(old(All()), All(), bob, side.(convos := side.convos[x := Convo(title, c1, c2, [], [])]))
      ensures conversations == old(conversations)[(x, bob) := ConvoRow(title, c1, c2)]
    {
      KnownIffWithSomePeer(All(), x);
      WriteRow(x, bob, ConvoRow(title, c1, c2));
    }

    /** Writes one direction of a row, if there is one: the first of the two states that is given. */
    method UpdateSessionKeys(x: string, bob: string, c1: Option<State>, c2: Option<State>)
      requires Valid() && (c1.Some? || c2.Some?)
      modifies this`conversations
      ensures x !in old(Peer(bob)).convos ==> All() == old(All())
      ensures x in old(Peer(bob)).convos ==>
        var side, c := old(Peer(bob)), old(Peer(bob)).convos[x];
        Becomes(old(All()), All(), bob,
          side.(convos := side.convos[x := if c1.Some? then c.(c1 := c1.value) else c.(c2 := c2.value)]))
    {
      SideRows(All(), bob, x);
      if (x, bob) !in conversations {
        return;
      }
      var row := conversations[(x, bob)];
      if c1.Some? {
        WriteRow(x, bob, row.(c1 := c1.value));
      } else {
        WriteRow(x, bob, row.(c2 := c2.value));
      }
    }

    method UpdateTitle(x: string, bob: string, title: Bytes)
      requires Valid() && x in Peer(bob).convos
      modifies this`conversations
      ensures
        var side := old(Peer(bob));
        Becomes(old(All()), All(), bob, side.(convos := side.convos[x := side.convos[x].(title := title)]))
    {
      SideRows(All(), bob, x);
      WriteRow(x, bob, conversations[(x, bob)].(title := title));
    }

    method WriteRow(x: string, bob: string, row: ConvoRow)
      requires Valid() && (!Known(All(), x) || (x, bob) in conversations)
      modifies this`conversations
      ensures
        var side := old(Peer(bob));
        Becomes(old(All()), All(), bob, side.(convos := side.convos[x := Rewritten(old(All()), (x, bob), row)]))
      ensures conversations == old(conversations)[(x, bob) := row]
    {
      ghost var t := All();
      conversations := conversations[(x, bob) := row];
      assert All() == t.(conversations := t.conversations[(x, bob) := row]);
      forall p
        ensures TablesOk(All())
        ensures SideOf(All(), p) == if p == bob
          then SideOf(t, p).(convos := SideOf(t, p).convos[x := Rewritten(t, (x, bob), row)]) else SideOf(t, p)
      {
        WriteConvo(t, x, bob, row, p);
      }
    }

    /** The row does not name the peer; its conversation does. */
    method StoreMessage(x: string, senderIsMe: bool, message: Bytes, ghost bob: string)
      requires Valid() && x in Peer(bob).convos
      modifies this`messages
      ensures
        var side, c := old(Peer(bob)), old(Peer(bob)).convos[x];
        Becomes(old(All()), All(), bob, side.(convos := side.convos[x :=
          if senderIsMe then c.(sent := c.sent + [message]) else c.(got := c.got + [message])]))
      ensures messages == old(messages) + [MessageRow(x, senderIsMe, message)]
    {
      ghost var t := All();
      SideRows(t, bob, x);
      ghost var row := MessageRow(x, senderIsMe, message);
      messages := messages + [MessageRow(x, senderIsMe, message)];
      assert All() == t.(messages := t.messages + [row]);
      forall p
        ensures TablesOk(All())
        ensures SideOf(All(), p) == if p == bob
          then SideOf(t, p).(convos := SideOf(t, p).convos[x := Stored(ConvoOf(t, (x, bob)), row)]) else SideOf(t, p)
      {
        WriteMessage(t, row, bob, p);
      }
    }
  }
}
