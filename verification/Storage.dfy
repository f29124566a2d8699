/**
  The local database (storage.go): three tables, the tagged `state` column of a
  contact, and the queries and updates on them.
  */
module Storage {
  import opened Hex
  import opened Strobe
  import opened Crypto
  import opened Peer

  // ----- The contacts table -----

  /** The state column: a tag byte and, while the handshake lasts, one serialised object, none if it is empty. */
  datatype Cell = Tag(n: nat) | Serialised(hs: Handshake) | Received(message: Content)

  datatype ContactRow = ContactRow(state: seq<Cell>, c1: Option<State>, c2: Option<State>)

  /** A message without content. */
  const NOTHING := Other([])

  function Blob(message: Content): seq<Cell> {
    if message == NOTHING then [] else [Received(message)]
  }

  predicate RowOk(row: ContactRow) {
    || (|row.state| == 2 && row.state[0] == Tag(0) && row.state[1].Serialised? && row.c1.None? && row.c2.None?)
    || (|row.state| == 2 && row.state[0] == Tag(1) && row.state[1].Received? && row.state[1].message != NOTHING && row.c1.None? && row.c2.None?)
    || (row.state == [Tag(1)] && row.c1.None? && row.c2.None?)
    || (row.state == [Tag(2)] && row.c1.Some? && row.c2.Some?)
  }

  function EncodeContact(c: Contact): (row: ContactRow)
    requires c != NoContact
    ensures RowOk(row)
  {
    match c
    case WaitingForAccept(hs) => ContactRow([Tag(0), Serialised(hs)], None, None)
    case WaitingToAccept(m) => ContactRow([Tag(1)] + Blob(m), None, None)
    case ContactAdded(c1, c2) => ContactRow([Tag(2)], Some(c1), Some(c2))
  }

  /** The status is read off the first cell; the rest of the column is the blob. */
  function DecodeRow(row: ContactRow): (c: Contact)
    requires RowOk(row)
    ensures c != NoContact
  {
    if row.state[0] == Tag(0) then WaitingForAccept(row.state[1].hs)
    else if row.state[0] == Tag(1) then WaitingToAccept(if |row.state| == 1 then NOTHING else row.state[1].message)
    else ContactAdded(row.c1.value, row.c2.value)
  }

  /** Rows and contact states correspond one to one. */
  lemma RowRoundTrip(row: ContactRow, c: Contact)
    ensures c != NoContact ==> DecodeRow(EncodeContact(c)) == c
    ensures RowOk(row) ==> EncodeContact(DecodeRow(row)) == row
  {
    if RowOk(row) {
      if |row.state| == 2 {
        assert row.state == [row.state[0], row.state[1]];
      }
    }
  }

  /**
    The tag of a stored contact: 0 for a request sent, 1 for one received, 2 when
    done; the blob is empty when done, and there are thread states then only.
    */
  lemma TagTellsStatus(row: ContactRow)
    requires RowOk(row)
    ensures row.state != []
    ensures DecodeRow(row).WaitingForAccept? <==> row.state[0] == Tag(0)
    ensures DecodeRow(row).WaitingToAccept? <==> row.state[0] == Tag(1)
    ensures DecodeRow(row).ContactAdded? <==> row.state[0] == Tag(2)
    ensures DecodeRow(row).ContactAdded? ==> |row.state| == 1
    ensures DecodeRow(row).ContactAdded? <==> row.c1.Some?
    ensures DecodeRow(row).ContactAdded? <==> row.c2.Some?
  {
  }

  /** "Done" is tag 2, so these states exist exactly when the contact is added. */
  function ThreadStates(row: ContactRow): Option<(State, State)> {
    if row.state == [Tag(2)] && row.c1.Some? && row.c2.Some? then Some((row.c1.value, row.c2.value)) else None
  }

  lemma ThreadStatesIffAdded(row: ContactRow)
    requires RowOk(row)
    ensures ThreadStates(row).Some? <==> DecodeRow(row).ContactAdded?
    ensures ThreadStates(row).Some? ==>
      ThreadStates(row) == Some((DecodeRow(row).c1, DecodeRow(row).c2))
  {
  }

  /** The test as it is written, for tag 1 and an empty blob. */
  predicate ThreadStatesReadyAsWritten(row: ContactRow) {
    |row.state| == 1 && row.state[0] == Tag(1)
  }

  /**
    As written, the one contact ready for conversations is a request without
    content that nobody has accepted; it has no thread states.
    */
  lemma AsWrittenReadyIff(row: ContactRow)
    requires RowOk(row)
    ensures ThreadStatesReadyAsWritten(row) <==> row == EncodeContact(WaitingToAccept(NOTHING))
    ensures ThreadStatesReadyAsWritten(row) ==> row.c1.None? && row.c2.None? && ThreadStates(row).None?
  {
  }

  // ----- All tables -----

  datatype ConvoRow = ConvoRow(title: Bytes, c1: State, c2: State)

  datatype MessageRow = MessageRow(convo: string, senderIsMe: bool, message: Bytes)

  datatype Tables = Tables(
    contacts: map<string, ContactRow>,
    conversations: map<(string, string), ConvoRow>,
    messages: seq<MessageRow>)

  /** The stored messages of a conversation, mine or the peer's, oldest first. */
  function Log(messages: seq<MessageRow>, x: string, mine: bool): seq<Bytes> {
    if messages == [] then []
    else
      var last := messages[|messages| - 1];
      Log(messages[..|messages| - 1], x, mine) +
      if last.convo == x && last.senderIsMe == mine then [last.message] else []
  }

  lemma LogAppend(messages: seq<MessageRow>, row: MessageRow, x: string, mine: bool)
    ensures Log(messages + [row], x, mine)
         == Log(messages, x, mine) + if row.convo == x && row.senderIsMe == mine then [row.message] else []
  {
    assert (messages + [row])[..|messages|] == messages;
  }

  /** Whose message a row is, and where in the conversation, follows from the rows alone. */
  lemma {:induction false} LogHolds(messages: seq<MessageRow>, x: string, mine: bool, m: Bytes)
    ensures m in Log(messages, x, mine) <==> MessageRow(x, mine, m) in messages
  {
    if messages != [] {
      LogHolds(messages[..|messages| - 1], x, mine, m);
      assert messages == messages[..|messages| - 1] + [messages[|messages| - 1]];
    }
  }

  /** Every id belongs to one peer, and every message to a known id. */
  ghost predicate TablesOk(t: Tables) {
    && (forall p :: p in t.contacts ==> RowOk(t.contacts[p]))
    && (forall k, l :: k in t.conversations && l in t.conversations && k.0 == l.0 ==> k == l)
    && (forall i :: 0 <= i < |t.messages| ==> Known(t, t.messages[i].convo))
  }

  /** Whether any conversation row has this id; the peer is not looked at. */
  predicate Known(t: Tables, x: string) {
    exists k :: k in t.conversations && k.0 == x
  }

  function ConvoOf(t: Tables, k: (string, string)): Convo
    requires k in t.conversations
  {
    var row := t.conversations[k];
    Convo(row.title, row.c1, row.c2, Log(t.messages, k.0, true), Log(t.messages, k.0, false))
  }

  function IdsWith(t: Tables, p: string): set<string> {
    set k | k in t.conversations && k.1 == p :: k.0
  }

  function ContactOf(t: Tables, p: string): Contact
    requires p in t.contacts ==> RowOk(t.contacts[p])
  {
    if p in t.contacts then DecodeRow(t.contacts[p]) else NoContact
  }

  /** The rows that carry the public key of p. */
  function SideOf(t: Tables, p: string): Side
    requires p in t.contacts ==> RowOk(t.contacts[p])
  {
    Side(ContactOf(t, p), map x | x in IdsWith(t, p) :: ConvoOf(t, (x, p)))
  }

  lemma SideRows(t: Tables, p: string, x: string)
    requires p in t.contacts ==> RowOk(t.contacts[p])
    ensures x in SideOf(t, p).convos <==> (x, p) in t.conversations
    ensures (x, p) in t.conversations ==> SideOf(t, p).convos[x] == ConvoOf(t, (x, p))
  {
    if (x, p) in t.conversations {
      assert (x, p).1 == p && (x, p).0 == x;
    }
  }

  /** Whether an id is among the conversations of some peer. */
  ghost predicate KnownToSome(t: Tables, x: string)
    requires TablesOk(t)
  {
    exists p :: x in SideOf(t, p).convos
  }

  /** An id is known exactly when it is in the conversations of some peer. */
  lemma KnownIffWithSomePeer(t: Tables, x: string)
    requires TablesOk(t)
    ensures Known(t, x) <==> KnownToSome(t, x)
  {
    if Known(t, x) {
      var k :| k in t.conversations && k.0 == x;
      assert k == (x, k.1);
      SideRows(t, k.1, x);
      assert x in SideOf(t, k.1).convos;
    }
    forall p | x in SideOf(t, p).convos
      ensures Known(t, x)
    {
      SideRows(t, p, x);
      assert (x, p).0 == x;
    }
  }

  /** A side is determined by its contact and its rows. */
  lemma SideIs(t: Tables, p: string, side: Side)
    requires p in t.contacts ==> RowOk(t.contacts[p])
    requires side.contact == ContactOf(t, p)
    requires forall x :: x in side.convos <==> (x, p) in t.conversations
    requires forall x :: x in side.convos ==> side.convos[x] == ConvoOf(t, (x, p))
    ensures SideOf(t, p) == side
  {
    var s := SideOf(t, p).convos;
    forall x
      ensures x in s <==> x in side.convos
      ensures x in s ==> s[x] == side.convos[x]
    {
      SideRows(t, p, x);
    }
    assert s == side.convos;
  }

  lemma UnknownHasNoLog(t: Tables, x: string, n: nat, mine: bool)
    requires TablesOk(t) && !Known(t, x) && n <= |t.messages|
    ensures Log(t.messages[..n], x, mine) == []
  {
    if n > 0 {
      UnknownHasNoLog(t, x, n - 1, mine);
      assert t.messages[..n][..n - 1] == t.messages[..n - 1];
      assert Known(t, t.messages[n - 1].convo);
    }
  }

  /** Writing a contact row changes one side, in its contact. */
  lemma WriteContact(t: Tables, bob: string, row: ContactRow, p: string)
    requires TablesOk(t) && RowOk(row)
    ensures TablesOk(t.(contacts := t.contacts[bob := row]))
    ensures SideOf(t.(contacts := t.contacts[bob := row]), p)
         == if p == bob then SideOf(t, p).(contact := DecodeRow(row)) else SideOf(t, p)
  {
    var t' := t.(contacts := t.contacts[bob := row]);
    forall i | 0 <= i < |t'.messages| ensures Known(t', t'.messages[i].convo) {
      assert Known(t, t.messages[i].convo);
    }
    forall x
      ensures x in SideOf(t, p).convos <==> (x, p) in t'.conversations
      ensures x in SideOf(t, p).convos ==> SideOf(t, p).convos[x] == ConvoOf(t', (x, p))
    {
      SideRows(t, p, x);
    }
    SideIs(t', p, SideOf(t, p).(contact := ContactOf(t', p)));
  }

  lemma NewRowKeepsTables(t: Tables, k: (string, string), row: ConvoRow)
    requires TablesOk(t) && (!Known(t, k.0) || k in t.conversations)
    ensures TablesOk(t.(conversations := t.conversations[k := row]))
  {
    var t' := t.(conversations := t.conversations[k := row]);
    forall i | 0 <= i < |t'.messages| ensures Known(t', t'.messages[i].convo) {
      assert Known(t, t.messages[i].convo);
      var l :| l in t.conversations && l.0 == t.messages[i].convo;
      assert l in t'.conversations;
    }
  }

  /** The conversation a written row gives. */
  function Rewritten(t: Tables, k: (string, string), row: ConvoRow): Convo {
    if k in t.conversations then ConvoOf(t, k).(title := row.title, c1 := row.c1, c2 := row.c2)
    else Convo(row.title, row.c1, row.c2, [], [])
  }

  lemma RewrittenIs(t: Tables, k: (string, string), row: ConvoRow)
    requires TablesOk(t) && (!Known(t, k.0) || k in t.conversations)
    ensures ConvoOf(t.(conversations := t.conversations[k := row]), k) == Rewritten(t, k, row)
  {
    if k !in t.conversations {
      UnknownHasNoLog(t, k.0, |t.messages|, true);
      UnknownHasNoLog(t, k.0, |t.messages|, false);
      assert t.messages[..|t.messages|] == t.messages;
    }
  }

  /** Writing a conversation row, under an id that is new or already this peer's, changes one row of one side. */
  lemma WriteConvo(t: Tables, x: string, bob: string, row: ConvoRow, p: string)
    requires TablesOk(t) && (!Known(t, x) || (x, bob) in t.conversations)
    ensures TablesOk(t.(conversations := t.conversations[(x, bob) := row]))
    ensures SideOf(t.(conversations := t.conversations[(x, bob) := row]), p)
         == if p == bob
            then SideOf(t, p).(convos := SideOf(t, p).convos[x := Rewritten(t, (x, bob), row)])
            else SideOf(t, p)
  {
    var t' := t.(conversations := t.conversations[(x, bob) := row]);
    assert (x, bob).0 == x && (x, bob).1 == bob;
    NewRowKeepsTables(t, (x, bob), row);
    RewrittenIs(t, (x, bob), row);
    assert t'.conversations.Keys == t.conversations.Keys + {(x, bob)};
    WriteShows(t, t', (x, bob), Rewritten(t, (x, bob), row), p);
  }

  lemma NewMessageKeepsTables(t: Tables, row: MessageRow)
    requires TablesOk(t) && Known(t, row.convo)
    ensures TablesOk(t.(messages := t.messages + [row]))
  {
    var t' := t.(messages := t.messages + [row]);
    forall i | 0 <= i < |t'.messages| ensures Known(t', t'.messages[i].convo) {
      assert Known(t, t'.messages[i].convo);
    }
  }

  /** Storing a message extends one log of the conversation it names. */
  function Stored(c: Convo, row: MessageRow): Convo {
    if row.senderIsMe then c.(sent := c.sent + [row.message]) else c.(got := c.got + [row.message])
  }

  lemma MessageAt(t: Tables, row: MessageRow, bob: string, k: (string, string))
    requires TablesOk(t) && (row.convo, bob) in t.conversations && k in t.conversations
    ensures ConvoOf(t.(messages := t.messages + [row]), k)
         == if k == (row.convo, bob) then Stored(ConvoOf(t, k), row) else ConvoOf(t, k)
  {
    LogAppend(t.messages, row, k.0, true);
    LogAppend(t.messages, row, k.0, false);
    assert k.0 == row.convo ==> k == (row.convo, bob);
  }

  lemma WriteMessage(t: Tables, row: MessageRow, bob: string, p: string)
    requires TablesOk(t) && (row.convo, bob) in t.conversations
    ensures TablesOk(t.(messages := t.messages + [row]))
    ensures SideOf(t.(messages := t.messages + [row]), p)
         == if p == bob
            then SideOf(t, p).(convos := SideOf(t, p).convos[row.convo := Stored(ConvoOf(t, (row.convo, bob)), row)])
            else SideOf(t, p)
  {
    var t' := t.(messages := t.messages + [row]);
    assert (row.convo, bob).0 == row.convo;
    NewMessageKeepsTables(t, row);
    WriteShows(t, t', (row.convo, bob), Stored(ConvoOf(t, (row.convo, bob)), row), p) by {
      forall k | k in t.conversations
        ensures ConvoOf(t', k) == if k == (row.convo, bob) then Stored(ConvoOf(t, k), row) else ConvoOf(t, k)
      {
        MessageAt(t, row, bob, k);
      }
    }
  }

  /** If exactly one row's conversation differs, exactly one side does, there. */
  lemma WriteShows(t: Tables, t': Tables, k: (string, string), c: Convo, p: string)
    requires TablesOk(t) && TablesOk(t') && t'.contacts == t.contacts
    requires t'.conversations.Keys == t.conversations.Keys + {k}
    requires ConvoOf(t', k) == c
    requires forall l :: l in t.conversations && l != k ==> ConvoOf(t', l) == ConvoOf(t, l)
    ensures SideOf(t', p)
         == if p == k.1 then SideOf(t, p).(convos := SideOf(t, p).convos[k.0 := c]) else SideOf(t, p)
  {
    var s := SideOf(t, p);
    var side := if p == k.1 then s.(convos := s.convos[k.0 := c]) else s;
    forall y
      ensures y in side.convos <==> (y, p) in t'.conversations
      ensures y in side.convos ==> side.convos[y] == ConvoOf(t', (y, p))
    {
      SideRows(t, p, y);
      assert (y, p) == k <==> y == k.0 && p == k.1;
      assert (y, p) in t'.conversations <==> (y, p) in t.conversations || (y, p) == k;
    }
    SideIs(t', p, side);
  }
}
