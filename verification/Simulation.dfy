/**
  The objects take the steps of the network. A client object that stands for a
  client of the model, and the hub's memory that stands for the model's hub, are
  taken by each method to objects that stand for the next state of the model.
  The methods are the two halves of `sendMessage` and `getNextMessage`, and the
  two handshake calls.
  */
module Simulation {
  import opened Hex
  import opened Strobe
  import opened Queues
  import opened Framing
  import opened Storage
  import opened Database
  import opened Sasayaki
  import P = Peer
  import U = Uniqueness
  import S = Server
  import N = Network

  /** The rows of the database are the book of this client. */
  ghost predicate Stands(t: Tables, n: N.Node) {
    TablesOk(t) && forall p :: SideOf(t, p) == n.Has(p)
  }

  lemma StandsWritten(t: Tables, t': Tables, n: N.Node, n': N.Node, p: string, side: P.Side)
    requires Stands(t, n) && n'.book == n.book[p := side]
    requires Becomes(t, t', p, side) || (t' == t && side == n.Has(p))
    ensures Stands(t', n')
  {
    forall q ensures SideOf(t', q) == n'.Has(q) {
      assert SideOf(t, q) == n.Has(q);
    }
  }

  lemma StandsKnown(t: Tables, n: N.Node, x: string)
    requires Stands(t, n)
    ensures KnownToSome(t, x) <==> n.ConvoExist(x)
  {
    if KnownToSome(t, x) {
      var p :| x in SideOf(t, p).convos;
      assert SideOf(t, p) == n.Has(p);
    }
    if n.ConvoExist(x) {
      var p :| p in n.book && x in n.book[p].convos;
      assert SideOf(t, p) == n.Has(p);
    }
  }

  /** The object of the client that takes a step. */
  ghost predicate Plays(c: SasayakiState, w: N.World)
    reads c.storage
  {
    c.Valid() && c.myAddress in w.nodes && Stands(c.storage.All(), w.nodes[c.myAddress])
  }

  /** The request a client hands over is what is in its model's hands. */
  ghost predicate Hands(n: N.Node, request: Option<P.Request>, stored: Option<Bytes>) {
    if request.None? then n.outgoing.None? else n.outgoing == Some(N.Outgoing(request.value, stored))
  }

  // ----- Handshake calls -----

  method Ask(c: SasayakiState, bob: string, e1: nat, random: Bytes, ghost w: N.World) returns (request: Option<P.Request>)
    requires Plays(c, w) && N.Enabled(w, N.AskContact(c.myAddress, bob, e1, random))
    modifies c.storage
    ensures
      var w' := N.Next(w, N.AskContact(c.myAddress, bob, e1, random));
      Plays(c, w') && Hands(w'.nodes[c.myAddress], request, None)
  {
    ghost var n, t := w.nodes[c.myAddress], c.storage.All();
    ghost var n' := N.Next(w, N.AskContact(c.myAddress, bob, e1, random)).nodes[c.myAddress];
    assert c.Peer(bob) == n.Has(bob);
    request := c.AliceAddContact(bob, e1, random);
    if request.Some? {
      StandsWritten(t, c.storage.All(), n, n', bob, n'.book[bob]);
    }
  }

  method Accept(c: SasayakiState, alice: string, e2: nat, random: Bytes, ghost w: N.World) returns (request: Option<P.Request>)
    requires Plays(c, w) && N.Enabled(w, N.AnswerContact(c.myAddress, alice, e2, random))
    modifies c.storage
    ensures
      var w' := N.Next(w, N.AnswerContact(c.myAddress, alice, e2, random));
      Plays(c, w') && Hands(w'.nodes[c.myAddress], request, None)
  {
    ghost var n, t := w.nodes[c.myAddress], c.storage.All();
    ghost var n' := N.Next(w, N.AnswerContact(c.myAddress, alice, e2, random)).nodes[c.myAddress];
    assert c.Peer(alice) == n.Has(alice);
    request := c.BobAcceptContact(alice, e2, random);
    if request.Some? {
      StandsWritten(t, c.storage.All(), n, n', alice, n'.book[alice]);
    }
  }

  // ----- Sending: up to the hub, and after its answer -----

  method Send(c: SasayakiState, to: string, x: string, content: Bytes, random: Bytes, ghost w: N.World)
    returns (request: Option<P.Request>, stored: Option<Bytes>)
    requires Plays(c, w) && N.Good(w) && N.Enabled(w, N.SendText(c.myAddress, to, x, content, random))
    modifies c.storage
    ensures
      var w' := N.Next(w, N.SendText(c.myAddress, to, x, content, random));
      Plays(c, w') && Hands(w'.nodes[c.myAddress], request, stored)
  {
    hide P.SendMessage;
    ghost var n, t := w.nodes[c.myAddress], c.storage.All();
    ghost var n' := N.Next(w, N.SendText(c.myAddress, to, x, content, random)).nodes[c.myAddress];
    assert c.Peer(to) == n.Has(to);
    if x == "" {
      U.NewIdIsUnknown(w, c.myAddress, random);
      StandsKnown(t, n, Encode(random));
    }
    request, stored := c.SendMessage(to, x, content, random);
    if n' != n {
      StandsWritten(t, c.storage.All(), n, n', to, n'.book[to]);
    }
  }

  /** The library undoes its own encoding, and a content has the length the model gives it. */
  ghost predicate Carries(r: S.Reader<Content>, codec: S.Codec<Content>) {
    S.Reads(r, codec) && forall content: Content :: codec.length(content) == content.Size()
  }

  /** A request and its answer each fit a frame. */
  ghost predicate Framed(codec: S.Codec<Content>, h: Hub<Content>, a: string, data: Bytes) {
    && |data| <= MAX_FRAME
    && (S.Handle(codec, h, a, data).1.Some? ==> |S.Handle(codec, h, a, data).1.value| <= MAX_FRAME)
  }

  function Wire(r: P.Request): S.WireRequest<Content> {
    S.SendMessage(Some(S.WireMessage(r.to, r.convo, Some(r.content))))
  }

  /** One request through the client's connection and the hub's session, in frames. */
  method Exchange(link: S.HubState, hub: S.Memory<Content>, a: string, data: Bytes) returns (answer: Bytes)
    requires Framed(hub.codec, hub.All(), a, data) && S.Handle(hub.codec, hub.All(), a, data).1.Some?
    modifies link, hub
    ensures (hub.All(), Some(answer)) == S.Handle(hub.codec, old(hub.All()), a, data)
  {
    hide S.Handle, S.Session;
    S.RequestResponse(hub.codec, hub.All(), a, data);
    var written := link.Write(data);
    var out := hub.HandleClient(TwoBytes, a, written);
    var body := link.Read(TwoBytes, out);
    answer := body.value;
  }

  /** The hub's check is the model's. */
  lemma AdmittedIsWellFormed(codec: S.Codec<Content>, r: P.Request)
    requires codec.length(r.content) == r.content.Size()
    ensures S.WellFormed(codec, S.WireMessage(r.to, r.convo, Some(r.content))) <==> P.Admitted(r)
  {
  }

  /** The client after the hub's answer. */
  method Answered(c: SasayakiState, accepted: bool, request: P.Request, stored: Option<Bytes>, ghost n: N.Node)
    requires c.Valid() && Stands(c.storage.All(), n) && n.outgoing == Some(N.Outgoing(request, stored))
    requires N.Rowed(n, n.outgoing.value)
    modifies c.storage
    ensures c.Valid() && Stands(c.storage.All(), if accepted then N.Acknowledged(n) else n)
  {
    ghost var t := c.storage.All();
    assert c.Peer(request.to) == n.Has(request.to);
    if accepted {
      if stored.Some? {
        c.MessageAccepted(request.to, request.convo, stored.value);
      }
      StandsWritten(t, c.storage.All(), n, N.Acknowledged(n), request.to, N.Acknowledged(n).book[request.to]);
    }
  }

  lemma UploadStep(w: N.World, a: string)
    requires N.Good(w) && N.Enabled(w, N.Upload(a))
    ensures
      var n, w' := w.nodes[a], N.Next(w, N.Upload(a));
      var r := n.outgoing.value.request;
      && N.Rowed(n, n.outgoing.value)
      && w'.nodes == w.nodes[a := if P.Admitted(r) then N.Acknowledged(n) else n.(outgoing := None)]
      && w'.hub == (if P.Admitted(r) then Post(w.hub, r.to, Envelope(a, r.convo, r.content)) else w.hub)
      && w'.nodes[a].outgoing.None?
  {
    hide P.Admitted, Post;
    assert N.GoodNode(w, a, w.nodes[a]);
  }

  method Upload(c: SasayakiState, link: S.HubState, hub: S.Memory<Content>, reader: S.Reader<Content>,
                request: P.Request, stored: Option<Bytes>, ghost w: N.World)
    requires Plays(c, w) && N.Good(w) && hub.All() == w.hub && Carries(reader, hub.codec)
    requires w.nodes[c.myAddress].outgoing == Some(N.Outgoing(request, stored))
    requires Framed(hub.codec, hub.All(), c.myAddress, reader.write(Wire(request)))
    modifies c.storage, link, hub
    ensures
      var w' := N.Next(w, N.Upload(c.myAddress));
      Plays(c, w') && hub.All() == w'.hub && w'.nodes[c.myAddress].outgoing.None?
  {
    hide Stands, S.Handle, P.Admitted, Framed, S.WellFormed, N.Next, N.Good, N.Acknowledged, Post;
    ghost var n := w.nodes[c.myAddress];
    UploadStep(w, c.myAddress);
    var data := reader.write(Wire(request));
    AdmittedIsWellFormed(hub.codec, request);
    ghost var m := S.WireMessage(request.to, request.convo, Some(request.content));
    S.AcceptedMeansQueued(hub.codec, reader, w.hub, c.myAddress, data, m);
    S.QueuedIsPosted(hub.codec, w.hub, c.myAddress, data, m);
    var answer := Exchange(link, hub, c.myAddress, data);
    Answered(c, reader.accepted(answer), request, stored, n);
    if !reader.accepted(answer) {
      SameInboxStands(c.storage.All(), n, n.(outgoing := None));
    }
  }

  // ----- Receiving: the hub pops, the client processes -----

  method Poll(c: SasayakiState, link: S.HubState, hub: S.Memory<Content>, reader: S.Reader<Content>, ghost w: N.World)
    returns (mail: Option<P.Mail>)
    requires Plays(c, w) && N.Good(w) && N.Enabled(w, N.Poll(c.myAddress)) && hub.All() == w.hub && Carries(reader, hub.codec)
    requires Framed(hub.codec, hub.All(), c.myAddress, reader.write(S.GetNextMessage))
    modifies link, hub
    ensures
      var w' := N.Next(w, N.Poll(c.myAddress));
      Plays(c, w') && hub.All() == w'.hub && w'.nodes[c.myAddress].incoming == mail
  {
    hide S.Handle, Framed, Stands;
    ghost var n, a := w.nodes[c.myAddress], c.myAddress;
    var data := reader.write(S.GetNextMessage);
    SendersHaveAddresses(w, a);
    S.GetAnswersHead(hub.codec, reader, w.hub, a, data);
    S.RequestIsOneOperation(hub.codec, w.hub, a, data);
    var answer := Exchange(link, hub, c.myAddress, data);
    var (from, x, content) := reader.received(answer);
    SameInboxStands(c.storage.All(), n, N.Next(w, N.Poll(a)).nodes[a]);
    if from == "" {
      return None;
    }
    return Some(Envelope(from, x, content.value));
  }

  lemma SendersHaveAddresses(w: N.World, a: string)
    requires N.Good(w) && a in w.nodes
    ensures forall e :: e in Queue(w.hub.pending, a) ==> e.from != ""
  {
    forall e | e in Queue(w.hub.pending, a) ensures e.from != "" {
      var i :| 0 <= i < |w.hub.pending[a]| && w.hub.pending[a][i] == e;
      assert N.GoodMail(w, w.hub.pending[a][i], a) && N.GoodNode(w, e.from, w.nodes[e.from]);
    }
  }

  lemma SameInboxStands(t: Tables, n: N.Node, n': N.Node)
    requires Stands(t, n) && n'.book == n.book
    ensures Stands(t, n')
  {
    assert forall p :: n'.Has(p) == n.Has(p);
  }

  method Process(c: SasayakiState, mail: P.Mail, ghost w: N.World) returns (outcome: P.Outcome)
    requires Plays(c, w) && w.nodes[c.myAddress].incoming == Some(mail)
    modifies c.storage
    ensures Plays(c, N.Next(w, N.Process(c.myAddress)))
    ensures outcome == N.Processing(w.nodes[c.myAddress], c.myAddress).1
  {
    hide P.Receive;
    ghost var n, t := w.nodes[c.myAddress], c.storage.All();
    ghost var n' := N.Next(w, N.Process(c.myAddress)).nodes[c.myAddress];
    assert c.Peer(mail.from) == n.Has(mail.from);
    StandsKnown(t, n, mail.convo);
    outcome := c.ProcessMail(mail.from, mail.convo, mail.content);
    StandsWritten(t, c.storage.All(), n, n', mail.from, n'.book[mail.from]);
  }
}
