/**
  Any number of clients and one hub. A client has at most one operation in
  flight; the halves of a send (write the advanced state, then the hub answers)
  and of a receive (the hub pops, then the client processes) are separate steps,
  so that every other client may act between them.
  */
module Network {
  import opened Hex
  import opened Strobe
  import opened Queues
  import opened Peer
  import Sync

  datatype Outgoing = Outgoing(request: Request, stored: Option<Bytes>)

  /** A state a message was encrypted from, in a conversation with a peer. */
  datatype Use = Use(peer: string, convo: string, state: State)

  /** `book` has a side for every peer; `spent` is the history of encryptions. */
  datatype Node = Node(book: map<string, Side>, outgoing: Option<Outgoing>, incoming: Option<Mail>, spent: seq<Use>)
  {
    function Has(p: string): Side {
      if p in book then book[p] else EMPTY
    }

    predicate Idle() {
      outgoing.None? && incoming.None?
    }

    /** Whether a conversation row with this id exists, whoever the peer. */
    predicate ConvoExist(x: string) {
      exists p :: p in book && x in book[p].convos
    }

    function With(p: string, side: Side): Node {
      this.(book := book[p := side])
    }
  }

  /**
    A request under an address not typed in lower case, or a title or message
    over the hub's limit whose send wrote to the database.
    */
  datatype Damage =
    | Mistyped(from: string, to: string)
    | LostTitle(from: string, to: string)
    | LostMessage(from: string, to: string, convo: string)
  {
    predicate Between(a: string, b: string) {
      (from == a && to == b) || (from == b && to == a)
    }
  }

  /**
    `owners` records which two clients each conversation id was drawn for;
    `damage` the calls by which a client exceeded a limit towards another.
    */
  datatype World = World(
    nodes: map<string, Node>,
    hub: Hub<Content>,
    owners: map<string, set<string>>,
    damage: set<Damage>)

  datatype Step =
    | AskContact(who: string, bob: string, e1: nat, random: Bytes)
    | AnswerContact(who: string, alice: string, e2: nat, random: Bytes)
    | SendText(who: string, to: string, x: string, content: Bytes, random: Bytes)
    | Upload(who: string)
    | Poll(who: string)
    | Process(who: string)

  function Init(addresses: set<string>): World {
    World(map a | a in addresses :: Node(map[], None, None, []), EmptyHub(), map[], {})
  }

  predicate NewId(w: World, random: Bytes) {
    |random| == 16 && Encode(random) !in w.owners
  }

  predicate Enabled(w: World, s: Step) {
    && s.who in w.nodes
    && var n := w.nodes[s.who];
    match s
    case AskContact(_, _, _, random) => n.Idle() && NewId(w, random)
    case AnswerContact(_, _, _, random) => n.Idle() && NewId(w, random)
    case SendText(_, _, x, _, random) => n.Idle() && (x == "" ==> NewId(w, random))
    case Upload(_) => n.outgoing.Some?
    case Poll(_) => n.Idle()
    case Process(_) => n.incoming.Some?
  }

  /** A client writes one side and hands a request over for the hub. */
  function Hand(n: Node, p: string, side: Side, request: Request, stored: Option<Bytes>): Node {
    n.With(p, side).(outgoing := Some(Outgoing(request, stored)))
  }

  function Ask(w: World, a: string, bob: string, e1: nat, random: Bytes): World
    requires a in w.nodes
  {
    var n := w.nodes[a];
    match AddContact(a, n.Has(bob), bob, e1, random)
    case None => w
    case Some((side, request)) =>
      w.(nodes := w.nodes[a := Hand(n, bob, side, request, None)],
         owners := w.owners[Encode(random) := {a, ToLower(bob)}],
         damage := w.damage + if ToLower(bob) == bob then {} else {Mistyped(a, ToLower(bob))})
  }

  function Answer(w: World, a: string, alice: string, e2: nat, random: Bytes): World
    requires a in w.nodes
  {
    var n := w.nodes[a];
    match AcceptContact(a, n.Has(alice), alice, e2, random)
    case None => w
    case Some((side, request)) =>
      w.(nodes := w.nodes[a := Hand(n, alice, side, request, None)],
         owners := w.owners[Encode(random) := {a, ToLower(alice)}])
  }

  /** The client after its half of a send, noting the state it encrypted from. */
  function Sent(n: Node, to: string, o: Sending): Node {
    match o
    case Failed(side) => if side == n.Has(to) then n else n.With(to, side)
    case Ready(side, request, stored) =>
      Hand(n, to, side, request, stored)
        .(spent := n.spent + if request.content.Ct? then [Use(to, request.convo, request.content.state)] else [])
  }

  /** What a send destroys. */
  function SendDamage(a: string, side: Side, to: string, x: string, content: Bytes): set<Damage> {
    if Sync.Harmless(side, x, content) then {}
    else if x == "" then {LostTitle(a, to)}
    else {LostMessage(a, to, x)}
  }

  function Text(w: World, a: string, to: string, x: string, content: Bytes, random: Bytes): World
    requires a in w.nodes
  {
    var n := w.nodes[a];
    w.(nodes := w.nodes[a := Sent(n, to, SendMessage(a, n.Has(to), to, x, content, random))],
       owners := if x == "" then w.owners[Encode(random) := {a, to}] else w.owners,
       damage := w.damage + SendDamage(a, n.Has(to), to, x, content))
  }

  /** The client once the hub has accepted its request. */
  function Acknowledged(n: Node): Node
    requires n.outgoing.Some?
  {
    var Outgoing(r, stored) := n.outgoing.value;
    n.With(r.to, StoreSent(n.Has(r.to), r.convo, stored)).(outgoing := None)
  }

  function Uploaded(w: World, a: string): World
    requires a in w.nodes && w.nodes[a].outgoing.Some?
  {
    var n := w.nodes[a];
    var r := n.outgoing.value.request;
    if Admitted(r) then
      w.(nodes := w.nodes[a := Acknowledged(n)],
         hub := Post(w.hub, r.to, Envelope(a, r.convo, r.content)))
    else w.(nodes := w.nodes[a := n.(outgoing := None)])
  }

  function Polled(w: World, a: string): World
    requires a in w.nodes
  {
    var (hub', mail) := Pop(w.hub, a);
    if mail.None? then w
    else w.(nodes := w.nodes[a := w.nodes[a].(incoming := mail)], hub := hub')
  }

  /** What a client does with the message the hub handed over. */
  function Processing(n: Node, a: string): (Side, Outcome)
    requires n.incoming.Some?
  {
    var e := n.incoming.value;
    Receive(a, e.from, n.Has(e.from), e, n.ConvoExist(e.convo))
  }

  function Processed(w: World, a: string): World
    requires a in w.nodes && w.nodes[a].incoming.Some?
  {
    var n := w.nodes[a];
    w.(nodes := w.nodes[a := n.With(n.incoming.value.from, Processing(n, a).0).(incoming := None)])
  }

  function Next(w: World, s: Step): World
    requires Enabled(w, s)
  {
    match s
    case AskContact(a, bob, e1, random) => Ask(w, a, bob, e1, random)
    case AnswerContact(a, alice, e2, random) => Answer(w, a, alice, e2, random)
    case SendText(a, to, x, content, random) => Text(w, a, to, x, content, random)
    case Upload(a) => Uploaded(w, a)
    case Poll(a) => Polled(w, a)
    case Process(a) => Processed(w, a)
  }

  /** A run: every step is enabled where it is taken. */
  predicate IsRun(w: World, steps: seq<Step>)
    decreases |steps|
  {
    steps == [] || (Enabled(w, steps[0]) && IsRun(Next(w, steps[0]), steps[1..]))
  }

  function End(w: World, steps: seq<Step>): World
    requires IsRun(w, steps)
    decreases |steps|
  {
    if steps == [] then w else End(Next(w, steps[0]), steps[1..])
  }

  // ----- What every run keeps, whatever the clients send -----

  ghost predicate Owned(w: World, x: string, a: string, b: string) {
    x in w.owners && w.owners[x] == {a, b}
  }

  ghost predicate GoodSide(w: World, a: string, p: string, side: Side) {
    && (forall x :: x in side.convos ==> |x| == 32 && Owned(w, x, a, p) && side.contact.ContactAdded?)
    && (side.contact != NoContact ==> |p| == 64 && IsHex(p))
    && (side.contact.ContactAdded? || side.contact.WaitingToAccept? ==> ToLower(p) == p)
  }

  /** The damage of a request the hub will refuse is on record. */
  predicate Lost(w: World, a: string, r: Request) {
    LostTitle(a, r.to) in w.damage || LostMessage(a, r.to, r.convo) in w.damage
  }

  ghost predicate GoodRequest(w: World, a: string, o: Outgoing) {
    var r := o.request;
    && |r.to| == 64 && IsHex(r.to) && |r.convo| == 32
    && Owned(w, r.convo, a, ToLower(r.to))
    && (!Admitted(r) ==> ToLower(r.to) == r.to && r.content.Ct? && Lost(w, a, r))
  }

  /** A message to be stored on acceptance has its conversation. */
  predicate Rowed(n: Node, o: Outgoing) {
    o.stored.Some? ==> o.request.convo in n.Has(o.request.to).convos
  }

  ghost predicate GoodMail(w: World, e: Mail, b: string) {
    e.from in w.nodes && Owned(w, e.convo, e.from, b) && e.content.Size() <= MESSAGE_MAX_CHARS
  }

  ghost predicate GoodNode(w: World, a: string, n: Node) {
    && IsAddress(a)
    && (n.outgoing.None? || n.incoming.None?)
    && (forall p :: p in n.book ==> GoodSide(w, a, p, n.book[p]))
    && (n.outgoing.Some? ==> GoodRequest(w, a, n.outgoing.value) && Rowed(n, n.outgoing.value))
    && (n.incoming.Some? ==> GoodMail(w, n.incoming.value, a))
  }

  ghost predicate GoodQueues(w: World) {
    forall r, i :: r in w.hub.pending && 0 <= i < |w.hub.pending[r]| ==> GoodMail(w, w.hub.pending[r][i], r)
  }

  ghost predicate Good(w: World) {
    && (forall a :: a in w.nodes ==> GoodNode(w, a, w.nodes[a]))
    && GoodQueues(w)
  }

  lemma InitGood(addresses: set<string>)
    requires forall a :: a in addresses ==> IsAddress(a)
    ensures Good(Init(addresses))
  {
  }

  /** Good parts stay good when ids and damage are only added. */
  ghost predicate Grows(w: World, w': World) {
    && w'.nodes.Keys == w.nodes.Keys
    && (forall x :: x in w.owners ==> x in w'.owners && w'.owners[x] == w.owners[x])
    && w.damage <= w'.damage
  }

  lemma GrowsKeeps(w: World, w': World, a: string)
    requires Good(w) && Grows(w, w') && a in w.nodes
    requires forall c :: c in w.nodes && c != a ==> w'.nodes[c] == w.nodes[c]
    requires GoodNode(w', a, w'.nodes[a]) && GoodQueues(w')
    ensures Good(w')
  {
    forall c | c in w'.nodes && c != a
      ensures GoodNode(w', c, w'.nodes[c])
    {
      var n := w.nodes[c];
      assert GoodNode(w, c, n);
      forall p | p in n.book ensures GoodSide(w', c, p, n.book[p]) {
        assert GoodSide(w, c, p, n.book[p]);
      }
    }
  }

  lemma SameQueuesStayGood(w: World, w': World)
    requires Good(w) && Grows(w, w') && w'.hub.pending == w.hub.pending
    ensures GoodQueues(w')
  {
    forall r, i | r in w'.hub.pending && 0 <= i < |w'.hub.pending[r]|
      ensures GoodMail(w', w'.hub.pending[r][i], r)
    {
      assert GoodMail(w, w.hub.pending[r][i], r);
    }
  }

  lemma SameSidesStayGood(w: World, w': World, a: string, p: string)
    requires Good(w) && Grows(w, w') && a in w.nodes && p in w.nodes[a].book
    ensures GoodSide(w', a, p, w.nodes[a].book[p])
  {
    assert GoodSide(w, a, p, w.nodes[a].book[p]);
  }

  lemma QuietKeeps(w: World, w': World, a: string)
    requires Good(w) && Grows(w, w') && a in w.nodes && w'.nodes == w.nodes && w'.hub == w.hub
    ensures Good(w')
  {
    assert GoodNode(w, a, w.nodes[a]);
    forall q | q in w.nodes[a].book ensures GoodSide(w', a, q, w.nodes[a].book[q]) {
      SameSidesStayGood(w, w', a, q);
    }
    SameQueuesStayGood(w, w');
    GrowsKeeps(w, w', a);
  }

  /** A call that writes one side and hands over a request. */
  lemma HandKeeps(w: World, w': World, a: string, p: string, side: Side)
    requires Good(w) && Grows(w, w') && a in w.nodes && w.nodes[a].Idle() && w'.hub == w.hub
    requires w'.nodes == w.nodes[a := w'.nodes[a]]
    requires w'.nodes[a].book == w.nodes[a].book[p := side] && w'.nodes[a].incoming.None?
    requires GoodSide(w', a, p, side)
    requires w'.nodes[a].outgoing.Some? ==>
      GoodRequest(w', a, w'.nodes[a].outgoing.value) && Rowed(w'.nodes[a], w'.nodes[a].outgoing.value)
    ensures Good(w')
  {
    var n, n' := w.nodes[a], w'.nodes[a];
    assert GoodNode(w, a, n);
    forall q | q in n'.book ensures GoodSide(w', a, q, n'.book[q]) {
      if q != p {
        SameSidesStayGood(w, w', a, q);
      }
    }
    SameQueuesStayGood(w, w');
    GrowsKeeps(w, w', a);
  }

  lemma AskKeepsGood(w: World, a: string, bob: string, e1: nat, random: Bytes)
    requires Good(w) && Enabled(w, AskContact(a, bob, e1, random))
    ensures Good(Ask(w, a, bob, e1, random)) && Grows(w, Ask(w, a, bob, e1, random))
  {
    var w' := Ask(w, a, bob, e1, random);
    var n := w.nodes[a];
    match AddContact(a, n.Has(bob), bob, e1, random)
    case None =>
    case Some((side, request)) =>
      assert GoodNode(w, a, n);
      if bob in n.book {
        SameSidesStayGood(w, w', a, bob);
      }
      HandKeeps(w, w', a, bob, side);
  }

  lemma AnswerKeepsGood(w: World, a: string, alice: string, e2: nat, random: Bytes)
    requires Good(w) && Enabled(w, AnswerContact(a, alice, e2, random))
    ensures Good(Answer(w, a, alice, e2, random)) && Grows(w, Answer(w, a, alice, e2, random))
  {
    var w' := Answer(w, a, alice, e2, random);
    var n := w.nodes[a];
    match AcceptContact(a, n.Has(alice), alice, e2, random)
    case None =>
    case Some((side, request)) =>
      assert GoodNode(w, a, n);
      SameSidesStayGood(w, w', a, alice);
      HandKeeps(w, w', a, alice, side);
  }

  /** What a send writes and hands over fits the sender's book. */
  lemma SendKeepsSide(w: World, w': World, a: string, to: string, x: string, fits: bool, o: Sending)
    requires Good(w) && Grows(w, w') && a in w.nodes
    requires SendShape(w.nodes[a].Has(to), to, x, fits, o)
    requires (|x| == 32 && Owned(w', x, a, to)) || x in w.nodes[a].Has(to).convos
    requires !fits && o.Ready? ==> Lost(w', a, o.request)
    ensures o.side != w.nodes[a].Has(to) ==> GoodSide(w', a, to, o.side)
    ensures o.Ready? ==> GoodSide(w', a, to, o.side) && GoodRequest(w', a, Outgoing(o.request, o.stored))
  {
    var side := w.nodes[a].Has(to);
    assert GoodNode(w, a, w.nodes[a]);
    if to in w.nodes[a].book {
      SameSidesStayGood(w, w', a, to);
    }
    if o.Ready? {
      assert |to| == |ToLower(to)|;
    }
  }

  lemma SentKeepsGood(w: World, w': World, a: string, to: string, o: Sending)
    requires Good(w) && Grows(w, w') && a in w.nodes && w.nodes[a].Idle() && w'.hub == w.hub
    requires w'.nodes == w.nodes[a := Sent(w.nodes[a], to, o)]
    requires o.side != w.nodes[a].Has(to) ==> GoodSide(w', a, to, o.side)
    requires o.Ready? ==>
      GoodSide(w', a, to, o.side) && GoodRequest(w', a, Outgoing(o.request, o.stored))
      && o.request.to == to && o.request.convo in o.side.convos
    ensures Good(w')
  {
    if o.Failed? && o.side == w.nodes[a].Has(to) {
      QuietKeeps(w, w', a);
    } else {
      HandKeeps(w, w', a, to, o.side);
    }
  }

  lemma TextGrows(w: World, a: string, to: string, x: string, content: Bytes, random: Bytes)
    requires Enabled(w, SendText(a, to, x, content, random))
    ensures Grows(w, Text(w, a, to, x, content, random))
  {
  }

  lemma TextKeepsGood(w: World, a: string, to: string, x: string, content: Bytes, random: Bytes)
    requires Good(w) && Enabled(w, SendText(a, to, x, content, random))
    ensures Good(Text(w, a, to, x, content, random))
  {
    TextGrows(w, a, to, x, content, random);
    var w' := Text(w, a, to, x, content, random);
    var side := w.nodes[a].Has(to);
    var o := SendMessage(a, side, to, x, content, random);
    SendHasShape(a, side, to, x, content, random);
    if x == "" {
      assert Owned(w', Encode(random), a, to);
      SendKeepsSide(w, w', a, to, Encode(random), |content| + 16 <= MESSAGE_MAX_CHARS, o);
    } else if x in side.convos {
      SendKeepsSide(w, w', a, to, x, |content| + 16 <= MESSAGE_MAX_CHARS, o);
    }
    SentKeepsGood(w, w', a, to, o);
  }

  lemma UploadKeepsGood(w: World, a: string)
    requires Good(w) && Enabled(w, Upload(a))
    ensures Good(Uploaded(w, a)) && Grows(w, Uploaded(w, a))
  {
    var w' := Uploaded(w, a);
    var n := w.nodes[a];
    var Outgoing(r, stored) := n.outgoing.value;
    assert GoodNode(w, a, n);
    forall q | q in w'.nodes[a].book ensures GoodSide(w', a, q, w'.nodes[a].book[q]) {
      if q in n.book {
        SameSidesStayGood(w, w', a, q);
      }
    }
    forall k, i | k in w'.hub.pending && 0 <= i < |w'.hub.pending[k]|
      ensures GoodMail(w', w'.hub.pending[k][i], k)
    {
      if i < |Queue(w.hub.pending, k)| {
        assert GoodMail(w, w.hub.pending[k][i], k);
      }
    }
    GrowsKeeps(w, w', a);
  }

  lemma PollKeepsGood(w: World, a: string)
    requires Good(w) && Enabled(w, Poll(a))
    ensures Good(Polled(w, a)) && Grows(w, Polled(w, a))
  {
    var w' := Polled(w, a);
    var n := w.nodes[a];
    if w' != w {
      assert GoodNode(w, a, n);
      assert GoodMail(w, w.hub.pending[a][0], a);
      forall q | q in n.book ensures GoodSide(w', a, q, n.book[q]) {
        SameSidesStayGood(w, w', a, q);
      }
      forall k, i | k in w'.hub.pending && 0 <= i < |w'.hub.pending[k]|
        ensures GoodMail(w', w'.hub.pending[k][i], k)
      {
        assert GoodMail(w, w.hub.pending[k][if k == a then i + 1 else i], k);
      }
      GrowsKeeps(w, w', a);
    }
  }

  /** An id is known to a client under one peer only, the one it was drawn for. */
  lemma KnownUnderOnePeer(w: World, a: string, b: string, x: string)
    requires Good(w) && a in w.nodes && Owned(w, x, b, a)
    ensures w.nodes[a].ConvoExist(x) == (x in w.nodes[a].Has(b).convos)
  {
    var n := w.nodes[a];
    assert GoodNode(w, a, n);
    forall p | p in n.book && x in n.book[p].convos
      ensures p == b
    {
      assert GoodSide(w, a, p, n.book[p]);
      assert p in {a, p} && b in {a, p} && p in {b, a};
    }
  }

  lemma ReceiveKeepsSide(w: World, a: string, e: Mail, side': Side)
    requires Good(w) && a in w.nodes && GoodMail(w, e, a)
    requires ReceiveShape(w.nodes[a].Has(e.from), e.convo, side')
    ensures GoodSide(w, a, e.from, side')
  {
    assert GoodNode(w, a, w.nodes[a]);
    assert GoodNode(w, e.from, w.nodes[e.from]);
    if e.from in w.nodes[a].book {
      SameSidesStayGood(w, w, a, e.from);
    }
    assert {e.from, a} == {a, e.from};
  }

  lemma ProcessKeepsGood(w: World, a: string)
    requires Good(w) && Enabled(w, Process(a))
    ensures Good(Processed(w, a)) && Grows(w, Processed(w, a))
  {
    var w' := Processed(w, a);
    var n := w.nodes[a];
    var e := n.incoming.value;
    assert GoodNode(w, a, n);
    var side := Processing(n, a).0;
    ReceiveHasShape(a, e.from, n.Has(e.from), e, n.ConvoExist(e.convo));
    ReceiveKeepsSide(w, a, e, side);
    assert GoodSide(w', a, e.from, side);
    HandKeeps(w.(nodes := w.nodes[a := n.(incoming := None)]), w', a, e.from, side);
  }

  lemma NextKeepsGood(w: World, s: Step)
    requires Good(w) && Enabled(w, s)
    ensures Good(Next(w, s)) && Grows(w, Next(w, s))
  {
    match s
    case AskContact(a, bob, e1, random) => AskKeepsGood(w, a, bob, e1, random);
    case AnswerContact(a, alice, e2, random) => AnswerKeepsGood(w, a, alice, e2, random);
    case SendText(a, to, x, content, random) =>
      TextGrows(w, a, to, x, content, random);
      TextKeepsGood(w, a, to, x, content, random);
    case Upload(a) => UploadKeepsGood(w, a);
    case Poll(a) => PollKeepsGood(w, a);
    case Process(a) => ProcessKeepsGood(w, a);
  }
}
