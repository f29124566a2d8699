/**
  The hub process (server/client.go, server/memory.go) on bytes: a session reads
  framed requests, answers each in a frame, and ends at the first request it
  cannot serve. The protobuf library is a parameter.
  */
module Server {
  import opened Hex
  import opened Queues
  import opened Framing

  datatype WireMessage<+C> = WireMessage(to: string, convo: string, content: Option<C>)

  datatype WireRequest<+C> = GetNextMessage | SendMessage(message: Option<WireMessage<C>>) | Unsupported

  /** The library, for contents of which the hub looks only at the length. */
  datatype Codec<!C> = Codec(
    parse: Bytes -> Option<WireRequest<C>>,
    success: (bool, string) -> Bytes,
    message: (string, string, Option<C>) -> Bytes,
    length: C -> nat)

  // ----- What the handlers do to the queues -----

  function SizeOf<C>(c: Codec<C>, content: Option<C>): Option<nat> {
    if content.None? then None else Some(c.length(content.value))
  }

  function HandleSend<C>(c: Codec<C>, h: Hub<C>, who: string, m: WireMessage<C>): (Hub<C>, Bytes) {
    match Check(m.to, m.convo, SizeOf(c, m.content))
    case Malformed => (h, c.success(false, "fields are not correctly formated"))
    case NotHexadecimal => (h, c.success(false, "the recipient address is not [a-z0-9]"))
    case Fine => (Post(h, m.to, Envelope(who, m.convo, m.content.value)), c.success(true, ""))
  }

  function HandleGet<C>(c: Codec<C>, h: Hub<C>, who: string): (Hub<C>, Bytes) {
    match Pop(h, who)
    case (h', None) => (h', c.message("", "", None))
    case (h', Some(e)) => (h', c.message(e.from, e.convo, Some(e.content)))
  }

  /** The answer to one request body, or nothing if the session ends. */
  function Handle<C>(c: Codec<C>, h: Hub<C>, who: string, data: Bytes): (Hub<C>, Option<Bytes>) {
    match c.parse(data)
    case Some(GetNextMessage) => var (h', r) := HandleGet(c, h, who); (h', Some(r))
    case Some(SendMessage(Some(m))) => var (h', r) := HandleSend(c, h, who, m); (h', Some(r))
    case _ => (h, None)
  }

  /** Serving a list of request bodies: the framed answers, up to the first that ends the session. */
  function Serve<C>(c: Codec<C>, h: Hub<C>, who: string, ds: seq<Bytes>): (Hub<C>, Bytes)
    decreases |ds|
  {
    if ds == [] then (h, [])
    else
      var (h', r) := Handle(c, h, who, ds[0]);
      if r.None? then (h', [])
      else var (h'', out) := Serve(c, h', who, ds[1..]); (h'', Frame(r.value) + out)
  }

  /** Whatever bytes arrive, a session is the service of the frames in them. */
  function Session<C>(c: Codec<C>, rule: Rule, h: Hub<C>, who: string, stream: Bytes): (Hub<C>, Bytes) {
    Serve(c, h, who, Parse(rule, stream))
  }

  /** A session is its first request and then the rest of the session. */
  lemma SessionStep<C>(c: Codec<C>, rule: Rule, h: Hub<C>, who: string, stream: Bytes)
    ensures
      match ReadFrame(rule, stream)
      case None => Session(c, rule, h, who, stream) == (h, [])
      case Some((data, rest)) =>
        var (h', r) := Handle(c, h, who, data);
        if r.None? then Session(c, rule, h, who, stream) == (h', [])
        else
          && Session(c, rule, h, who, stream).0 == Session(c, rule, h', who, rest).0
          && Session(c, rule, h, who, stream).1 == Frame(r.value) + Session(c, rule, h', who, rest).1
  {
    match ReadFrame(rule, stream)
    case None =>
    case Some((data, rest)) =>
      assert Parse(rule, stream)[0] == data && Parse(rule, stream)[1..] == Parse(rule, rest);
  }

  /** A client that frames its requests is served those requests. */
  lemma FramedRequestsAreServed<C>(c: Codec<C>, h: Hub<C>, who: string, ds: seq<Bytes>)
    requires forall d :: d in ds ==> |d| <= MAX_FRAME
    ensures Session(c, TwoBytes, h, who, Frames(ds)) == Serve(c, h, who, ds)
  {
    ParseFrames(ds);
  }

  // ----- What a request does, from its bytes and the queues alone -----

  /** What the hub asks of a message: an address and an id of the right form, and content within the limit. */
  predicate WellFormed<C>(c: Codec<C>, m: WireMessage<C>) {
    && |m.to| == 64 && IsHex(m.to) && |m.convo| == 32
    && m.content.Some? && c.length(m.content.value) <= 10000
  }

  /** A send puts exactly its message at the end of its recipient's queue if it is well-formed, ... */
  lemma SendIsQueuedIff<C>(c: Codec<C>, h: Hub<C>, who: string, data: Bytes, m: WireMessage<C>, k: string)
    requires c.parse(data) == Some(SendMessage(Some(m)))
    ensures
      var (h', response) := Handle(c, h, who, data);
      var added := if WellFormed(c, m) && k == ToLower(m.to) then [Envelope(who, m.convo, m.content.value)] else [];
      && Queue(h'.pending, k) == Queue(h.pending, k) + added
      && Queue(h'.accepted, k) == Queue(h.accepted, k) + added
      && h'.popped == h.popped && (!WellFormed(c, m) ==> h' == h)
      && response.Some?
  {
  }

  /** ... and is answered with success exactly then, and otherwise with what is wrong. */
  lemma SuccessIff<C>(c: Codec<C>, h: Hub<C>, who: string, data: Bytes, m: WireMessage<C>)
    requires c.parse(data) == Some(SendMessage(Some(m)))
    ensures
      var unhex := |m.to| == 64 && |m.convo| == 32 && m.content.Some? && c.length(m.content.value) <= 10000 && !IsHex(m.to);
      Handle(c, h, who, data).1 == Some(
        if WellFormed(c, m) then c.success(true, "")
        else c.success(false, if unhex then "the recipient address is not [a-z0-9]" else "fields are not correctly formated"))
  {
  }

  /** A get takes the head of the session's own queue. */
  lemma GetTakesHead<C>(c: Codec<C>, h: Hub<C>, who: string, data: Bytes, k: string)
    requires c.parse(data) == Some(GetNextMessage)
    ensures
      var h' := Handle(c, h, who, data).0;
      var q := Queue(h.pending, who);
      && (q == [] ==> h' == h)
      && (q != [] ==> Queue(h.pending, who) == [q[0]] + Queue(h'.pending, who) && Queue(h'.popped, who) == Queue(h.popped, who) + [q[0]])
      && (k != who ==> Queue(h'.pending, k) == Queue(h.pending, k) && Queue(h'.popped, k) == Queue(h.popped, k))
      && h'.accepted == h.accepted
  {
  }

  /** Any other request, or no request at all, changes nothing and ends the session. */
  lemma OthersEndTheSession<C>(c: Codec<C>, h: Hub<C>, who: string, data: Bytes)
    requires c.parse(data) == None || c.parse(data) == Some(Unsupported) || c.parse(data) == Some(SendMessage(None))
    ensures Handle(c, h, who, data) == (h, None)
  {
  }

  /** How a client writes requests and reads answers; the library undoes its own encoding. */
  datatype Reader<!C> = Reader(
    write: WireRequest<C> -> Bytes,
    accepted: Bytes -> bool,
    received: Bytes -> (string, string, Option<C>))

  ghost predicate Reads<C(!new)>(r: Reader<C>, c: Codec<C>) {
    && (forall request :: c.parse(r.write(request)) == Some(request))
    && (forall ok, error :: r.accepted(c.success(ok, error)) == ok)
    && (forall from, x, content :: r.received(c.message(from, x, content)) == (from, x, content))
  }

  /**
    The address a client reads in the answer to a get is empty exactly when its
    queue was; otherwise the answer is the head of the queue.
    */
  lemma GetAnswersHead<C(!new)>(c: Codec<C>, r: Reader<C>, h: Hub<C>, who: string, data: Bytes)
    requires Reads(r, c) && c.parse(data) == Some(GetNextMessage)
    requires forall e :: e in Queue(h.pending, who) ==> e.from != ""
    ensures
      var response := Handle(c, h, who, data).1;
      && response.Some?
      && var (from, x, content) := r.received(response.value);
      && (from == "" <==> Queue(h.pending, who) == [])
      && (Queue(h.pending, who) != [] ==>
          var e := Queue(h.pending, who)[0]; from == e.from && x == e.convo && content == Some(e.content))
  {
  }

  /** What a client reads as success is that its message was queued. */
  lemma AcceptedMeansQueued<C(!new)>(c: Codec<C>, r: Reader<C>, h: Hub<C>, who: string, data: Bytes, m: WireMessage<C>)
    requires Reads(r, c) && c.parse(data) == Some(SendMessage(Some(m)))
    ensures
      var (h', response) := Handle(c, h, who, data);
      && response.Some?
      && (r.accepted(response.value) <==> WellFormed(c, m))
      && (r.accepted(response.value) <==> h' != h)
      && (h' != h ==> h' == Post(h, m.to, Envelope(who, m.convo, m.content.value)))
  {
    hide Post, Handle;
    SuccessIff(c, h, who, data, m);
    QueuedIsPosted(c, h, who, data, m);
    if WellFormed(c, m) {
      PostChanges(h, m.to, Envelope(who, m.convo, m.content.value));
    }
  }

  lemma QueuedIsPosted<C>(c: Codec<C>, h: Hub<C>, who: string, data: Bytes, m: WireMessage<C>)
    requires c.parse(data) == Some(SendMessage(Some(m)))
    ensures Handle(c, h, who, data).0 ==
      if WellFormed(c, m) then Post(h, m.to, Envelope(who, m.convo, m.content.value)) else h
  {
    hide Post;
  }

  lemma PostChanges<C>(h: Hub<C>, to: string, e: Envelope<C>)
    ensures Post(h, to, e) != h
  {
    assert |Queue(Post(h, to, e).pending, ToLower(to))| == |Queue(h.pending, ToLower(to))| + 1;
  }

  // ----- Serving a list of requests -----

  /** The queues after a list of requests, the latest last. */
  function After<C>(c: Codec<C>, h: Hub<C>, who: string, ds: seq<Bytes>): Hub<C> {
    if ds == [] then h else Handle(c, After(c, h, who, ds[..|ds| - 1]), who, ds[|ds| - 1]).0
  }

  function AnswerAt<C>(c: Codec<C>, h: Hub<C>, who: string, ds: seq<Bytes>, i: nat): Option<Bytes>
    requires i < |ds|
  {
    Handle(c, After(c, h, who, ds[..i]), who, ds[i]).1
  }

  predicate Answers<C>(c: Codec<C>, h: Hub<C>, who: string, ds: seq<Bytes>, rs: seq<Bytes>) {
    |rs| == |ds| && forall i :: 0 <= i < |ds| ==> AnswerAt(c, h, who, ds, i) == Some(rs[i])
  }

  lemma {:induction false} AfterFirst<C>(c: Codec<C>, h: Hub<C>, who: string, ds: seq<Bytes>)
    requires ds != []
    ensures After(c, h, who, ds) == After(c, Handle(c, h, who, ds[0]).0, who, ds[1..])
    decreases |ds|
  {
    if |ds| == 1 {
      assert ds[..0] == [] && ds[1..] == [];
    } else {
      AfterFirst(c, h, who, ds[..|ds| - 1]);
      assert ds[..|ds| - 1][1..] == ds[1..][..|ds[1..]| - 1];
    }
  }

  lemma AnswersAfterFirst<C>(c: Codec<C>, h: Hub<C>, who: string, ds: seq<Bytes>, rs: seq<Bytes>)
    requires ds != [] && Answers(c, h, who, ds, rs)
    ensures Handle(c, h, who, ds[0]).1 == Some(rs[0])
    ensures Answers(c, Handle(c, h, who, ds[0]).0, who, ds[1..], rs[1..])
  {
    assert ds[..0] == [];
    assert AnswerAt(c, h, who, ds, 0) == Some(rs[0]);
    forall i | 0 <= i < |ds[1..]|
      ensures AnswerAt(c, Handle(c, h, who, ds[0]).0, who, ds[1..], i) == Some(rs[1..][i])
    {
      assert AnswerAt(c, h, who, ds, i + 1) == Some(rs[i + 1]);
      AfterFirst(c, h, who, ds[..i + 1]);
      assert ds[..i + 1][1..] == ds[1..][..i];
    }
  }

  /**
    Requests that are all answered: the queues are those after all of them, and
    the answers are framed in order. A request that is not answered, and whatever
    follows it, does nothing.
    */
  lemma {:induction false} ServesInOrder<C>(c: Codec<C>, h: Hub<C>, who: string, ds: seq<Bytes>, rs: seq<Bytes>, more: seq<Bytes>)
    requires Answers(c, h, who, ds, rs)
    requires more == [] || Handle(c, After(c, h, who, ds), who, more[0]).1.None?
    ensures Serve(c, h, who, ds + more) == (After(c, h, who, ds), Frames(rs))
    decreases |ds|
  {
    if ds == [] {
      assert ds + more == more;
    } else {
      AnswersAfterFirst(c, h, who, ds, rs);
      AfterFirst(c, h, who, ds);
      assert (ds + more)[0] == ds[0] && (ds + more)[1..] == ds[1..] + more;
      ServesInOrder(c, Handle(c, h, who, ds[0]).0, who, ds[1..], rs[1..], more);
    }
  }

  /** Any request is one operation on the queues, in the name of the session's client, or none. */
  lemma RequestIsOneOperation<C>(c: Codec<C>, h: Hub<C>, who: string, data: Bytes)
    ensures
      var h' := Handle(c, h, who, data).0;
      match c.parse(data)
      case Some(GetNextMessage) => h' == Apply(h, Get(who))
      case Some(SendMessage(Some(m))) =>
        h' == (if m.content.None? then h else Apply(h, Send(who, m.to, m.convo, m.content.value, Some(c.length(m.content.value)))))
      case _ => h' == h
  {
  }

  /** Sessions conserve messages, whatever bytes arrive. */
  lemma {:induction false} ServeConserves<C>(c: Codec<C>, h: Hub<C>, who: string, ds: seq<Bytes>)
    requires Conserved(h)
    ensures Conserved(Serve(c, h, who, ds).0)
    decreases |ds|
  {
    if ds != [] {
      var h' := Handle(c, h, who, ds[0]).0;
      match c.parse(ds[0]) {
        case Some(GetNextMessage) => PopConserves(h, who);
        case Some(SendMessage(Some(m))) =>
          if h' != h {
            PostConserves(h, m.to, Envelope(who, m.convo, m.content.value));
          }
        case _ =>
      }
      ServeConserves(c, h', who, ds[1..]);
    }
  }

  lemma SessionConserves<C>(c: Codec<C>, rule: Rule, h: Hub<C>, who: string, stream: Bytes)
    requires Conserved(h)
    ensures Conserved(Session(c, rule, h, who, stream).0)
  {
    ServeConserves(c, h, who, Parse(rule, stream));
  }

  // ----- The process -----

  class Memory<C> {
    var pendingMessages: map<string, seq<Envelope<C>>>
    ghost var accepted: map<string, seq<Envelope<C>>>
    ghost var popped: map<string, seq<Envelope<C>>>
    const codec: Codec<C>

    constructor (codec: Codec<C>)
      ensures All() == EmptyHub() && this.codec == codec && Conserved(All())
    {
      this.codec := codec;
      pendingMessages, accepted, popped := map[], map[], map[];
    }

    ghost function All(): Hub<C>
      reads this
    {
      Hub(pendingMessages, accepted, popped)
    }

    method HandleSendMessage(publicKey: string, m: WireMessage<C>) returns (response: Bytes)
      modifies this
      ensures (All(), response) == HandleSend(codec, old(All()), publicKey, m)
    {
      if |m.to| != 64 || m.content.None? || codec.length(m.content.value) > 10000 || |m.convo| != 32 {
        return codec.success(false, "fields are not correctly formated");
      }
      if !IsHex(m.to) {
        return codec.success(false, "the recipient address is not [a-z0-9]");
      }
      var toAddress := ToLower(m.to);
      var queue := if toAddress in pendingMessages then pendingMessages[toAddress] else [];
      pendingMessages := pendingMessages[toAddress := queue + [Envelope(publicKey, m.convo, m.content.value)]];
      accepted := Append(accepted, toAddress, Envelope(publicKey, m.convo, m.content.value));
      return codec.success(true, "");
    }

    method HandleGetNextMessage(publicKey: string) returns (response: Bytes)
      modifies this
      ensures (All(), response) == HandleGet(codec, old(All()), publicKey)
    {
      var from, convo, content := "", "", None;
      if publicKey in pendingMessages && |pendingMessages[publicKey]| > 0 {
        var messages := pendingMessages[publicKey];
        var message := messages[0];
        pendingMessages := pendingMessages[publicKey := messages[1..]];
        popped := Append(popped, publicKey, message);
        from, convo, content := message.from, message.convo, Some(message.content);
      }
      return codec.message(from, convo, content);
    }

    /** One request body, with no answer if it ends the session. */
    method HandleRequest(publicKey: string, data: Bytes) returns (response: Option<Bytes>)
      modifies this
      ensures (All(), response) == Handle(codec, old(All()), publicKey, data)
    {
      match codec.parse(data) {
        case Some(GetNextMessage) =>
          var answer := HandleGetNextMessage(publicKey);
          response := Some(answer);
        case Some(SendMessage(Some(m))) =>
          var answer := HandleSendMessage(publicKey, m);
          response := Some(answer);
        case _ => response := None;
      }
    }

    /** One session, on everything its client sends; the answers it writes. */
    method HandleClient(rule: Rule, publicKey: string, stream: Bytes) returns (out: Bytes)
      modifies this
      ensures All() == Session(codec, rule, old(All()), publicKey, stream).0
      ensures out == Session(codec, rule, old(All()), publicKey, stream).1
      ensures old(Conserved(All())) ==> Conserved(All())
    {
      hide Session, Handle;
      ghost var whole := Session(codec, rule, All(), publicKey, stream);
      if Conserved(All()) {
        SessionConserves(codec, rule, All(), publicKey, stream);
      }
      var input := stream;
      out := [];
      while true
        invariant whole.0 == Session(codec, rule, All(), publicKey, input).0
        invariant whole.1 == out + Session(codec, rule, All(), publicKey, input).1
        decreases |input|
      {
        SessionStep(codec, rule, All(), publicKey, input);
        var frame := ReadFrame(rule, input);
        if frame.None? {
          break;
        }
        var data := frame.value.0;
        input := frame.value.1;
        var response := HandleRequest(publicKey, data);
        if response.None? {
          break;
        }
        out := out + Frame(response.value);
      }
    }
  }

  // ----- The client's end (hub.go) -----

  class HubState {
    var connected: bool

    constructor ()
      ensures !connected
    {
      connected := false;
    }

    /** Writes a framed request, connecting first if need be. */
    method Write(data: Bytes) returns (written: Bytes)
      modifies this
      ensures connected && written == Frame(data)
      ensures |data| <= MAX_FRAME ==> written[0] as int * 256 + written[1] as int == |data| && written[2..] == data
    {
      connected := true;
      var n := |data|;
      written := [(n / 256) % 256, n % 256] + data;
      if n <= MAX_FRAME {
        FrameHeader(data);
      }
    }

    /** Reads one framed answer; one that cannot be read drops the connection. */
    method Read(rule: Rule, reply: Bytes) returns (body: Option<Bytes>)
      modifies this
      ensures body.Some? <==> ReadFrame(rule, reply).Some?
      ensures body.Some? ==> body.value == ReadFrame(rule, reply).value.0
      ensures connected == (old(connected) && body.Some?)
    {
      if |reply| < 2 {
        connected := false;
        return None;
      }
      var length := HeaderLength(rule, reply[0], reply[1]);
      var rest := reply[2..];
      if length > 0 && |rest| == 0 {
        connected := false;
        return None;
      }
      body := Some(rest[..if length <= |rest| then length else |rest|]);
    }
  }

  /** One request through both ends: the client reads back exactly the handler's answer. */
  lemma RequestResponse<C>(c: Codec<C>, h: Hub<C>, who: string, data: Bytes)
    requires |data| <= MAX_FRAME && Handle(c, h, who, data).1.Some?
    requires |Handle(c, h, who, data).1.value| <= MAX_FRAME
    ensures
      var (h', r) := Handle(c, h, who, data);
      var (h'', out) := Session(c, TwoBytes, h, who, Frame(data));
      h'' == h' && ReadFrame(TwoBytes, out) == Some((r.value, []))
  {
    var (h', r) := Handle(c, h, who, data);
    FramedRequestsAreServed(c, h, who, [data]);
    assert Frames([data]) == Frame(data) + Frames([]);
    assert Frames([data]) == Frame(data);
    assert [data][1..] == [];
    assert Serve(c, h', who, []) == (h', []);
    ReadOwnFrame(r.value, []);
    assert Frame(r.value) + [] == Frame(r.value);
  }
}
