/**
  The hub's pending messages (server/memory.go) and its two requests
  (server/client.go) as functions on them. `accepted` and `popped` record, for
  each recipient, everything ever appended to and taken from its queue.
  */
module Queues {
  import opened Hex

  datatype Envelope<+C> = Envelope(from: string, convo: string, content: C)

  datatype Hub<+C> = Hub(
    pending: map<string, seq<Envelope<C>>>,
    accepted: map<string, seq<Envelope<C>>>,
    popped: map<string, seq<Envelope<C>>>)

  function EmptyHub<C>(): Hub<C> { Hub(map[], map[], map[]) }

  const MESSAGE_MAX_CHARS: nat := 10000

  function Queue<C>(m: map<string, seq<Envelope<C>>>, k: string): seq<Envelope<C>> {
    if k in m then m[k] else []
  }

  datatype Verdict = Fine | Malformed | NotHexadecimal

  /** The hub's checks; `size` is absent when the request carries no content. */
  function Check(to: string, convo: string, size: Option<nat>): Verdict {
    if |to| != 64 || size.None? || size.value > MESSAGE_MAX_CHARS || |convo| != 32 then Malformed
    else if !IsHex(to) then NotHexadecimal
    else Fine
  }

  function Append<C>(m: map<string, seq<Envelope<C>>>, k: string, e: Envelope<C>): map<string, seq<Envelope<C>>> {
    m[k := Queue(m, k) + [e]]
  }

  function Post<C>(h: Hub<C>, to: string, e: Envelope<C>): Hub<C> {
    var r := ToLower(to);
    h.(pending := Append(h.pending, r, e), accepted := Append(h.accepted, r, e))
  }

  function Pop<C>(h: Hub<C>, who: string): (Hub<C>, Option<Envelope<C>>) {
    var q := Queue(h.pending, who);
    if q == [] then (h, None)
    else (h.(pending := h.pending[who := q[1..]], popped := Append(h.popped, who, q[0])), Some(q[0]))
  }

  // ----- Conservation and order, for every interleaving of requests -----

  datatype Op<+C> =
    | Send(from: string, to: string, convo: string, content: C, size: Option<nat>)
    | Get(who: string)

  function Apply<C>(h: Hub<C>, op: Op<C>): Hub<C> {
    match op
    case Send(from, to, convo, content, size) =>
      if Check(to, convo, size) == Fine then Post(h, to, Envelope(from, convo, content)) else h
    case Get(who) => Pop(h, who).0
  }

  /** The state after a history of requests, the latest last. */
  function Run<C>(ops: seq<Op<C>>): Hub<C> {
    if ops == [] then EmptyHub() else Apply(Run(ops[..|ops| - 1]), ops[|ops| - 1])
  }

  ghost predicate Conserved<C>(h: Hub<C>) {
    forall r :: Queue(h.accepted, r) == Queue(h.popped, r) + Queue(h.pending, r)
  }

  lemma PostConserves<C>(h: Hub<C>, to: string, e: Envelope<C>)
    requires Conserved(h)
    ensures Conserved(Post(h, to, e))
  {
    var h' := Post(h, to, e);
    forall r
      ensures Queue(h'.accepted, r) == Queue(h'.popped, r) + Queue(h'.pending, r)
    {
      assert Queue(h.accepted, r) == Queue(h.popped, r) + Queue(h.pending, r);
    }
  }

  lemma PopConserves<C>(h: Hub<C>, who: string)
    requires Conserved(h)
    ensures Conserved(Pop(h, who).0)
  {
    var h', q := Pop(h, who).0, Queue(h.pending, who);
    forall r
      ensures Queue(h'.accepted, r) == Queue(h'.popped, r) + Queue(h'.pending, r)
    {
      assert Queue(h.accepted, r) == Queue(h.popped, r) + Queue(h.pending, r);
      if r == who && q != [] {
        assert q == [q[0]] + q[1..];
      }
    }
  }

  lemma ApplyConserves<C>(h: Hub<C>, op: Op<C>)
    requires Conserved(h)
    ensures Conserved(Apply(h, op))
  {
    match op
    case Send(from, to, convo, content, _) => PostConserves(h, to, Envelope(from, convo, content));
    case Get(who) => PopConserves(h, who);
  }

  /** Accepted messages are exactly the popped ones followed by the pending ones. */
  lemma {:induction false} RunConserves<C>(ops: seq<Op<C>>)
    ensures Conserved(Run(ops))
  {
    if ops != [] {
      RunConserves(ops[..|ops| - 1]);
      ApplyConserves(Run(ops[..|ops| - 1]), ops[|ops| - 1]);
    }
  }

  function From<C>(es: seq<Envelope<C>>, a: string): seq<Envelope<C>> {
    if es == [] then [] else (if es[0].from == a then [es[0]] else []) + From(es[1..], a)
  }

  lemma {:induction false} FromConcat<C>(xs: seq<Envelope<C>>, ys: seq<Envelope<C>>, a: string)
    ensures From(xs + ys, a) == From(xs, a) + From(ys, a)
  {
    if xs == [] {
      assert xs + ys == ys;
    } else {
      var head := if xs[0].from == a then [xs[0]] else [];
      assert (xs + ys)[0] == xs[0] && (xs + ys)[1..] == xs[1..] + ys;
      FromConcat(xs[1..], ys, a);
      assert From(xs + ys, a) == head + From(xs[1..] + ys, a);
      assert head + (From(xs[1..], a) + From(ys, a)) == (head + From(xs[1..], a)) + From(ys, a);
    }
  }

  /** What one client has successfully sent to one recipient, in the order it sent it. */
  function SentBy<C>(ops: seq<Op<C>>, a: string, r: string): seq<Envelope<C>> {
    if ops == [] then []
    else
      var op := ops[|ops| - 1];
      SentBy(ops[..|ops| - 1], a, r) +
      (if op.Send? && op.from == a && ToLower(op.to) == r && Check(op.to, op.convo, op.size) == Fine
       then [Envelope(a, op.convo, op.content)] else [])
  }

  lemma {:induction false} AcceptedInOrder<C>(ops: seq<Op<C>>, a: string, r: string)
    ensures From(Queue(Run(ops).accepted, r), a) == SentBy(ops, a, r)
  {
    if ops != [] {
      AcceptedInOrder(ops[..|ops| - 1], a, r);
      ApplyAccepts(Run(ops[..|ops| - 1]), ops[|ops| - 1], a, r);
    }
  }

  lemma ApplyAccepts<C>(h: Hub<C>, op: Op<C>, a: string, r: string)
    ensures From(Queue(Apply(h, op).accepted, r), a)
         == From(Queue(h.accepted, r), a) + SentBy([op], a, r)
  {
    assert [op][..0] == [];
    assert SentBy([op][..0], a, r) == [];
    if op.Send? {
      FromConcat(Queue(h.accepted, r), [Envelope(op.from, op.convo, op.content)], a);
    }
  }

  /**
    However the sessions interleave, a recipient's popped messages followed by
    its pending ones contain each sender's accepted messages, all of them, once,
    in the order sent.
    */
  lemma NoLossNoReordering<C>(ops: seq<Op<C>>, a: string, r: string)
    ensures From(Queue(Run(ops).popped, r), a) + From(Queue(Run(ops).pending, r), a) == SentBy(ops, a, r)
  {
    RunConserves(ops);
    AcceptedInOrder(ops, a, r);
    FromConcat(Queue(Run(ops).popped, r), Queue(Run(ops).pending, r), a);
  }

  /** A request changes at most the queue of the recipient it names. */
  lemma OnlyOneQueueChanges<C>(h: Hub<C>, op: Op<C>, r: string)
    requires r != if op.Send? then ToLower(op.to) else op.who
    ensures Queue(Apply(h, op).pending, r) == Queue(h.pending, r)
    ensures Queue(Apply(h, op).accepted, r) == Queue(h.accepted, r)
    ensures Queue(Apply(h, op).popped, r) == Queue(h.popped, r)
  {
  }

  /**
    A message sent under any letter casing of an address is queued for the owner
    of the key, under the lower-case encoding of it, and for nobody else.
    */
  lemma AnyCasingReachesTheOwner<C>(h: Hub<C>, to: string, convo: string, size: Option<nat>, e: Envelope<C>, key: Bytes)
    requires Check(to, convo, size) == Fine
    ensures Queue(Post(h, to, e).pending, Encode(key))
         == Queue(h.pending, Encode(key)) + if Decode(to) == Some(key) then [e] else []
  {
    EncodeDecode(to);
    DecodeEncode(key);
    LowerKeepsKey(to);
  }
}
