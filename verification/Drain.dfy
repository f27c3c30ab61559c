/** What a closing endpoint still sends: everything its users have given it, one last packet for each conversation,
    the requests still in its queue, and then nothing. */
module Drain {
  import opened Basics
  import opened Protocol
  import opened Conversation

  // ---- what is owed -------------------------------------------------------------------------

  function StreamPackets(items: seq<Body>, i: nat): seq<Packet> {
    if items == [] then [] else [Packet(Stream, i, items[0])] + StreamPackets(items[1..], i)
  }

  /** All packets one entry is still going to send: buffered stream packets in order, and one last packet. */
  function Owed(u: UserResponse, i: nat): (r: seq<Packet>)
    ensures forall k :: 0 <= k < |r| ==> Belongs(r[k], i) && (r[k].kind.Stream? <==> k < |r| - 1)
  {
    match u
    case Answering(Answered(b)) => [Packet(Response, i, b)]
    case Answering(_) => [Packet(NoResponse, i, EMPTY)]
    case Sending(q) =>
      StreamPacketsAre(q.items, i);
      StreamPackets(q.items, i) + [Packet(StreamClosed, i, EMPTY)]
  }

  lemma {:induction false} StreamPacketsAre(items: seq<Body>, i: nat)
    ensures var r := StreamPackets(items, i);
      |r| == |items| && forall k :: 0 <= k < |r| ==> r[k] == Packet(Stream, i, items[k])
  {
    if items != [] { StreamPacketsAre(items[1..], i); }
  }

  function OwedAt(m: map<nat, UserResponse>, i: nat): seq<Packet> {
    if i in m then Owed(m[i], i) else []
  }

  /** How many packets the entries owe in all. */
  ghost function Debt(m: map<nat, UserResponse>): nat {
    if m == map[] then 0 else
    var i: nat :| i in m;
    |Owed(m[i], i)| + Debt(m - {i})
  }

  lemma {:induction false} DebtWithout(m: map<nat, UserResponse>, i: nat)
    requires i in m
    ensures Debt(m) == |Owed(m[i], i)| + Debt(m - {i})
  {
    hide Owed;
    var j: nat :| j in m && Debt(m) == |Owed(m[j], j)| + Debt(m - {j});
    if j != i {
      DebtWithout(m - {j}, i);
      DebtWithout(m - {i}, j);
      assert m - {j} - {i} == m - {i} - {j};
    }
  }

  // ---- what is still in the queue -----------------------------------------------------------

  /** What a queued request is going to send under its id: itself, and what its stream holds. */
  function Asking(req: InternalRequest, id: nat): seq<Packet> {
    match req
    case EnableServer => []
    case Ask(b) => [Packet(Request, id, b)]
    case AskSender(b, q) => [Packet(RequestSender, id, b)] + Owed(Sending(q), id)
    case AskReceiver(b, _) => [Packet(RequestReceiver, id, b)]
  }

  /** How many packets that takes. Enabling server requests is a packet of no conversation. */
  function Cost(req: InternalRequest): nat {
    1 + if req.AskSender? then |req.queue.items| + 1 else 0
  }

  function QueueDebt(reqs: seq<InternalRequest>): nat {
    if reqs == [] then 0 else Cost(reqs[0]) + QueueDebt(reqs[1..])
  }

  function RoleAfter(role: Role, req: InternalRequest): (r: Role)
    requires role.CanSendRequests()
    ensures r.CanSendRequests()
  {
    if req.EnableServer? then role.Advanced().Enabled() else role.Advanced()
  }

  /** There is an id for every queued request. */
  predicate IdsLeft(role: Role, reqs: seq<InternalRequest>)
    requires role.CanSendRequests()
    decreases |reqs|
  {
    reqs != [] ==> role.next.Some? && IdsLeft(RoleAfter(role, reqs[0]), reqs[1..])
  }

  /** What the queue is going to send under an id. */
  function QueuedOwed(role: Role, reqs: seq<InternalRequest>, i: nat): seq<Packet>
    requires role.CanSendRequests()
    decreases |reqs|
  {
    if reqs == [] || role.next.None? then [] else
    (if role.next.value == i then Asking(reqs[0], i) else []) + QueuedOwed(RoleAfter(role, reqs[0]), reqs[1..], i)
  }

  /** The ids the counter can still come to. */
  predicate Ahead(role: Role, i: nat) {
    role.CanSendRequests() && role.next.Some? && role.next.value <= i <= (if role.BiClient? then U32_MID else U32_MAX)
  }

  /** No table holds an id that is still to be handed out. */
  predicate FreshIds(h: State) {
    && (h.role.CanSendRequests() && h.role.next.Some? ==> Ahead(h.role, h.role.next.value))
    && (forall i <- h.wos :: !Ahead(h.role, i)) && (forall i <- h.wou :: !Ahead(h.role, i))
  }

  /** All packets an endpoint is going to send, and those of one conversation. */
  ghost function DebtOf(h: State): nat {
    Debt(h.wou) + if h.role.CanSendRequests() then QueueDebt(h.requests) else 0
  }

  function OwedTo(h: State, i: nat): seq<Packet> {
    OwedAt(h.wou, i) + if h.role.CanSendRequests() then QueuedOwed(h.role, h.requests, i) else []
  }

  lemma AheadShrinks(role: Role, req: InternalRequest, i: nat)
    requires role.CanSendRequests() && role.next.Some? && Ahead(role, role.next.value)
    ensures Ahead(RoleAfter(role, req), i) ==> Ahead(role, i) && i != role.next.value
    ensures var r := RoleAfter(role, req); r.next.Some? ==> Ahead(r, r.next.value)
  {
  }

  lemma {:induction false} NothingBehind(role: Role, reqs: seq<InternalRequest>, i: nat)
    requires role.CanSendRequests() && (role.next.Some? ==> Ahead(role, role.next.value)) && !Ahead(role, i)
    ensures QueuedOwed(role, reqs, i) == []
    decreases |reqs|
  {
    if reqs != [] && role.next.Some? {
      AheadShrinks(role, reqs[0], i);
      hide Ahead, Asking;
      NothingBehind(RoleAfter(role, reqs[0]), reqs[1..], i);
    }
  }

  // ---- one packet ---------------------------------------------------------------------------

  lemma TakeOne(h: State, i: nat)
    requires CanTake(h, FromUser(i))
    ensures var (h', p) := TakeUser(h, i);
      && Belongs(p, i) && OwedAt(h.wou, i) == [p] + OwedAt(h'.wou, i) && h'.wou - {i} == h.wou - {i}
      && h' == h.(wou := h'.wou) && h'.wou.Keys <= h.wou.Keys
  {
    match h.wou[i]
    case Answering(_) =>
    case Sending(q) =>
      if q.items != [] {
        assert Owed(h.wou[i], i) == [Packet(Stream, i, q.items[0])] + Owed(Sending(q.(items := q.items[1..])), i);
      }
  }

  /** A packet an entry sends is one of those it owes. */
  lemma TakePays(h: State, i: nat)
    requires CanTake(h, FromUser(i)) && FreshIds(h)
    ensures var (h', p) := TakeUser(h, i);
      && Belongs(p, i) && FreshIds(h') && DebtOf(h') + 1 == DebtOf(h)
      && forall j: nat :: Thread([p], j) + OwedTo(h', j) == OwedTo(h, j)
  {
    hide TakeUser, Owed, QueuedOwed, Ahead, Thread;
    TakeOne(h, i);
    var (h', p) := TakeUser(h, i);
    DebtShrinks(h.wou, h'.wou, i);
    forall j: nat ensures Thread([p], j) + OwedTo(h', j) == OwedTo(h, j) {
      ThreadOfOne(p, j);
      if j == i {
        var queued := if h.role.CanSendRequests() then QueuedOwed(h.role, h.requests, j) else [];
        assert [p] + (OwedAt(h'.wou, i) + queued) == [p] + OwedAt(h'.wou, i) + queued;
      } else {
        SameElsewhere(h.wou, h'.wou, i, j);
      }
    }
  }

  lemma DebtShrinks(m: map<nat, UserResponse>, m': map<nat, UserResponse>, i: nat)
    requires i in m && m' - {i} == m - {i} && |OwedAt(m, i)| == |OwedAt(m', i)| + 1
    ensures Debt(m') + 1 == Debt(m)
  {
    hide Owed;
    DebtWithout(m, i);
    if i in m' {
      DebtWithout(m', i);
    } else {
      assert m' == m' - {i};
    }
  }

  lemma SameElsewhere(m: map<nat, UserResponse>, m': map<nat, UserResponse>, i: nat, j: nat)
    requires m' - {i} == m - {i} && j != i
    ensures OwedAt(m', j) == OwedAt(m, j)
  {
    assert j in m' <==> j in m' - {i};
    assert j in m <==> j in m - {i};
    assert j in m ==> (m' - {i})[j] == m'[j] && (m - {i})[j] == m[j];
  }

  /** A request leaves the queue under a new id: without a collision, and for its price. */
  lemma QueuePays(h: State)
    requires CanTake(h, FromQueue) && h.role.next.Some? && FreshIds(h)
    ensures var (h', r) := TakeQueue(h);
      && r.Packets? && FreshIds(h') && h'.role == RoleAfter(h.role, h.requests[0]) && h'.requests == h.requests[1..]
      && DebtOf(h') + 1 == DebtOf(h)
      && forall j: nat :: Thread([r.packet], j) + OwedTo(h', j) == OwedTo(h, j)
  {
    QueueTables(h);
    var (h', r) := TakeQueue(h);
    var id, req := h.role.next.value, h.requests[0];
    hide TakeQueue;
    QueueFresh(h, h');
    QueuePrice(h, h');
    forall j: nat ensures Thread([r.packet], j) + OwedTo(h', j) == OwedTo(h, j) {
      QueueOwes(h, h', r.packet, j);
    }
  }

  /** What taking a request does to the tables. */
  predicate Taken(h: State, h': State, p: Packet)
    requires CanTake(h, FromQueue) && h.role.next.Some?
  {
    var id, req := h.role.next.value, h.requests[0];
    && h'.role == RoleAfter(h.role, req) && h'.requests == h.requests[1..] && h'.requestsOpen == h.requestsOpen
    && h'.wou == (if req.AskSender? then h.wou[id := Sending(req.queue)] else h.wou)
    && h'.wos.Keys <= h.wos.Keys + {id}
    && (if req.EnableServer? then p.kind.EnableServerRequests? else Asking(req, id) == [p] + OwedAt(h'.wou, id) && Belongs(p, id))
  }

  lemma QueueTables(h: State)
    requires CanTake(h, FromQueue) && h.role.next.Some? && FreshIds(h)
    ensures var (h', r) := TakeQueue(h); r.Packets? && Taken(h, h', r.packet)
    ensures h.role.next.value !in h.wou && h.role.next.value !in h.wos
  {
    hide Owed;
    assert Ahead(h.role, h.role.next.value);
    match h.requests[0] {
      case EnableServer => case Ask(_) => case AskSender(_, _) => case AskReceiver(_, _) =>
    }
  }

  lemma QueueFresh(h: State, h': State)
    requires CanTake(h, FromQueue) && h.role.next.Some? && FreshIds(h)
    requires h'.role == RoleAfter(h.role, h.requests[0])
    requires h'.wou.Keys <= h.wou.Keys + {h.role.next.value} && h'.wos.Keys <= h.wos.Keys + {h.role.next.value}
    ensures FreshIds(h')
  {
    AheadShrinks(h.role, h.requests[0], h.role.next.value);
    forall i: nat | i in h'.wou || i in h'.wos ensures !Ahead(h'.role, i) {
      AheadShrinks(h.role, h.requests[0], i);
      assert i == h.role.next.value || i in h.wou || i in h.wos;
    }
  }

  lemma QueuePrice(h: State, h': State)
    requires CanTake(h, FromQueue) && h.role.next.Some? && h.role.next.value !in h.wou
    requires exists p :: Taken(h, h', p)
    ensures DebtOf(h') + 1 == DebtOf(h)
  {
    var id, req := h.role.next.value, h.requests[0];
    hide Owed;
    if req.AskSender? {
      DebtWithout(h'.wou, id);
      assert h'.wou - {id} == h.wou;
      OwedLength(req.queue, id);
    }
  }

  lemma OwedLength(q: Queue, i: nat)
    ensures |Owed(Sending(q), i)| == |q.items| + 1
  {
    StreamPacketsAre(q.items, i);
  }

  lemma QueueOwes(h: State, h': State, p: Packet, j: nat)
    requires CanTake(h, FromQueue) && h.role.next.Some? && FreshIds(h) && h.role.next.value !in h.wou
    requires Taken(h, h', p)
    ensures Thread([p], j) + OwedTo(h', j) == OwedTo(h, j)
  {
    var id, req := h.role.next.value, h.requests[0];
    ThreadOfOne(p, j);
    AheadShrinks(h.role, req, id);
    hide Owed, Ahead, Thread;
    if j == id {
      assert QueuedOwed(h'.role, h'.requests, id) == [] by { QueueIsPast(h, id); }
    } else {
      assert OwedAt(h'.wou, j) == OwedAt(h.wou, j);
      assert QueuedOwed(h.role, h.requests, j) == [] + QueuedOwed(h'.role, h'.requests, j);
    }
  }

  lemma QueueIsPast(h: State, id: nat)
    requires CanTake(h, FromQueue) && h.role.next == Some(id) && Ahead(h.role, id)
    ensures QueuedOwed(RoleAfter(h.role, h.requests[0]), h.requests[1..], id) == []
  {
    AheadShrinks(h.role, h.requests[0], id);
    hide Ahead;
    NothingBehind(RoleAfter(h.role, h.requests[0]), h.requests[1..], id);
  }

  // ---- all of it ----------------------------------------------------------------------------

  predicate CanSend(h: State, s: Source) {
    CanTake(h, s) && (s.FromQueue? ==> h.role.next.Some?)
  }

  /** Sending from these sources in this order. */
  predicate CanDrain(h: State, picks: seq<Source>)
    decreases |picks|, 0
  {
    picks != [] ==>
      var less := picks[..|picks| - 1];
      && CanDrain(h, less) && CanSend(DrainBy(h, less).0, picks[|picks| - 1])
      && ToSend(DrainBy(h, less).0, picks[|picks| - 1]).1.Packets?
  }

  function DrainBy(h: State, picks: seq<Source>): (State, seq<Packet>)
    requires CanDrain(h, picks)
    decreases |picks|, 1
  {
    if picks == [] then (h, []) else
    var (before, out) := DrainBy(h, picks[..|picks| - 1]);
    var (end, r) := ToSend(before, picks[|picks| - 1]);
    (end, out + [r.packet])
  }

  /** Any source that has something and, if it is the queue, an id for it, can be drawn from; the packet is paid for. */
  lemma SendPays(h: State, s: Source)
    requires FreshIds(h) && CanSend(h, s)
    ensures ToSend(h, s).1.Packets?
    ensures var (h', r) := ToSend(h, s);
      && FreshIds(h') && DebtOf(h') + 1 == DebtOf(h)
      && forall j: nat :: Thread([r.packet], j) + OwedTo(h', j) == OwedTo(h, j)
  {
    hide TakeUser, TakeQueue, FreshIds, DebtOf, OwedTo, Thread;
    match s
    case FromUser(i) => TakePays(h, i);
    case FromQueue => QueuePays(h);
  }

  lemma NoThread(i: nat)
    ensures Thread([], i) == []
  {
  }

  // ---- after closing ------------------------------------------------------------------------

  /** Nobody waits for an answer any more, and no request can be added. */
  predicate Shut(h: State) {
    !h.requestsOpen && forall i <- h.wou :: h.wou[i].Answering? ==> !h.wou[i].reply.Waiting?
  }

  /** A role that sends requests has an id for each of them. */
  predicate IdsSuffice(h: State) {
    h.role.CanSendRequests() ==> IdsLeft(h.role, h.requests)
  }

  /** A stream that was still in the queue when the endpoint closed may be open: its user may go on. */
  predicate Waits(h: State) {
    exists i <- h.wou :: h.wou[i].Sending? && h.wou[i].queue.open && h.wou[i].queue.items == []
  }

  /** All local streams have ended, those in the queue included. */
  predicate StreamsEnded(h: State) {
    && (forall i <- h.wou :: h.wou[i].Sending? ==> !h.wou[i].queue.open)
    && (forall k :: 0 <= k < |h.requests| && h.requests[k].AskSender? ==> !h.requests[k].queue.open)
  }

  lemma ClosedIsShut(h: State)
    ensures Shut(Closed(h)) && IdsSuffice(Closed(h)) == IdsSuffice(h) && (FreshIds(h) ==> FreshIds(Closed(h)))
  {
    hide IdsLeft, Ahead;
  }

  /** Sending leaves what was settled settled, and neither gains nor loses an id that is needed. */
  lemma SendSettles(h: State, s: Source)
    requires Shut(h) && FreshIds(h) && CanSend(h, s)
    ensures Shut(ToSend(h, s).0) && (StreamsEnded(h) ==> StreamsEnded(ToSend(h, s).0))
    ensures IdsSuffice(ToSend(h, s).0) == IdsSuffice(h)
  {
    match s
    case FromUser(i) =>
      hide IdsLeft, Ahead;
    case FromQueue =>
      QueueTables(h);
      hide TakeQueue, Asking, OwedAt, Ahead;
  }

  /** An endpoint that owes something has something to send, or waits for a user of its own to go on with a stream. */
  lemma SomeReady(h: State)
    requires Shut(h) && !NothingToSend(h)
    ensures (exists s :: CanTake(h, s)) || Waits(h)
  {
    if h.wou != map[] {
      var i :| i in h.wou;
      if h.wou[i].Ready() {
        assert CanTake(h, FromUser(i));
      } else {
        assert h.wou[i].Sending?;
      }
    } else {
      assert CanTake(h, FromQueue);
    }
  }

  lemma DebtZero(h: State)
    requires !h.requestsOpen
    ensures NothingToSend(h) <==> DebtOf(h) == 0
    ensures NothingToSend(h) ==> forall i :: OwedTo(h, i) == []
  {
    if h.wou != map[] {
      var i :| i in h.wou;
      DebtWithout(h.wou, i);
      assert |Owed(h.wou[i], i)| > 0;
    }
  }

  /** Where an endpoint is that has sent some packets since it was in another state. */
  ghost predicate Along(start: State, h: State, out: seq<Packet>) {
    && Shut(h) && FreshIds(h) && DebtOf(h) + |out| == DebtOf(start)
    && (forall i: nat :: Thread(out, i) + OwedTo(h, i) == OwedTo(start, i))
    && IdsSuffice(h) == IdsSuffice(start) && (StreamsEnded(start) ==> StreamsEnded(h))
  }

  lemma AlongIsFresh(start: State, h: State, out: seq<Packet>)
    requires Along(start, h, out)
    ensures FreshIds(h)
  {
  }

  lemma AlongStarts(h: State)
    requires Shut(h) && FreshIds(h)
    ensures Along(h, h, [])
  {
    forall i: nat ensures Thread([], i) + OwedTo(h, i) == OwedTo(h, i) {
      NoThread(i);
    }
  }

  lemma AlongSends(start: State, h: State, out: seq<Packet>, s: Source)
    requires Along(start, h, out) && CanSend(h, s)
    ensures var (h', r) := ToSend(h, s);
      r.Packets? && Along(start, h', out + [r.packet]) && DebtOf(h') < DebtOf(h)
  {
    hide ToSend, Shut, FreshIds, DebtOf, OwedTo, IdsSuffice, StreamsEnded, Thread;
    SendPays(h, s);
    SendSettles(h, s);
    var (h', r) := ToSend(h, s);
    forall i: nat ensures Thread(out + [r.packet], i) + OwedTo(h', i) == OwedTo(start, i) {
      ThreadOfConcat(out, [r.packet], i);
      assert Thread(out, i) + Thread([r.packet], i) + OwedTo(h', i) ==
             Thread(out, i) + (Thread([r.packet], i) + OwedTo(h', i));
    }
  }

  /** Nothing can be sent: all is paid, or a user of this endpoint keeps a stream open. */
  lemma AlongEnds(start: State, h: State, out: seq<Packet>)
    requires Along(start, h, out) && forall s :: !CanTake(h, s)
    ensures forall i: nat :: Thread(out, i) + OwedTo(h, i) == OwedTo(start, i)
    ensures NothingToSend(h) <==> h.wou == map[] && (!h.role.CanSendRequests() || h.requests == [])
    ensures NothingToSend(h) ==> |out| == DebtOf(start) && IdsSuffice(start) && forall i: nat :: OwedTo(h, i) == []
    ensures !NothingToSend(h) ==> Waits(h) && !StreamsEnded(start)
  {
    DebtZero(h);
    if !NothingToSend(h) { SomeReady(h); }
  }

  /** The queue has a request and the counter has no id: the request is lost, and nothing else changes. */
  lemma AlongStops(start: State, h: State, out: seq<Packet>)
    requires Along(start, h, out) && CanTake(h, FromQueue) && TakeQueue(h).1.Exhausted?
    ensures !IdsSuffice(start)
    ensures forall i: nat :: Thread(out, i) + OwedTo(TakeQueue(h).0, i) == OwedTo(start, i)
  {
  }

  /** Whatever order the sources are drawn from, every packet sent is one of those owed: the debt shrinks by one,
      and each conversation gets what it is owed, in order. */
  lemma {:induction false} DrainPays(h: State, picks: seq<Source>)
    requires Shut(h) && FreshIds(h) && CanDrain(h, picks)
    ensures var (end, out) := DrainBy(h, picks); Along(h, end, out) && |out| == |picks|
    decreases |picks|
  {
    hide Along, ToSend, CanSend, Shut, FreshIds;
    AlongStarts(h);
    if picks != [] {
      var less, last := picks[..|picks| - 1], picks[|picks| - 1];
      DrainPays(h, less);
      var (end, out) := DrainBy(h, less);
      AlongSends(h, end, out, last);
    }
  }

  /** After `close` the endpoint sends exactly what it owes: the packets of its entries, the requests still in the
      queue and what their streams hold. It stops after as many packets, not before, unless the counter has no id for
      a queued request or a user of its own keeps a queued stream open. Each conversation gets its packets in order.
      It never sends everything if the ids do not suffice. */
  lemma CloseDrains(h: State, picks: seq<Source>, i: nat)
    requires FreshIds(h) && CanDrain(Closed(h), picks)
    ensures var (end, out) := DrainBy(Closed(h), picks);
      && |out| == |picks| <= DebtOf(Closed(h))
      && (NothingToSend(end) <==> |picks| == DebtOf(Closed(h)))
      && (NothingToSend(end) ==> IdsSuffice(h) && Thread(out, i) == OwedTo(Closed(h), i))
      && (IdsSuffice(h) && !NothingToSend(end) ==> (exists s :: CanSend(end, s)) || Waits(end))
      && (StreamsEnded(Closed(h)) ==> !Waits(end))
  {
    ClosedIsShut(h);
    DrainPays(Closed(h), picks);
    var (end, out) := DrainBy(Closed(h), picks);
    hide Closed, DrainBy, CanDrain, Thread, DebtOf, FreshIds, OwedTo, NothingToSend;
    assert !end.requestsOpen;
    DebtZero(end);
    NoQueueNoIds(end);
    if IdsSuffice(h) && !NothingToSend(end) {
      SomeReady(end);
      if s :| CanTake(end, s) { assert CanSend(end, s); }
    }
    assert Thread(out, i) + [] == Thread(out, i);
  }

  lemma NoQueueNoIds(h: State)
    ensures NothingToSend(h) ==> IdsSuffice(h)
  {
  }
}
