/** What happened at one endpoint, and what follows from it alone: the requests its user made and what was put into
    their streams, the answers given, and the packets taken in. None of it looks at a table or at a history. */
module Deeds {
  import opened Basics
  import opened Protocol
  import opened Conversation

  /** Something an endpoint or its user did, or a packet it took in, parsed or not. */
  datatype Deed = Did(action: Action) | Took(packet: Packet) | Spoilt(packet: Packet)

  predicate Reads(a: Action) {
    a.Receive? || a.ReceiveMalformed?
  }

  function DeedOf(inbox: seq<Packet>, a: Action): Deed
    requires Reads(a) ==> inbox != []
  {
    if a.Receive? then Took(inbox[0]) else if a.ReceiveMalformed? then Spoilt(inbox[0]) else Did(a)
  }

  // ---- requests -----------------------------------------------------------------------------

  /** The requests the user made, in order. */
  function Enqueued(ds: seq<Deed>): seq<InternalRequest> {
    if ds == [] then [] else
    var less, d := ds[..|ds| - 1], ds[|ds| - 1];
    Enqueued(less) + if d.Did? && d.action.Enqueue? then [d.action.req] else []
  }

  /** How many of them have left the queue. */
  function Left(ds: seq<Deed>): nat {
    if ds == [] then 0 else
    Left(ds[..|ds| - 1]) + if ds[|ds| - 1] == Did(Emit(FromQueue)) then 1 else 0
  }

  /** The user ended the stream of the k-th request while it was queued. */
  predicate EndedQueued(ds: seq<Deed>, k: nat) {
    ds != [] &&
    var less, d := ds[..|ds| - 1], ds[|ds| - 1];
    EndedQueued(less, k) || (d.Did? && d.action.EndQueued? && Left(less) + d.action.at == k)
  }

  /** What one more deed puts into the stream of the k-th request. The ids are handed out in order from `first`. */
  function NewItems(ds: seq<Deed>, d: Deed, first: nat, k: nat): seq<Body> {
    match d
    case Did(Enqueue(AskSender(_, q))) => if |Enqueued(ds)| == k then q.items else []
    case Did(PushQueued(at, b)) => if Left(ds) + at == k then [b] else []
    case Did(Push(id, b)) => if k < Left(ds) && id == first + k then [b] else []
    case _ => []
  }

  /** What the user has put into the stream of the k-th request, in order: what it held from the start, what was
      added while it was queued, and what was added to it as a stream with an id. */
  function PutIn(ds: seq<Deed>, first: nat, k: nat): seq<Body> {
    if ds == [] then [] else
    PutIn(ds[..|ds| - 1], first, k) + NewItems(ds[..|ds| - 1], ds[|ds| - 1], first, k)
  }

  /** A request after what its user did to it in the queue. */
  function Grown(req: InternalRequest, items: seq<Body>, ended: bool): InternalRequest {
    match req
    case AskSender(b, q) => AskSender(b, Queue(items, q.open && !ended))
    case AskReceiver(b, open) => AskReceiver(b, open && !ended)
    case _ => req
  }

  /** The k-th request as it stands in the queue, or as it left it. */
  function Now(ds: seq<Deed>, first: nat, k: nat): InternalRequest
    requires k < |Enqueued(ds)|
  {
    Grown(Enqueued(ds)[k], PutIn(ds, first, k), EndedQueued(ds, k))
  }

  /** Only what is or was a stream in the queue has anything put into it. */
  predicate QuietElsewhere(ds: seq<Deed>, first: nat, k: nat) {
    && (k >= |Enqueued(ds)| ==> PutIn(ds, first, k) == [] && !EndedQueued(ds, k))
    && (Left(ds) <= k < |Enqueued(ds)| && !Enqueued(ds)[k].AskSender? ==> PutIn(ds, first, k) == [])
  }

  /** The queue holds the requests that have not left, in order. */
  ghost predicate QueueTold(h: State, ds: seq<Deed>, first: nat) {
    && |Enqueued(ds)| == Left(ds) + |h.requests|
    && (forall j :: 0 <= j < |h.requests| ==> h.requests[j] == Now(ds, first, Left(ds) + j))
    && (forall k: nat :: QuietElsewhere(ds, first, k))
  }

  lemma Snoc(ds: seq<Deed>, d: Deed)
    ensures (ds + [d])[..|ds + [d]| - 1] == ds && (ds + [d])[|ds + [d]| - 1] == d
  {
  }

  lemma OneMore(ds: seq<Deed>, d: Deed, first: nat, k: nat)
    ensures Enqueued(ds + [d]) == Enqueued(ds) + if d.Did? && d.action.Enqueue? then [d.action.req] else []
    ensures Left(ds + [d]) == Left(ds) + if d == Did(Emit(FromQueue)) then 1 else 0
    ensures EndedQueued(ds + [d], k) <==>
            EndedQueued(ds, k) || (d.Did? && d.action.EndQueued? && Left(ds) + d.action.at == k)
    ensures PutIn(ds + [d], first, k) == PutIn(ds, first, k) + NewItems(ds, d, first, k)
  {
    Snoc(ds, d);
  }

  /** What a deed does to the queue. */
  predicate QueueStep(reqs: seq<InternalRequest>, reqs': seq<InternalRequest>, d: Deed) {
    match d
    case Did(Enqueue(req)) => reqs' == reqs + [req]
    case Did(PushQueued(at, b)) =>
      at < |reqs| &&
      (match reqs[at]
       case AskSender(body, q) => reqs' == reqs[at := AskSender(body, Queue(q.items + [b], q.open))]
       case _ => false)
    case Did(EndQueued(at)) =>
      at < |reqs| &&
      (match reqs[at]
       case AskSender(body, q) => reqs' == reqs[at := AskSender(body, Queue(q.items, false))]
       case AskReceiver(body, _) => reqs' == reqs[at := AskReceiver(body, false)]
       case _ => false)
    case Did(Emit(FromQueue)) => reqs != [] && reqs' == reqs[1..]
    case _ => reqs' == reqs
  }

  lemma QuietKeeps(ds: seq<Deed>, reqs: seq<InternalRequest>, reqs': seq<InternalRequest>, d: Deed, first: nat, k: nat)
    requires QueueStep(reqs, reqs', d) && |Enqueued(ds)| == Left(ds) + |reqs| && QuietElsewhere(ds, first, k)
    requires forall j :: 0 <= j < |reqs| ==> reqs[j].AskSender? == Enqueued(ds)[Left(ds) + j].AskSender?
    ensures QuietElsewhere(ds + [d], first, k)
  {
    hide Enqueued, Left, EndedQueued, PutIn;
    OneMore(ds, d, first, k);
    match d {
      case Did(Enqueue(req)) =>
      case Did(PushQueued(at, _)) => assert reqs[at].AskSender? == Enqueued(ds)[Left(ds) + at].AskSender?;
      case Did(EndQueued(_)) =>
      case Did(Emit(_)) =>
      case Did(_) =>
      case _ =>
    }
  }

  /** What a deed makes of the j-th request in the queue. */
  function Touched(req: InternalRequest, d: Deed, j: nat): InternalRequest {
    match d
    case Did(PushQueued(at, b)) =>
      if at == j && req.AskSender? then req.(queue := Queue(req.queue.items + [b], req.queue.open)) else req
    case Did(EndQueued(at)) =>
      if at != j then req
      else if req.AskSender? then req.(queue := Queue(req.queue.items, false))
      else if req.AskReceiver? then req.(open := false)
      else req
    case _ => req
  }

  lemma NowNext(ds: seq<Deed>, d: Deed, first: nat, k: nat)
    requires Left(ds) <= k < |Enqueued(ds)|
    ensures k < |Enqueued(ds + [d])|
    ensures Now(ds + [d], first, k) == Touched(Now(ds, first, k), d, k - Left(ds))
  {
    hide Enqueued, Left, EndedQueued, PutIn;
    OneMore(ds, d, first, k);
  }

  lemma NewEntry(ds: seq<Deed>, req: InternalRequest, first: nat)
    requires QuietElsewhere(ds, first, |Enqueued(ds)|) && Left(ds) <= |Enqueued(ds)|
    ensures |Enqueued(ds + [Did(Enqueue(req))])| == |Enqueued(ds)| + 1
    ensures Now(ds + [Did(Enqueue(req))], first, |Enqueued(ds)|) == req
  {
    hide Enqueued, Left, EndedQueued, PutIn;
    OneMore(ds, Did(Enqueue(req)), first, |Enqueued(ds)|);
  }

  lemma EntryKeeps(ds: seq<Deed>, reqs: seq<InternalRequest>, reqs': seq<InternalRequest>, d: Deed, first: nat, j: nat)
    requires QueueStep(reqs, reqs', d) && |Enqueued(ds)| == Left(ds) + |reqs| && j < |reqs'|
    requires forall i :: 0 <= i < |reqs| ==> reqs[i] == Now(ds, first, Left(ds) + i)
    requires QuietElsewhere(ds, first, |Enqueued(ds)|)
    ensures |Enqueued(ds + [d])| == Left(ds + [d]) + |reqs'|
    ensures reqs'[j] == Now(ds + [d], first, Left(ds + [d]) + j)
  {
    hide Enqueued, Left, Now, QuietElsewhere;
    OneMore(ds, d, first, 0);
    if d == Did(Emit(FromQueue)) {
      assert reqs[j + 1] == Now(ds, first, Left(ds) + (j + 1));
      NowNext(ds, d, first, Left(ds) + j + 1);
    } else if j < |reqs| {
      assert reqs[j] == Now(ds, first, Left(ds) + j);
      NowNext(ds, d, first, Left(ds) + j);
    } else {
      NewEntry(ds, d.action.req, first);
    }
  }

  lemma QueueKeeps(h: State, h': State, ds: seq<Deed>, d: Deed, first: nat)
    requires QueueTold(h, ds, first) && QueueStep(h.requests, h'.requests, d)
    ensures QueueTold(h', ds + [d], first)
  {
    var all := ds + [d];
    hide Enqueued, Left, EndedQueued, PutIn, NewItems;
    assert |Enqueued(all)| == Left(all) + |h'.requests| by { OneMore(ds, d, first, 0); }
    assert QuietElsewhere(ds, first, |Enqueued(ds)|);
    forall j | 0 <= j < |h.requests| ensures h.requests[j].AskSender? == Enqueued(ds)[Left(ds) + j].AskSender? {
      assert h.requests[j] == Now(ds, first, Left(ds) + j);
    }
    hide QuietElsewhere, QueueStep, Now;
    forall k: nat ensures QuietElsewhere(all, first, k) {
      QuietKeeps(ds, h.requests, h'.requests, d, first, k);
    }
    forall j | 0 <= j < |h'.requests| ensures h'.requests[j] == Now(all, first, Left(all) + j) {
      EntryKeeps(ds, h.requests, h'.requests, d, first, j);
    }
  }

  // ---- ids ----------------------------------------------------------------------------------

  /** The packets that requests become. */
  predicate Opens(p: Packet) {
    p.kind.Asks() || p.kind.EnableServerRequests?
  }

  function Openings(q: seq<Packet>): seq<Packet> {
    if q == [] then [] else Openings(q[..|q| - 1]) + if Opens(q[|q| - 1]) then [q[|q| - 1]] else []
  }

  lemma OpeningsMore(q: seq<Packet>, out: seq<Packet>)
    requires |out| <= 1
    ensures Openings(q + out) == Openings(q) + Openings(out)
    ensures Openings(out) == if out != [] && Opens(out[0]) then out else []
  {
    if out == [] {
      assert q + out == q;
    } else {
      assert (q + out)[..|q|] == q && out[..0] == [];
    }
  }

  /** What a request is on the wire. */
  function Opening(req: InternalRequest, id: nat): Packet {
    match req
    case EnableServer => Packet(EnableServerRequests, id, EMPTY)
    case Ask(b) => Packet(Request, id, b)
    case AskSender(b, _) => Packet(RequestSender, id, b)
    case AskReceiver(b, _) => Packet(RequestReceiver, id, b)
  }

  /** The counter stands behind the ids handed out; as long as there are ids, every request that left has one. */
  predicate RoleTold(role: Role, first: nat, left: nat, issued: nat) {
    && issued <= left && first == (if role.Server() then U32_MID + 1 else 0)
    && (if role.CanSendRequests() then role.next.Some? ==> issued == left && role.next.value == first + issued else left == 0)
  }

  lemma RoleNext(role: Role, first: nat, left: nat, issued: nat)
    requires RoleTold(role, first, left, issued)
    ensures RoleTold(role.Enabled(), first, left, issued)
    ensures role.CanSendRequests() ==> RoleTold(role.Advanced(), first, left + 1, issued + if role.next.Some? then 1 else 0)
  {
  }

  /** These packets are the first requests, in order, under ids that follow each other. */
  predicate SentInOrder(gone: seq<Packet>, reqs: seq<InternalRequest>, first: nat) {
    |gone| <= |reqs| && forall k :: 0 <= k < |gone| ==> gone[k] == Opening(reqs[k], first + k)
  }

  lemma OrderStays(gone: seq<Packet>, reqs: seq<InternalRequest>, more: seq<InternalRequest>, first: nat)
    requires SentInOrder(gone, reqs, first)
    ensures SentInOrder(gone, reqs + more, first)
  {
    hide Opening;
  }

  lemma OrderGrows(gone: seq<Packet>, reqs: seq<InternalRequest>, first: nat)
    requires SentInOrder(gone, reqs, first) && |gone| < |reqs|
    ensures SentInOrder(gone + [Opening(reqs[|gone|], first + |gone|)], reqs, first)
  {
    hide Opening;
  }

  /** The requests sent are the first ones made, in order, under ids that follow each other. Only an endpoint that
      has run out of ids drops the others. */
  predicate IdsTold(role: Role, sent: seq<Packet>, ds: seq<Deed>, first: nat) {
    var gone := Openings(sent);
    RoleTold(role, first, Left(ds), |gone|) && |gone| <= Left(ds) <= |Enqueued(ds)| && SentInOrder(gone, Enqueued(ds), first)
  }

  /** What a deed does to the counter, and which request it sends. */
  predicate IdsStep(h: State, role: Role, out: seq<Packet>, d: Deed) {
    && |out| <= 1
    && if d == Did(Emit(FromQueue)) then
         && h.role.CanSendRequests() && h.requests != []
         && role == (if h.role.next.Some? && h.requests[0].EnableServer? then h.role.Advanced().Enabled() else h.role.Advanced())
         && out == (if h.role.next.Some? then [Opening(h.requests[0], h.role.next.value)] else [])
       else (role == h.role || role == h.role.Enabled()) && Openings(out) == []
  }

  lemma SameOpening(req: InternalRequest, items: seq<Body>, ended: bool, id: nat)
    ensures Opening(Grown(req, items, ended), id) == Opening(req, id) && Opens(Opening(req, id))
  {
  }

  lemma RoleSays(role: Role, first: nat, left: nat, issued: nat)
    requires RoleTold(role, first, left, issued) && role.CanSendRequests() && role.next.Some?
    ensures issued == left && role.next.value == first + issued
  {
  }

  /** The request that leaves is the next one made. */
  lemma NextOpening(h: State, ds: seq<Deed>, first: nat, id: nat)
    requires QueueTold(h, ds, first) && h.requests != []
    ensures Left(ds) < |Enqueued(ds)|
    ensures Opening(h.requests[0], id) == Opening(Enqueued(ds)[Left(ds)], id) && Opens(Opening(h.requests[0], id))
  {
    hide Enqueued, Left, QuietElsewhere, PutIn, EndedQueued;
    assert h.requests[0] == Now(ds, first, Left(ds) + 0);
    SameOpening(Enqueued(ds)[Left(ds)], PutIn(ds, first, Left(ds)), EndedQueued(ds, Left(ds)), id);
  }

  lemma RoleAfterStep(h: State, role: Role, out: seq<Packet>, d: Deed, first: nat, left: nat, issued: nat)
    requires RoleTold(h.role, first, left, issued) && IdsStep(h, role, out, d)
    ensures issued <= left && (d != Did(Emit(FromQueue)) ==> RoleTold(role, first, left, issued))
    ensures d == Did(Emit(FromQueue)) ==> RoleTold(role, first, left + 1, issued + if h.role.next.Some? then 1 else 0)
  {
    assert issued <= left;
    hide RoleTold, Openings;
    RoleNext(h.role, first, left, issued);
    if d == Did(Emit(FromQueue)) { RoleNext(h.role.Advanced(), first, left + 1, issued + if h.role.next.Some? then 1 else 0); }
  }

  lemma IdsStay(h: State, role: Role, sent: seq<Packet>, out: seq<Packet>, ds: seq<Deed>, d: Deed, first: nat)
    requires IdsTold(h.role, sent, ds, first) && IdsStep(h, role, out, d) && d != Did(Emit(FromQueue))
    ensures IdsTold(role, sent + out, ds + [d], first)
  {
    hide Enqueued, Left, Openings, RoleTold, SentInOrder;
    RoleAfterStep(h, role, out, d, first, Left(ds), |Openings(sent)|);
    OneMore(ds, d, first, 0);
    OpeningsMore(sent, out);
    assert Openings(sent) + [] == Openings(sent);
    OrderStays(Openings(sent), Enqueued(ds), if d.Did? && d.action.Enqueue? then [d.action.req] else [], first);
  }

  lemma IdsGrow(h: State, role: Role, sent: seq<Packet>, out: seq<Packet>, ds: seq<Deed>, first: nat)
    requires IdsTold(h.role, sent, ds, first) && QueueTold(h, ds, first) && IdsStep(h, role, out, Did(Emit(FromQueue)))
    ensures IdsTold(role, sent + out, ds + [Did(Emit(FromQueue))], first)
  {
    var d, gone := Did(Emit(FromQueue)), Openings(sent);
    hide Enqueued, Left, Openings, RoleTold, SentInOrder, QueueTold, Opening, Opens;
    RoleAfterStep(h, role, out, d, first, Left(ds), |gone|);
    OneMore(ds, d, first, 0);
    OpeningsMore(sent, out);
    NextOpening(h, ds, first, first + |gone|);
    assert Enqueued(ds) + [] == Enqueued(ds);
    if h.role.next.Some? {
      RoleSays(h.role, first, Left(ds), |gone|);
      OrderGrows(gone, Enqueued(ds), first);
    } else {
      assert gone + [] == gone;
    }
  }

  lemma IdsKeep(h: State, role: Role, sent: seq<Packet>, out: seq<Packet>, ds: seq<Deed>, d: Deed, first: nat)
    requires IdsTold(h.role, sent, ds, first) && QueueTold(h, ds, first) && IdsStep(h, role, out, d)
    ensures IdsTold(role, sent + out, ds + [d], first)
  {
    hide IdsTold, QueueTold, IdsStep;
    if d == Did(Emit(FromQueue)) { IdsGrow(h, role, sent, out, ds, first); } else { IdsStay(h, role, sent, out, ds, d, first); }
  }

  // ---- one id -------------------------------------------------------------------------------

  /** What the user answered. */
  function GivenBy(ds: seq<Deed>, i: nat): Option<Body> {
    if ds == [] then None else
    match ds[|ds| - 1]
    case Did(Answer(id, b)) => if id == i then Some(b) else GivenBy(ds[..|ds| - 1], i)
    case _ => GivenBy(ds[..|ds| - 1], i)
  }

  /** What the user put into a stream of this id. */
  function Pushes(ds: seq<Deed>, i: nat): seq<Body> {
    if ds == [] then [] else
    Pushes(ds[..|ds| - 1], i) +
    match ds[|ds| - 1]
    case Did(Push(id, b)) => if id == i then [b] else []
    case _ => []
  }

  /** The request of the peer that was taken in. */
  function SeenBy(ds: seq<Deed>, i: nat): Option<Question> {
    if ds == [] then None else
    match ds[|ds| - 1]
    case Took(p) => if p.kind.Asks() && p.id == i then Some(Question(p.kind, p.body)) else SeenBy(ds[..|ds| - 1], i)
    case _ => SeenBy(ds[..|ds| - 1], i)
  }

  /** A request of the peer came in that did not parse. */
  predicate RefusedBy(ds: seq<Deed>, i: nat) {
    ds != [] &&
    match ds[|ds| - 1]
    case Spoilt(p) => (p.kind.Asks() && p.id == i) || RefusedBy(ds[..|ds| - 1], i)
    case _ => RefusedBy(ds[..|ds| - 1], i)
  }

  /** The peer said that the stream is closed. */
  predicate ToldBy(ds: seq<Deed>, i: nat) {
    ds != [] &&
    match ds[|ds| - 1]
    case Took(p) => (p.kind.StreamClosed? && p.id == i) || ToldBy(ds[..|ds| - 1], i)
    case _ => ToldBy(ds[..|ds| - 1], i)
  }

  /** What the answer that came in says. */
  function ResultBy(ds: seq<Deed>, i: nat): Option<Verdict> {
    if ds == [] then None else
    match ds[|ds| - 1]
    case Took(p) => if VerdictOf(p).Some? && p.id == i then VerdictOf(p) else ResultBy(ds[..|ds| - 1], i)
    case Spoilt(p) => if p.kind.Response? && p.id == i then Some(GotBadResponse) else ResultBy(ds[..|ds| - 1], i)
    case _ => ResultBy(ds[..|ds| - 1], i)
  }

  /** The stream packets that came in, and whether each parsed. */
  function CameIn(ds: seq<Deed>, i: nat): seq<(Body, bool)> {
    if ds == [] then [] else
    CameIn(ds[..|ds| - 1], i) +
    match ds[|ds| - 1]
    case Took(p) => if p.kind.Stream? && p.id == i then [(p.body, true)] else []
    case Spoilt(p) => if p.kind.Stream? && p.id == i then [(p.body, false)] else []
    case _ => []
  }

  /** The user stopped listening before this request to send a stream was taken in. */
  predicate Unheard(ds: seq<Deed>, i: nat) {
    ds != [] &&
    match ds[|ds| - 1]
    case Took(p) =>
      || (p.kind.RequestSender? && p.id == i && Did(StopListening) in ds[..|ds| - 1])
      || Unheard(ds[..|ds| - 1], i)
    case _ => Unheard(ds[..|ds| - 1], i)
  }

  function QuestionOf(req: InternalRequest): Option<Question> {
    match req
    case EnableServer => None
    case Ask(b) => Some(Question(Request, b))
    case AskSender(b, _) => Some(Question(RequestSender, b))
    case AskReceiver(b, _) => Some(Question(RequestReceiver, b))
  }

  /** The request that got this id, if `issued` ids have been handed out. */
  function AskedBy(ds: seq<Deed>, first: nat, issued: nat, i: nat): Option<Question> {
    if first <= i < first + issued && i - first < |Enqueued(ds)| then QuestionOf(Enqueued(ds)[i - first]) else None
  }

  /** Nobody takes what comes in under this id: the user left the stream, did not wait for it, or stopped listening. */
  predicate Abandoned(ds: seq<Deed>, first: nat, i: nat, own: bool) {
    || Did(DropConsumer(i)) in ds
    || if own && first <= i < first + |Enqueued(ds)| then
         var req := Now(ds, first, i - first); req.AskReceiver? && !req.open
       else Unheard(ds, i)
  }

  function Marks(a: seq<Arrival>): seq<(Body, bool)> {
    seq(|a|, j requires 0 <= j < |a| => (a[j].body, !a[j].fate.Malformed?))
  }

  /** The part of an id's history that is about the user: its requests, its answers, what it put into streams, and
      whether it left. */
  predicate UserRecord(s: Slot, ds: seq<Deed>, first: nat, issued: nat, i: nat) {
    var own := s.asked.Some?;
    && s.asked == AskedBy(ds, first, issued, i) && s.given == GivenBy(ds, i)
    && s.pushed == (if own && first <= i then PutIn(ds, first, i - first) else Pushes(ds, i))
    && (s.dropped <==> Abandoned(ds, first, i, own))
  }

  /** The part that is about packets that came in. */
  predicate InRecord(s: Slot, ds: seq<Deed>, i: nat) {
    && s.seen == SeenBy(ds, i) && (s.refused <==> RefusedBy(ds, i))
    && s.result == ResultBy(ds, i) && (s.told <==> ToldBy(ds, i)) && Marks(s.arrivals) == CameIn(ds, i)
  }
}
