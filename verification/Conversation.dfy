/** The view of a connection through one id: what both endpoints hold for it and which of its packets are in
    flight. Every id is in one of a few shapes, and these shapes carry all safety properties. */
module Conversation {
  import opened Basics
  import opened Protocol

  /** Everything an endpoint knows about one id. */
  datatype Slot = Slot(
    wos: Option<StreamResponse>,
    wou: Option<UserResponse>,
    asked: Option<Question>,
    seen: Option<Question>,
    refused: bool,
    given: Option<Body>,
    result: Option<Verdict>,
    pushed: seq<Body>,
    arrivals: seq<Arrival>,
    told: bool,
    dropped: bool)

  function Find<T>(m: map<nat, T>, i: nat): Option<T> {
    if i in m then Some(m[i]) else None
  }

  function SlotOf(h: State, i: nat): Slot {
    Slot(Find(h.wos, i), Find(h.wou, i), Find(h.log.asked, i), Find(h.log.seen, i), i in h.log.refused,
         Find(h.log.given, i), Find(h.log.results, i), Get(h.log.pushed, i), Get(h.log.arrivals, i),
         i in h.log.told, i in h.log.dropped)
  }

  const UNUSED := Slot(None, None, None, None, false, None, None, [], [], false, false)

  // ---- the packets of one id ----------------------------------------------------------------

  predicate Belongs(p: Packet, i: nat) {
    p.kind.Threaded() && p.id == i
  }

  /** The packets of one id in a channel, in order. */
  function Thread(q: seq<Packet>, i: nat): (r: seq<Packet>)
    ensures forall k :: 0 <= k < |r| ==> Belongs(r[k], i)
  {
    if q == [] then [] else (if Belongs(q[0], i) then [q[0]] else []) + Thread(q[1..], i)
  }

  lemma {:induction false} ThreadOfConcat(a: seq<Packet>, b: seq<Packet>, i: nat)
    ensures Thread(a + b, i) == Thread(a, i) + Thread(b, i)
  {
    if a == [] {
      assert a + b == b;
    } else {
      assert (a + b)[1..] == a[1..] + b;
      ThreadOfConcat(a[1..], b, i);
    }
  }

  lemma ThreadOfOne(p: Packet, i: nat)
    ensures Thread([p], i) == if Belongs(p, i) then [p] else []
  {
    assert [p][1..] == [];
  }

  // ---- pieces -------------------------------------------------------------------------------

  function BodiesOf(t: seq<Packet>): seq<Body> {
    if t == [] then [] else (if t[0].kind.Stream? then [t[0].body] else []) + BodiesOf(t[1..])
  }

  function ArrivedBodies(a: seq<Arrival>): seq<Body> {
    if a == [] then [] else ArrivedBodies(a[..|a| - 1]) + [a[|a| - 1].body]
  }

  function Queued(s: Slot): seq<Body> {
    match s.wou
    case Some(Sending(q)) => q.items
    case _ => []
  }

  /** Stream packets, and after them at most one packet that closes the stream. */
  predicate DataThread(t: seq<Packet>) {
    forall k :: 0 <= k < |t| ==> if k < |t| - 1 then t[k].kind.Stream? else t[k].kind.Stream? || t[k].kind.StreamClosed?
  }

  predicate EndsClosed(t: seq<Packet>) {
    t != [] && t[|t| - 1].kind.StreamClosed?
  }

  predicate OnlyClosed(t: seq<Packet>) {
    forall k :: 0 <= k < |t| ==> t[k].kind.StreamClosed?
  }

  // ---- a request and its answer -------------------------------------------------------------

  /** Nothing of a stream in this slot. */
  predicate NoStream(s: Slot) {
    s.pushed == [] && s.arrivals == [] && !s.told && !s.dropped
  }

  /** The asker still waits. Only an asker that is closing may have forgotten. */
  predicate StillWaits(a: Slot, running: bool) {
    a.result.None? && (a.wos.None? || a.wos.value.Awaiting?) && (running ==> a.wos.Some?)
  }

  /** What the answering user did, against what the verdict says. */
  predicate Truthful(v: Verdict, a: Slot, b: Slot) {
    match v
    case Got(x) => b.given == Some(x) && b.seen == a.asked
    case GotNoResponse => b.given.None? && b.seen == a.asked
    case GotMalformed => b.refused && b.given.None? && b.seen.None?
    case GotBadResponse => b.given.Some? && b.seen == a.asked
  }

  /** The verdict a packet will bring when it is parsed. */
  function VerdictOf(p: Packet): Option<Verdict> {
    match p.kind
    case Response => Some(Got(p.body))
    case NoResponse => Some(GotNoResponse)
    case MalformedRequest => Some(GotMalformed)
    case _ => None
  }

  /** The four stations of a request: in flight, with the peer's user, its answer in flight, resolved. */
  datatype Station = Going | Pending | Coming | Resolved

  predicate RequestAt(a: Slot, b: Slot, ab: seq<Packet>, ba: seq<Packet>, i: nat, running: bool, st: Station) {
    && a.asked.Some? && a.asked.value.kind.Request?
    && a.seen.None? && b.asked.None? && a.wou.None? && b.wos.None? && a.given.None? && b.result.None? && !a.refused
    && NoStream(a) && NoStream(b)
    && match st
       case Going =>
         && ab == [Packet(Request, i, a.asked.value.body)] && ba == []
         && b.wou.None? && b.seen.None? && b.given.None? && !b.refused && StillWaits(a, running)
       case Pending =>
         && ab == [] && ba == [] && b.seen == a.asked && !b.refused && StillWaits(a, running)
         && b.wou.Some? && b.wou.value.Answering?
         && b.given == (match b.wou.value.reply case Answered(x) => Some(x) case _ => None)
       case Coming =>
         && ab == [] && |ba| == 1 && b.wou.None? && StillWaits(a, running)
         && VerdictOf(ba[0]).Some? && Truthful(VerdictOf(ba[0]).value, a, b)
       case Resolved =>
         && ab == [] && ba == [] && b.wou.None? && a.wos.None? && a.result.Some? && Truthful(a.result.value, a, b)
  }

  predicate RequestShape(a: Slot, b: Slot, ab: seq<Packet>, ba: seq<Packet>, i: nat, running: bool) {
    || RequestAt(a, b, ab, ba, i, running, Going)
    || RequestAt(a, b, ab, ba, i, running, Pending)
    || RequestAt(a, b, ab, ba, i, running, Coming)
    || RequestAt(a, b, ab, ba, i, running, Resolved)
  }

  // ---- a stream from producer p to consumer c -----------------------------------------------

  /** The consumer turned packets away only after its user left, or because it never understood the request. */
  predicate FatesOk(c: Slot) {
    forall k :: 0 <= k < |c.arrivals| && c.arrivals[k].fate.Rejected? ==> c.dropped || c.refused
  }

  /** Conservation: what arrived, what is in flight and what is queued is what the user pushed, in order;
      the packet that closes the stream is the last one and leaves only when the queue is empty. */
  predicate Flow(p: Slot, c: Slot, data: seq<Packet>) {
    && DataThread(data)
    && (p.wou.Some? ==> p.wou.value.Sending? && !EndsClosed(data) && !c.told)
    && (p.wou.None? ==> EndsClosed(data) || c.told)
    && (c.told ==> data == [])
    && ArrivedBodies(c.arrivals) + BodiesOf(data) + Queued(p) == p.pushed
    && FatesOk(c)
  }

  predicate ConsumerTable(c: Slot) {
    c.wos.Some? ==> c.wos.value.Receiving? && c.wos.value.open != c.dropped
  }

  /** A producer that was told to stop takes nothing more from its user. */
  predicate ProducerTable(p: Slot) {
    match p.wou
    case Some(Sending(q)) => p.told ==> !q.open
    case _ => true
  }

  /** No part of a request in either slot, and each slot only in its role. */
  predicate StreamSlots(p: Slot, c: Slot) {
    && p.wos.None? && c.wou.None? && p.given.None? && c.given.None? && p.result.None? && c.result.None?
    && p.arrivals == [] && c.pushed == [] && !p.dropped && ConsumerTable(c) && ProducerTable(p)
  }

  /** A stream the producer asked to send. Data may follow the request at once. */
  predicate SenderShape(p: Slot, c: Slot, pc: seq<Packet>, cp: seq<Packet>, i: nat, cRunning: bool, begun: bool) {
    && p.asked.Some? && p.asked.value.kind.RequestSender? && c.asked.None? && p.seen.None? && !p.refused
    && StreamSlots(p, c)
    && if begun then
         && c.refused == c.seen.None? && (c.seen.Some? ==> c.seen == p.asked)
         && OnlyClosed(cp) && Flow(p, c, pc)
         && (cRunning ==> (c.wos.Some? <==> c.seen.Some? && !c.told))
       else
         && pc != [] && pc[0] == Packet(RequestSender, i, p.asked.value.body) && cp == []
         && c.seen.None? && !c.refused && c.wos.None? && c.arrivals == [] && !c.told && !c.dropped
         && Flow(p, c, pc[1..])
  }

  /** A stream the consumer asked to receive. */
  predicate ReceiverShape(p: Slot, c: Slot, pc: seq<Packet>, cp: seq<Packet>, i: nat, cRunning: bool, begun: bool) {
    && c.asked.Some? && c.asked.value.kind.RequestReceiver? && p.asked.None? && c.seen.None? && !c.refused
    && StreamSlots(p, c)
    && (cRunning ==> (c.wos.Some? <==> !c.told))
    && if begun then
         && p.refused == p.seen.None? && (p.seen.Some? ==> p.seen == c.asked) && (p.refused ==> p.pushed == [] && p.wou.None?)
         && OnlyClosed(cp) && Flow(p, c, pc)
       else
         && cp == [Packet(RequestReceiver, i, c.asked.value.body)] && pc == []
         && p.seen.None? && !p.refused && p.wou.None? && p.pushed == [] && !p.told && c.arrivals == [] && !c.told
  }

  // ---- all shapes ---------------------------------------------------------------------------

  predicate Unused(x: Slot, y: Slot, xy: seq<Packet>, yx: seq<Packet>) {
    x == UNUSED && y == UNUSED && xy == [] && yx == []
  }

  /** The conversation x opened. */
  predicate Opened(x: Slot, y: Slot, xy: seq<Packet>, yx: seq<Packet>, i: nat, xRuns: bool, yRuns: bool) {
    || RequestShape(x, y, xy, yx, i, xRuns)
    || SenderShape(x, y, xy, yx, i, yRuns, false) || SenderShape(x, y, xy, yx, i, yRuns, true)
    || ReceiverShape(y, x, yx, xy, i, xRuns, false) || ReceiverShape(y, x, yx, xy, i, xRuns, true)
  }

  predicate Shaped(x: Slot, y: Slot, xy: seq<Packet>, yx: seq<Packet>, i: nat, xRuns: bool, yRuns: bool) {
    || Unused(x, y, xy, yx)
    || Opened(x, y, xy, yx, i, xRuns, yRuns)
    || Opened(y, x, yx, xy, i, yRuns, xRuns)
  }

  lemma ShapedFlips(x: Slot, y: Slot, xy: seq<Packet>, yx: seq<Packet>, i: nat, xRuns: bool, yRuns: bool)
    ensures Shaped(x, y, xy, yx, i, xRuns, yRuns) == Shaped(y, x, yx, xy, i, yRuns, xRuns)
  {
  }

  lemma NobodyAsked(x: Slot, y: Slot, xy: seq<Packet>, yx: seq<Packet>, i: nat, xRuns: bool, yRuns: bool)
    requires Shaped(x, y, xy, yx, i, xRuns, yRuns) && x.asked.None? && y.asked.None?
    ensures Unused(x, y, xy, yx)
  {
  }
}
