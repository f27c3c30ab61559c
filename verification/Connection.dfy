/** A whole connection: client, server and the two channels between them, from the first packet to the last.
    The theorems are about every run. */
module Connection {
  import opened Basics
  import opened Protocol
  import opened Conversation
  import opened ConversationSteps
  import opened Peers
  import opened History

  datatype Side = Client | Server {
    function Other(): Side {
      if Client? then Server else Client
    }
  }

  /** Both endpoints, the packets in flight, and all packets ever sent. */
  datatype Net = Net(client: Peer, server: Peer, toServer: seq<Packet>, toClient: seq<Packet>,
                     clientSent: seq<Packet>, serverSent: seq<Packet>)
  {
    function Of(s: Side): Peer {
      if s.Client? then client else server
    }

    function To(s: Side): seq<Packet> {
      if s.Client? then toClient else toServer
    }

    function SentBy(s: Side): seq<Packet> {
      if s.Client? then clientSent else serverSent
    }

    /** After side s took a turn. */
    function Moved(s: Side, x: Peer, inbox: seq<Packet>, out: seq<Packet>): Net {
      if s.Client? then this.(client := x, toClient := inbox, toServer := toServer + out, clientSent := clientSent + out)
      else this.(server := x, toServer := inbox, toClient := toClient + out, serverSent := serverSent + out)
    }
  }

  datatype Move = Move(who: Side, action: Action)

  /** A connection, or why there is none: a move that was not possible, or an endpoint that failed. A failure
      without an error is one of the handler's own assertions. */
  datatype Played = At(net: Net) | Impossible | Broken(who: Side, error: Option<TaskError>)

  const START := Net(Peer(New(false), Running), Peer(New(true), Running), [], [], [], [])

  predicate Possible(n: Net, m: Move) {
    Able(n.Of(m.who), n.To(m.who), m.action)
  }

  function Do(n: Net, m: Move): Played
    requires Possible(n, m)
  {
    match Turn(n.Of(m.who), n.To(m.who), m.action)
    case Moved(x, inbox, out) => At(n.Moved(m.who, x, inbox, out))
    case Fault(e) => Broken(m.who, e)
  }

  /** Where a run of moves leads from the start of a connection. */
  function Play(ms: seq<Move>): Played {
    if ms == [] then At(START) else
    match Play(ms[..|ms| - 1])
    case At(n) => if Possible(n, ms[|ms| - 1]) then Do(n, ms[|ms| - 1]) else Impossible
    case p => p
  }

  /** In this run server requests are enabled only before the client has used an id above the middle. */
  predicate Scoped(ms: seq<Move>) {
    ms != [] ==>
      && Scoped(ms[..|ms| - 1])
      && match Play(ms[..|ms| - 1])
         case At(n) => InScope(n.Of(ms[|ms| - 1].who), ms[|ms| - 1].action)
         case _ => true
  }

  ghost predicate NetInv(n: Net) {
    Inv(n.client, n.server, n.toServer, n.toClient) && !n.client.h.role.Server()
  }

  lemma InvOf(n: Net, s: Side)
    requires NetInv(n)
    ensures Inv(n.Of(s), n.Of(s.Other()), n.To(s.Other()), n.To(s))
  {
    InvFlips(n.client, n.server, n.toServer, n.toClient);
  }

  lemma SidesDiffer(x: Peer, y: Peer, xy: seq<Packet>, yx: seq<Packet>)
    requires Inv(x, y, xy, yx)
    ensures x.h.role.Server() != y.h.role.Server()
  {
  }

  lemma DoKeeps(n: Net, m: Move)
    requires NetInv(n) && Possible(n, m) && InScope(n.Of(m.who), m.action)
    ensures Do(n, m).At? && NetInv(Do(n, m).net)
  {
    hide Inv, Turn, Able;
    InvOf(n, m.who);
    TurnKeeps(n.Of(m.who), n.Of(m.who.Other()), n.To(m.who.Other()), n.To(m.who), m.action);
    var n' := Do(n, m).net;
    SidesDiffer(n.Of(m.who), n.Of(m.who.Other()), n.To(m.who.Other()), n.To(m.who));
    SidesDiffer(n'.Of(m.who), n'.Of(m.who.Other()), n'.To(m.who.Other()), n'.To(m.who));
    if m.who.Server? { InvFlips(n'.server, n'.client, n'.toClient, n'.toServer); }
  }

  /** Between conforming endpoints nothing ever fails: no packet is refused as a protocol error, and the
      handler's own checks for duplicate ids never fire. The invariant holds at the end of every run. */
  lemma {:induction false} NeverBroken(ms: seq<Move>)
    requires Scoped(ms)
    ensures !Play(ms).Broken?
    ensures Play(ms).At? ==> NetInv(Play(ms).net)
  {
    if ms == [] {
      InvStarts();
    } else {
      NeverBroken(ms[..|ms| - 1]);
      hide NetInv, Do, Possible, InScope;
      match Play(ms[..|ms| - 1])
      case At(n) => if Possible(n, ms[|ms| - 1]) { DoKeeps(n, ms[|ms| - 1]); }
      case _ =>
    }
  }

  /** The states of the theorems below: everything a scoped run can reach. */
  ghost predicate Reached(n: Net, ms: seq<Move>) {
    Scoped(ms) && Play(ms) == At(n)
  }

  lemma ShapeAt(n: Net, ms: seq<Move>, s: Side, i: nat)
    requires Reached(n, ms)
    ensures ShapedAt(n.Of(s), n.Of(s.Other()), n.To(s.Other()), n.To(s), i)
    ensures Common(n.Of(s), n.Of(s.Other()), n.To(s.Other()), n.To(s))
  {
    NeverBroken(ms);
    InvOf(n, s);
    hide Common, ShapedAt;
  }

  // ---- requests -----------------------------------------------------------------------------

  predicate Answers(k: Kind) {
    k.Response? || k.NoResponse? || k.MalformedRequest?
  }

  /** How many requests, or answers, with this id are in a channel. */
  function Count(q: seq<Packet>, i: nat, answers: bool): nat {
    if q == [] then 0 else
    (if q[0].id == i && (if answers then Answers(q[0].kind) else q[0].kind.Request?) then 1 else 0) + Count(q[1..], i, answers)
  }

  lemma {:induction false} CountThread(q: seq<Packet>, i: nat, answers: bool)
    ensures Count(q, i, answers) == Count(Thread(q, i), i, answers)
  {
    if q != [] {
      CountThread(q[1..], i, answers);
      if Belongs(q[0], i) {
        assert Thread(q, i)[1..] == Thread(q[1..], i);
      } else {
        assert Thread(q, i) == Thread(q[1..], i);
      }
    }
  }

  predicate Waits(x: Peer, i: nat) {
    i in x.h.wos && x.h.wos[i].Awaiting?
  }

  predicate Owes(x: Peer, i: nat) {
    i in x.h.wou && x.h.wou[i].Answering?
  }

  function One(b: bool): nat {
    if b then 1 else 0
  }

  /** Where the requests of side s with this id are. */
  function Tokens(n: Net, s: Side, i: nat): nat {
    Count(n.To(s.Other()), i, false) + One(Owes(n.Of(s.Other()), i)) + Count(n.To(s), i, true)
  }

  /** The tokens of one conversation. */
  function SlotTokens(b: Slot, ab: seq<Packet>, ba: seq<Packet>, i: nat): nat {
    Count(ab, i, false) + One(b.wou.Some? && b.wou.value.Answering?) + Count(ba, i, true)
  }

  predicate AllOf(t: seq<Packet>, i: nat) {
    forall k :: 0 <= k < |t| ==> t[k].id == i
  }

  lemma CountOne(p: Packet, i: nat, answers: bool)
    ensures Count([p], i, answers) == One(p.id == i && if answers then Answers(p.kind) else p.kind.Request?)
  {
    assert [p][1..] == [];
  }

  lemma StationTokens(a: Slot, b: Slot, ab: seq<Packet>, ba: seq<Packet>, i: nat, ar: bool, st: Station)
    requires RequestAt(a, b, ab, ba, i, ar, st) && AllOf(ba, i)
    ensures SlotTokens(b, ab, ba, i) == if st.Resolved? then 0 else 1
    ensures SlotTokens(a, ba, ab, i) == 0
    ensures ar ==> SlotTokens(b, ab, ba, i) == One(a.wos == Some(Awaiting))
    ensures b.wos != Some(Awaiting)
  {
    hide Truthful;
    match st
    case Going =>
      CountOne(ab[0], i, false);
      CountOne(ab[0], i, true);
    case Coming =>
      assert ba == [ba[0]];
      CountOne(ba[0], i, false);
      CountOne(ba[0], i, true);
    case _ =>
  }

  lemma NoRequestTokens(a: Slot, b: Slot, ab: seq<Packet>, ba: seq<Packet>, i: nat)
    requires (a.wou.Some? ==> a.wou.value.Sending?) && (b.wou.Some? ==> b.wou.value.Sending?)
    requires forall k :: 0 <= k < |ab| ==> !Answers(ab[k].kind) && !ab[k].kind.Request?
    requires forall k :: 0 <= k < |ba| ==> !Answers(ba[k].kind) && !ba[k].kind.Request?
    ensures SlotTokens(b, ab, ba, i) == SlotTokens(a, ba, ab, i) == 0
  {
    NoTokens(ab, i, false);
    NoTokens(ba, i, false);
    NoTokens(ab, i, true);
    NoTokens(ba, i, true);
  }

  lemma SenderTokens(p: Slot, c: Slot, pc: seq<Packet>, cp: seq<Packet>, i: nat, cr: bool, begun: bool)
    requires SenderShape(p, c, pc, cp, i, cr, begun)
    ensures SlotTokens(c, pc, cp, i) == SlotTokens(p, cp, pc, i) == 0
    ensures p.wos != Some(Awaiting) && c.wos != Some(Awaiting)
  {
    NoRequestTokens(p, c, pc, cp, i);
  }

  lemma ReceiverTokens(p: Slot, c: Slot, pc: seq<Packet>, cp: seq<Packet>, i: nat, cr: bool, begun: bool)
    requires ReceiverShape(p, c, pc, cp, i, cr, begun)
    ensures SlotTokens(c, pc, cp, i) == SlotTokens(p, cp, pc, i) == 0
    ensures p.wos != Some(Awaiting) && c.wos != Some(Awaiting)
  {
    NoRequestTokens(p, c, pc, cp, i);
  }

  lemma OpenedTokens(a: Slot, b: Slot, ab: seq<Packet>, ba: seq<Packet>, i: nat, ar: bool, br: bool)
    requires Opened(a, b, ab, ba, i, ar, br) && AllOf(ba, i)
    ensures SlotTokens(b, ab, ba, i) <= 1 && SlotTokens(a, ba, ab, i) == 0
    ensures ar ==> SlotTokens(b, ab, ba, i) == One(a.wos == Some(Awaiting))
    ensures b.wos != Some(Awaiting)
  {
    hide SlotTokens, RequestAt, SenderShape, ReceiverShape;
    if RequestShape(a, b, ab, ba, i, ar) {
      var st :| RequestAt(a, b, ab, ba, i, ar, st);
      StationTokens(a, b, ab, ba, i, ar, st);
    } else if SenderShape(a, b, ab, ba, i, br, false) {
      SenderTokens(a, b, ab, ba, i, br, false);
    } else if SenderShape(a, b, ab, ba, i, br, true) {
      SenderTokens(a, b, ab, ba, i, br, true);
    } else if ReceiverShape(b, a, ba, ab, i, ar, false) {
      ReceiverTokens(b, a, ba, ab, i, ar, false);
    } else {
      ReceiverTokens(b, a, ba, ab, i, ar, true);
    }
  }

  lemma ShapeTokens(a: Slot, b: Slot, ab: seq<Packet>, ba: seq<Packet>, i: nat, ar: bool, br: bool)
    requires Shaped(a, b, ab, ba, i, ar, br) && AllOf(ab, i) && AllOf(ba, i)
    ensures SlotTokens(b, ab, ba, i) <= 1
    ensures ar ==> SlotTokens(b, ab, ba, i) == One(a.wos == Some(Awaiting))
  {
    if Opened(a, b, ab, ba, i, ar, br) {
      OpenedTokens(a, b, ab, ba, i, ar, br);
    } else if Opened(b, a, ba, ab, i, br, ar) {
      OpenedTokens(b, a, ba, ab, i, br, ar);
    }
    hide Opened;
  }

  lemma {:induction false} NoTokens(t: seq<Packet>, i: nat, answers: bool)
    requires forall k :: 0 <= k < |t| ==> !(if answers then Answers(t[k].kind) else t[k].kind.Request?)
    ensures Count(t, i, answers) == 0
  {
    if t != [] { NoTokens(t[1..], i, answers); }
  }

  /** Conservation of requests: a request somebody waits for is in exactly one place, and there is none that
      nobody waits for. Once the asker closes there is still at most one. */
  lemma RequestsConserved(n: Net, ms: seq<Move>, s: Side, i: nat)
    requires Reached(n, ms)
    ensures Tokens(n, s, i) <= 1
    ensures n.Of(s).phase.Running? ==> Tokens(n, s, i) == One(Waits(n.Of(s), i))
  {
    ShapeAt(n, ms, s, i);
    var x, y, xy, yx := n.Of(s), n.Of(s.Other()), n.To(s.Other()), n.To(s);
    CountThread(xy, i, false);
    CountThread(yx, i, true);
    hide Shaped, Count, Thread;
    ShapeTokens(SlotOf(x.h, i), SlotOf(y.h, i), Thread(xy, i), Thread(yx, i), i, x.phase.Running?, y.phase.Running?);
  }

  /** Routing: whatever the requester is told comes from what the other side did with this very request. */
  lemma AnswersAreTrue(n: Net, ms: seq<Move>, s: Side, i: nat)
    requires Reached(n, ms) && i in n.Of(s).h.log.results
    ensures var a, b := n.Of(s).h.log, n.Of(s.Other()).h.log;
      && i in a.asked && a.asked[i].kind.Request?
      && match a.results[i]
         case Got(x) => i in b.given && b.given[i] == x && i in b.seen && b.seen[i] == a.asked[i]
         case GotNoResponse => i !in b.given && i in b.seen && b.seen[i] == a.asked[i]
         case GotMalformed => i !in b.seen && i !in b.given && i in b.refused
         case GotBadResponse => i in b.given && i in b.seen && b.seen[i] == a.asked[i]
  {
    ShapeAt(n, ms, s, i);
    var x, y := SlotOf(n.Of(s).h, i), SlotOf(n.Of(s.Other()).h, i);
    hide Common;
    ShapeVerdict(x, y, Thread(n.To(s.Other()), i), Thread(n.To(s), i), i, n.Of(s).phase.Running?, n.Of(s.Other()).phase.Running?);
    hide Shaped;
  }

  lemma ShapeVerdict(a: Slot, b: Slot, ab: seq<Packet>, ba: seq<Packet>, i: nat, ar: bool, br: bool)
    requires Shaped(a, b, ab, ba, i, ar, br) && a.result.Some?
    ensures a.asked.Some? && a.asked.value.kind.Request? && Truthful(a.result.value, a, b)
  {
  }

  lemma DoGrows(n: Net, m: Move, s: Side, i: nat)
    requires NetInv(n) && Possible(n, m) && Do(n, m).At?
    ensures Grows(SlotOf(n.Of(s).h, i), SlotOf(Do(n, m).net.Of(s).h, i))
  {
    hide SlotOf, Inv, Turn, Able;
    if m.who == s {
      InvOf(n, s);
      TurnGrows(n.Of(s), n.Of(s.Other()), n.To(s.Other()), n.To(s), m.action, i);
    }
  }

  /** What is over stays over: in every continuation of a run, all that the histories hold stays as it is. So a
      requester is told one verdict only, a user answers only once, and no id is ever used for a second
      request. */
  lemma {:induction false} HistoryIsFinal(n: Net, ms: seq<Move>, n': Net, more: seq<Move>, s: Side, i: nat)
    requires Reached(n, ms) && Reached(n', ms + more)
    ensures Grows(SlotOf(n.Of(s).h, i), SlotOf(n'.Of(s).h, i))
    decreases |more|
  {
    hide Reached, Do, Possible, SlotOf, NetInv, Grows;
    if more == [] {
      assert ms + more == ms;
      SameEnd(n, n', ms);
      GrowsTrans(SlotOf(n.Of(s).h, i), SlotOf(n.Of(s).h, i), SlotOf(n'.Of(s).h, i));
    } else {
      var all, last, less := ms + more, more[|more| - 1], more[..|more| - 1];
      assert all[..|all| - 1] == ms + less && all[|all| - 1] == last;
      var mid := LastStep(n', all);
      HistoryIsFinal(n, ms, mid, less, s, i);
      DoGrows(mid, last, s, i);
      GrowsTrans(SlotOf(n.Of(s).h, i), SlotOf(mid.Of(s).h, i), SlotOf(n'.Of(s).h, i));
    }
  }

  lemma SameEnd(n: Net, n': Net, ms: seq<Move>)
    requires Reached(n, ms) && Reached(n', ms)
    ensures n == n'
  {
  }

  /** The last step of a run. */
  lemma LastStep(n: Net, ms: seq<Move>) returns (before: Net)
    requires Reached(n, ms) && ms != []
    ensures Reached(before, ms[..|ms| - 1]) && NetInv(before)
    ensures Possible(before, ms[|ms| - 1]) && Do(before, ms[|ms| - 1]) == At(n)
  {
    before := Play(ms[..|ms| - 1]).net;
    NeverBroken(ms[..|ms| - 1]);
  }

  // ---- streams ------------------------------------------------------------------------------

  function QueuedAt(x: Peer, i: nat): seq<Body> {
    if i in x.h.wou && x.h.wou[i].Sending? then x.h.wou[i].queue.items else []
  }

  /** The bodies of the stream packets with this id, in order. */
  function InFlight(q: seq<Packet>, i: nat): seq<Body> {
    if q == [] then [] else (if q[0].kind.Stream? && q[0].id == i then [q[0].body] else []) + InFlight(q[1..], i)
  }

  lemma {:induction false} InFlightThread(q: seq<Packet>, i: nat)
    ensures InFlight(q, i) == BodiesOf(Thread(q, i))
  {
    if q != [] {
      InFlightThread(q[1..], i);
      if Belongs(q[0], i) {
        assert Thread(q, i)[1..] == Thread(q[1..], i);
      } else {
        assert Thread(q, i) == Thread(q[1..], i);
      }
    }
  }

  lemma {:induction false} NoBodies(t: seq<Packet>)
    requires forall k :: 0 <= k < |t| ==> !t[k].kind.Stream?
    ensures BodiesOf(t) == []
  {
    if t != [] { NoBodies(t[1..]); }
  }

  predicate FlowsBoth(p: Slot, c: Slot, pc: seq<Packet>, cp: seq<Packet>) {
    && ArrivedBodies(c.arrivals) + BodiesOf(pc) + Queued(p) == p.pushed
    && ArrivedBodies(p.arrivals) + BodiesOf(cp) + Queued(c) == c.pushed
  }

  lemma RequestFlow(a: Slot, b: Slot, ab: seq<Packet>, ba: seq<Packet>, i: nat, ar: bool)
    requires RequestShape(a, b, ab, ba, i, ar)
    ensures FlowsBoth(a, b, ab, ba)
  {
    NoBodies(ab);
    NoBodies(ba);
  }

  lemma SenderFlow(p: Slot, c: Slot, pc: seq<Packet>, cp: seq<Packet>, i: nat, cr: bool, begun: bool)
    requires SenderShape(p, c, pc, cp, i, cr, begun)
    ensures FlowsBoth(p, c, pc, cp)
  {
    NoBodies(cp);
  }

  lemma ReceiverFlow(p: Slot, c: Slot, pc: seq<Packet>, cp: seq<Packet>, i: nat, cr: bool, begun: bool)
    requires ReceiverShape(p, c, pc, cp, i, cr, begun)
    ensures FlowsBoth(p, c, pc, cp)
  {
    NoBodies(cp);
  }

  lemma OpenedFlow(a: Slot, b: Slot, ab: seq<Packet>, ba: seq<Packet>, i: nat, ar: bool, br: bool)
    requires Opened(a, b, ab, ba, i, ar, br)
    ensures FlowsBoth(a, b, ab, ba)
  {
    hide RequestShape, SenderShape, ReceiverShape;
    if RequestShape(a, b, ab, ba, i, ar) {
      RequestFlow(a, b, ab, ba, i, ar);
    } else if SenderShape(a, b, ab, ba, i, br, false) {
      SenderFlow(a, b, ab, ba, i, br, false);
    } else if SenderShape(a, b, ab, ba, i, br, true) {
      SenderFlow(a, b, ab, ba, i, br, true);
    } else if ReceiverShape(b, a, ba, ab, i, ar, false) {
      ReceiverFlow(b, a, ba, ab, i, ar, false);
    } else {
      ReceiverFlow(b, a, ba, ab, i, ar, true);
    }
  }

  lemma ShapeFlow(p: Slot, c: Slot, pc: seq<Packet>, cp: seq<Packet>, i: nat, pr: bool, cr: bool)
    requires Shaped(p, c, pc, cp, i, pr, cr)
    ensures FlowsBoth(p, c, pc, cp)
  {
    if Opened(p, c, pc, cp, i, pr, cr) {
      OpenedFlow(p, c, pc, cp, i, pr, cr);
    } else if Opened(c, p, cp, pc, i, cr, pr) {
      OpenedFlow(c, p, cp, pc, i, cr, pr);
    }
    hide Opened;
  }

  /** Conservation of streams: for every id and both directions, what arrived, then what is in flight, then what
      is queued at the sender is what the sending user put in, in order. */
  lemma StreamsConserved(n: Net, ms: seq<Move>, s: Side, i: nat)
    requires Reached(n, ms)
    ensures var x, y := n.Of(s), n.Of(s.Other());
      ArrivedBodies(Get(y.h.log.arrivals, i)) + InFlight(n.To(s.Other()), i) + QueuedAt(x, i) == Get(x.h.log.pushed, i)
  {
    ShapeAt(n, ms, s, i);
    var x, y, xy, yx := n.Of(s), n.Of(s.Other()), n.To(s.Other()), n.To(s);
    hide Common;
    ShapeFlow(SlotOf(x.h, i), SlotOf(y.h, i), Thread(xy, i), Thread(yx, i), i, x.phase.Running?, y.phase.Running?);
    hide Shaped;
    InFlightThread(xy, i);
  }

  /** The side that takes in the stream of this id. */
  predicate Consumes(c: Peer, p: Peer, i: nat) {
    || (i in c.h.log.asked && c.h.log.asked[i].kind.RequestReceiver?)
    || (i in p.h.log.asked && p.h.log.asked[i].kind.RequestSender?)
  }

  function Delivered(a: seq<Arrival>): seq<Body> {
    if a == [] then [] else
    Delivered(a[..|a| - 1]) + (if a[|a| - 1].fate.Delivered? then [a[|a| - 1].body] else [])
  }

  lemma {:induction false} AllDelivered(a: seq<Arrival>)
    requires forall k :: 0 <= k < |a| ==> a[k].fate.Delivered?
    ensures Delivered(a) == ArrivedBodies(a)
  {
    if a != [] { AllDelivered(a[..|a| - 1]); }
  }

  predicate Served(c: Slot, p: Slot, pc: seq<Packet>) {
    FatesOk(c) && (c.told ==> BodiesOf(pc) == [] && Queued(p) == [])
  }

  lemma SenderServes(p: Slot, c: Slot, pc: seq<Packet>, cp: seq<Packet>, i: nat, cr: bool, begun: bool)
    requires SenderShape(p, c, pc, cp, i, cr, begun)
    ensures Served(c, p, pc)
  {
  }

  lemma ReceiverServes(p: Slot, c: Slot, pc: seq<Packet>, cp: seq<Packet>, i: nat, cr: bool, begun: bool)
    requires ReceiverShape(p, c, pc, cp, i, cr, begun)
    ensures Served(c, p, pc)
  {
  }

  /** Whoever asked, the consumer of a stream is in one of two shapes. */
  lemma ConsumerShapes(c: Slot, p: Slot, cp: seq<Packet>, pc: seq<Packet>, i: nat, cr: bool, pr: bool)
    requires Shaped(c, p, cp, pc, i, cr, pr)
    requires || (c.asked.Some? && c.asked.value.kind.RequestReceiver?)
             || (p.asked.Some? && p.asked.value.kind.RequestSender?)
    ensures exists begun :: SenderShape(p, c, pc, cp, i, cr, begun) || ReceiverShape(p, c, pc, cp, i, cr, begun)
  {
    hide Flow;
    assert SenderShape(p, c, pc, cp, i, cr, false) || SenderShape(p, c, pc, cp, i, cr, true) ||
           ReceiverShape(p, c, pc, cp, i, cr, false) || ReceiverShape(p, c, pc, cp, i, cr, true);
  }

  lemma ShapeConsumer(c: Slot, p: Slot, cp: seq<Packet>, pc: seq<Packet>, i: nat, cr: bool, pr: bool)
    requires Shaped(c, p, cp, pc, i, cr, pr)
    requires || (c.asked.Some? && c.asked.value.kind.RequestReceiver?)
             || (p.asked.Some? && p.asked.value.kind.RequestSender?)
    ensures Served(c, p, pc)
  {
    hide Shaped, SenderShape, ReceiverShape;
    ConsumerShapes(c, p, cp, pc, i, cr, pr);
    var begun :| SenderShape(p, c, pc, cp, i, cr, begun) || ReceiverShape(p, c, pc, cp, i, cr, begun);
    if SenderShape(p, c, pc, cp, i, cr, begun) {
      SenderServes(p, c, pc, cp, i, cr, begun);
    } else {
      ReceiverServes(p, c, pc, cp, i, cr, begun);
    }
  }

  /** A consumer that is told its stream is over has been handed everything, in order: all that was put in,
      provided its user stayed, the request was understood, and every packet could be parsed. */
  lemma TheEndIsTheEnd(n: Net, ms: seq<Move>, s: Side, i: nat)
    requires Reached(n, ms) && i in n.Of(s).h.log.told
    requires Consumes(n.Of(s), n.Of(s.Other()), i)
    ensures var c, p := n.Of(s).h.log, n.Of(s.Other()).h.log;
      && ArrivedBodies(Get(c.arrivals, i)) == Get(p.pushed, i)
      && (i !in c.dropped && i !in c.refused && (forall a <- Get(c.arrivals, i) :: !a.fate.Malformed?) ==>
            Delivered(Get(c.arrivals, i)) == Get(p.pushed, i))
  {
    hide Reached, Common, Shaped, Thread;
    StreamsConserved(n, ms, s.Other(), i);
    ShapeAt(n, ms, s, i);
    var c, p, cp, pc := n.Of(s), n.Of(s.Other()), n.To(s.Other()), n.To(s);
    ShapeConsumer(SlotOf(c.h, i), SlotOf(p.h, i), Thread(cp, i), Thread(pc, i), i, c.phase.Running?, p.phase.Running?);
    InFlightThread(pc, i);
    hide Shaped;
    var a := Get(c.h.log.arrivals, i);
    if i !in c.h.log.dropped && i !in c.h.log.refused && (forall b <- a :: !b.fate.Malformed?) {
      assert forall k :: 0 <= k < |a| ==> a[k] in a;
      AllDelivered(a);
    }
  }

  /** As long as the consumer's user stays and all packets parse, nothing that arrives is turned away. */
  lemma NothingTurnedAway(n: Net, ms: seq<Move>, s: Side, i: nat, k: nat)
    requires Reached(n, ms) && Consumes(n.Of(s), n.Of(s.Other()), i)
    requires k < |Get(n.Of(s).h.log.arrivals, i)| && Get(n.Of(s).h.log.arrivals, i)[k].fate.Rejected?
    ensures i in n.Of(s).h.log.dropped || i in n.Of(s).h.log.refused
  {
    ShapeAt(n, ms, s, i);
    var c, p, cp, pc := n.Of(s), n.Of(s.Other()), n.To(s.Other()), n.To(s);
    hide Common;
    ShapeConsumer(SlotOf(c.h, i), SlotOf(p.h, i), Thread(cp, i), Thread(pc, i), i, c.phase.Running?, p.phase.Running?);
  }

  /** Once a producer was told that nobody takes its stream any more, nothing more goes into it, however the run
      goes on. */
  lemma ToldMeansStop(n: Net, ms: seq<Move>, n': Net, more: seq<Move>, s: Side, i: nat)
    requires Reached(n, ms) && Reached(n', ms + more) && i in n.Of(s).h.log.told
    ensures Get(n'.Of(s).h.log.pushed, i) == Get(n.Of(s).h.log.pushed, i)
  {
    hide Reached;
    HistoryIsFinal(n, ms, n', more, s, i);
  }

  // ---- ids and server requests --------------------------------------------------------------

  /** Server requests are enabled on the client before the server can make use of it. */
  lemma EnablingIsSafe(n: Net, ms: seq<Move>)
    requires Reached(n, ms)
    ensures n.server.h.role.BiServer? || Carries(n.toServer, EnableServerRequests) ==> n.client.h.role.BiClient?
  {
    NeverBroken(ms);
    hide ShapedAt, IdsOk, CloseOk, Carries;
  }

  /** No request ever reaches an endpoint that turns requests away. */
  lemma RequestsAreWelcome(n: Net, ms: seq<Move>, s: Side)
    requires Reached(n, ms) && n.Of(s).phase.Running? && n.To(s) != [] && n.To(s)[0].kind.Asks()
    ensures n.Of(s).h.role.CanReceiveRequests()
  {
    NeverBroken(ms);
    InvOf(n, s);
    hide Inv;
    MayAsk(n.Of(s), n.Of(s.Other()), n.To(s.Other()), n.To(s));
  }

  /** No id is ever used by both sides. */
  lemma IdsNeverMeet(n: Net, ms: seq<Move>)
    requires Reached(n, ms)
    ensures n.client.h.log.asked.Keys !! n.server.h.log.asked.Keys
  {
    ShapeAt(n, ms, Client, 0);
    forall i | i in n.client.h.log.asked ensures i !in n.server.h.log.asked {
      hide Common, ShapedAt;
      IdsDisjoint(n.client, n.server, n.toServer, n.toClient, i);
    }
  }

  /** The next id is new: neither side knows it and no packet of a conversation carries it. */
  lemma NextIdIsNew(n: Net, ms: seq<Move>, s: Side, i: nat)
    requires Reached(n, ms) && n.Of(s).h.role.CanSendRequests() && n.Of(s).h.role.Id() == Some(i)
    ensures SlotOf(n.Of(s).h, i) == UNUSED && SlotOf(n.Of(s.Other()).h, i) == UNUSED
    ensures Thread(n.To(s), i) == [] && Thread(n.To(s.Other()), i) == []
  {
    NeverBroken(ms);
    InvOf(n, s);
    NextIdIsFresh(n.Of(s), n.Of(s.Other()), n.To(s.Other()), n.To(s), i);
  }
}
