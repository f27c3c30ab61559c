/** What an endpoint turns away or cannot read is never dropped in silence: its peer is told. */
module Refusals {
  import opened Basics
  import opened Protocol
  import opened Connection

  /** How many packets of a kind carry this id. */
  function Said(q: seq<Packet>, k: Kind, i: nat): nat {
    if q == [] then 0 else Said(q[..|q| - 1], k, i) + One(q[|q| - 1].kind == k && q[|q| - 1].id == i)
  }

  lemma SaidMore(q: seq<Packet>, out: seq<Packet>, k: Kind, i: nat)
    requires |out| <= 1
    ensures Said(q + out, k, i) == Said(q, k, i) + Said(out, k, i)
  {
    if out == [] {
      assert q + out == q;
    } else {
      assert (q + out)[..|q|] == q && out[..0] == [];
    }
  }

  /** How many stream packets were turned away. */
  function Rejections(a: seq<Arrival>): nat {
    if a == [] then 0 else Rejections(a[..|a| - 1]) + One(a[|a| - 1].fate.Rejected?)
  }

  /** Nothing was refused in silence: `sent` has one packet for every stream packet turned away, and one for a
      request that could not be read. */
  predicate AllTold(h: State, sent: seq<Packet>, i: nat) {
    && Rejections(Get(h.log.arrivals, i)) <= Said(sent, StreamClosed, i)
    && (i in h.log.refused ==> Said(sent, StreamClosed, i) + Said(sent, MalformedRequest, i) > 0)
  }

  // ---- one packet ---------------------------------------------------------------------------

  lemma ArriveCounts(h: State, id: nat, a: Arrival, i: nat)
    ensures Rejections(Get(Arrive(h, id, a).log.arrivals, i)) ==
            Rejections(Get(h.log.arrivals, i)) + One(i == id && a.fate.Rejected?)
  {
    if i == id { assert (Get(h.log.arrivals, i) + [a])[..|Get(h.log.arrivals, i)|] == Get(h.log.arrivals, i); }
  }

  lemma PartsRefuseNothing(h: State, p: Packet, v: Verdict, a: Arrival)
    ensures Seen(h, p).log.refused == h.log.refused && Resolve(h, p.id, v).0.log.refused == h.log.refused
    ensures Arrive(h, p.id, a).log.refused == h.log.refused
  {
  }

  lemma SendRefusesNothing(h: State, p: Packet)
    ensures Send(h, p).0.log.refused == h.log.refused
  {
    PartsRefuseNothing(h, p, Got(p.body), Arrival(p.body, Delivered));
    PartsRefuseNothing(h, p, GotNoResponse, Arrival(p.body, Rejected));
    PartsRefuseNothing(h, p, GotMalformed, Arrival(p.body, Rejected));
    hide Seen, Resolve, Arrive;
    match p.kind {
      case Request => case Response => case NoResponse => case Stream => case RequestReceiver => case RequestSender =>
      case StreamClosed => case Close => case Ping => case MalformedRequest => case EnableServerRequests => case Unknown =>
    }
  }

  lemma OneReply(h: State, p: Packet)
    ensures |Replies(Send(h, p).1)| <= 1
  {
  }

  lemma SendKeepsArrivals(h: State, p: Packet)
    requires !p.kind.Stream?
    ensures Send(h, p).0.log.arrivals == h.log.arrivals
  {
    match p.kind {
      case Request => case Response => case NoResponse => case Stream => case RequestReceiver => case RequestSender =>
      case StreamClosed => case Close => case Ping => case MalformedRequest => case EnableServerRequests => case Unknown =>
    }
  }

  lemma StreamLogs(h: State, p: Packet)
    requires p.kind.Stream?
    ensures || Send(h, p) == (Arrive(h, p.id, Arrival(p.body, Delivered)), Ok(Nothing))
            || Send(h, p) == (h, Err(UnknownId(p.id)))
            || Send(h, p) == (Arrive(h, p.id, Arrival(p.body, Rejected)),
                              Ok(SendBack.Reply(Packet(StreamClosed, p.id, EMPTY))))
  {
  }

  lemma SaidOne(p: Packet, k: Kind, i: nat)
    ensures Said([p], k, i) == One(p.kind == k && p.id == i)
  {
    assert [p][..0] == [];
  }

  lemma SendTells(h: State, p: Packet, sent: seq<Packet>, i: nat)
    requires AllTold(h, sent, i)
    ensures AllTold(Send(h, p).0, sent + Replies(Send(h, p).1), i)
  {
    hide Send;
    SendRefusesNothing(h, p);
    OneReply(h, p);
    if p.kind.Stream? { StreamLogs(h, p); } else { SendKeepsArrivals(h, p); }
    var (h', r) := Send(h, p);
    SaidMore(sent, Replies(r), StreamClosed, i);
    SaidMore(sent, Replies(r), MalformedRequest, i);
    if p.kind.Stream? {
      ArriveCounts(h, p.id, Arrival(p.body, Delivered), i);
      ArriveCounts(h, p.id, Arrival(p.body, Rejected), i);
      SaidOne(Packet(StreamClosed, p.id, EMPTY), StreamClosed, i);
      hide Rejections, Said;
    }
  }

  lemma ErrorLogs(h: State, p: Packet)
    ensures var (h', r) := PacketError(h, p);
      && (p.kind.Stream? ==> h' == Arrive(h, p.id, Arrival(p.body, Malformed)))
      && (p.kind.Asks() ==>
            && h' == h.(log := h.log.(refused := h.log.refused + {p.id}))
            && Replies(r) == [Packet(if p.kind.Request? then MalformedRequest else StreamClosed, p.id, EMPTY)])
      && (!p.kind.Asks() ==> Replies(r) == [] && h'.log.refused == h.log.refused)
      && (!p.kind.Stream? ==> h'.log.arrivals == h.log.arrivals)
  {
  }

  lemma ErrorTells(h: State, p: Packet, sent: seq<Packet>, i: nat)
    requires AllTold(h, sent, i)
    ensures AllTold(PacketError(h, p).0, sent + Replies(PacketError(h, p).1), i)
  {
    ErrorLogs(h, p);
    hide PacketError;
    var (h', r) := PacketError(h, p);
    SaidMore(sent, Replies(r), StreamClosed, i);
    SaidMore(sent, Replies(r), MalformedRequest, i);
    if p.kind.Stream? {
      ArriveCounts(h, p.id, Arrival(p.body, Malformed), i);
    } else if p.kind.Asks() {
      SaidOne(Packet(StreamClosed, p.id, EMPTY), StreamClosed, i);
      SaidOne(Packet(MalformedRequest, p.id, EMPTY), MalformedRequest, i);
    }
    hide Rejections, Said, Arrive;
  }

  // ---- every run ----------------------------------------------------------------------------

  lemma AfterTells(h: State, r: Outcome, inbox: seq<Packet>, sent: seq<Packet>, i: nat)
    requires AllTold(h, sent + Replies(r), i) && r.Ok?
    ensures var t := After(h, r, inbox); t.Moved? && t.out == Replies(r) && AllTold(t.peer.h, sent + t.out, i)
  {
  }

  lemma TurnTells(x: Peer, inbox: seq<Packet>, a: Action, sent: seq<Packet>, i: nat)
    requires Able(x, inbox, a) && Turn(x, inbox, a).Moved? && AllTold(x.h, sent, i)
    ensures var t := Turn(x, inbox, a); AllTold(t.peer.h, sent + t.out, i)
  {
    if a.Receive? || a.ReceiveMalformed? {
      var (h', r) := if a.Receive? then Send(x.h, inbox[0]) else PacketError(x.h, inbox[0]);
      if a.Receive? { SendTells(x.h, inbox[0], sent, i); } else { ErrorTells(x.h, inbox[0], sent, i); }
      hide Send, PacketError, AllTold;
      if r.Ok? { AfterTells(h', r, inbox[1..], sent, i); }
    } else {
      OthersRefuseNothing(x, inbox, a);
      var t := Turn(x, inbox, a);
      hide Turn;
      SaidMore(sent, t.out, StreamClosed, i);
      SaidMore(sent, t.out, MalformedRequest, i);
    }
  }

  lemma OthersRefuseNothing(x: Peer, inbox: seq<Packet>, a: Action)
    requires Able(x, inbox, a) && Turn(x, inbox, a).Moved? && !a.Receive? && !a.ReceiveMalformed?
    ensures var t := Turn(x, inbox, a);
      |t.out| <= 1 && t.peer.h.log.arrivals == x.h.log.arrivals && t.peer.h.log.refused == x.h.log.refused
  {
    hide Send, PacketError, TakeQueue;
    if a == Emit(FromQueue) { QueueRefusesNothing(x.h); }
  }

  lemma QueueRefusesNothing(h: State)
    requires CanTake(h, FromQueue)
    ensures var h' := TakeQueue(h).0; h'.log.arrivals == h.log.arrivals && h'.log.refused == h.log.refused
  {
    if h.role.Id().Some? {
      match h.requests[0] {
        case EnableServer => case Ask(_) => case AskSender(_, _) => case AskReceiver(_, _) =>
      }
    }
  }

  /** In every run, for every id: each stream packet that was turned away has been answered with a packet that
      closes the stream, and each request that could not be read with a refusal. */
  lemma {:induction false} NothingRefusedInSilence(ms: seq<Move>, s: Side, i: nat)
    requires Play(ms).At?
    ensures AllTold(Play(ms).net.Of(s).h, Play(ms).net.SentBy(s), i)
  {
    if ms != [] {
      NothingRefusedInSilence(ms[..|ms| - 1], s, i);
      var n, m := Play(ms[..|ms| - 1]).net, ms[|ms| - 1];
      hide Turn, AllTold, Able;
      if m.who == s { TurnTells(n.Of(s), n.To(s), m.action, n.SentBy(s), i); }
    }
  }

  // ---- protocol errors ----------------------------------------------------------------------

  /** An answer to a request of the local user. */
  predicate AnswerKind(k: Kind) {
    k.Response? || k.NoResponse? || k.MalformedRequest?
  }

  /** The errors there are: a request to a client that has not enabled them, or one under an id whose table entry is taken; an
      answer nobody waits for, or stream data where an answer is awaited; and a packet of no known kind. */
  function ErrorOf(h: State, p: Packet): Option<TaskError> {
    if p.kind.Unknown? || (p.kind.Asks() && h.role.UniClient?) then Some(WrongPacketKind(p.kind))
    else if p.kind.Asks() && p.id in (if p.kind.RequestSender? then h.wos.Keys else h.wou.Keys) then Some(ExistingId(p.id))
    else if AnswerKind(p.kind) && !Waits(Peer(h, Running), p.id) then Some(UnknownId(p.id))
    else if p.kind.Stream? && Waits(Peer(h, Running), p.id) then Some(UnknownId(p.id))
    else None
  }

  /** A packet is a protocol error in these cases, with these errors, and in no other. */
  lemma ErrorsExactly(h: State, p: Packet)
    ensures match ErrorOf(h, p) case Some(e) => Send(h, p).1 == Err(e) case None => Send(h, p).1.Ok?
  {
    match p.kind {
      case Request => case Response => case NoResponse => case Stream => case RequestReceiver => case RequestSender =>
      case StreamClosed => case Close => case Ping => case MalformedRequest => case EnableServerRequests => case Unknown =>
    }
  }

  /** With a spoilt body, only a packet that a user made is forgiven, and an answer only if it is waited for. */
  lemma SpoiltErrorsExactly(h: State, p: Packet)
    ensures match PacketError(h, p).1
      case Ok(_) => p.kind.UserMade() && (p.kind.Response? ==> Waits(Peer(h, Running), p.id))
      case Err(UnknownId(i)) => p.kind.Response? && i == p.id && !Waits(Peer(h, Running), i)
      case Err(WrongPacketKind(k)) => k == p.kind && (k.EnableServerRequests? || k.Unknown?)
      case Err(PacketFailed) =>
        p.kind.NoResponse? || p.kind.MalformedRequest? || p.kind.Close? || p.kind.Ping? || p.kind.StreamClosed?
      case Err(ExistingId(_)) => false
  {
    match p.kind {
      case Request => case Response => case NoResponse => case Stream => case RequestReceiver => case RequestSender =>
      case StreamClosed => case Close => case Ping => case MalformedRequest => case EnableServerRequests => case Unknown =>
    }
  }

  // ---- pings --------------------------------------------------------------------------------

  /** How many pings a side was made to send. */
  function PingsOf(ms: seq<Move>, s: Side): nat {
    if ms == [] then 0 else PingsOf(ms[..|ms| - 1], s) + One(ms[|ms| - 1] == Move(s, SendPing))
  }

  lemma TurnPings(x: Peer, inbox: seq<Packet>, a: Action)
    requires Able(x, inbox, a) && Turn(x, inbox, a).Moved?
    ensures Said(Turn(x, inbox, a).out, Ping, 0) == One(a.SendPing?) && |Turn(x, inbox, a).out| <= 1
  {
    var t := Turn(x, inbox, a);
    if a.Receive? || a.ReceiveMalformed? {
      NoPingBack(x.h, inbox[0]);
      hide Send, PacketError, Closed;
    } else if a.Emit? {
      if a.source.FromQueue? { NoPingOut(x.h); } else { NoPingDue(x.h, a.source.id); }
      hide TakeQueue, TakeUser;
    } else {
      hide Send, PacketError, ToSend;
    }
    if t.out != [] { SaidOne(t.out[0], Ping, 0); assert t.out == [t.out[0]]; }
  }

  lemma NoPingBack(h: State, p: Packet)
    ensures forall r <- [Send(h, p).1, PacketError(h, p).1] :: r.Ok? && r.value.Reply? ==> !r.value.packet.kind.Ping?
  {
  }

  lemma NoPingOut(h: State)
    requires CanTake(h, FromQueue)
    ensures TakeQueue(h).1.Packets? ==> !TakeQueue(h).1.packet.kind.Ping?
  {
    if h.role.Id().Some? {
      match h.requests[0] {
        case EnableServer => case Ask(_) => case AskSender(_, _) => case AskReceiver(_, _) =>
      }
    }
  }

  lemma NoPingDue(h: State, i: nat)
    requires CanTake(h, FromUser(i))
    ensures !TakeUser(h, i).1.kind.Ping?
  {
  }

  /** Every ping that falls due is sent, and no other. */
  lemma {:induction false} PingsAreSent(ms: seq<Move>, s: Side)
    requires Play(ms).At?
    ensures Said(Play(ms).net.SentBy(s), Ping, 0) == PingsOf(ms, s)
  {
    if ms != [] {
      PingsAreSent(ms[..|ms| - 1], s);
      var n, m := Play(ms[..|ms| - 1]).net, ms[|ms| - 1];
      hide Turn, Able;
      if m.who == s {
        TurnPings(n.Of(s), n.To(s), m.action);
        SaidMore(n.SentBy(s), Turn(n.Of(s), n.To(s), m.action).out, Ping, 0);
      }
    }
  }
}
