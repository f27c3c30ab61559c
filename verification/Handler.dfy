/** The handler as the program has it: objects whose tables change in place. Each method is proved against the
    function of the same name in module Protocol. */
module Handler {
  import opened Basics
  import opened Protocol
  import opened Conversation
  import P = Protocol
  import D = Drain

  /** `WaitingOnUser`: the table of what the local user owes the peer. */
  class WaitingOnUser {
    var inner: map<nat, UserResponse>

    constructor ()
      ensures inner == map[]
    {
      inner := map[];
    }

    method Insert(id: nat, u: UserResponse) returns (r: Result<(), TaskError>)
      modifies this
      ensures r == if id in old(inner) then Err(ExistingId(id)) else Ok(())
      ensures inner == if id in old(inner) then old(inner) else old(inner)[id := u]
    {
      if id in inner { return Err(ExistingId(id)); }
      inner := inner[id := u];
      r := Ok(());
    }

    /** Looks at the entries in some order and takes a packet from the first one that is ready. */
    method ToSend() returns (packet: Option<Packet>, ghost from: nat)
      modifies this
      ensures packet.None? ==> inner == old(inner) && forall i <- inner :: !inner[i].Ready()
      ensures packet.Some? ==>
        && from in old(inner) && old(inner)[from].Ready()
        && forall h: State :: h.wou == old(inner) ==> TakeUser(h, from) == (h.(wou := inner), packet.value)
    {
      var todo := inner.Keys;
      from := 0;
      while todo != {}
        invariant todo <= inner.Keys && inner == old(inner)
        invariant forall i <- inner :: i !in todo ==> !inner[i].Ready()
        decreases todo
      {
        var id: nat :| id in todo;
        todo := todo - {id};
        match inner[id]
        case Answering(Answered(b)) =>
          inner := inner - {id};
          return Some(Packet(Response, id, b)), id;
        case Answering(Dropped) =>
          inner := inner - {id};
          return Some(Packet(NoResponse, id, EMPTY)), id;
        case Answering(Waiting) =>
        case Sending(q) =>
          if q.items != [] {
            inner := inner[id := Sending(q.(items := q.items[1..]))];
            return Some(Packet(Stream, id, q.items[0])), id;
          } else if !q.open {
            inner := inner - {id};
            return Some(Packet(StreamClosed, id, EMPTY)), id;
          }
      }
      packet := None;
    }

    method CloseAll()
      modifies this
      ensures inner == map i | i in old(inner) :: old(inner)[i].Closed()
    {
      var todo := inner.Keys;
      while todo != {}
        invariant todo <= inner.Keys == old(inner).Keys
        invariant forall i <- inner :: inner[i] == if i in todo then old(inner)[i] else old(inner)[i].Closed()
        decreases todo
      {
        var id: nat :| id in todo;
        inner := inner[id := inner[id].Closed()];
        todo := todo - {id};
      }
    }

    method Close(id: nat)
      modifies this
      ensures inner == if id in old(inner) then old(inner)[id := old(inner)[id].Closed()] else old(inner)
    {
      if id in inner { inner := inner[id := inner[id].Closed()]; }
    }
  }

  /** How the closing loop ends. */
  datatype DrainEnd = Drained | OutOfIds | Held

  class Handler {
    var requests: seq<InternalRequest>
    var requestsOpen: bool
    var listening: bool
    var waitingOnStream: map<nat, StreamResponse>
    const waitingOnUser: WaitingOnUser
    var role: Role
    ghost var log: Log

    ghost function View(): State
      reads this, waitingOnUser
    {
      State(requests, requestsOpen, listening, waitingOnStream, waitingOnUser.inner, role, log)
    }

    constructor (server: bool)
      ensures View() == New(server) && fresh(waitingOnUser)
    {
      requests, requestsOpen, listening, waitingOnStream := [], true, true, map[];
      waitingOnUser := new WaitingOnUser();
      role := if server then UniServer else UniClient(Some(0));
      log := NO_HISTORY;
    }

    // ---- ids --------------------------------------------------------------------------------

    method NextId() returns (id: Option<nat>)
      requires role.CanSendRequests()
      modifies `role
      ensures id == old(role).Id() && role == old(role).Advanced()
    {
      match role
      case UniClient(counter) =>
        id := counter;
        role := UniClient(if counter.Some? && counter.value < U32_MAX then Some(counter.value + 1) else None);
      case BiServer(counter) =>
        id := counter;
        role := BiServer(if counter.Some? && counter.value < U32_MAX then Some(counter.value + 1) else None);
      case BiClient(counter) =>
        id := counter;
        role := BiClient(if counter.Some? && counter.value < U32_MID then Some(counter.value + 1) else None);
    }

    method EnableServerRequests() returns (changed: bool)
      modifies `role
      ensures role == old(role).Enabled() && changed == old(role).Enables()
    {
      match role
      case UniServer =>
        role := BiServer(Some(U32_MID + 1));
        changed := true;
      case UniClient(counter) =>
        role := BiClient(if counter.Some? && counter.value <= U32_MID then counter else None);
        changed := true;
      case _ => changed := false;
    }

    // ---- packets of the peer ----------------------------------------------------------------

    /** Hands a request to the user. */
    method HandOver() returns (r: SendBack)
      ensures Ok(r) == Handed(View())
    {
      r := if listening then Nothing else CloseWithPacket;
    }

    method ResolveRequest(id: nat, v: Verdict) returns (r: Outcome)
      modifies this
      ensures (View(), r) == Resolve(old(View()), id, v)
    {
      var found := id in waitingOnStream && waitingOnStream[id].Awaiting?;
      waitingOnStream := waitingOnStream - {id};
      if !found { return Err(UnknownId(id)); }
      log := log.(results := log.results[id := v]);
      r := Ok(Nothing);
    }

    method Send(p: Packet) returns (r: Outcome)
      modifies this, waitingOnUser
      ensures (View(), r) == P.Send(old(View()), p)
    {
      var canReceive := role.CanReceiveRequests();
      if p.kind.EnableServerRequests? {
        var changed := EnableServerRequests();
        if !changed { return Ok(Nothing); }
        var back := HandOver();
        r := Ok(back);
      } else if p.kind.Asks() && canReceive {
        r := TakeRequest(p);
      } else if p.kind.Response? {
        r := ResolveRequest(p.id, Got(p.body));
      } else if p.kind.NoResponse? {
        r := ResolveRequest(p.id, GotNoResponse);
      } else if p.kind.MalformedRequest? {
        r := ResolveRequest(p.id, GotMalformed);
      } else if p.kind.Stream? {
        r := TakeStream(p);
      } else if p.kind.StreamClosed? {
        waitingOnStream := waitingOnStream - {p.id};
        waitingOnUser.Close(p.id);
        log := log.(told := log.told + {p.id});
        r := Ok(Nothing);
      } else if p.kind.Close? {
        r := Ok(CloseNow);
      } else if p.kind.Ping? {
        r := Ok(Nothing);
      } else {
        r := Err(WrongPacketKind(p.kind));
      }
    }

    method TakeRequest(p: Packet) returns (r: Outcome)
      requires p.kind.Asks() && role.CanReceiveRequests()
      modifies this, waitingOnUser
      ensures (View(), r) == P.Send(old(View()), p)
    {
      if p.kind.RequestSender? {
        if p.id in waitingOnStream { return Err(ExistingId(p.id)); }
        waitingOnStream := waitingOnStream[p.id := Receiving(listening)];
        log := if listening then log else log.(dropped := log.dropped + {p.id});
      } else {
        var entry := if p.kind.Request? then Answering(if listening then Waiting else Dropped)
                     else Sending(Queue([], listening));
        var inserted := waitingOnUser.Insert(p.id, entry);
        if inserted.Err? { return Err(inserted.error); }
      }
      log := log.(seen := log.seen[p.id := Question(p.kind, p.body)]);
      var back := HandOver();
      r := Ok(back);
    }

    method TakeStream(p: Packet) returns (r: Outcome)
      requires p.kind.Stream?
      modifies this
      ensures (View(), r) == P.Send(old(View()), p)
    {
      if p.id in waitingOnStream && waitingOnStream[p.id].Awaiting? { return Err(UnknownId(p.id)); }
      var taken := p.id in waitingOnStream && waitingOnStream[p.id].open;
      log := log.(arrivals :=
        log.arrivals[p.id := Get(log.arrivals, p.id) + [Arrival(p.body, if taken then Delivered else Rejected)]]);
      r := Ok(if taken then Nothing else P.Reply(Packet(StreamClosed, p.id, EMPTY)));
    }

    method PacketError(p: Packet) returns (r: Outcome)
      modifies this
      ensures (View(), r) == P.PacketError(old(View()), p)
    {
      match p.kind
      case Request =>
        log := log.(refused := log.refused + {p.id});
        r := Ok(P.Reply(Packet(MalformedRequest, p.id, EMPTY)));
      case RequestSender | RequestReceiver =>
        log := log.(refused := log.refused + {p.id});
        r := Ok(P.Reply(Packet(StreamClosed, p.id, EMPTY)));
      case Response => r := ResolveRequest(p.id, GotBadResponse);
      case NoResponse | MalformedRequest | Close | Ping | StreamClosed => r := Err(PacketFailed);
      case Stream =>
        log := log.(arrivals := log.arrivals[p.id := Get(log.arrivals, p.id) + [Arrival(p.body, Malformed)]]);
        r := Ok(Nothing);
      case EnableServerRequests | Unknown => r := Err(WrongPacketKind(p.kind));
    }

    // ---- packets for the peer ---------------------------------------------------------------

    /** The next request out of the queue. */
    method SendRequest() returns (r: Sent)
      requires CanTake(View(), FromQueue)
      modifies this, waitingOnUser
      ensures (View(), r) == TakeQueue(old(View()))
    {
      var req := requests[0];
      requests := requests[1..];
      var next := NextId();
      if next.None? { return Exhausted; }
      var id := next.value;
      match req
      case EnableServer =>
        var _ := EnableServerRequests();
        r := Packets(Packet(Kind.EnableServerRequests, id, EMPTY));
      case Ask(b) =>
        var existing := id in waitingOnStream;
        waitingOnStream := waitingOnStream[id := Awaiting];
        log := log.(asked := log.asked[id := Question(Request, b)]);
        r := if existing then DuplicateId else Packets(Packet(Request, id, b));
      case AskSender(b, q) =>
        log := log.(asked := log.asked[id := Question(RequestSender, b)]);
        var inserted := waitingOnUser.Insert(id, Sending(q));
        if inserted.Err? { return DuplicateId; }
        log := log.(pushed := log.pushed[id := q.items]);
        r := Packets(Packet(RequestSender, id, b));
      case AskReceiver(b, open) =>
        var existing := id in waitingOnStream;
        waitingOnStream := waitingOnStream[id := Receiving(open)];
        log := log.(asked := log.asked[id := Question(RequestReceiver, b)],
                    dropped := if open then log.dropped else log.dropped + {id});
        r := if existing then DuplicateId else Packets(Packet(RequestReceiver, id, b));
    }

    /** The next packet to send: from an entry that is ready, or else from the queue. None when there is neither
        one now. */
    method ToSend() returns (r: Option<Sent>, ghost source: Source)
      modifies this, waitingOnUser
      ensures r.None? ==> View() == old(View()) && forall s :: !CanTake(View(), s)
      ensures r.Some? ==> CanTake(old(View()), source) && (View(), r.value) == P.ToSend(old(View()), source)
    {
      var packet, from := waitingOnUser.ToSend();
      if packet.Some? { return Some(Packets(packet.value)), FromUser(from); }
      source := FromQueue;
      if role.CanSendRequests() && requests != [] {
        var sent := SendRequest();
        r := Some(sent);
      } else {
        r := None;
      }
    }

    // ---- closing ----------------------------------------------------------------------------

    method Close() returns (p: Packet)
      modifies this, waitingOnUser
      ensures View() == Closed(old(View())) && p == Packet(Kind.Close, 0, EMPTY)
    {
      waitingOnStream := map[];
      waitingOnUser.CloseAll();
      requestsOpen := false;
      p := Packet(Kind.Close, 0, EMPTY);
    }

    /** The loop of `bg_stream` from the moment it closes. It sends until there is nothing more to send, or no id for
        the next request in the queue, and then says goodbye if it is to do so; or it comes to wait for a user of its
        own that keeps a stream open. */
    method CloseAndDrain(withPacket: bool) returns (out: seq<Packet>, end: DrainEnd)
      requires D.FreshIds(View())
      modifies this, waitingOnUser
      ensures end.Drained? ==> NothingToSend(View()) && |out| == D.DebtOf(Closed(old(View()))) + if withPacket then 1 else 0
      ensures end.OutOfIds? <==> !end.Held? && !D.IdsSuffice(old(View()))
      ensures end.Held? ==> D.Waits(View()) && !D.StreamsEnded(Closed(old(View())))
      ensures withPacket && !end.Held? ==> out != [] && out[|out| - 1] == Packet(Kind.Close, 0, EMPTY)
      ensures var said := if withPacket && !end.Held? then out[..|out| - 1] else out;
        forall i: nat :: Thread(said, i) + D.OwedTo(View(), i) == D.OwedTo(Closed(old(View())), i)
      ensures end.Drained? ==> forall i: nat :: D.OwedTo(View(), i) == []
    {
      D.ClosedIsShut(View());
      var goodbye := Close();
      ghost var start := View();
      D.AlongStarts(start);
      out := [];
      hide D.Along, D.FreshIds, D.DebtOf, D.OwedTo, D.IdsSuffice, D.StreamsEnded, D.Waits, Closed, Thread;
      while true
        invariant D.Along(start, View(), out)
        decreases D.DebtOf(View())
      {
        ghost var before := View();
        var sent, source := ToSend();
        if sent.None? {
          end := if waitingOnUser.inner == map[] && (!role.CanSendRequests() || requests == []) then Drained else Held;
          D.AlongEnds(start, View(), out);
          break;
        }
        if sent.value.Exhausted? {
          end := OutOfIds;
          D.AlongStops(start, before, out);
          break;
        }
        D.AlongSends(start, before, out, source);
        out := out + [sent.value.packet];
      }
      if withPacket && !end.Held? { out := out + [goodbye]; }
    }
  }

  // ---- the loop -----------------------------------------------------------------------------

  /** One connection's task: the local variables of `bg_stream` and what each branch of its `select` does. */
  class Task {
    const handler: Handler
    var shouldClose: bool
    var closePacket: Option<Packet>
    var ended: Option<bool>

    ghost predicate Valid()
      reads this
    {
      && (closePacket.Some? ==> shouldClose && closePacket.value == Packet(Kind.Close, 0, EMPTY))
      && (ended.Some? ==> shouldClose)
    }

    ghost function View(): Peer
      reads this, handler, handler.waitingOnUser
    {
      Peer(handler.View(), if ended.Some? then Done(ended.value)
                           else if shouldClose then Closing(closePacket.Some?) else Running)
    }

    constructor (server: bool)
      ensures Valid() && View() == Peer(New(server), Running) && fresh(handler) && fresh(handler.waitingOnUser)
    {
      handler := new Handler(server);
      shouldClose, closePacket, ended := false, None, None;
    }

    /** A packet came in, or one whose body does not parse. */
    method Receive(p: Packet, malformed: bool) returns (out: seq<Packet>, error: Option<TaskError>)
      requires Valid() && !shouldClose && (malformed ==> p.kind.UserMade())
      modifies this, handler, handler.waitingOnUser
      ensures Valid()
      ensures Turn(old(View()), [p], if malformed then ReceiveMalformed else Action.Receive) ==
              if error.Some? then Fault(error) else Moved(View(), [], out)
    {
      var r;
      if malformed { r := handler.PacketError(p); } else { r := handler.Send(p); }
      out, error := [], None;
      match r
      case Err(e) => error := Some(e);
      case Ok(Nothing) =>
      case Ok(Reply(reply)) => out := [reply];
      case Ok(CloseNow) =>
        shouldClose := true;
        var _ := handler.Close();
      case Ok(CloseWithPacket) =>
        shouldClose := true;
        var goodbye := handler.Close();
        closePacket := Some(goodbye);
    }

    /** A packet to send, if there is one now. */
    method Emit() returns (out: seq<Packet>, failed: bool, ghost source: Option<Source>)
      requires Valid() && ended.None?
      modifies handler, handler.waitingOnUser
      ensures Valid()
      ensures source.None? ==> View() == old(View()) && out == [] && !failed && forall s :: !CanTake(old(View()).h, s)
      ensures source.Some? ==> forall inbox ::
        && Able(old(View()), inbox, Action.Emit(source.value))
        && Turn(old(View()), inbox, Action.Emit(source.value)) == if failed then Fault(None) else Moved(View(), inbox, out)
    {
      var sent, from := handler.ToSend();
      out, failed, source := [], false, None;
      if sent.Some? {
        source := Some(from);
        match sent.value
        case Packets(p) => out := [p];
        case Exhausted =>
        case DuplicateId => failed := true;
      }
    }

    /** Somebody asked for the connection to close. */
    method CloseSignal()
      requires Valid() && !shouldClose
      modifies this, handler, handler.waitingOnUser
      ensures Valid()
      ensures forall inbox :: Turn(old(View()), inbox, Action.CloseSignal) == Moved(View(), inbox, [])
    {
      shouldClose := true;
      var goodbye := handler.Close();
      closePacket := Some(goodbye);
    }

    /** No branch is left: nothing to send, or no id for what is left. */
    method Finish() returns (out: seq<Packet>)
      requires Valid() && shouldClose && ended.None?
      requires NothingToSend(handler.View()) || (CanTake(handler.View(), FromQueue) && handler.role.Id().None?)
      modifies this
      ensures Valid()
      ensures forall inbox ::
        && Able(old(View()), inbox, Action.Finish)
        && Turn(old(View()), inbox, Action.Finish) == Moved(View(), inbox, out)
    {
      out := if closePacket.Some? then [closePacket.value] else [];
      closePacket := None;
      ended := Some(handler.waitingOnUser.inner == map[] &&
                    (!handler.role.CanSendRequests() || (handler.requests == [] && !handler.requestsOpen)));
    }
  }
}
