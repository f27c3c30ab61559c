/** One endpoint of a connection: the handler's tables, what each of its operations does, and the loop
    around it that reads and writes packets. */
module Protocol {
  import opened Basics

  /** The body of a packet, opaque to the protocol. */
  datatype Body = Body(bytes: seq<Byte>)

  const EMPTY := Body([])

  datatype Kind =
    | Request | Response | NoResponse | Stream | RequestReceiver | RequestSender
    | StreamClosed | Close | Ping | MalformedRequest | EnableServerRequests | Unknown
  {
    /** The kinds that open a conversation. */
    predicate Asks() {
      Request? || RequestReceiver? || RequestSender?
    }

    /** The kinds whose body comes from a user. Packets of all other kinds are made by the library. */
    predicate UserMade() {
      Asks() || Response? || Stream?
    }

    /** The kinds that belong to a conversation, identified by the packet's id. */
    predicate Threaded() {
      UserMade() || NoResponse? || MalformedRequest? || StreamClosed?
    }
  }

  datatype Packet = Packet(kind: Kind, id: nat, body: Body)

  // ---- ids ----------------------------------------------------------------------------------

  /** The highest id of a client that shares its connection with server requests. */
  const U32_MID: nat := 0x7FFF_FFFF
  const U32_MAX: nat := 0xFFFF_FFFF

  /** The handler's role and the id it will hand out next. */
  datatype Role =
    | UniServer
    | UniClient(next: Option<nat>)
    | BiServer(next: Option<nat>)
    | BiClient(next: Option<nat>)
  {
    predicate Server() {
      UniServer? || BiServer?
    }

    predicate CanReceiveRequests() {
      !UniClient?
    }

    predicate CanSendRequests() {
      !UniServer?
    }

    /** The id handed out, if there is one left. */
    function Id(): Option<nat>
      requires CanSendRequests()
    {
      next
    }

    /** The role after an id was handed out. The shared client range ends earlier than the others. */
    function Advanced(): Role
      requires CanSendRequests()
    {
      var last := if BiClient? then U32_MID else U32_MAX;
      this.(next := if next.Some? && next.value < last then Some(next.value + 1) else None)
    }

    predicate Enables() {
      UniServer? || UniClient?
    }

    /** The role after server requests were enabled. */
    function Enabled(): Role {
      match this
      case UniServer => BiServer(Some(U32_MID + 1))
      case UniClient(Some(n)) => BiClient(if n <= U32_MID then Some(n) else None)
      case UniClient(None) => BiClient(None)
      case _ => this
    }
  }

  // ---- local channels -----------------------------------------------------------------------

  /** The receiving end of a one-shot reply channel. Closing it while nothing was sent reads like a drop. */
  datatype Reply = Waiting | Answered(body: Body) | Dropped

  /** The receiving end of a stream channel: what the user has sent, and whether more may come. */
  datatype Queue = Queue(items: seq<Body>, open: bool)

  /** `waiting_on_user`: what the local user still owes the peer. */
  datatype UserResponse = Answering(reply: Reply) | Sending(queue: Queue) {

    predicate Ready() {
      match this
      case Answering(r) => !r.Waiting?
      case Sending(q) => q.items != [] || !q.open
    }

    function Closed(): UserResponse {
      match this
      case Answering(r) => Answering(if r.Waiting? then Dropped else r)
      case Sending(q) => Sending(q.(open := false))
    }
  }

  /** `waiting_on_stream`: who waits for the peer. A stream consumer may have gone away (`!open`). */
  datatype StreamResponse = Awaiting | Receiving(open: bool)

  /** A request of the local user, still in the handler's queue. */
  datatype InternalRequest =
    | EnableServer
    | Ask(body: Body)
    | AskSender(body: Body, queue: Queue)
    | AskReceiver(body: Body, open: bool)

  // ---- what happened so far -----------------------------------------------------------------

  datatype Question = Question(kind: Kind, body: Body)

  /** What a requester was told. */
  datatype Verdict = Got(body: Body) | GotNoResponse | GotMalformed | GotBadResponse

  /** What became of a stream packet that arrived. */
  datatype Fate = Delivered | Malformed | Rejected

  datatype Arrival = Arrival(body: Body, fate: Fate)

  /** The history of one endpoint, by id.
      - `asked`: requests sent; `seen`: requests of the peer taken in; `refused`: those that did not parse.
      - `given`: answers of the local user; `results`: verdicts handed to the local requester.
      - `pushed`: what the local user put into a stream; `arrivals`: what came in on a stream.
      - `told`: streams the peer said are closed; `dropped`: streams whose local consumer went away. */
  datatype Log = Log(
    asked: map<nat, Question>,
    seen: map<nat, Question>,
    refused: set<nat>,
    given: map<nat, Body>,
    results: map<nat, Verdict>,
    pushed: map<nat, seq<Body>>,
    arrivals: map<nat, seq<Arrival>>,
    told: set<nat>,
    dropped: set<nat>)

  const NO_HISTORY := Log(map[], map[], {}, map[], map[], map[], map[], {}, {})

  function Get<T>(m: map<nat, seq<T>>, i: nat): seq<T> {
    if i in m then m[i] else []
  }

  // ---- the handler --------------------------------------------------------------------------

  /** The fields of the handler and its history. `listening`: the user still takes in requests. */
  datatype State = State(
    requests: seq<InternalRequest>,
    requestsOpen: bool,
    listening: bool,
    wos: map<nat, StreamResponse>,
    wou: map<nat, UserResponse>,
    role: Role,
    log: Log)

  /** A new handler. */
  function New(server: bool): State {
    State([], true, true, map[], map[], if server then UniServer else UniClient(Some(0)), NO_HISTORY)
  }

  datatype SendBack = Nothing | Reply(packet: Packet) | CloseNow | CloseWithPacket

  datatype TaskError =
    | UnknownId(id: nat)
    | ExistingId(id: nat)
    | WrongPacketKind(kind: Kind)
    | PacketFailed

  type Outcome = Result<SendBack, TaskError>

  /** The packet an answer of the handler makes the loop send, if any. */
  function Replies(r: Outcome): seq<Packet> {
    match r
    case Ok(Reply(p)) => [p]
    case _ => []
  }

  /** A request is handed to the user. If nobody listens, the connection closes, and the user's half of the
      new channel is gone with the request. */
  function Handed(h: State): Outcome {
    Ok(if h.listening then Nothing else CloseWithPacket)
  }

  function Resolve(h: State, id: nat, v: Verdict): (State, Outcome) {
    if id in h.wos && h.wos[id].Awaiting? then
      (h.(wos := h.wos - {id}, log := h.log.(results := h.log.results[id := v])), Ok(Nothing))
    else (h.(wos := h.wos - {id}), Err(UnknownId(id)))
  }

  function Arrive(h: State, id: nat, a: Arrival): State {
    h.(log := h.log.(arrivals := h.log.arrivals[id := Get(h.log.arrivals, id) + [a]]))
  }

  function Seen(h: State, p: Packet): State {
    h.(log := h.log.(seen := h.log.seen[p.id := Question(p.kind, p.body)]))
  }

  /** `Handler::send`: a packet of the peer came in. */
  function Send(h: State, p: Packet): (State, Outcome) {
    var id := p.id;
    match p.kind
    case EnableServerRequests =>
      (h.(role := h.role.Enabled()), if h.role.Enables() then Handed(h) else Ok(Nothing))
    case Request =>
      if !h.role.CanReceiveRequests() then (h, Err(WrongPacketKind(p.kind)))
      else if id in h.wou then (h, Err(ExistingId(id)))
      else (Seen(h, p).(wou := h.wou[id := Answering(if h.listening then Waiting else Dropped)]), Handed(h))
    case RequestReceiver =>
      if !h.role.CanReceiveRequests() then (h, Err(WrongPacketKind(p.kind)))
      else if id in h.wou then (h, Err(ExistingId(id)))
      else (Seen(h, p).(wou := h.wou[id := Sending(Queue([], h.listening))]), Handed(h))
    case RequestSender =>
      if !h.role.CanReceiveRequests() then (h, Err(WrongPacketKind(p.kind)))
      else if id in h.wos then (h, Err(ExistingId(id)))
      else
        var s := Seen(h, p).(wos := h.wos[id := Receiving(h.listening)]);
        (if h.listening then s else s.(log := s.log.(dropped := s.log.dropped + {id})), Handed(h))
    case Response => Resolve(h, id, Got(p.body))
    case NoResponse => Resolve(h, id, GotNoResponse)
    case MalformedRequest => Resolve(h, id, GotMalformed)
    case Stream =>
      if id in h.wos && h.wos[id].Receiving? && h.wos[id].open then
        (Arrive(h, id, Arrival(p.body, Delivered)), Ok(Nothing))
      else if id in h.wos && h.wos[id].Awaiting? then (h, Err(UnknownId(id)))
      else (Arrive(h, id, Arrival(p.body, Rejected)), Ok(Reply(Packet(StreamClosed, id, EMPTY))))
    case StreamClosed =>
      (h.(wos := h.wos - {id},
          wou := if id in h.wou then h.wou[id := h.wou[id].Closed()] else h.wou,
          log := h.log.(told := h.log.told + {id})), Ok(Nothing))
    case Close => (h, Ok(CloseNow))
    case Ping => (h, Ok(Nothing))
    case Unknown => (h, Err(WrongPacketKind(p.kind)))
  }

  /** `Handler::packet_error`: a packet came in whose header is fine and whose body does not parse. */
  function PacketError(h: State, p: Packet): (State, Outcome) {
    var id := p.id;
    var refused := h.(log := h.log.(refused := h.log.refused + {id}));
    match p.kind
    case Request => (refused, Ok(Reply(Packet(MalformedRequest, id, EMPTY))))
    case RequestSender | RequestReceiver => (refused, Ok(Reply(Packet(StreamClosed, id, EMPTY))))
    case Response => Resolve(h, id, GotBadResponse)
    case Stream => (Arrive(h, id, Arrival(p.body, Malformed)), Ok(Nothing))
    case NoResponse | MalformedRequest | Close | Ping | StreamClosed => (h, Err(PacketFailed))
    case EnableServerRequests | Unknown => (h, Err(WrongPacketKind(p.kind)))
  }

  /** Where `to_send` takes its next packet from: any entry that is ready, or the request queue. */
  datatype Source = FromUser(id: nat) | FromQueue

  predicate CanTake(h: State, s: Source) {
    match s
    case FromUser(id) => id in h.wou && h.wou[id].Ready()
    case FromQueue => h.role.CanSendRequests() && h.requests != []
  }

  datatype Sent = Packets(packet: Packet) | Exhausted | DuplicateId

  /** One packet the local user owes. Everything but a stream packet is the last one for its id. */
  function TakeUser(h: State, id: nat): (State, Packet)
    requires CanTake(h, FromUser(id))
  {
    var gone := h.(wou := h.wou - {id});
    match h.wou[id]
    case Answering(Answered(b)) => (gone, Packet(Response, id, b))
    case Answering(_) => (gone, Packet(NoResponse, id, EMPTY))
    case Sending(q) =>
      if q.items != [] then
        (h.(wou := h.wou[id := Sending(q.(items := q.items[1..]))]), Packet(Stream, id, q.items[0]))
      else (gone, Packet(StreamClosed, id, EMPTY))
  }

  /** One request out of the queue, under a new id. */
  function TakeQueue(h: State): (State, Sent)
    requires CanTake(h, FromQueue)
  {
    var req, rest := h.requests[0], h.(requests := h.requests[1..], role := h.role.Advanced());
    match h.role.Id()
    case None => (rest, Exhausted)
    case Some(id) =>
      match req
      case EnableServer => (rest.(role := rest.role.Enabled()), Packets(Packet(EnableServerRequests, id, EMPTY)))
      case Ask(b) =>
        var s := Asked(rest, id, Question(Request, b)).(wos := h.wos[id := Awaiting]);
        (s, if id in h.wos then DuplicateId else Packets(Packet(Request, id, b)))
      case AskSender(b, q) =>
        var s := Asked(rest, id, Question(RequestSender, b));
        if id in h.wou then (s, DuplicateId)
        else (s.(wou := h.wou[id := Sending(q)], log := s.log.(pushed := s.log.pushed[id := q.items])),
              Packets(Packet(RequestSender, id, b)))
      case AskReceiver(b, open) =>
        var s := Asked(rest, id, Question(RequestReceiver, b)).(wos := h.wos[id := Receiving(open)]);
        (if open then s else s.(log := s.log.(dropped := s.log.dropped + {id})),
         if id in h.wos then DuplicateId else Packets(Packet(RequestReceiver, id, b)))
  }

  function Asked(h: State, id: nat, q: Question): State {
    h.(log := h.log.(asked := h.log.asked[id := q]))
  }

  /** `Handler::to_send`, given where it takes from. */
  function ToSend(h: State, s: Source): (State, Sent)
    requires CanTake(h, s)
  {
    match s
    case FromUser(id) => var (h', p) := TakeUser(h, id); (h', Packets(p))
    case FromQueue => TakeQueue(h)
  }

  /** `to_send` returns None: nothing is owed, and no request is left or may be sent. */
  predicate NothingToSend(h: State) {
    h.wou == map[] && (!h.role.CanSendRequests() || (h.requests == [] && !h.requestsOpen))
  }

  /** `Handler::close`. */
  function Closed(h: State): State {
    h.(wos := map[], wou := map i | i in h.wou :: h.wou[i].Closed(), requestsOpen := false)
  }

  // ---- the loop around the handler ----------------------------------------------------------

  /** What `bg_stream` knows: whether it is closing, and whether it will say so before it ends.
      `drained`: the loop ended with nothing left to send. */
  datatype Phase = Running | Closing(withPacket: bool) | Done(drained: bool)

  datatype Peer = Peer(h: State, phase: Phase)

  datatype Action =
    // the local user
    | Enqueue(req: InternalRequest)
    | PushQueued(at: nat, body: Body)
    | EndQueued(at: nat)
    | Answer(id: nat, body: Body)
    | DropAnswer(id: nat)
    | Push(id: nat, body: Body)
    | EndPush(id: nat)
    | DropConsumer(id: nat)
    | StopListening
    | DropSenders
    // the loop
    | Receive
    | ReceiveMalformed
    | Emit(source: Source)
    | SendPing
    | CloseSignal
    | Finish

  predicate Able(x: Peer, inbox: seq<Packet>, a: Action) {
    var h := x.h;
    match a
    case Enqueue(_) => h.requestsOpen
    case PushQueued(k, _) => k < |h.requests| && h.requests[k].AskSender? && h.requests[k].queue.open
    case EndQueued(k) => k < |h.requests| && (h.requests[k].AskSender? || h.requests[k].AskReceiver?)
    case Answer(id, _) => id in h.wou && h.wou[id].Answering? && h.wou[id].reply.Waiting?
    case DropAnswer(id) => id in h.wou && h.wou[id].Answering? && h.wou[id].reply.Waiting?
    case Push(id, _) => id in h.wou && h.wou[id].Sending? && h.wou[id].queue.open
    case EndPush(id) => id in h.wou && h.wou[id].Sending?
    case DropConsumer(id) => id in h.wos && h.wos[id].Receiving?
    case StopListening => true
    case DropSenders => true
    case Receive => x.phase.Running? && inbox != []
    case ReceiveMalformed => x.phase.Running? && inbox != [] && inbox[0].kind.UserMade()
    case Emit(s) => !x.phase.Done? && CanTake(h, s)
    case SendPing => x.phase.Running?
    case CloseSignal => x.phase.Running?
    case Finish =>
      x.phase.Closing? &&
      (NothingToSend(h) || (CanTake(h, FromQueue) && TakeQueue(h).1.Exhausted?))
  }

  datatype Step = Moved(peer: Peer, inbox: seq<Packet>, out: seq<Packet>) | Fault(error: Option<TaskError>)

  function User(x: Peer, h: State, inbox: seq<Packet>): Step {
    Moved(x.(h := h), inbox, [])
  }

  /** What the loop does with the answer of `send` or `packet_error`. */
  function After(h: State, r: Outcome, inbox: seq<Packet>): Step {
    match r
    case Err(e) => Fault(Some(e))
    case Ok(Nothing) => Moved(Peer(h, Running), inbox, [])
    case Ok(Reply(p)) => Moved(Peer(h, Running), inbox, [p])
    case Ok(CloseNow) => Moved(Peer(Closed(h), Closing(false)), inbox, [])
    case Ok(CloseWithPacket) => Moved(Peer(Closed(h), Closing(true)), inbox, [])
  }

  /** One turn of an endpoint: what it becomes, what it leaves in its inbox, and what it sends. */
  function Turn(x: Peer, inbox: seq<Packet>, a: Action): Step
    requires Able(x, inbox, a)
  {
    var h, log := x.h, x.h.log;
    match a
    case Enqueue(req) => User(x, h.(requests := h.requests + [req]), inbox)
    case PushQueued(k, b) =>
      var q := h.requests[k].queue;
      User(x, h.(requests := h.requests[k := h.requests[k].(queue := q.(items := q.items + [b]))]), inbox)
    case EndQueued(k) =>
      var req := h.requests[k];
      var ended := if req.AskSender? then req.(queue := req.queue.(open := false)) else req.(open := false);
      User(x, h.(requests := h.requests[k := ended]), inbox)
    case Answer(id, b) =>
      User(x, h.(wou := h.wou[id := Answering(Answered(b))], log := log.(given := log.given[id := b])), inbox)
    case DropAnswer(id) => User(x, h.(wou := h.wou[id := Answering(Dropped)]), inbox)
    case Push(id, b) =>
      var q := h.wou[id].queue;
      User(x, h.(wou := h.wou[id := Sending(q.(items := q.items + [b]))],
                 log := log.(pushed := log.pushed[id := Get(log.pushed, id) + [b]])), inbox)
    case EndPush(id) => User(x, h.(wou := h.wou[id := h.wou[id].Closed()]), inbox)
    case DropConsumer(id) =>
      User(x, h.(wos := h.wos[id := Receiving(false)], log := log.(dropped := log.dropped + {id})), inbox)
    case StopListening => User(x, h.(listening := false), inbox)
    case DropSenders => User(x, h.(requestsOpen := false), inbox)
    case Receive => var (h', r) := Send(h, inbox[0]); After(h', r, inbox[1..])
    case ReceiveMalformed => var (h', r) := PacketError(h, inbox[0]); After(h', r, inbox[1..])
    case Emit(s) =>
      var (h', r) := ToSend(h, s);
      (match r
       case Packets(p) => Moved(x.(h := h'), inbox, [p])
       case Exhausted => Moved(x.(h := h'), inbox, [])
       case DuplicateId => Fault(None))
    case SendPing => Moved(x, inbox, [Packet(Ping, 0, EMPTY)])
    case CloseSignal => Moved(Peer(Closed(h), Closing(true)), inbox, [])
    case Finish =>
      Moved(x.(phase := Done(NothingToSend(h))), inbox,
            if x.phase.withPacket then [Packet(Close, 0, EMPTY)] else [])
  }
}
