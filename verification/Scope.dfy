/** Why server requests must be enabled early: exactly when the client has used no id above the middle, everything
    that can follow is harmless. Otherwise both sides can come to hand out the same id. */
module Scope {
  import opened Basics
  import opened Protocol
  import opened Conversation
  import opened Peers
  import opened Connection

  const ENABLE := Move(Client, Emit(FromQueue))
  const SERVE := Move(Server, Receive)

  lemma PlayMore(ms: seq<Move>, n: Net, m: Move)
    requires Play(ms) == At(n) && Possible(n, m)
    ensures Play(ms + [m]) == Do(n, m)
  {
    assert (ms + [m])[..|ms|] == ms;
  }

  // ---- roles and ids over a run -------------------------------------------------------------

  /** As long as requests go one way only, the client has used all ids below its counter. */
  predicate Dense(h: State) {
    h.role.UniClient? && h.role.next.Some? ==> forall i: nat :: i < h.role.next.value ==> i in h.log.asked
  }

  lemma SendRole(h: State, p: Packet)
    ensures Send(h, p).0.role == if p.kind.EnableServerRequests? then h.role.Enabled() else h.role
  {
    match p.kind {
      case Request => case Response => case NoResponse => case Stream => case RequestReceiver => case RequestSender =>
      case StreamClosed => case Close => case Ping => case MalformedRequest => case EnableServerRequests => case Unknown =>
    }
  }

  lemma PartsKeepAsked(h: State, p: Packet, v: Verdict, a: Arrival)
    ensures Seen(h, p).log.asked == h.log.asked && Resolve(h, p.id, v).0.log.asked == h.log.asked
    ensures Arrive(h, p.id, a).log.asked == h.log.asked
  {
  }

  lemma SendAsked(h: State, p: Packet)
    ensures Send(h, p).0.log.asked == h.log.asked
  {
    PartsKeepAsked(h, p, Got(p.body), Arrival(p.body, Delivered));
    PartsKeepAsked(h, p, GotNoResponse, Arrival(p.body, Rejected));
    PartsKeepAsked(h, p, GotMalformed, Arrival(p.body, Rejected));
    hide Seen, Resolve, Arrive;
    match p.kind {
      case Request => case Response => case NoResponse => case Stream => case RequestReceiver => case RequestSender =>
      case StreamClosed => case Close => case Ping => case MalformedRequest => case EnableServerRequests => case Unknown =>
    }
  }

  lemma ErrorRole(h: State, p: Packet)
    ensures PacketError(h, p).0.role == h.role && PacketError(h, p).0.log.asked == h.log.asked
  {
    match p.kind {
      case Request => case Response => case NoResponse => case Stream => case RequestReceiver => case RequestSender =>
      case StreamClosed => case Close => case Ping => case MalformedRequest => case EnableServerRequests => case Unknown =>
    }
  }

  lemma QueueRole(h: State)
    requires CanTake(h, FromQueue)
    ensures var h' := TakeQueue(h).0; var req := h.requests[0];
      h'.role == if req.EnableServer? && h.role.next.Some? then h.role.Advanced().Enabled() else h.role.Advanced()
  {
    if h.role.next.Some? {
      match h.requests[0] {
        case EnableServer => case Ask(_) => case AskSender(_, _) => case AskReceiver(_, _) =>
      }
    }
  }

  lemma QueueAsked(h: State, i: nat)
    requires CanTake(h, FromQueue)
    ensures i in TakeQueue(h).0.log.asked <==>
            i in h.log.asked || (!h.requests[0].EnableServer? && h.role.next == Some(i))
  {
    if h.role.next.Some? {
      match h.requests[0] {
        case EnableServer =>
        case Ask(_) => AskAsked(h, i);
        case AskSender(_, _) => AskSenderAsked(h, i);
        case AskReceiver(_, _) => AskReceiverAsked(h, i);
      }
      hide TakeQueue;
    }
  }

  lemma AskAsked(h: State, i: nat)
    requires CanTake(h, FromQueue) && h.role.next.Some? && h.requests[0].Ask?
    ensures i in TakeQueue(h).0.log.asked <==> i in h.log.asked || h.role.next == Some(i)
  {
  }

  lemma AskSenderAsked(h: State, i: nat)
    requires CanTake(h, FromQueue) && h.role.next.Some? && h.requests[0].AskSender?
    ensures i in TakeQueue(h).0.log.asked <==> i in h.log.asked || h.role.next == Some(i)
  {
    if h.role.next.value in h.wou {
    } else {
    }
  }

  lemma AskReceiverAsked(h: State, i: nat)
    requires CanTake(h, FromQueue) && h.role.next.Some? && h.requests[0].AskReceiver?
    ensures i in TakeQueue(h).0.log.asked <==> i in h.log.asked || h.role.next == Some(i)
  {
  }

  /** The ids stay dense, and a client that shares its connection goes on sharing it. */
  predicate RoleKept(h: State, h': State) {
    (Dense(h) ==> Dense(h')) && (h.role.BiClient? ==> h'.role.BiClient?)
  }

  lemma SameRole(h: State, h': State)
    requires (h'.role == h.role || h'.role == h.role.Enabled()) && h'.log.asked == h.log.asked
    ensures RoleKept(h, h')
  {
  }

  lemma QueueKeepsRole(h: State)
    requires CanTake(h, FromQueue)
    ensures RoleKept(h, TakeQueue(h).0)
  {
    hide TakeQueue;
    QueueRole(h);
    forall i: nat { QueueAsked(h, i); }
  }

  lemma AfterRole(h: State, r: Outcome, inbox: seq<Packet>)
    ensures var t := After(h, r, inbox); t.Moved? ==> t.peer.h.role == h.role && t.peer.h.log == h.log
  {
  }

  lemma ReceiveRole(x: Peer, inbox: seq<Packet>, a: Action)
    requires Able(x, inbox, a) && (a.Receive? || a.ReceiveMalformed?) && Turn(x, inbox, a).Moved?
    ensures RoleKept(x.h, Turn(x, inbox, a).peer.h)
  {
    hide Send, PacketError, After;
    var (h', r) := if a.Receive? then Send(x.h, inbox[0]) else PacketError(x.h, inbox[0]);
    SendRole(x.h, inbox[0]);
    SendAsked(x.h, inbox[0]);
    ErrorRole(x.h, inbox[0]);
    AfterRole(h', r, inbox[1..]);
    SameRole(x.h, Turn(x, inbox, a).peer.h);
  }

  lemma OtherRole(x: Peer, inbox: seq<Packet>, a: Action)
    requires Able(x, inbox, a) && !a.Receive? && !a.ReceiveMalformed? && a != Emit(FromQueue)
    ensures var t := Turn(x, inbox, a); t.Moved? ==> t.peer.h.role == x.h.role && t.peer.h.log.asked == x.h.log.asked
  {
    hide TakeQueue, Send, PacketError;
  }

  lemma TurnRole(x: Peer, inbox: seq<Packet>, a: Action)
    requires Able(x, inbox, a) && Turn(x, inbox, a).Moved?
    ensures RoleKept(x.h, Turn(x, inbox, a).peer.h)
  {
    if a.Receive? || a.ReceiveMalformed? {
      hide Turn, RoleKept;
      ReceiveRole(x, inbox, a);
    } else if a == Emit(FromQueue) {
      hide TakeQueue, RoleKept;
      QueueKeepsRole(x.h);
    } else {
      OtherRole(x, inbox, a);
      hide Turn, RoleKept;
      SameRole(x.h, Turn(x, inbox, a).peer.h);
    }
  }

  lemma {:induction false} ClientIsDense(ms: seq<Move>)
    requires Play(ms).At?
    ensures Dense(Play(ms).net.client.h)
  {
    hide Turn, Able, Dense;
    if ms == [] {
      DenseStart();
    } else {
      ClientIsDense(ms[..|ms| - 1]);
      var n, m := Play(ms[..|ms| - 1]).net, ms[|ms| - 1];
      TurnRole(n.Of(m.who), n.To(m.who), m.action);
    }
  }

  lemma DenseStart()
    ensures Dense(START.client.h)
  {
  }

  // ---- enabling in time ---------------------------------------------------------------------

  /** Whatever follows once the connection is shared is in scope. */
  lemma {:induction false} SharedStaysInScope(ms: seq<Move>, n: Net, more: seq<Move>)
    requires Reached(n, ms) && n.client.h.role.BiClient?
    ensures Scoped(ms + more)
    ensures Play(ms + more).At? ==> Play(ms + more).net.client.h.role.BiClient?
    decreases |more|
  {
    if more == [] {
      assert ms + more == ms;
    } else {
      var all, less := ms + more, more[..|more| - 1];
      assert all[..|all| - 1] == ms + less;
      SharedStaysInScope(ms, n, less);
      NeverBroken(ms + less);
      hide Turn, Able, Inv;
      if Play(ms + less).At? {
        var mid, m := Play(ms + less).net, all[|all| - 1];
        SidesDiffer(mid.client, mid.server, mid.toServer, mid.toClient);
        if Possible(mid, m) && Do(mid, m).At? { TurnRole(mid.Of(m.who), mid.To(m.who), m.action); }
      }
    }
  }

  // ---- enabling late ------------------------------------------------------------------------

  /** The server runs, its user listens and may still ask, and nothing is queued. */
  predicate ServerReady(n: Net) {
    var h := n.server.h;
    n.server.phase.Running? && h.listening && h.requestsOpen && h.requests == []
  }

  lemma SendKeepsRest(h: State, p: Packet)
    ensures var h' := Send(h, p).0;
      h'.listening == h.listening && h'.requests == h.requests && h'.requestsOpen == h.requestsOpen
  {
    match p.kind {
      case Request => case Response => case NoResponse => case Stream => case RequestReceiver => case RequestSender =>
      case StreamClosed => case Close => case Ping => case MalformedRequest => case EnableServerRequests => case Unknown =>
    }
  }

  lemma SendCloses(h: State, p: Packet)
    requires h.listening && !p.kind.Close?
    ensures var r := Send(h, p).1; r.Ok? ==> r.value.Nothing? || r.value.Reply?
  {
    match p.kind {
      case Request => case Response => case NoResponse => case Stream => case RequestReceiver => case RequestSender =>
      case StreamClosed => case Close => case Ping => case MalformedRequest => case EnableServerRequests => case Unknown =>
    }
  }

  /** A server that is ready takes in a packet and is still ready. */
  lemma ServerTakes(n: Net)
    requires ServerReady(n) && n.toServer != [] && !n.toServer[0].kind.Close?
    ensures Possible(n, SERVE)
    ensures var p := Do(n, SERVE); p.At? ==>
      && ServerReady(p.net) && p.net.client == n.client && p.net.toServer == n.toServer[1..]
      && p.net.server.h.role == (if n.toServer[0].kind.EnableServerRequests? then n.server.h.role.Enabled() else n.server.h.role)
  {
    var h, p := n.server.h, n.toServer[0];
    hide Send;
    SendKeepsRest(h, p);
    SendCloses(h, p);
    SendRole(h, p);
  }

  /** Nothing that is in flight to the server stops it, as long as the client has not said goodbye. */
  lemma HeadIsHarmless(n: Net)
    requires NetInv(n) && n.toServer != [] && !n.client.phase.Done? && n.client.h.role.UniClient?
    ensures !n.toServer[0].kind.Close? && !n.toServer[0].kind.EnableServerRequests?
  {
    hide ShapedAt, IdsOk;
    var p := n.toServer[0];
    assert p.kind.EnableServerRequests? ==> Carries(n.toServer, EnableServerRequests);
  }

  /** Two states that differ in one more packet to the server, and in the client. */
  predicate OneMorePacket(n: Net, n': Net, p: Packet) {
    n'.server == n.server && n'.toServer == n.toServer + [p]
  }

  lemma SameTake(n: Net, n': Net, p: Packet)
    requires OneMorePacket(n, n', p) && n.toServer != [] && Possible(n, SERVE) && Do(n, SERVE).At?
    ensures Possible(n', SERVE) && Do(n', SERVE).At?
    ensures OneMorePacket(Do(n, SERVE).net, Do(n', SERVE).net, p) && Do(n', SERVE).net.client == n'.client
  {
    hide Send;
    assert n'.toServer[0] == n.toServer[0] && n'.toServer[1..] == n.toServer[1..] + [p];
  }

  /** The server catches up by one packet, in both states. */
  lemma ServerCatchesOne(n: Net, n': Net, p: Packet)
    requires NetInv(n) && !n.client.phase.Done? && n.client.h.role.UniClient? && ServerReady(n)
    requires OneMorePacket(n, n', p) && n.toServer != []
    ensures Possible(n, SERVE) && Do(n, SERVE).At? && Possible(n', SERVE) && Do(n', SERVE).At?
    ensures var m, m' := Do(n, SERVE).net, Do(n', SERVE).net;
      && NetInv(m) && m.client == n.client && ServerReady(m) && m.server.h.role == n.server.h.role
      && |m.toServer| < |n.toServer| && OneMorePacket(m, m', p) && m'.client == n'.client
  {
    hide NetInv, Do, Possible, ServerReady, InScope, OneMorePacket;
    HeadIsHarmless(n);
    ServerTakes(n);
    ReceivingIsInScope(n.server);
    DoKeeps(n, SERVE);
    SameTake(n, n', p);
  }

  /** The server takes in all that is in flight before the last packet. */
  lemma {:induction false} ServerCatchesUp(n: Net, ms: seq<Move>, n': Net, p: Packet) returns (all: seq<Move>, end: Net)
    requires NetInv(n) && !n.client.phase.Done? && n.client.h.role.UniClient? && ServerReady(n)
    requires Play(ms) == At(n') && OneMorePacket(n, n', p)
    ensures ms <= all && Play(all) == At(end) && end.toServer == [p] && end.client == n'.client
    ensures ServerReady(end) && end.server.h.role == n.server.h.role
    decreases |n.toServer|
  {
    if n.toServer == [] {
      all, end := ms, n';
    } else {
      hide NetInv, Do, Possible, ServerReady, Play, OneMorePacket;
      ServerCatchesOne(n, n', p);
      PlayMore(ms, n', SERVE);
      all, end := ServerCatchesUp(Do(n, SERVE).net, ms + [SERVE], Do(n', SERVE).net, p);
    }
  }

  lemma ReceivingIsInScope(x: Peer)
    ensures InScope(x, Receive)
  {
  }

  /** Nothing has failed, and no id was used by both sides. */
  predicate Harmless(p: Played) {
    !p.Broken? && (p.At? ==> p.net.client.h.log.asked.Keys !! p.net.server.h.log.asked.Keys)
  }

  /** A server that may ask meets the first id above the middle, which the client has used: either it owes an answer
      for it, and its own check fails, or it uses it as well. */
  lemma Collide(ms: seq<Move>, n: Net) returns (all: seq<Move>)
    requires Play(ms) == At(n) && ServerReady(n) && n.server.h.role == BiServer(Some(U32_MID + 1))
    ensures ms <= all && if U32_MID + 1 in n.server.h.wou then Play(all) == Broken(Server, None) else
      Play(all).At? && Play(all).net.client == n.client && U32_MID + 1 in Play(all).net.server.h.log.asked
  {
    var a, b := Move(Server, Enqueue(AskSender(EMPTY, Queue([], true)))), Move(Server, Emit(FromQueue));
    hide Play;
    PlayMore(ms, n, a);
    var n' := Do(n, a).net;
    PlayMore(ms + [a], n', b);
    all := ms + [a] + [b];
  }

  /** The permission arrives, and the server uses it. */
  lemma PermissionArrives(ms: seq<Move>, n: Net, p: Packet) returns (all: seq<Move>)
    requires Play(ms) == At(n) && ServerReady(n) && n.server.h.role.UniServer?
    requires n.toServer == [p] && p.kind.EnableServerRequests? && U32_MID + 1 in n.client.h.log.asked
    ensures ms <= all && !Harmless(Play(all))
  {
    hide Play, ServerReady;
    ServerTakes(n);
    assert Do(n, SERVE).At? by { PermissionIsFine(n, p); }
    PlayMore(ms, n, SERVE);
    all := Collide(ms + [SERVE], Do(n, SERVE).net);
  }

  lemma PermissionIsFine(n: Net, p: Packet)
    requires ServerReady(n) && n.toServer == [p] && p.kind.EnableServerRequests?
    ensures Do(n, SERVE).At?
  {
  }

  /** What enabling does to the whole connection. */
  lemma EnablingMoves(n: Net)
    requires EnablesNext(n.client.h) && !n.client.phase.Done?
    ensures Possible(n, ENABLE) && Do(n, ENABLE).At?
    ensures var n', p := Do(n, ENABLE).net, Packet(EnableServerRequests, n.client.h.role.next.value, EMPTY);
      OneMorePacket(n, n', p) && n'.client.h.log == n.client.h.log && n'.client.h.role.BiClient?
  {
  }

  /** A client has used an id above the middle exactly when its counter is beyond the first one. */
  lemma CounterTells(h: State)
    requires Dense(h) && IdsOk(h) && h.role.UniClient? && h.role.next.Some?
    ensures (forall i <- h.log.asked :: i <= U32_MID) <==> h.role.next.value <= U32_MID + 1
    ensures h.role.next.value > U32_MID + 1 ==> U32_MID + 1 in h.log.asked
  {
    if h.role.next.value > U32_MID + 1 { assert U32_MID + 1 in h.log.asked; }
  }

  lemma LateEnablingHarms(n: Net, ms: seq<Move>) returns (more: seq<Move>)
    requires Reached(n, ms) && EnablesNext(n.client.h) && !n.client.phase.Done? && ServerReady(n)
    requires n.client.h.role.next.value > U32_MID + 1
    ensures !Harmless(Play(ms + [ENABLE] + more))
  {
    ClientIsDense(ms);
    NeverBroken(ms);
    ServerIsOneWay(n);
    hide Reached, NetInv, Play, Do, Possible, ServerReady, Dense, IdsOk;
    CounterTells(n.client.h);
    EnablingMoves(n);
    PlayMore(ms, n, ENABLE);
    var p := Packet(EnableServerRequests, n.client.h.role.next.value, EMPTY);
    var all, end := ServerCatchesUp(n, ms + [ENABLE], Do(n, ENABLE).net, p);
    all := PermissionArrives(all, end, p);
    more := all[|ms + [ENABLE]|..];
    assert ms + [ENABLE] + more == all;
  }

  lemma ServerIsOneWay(n: Net)
    requires NetInv(n) && n.client.h.role.UniClient?
    ensures n.server.h.role.UniServer? && IdsOk(n.client.h)
  {
    hide ShapedAt;
  }

  lemma EnablingInTime(n: Net, ms: seq<Move>, more: seq<Move>)
    requires Reached(n, ms) && EnablesNext(n.client.h) && !n.client.phase.Done?
    requires n.client.h.role.next.value <= U32_MID + 1
    ensures Harmless(Play(ms + [ENABLE] + more))
  {
    ClientIsDense(ms);
    NeverBroken(ms);
    ServerIsOneWay(n);
    CounterTells(n.client.h);
    EnablingMoves(n);
    PlayMore(ms, n, ENABLE);
    var all := ms + [ENABLE];
    assert all[..|all| - 1] == ms && all[|all| - 1] == ENABLE;
    hide NetInv, Do, Possible, Dense, IdsOk;
    assert Reached(Do(n, ENABLE).net, all);
    SharedStaysInScope(all, Do(n, ENABLE).net, more);
    NeverBroken(all + more);
    if Play(all + more).At? { IdsNeverMeet(Play(all + more).net, all + more); }
  }

  /** A client is about to enable server requests, and its server is ready for them. Everything that can follow is
      harmless if and only if the client's counter has not passed the first id above the middle. */
  lemma EnablingExactly(n: Net, ms: seq<Move>)
    requires Reached(n, ms) && EnablesNext(n.client.h) && !n.client.phase.Done? && ServerReady(n)
    ensures n.client.h.role.next.value <= U32_MID + 1 <==> forall more :: Harmless(Play(ms + [ENABLE] + more))
  {
    hide Reached, Harmless, Play, ServerReady;
    if n.client.h.role.next.value <= U32_MID + 1 {
      forall more ensures Harmless(Play(ms + [ENABLE] + more)) {
        EnablingInTime(n, ms, more);
      }
    } else {
      var more := LateEnablingHarms(n, ms);
    }
  }

  // ---- such a state is reached --------------------------------------------------------------

  /** The client has sent n requests, the server has taken in all of them and answered none. */
  predicate Warm(net: Net, n: nat) {
    var c, s := net.client, net.server;
    && c.phase.Running? && s.h.role == UniServer && net.toServer == [] && net.toClient == [] && ServerReady(net)
    && c.h.role == UniClient(Some(n)) && c.h.requests == [] && c.h.requestsOpen
    && (forall i <- c.h.wos :: i < n) && (forall i <- s.h.wou :: i < n)
    && (n > 0 ==> n - 1 in s.h.wou)
  }

  const QUEUE_ASK := Move(Client, Enqueue(Ask(EMPTY)))

  lemma AskIsQueued(net: Net, n: nat)
    requires Warm(net, n)
    ensures Possible(net, QUEUE_ASK)
    ensures Do(net, QUEUE_ASK) == At(net.(client := net.client.(h := net.client.h.(requests := [Ask(EMPTY)]))))
  {
  }

  lemma AskIsSent(net: Net, n: nat)
    requires Warm(net.(client := net.client.(h := net.client.h.(requests := []))), n) && n < U32_MAX
    requires net.client.h.requests == [Ask(EMPTY)]
    ensures Possible(net, ENABLE) && Do(net, ENABLE).At?
    ensures var net', p := Do(net, ENABLE).net, Packet(Request, n, EMPTY); var c := net'.client;
      && net'.server == net.server && net'.toClient == [] && net'.toServer == [p]
      && c.phase.Running? && c.h.role == UniClient(Some(n + 1)) && c.h.requests == [] && c.h.requestsOpen
      && (forall i <- c.h.wos :: i < n + 1)
  {
  }

  lemma AskIsTaken(net: Net, n: nat)
    requires net.toServer == [Packet(Request, n, EMPTY)] && ServerReady(net) && net.server.h.role == UniServer
    requires forall i <- net.server.h.wou :: i < n
    ensures Possible(net, SERVE) && Do(net, SERVE).At?
    ensures var net' := Do(net, SERVE).net;
      && net'.client == net.client && net'.toServer == [] && net'.toClient == net.toClient && ServerReady(net')
      && net'.server.h.role == UniServer && n in net'.server.h.wou && (forall i <- net'.server.h.wou :: i < n + 1)
  {
  }

  lemma OneMore(ms: seq<Move>, net: Net, n: nat) returns (ms': seq<Move>, net': Net)
    requires Play(ms) == At(net) && Warm(net, n) && n < U32_MAX
    ensures Play(ms') == At(net') && Warm(net', n + 1)
  {
    hide Play, Do, Possible, ServerReady;
    AskIsQueued(net, n);
    PlayMore(ms, net, QUEUE_ASK);
    var n1 := Do(net, QUEUE_ASK).net;
    assert n1.(client := n1.client.(h := n1.client.h.(requests := []))) == net;
    AskIsSent(n1, n);
    PlayMore(ms + [QUEUE_ASK], n1, ENABLE);
    var n2 := Do(n1, ENABLE).net;
    assert ServerReady(n2) by { SameServer(net, n2); }
    AskIsTaken(n2, n);
    PlayMore(ms + [QUEUE_ASK] + [ENABLE], n2, SERVE);
    ms', net' := ms + [QUEUE_ASK] + [ENABLE] + [SERVE], Do(n2, SERVE).net;
  }

  lemma SameServer(n: Net, n': Net)
    requires ServerReady(n) && n'.server == n.server
    ensures ServerReady(n')
  {
  }

  lemma StartsWarm()
    ensures Play([]) == At(START) && Warm(START, 0)
  {
  }

  lemma {:induction false} ManyRequests(n: nat) returns (ms: seq<Move>, net: Net)
    requires n <= U32_MAX
    ensures Play(ms) == At(net) && Warm(net, n)
  {
    hide Play, Warm;
    if n == 0 {
      ms, net := [], START;
      StartsWarm();
    } else {
      ms, net := ManyRequests(n - 1);
      ms, net := OneMore(ms, net, n - 1);
    }
  }

  /** Without the restriction of `Scoped`, a run of conforming endpoints can break: the server is given an id it
      already owes an answer for. */
  lemma ScopeIsNeeded()
    ensures exists ms :: Play(ms) == Broken(Server, None)
  {
    hide Play, Do, Possible, ServerReady;
    var ms, net := ManyRequests(U32_MID + 2);
    var m := Move(Client, Enqueue(EnableServer));
    EnableIsQueued(net);
    PlayMore(ms, net, m);
    var n1 := Do(net, m).net;
    EnablingMoves(n1);
    PlayMore(ms + [m], n1, ENABLE);
    var n2 := Do(n1, ENABLE).net;
    assert n2.toServer == [Packet(EnableServerRequests, U32_MID + 2, EMPTY)];
    assert ServerReady(n2) by { SameServer(net, n2); }
    ServerTakes(n2);
    PermissionTaken(n2);
    PlayMore(ms + [m] + [ENABLE], n2, SERVE);
    var all := Collide(ms + [m] + [ENABLE] + [SERVE], Do(n2, SERVE).net);
  }

  lemma EnableIsQueued(net: Net)
    requires Warm(net, U32_MID + 2)
    ensures var m := Move(Client, Enqueue(EnableServer));
      && Possible(net, m)
      && Do(net, m) == At(net.(client := net.client.(h := net.client.h.(requests := [EnableServer]))))
  {
  }

  lemma PermissionTaken(n: Net)
    requires ServerReady(n) && |n.toServer| == 1 && n.toServer[0].kind.EnableServerRequests?
    ensures Do(n, SERVE).At? && Do(n, SERVE).net.server.h.wou == n.server.h.wou
  {
  }
}
