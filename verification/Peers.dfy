/** Two endpoints over two reliable channels: one invariant that every step of either side keeps. */
module Peers {
  import opened Basics
  import opened Protocol
  import opened Conversation
  import opened ConversationSteps

  // ---- what holds apart from conversations --------------------------------------------------

  /** The ids of the two sides cannot meet: the counter is ahead of every id used, the server's ids lie above
      the middle, and a client that shares the connection keeps below it. */
  predicate IdsOk(h: State) {
    && (h.role.UniServer? ==> h.log.asked == map[])
    && (h.role.BiServer? ==> (forall i <- h.log.asked :: i > U32_MID) && (h.role.next.Some? ==> h.role.next.value > U32_MID))
    && (h.role.BiClient? ==> (forall i <- h.log.asked :: i <= U32_MID) && (h.role.next.Some? ==> h.role.next.value <= U32_MID))
    && (h.role.CanSendRequests() && h.role.next.Some? ==>
          h.role.next.value <= U32_MAX && forall i <- h.log.asked :: i < h.role.next.value)
  }

  predicate Carries(q: seq<Packet>, k: Kind) {
    exists j :: 0 <= j < |q| && q[j].kind == k
  }

  /** Server requests need a client that takes them, from the moment the permission is on its way. */
  predicate EnabledOk(x: Peer, y: Peer, xy: seq<Packet>) {
    && (x.h.role.BiServer? ==> y.h.role.BiClient?)
    && (Carries(xy, EnableServerRequests) ==> x.h.role.BiClient? || x.h.role.BiServer?)
  }

  /** A close packet is the last packet of an endpoint that is done. */
  predicate CloseOk(x: Peer, xy: seq<Packet>) {
    && (forall j :: 0 <= j < |xy| && xy[j].kind.Close? ==> j == |xy| - 1 && x.phase.Done?)
    && (x.phase == Done(true) ==> x.h.wou == map[])
  }

  predicate Common(x: Peer, y: Peer, xy: seq<Packet>, yx: seq<Packet>) {
    && x.h.role.Server() != y.h.role.Server()
    && IdsOk(x.h) && IdsOk(y.h)
    && EnabledOk(x, y, xy) && EnabledOk(y, x, yx)
    && CloseOk(x, xy) && CloseOk(y, yx)
    && !Carries(xy, Unknown) && !Carries(yx, Unknown)
  }

  predicate ShapedAt(x: Peer, y: Peer, xy: seq<Packet>, yx: seq<Packet>, i: nat) {
    Shaped(SlotOf(x.h, i), SlotOf(y.h, i), Thread(xy, i), Thread(yx, i), i, x.phase.Running?, y.phase.Running?)
  }

  ghost predicate Inv(x: Peer, y: Peer, xy: seq<Packet>, yx: seq<Packet>) {
    && Common(x, y, xy, yx)
    && forall i: nat :: ShapedAt(x, y, xy, yx, i)
  }

  lemma InvFlips(x: Peer, y: Peer, xy: seq<Packet>, yx: seq<Packet>)
    requires Inv(x, y, xy, yx)
    ensures Inv(y, x, yx, xy)
  {
    hide Shaped;
    forall i: nat ensures ShapedAt(y, x, yx, xy, i) {
      assert ShapedAt(x, y, xy, yx, i);
      ShapedFlips(SlotOf(x.h, i), SlotOf(y.h, i), Thread(xy, i), Thread(yx, i), i, x.phase.Running?, y.phase.Running?);
    }
  }

  /** A connection as it starts. */
  lemma InvStarts()
    ensures Inv(Peer(New(false), Running), Peer(New(true), Running), [], [])
  {
    var x, y := Peer(New(false), Running), Peer(New(true), Running);
    forall i: nat ensures ShapedAt(x, y, [], [], i) {
      assert SlotOf(x.h, i) == UNUSED && SlotOf(y.h, i) == UNUSED;
    }
  }

  // ---- consequences -------------------------------------------------------------------------

  /** An id is used by one side only. */
  lemma IdsDisjoint(x: Peer, y: Peer, xy: seq<Packet>, yx: seq<Packet>, i: nat)
    requires Common(x, y, xy, yx)
    ensures !(i in x.h.log.asked && i in y.h.log.asked)
  {
  }

  /** The id about to be handed out is new to both sides. */
  lemma NextIdIsFresh(x: Peer, y: Peer, xy: seq<Packet>, yx: seq<Packet>, i: nat)
    requires Inv(x, y, xy, yx) && x.h.role.CanSendRequests() && x.h.role.Id() == Some(i)
    ensures SlotOf(x.h, i) == UNUSED && SlotOf(y.h, i) == UNUSED && Thread(xy, i) == [] && Thread(yx, i) == []
  {
    hide Shaped;
    assert i !in x.h.log.asked && i !in y.h.log.asked;
    assert ShapedAt(x, y, xy, yx, i);
    NobodyAsked(SlotOf(x.h, i), SlotOf(y.h, i), Thread(xy, i), Thread(yx, i), i, x.phase.Running?, y.phase.Running?);
  }

  // ---- a step: its effect on the part that is not about conversations -----------------------

  /** The next request in the queue enables server requests, and there is an id for it. */
  predicate EnablesNext(h: State) {
    h.role.UniClient? && h.role.next.Some? && h.requests != [] && h.requests[0].EnableServer?
  }

  /** The client may enable server requests only before it has used an id above the middle. */
  predicate InScope(x: Peer, a: Action) {
    a == Emit(FromQueue) && EnablesNext(x.h) ==> forall i <- x.h.log.asked :: i <= U32_MID
  }

  lemma CarriesConcat(a: seq<Packet>, b: seq<Packet>, k: Kind)
    ensures Carries(a + b, k) <==> Carries(a, k) || Carries(b, k)
  {
    if Carries(a, k) {
      var j :| 0 <= j < |a| && a[j].kind == k;
      assert (a + b)[j].kind == k;
    }
    if Carries(b, k) {
      var j :| 0 <= j < |b| && b[j].kind == k;
      assert (a + b)[|a| + j].kind == k;
    }
  }

  /** Facts about the common part that hold when an endpoint only appends `out` and its inbox only shrinks. */
  lemma CommonKeeps(x: Peer, x': Peer, y: Peer, xy: seq<Packet>, out: seq<Packet>, yx: seq<Packet>, yx': seq<Packet>)
    requires Common(x, y, xy, yx)
    requires yx' == yx || (yx != [] && yx' == yx[1..])
    requires x'.h.role.Server() == x.h.role.Server() && IdsOk(x'.h)
    requires x'.h.role.BiServer? ==> y.h.role.BiClient?
    requires x.h.role.BiClient? ==> x'.h.role.BiClient?
    requires x.h.role.BiServer? ==> x'.h.role.BiServer?
    requires Carries(out, EnableServerRequests) ==> x'.h.role.BiClient? || x'.h.role.BiServer?
    requires !Carries(out, Unknown)
    requires !x.phase.Done? || (out == [] && x'.phase == x.phase && x'.h.wou.Keys == x.h.wou.Keys)
    requires Carries(out, Close) ==> |out| == 1 && x'.phase.Done?
    requires x'.phase == Done(true) ==> x'.h.wou == map[]
    ensures Common(x', y, xy + out, yx')
  {
    CarriesConcat(xy, out, EnableServerRequests);
    CarriesConcat(xy, out, Unknown);
    if yx' != yx {
      assert yx == [yx[0]] + yx';
      CarriesConcat([yx[0]], yx', EnableServerRequests);
      CarriesConcat([yx[0]], yx', Unknown);
      assert forall j :: 0 <= j < |yx'| ==> yx'[j] == yx[j + 1];
    }
    forall j | 0 <= j < |xy + out| && (xy + out)[j].kind.Close?
      ensures j == |xy + out| - 1 && x'.phase.Done?
    {
      if j < |xy| {
        assert xy[j].kind.Close?;
      } else {
        assert out[j - |xy|].kind == Close;
      }
    }
    assert y.h.role.BiServer? ==> x'.h.role.BiClient?;
  }

  // ---- frames -------------------------------------------------------------------------------

  /** A conversation is untouched when neither the slot nor the two threads change. */
  lemma Untouched(x: Peer, x': Peer, y: Peer, xy: seq<Packet>, xy': seq<Packet>, yx: seq<Packet>, yx': seq<Packet>, i: nat)
    requires ShapedAt(x, y, xy, yx, i)
    requires SlotOf(x'.h, i) == SlotOf(x.h, i) && x'.phase.Running? == x.phase.Running?
    requires Thread(xy', i) == Thread(xy, i) && Thread(yx', i) == Thread(yx, i)
    ensures ShapedAt(x', y, xy', yx', i)
  {
  }

  lemma NoOut(xy: seq<Packet>)
    ensures xy + [] == xy
  {
  }

  lemma ThreadSnoc(xy: seq<Packet>, p: Packet, i: nat)
    ensures Thread(xy + [p], i) == Thread(xy, i) + (if Belongs(p, i) then [p] else [])
  {
    ThreadOfConcat(xy, [p], i);
    ThreadOfOne(p, i);
  }

  lemma ThreadHead(yx: seq<Packet>, i: nat)
    requires yx != []
    ensures Thread(yx, i) == (if Belongs(yx[0], i) then [yx[0]] else []) + Thread(yx[1..], i)
  {
  }

  /** A step that touches one id, and the common part rightly, keeps the invariant. */
  lemma OneId(x: Peer, x': Peer, y: Peer, xy: seq<Packet>, out: seq<Packet>, yx: seq<Packet>, yx': seq<Packet>, i: nat)
    requires Inv(x, y, xy, yx) && Common(x', y, xy + out, yx')
    requires x'.phase.Running? == x.phase.Running?
    requires |out| <= 1 && (out != [] && out[0].kind.Threaded() ==> out[0].id == i)
    requires yx' == yx || (yx != [] && yx' == yx[1..] && (yx[0].kind.Threaded() ==> yx[0].id == i))
    requires forall j: nat :: j != i ==> SlotOf(x'.h, j) == SlotOf(x.h, j)
    requires ShapedAt(x', y, xy + out, yx', i)
    ensures Inv(x', y, xy + out, yx')
  {
    hide Shaped, SlotOf, Common;
    forall j: nat ensures ShapedAt(x', y, xy + out, yx', j) {
      if j != i {
        assert ShapedAt(x, y, xy, yx, j);
        if out == [] { NoOut(xy); } else { assert out == [out[0]]; ThreadSnoc(xy, out[0], j); }
        if yx' != yx { ThreadHead(yx, j); }
        Untouched(x, x', y, xy, xy + out, yx, yx', j);
      }
    }
  }

  // ---- closing ------------------------------------------------------------------------------

  lemma ClosedSlotOf(h: State, i: nat)
    ensures SlotOf(Closed(h), i) == ClosedSlot(SlotOf(h, i))
  {
  }

  lemma CloseKeepsInv(x: Peer, y: Peer, xy: seq<Packet>, yx: seq<Packet>, withPacket: bool)
    requires Inv(x, y, xy, yx) && !x.phase.Done?
    ensures Inv(Peer(Closed(x.h), Closing(withPacket)), y, xy, yx)
  {
    var x' := Peer(Closed(x.h), Closing(withPacket));
    forall i: nat ensures ShapedAt(x', y, xy, yx, i) {
      hide Shaped, SlotOf;
      assert ShapedAt(x, y, xy, yx, i);
      ClosedSlotOf(x.h, i);
      CloseKeeps(SlotOf(x.h, i), SlotOf(y.h, i), Thread(xy, i), Thread(yx, i), i, x.phase.Running?, y.phase.Running?);
    }
  }

  // ---- the local user -----------------------------------------------------------------------

  predicate ByUser(a: Action) {
    !a.Receive? && !a.ReceiveMalformed? && !a.Emit? && !a.SendPing? && !a.CloseSignal? && !a.Finish?
  }

  /** The id a user's action is about. */
  function UserId(a: Action): nat {
    match a
    case Answer(id, _) => id
    case DropAnswer(id) => id
    case Push(id, _) => id
    case EndPush(id) => id
    case DropConsumer(id) => id
    case _ => 0
  }

  /** What a user's action makes of the slot it is about. */
  function UserSlot(s: Slot, a: Action): Slot {
    match a
    case Answer(_, b) => s.(wou := Some(Answering(Answered(b))), given := Some(b))
    case DropAnswer(_) => s.(wou := Some(Answering(Dropped)))
    case Push(_, b) =>
      (match s.wou
       case Some(Sending(q)) => s.(wou := Some(Sending(q.(items := q.items + [b]))), pushed := s.pushed + [b])
       case _ => s)
    case EndPush(_) =>
      (match s.wou
       case Some(Sending(q)) => s.(wou := Some(Sending(q.(open := false))))
       case _ => s)
    case DropConsumer(_) => s.(wos := Some(Receiving(false)), dropped := true)
    case _ => s
  }

  lemma UserSlots(x: Peer, yx: seq<Packet>, a: Action, j: nat)
    requires Able(x, yx, a) && ByUser(a)
    ensures SlotOf(Turn(x, yx, a).peer.h, j) ==
            if j == UserId(a) then UserSlot(SlotOf(x.h, j), a) else SlotOf(x.h, j)
  {
  }

  lemma UserShape(x: Peer, y: Peer, xy: seq<Packet>, yx: seq<Packet>, a: Action)
    requires Inv(x, y, xy, yx) && Able(x, yx, a) && ByUser(a)
    ensures ShapedAt(Turn(x, yx, a).peer, y, xy, yx, UserId(a))
  {
    var i := UserId(a);
    assert ShapedAt(x, y, xy, yx, i);
    UserSlots(x, yx, a, i);
    SlotAllows(x, yx, a);
    assert Turn(x, yx, a).peer.phase == x.phase;
    hide Inv, Shaped, SlotOf, Turn, Able, UserSlot;
    UserSlotShape(SlotOf(x.h, i), SlotOf(y.h, i), Thread(xy, i), Thread(yx, i), i, x.phase.Running?, y.phase.Running?, a);
  }

  /** What a slot must hold for a user's action. */
  predicate Allows(s: Slot, a: Action) {
    match a
    case Answer(_, _) => s.wou == Some(Answering(Waiting))
    case DropAnswer(_) => s.wou == Some(Answering(Waiting))
    case Push(_, _) => s.wou.Some? && s.wou.value.Sending?
    case EndPush(_) => s.wou.Some? && s.wou.value.Sending?
    case DropConsumer(_) => s.wos.Some? && s.wos.value.Receiving?
    case _ => true
  }

  lemma SlotAllows(x: Peer, yx: seq<Packet>, a: Action)
    requires Able(x, yx, a) && ByUser(a)
    ensures Allows(SlotOf(x.h, UserId(a)), a)
  {
  }

  lemma UserSlotShape(s: Slot, t: Slot, out: seq<Packet>, in_: seq<Packet>, i: nat, xr: bool, yr: bool, a: Action)
    requires Shaped(s, t, out, in_, i, xr, yr) && Allows(s, a)
    ensures Shaped(UserSlot(s, a), t, out, in_, i, xr, yr)
  {
    hide Shaped;
    match a
    case Answer(_, b) => AnswerKeeps(s, t, out, in_, i, xr, yr, b);
    case DropAnswer(_) => DropAnswerKeeps(s, t, out, in_, i, xr, yr);
    case Push(_, b) => PushKeeps(s, t, out, in_, i, xr, yr, s.wou.value.queue, b);
    case EndPush(_) => EndPushKeeps(s, t, out, in_, i, xr, yr, s.wou.value.queue);
    case DropConsumer(_) => DropConsumerKeeps(s, t, out, in_, i, xr, yr);
    case _ =>
  }

  lemma UserCommon(x: Peer, y: Peer, xy: seq<Packet>, yx: seq<Packet>, a: Action)
    requires Common(x, y, xy, yx) && Able(x, yx, a) && ByUser(a)
    ensures Common(Turn(x, yx, a).peer, y, xy, yx)
  {
    var x' := Turn(x, yx, a).peer;
    assert x'.h.role == x.h.role && x'.h.log.asked == x.h.log.asked && x'.phase == x.phase;
    assert x'.h.wou.Keys == x.h.wou.Keys;
    assert x.h.wou == map[] ==> x'.h.wou == map[];
  }

  lemma UserKeeps(x: Peer, y: Peer, xy: seq<Packet>, yx: seq<Packet>, a: Action)
    requires Inv(x, y, xy, yx) && Able(x, yx, a) && ByUser(a)
    ensures Inv(Turn(x, yx, a).peer, y, xy + [], yx)
  {
    var x' := Turn(x, yx, a).peer;
    NoOut(xy);
    UserCommon(x, y, xy, yx, a);
    UserShape(x, y, xy, yx, a);
    forall j: nat | j != UserId(a) ensures SlotOf(x'.h, j) == SlotOf(x.h, j) {
      UserSlots(x, yx, a, j);
    }
    assert x'.phase == x.phase;
    hide Common, Shaped, Turn;
    OneId(x, x', y, xy, [], yx, yx, UserId(a));
  }

  // ---- sending ------------------------------------------------------------------------------

  lemma EmitUserKeeps(x: Peer, y: Peer, xy: seq<Packet>, yx: seq<Packet>, id: nat)
    requires Inv(x, y, xy, yx) && Able(x, yx, Emit(FromUser(id)))
    ensures var t := Turn(x, yx, Emit(FromUser(id)));
      t.Moved? && t.inbox == yx && Inv(t.peer, y, xy + t.out, yx)
  {
    var (h', p) := TakeUser(x.h, id);
    var x' := x.(h := h');
    assert Turn(x, yx, Emit(FromUser(id))) == Moved(x', yx, [p]);
    hide TakeUser, Turn, SlotOf, ShapedAt;
    TakeUserSlot(x.h, id);
    UserPacketShape(x, y, xy, yx, id);
    CommonKeeps(x, x', y, xy, [p], yx, yx);
    hide Common;
    forall j: nat | j != id ensures SlotOf(h', j) == SlotOf(x.h, j) { TakeUserElse(x.h, id, j); }
    OneId(x, x', y, xy, [p], yx, yx, id);
  }

  lemma UserPacketShape(x: Peer, y: Peer, xy: seq<Packet>, yx: seq<Packet>, id: nat)
    requires Inv(x, y, xy, yx) && CanTake(x.h, FromUser(id))
    ensures var (h', p) := TakeUser(x.h, id); ShapedAt(x.(h := h'), y, xy + [p], yx, id)
  {
    var (h', p) := TakeUser(x.h, id);
    assert ShapedAt(x, y, xy, yx, id);
    var s, s', t := SlotOf(x.h, id), SlotOf(h', id), SlotOf(y.h, id);
    assert s.wou == Some(x.h.wou[id]);
    hide Inv, TakeUser, SlotOf, Shaped;
    TakeUserSlot(x.h, id);
    ThreadSnoc(xy, p, id);
    match x.h.wou[id]
    case Answering(_) => EmitAnswerKeeps(s, t, Thread(xy, id), Thread(yx, id), id, x.phase.Running?, y.phase.Running?, p);
    case Sending(_) => EmitDataKeeps(s, s', t, Thread(xy, id), Thread(yx, id), id, x.phase.Running?, y.phase.Running?, p);
  }

  /** What an entry that sends a packet makes of its slot. */
  predicate TookUser(u: UserResponse, s: Slot, s': Slot, p: Packet) {
    && s' == s.(wou := s'.wou)
    && match u
       case Answering(reply) =>
         && s'.wou == None
         && p == (match reply case Answered(b) => Packet(Response, p.id, b) case _ => Packet(NoResponse, p.id, EMPTY))
       case Sending(q) =>
         || (p.kind.Stream? && q.items != [] && p.body == q.items[0] && s'.wou == Some(Sending(q.(items := q.items[1..]))))
         || (p.kind.StreamClosed? && q.items == [] && s'.wou == None)
  }

  lemma TakeUserSlot(h: State, id: nat)
    requires CanTake(h, FromUser(id))
    ensures var (h', p) := TakeUser(h, id);
      && Belongs(p, id) && h'.role == h.role && h'.log == h.log
      && TookUser(h.wou[id], SlotOf(h, id), SlotOf(h', id), p)
  {
    match h.wou[id] {
      case Answering(_) =>
      case Sending(q) => if q.items != [] { }
    }
  }

  lemma TakeUserElse(h: State, id: nat, j: nat)
    requires CanTake(h, FromUser(id)) && j != id
    ensures SlotOf(TakeUser(h, id).0, j) == SlotOf(h, j)
  {
    match h.wou[id] {
      case Answering(_) =>
      case Sending(q) => if q.items != [] { }
    }
  }

  lemma IdsAdvance(h: State, i: nat, asked: map<nat, Question>)
    requires IdsOk(h) && h.role.CanSendRequests() && h.role.Id() == Some(i)
    requires asked.Keys <= h.log.asked.Keys + {i}
    ensures forall h': State :: h'.role == h.role.Advanced() && h'.log.asked == asked ==> IdsOk(h')
  {
  }

  lemma ExhaustedKeeps(x: Peer, y: Peer, xy: seq<Packet>, yx: seq<Packet>)
    requires Inv(x, y, xy, yx) && Able(x, yx, Emit(FromQueue)) && x.h.role.Id().None?
    ensures var t := Turn(x, yx, Emit(FromQueue));
      t.Moved? && t.inbox == yx && Inv(t.peer, y, xy + t.out, yx)
  {
    var x' := x.(h := TakeQueue(x.h).0);
    assert x'.h == x.h.(requests := x.h.requests[1..]);
    NoOut(xy);
    CommonKeeps(x, x', y, xy, [], yx, yx);
    forall j: nat ensures SlotOf(x'.h, j) == SlotOf(x.h, j) { }
    assert ShapedAt(x, y, xy, yx, 0);
    OneId(x, x', y, xy, [], yx, yx, 0);
  }

  lemma EnableKeeps(x: Peer, y: Peer, xy: seq<Packet>, yx: seq<Packet>)
    requires Inv(x, y, xy, yx) && Able(x, yx, Emit(FromQueue)) && InScope(x, Emit(FromQueue))
    requires x.h.role.Id().Some? && x.h.requests[0].EnableServer?
    ensures var t := Turn(x, yx, Emit(FromQueue));
      t.Moved? && t.inbox == yx && Inv(t.peer, y, xy + t.out, yx)
  {
    var h' := TakeQueue(x.h).0;
    var x', p := x.(h := h'), Packet(EnableServerRequests, x.h.role.Id().value, EMPTY);
    hide TakeQueue, Common, ShapedAt, SlotOf;
    EnableTakes(x.h);
    EnableCommon(x, y, xy, yx);
    ThreadSnoc(xy, p, 0);
    assert ShapedAt(x, y, xy, yx, 0);
    Untouched(x, x', y, xy, xy + [p], yx, yx, 0);
    OneId(x, x', y, xy, [p], yx, yx, 0);
  }

  lemma EnableCommon(x: Peer, y: Peer, xy: seq<Packet>, yx: seq<Packet>)
    requires Common(x, y, xy, yx) && Able(x, yx, Emit(FromQueue)) && InScope(x, Emit(FromQueue))
    requires x.h.role.Id().Some? && x.h.requests[0].EnableServer?
    ensures Common(x.(h := TakeQueue(x.h).0), y, xy + [Packet(EnableServerRequests, x.h.role.Id().value, EMPTY)], yx)
  {
    hide TakeQueue;
    EnableTakes(x.h);
    CommonKeeps(x, x.(h := TakeQueue(x.h).0), y, xy, [Packet(EnableServerRequests, x.h.role.Id().value, EMPTY)], yx, yx);
  }

  lemma EnableTakes(h: State)
    requires CanTake(h, FromQueue) && IdsOk(h) && h.role.Id().Some? && h.requests[0].EnableServer?
    requires h.role.UniClient? ==> forall i <- h.log.asked :: i <= U32_MID
    ensures var (h', r) := TakeQueue(h);
      && r == Packets(Packet(EnableServerRequests, h.role.Id().value, EMPTY))
      && h'.log == h.log && h'.wou == h.wou && (forall j: nat :: SlotOf(h', j) == SlotOf(h, j))
      && h'.role.Server() == h.role.Server() && IdsOk(h')
      && (h.role.BiServer? <==> h'.role.BiServer?) && (h'.role.BiClient? || h'.role.BiServer?)
  {
  }

  lemma OpenShape(x: Peer, y: Peer, xy: seq<Packet>, yx: seq<Packet>)
    requires Inv(x, y, xy, yx) && CanTake(x.h, FromQueue)
    requires x.h.role.Id().Some? && !x.h.requests[0].EnableServer?
    ensures var (h', r) := TakeQueue(x.h);
      r.Packets? && ShapedAt(x.(h := h'), y, xy + [r.packet], yx, x.h.role.Id().value)
    ensures SlotOf(x.h, x.h.role.Id().value) == UNUSED
  {
    var id := x.h.role.Id().value;
    NextIdIsFresh(x, y, xy, yx, id);
    hide TakeQueue, Shaped, Inv;
    TakeQueuePacket(x.h);
    TakeQueueSlot(x.h, id);
    var (h', r) := TakeQueue(x.h);
    hide SlotOf;
    ThreadSnoc(xy, r.packet, id);
    var xr, yr := x.phase.Running?, y.phase.Running?;
    assert Thread(xy, id) + [r.packet] == [r.packet];
    match x.h.requests[0]
    case Ask(b) => AskKeeps(id, b, xr, yr);
    case AskSender(b, q) => AskSenderKeeps(id, b, q, xr, yr);
    case AskReceiver(b, open) => AskReceiverKeeps(id, b, open, xr, yr);
  }

  lemma OpenKeeps(x: Peer, y: Peer, xy: seq<Packet>, yx: seq<Packet>)
    requires Inv(x, y, xy, yx) && Able(x, yx, Emit(FromQueue))
    requires x.h.role.Id().Some? && !x.h.requests[0].EnableServer?
    ensures var t := Turn(x, yx, Emit(FromQueue));
      t.Moved? && t.inbox == yx && Inv(t.peer, y, xy + t.out, yx)
  {
    var id := x.h.role.Id().value;
    hide TakeQueue, ShapedAt;
    OpenShape(x, y, xy, yx);
    TakeQueuePacket(x.h);
    var (h', r) := TakeQueue(x.h);
    var x', p := x.(h := h'), r.packet;
    assert Turn(x, yx, Emit(FromQueue)) == Moved(x', yx, [p]);
    hide Turn;
    IdsAdvance(x.h, id, h'.log.asked);
    CommonKeeps(x, x', y, xy, [p], yx, yx);
    hide Common, SlotOf;
    forall j: nat | j != id ensures SlotOf(h', j) == SlotOf(x.h, j) { TakeQueueSlot(x.h, j); }
    OneId(x, x', y, xy, [p], yx, yx, x.h.role.Id().value);
  }

  /** The slot of a request that just left. */
  function OpenedSlot(req: InternalRequest): Slot {
    match req
    case Ask(b) => UNUSED.(wos := Some(Awaiting), asked := Some(Question(Request, b)))
    case AskSender(b, q) => UNUSED.(wou := Some(Sending(q)), asked := Some(Question(RequestSender, b)), pushed := q.items)
    case AskReceiver(b, open) =>
      UNUSED.(wos := Some(Receiving(open)), asked := Some(Question(RequestReceiver, b)), dropped := !open)
    case EnableServer => UNUSED
  }

  lemma TakeQueueSlot(h: State, j: nat)
    requires CanTake(h, FromQueue) && h.role.Id().Some? && !h.requests[0].EnableServer?
    requires SlotOf(h, h.role.Id().value) == UNUSED
    ensures SlotOf(TakeQueue(h).0, j) == if j == h.role.Id().value then OpenedSlot(h.requests[0]) else SlotOf(h, j)
  {
    hide TakeQueue, SlotOf;
    match h.requests[0]
    case Ask(_) => TakeAsk(h, j);
    case AskSender(_, _) => TakeAskSender(h, j);
    case AskReceiver(_, _) => TakeAskReceiver(h, j);
  }

  lemma TakeAsk(h: State, j: nat)
    requires CanTake(h, FromQueue) && h.role.Id().Some? && h.requests[0].Ask?
    requires SlotOf(h, h.role.Id().value) == UNUSED
    ensures SlotOf(TakeQueue(h).0, j) == if j == h.role.Id().value then OpenedSlot(h.requests[0]) else SlotOf(h, j)
  {
  }

  lemma TakeAskSender(h: State, j: nat)
    requires CanTake(h, FromQueue) && h.role.Id().Some? && h.requests[0].AskSender?
    requires SlotOf(h, h.role.Id().value) == UNUSED
    ensures SlotOf(TakeQueue(h).0, j) == if j == h.role.Id().value then OpenedSlot(h.requests[0]) else SlotOf(h, j)
  {
  }

  lemma TakeAskReceiver(h: State, j: nat)
    requires CanTake(h, FromQueue) && h.role.Id().Some? && h.requests[0].AskReceiver?
    requires SlotOf(h, h.role.Id().value) == UNUSED
    ensures SlotOf(TakeQueue(h).0, j) == if j == h.role.Id().value then OpenedSlot(h.requests[0]) else SlotOf(h, j)
  {
  }

  lemma TakeQueuePacket(h: State)
    requires CanTake(h, FromQueue) && h.role.Id().Some? && !h.requests[0].EnableServer?
    requires h.role.Id().value !in h.wos && h.role.Id().value !in h.wou
    ensures var (h', r) := TakeQueue(h); var id := h.role.Id().value; var req := h.requests[0];
      && r == Packets(Packet(if req.Ask? then Request else if req.AskSender? then RequestSender else RequestReceiver,
                             id, req.body))
      && h'.role == h.role.Advanced() && h'.log.asked.Keys == h.log.asked.Keys + {id}
  {
  }

  lemma EmitKeeps(x: Peer, y: Peer, xy: seq<Packet>, yx: seq<Packet>, s: Source)
    requires Inv(x, y, xy, yx) && Able(x, yx, Emit(s)) && InScope(x, Emit(s))
    ensures var t := Turn(x, yx, Emit(s));
      t.Moved? && t.inbox == yx && Inv(t.peer, y, xy + t.out, yx)
  {
    hide Inv, Turn;
    match s
    case FromUser(id) => EmitUserKeeps(x, y, xy, yx, id);
    case FromQueue =>
      if x.h.role.Id().None? {
        ExhaustedKeeps(x, y, xy, yx);
      } else if x.h.requests[0].EnableServer? {
        EnableKeeps(x, y, xy, yx);
      } else {
        OpenKeeps(x, y, xy, yx);
      }
  }

  lemma LoopPacketKeeps(x: Peer, x': Peer, y: Peer, xy: seq<Packet>, out: seq<Packet>, yx: seq<Packet>)
    requires Inv(x, y, xy, yx) && x'.h == x.h && !x.phase.Done?
    requires x'.phase.Running? == x.phase.Running?
    requires out == [] || out == [Packet(Ping, 0, EMPTY)] || (out == [Packet(Close, 0, EMPTY)] && x'.phase.Done?)
    requires x'.phase == Done(true) ==> x.h.wou == map[]
    ensures Inv(x', y, xy + out, yx)
  {
    if out == [] { NoOut(xy); } else { ThreadSnoc(xy, out[0], 0); }
    CommonKeeps(x, x', y, xy, out, yx, yx);
    hide Common, Shaped, SlotOf;
    assert ShapedAt(x, y, xy, yx, 0);
    Untouched(x, x', y, xy, xy + out, yx, yx, 0);
    OneId(x, x', y, xy, out, yx, yx, 0);
  }

  // ---- receiving ----------------------------------------------------------------------------

  /** A request that arrives may be taken in: a client without server requests never sees one. */
  lemma MayAsk(x: Peer, y: Peer, xy: seq<Packet>, yx: seq<Packet>)
    requires Inv(x, y, xy, yx) && yx != [] && x.phase.Running? && yx[0].kind.Asks()
    ensures x.h.role.CanReceiveRequests()
  {
    var p := yx[0];
    assert ShapedAt(x, y, xy, yx, p.id);
    ThreadHead(yx, p.id);
    hide SlotOf, Shaped;
    AskArrives(SlotOf(x.h, p.id), SlotOf(y.h, p.id), Thread(xy, p.id), p, Thread(yx[1..], p.id), p.id, y.phase.Running?);
    FoundAsked(y.h, p.id);
  }

  lemma FoundAsked(h: State, i: nat)
    requires SlotOf(h, i).asked.Some?
    ensures i in h.log.asked
  {
  }

  /** What the handler needs of its tables to take a packet of a conversation. */
  predicate Fits(h: State, p: Packet) {
    && p.kind.Threaded() && (p.kind.Asks() ==> h.role.CanReceiveRequests())
    && (p.kind.Request? || p.kind.RequestReceiver? ==> p.id !in h.wou)
    && (p.kind.RequestSender? ==> p.id !in h.wos)
    && (VerdictOf(p).Some? ==> p.id in h.wos && h.wos[p.id].Awaiting?)
    && (p.kind.Stream? ==> p.id in h.wos ==> h.wos[p.id].Receiving?)
  }

  /** What a packet makes of the slot it belongs to. */
  function TakenSlot(s: Slot, p: Packet, listening: bool): Slot {
    var seen := s.(seen := Some(Question(p.kind, p.body)));
    match p.kind
    case Request => seen.(wou := Some(Answering(if listening then Waiting else Dropped)))
    case RequestReceiver => seen.(wou := Some(Sending(Queue([], listening))))
    case RequestSender => seen.(wos := Some(Receiving(listening)), dropped := s.dropped || !listening)
    case Stream =>
      s.(arrivals := s.arrivals + [Arrival(p.body, if s.wos == Some(Receiving(true)) then Delivered else Rejected)])
    case StreamClosed =>
      s.(wos := None, told := true, wou := match s.wou case Some(u) => Some(u.Closed()) case None => None)
    case _ => s.(wos := None, result := VerdictOf(p))
  }

  lemma SendSlot(h: State, p: Packet)
    requires Fits(h, p)
    ensures SlotOf(Send(h, p).0, p.id) == TakenSlot(SlotOf(h, p.id), p, h.listening)
  {
    if p.kind.Asks() {
      AskSlot(h, p, p.id);
    } else if VerdictOf(p).Some? {
      VerdictSlot(h, p, p.id);
    } else {
      DataSlot(h, p, p.id);
    }
    hide Send, SlotOf;
  }

  lemma AskSlot(h: State, p: Packet, j: nat)
    requires Fits(h, p) && p.kind.Asks()
    ensures SlotOf(Send(h, p).0, j) == if j == p.id then TakenSlot(SlotOf(h, j), p, h.listening) else SlotOf(h, j)
  {
    if p.kind.Request? {
    } else if p.kind.RequestReceiver? {
    } else {
    }
  }

  lemma ResolveSlot(h: State, id: nat, v: Verdict, j: nat)
    requires id in h.wos && h.wos[id].Awaiting?
    ensures SlotOf(Resolve(h, id, v).0, j) ==
            if j == id then SlotOf(h, j).(wos := None, result := Some(v)) else SlotOf(h, j)
  {
  }

  lemma ArriveSlot(h: State, id: nat, a: Arrival, j: nat)
    ensures SlotOf(Arrive(h, id, a), j) ==
            if j == id then SlotOf(h, j).(arrivals := SlotOf(h, j).arrivals + [a]) else SlotOf(h, j)
  {
  }

  lemma VerdictSlot(h: State, p: Packet, j: nat)
    requires Fits(h, p) && VerdictOf(p).Some?
    ensures SlotOf(Send(h, p).0, j) == if j == p.id then TakenSlot(SlotOf(h, j), p, h.listening) else SlotOf(h, j)
  {
    var v := VerdictOf(p).value;
    ResolveSlot(h, p.id, v, j);
    assert Send(h, p).0 == Resolve(h, p.id, v).0;
    hide Send, Resolve, SlotOf;
  }

  lemma DataSlot(h: State, p: Packet, j: nat)
    requires Fits(h, p) && (p.kind.Stream? || p.kind.StreamClosed?)
    ensures SlotOf(Send(h, p).0, j) == if j == p.id then TakenSlot(SlotOf(h, j), p, h.listening) else SlotOf(h, j)
  {
    if p.kind.Stream? {
      var a := Arrival(p.body, if SlotOf(h, p.id).wos == Some(Receiving(true)) then Delivered else Rejected);
      assert Send(h, p).0 == Arrive(h, p.id, a);
      hide Send, Arrive;
      ArriveSlot(h, p.id, a, j);
      hide SlotOf;
    }
  }

  lemma SendElse(h: State, p: Packet, j: nat)
    requires Fits(h, p) && j != p.id
    ensures SlotOf(Send(h, p).0, j) == SlotOf(h, j)
  {
    if p.kind.Asks() {
      AskSlot(h, p, j);
    } else if VerdictOf(p).Some? {
      VerdictSlot(h, p, j);
    } else {
      DataSlot(h, p, j);
    }
    hide Send, SlotOf;
  }

  /** What is sent back for a packet of a conversation that was taken in. */
  function TakenReply(s: Slot, p: Packet): seq<Packet> {
    if p.kind.Stream? && s.wos != Some(Receiving(true)) then [Packet(StreamClosed, p.id, EMPTY)] else []
  }

  lemma SendReply(h: State, p: Packet)
    requires Fits(h, p)
    ensures var r := Send(h, p).1; r.Ok? && !r.value.CloseNow? && Replies(r) == TakenReply(SlotOf(h, p.id), p)
  {
    match p.kind {
      case Request => case Response => case NoResponse => case Stream => case RequestReceiver => case RequestSender =>
      case StreamClosed => case Close => case Ping => case MalformedRequest => case EnableServerRequests => case Unknown =>
    }
  }

  lemma SendKeepsRole(h: State, p: Packet)
    requires p.kind.Threaded()
    ensures var h' := Send(h, p).0; h'.role == h.role && h'.log.asked == h.log.asked
  {
    match p.kind {
      case Request => case Response => case NoResponse => case Stream => case RequestReceiver => case RequestSender =>
      case StreamClosed => case Close => case Ping => case MalformedRequest => case EnableServerRequests => case Unknown =>
    }
  }

  /** What a packet that does not parse makes of its slot. */
  function SpoiltSlot(s: Slot, p: Packet): Slot {
    match p.kind
    case Response => s.(wos := None, result := Some(GotBadResponse))
    case Stream => s.(arrivals := s.arrivals + [Arrival(p.body, Malformed)])
    case _ => s.(refused := true)
  }

  lemma ErrorSlot(h: State, p: Packet)
    requires p.kind.UserMade() && (p.kind.Response? ==> p.id in h.wos && h.wos[p.id].Awaiting?)
    ensures SlotOf(PacketError(h, p).0, p.id) == SpoiltSlot(SlotOf(h, p.id), p)
  {
    if p.kind.Response? {
      ResolveSlot(h, p.id, GotBadResponse, p.id);
      hide SlotOf, Resolve;
    } else if p.kind.Stream? {
      ArriveSlot(h, p.id, Arrival(p.body, Malformed), p.id);
      hide SlotOf, Arrive;
    }
  }

  lemma ErrorElse(h: State, p: Packet, j: nat)
    requires p.kind.UserMade() && j != p.id
    ensures SlotOf(PacketError(h, p).0, j) == SlotOf(h, j)
  {
    if p.kind.Response? {
      assert PacketError(h, p).0 == Resolve(h, p.id, GotBadResponse).0;
      hide PacketError;
    } else if p.kind.Stream? {
      ArriveSlot(h, p.id, Arrival(p.body, Malformed), j);
      hide SlotOf, Arrive;
    }
  }

  /** What is sent back for a packet that does not parse. */
  function SpoiltReply(p: Packet): seq<Packet> {
    if p.kind.Asks() then [Packet(if p.kind.Request? then MalformedRequest else StreamClosed, p.id, EMPTY)] else []
  }

  lemma ErrorReply(h: State, p: Packet)
    requires p.kind.UserMade() && (p.kind.Response? ==> p.id in h.wos && h.wos[p.id].Awaiting?)
    ensures var r := PacketError(h, p).1; r.Ok? && (r.value.Nothing? || r.value.Reply?) && Replies(r) == SpoiltReply(p)
  {
    match p.kind {
      case Request => case Response => case Stream => case RequestReceiver => case RequestSender =>
    }
  }

  lemma ErrorKeepsRole(h: State, p: Packet)
    requires p.kind.UserMade()
    ensures var h' := PacketError(h, p).0; h'.role == h.role && h'.log.asked == h.log.asked
  {
    match p.kind {
      case Request => case Response => case Stream => case RequestReceiver => case RequestSender =>
    }
  }

  /** What the tables hold for the first packet of a thread: exactly what the handler needs to take it. */
  lemma HeadFits(x: Peer, y: Peer, xy: seq<Packet>, yx: seq<Packet>)
    requires Inv(x, y, xy, yx) && yx != [] && x.phase.Running? && yx[0].kind.Threaded()
    ensures var p := yx[0];
      && (p.kind.Asks() ==> p.id !in x.h.wou && p.id !in x.h.wos)
      && (VerdictOf(p).Some? ==> p.id in x.h.wos && x.h.wos[p.id].Awaiting?)
      && (p.kind.Stream? || p.kind.StreamClosed? ==> p.id in x.h.wos ==> x.h.wos[p.id].Receiving?)
  {
    var p, i := yx[0], yx[0].id;
    assert ShapedAt(x, y, xy, yx, i);
    ThreadHead(yx, i);
    hide Shaped;
    var s, t, out, rest := SlotOf(x.h, i), SlotOf(y.h, i), Thread(xy, i), Thread(yx[1..], i);
    if p.kind.Asks() {
      AskArrives(s, t, out, p, rest, i, y.phase.Running?);
    } else if VerdictOf(p).Some? {
      AnswerArrives(s, t, out, p, rest, i, y.phase.Running?);
    } else if p.kind.Stream? {
      StreamHead(s, t, out, p, rest, i, y.phase.Running?);
      StreamArrives(s, t, out, p, rest, i, y.phase.Running?, Malformed);
    } else {
      StreamClosedArrives(s, t, out, p, rest, i, y.phase.Running?);
    }
  }

  lemma RepliesThread(xy: seq<Packet>, out: seq<Packet>, i: nat)
    requires |out| <= 1 && (out != [] ==> Belongs(out[0], i))
    ensures Thread(xy + out, i) == Thread(xy, i) + out
  {
    ThreadOfConcat(xy, out, i);
    if out != [] {
      assert out == [out[0]];
      ThreadOfOne(out[0], i);
    }
  }

  /** Taking in the first packet of a thread leads from a shape to a shape. */
  lemma TakenShape(s: Slot, t: Slot, out: seq<Packet>, p: Packet, rest: seq<Packet>, i: nat, yr: bool, listening: bool)
    requires Shaped(s, t, out, [p] + rest, i, true, yr) && p.kind.Threaded() && p.id == i
    ensures Shaped(TakenSlot(s, p, listening), t, out + TakenReply(s, p), rest, i, true, yr)
  {
    hide Shaped;
    if p.kind.Asks() {
      AskShape(s, t, out, p, rest, i, yr, listening);
    } else if VerdictOf(p).Some? {
      assert out + [] == out;
      AnswerArrives(s, t, out, p, rest, i, yr);
    } else if p.kind.Stream? {
      StreamArrives(s, t, out, p, rest, i, yr, if s.wos == Some(Receiving(true)) then Delivered else Rejected);
    } else {
      assert out + [] == out;
      StreamClosedArrives(s, t, out, p, rest, i, yr);
    }
  }

  lemma AskShape(s: Slot, t: Slot, out: seq<Packet>, p: Packet, rest: seq<Packet>, i: nat, yr: bool, listening: bool)
    requires Shaped(s, t, out, [p] + rest, i, true, yr) && p.kind.Asks() && p.id == i
    ensures Shaped(TakenSlot(s, p, listening), t, out + [], rest, i, true, yr)
    ensures Shaped(SpoiltSlot(s, p), t, out + SpoiltReply(p), rest, i, true, yr)
  {
    hide Shaped, SenderShape, ReceiverShape, RequestAt;
    AskArrives(s, t, out, p, rest, i, yr);
    assert out + [] == out;
    if p.kind.Request? {
      assert [p] + [] == [p];
      RequestArrives(s, t, out, p, i, yr, listening);
    } else if p.kind.RequestReceiver? {
      assert [p] + [] == [p];
      AskReceiverArrives(s, t, out, p, i, yr, listening);
    } else {
      AskSenderArrives(s, t, out, p, rest, i, yr, listening);
    }
  }

  /** The two threads and slots of the conversation the first packet belongs to. */
  lemma HeadShape(x: Peer, y: Peer, xy: seq<Packet>, yx: seq<Packet>)
    requires Inv(x, y, xy, yx) && yx != [] && x.phase.Running? && yx[0].kind.Threaded()
    ensures var i := yx[0].id;
      Shaped(SlotOf(x.h, i), SlotOf(y.h, i), Thread(xy, i), [yx[0]] + Thread(yx[1..], i), i, true, y.phase.Running?)
  {
    assert ShapedAt(x, y, xy, yx, yx[0].id);
    hide Shaped, SlotOf;
    ThreadHead(yx, yx[0].id);
  }

  lemma SendShape(x: Peer, y: Peer, xy: seq<Packet>, yx: seq<Packet>)
    requires Inv(x, y, xy, yx) && yx != [] && x.phase.Running? && yx[0].kind.Threaded()
    ensures var (h', r) := Send(x.h, yx[0]);
      ShapedAt(Peer(h', Running), y, xy + Replies(r), yx[1..], yx[0].id)
  {
    var p, i := yx[0], yx[0].id;
    hide Shaped, Send, Inv, TakenSlot, Thread;
    HeadShape(x, y, xy, yx);
    HeadFits(x, y, xy, yx);
    if p.kind.Asks() { MayAsk(x, y, xy, yx); }
    SendSlot(x.h, p);
    SendReply(x.h, p);
    var (h', r) := Send(x.h, p);
    RepliesThread(xy, Replies(r), i);
    var s, t, out, rest := SlotOf(x.h, i), SlotOf(y.h, i), Thread(xy, i), Thread(yx[1..], i);
    hide SlotOf;
    TakenShape(s, t, out, p, rest, i, y.phase.Running?, x.h.listening);
  }

  lemma SpoiltShape(s: Slot, t: Slot, out: seq<Packet>, p: Packet, rest: seq<Packet>, i: nat, yr: bool)
    requires Shaped(s, t, out, [p] + rest, i, true, yr) && p.kind.UserMade() && p.id == i
    ensures Shaped(SpoiltSlot(s, p), t, out + SpoiltReply(p), rest, i, true, yr)
  {
    hide Shaped;
    if p.kind.Asks() {
      AskShape(s, t, out, p, rest, i, yr, true);
    } else {
      assert out + [] == out;
      if p.kind.Response? {
        AnswerArrives(s, t, out, p, rest, i, yr);
      } else {
        StreamArrives(s, t, out, p, rest, i, yr, Malformed);
      }
    }
  }

  lemma ErrorShape(x: Peer, y: Peer, xy: seq<Packet>, yx: seq<Packet>)
    requires Inv(x, y, xy, yx) && yx != [] && x.phase.Running? && yx[0].kind.UserMade()
    ensures var (h', r) := PacketError(x.h, yx[0]);
      ShapedAt(Peer(h', Running), y, xy + Replies(r), yx[1..], yx[0].id)
  {
    var p, i := yx[0], yx[0].id;
    hide Shaped, PacketError, Inv, SpoiltSlot, Thread;
    HeadShape(x, y, xy, yx);
    HeadFits(x, y, xy, yx);
    ErrorSlot(x.h, p);
    ErrorReply(x.h, p);
    var (h', r) := PacketError(x.h, p);
    RepliesThread(xy, Replies(r), i);
    var s, t, out, rest := SlotOf(x.h, i), SlotOf(y.h, i), Thread(xy, i), Thread(yx[1..], i);
    hide SlotOf;
    SpoiltShape(s, t, out, p, rest, i, y.phase.Running?);
  }

  /** What the loop makes of an answer of the handler, given that the handler itself kept everything right. */
  lemma AfterKeeps(x: Peer, h': State, r: Outcome, y: Peer, xy: seq<Packet>, yx: seq<Packet>)
    requires r.Ok? && Inv(Peer(h', Running), y, xy + Replies(r), yx)
    ensures var t := After(h', r, yx);
      t.Moved? && t.inbox == yx && Inv(t.peer, y, xy + t.out, yx)
  {
    hide Inv;
    NoOut(xy);
    if r.value.CloseNow? {
      CloseKeepsInv(Peer(h', Running), y, xy, yx, false);
    } else if r.value.CloseWithPacket? {
      CloseKeepsInv(Peer(h', Running), y, xy, yx, true);
    }
  }

  /** The common part after a packet was taken in without a change of role. */
  lemma TakenCommon(x: Peer, h': State, r: Outcome, y: Peer, xy: seq<Packet>, yx: seq<Packet>)
    requires Common(x, y, xy, yx) && yx != [] && x.phase.Running?
    requires h'.role == x.h.role && h'.log.asked == x.h.log.asked
    requires forall k :: 0 <= k < |Replies(r)| ==> Replies(r)[k].kind.StreamClosed? || Replies(r)[k].kind.MalformedRequest?
    ensures Common(Peer(h', Running), y, xy + Replies(r), yx[1..])
  {
    assert IdsOk(h');
    CommonKeeps(x, Peer(h', Running), y, xy, Replies(r), yx, yx[1..]);
  }

  lemma ReceiveThreaded(x: Peer, y: Peer, xy: seq<Packet>, yx: seq<Packet>)
    requires Inv(x, y, xy, yx) && yx != [] && x.phase.Running? && yx[0].kind.Threaded()
    ensures var (h', r) := Send(x.h, yx[0]);
      r.Ok? && Inv(Peer(h', Running), y, xy + Replies(r), yx[1..])
  {
    var (h', r) := Send(x.h, yx[0]);
    HeadFits(x, y, xy, yx);
    if yx[0].kind.Asks() { MayAsk(x, y, xy, yx); }
    SendShape(x, y, xy, yx);
    hide Send, Shaped, SlotOf;
    SendReply(x.h, yx[0]);
    SendKeepsRole(x.h, yx[0]);
    forall j: nat | j != yx[0].id ensures SlotOf(h', j) == SlotOf(x.h, j) { SendElse(x.h, yx[0], j); }
    TakenCommon(x, h', r, y, xy, yx);
    hide Common;
    OneId(x, Peer(h', Running), y, xy, Replies(r), yx, yx[1..], yx[0].id);
  }

  lemma ReceiveError(x: Peer, y: Peer, xy: seq<Packet>, yx: seq<Packet>)
    requires Inv(x, y, xy, yx) && yx != [] && x.phase.Running? && yx[0].kind.UserMade()
    ensures var (h', r) := PacketError(x.h, yx[0]);
      r.Ok? && Inv(Peer(h', Running), y, xy + Replies(r), yx[1..])
  {
    var (h', r) := PacketError(x.h, yx[0]);
    HeadFits(x, y, xy, yx);
    ErrorShape(x, y, xy, yx);
    hide PacketError, Shaped, SlotOf;
    ErrorReply(x.h, yx[0]);
    ErrorKeepsRole(x.h, yx[0]);
    forall j: nat | j != yx[0].id ensures SlotOf(h', j) == SlotOf(x.h, j) { ErrorElse(x.h, yx[0], j); }
    TakenCommon(x, h', r, y, xy, yx);
    hide Common;
    OneId(x, Peer(h', Running), y, xy, Replies(r), yx, yx[1..], yx[0].id);
  }

  /** Permission, goodbye and ping: packets outside all conversations. */
  lemma ReceiveOther(x: Peer, y: Peer, xy: seq<Packet>, yx: seq<Packet>)
    requires Inv(x, y, xy, yx) && yx != [] && x.phase.Running? && !yx[0].kind.Threaded()
    ensures var (h', r) := Send(x.h, yx[0]);
      r.Ok? && Replies(r) == [] && Inv(Peer(h', Running), y, xy + Replies(r), yx[1..])
  {
    var p := yx[0];
    var (h', r) := Send(x.h, p);
    var x' := Peer(h', Running);
    assert p.kind != Unknown;
    OtherTakes(x, y, xy, yx);
    CommonKeeps(x, x', y, xy, [], yx, yx[1..]);
    hide Send, Common, Shaped, SlotOf;
    assert ShapedAt(x, y, xy, yx, p.id);
    ThreadHead(yx, p.id);
    NoOut(xy);
    Untouched(x, x', y, xy, xy + [], yx, yx[1..], p.id);
    OneId(x, x', y, xy, [], yx, yx[1..], p.id);
  }

  lemma OtherTakes(x: Peer, y: Peer, xy: seq<Packet>, yx: seq<Packet>)
    requires Common(x, y, xy, yx) && yx != [] && x.phase.Running? && !yx[0].kind.Threaded()
    ensures var (h', r) := Send(x.h, yx[0]);
      && r.Ok? && Replies(r) == []
      && (forall j: nat :: SlotOf(h', j) == SlotOf(x.h, j)) && h'.wou == x.h.wou
      && h'.role.Server() == x.h.role.Server() && IdsOk(h')
      && (h'.role.BiServer? ==> y.h.role.BiClient?)
      && (x.h.role.BiClient? ==> h'.role.BiClient?) && (x.h.role.BiServer? ==> h'.role.BiServer?)
  {
    assert yx[0].kind.EnableServerRequests? ==> Carries(yx, EnableServerRequests);
    assert yx[0].kind.Unknown? ==> Carries(yx, Unknown);
  }

  lemma ReceiveKeeps(x: Peer, y: Peer, xy: seq<Packet>, yx: seq<Packet>)
    requires Inv(x, y, xy, yx) && Able(x, yx, Receive)
    ensures var t := Turn(x, yx, Receive);
      t.Moved? && t.inbox == yx[1..] && Inv(t.peer, y, xy + t.out, t.inbox)
  {
    var (h', r) := Send(x.h, yx[0]);
    if yx[0].kind.Threaded() {
      ReceiveThreaded(x, y, xy, yx);
    } else {
      ReceiveOther(x, y, xy, yx);
    }
    hide Inv, Send;
    AfterKeeps(x, h', r, y, xy, yx[1..]);
  }

  lemma ReceiveMalformedKeeps(x: Peer, y: Peer, xy: seq<Packet>, yx: seq<Packet>)
    requires Inv(x, y, xy, yx) && Able(x, yx, ReceiveMalformed)
    ensures var t := Turn(x, yx, ReceiveMalformed);
      t.Moved? && t.inbox == yx[1..] && Inv(t.peer, y, xy + t.out, t.inbox)
  {
    var (h', r) := PacketError(x.h, yx[0]);
    ReceiveError(x, y, xy, yx);
    hide Inv, PacketError;
    AfterKeeps(x, h', r, y, xy, yx[1..]);
  }

  // ---- every step ---------------------------------------------------------------------------

  /** Whatever an endpoint does, it does not fail and the invariant holds afterwards. */
  lemma TurnKeeps(x: Peer, y: Peer, xy: seq<Packet>, yx: seq<Packet>, a: Action)
    requires Inv(x, y, xy, yx) && Able(x, yx, a) && InScope(x, a)
    ensures var t := Turn(x, yx, a);
      t.Moved? && Inv(t.peer, y, xy + t.out, t.inbox)
  {
    if ByUser(a) {
      UserKeeps(x, y, xy, yx, a);
      UserMoves(x, yx, a);
    } else if a.Receive? {
      ReceiveKeeps(x, y, xy, yx);
    } else if a.ReceiveMalformed? {
      ReceiveMalformedKeeps(x, y, xy, yx);
    } else if a.Emit? {
      EmitKeeps(x, y, xy, yx, a.source);
    } else if a.CloseSignal? {
      CloseKeepsInv(x, y, xy, yx, true);
      NoOut(xy);
    } else {
      var t := Turn(x, yx, a);
      LoopPacketKeeps(x, t.peer, y, xy, t.out, yx);
    }
  }

  lemma UserMoves(x: Peer, yx: seq<Packet>, a: Action)
    requires Able(x, yx, a) && ByUser(a)
    ensures Turn(x, yx, a) == Moved(Turn(x, yx, a).peer, yx, [])
  {
  }
}
