/** What the histories mean. In every run, everything an endpoint has recorded is what its user did and what came in,
    and what comes out at the other side is what the user put in. */
module Users {
  import opened Basics
  import opened Protocol
  import opened Conversation
  import opened ConversationSteps
  import opened Peers
  import opened Connection
  import opened Deeds
  import H = History
  import Scope

  // ---- one turn: the queue and the counter --------------------------------------------------

  lemma AfterKeepsRest(h: State, r: Outcome, inbox: seq<Packet>)
    ensures var t := After(h, r, inbox);
      t.Moved? ==> t.peer.h.requests == h.requests && t.peer.h.listening == h.listening
  {
  }

  lemma ReadKeepsRest(x: Peer, inbox: seq<Packet>, a: Action)
    requires Able(x, inbox, a) && Turn(x, inbox, a).Moved? && Reads(a)
    ensures var h := Turn(x, inbox, a).peer.h; h.requests == x.h.requests && h.listening == x.h.listening
  {
    hide Send, PacketError, After;
    var (h', r) := if a.Receive? then Send(x.h, inbox[0]) else PacketError(x.h, inbox[0]);
    Scope.SendKeepsRest(x.h, inbox[0]);
    ErrorKeepsRest(x.h, inbox[0]);
    AfterKeepsRest(h', r, inbox[1..]);
  }

  lemma TurnQueue(x: Peer, inbox: seq<Packet>, a: Action)
    requires Able(x, inbox, a) && Turn(x, inbox, a).Moved?
    ensures var t := Turn(x, inbox, a); QueueStep(x.h.requests, t.peer.h.requests, DeedOf(inbox, a))
  {
    if Reads(a) {
      hide Able, Turn;
      ReadKeepsRest(x, inbox, a);
    } else if a == Emit(FromQueue) {
      QueueShrinks(x.h);
      hide TakeQueue;
    } else if ByUser(a) {
      hide Send, PacketError, ToSend, Closed;
    } else {
      if a.Emit? { TakesAnswer(x.h, a.source.id); }
      hide Send, PacketError, TakeQueue, TakeUser, Able;
    }
  }

  lemma ErrorKeepsRest(h: State, p: Packet)
    ensures var h' := PacketError(h, p).0;
      h'.listening == h.listening && h'.requests == h.requests && h'.requestsOpen == h.requestsOpen
  {
    match p.kind {
      case Request => case Response => case NoResponse => case Stream => case RequestReceiver => case RequestSender =>
      case StreamClosed => case Close => case Ping => case MalformedRequest => case EnableServerRequests => case Unknown =>
    }
  }

  predicate Shrinks(h: State) {
    CanTake(h, FromQueue) ==>
      var (h', r) := TakeQueue(h);
      && h'.requests == h.requests[1..] && h'.listening == h.listening && (r.Exhausted? <==> h.role.next.None?)
      && (r.Packets? ==> r.packet == Opening(h.requests[0], h.role.next.value))
  }

  lemma AskShrinks(h: State)
    requires CanTake(h, FromQueue) && (h.requests[0].Ask? || h.requests[0].AskReceiver?)
    ensures Shrinks(h)
  {
    if h.requests[0].Ask? { } else { }
  }

  lemma AskSenderShrinks(h: State)
    requires CanTake(h, FromQueue) && h.requests[0].AskSender?
    ensures Shrinks(h)
  {
  }

  lemma EnableShrinks(h: State)
    requires CanTake(h, FromQueue) && h.requests[0].EnableServer?
    ensures Shrinks(h)
  {
  }

  lemma QueueShrinks(h: State)
    requires CanTake(h, FromQueue)
    ensures var h' := TakeQueue(h).0; h'.requests == h.requests[1..] && h'.listening == h.listening
    ensures TakeQueue(h).1.Exhausted? <==> h.role.next.None?
    ensures TakeQueue(h).1.Packets? ==> TakeQueue(h).1.packet == Opening(h.requests[0], h.role.next.value)
  {
    hide TakeQueue, Opening;
    match h.requests[0]
    case EnableServer => EnableShrinks(h);
    case AskSender(_, _) => AskSenderShrinks(h);
    case _ => AskShrinks(h);
  }

  lemma NoOpening(q: seq<Packet>)
    requires |q| <= 1 && (q != [] ==> !Opens(q[0]))
    ensures Openings(q) == []
  {
    OpeningsMore([], q);
  }

  lemma TakesAnswer(h: State, id: nat)
    requires CanTake(h, FromUser(id))
    ensures !Opens(TakeUser(h, id).1) && TakeUser(h, id).0.role == h.role
    ensures TakeUser(h, id).0.requests == h.requests && TakeUser(h, id).0.listening == h.listening
  {
    match h.wou[id] {
      case Answering(_) =>
      case Sending(q) => if q.items != [] { }
    }
  }

  lemma ReplyOpensNothing(h: State, p: Packet)
    ensures forall q <- Replies(Send(h, p).1) + Replies(PacketError(h, p).1) :: !Opens(q)
    ensures |Replies(Send(h, p).1)| <= 1 && |Replies(PacketError(h, p).1)| <= 1
  {
    match p.kind {
      case Request => case Response => case NoResponse => case Stream => case RequestReceiver => case RequestSender =>
      case StreamClosed => case Close => case Ping => case MalformedRequest => case EnableServerRequests => case Unknown =>
    }
  }

  lemma AfterSends(h: State, r: Outcome, inbox: seq<Packet>)
    ensures var t := After(h, r, inbox); t.Moved? ==> t.out == Replies(r) && t.peer.h.role == h.role
  {
  }

  lemma ReadIds(x: Peer, inbox: seq<Packet>, a: Action)
    requires Able(x, inbox, a) && Turn(x, inbox, a).Moved? && Reads(a)
    ensures var t := Turn(x, inbox, a); IdsStep(x.h, t.peer.h.role, t.out, DeedOf(inbox, a))
  {
    var t := Turn(x, inbox, a);
    hide Send, PacketError, After, Opens;
    var (h', r) := if a.Receive? then Send(x.h, inbox[0]) else PacketError(x.h, inbox[0]);
    Scope.SendRole(x.h, inbox[0]);
    Scope.ErrorRole(x.h, inbox[0]);
    ReplyOpensNothing(x.h, inbox[0]);
    AfterSends(h', r, inbox[1..]);
    assert t.out != [] ==> t.out[0] in Replies(Send(x.h, inbox[0]).1) + Replies(PacketError(x.h, inbox[0]).1);
    NoOpening(t.out);
  }

  lemma TurnIds(x: Peer, inbox: seq<Packet>, a: Action)
    requires Able(x, inbox, a) && Turn(x, inbox, a).Moved?
    ensures var t := Turn(x, inbox, a); IdsStep(x.h, t.peer.h.role, t.out, DeedOf(inbox, a))
  {
    if Reads(a) {
      hide Able, Turn, IdsStep;
      ReadIds(x, inbox, a);
    } else if a == Emit(FromQueue) {
      QueueShrinks(x.h);
      Scope.QueueRole(x.h);
      hide TakeQueue, Opening;
    } else {
      hide Send, PacketError, TakeQueue, TakeUser, Closed, Able;
      if a.Emit? { TakesAnswer(x.h, a.source.id); }
      NoOpening(Turn(x, inbox, a).out);
    }
  }

  // ---- one turn: an id ----------------------------------------------------------------------

  /** A slot without its tables. */
  function Past(s: Slot): Slot {
    s.(wos := None, wou := None)
  }

  /** The next request opens the conversation of this id. */
  predicate OpensNow(h: State, i: nat) {
    h.role.CanSendRequests() && h.role.next == Some(i) && h.requests != [] && !h.requests[0].EnableServer?
  }

  /** What a deed makes of the history of an id. */
  function NextSlot(h: State, d: Deed, i: nat): Slot {
    var s := SlotOf(h, i);
    match d
    case Did(a) =>
      if a == Emit(FromQueue) then if OpensNow(h, i) then OpenedSlot(h.requests[0]) else s
      else if ByUser(a) && i == UserId(a) then UserSlot(s, a) else s
    case Took(p) => if Belongs(p, i) then TakenSlot(s, p, h.listening) else s
    case Spoilt(p) => if Belongs(p, i) then SpoiltSlot(s, p) else s
  }

  lemma ReadPast(x: Peer, y: Peer, xy: seq<Packet>, yx: seq<Packet>, a: Action, i: nat)
    requires Inv(x, y, xy, yx) && Able(x, yx, a) && Reads(a)
    ensures var (h', r) := if a.Receive? then Send(x.h, yx[0]) else PacketError(x.h, yx[0]);
      SlotOf(h', i) == NextSlot(x.h, DeedOf(yx, a), i)
  {
    var p := yx[0];
    hide Send, PacketError, SlotOf, Inv;
    if p.kind.Threaded() {
      HeadFits(x, y, xy, yx);
      if p.kind.Asks() { MayAsk(x, y, xy, yx); }
      if a.Receive? {
        if p.id == i { SendSlot(x.h, p); } else { SendElse(x.h, p, i); }
      } else {
        if p.id == i { ErrorSlot(x.h, p); } else { ErrorElse(x.h, p, i); }
      }
    } else {
      assert Common(x, y, xy, yx) by { InvCommon(x, y, xy, yx); }
      hide Common;
      OtherTakes(x, y, xy, yx);
    }
  }

  lemma InvCommon(x: Peer, y: Peer, xy: seq<Packet>, yx: seq<Packet>)
    requires Inv(x, y, xy, yx)
    ensures Common(x, y, xy, yx)
  {
  }

  lemma AfterPast(h: State, r: Outcome, inbox: seq<Packet>, i: nat)
    ensures var t := After(h, r, inbox); t.Moved? ==> Past(SlotOf(t.peer.h, i)) == Past(SlotOf(h, i))
  {
    ClosedSlotOf(h, i);
    hide SlotOf, Closed;
  }

  lemma EmitPast(x: Peer, y: Peer, xy: seq<Packet>, yx: seq<Packet>, src: Source, i: nat)
    requires Inv(x, y, xy, yx) && Able(x, yx, Emit(src))
    ensures Past(SlotOf(ToSend(x.h, src).0, i)) == Past(NextSlot(x.h, Did(Emit(src)), i))
  {
    hide TakeUser, TakeQueue, SlotOf, Inv;
    match src
    case FromUser(id) => if i == id { TakeUserSlot(x.h, id); } else { TakeUserElse(x.h, id, i); }
    case FromQueue => QueuePast(x, y, xy, yx, i);
  }

  lemma QueuePast(x: Peer, y: Peer, xy: seq<Packet>, yx: seq<Packet>, i: nat)
    requires Inv(x, y, xy, yx) && CanTake(x.h, FromQueue)
    ensures SlotOf(TakeQueue(x.h).0, i) == NextSlot(x.h, Did(Emit(FromQueue)), i)
  {
    hide TakeQueue, SlotOf, Inv;
    if x.h.role.next.None? || x.h.requests[0].EnableServer? {
      H.NoNewSlot(x.h, i);
    } else {
      NextIdIsFresh(x, y, xy, yx, x.h.role.next.value);
      TakeQueueSlot(x.h, i);
    }
  }

  lemma LoopPast(x: Peer, yx: seq<Packet>, a: Action, i: nat)
    requires Able(x, yx, a) && (a.SendPing? || a.CloseSignal? || a.Finish?)
    ensures Past(SlotOf(Turn(x, yx, a).peer.h, i)) == Past(SlotOf(x.h, i))
  {
    ClosedSlotOf(x.h, i);
    hide SlotOf, Closed;
  }

  lemma TurnPast(x: Peer, y: Peer, xy: seq<Packet>, yx: seq<Packet>, a: Action, i: nat)
    requires Inv(x, y, xy, yx) && Able(x, yx, a) && Turn(x, yx, a).Moved?
    ensures Past(SlotOf(Turn(x, yx, a).peer.h, i)) == Past(NextSlot(x.h, DeedOf(yx, a), i))
  {
    hide Inv, SlotOf, Send, PacketError, ToSend, UserSlot, TakenSlot, SpoiltSlot, OpensNow;
    if Reads(a) {
      var (h', r) := if a.Receive? then Send(x.h, yx[0]) else PacketError(x.h, yx[0]);
      ReadPast(x, y, xy, yx, a, i);
      hide NextSlot;
      AfterPast(h', r, yx[1..], i);
      hide After, Past;
    } else if a.Emit? {
      EmitPast(x, y, xy, yx, a.source, i);
      hide Past, NextSlot;
    } else if ByUser(a) {
      UserSlots(x, yx, a, i);
      hide Turn;
    } else {
      LoopPast(x, yx, a, i);
      hide Turn;
    }
  }

  // ---- one turn: what is recorded of an id --------------------------------------------------

  lemma MarksSnoc(a: seq<Arrival>, x: Arrival)
    ensures Marks(a + [x]) == Marks(a) + [(x.body, !x.fate.Malformed?)]
  {
  }

  /** What a deed adds to what came in. */
  lemma InNext(ds: seq<Deed>, d: Deed, i: nat)
    ensures d.Did? ==>
      && SeenBy(ds + [d], i) == SeenBy(ds, i) && RefusedBy(ds + [d], i) == RefusedBy(ds, i)
      && ResultBy(ds + [d], i) == ResultBy(ds, i) && ToldBy(ds + [d], i) == ToldBy(ds, i)
      && CameIn(ds + [d], i) == CameIn(ds, i)
    ensures d.Took? ==> var p := d.packet;
      && SeenBy(ds + [d], i) == (if p.kind.Asks() && p.id == i then Some(Question(p.kind, p.body)) else SeenBy(ds, i))
      && RefusedBy(ds + [d], i) == RefusedBy(ds, i)
      && ResultBy(ds + [d], i) == (if VerdictOf(p).Some? && p.id == i then VerdictOf(p) else ResultBy(ds, i))
      && ToldBy(ds + [d], i) == ((p.kind.StreamClosed? && p.id == i) || ToldBy(ds, i))
      && CameIn(ds + [d], i) == CameIn(ds, i) + (if p.kind.Stream? && p.id == i then [(p.body, true)] else [])
    ensures d.Spoilt? ==> var p := d.packet;
      && SeenBy(ds + [d], i) == SeenBy(ds, i)
      && RefusedBy(ds + [d], i) == ((p.kind.Asks() && p.id == i) || RefusedBy(ds, i))
      && ResultBy(ds + [d], i) == (if p.kind.Response? && p.id == i then Some(GotBadResponse) else ResultBy(ds, i))
      && ToldBy(ds + [d], i) == ToldBy(ds, i)
      && CameIn(ds + [d], i) == CameIn(ds, i) + (if p.kind.Stream? && p.id == i then [(p.body, false)] else [])
  {
    Snoc(ds, d);
  }

  lemma InTook(s: Slot, ds: seq<Deed>, p: Packet, listening: bool, i: nat)
    requires InRecord(s, ds, i) && Belongs(p, i)
    ensures InRecord(TakenSlot(s, p, listening), ds + [Took(p)], i)
  {
    InNext(ds, Took(p), i);
    hide SeenBy, RefusedBy, ResultBy, ToldBy, CameIn, Marks;
    if p.kind.Stream? { MarksSnoc(s.arrivals, TakenSlot(s, p, listening).arrivals[|s.arrivals|]); }
  }

  lemma InSpoilt(s: Slot, ds: seq<Deed>, p: Packet, i: nat)
    requires InRecord(s, ds, i) && Belongs(p, i) && p.kind.UserMade()
    ensures InRecord(SpoiltSlot(s, p), ds + [Spoilt(p)], i)
  {
    InNext(ds, Spoilt(p), i);
    hide SeenBy, RefusedBy, ResultBy, ToldBy, CameIn, Marks;
    if p.kind.Stream? { MarksSnoc(s.arrivals, Arrival(p.body, Malformed)); }
  }

  predicate SaneDeed(d: Deed) {
    d.Spoilt? ==> d.packet.kind.UserMade()
  }

  lemma InStays(h: State, ds: seq<Deed>, d: Deed, i: nat)
    requires InRecord(SlotOf(h, i), ds, i) && !(d.Took? && Belongs(d.packet, i)) && !(d.Spoilt? && Belongs(d.packet, i))
    requires SaneDeed(d) && (OpensNow(h, i) ==> SlotOf(h, i) == UNUSED)
    ensures InRecord(NextSlot(h, d, i), ds + [d], i)
  {
    hide SlotOf, SeenBy, RefusedBy, ResultBy, ToldBy, CameIn, Marks;
    InNext(ds, d, i);
  }

  lemma SameIn(s: Slot, s': Slot, ds: seq<Deed>, i: nat)
    requires InRecord(s, ds, i) && Past(s') == Past(s)
    ensures InRecord(s', ds, i)
  {
    hide SeenBy, RefusedBy, ResultBy, ToldBy, CameIn, Marks;
  }

  lemma InKeeps(h: State, s': Slot, ds: seq<Deed>, d: Deed, i: nat)
    requires InRecord(SlotOf(h, i), ds, i) && SaneDeed(d)
    requires Past(s') == Past(NextSlot(h, d, i)) && (OpensNow(h, i) ==> SlotOf(h, i) == UNUSED)
    ensures InRecord(s', ds + [d], i)
  {
    hide SlotOf, TakenSlot, SpoiltSlot, UserSlot, OpenedSlot, InRecord, Past, OpensNow;
    if d.Took? && Belongs(d.packet, i) {
      InTook(SlotOf(h, i), ds, d.packet, h.listening, i);
    } else if d.Spoilt? && Belongs(d.packet, i) {
      InSpoilt(SlotOf(h, i), ds, d.packet, i);
    } else {
      InStays(h, ds, d, i);
    }
    SameIn(NextSlot(h, d, i), s', ds + [d], i);
  }

  /** What a deed adds to what the user did with an id. */
  lemma UserNext(ds: seq<Deed>, d: Deed, i: nat)
    ensures GivenBy(ds + [d], i) ==
            if d.Did? && d.action.Answer? && d.action.id == i then Some(d.action.body) else GivenBy(ds, i)
    ensures Pushes(ds + [d], i) ==
            Pushes(ds, i) + if d.Did? && d.action.Push? && d.action.id == i then [d.action.body] else []
    ensures Unheard(ds + [d], i) <==>
      Unheard(ds, i) || (d.Took? && d.packet.kind.RequestSender? && d.packet.id == i && Did(StopListening) in ds)
    ensures Did(DropConsumer(i)) in ds + [d] <==> Did(DropConsumer(i)) in ds || d == Did(DropConsumer(i))
  {
    Snoc(ds, d);
  }

  /** What a deed adds to the story of a request that has left the queue. */
  lemma AfterLeaving(ds: seq<Deed>, d: Deed, first: nat, issued: nat, i: nat)
    requires issued <= Left(ds) <= |Enqueued(ds)|
    ensures AskedBy(ds + [d], first, issued, i) == AskedBy(ds, first, issued, i)
    ensures |Enqueued(ds + [d])| >= |Enqueued(ds)|
    ensures first <= i < first + issued ==> var k := i - first;
      && PutIn(ds + [d], first, k) ==
         PutIn(ds, first, k) + (if d.Did? && d.action.Push? && d.action.id == i then [d.action.body] else [])
      && Now(ds + [d], first, k).AskReceiver? == Now(ds, first, k).AskReceiver?
      && (Now(ds, first, k).AskReceiver? ==> Now(ds + [d], first, k).open == Now(ds, first, k).open)
  {
    hide Enqueued, Left, EndedQueued, PutIn;
    OneMore(ds, d, first, if i >= first then i - first else 0);
  }

  /** What a deed adds to the user's part of a slot. */
  predicate UserDelta(s: Slot, s': Slot, d: Deed, listening: bool, i: nat) {
    && s'.asked == s.asked
    && s'.given == (if d.Did? && d.action.Answer? && d.action.id == i then Some(d.action.body) else s.given)
    && s'.pushed == s.pushed + (if d.Did? && d.action.Push? && d.action.id == i then [d.action.body] else [])
    && s'.dropped == (s.dropped || d == Did(DropConsumer(i))
                      || (d.Took? && d.packet.kind.RequestSender? && d.packet.id == i && !listening))
  }

  lemma UserSlotDelta(s: Slot, a: Action, listening: bool, i: nat)
    requires ByUser(a) && UserId(a) == i && Allows(s, a)
    ensures UserDelta(s, UserSlot(s, a), Did(a), listening, i)
  {
    match a {
      case Answer(_, _) => case DropAnswer(_) => case Push(_, _) => case EndPush(_) => case DropConsumer(_) => case _ =>
    }
  }

  lemma TakenDelta(s: Slot, p: Packet, listening: bool, i: nat)
    requires Belongs(p, i)
    ensures UserDelta(s, TakenSlot(s, p, listening), Took(p), listening, i)
    ensures p.kind.UserMade() ==> UserDelta(s, SpoiltSlot(s, p), Spoilt(p), listening, i)
  {
    match p.kind {
      case Request => case Response => case NoResponse => case Stream => case RequestReceiver => case RequestSender =>
      case StreamClosed => case MalformedRequest =>
    }
  }

  lemma NoDelta(s: Slot, d: Deed, listening: bool, i: nat)
    requires match d case Did(a) => !ByUser(a) || UserId(a) != i case Took(p) => !Belongs(p, i) case Spoilt(p) => true
    ensures UserDelta(s, s, d, listening, i)
  {
  }

  lemma SlotDelta(h: State, d: Deed, i: nat)
    requires d.Did? && UserId(d.action) == i ==> Allows(SlotOf(h, i), d.action)
    requires (d != Did(Emit(FromQueue)) || !OpensNow(h, i)) && SaneDeed(d)
    ensures UserDelta(SlotOf(h, i), NextSlot(h, d, i), d, h.listening, i)
  {
    var s := SlotOf(h, i);
    hide SlotOf, OpensNow, UserSlot, TakenSlot, SpoiltSlot, UserDelta, Allows;
    match d
    case Did(a) =>
      if ByUser(a) && UserId(a) == i { UserSlotDelta(s, a, h.listening, i); } else { NoDelta(s, d, h.listening, i); }
    case Took(p) => if Belongs(p, i) { TakenDelta(s, p, h.listening, i); } else { NoDelta(s, d, h.listening, i); }
    case Spoilt(p) => if Belongs(p, i) { TakenDelta(s, p, h.listening, i); } else { NoDelta(s, d, h.listening, i); }
  }

  /** The user's part, for an id that is not opened by this deed. */
  lemma UserStays(s: Slot, s': Slot, ds: seq<Deed>, d: Deed, listening: bool, first: nat, issued: nat, i: nat)
    requires UserRecord(s, ds, first, issued, i) && issued <= Left(ds) <= |Enqueued(ds)|
    requires listening <==> Did(StopListening) !in ds
    requires d.Took? && d.packet.kind.Asks() && d.packet.id == i ==> s.asked.None?
    requires UserDelta(s, s', d, listening, i)
    ensures UserRecord(s', ds + [d], first, issued, i)
  {
    hide Enqueued, Left, PutIn, Now, GivenBy, Pushes, Unheard;
    UserNext(ds, d, i);
    AfterLeaving(ds, d, first, issued, i);
    hide Abandoned;
    AbandonedStays(s, s', ds, d, listening, first, issued, i);
  }

  lemma AbandonedStays(s: Slot, s': Slot, ds: seq<Deed>, d: Deed, listening: bool, first: nat, issued: nat, i: nat)
    requires UserRecord(s, ds, first, issued, i) && issued <= Left(ds) <= |Enqueued(ds)|
    requires listening <==> Did(StopListening) !in ds
    requires d.Took? && d.packet.kind.Asks() && d.packet.id == i ==> s.asked.None?
    requires UserDelta(s, s', d, listening, i)
    ensures s'.dropped <==> Abandoned(ds + [d], first, i, s.asked.Some?)
  {
    hide Enqueued, Left, PutIn, Now, GivenBy, Pushes, Unheard;
    UserNext(ds, d, i);
    AfterLeaving(ds, d, first, issued, i);
  }

  lemma GrownKeeps(req: InternalRequest, items: seq<Body>, ended: bool)
    ensures QuestionOf(Grown(req, items, ended)) == QuestionOf(req) && Grown(req, items, ended).AskSender? == req.AskSender?
    ensures req.AskSender? ==> Grown(req, items, ended).queue.items == items
  {
  }

  /** What is known of the request that leaves. */
  lemma LeavesAs(h: State, ds: seq<Deed>, first: nat)
    requires QueueTold(h, ds, first) && h.requests != []
    ensures var all, k, req := ds + [Did(Emit(FromQueue))], Left(ds), h.requests[0];
      && k < |Enqueued(all)| && Now(all, first, k) == req && QuestionOf(Enqueued(all)[k]) == QuestionOf(req)
      && PutIn(all, first, k) == (if req.AskSender? then req.queue.items else [])
  {
    var d, k := Did(Emit(FromQueue)), Left(ds);
    assert h.requests[0] == Now(ds, first, Left(ds) + 0);
    assert QuietElsewhere(ds, first, k);
    hide Enqueued, Left, PutIn, EndedQueued, Grown, QuestionOf;
    OneMore(ds, d, first, k);
    GrownKeeps(Enqueued(ds)[k], PutIn(ds, first, k), EndedQueued(ds, k));
  }

  /** The request that leaves gets the next id, with all that was put into it so far. */
  lemma UserOpens(h: State, ds: seq<Deed>, first: nat, issued: nat, i: nat)
    requires UserRecord(UNUSED, ds, first, issued, i) && QueueTold(h, ds, first) && issued == Left(ds)
    requires h.requests != [] && !h.requests[0].EnableServer? && i == first + issued
    ensures UserRecord(OpenedSlot(h.requests[0]), ds + [Did(Emit(FromQueue))], first, issued + 1, i)
  {
    hide QueueTold, Enqueued, Left, PutIn, Now, GivenBy, Pushes, Unheard;
    UserNext(ds, Did(Emit(FromQueue)), i);
    LeavesAs(h, ds, first);
  }

  /** The next id is not this one, or enables server requests. */
  lemma IssuedMore(s: Slot, ds: seq<Deed>, first: nat, issued: nat, i: nat)
    requires UserRecord(s, ds, first, issued, i)
    requires i == first + issued ==> issued < |Enqueued(ds)| && Enqueued(ds)[issued].EnableServer?
    ensures UserRecord(s, ds, first, issued + 1, i)
  {
    hide Enqueued, PutIn, Abandoned, Pushes, GivenBy;
  }

  /** Whether the user still listens. */
  predicate ListenTold(h: State, ds: seq<Deed>) {
    h.listening <==> Did(StopListening) !in ds
  }

  lemma TurnListens(x: Peer, inbox: seq<Packet>, a: Action, ds: seq<Deed>)
    requires Able(x, inbox, a) && Turn(x, inbox, a).Moved? && ListenTold(x.h, ds)
    ensures ListenTold(Turn(x, inbox, a).peer.h, ds + [DeedOf(inbox, a)])
  {
    if Reads(a) {
      hide Able, Turn;
      ReadKeepsRest(x, inbox, a);
    } else if a.Emit? {
      if a.source.FromQueue? { QueueShrinks(x.h); } else { TakesAnswer(x.h, a.source.id); }
      hide TakeQueue, TakeUser, Able;
    } else {
      hide Send, PacketError, ToSend, Able;
    }
  }

  // ---- one turn: everything -----------------------------------------------------------------

  predicate RecordOf(h: State, sent: seq<Packet>, ds: seq<Deed>, first: nat, i: nat) {
    UserRecord(SlotOf(h, i), ds, first, |Openings(sent)|, i) && InRecord(SlotOf(h, i), ds, i)
  }

  /** All that an endpoint holds and has recorded, against what happened there. */
  ghost predicate Told(h: State, sent: seq<Packet>, ds: seq<Deed>, first: nat) {
    && QueueTold(h, ds, first) && IdsTold(h.role, sent, ds, first) && ListenTold(h, ds)
    && forall i: nat :: RecordOf(h, sent, ds, first, i)
  }

  lemma AskedByPeer(x: Peer, y: Peer, xy: seq<Packet>, yx: seq<Packet>)
    requires Inv(x, y, xy, yx) && yx != [] && x.phase.Running? && yx[0].kind.Asks()
    ensures SlotOf(x.h, yx[0].id).asked.None?
  {
    HeadShape(x, y, xy, yx);
    hide Shaped, SlotOf, Inv;
    AskArrives(SlotOf(x.h, yx[0].id), SlotOf(y.h, yx[0].id), Thread(xy, yx[0].id), yx[0], Thread(yx[1..], yx[0].id),
               yx[0].id, y.phase.Running?);
  }

  /** Whether a deed hands out an id. */
  function IssuedBy(h: State, d: Deed): nat {
    One(d == Did(Emit(FromQueue)) && h.role.CanSendRequests() && h.role.next.Some?)
  }

  lemma IssuedNext(h: State, role: Role, sent: seq<Packet>, out: seq<Packet>, d: Deed)
    requires IdsStep(h, role, out, d)
    ensures |Openings(sent + out)| == |Openings(sent)| + IssuedBy(h, d)
  {
    hide Openings;
    OpeningsMore(sent, out);
  }

  lemma DeedAllows(x: Peer, yx: seq<Packet>, a: Action, i: nat)
    requires Able(x, yx, a)
    ensures var d := DeedOf(yx, a); SaneDeed(d) && (d.Did? && UserId(d.action) == i ==> Allows(SlotOf(x.h, i), d.action))
  {
    hide SlotOf;
    if ByUser(a) { SlotAllows(x, yx, a); }
  }

  /** A request leaves: it opens the conversation of this id, or not. */
  lemma LeavingTells(h: State, sent: seq<Packet>, ds: seq<Deed>, first: nat, i: nat)
    requires CanTake(h, FromQueue) && QueueTold(h, ds, first) && IdsTold(h.role, sent, ds, first)
    requires UserRecord(SlotOf(h, i), ds, first, |Openings(sent)|, i) && (OpensNow(h, i) ==> SlotOf(h, i) == UNUSED)
    ensures UserRecord(NextSlot(h, Did(Emit(FromQueue)), i), ds + [Did(Emit(FromQueue))], first,
                       |Openings(sent)| + One(h.role.next.Some?), i)
  {
    var d, n, s := Did(Emit(FromQueue)), |Openings(sent)|, SlotOf(h, i);
    hide QueueTold, SlotOf, UserRecord, Openings, Enqueued, Left, UserDelta, Opening, OpenedSlot;
    if OpensNow(h, i) {
      UserOpens(h, ds, first, n, i);
    } else {
      NoDelta(s, d, true, i);
      OthersLeave(s, ds, first, n, i);
      LeavesAs(h, ds, first);
      if h.role.next.Some? { IssuedMore(s, ds + [d], first, n, i); }
    }
  }

  lemma OthersLeave(s: Slot, ds: seq<Deed>, first: nat, issued: nat, i: nat)
    requires UserRecord(s, ds, first, issued, i) && issued <= Left(ds) <= |Enqueued(ds)|
    ensures UserRecord(s, ds + [Did(Emit(FromQueue))], first, issued, i)
  {
    hide UserRecord, Enqueued, Left, UserDelta;
    NoDelta(s, Did(Emit(FromQueue)), Did(StopListening) !in ds, i);
    UserStays(s, s, ds, Did(Emit(FromQueue)), Did(StopListening) !in ds, first, issued, i);
  }

  /** What a slot must be like for a deed to happen. */
  predicate Fitting(h: State, d: Deed, i: nat) {
    && SaneDeed(d) && (d == Did(Emit(FromQueue)) ==> CanTake(h, FromQueue))
    && (d.Did? && UserId(d.action) == i ==> Allows(SlotOf(h, i), d.action))
    && (OpensNow(h, i) ==> SlotOf(h, i) == UNUSED)
    && (d.Took? && d.packet.kind.Asks() && d.packet.id == i ==> SlotOf(h, i).asked.None?)
  }

  lemma DeedFits(x: Peer, y: Peer, xy: seq<Packet>, yx: seq<Packet>, a: Action, i: nat)
    requires Inv(x, y, xy, yx) && Able(x, yx, a)
    ensures Fitting(x.h, DeedOf(yx, a), i)
  {
    hide Inv, SlotOf;
    DeedAllows(x, yx, a, i);
    if OpensNow(x.h, i) { NextIdIsFresh(x, y, xy, yx, i); }
    if a.Receive? && yx[0].kind.Asks() && yx[0].id == i { AskedByPeer(x, y, xy, yx); }
    hide Allows, SaneDeed, OpensNow;
  }

  /** The user's part of an id, over one turn. */
  lemma UserTells(h: State, d: Deed, ds: seq<Deed>, sent: seq<Packet>, first: nat, i: nat)
    requires Fitting(h, d, i) && QueueTold(h, ds, first) && IdsTold(h.role, sent, ds, first) && ListenTold(h, ds)
    requires UserRecord(SlotOf(h, i), ds, first, |Openings(sent)|, i)
    ensures UserRecord(NextSlot(h, d, i), ds + [d], first, |Openings(sent)| + IssuedBy(h, d), i)
  {
    hide SlotOf, UserRecord, Openings, Enqueued, Left, UserDelta, NextSlot, QueueTold, Allows, OpensNow, Opening;
    if d == Did(Emit(FromQueue)) {
      LeavingTells(h, sent, ds, first, i);
    } else {
      SlotDelta(h, d, i);
      UserStays(SlotOf(h, i), NextSlot(h, d, i), ds, d, h.listening, first, |Openings(sent)|, i);
    }
  }

  lemma SameUser(s: Slot, s': Slot, ds: seq<Deed>, first: nat, issued: nat, i: nat)
    requires UserRecord(s, ds, first, issued, i) && Past(s') == Past(s)
    ensures UserRecord(s', ds, first, issued, i)
  {
    hide Enqueued, AskedBy, GivenBy, PutIn, Pushes, Abandoned;
  }

  /** All that is recorded of an id, over one turn. */
  lemma RecordTells(h: State, h': State, d: Deed, ds: seq<Deed>, sent: seq<Packet>, out: seq<Packet>, first: nat, i: nat)
    requires Fitting(h, d, i) && QueueTold(h, ds, first) && IdsTold(h.role, sent, ds, first) && ListenTold(h, ds)
    requires RecordOf(h, sent, ds, first, i) && Past(SlotOf(h', i)) == Past(NextSlot(h, d, i))
    requires |Openings(sent + out)| == |Openings(sent)| + IssuedBy(h, d)
    ensures RecordOf(h', sent + out, ds + [d], first, i)
  {
    hide SlotOf, UserRecord, InRecord, Openings, NextSlot, QueueTold, IdsTold, ListenTold, Past, IssuedBy;
    UserTells(h, d, ds, sent, first, i);
    SameUser(NextSlot(h, d, i), SlotOf(h', i), ds + [d], first, |Openings(sent + out)|, i);
    InKeeps(h, SlotOf(h', i), ds, d, i);
  }

  /** Over one turn of an endpoint in a connection. */
  lemma TurnTells(x: Peer, y: Peer, xy: seq<Packet>, yx: seq<Packet>, a: Action, sent: seq<Packet>, ds: seq<Deed>, first: nat)
    requires Inv(x, y, xy, yx) && Able(x, yx, a) && Turn(x, yx, a).Moved? && Told(x.h, sent, ds, first)
    ensures var t := Turn(x, yx, a); Told(t.peer.h, sent + t.out, ds + [DeedOf(yx, a)], first)
  {
    var t, d := Turn(x, yx, a), DeedOf(yx, a);
    TurnQueue(x, yx, a);
    TurnIds(x, yx, a);
    TurnListens(x, yx, a, ds);
    hide Inv, Able, Turn, QueueTold, IdsTold, ListenTold, RecordOf, QueueStep, DeedOf;
    QueueKeeps(x.h, t.peer.h, ds, d, first);
    IdsKeep(x.h, t.peer.h.role, sent, t.out, ds, d, first);
    IssuedNext(x.h, t.peer.h.role, sent, t.out, d);
    hide IdsStep;
    forall i: nat ensures RecordOf(t.peer.h, sent + t.out, ds + [d], first, i) {
      DeedFits(x, y, xy, yx, a, i);
      TurnPast(x, y, xy, yx, a, i);
      assert RecordOf(x.h, sent, ds, first, i);
      RecordTells(x.h, t.peer.h, d, ds, sent, t.out, first, i);
    }
  }

  // ---- every run ----------------------------------------------------------------------------

  /** What happened at a side in a run: its moves, with the packets they took in. */
  function DeedsOf(ms: seq<Move>, s: Side): seq<Deed> {
    if ms == [] then [] else
    var less, m := ms[..|ms| - 1], ms[|ms| - 1];
    DeedsOf(less, s) +
    match Play(less)
    case At(n) => if m.who == s && Possible(n, m) then [DeedOf(n.To(s), m.action)] else []
    case _ => []
  }

  /** The first id of a side. */
  function FirstId(s: Side): nat {
    if s.Client? then 0 else 0x8000_0000
  }

  lemma StartTold(s: Side)
    ensures Told(START.Of(s).h, [], [], FirstId(s))
  {
    forall i: nat ensures RecordOf(START.Of(s).h, [], [], FirstId(s), i) {
      assert SlotOf(START.Of(s).h, i) == UNUSED;
    }
  }

  lemma DeedsNext(ms: seq<Move>, s: Side, n: Net)
    requires ms != [] && Play(ms[..|ms| - 1]) == At(n) && Possible(n, ms[|ms| - 1])
    ensures var m := ms[|ms| - 1];
      DeedsOf(ms, s) == DeedsOf(ms[..|ms| - 1], s) + if m.who == s then [DeedOf(n.To(s), m.action)] else []
  {
    hide Play, Able, DeedOf;
  }

  lemma DoTells(n: Net, m: Move, s: Side, ds: seq<Deed>)
    requires NetInv(n) && Possible(n, m) && Do(n, m).At? && Told(n.Of(s).h, n.SentBy(s), ds, FirstId(s))
    ensures var n' := Do(n, m).net;
      Told(n'.Of(s).h, n'.SentBy(s), ds + (if m.who == s then [DeedOf(n.To(s), m.action)] else []), FirstId(s))
  {
    hide Told, NetInv, Turn, Able, FirstId;
    if m.who == s {
      InvOf(n, s);
      TurnTells(n.Of(s), n.Of(s.Other()), n.To(s.Other()), n.To(s), m.action, n.SentBy(s), ds, FirstId(s));
    } else {
      assert ds + [] == ds;
    }
  }

  lemma {:induction false} AllIsTold(n: Net, ms: seq<Move>, s: Side)
    requires Reached(n, ms)
    ensures Told(n.Of(s).h, n.SentBy(s), DeedsOf(ms, s), FirstId(s))
    decreases |ms|
  {
    if ms == [] {
      StartTold(s);
      hide Told;
    } else {
      var m, less := ms[|ms| - 1], ms[..|ms| - 1];
      var before := LastStep(n, ms);
      assert Play(less) == At(before);
      hide Told, NetInv, Do, Possible, Play, FirstId;
      AllIsTold(before, less, s);
      DoTells(before, m, s, DeedsOf(less, s));
      DeedsNext(ms, s, before);
    }
  }

  /** The requests a side has sent, and those it has not: the first ones made, in order and unchanged, under ids that
      follow each other; then the others, with all that was done to them since. Only a side without ids drops one. */
  predicate InOrder(h: State, sent: seq<Packet>, ds: seq<Deed>, first: nat) {
    var gone := Openings(sent);
    && |gone| <= Left(ds) && |Enqueued(ds)| == Left(ds) + |h.requests|
    && (forall k :: 0 <= k < |gone| ==> gone[k] == Opening(Enqueued(ds)[k], first + k))
    && (|gone| < Left(ds) ==> h.role.CanSendRequests() && h.role.Id().None?)
    && (forall j :: 0 <= j < |h.requests| ==> h.requests[j] == Now(ds, first, Left(ds) + j))
  }

  lemma ToldInOrder(h: State, sent: seq<Packet>, ds: seq<Deed>, first: nat)
    requires QueueTold(h, ds, first) && IdsTold(h.role, sent, ds, first)
    ensures InOrder(h, sent, ds, first)
  {
    hide QuietElsewhere, Enqueued, Left, Now, Openings, Opening;
  }

  /** Requests leave in the order in which the user made them. */
  lemma RequestsLeaveInOrder(n: Net, ms: seq<Move>, s: Side)
    requires Reached(n, ms)
    ensures InOrder(n.Of(s).h, n.SentBy(s), DeedsOf(ms, s), FirstId(s))
  {
    AllIsTold(n, ms, s);
    hide Reached, QueueTold, IdsTold, InOrder, FirstId, DeedsOf;
    ToldInOrder(n.Of(s).h, n.SentBy(s), DeedsOf(ms, s), FirstId(s));
  }

  lemma GrownOpen(req: InternalRequest, items: seq<Body>, ended: bool)
    ensures var g := Grown(req, items, ended);
      g.AskSender? && g.queue.open <==> req.AskSender? && req.queue.open && !ended
  {
  }

  lemma EntryOpen(h: State, sent: seq<Packet>, ds: seq<Deed>, first: nat, j: nat)
    requires InOrder(h, sent, ds, first) && j < |h.requests|
    ensures var k := Left(ds) + j;
      && k < |Enqueued(ds)|
      && (h.requests[j].AskSender? && h.requests[j].queue.open <==>
            Enqueued(ds)[k].AskSender? && Enqueued(ds)[k].queue.open && !EndedQueued(ds, k))
  {
    var k := Left(ds) + j;
    hide Enqueued, Left, EndedQueued, PutIn, Openings, Opening, Grown;
    assert h.requests[j] == Now(ds, first, k);
    GrownOpen(Enqueued(ds)[k], PutIn(ds, first, k), EndedQueued(ds, k));
  }

  /** The user may put something into the stream of a request that is still queued exactly until it has ended it. */
  lemma QueuedStreamsTake(n: Net, ms: seq<Move>, s: Side, j: nat, b: Body)
    requires Reached(n, ms) && j < |n.Of(s).h.requests|
    ensures var ds := DeedsOf(ms, s); var k := Left(ds) + j;
      && k < |Enqueued(ds)|
      && (Possible(n, Move(s, PushQueued(j, b))) <==>
            Enqueued(ds)[k].AskSender? && Enqueued(ds)[k].queue.open && !EndedQueued(ds, k))
  {
    hide Reached, InOrder, Enqueued, Left, EndedQueued, FirstId, DeedsOf;
    RequestsLeaveInOrder(n, ms, s);
    EntryOpen(n.Of(s).h, n.SentBy(s), DeedsOf(ms, s), FirstId(s), j);
  }

  /** What is recorded of an id is what happened. */
  lemma HistoriesAreTrue(n: Net, ms: seq<Move>, s: Side, i: nat)
    requires Reached(n, ms)
    ensures RecordOf(n.Of(s).h, n.SentBy(s), DeedsOf(ms, s), FirstId(s), i)
  {
    AllIsTold(n, ms, s);
    hide Reached, RecordOf, QueueTold, IdsTold;
  }

  /** What the user of side s put into the stream of this id: as part of a request of its own, from the moment it was
      made, or in answer to a request of the peer. */
  function PutInto(ds: seq<Deed>, first: nat, i: nat, own: bool): seq<Body> {
    if own && first <= i then PutIn(ds, first, i - first) else Pushes(ds, i)
  }

  lemma RecordedStream(h: State, sent: seq<Packet>, ds: seq<Deed>, first: nat, i: nat)
    requires RecordOf(h, sent, ds, first, i)
    ensures Get(h.log.pushed, i) == PutInto(ds, first, i, i in h.log.asked)
    ensures Marks(Get(h.log.arrivals, i)) == CameIn(ds, i)
  {
    hide AskedBy, PutIn, Pushes, Abandoned, GivenBy, SeenBy, RefusedBy, ResultBy, ToldBy, Marks, CameIn, Openings;
  }

  /** From user to user: for every id and both directions, what arrived, then what is in flight, then what is queued is
      what the sending user put in, in order, whether or not its request had already left. */
  lemma StreamsComeFromUsers(n: Net, ms: seq<Move>, s: Side, i: nat)
    requires Reached(n, ms)
    ensures var x, y := n.Of(s), n.Of(s.Other());
      && ArrivedBodies(Get(y.h.log.arrivals, i)) + InFlight(n.To(s.Other()), i) + QueuedAt(x, i)
         == PutInto(DeedsOf(ms, s), FirstId(s), i, i in x.h.log.asked)
      && Marks(Get(y.h.log.arrivals, i)) == CameIn(DeedsOf(ms, s.Other()), i)
  {
    hide Reached, RecordOf, DeedsOf, FirstId, PutInto, Marks, CameIn, ArrivedBodies, InFlight, QueuedAt;
    HistoriesAreTrue(n, ms, s, i);
    HistoriesAreTrue(n, ms, s.Other(), i);
    RecordedStream(n.Of(s).h, n.SentBy(s), DeedsOf(ms, s), FirstId(s), i);
    RecordedStream(n.Of(s.Other()).h, n.SentBy(s.Other()), DeedsOf(ms, s.Other()), FirstId(s.Other()), i);
    StreamsConserved(n, ms, s, i);
  }

  /** A stream packet that is taken in goes to the local user, unless that user left the stream or the request for it
      could not be read. */
  lemma DeliveredExactly(n: Net, ms: seq<Move>, s: Side)
    requires Reached(n, ms) && n.Of(s).phase.Running? && n.To(s) != [] && n.To(s)[0].kind.Stream?
    ensures Possible(n, Move(s, Receive)) && Do(n, Move(s, Receive)).At?
    ensures var p, l, l' := n.To(s)[0], n.Of(s).h.log, Do(n, Move(s, Receive)).net.Of(s).h.log;
      Get(l'.arrivals, p.id) == Get(l.arrivals, p.id) +
        [Arrival(p.body, if p.id in l.dropped || p.id in l.refused then Rejected else Delivered)]
  {
    var m, p := Move(s, Receive), n.To(s)[0];
    var x, y, xy, yx := n.Of(s), n.Of(s.Other()), n.To(s.Other()), n.To(s);
    NeverBroken(ms);
    InvOf(n, s);
    hide NetInv, Inv, Reached, Do;
    Scope.ReceivingIsInScope(x);
    assert Possible(n, m);
    hide InScope;
    DoKeeps(n, m);
    HeadShape(x, y, xy, yx);
    StreamHead(SlotOf(x.h, p.id), SlotOf(y.h, p.id), Thread(xy, p.id), p, Thread(yx[1..], p.id), p.id, y.phase.Running?);
    hide Shaped, SenderShape, ReceiverShape, Flow;
    StreamTaken(n, m, y, xy);
  }

  lemma TakenStream(s: Slot, p: Packet, listening: bool, s': Slot)
    requires p.kind.Stream? && Past(s') == Past(TakenSlot(s, p, listening))
    ensures s'.arrivals == s.arrivals + [Arrival(p.body, if s.wos == Some(Receiving(true)) then Delivered else Rejected)]
  {
  }

  lemma StreamTaken(n: Net, m: Move, y: Peer, xy: seq<Packet>)
    requires m.action.Receive? && Possible(n, m) && Do(n, m).At? && Inv(n.Of(m.who), y, xy, n.To(m.who))
    requires n.To(m.who)[0].kind.Stream?
    ensures var p, s := n.To(m.who)[0], SlotOf(n.Of(m.who).h, n.To(m.who)[0].id);
      Get(Do(n, m).net.Of(m.who).h.log.arrivals, p.id) ==
      s.arrivals + [Arrival(p.body, if s.wos == Some(Receiving(true)) then Delivered else Rejected)]
  {
    var x, p, t := n.Of(m.who), n.To(m.who)[0], Turn(n.Of(m.who), n.To(m.who), m.action);
    hide Inv, Turn, Able, SlotOf, TakenSlot, Past;
    TurnPast(x, y, xy, n.To(m.who), m.action, p.id);
    TakenStream(SlotOf(x.h, p.id), p, x.h.listening, SlotOf(t.peer.h, p.id));
    SlotIs(t.peer.h, p.id);
  }

  lemma SlotIs(h: State, i: nat)
    ensures SlotOf(h, i).arrivals == Get(h.log.arrivals, i)
    ensures (SlotOf(h, i).dropped <==> i in h.log.dropped) && (SlotOf(h, i).refused <==> i in h.log.refused)
  {
  }

  lemma RecordedAnswer(h: State, sent: seq<Packet>, ds: seq<Deed>, first: nat, i: nat)
    requires RecordOf(h, sent, ds, first, i)
    ensures Find(h.log.given, i) == GivenBy(ds, i) && Find(h.log.seen, i) == SeenBy(ds, i)
    ensures i in h.log.refused <==> RefusedBy(ds, i)
    ensures Find(h.log.results, i) == ResultBy(ds, i)
    ensures i in h.log.asked ==>
      && first <= i < first + |Enqueued(ds)| && QuestionOf(Enqueued(ds)[i - first]) == Some(h.log.asked[i])
  {
    hide Enqueued, PutIn, Pushes, Abandoned, GivenBy, SeenBy, RefusedBy, ResultBy, ToldBy, Marks, CameIn, Openings;
  }

  /** What the peer of a request with this id did, against what the requester was told. */
  predicate TrueToUsers(v: Verdict, mine: seq<Deed>, theirs: seq<Deed>, first: nat, i: nat) {
    && first <= i < first + |Enqueued(mine)| && Enqueued(mine)[i - first].Ask?
    && var asked := Some(Question(Request, Enqueued(mine)[i - first].body));
    && match v
       case Got(x) => GivenBy(theirs, i) == Some(x) && SeenBy(theirs, i) == asked
       case GotNoResponse => GivenBy(theirs, i) == None && SeenBy(theirs, i) == asked
       case GotMalformed => RefusedBy(theirs, i) && SeenBy(theirs, i) == None && GivenBy(theirs, i) == None
       case GotBadResponse => GivenBy(theirs, i).Some? && SeenBy(theirs, i) == asked
  }

  /** From user to user: a verdict is what the peer's user did with the request that the local user made. */
  lemma AnswersComeFromUsers(n: Net, ms: seq<Move>, s: Side, i: nat)
    requires Reached(n, ms) && i in n.Of(s).h.log.results
    ensures TrueToUsers(n.Of(s).h.log.results[i], DeedsOf(ms, s), DeedsOf(ms, s.Other()), FirstId(s), i)
  {
    hide Reached, RecordOf, DeedsOf, FirstId, Enqueued, GivenBy, SeenBy, RefusedBy, ResultBy;
    HistoriesAreTrue(n, ms, s, i);
    HistoriesAreTrue(n, ms, s.Other(), i);
    RecordedAnswer(n.Of(s).h, n.SentBy(s), DeedsOf(ms, s), FirstId(s), i);
    RecordedAnswer(n.Of(s.Other()).h, n.SentBy(s.Other()), DeedsOf(ms, s.Other()), FirstId(s.Other()), i);
    AnswersAreTrue(n, ms, s, i);
  }

  /** The packets an endpoint took in, in order. */
  function Reading(ds: seq<Deed>): seq<Packet> {
    if ds == [] then [] else
    Reading(ds[..|ds| - 1]) + match ds[|ds| - 1] case Did(_) => [] case Took(p) => [p] case Spoilt(p) => [p]
  }

  /** The channels neither lose nor reorder: what one side took in and what is in flight is what the other side sent. */
  lemma {:induction false} ChannelsKeepOrder(ms: seq<Move>, s: Side)
    requires Play(ms).At?
    ensures Reading(DeedsOf(ms, s)) + Play(ms).net.To(s) == Play(ms).net.SentBy(s.Other())
  {
    if ms != [] {
      var less, m := ms[..|ms| - 1], ms[|ms| - 1];
      var n := Play(less).net;
      assert Play(ms) == Do(n, m) && Possible(n, m);
      ChannelsKeepOrder(less, s);
      DeedsNext(ms, s, n);
      hide Play;
      OneRead(n, m, s, DeedsOf(less, s));
    }
  }

  lemma OneRead(n: Net, m: Move, s: Side, ds: seq<Deed>)
    requires Possible(n, m) && Do(n, m).At? && Reading(ds) + n.To(s) == n.SentBy(s.Other())
    ensures var ds' := ds + if m.who == s then [DeedOf(n.To(s), m.action)] else [];
      Reading(ds') + Do(n, m).net.To(s) == Do(n, m).net.SentBy(s.Other())
  {
    var q := n.To(s);
    hide Turn, Reading, DeedOf;
    if m.who == s {
      ReadNext(ds, q, m.action);
      TurnReads(n.Of(s), q, m.action);
      hide Able;
    } else {
      hide Able;
      assert ds + [] == ds;
    }
  }

  lemma ReadNext(ds: seq<Deed>, q: seq<Packet>, a: Action)
    requires Reads(a) ==> q != []
    ensures Reading(ds + [DeedOf(q, a)]) + (if Reads(a) then q[1..] else q) == Reading(ds) + q
  {
    Snoc(ds, DeedOf(q, a));
    if Reads(a) { assert q == [q[0]] + q[1..]; }
  }

  lemma TurnReads(x: Peer, inbox: seq<Packet>, a: Action)
    requires Able(x, inbox, a) && Turn(x, inbox, a).Moved?
    ensures Turn(x, inbox, a).inbox == if Reads(a) then inbox[1..] else inbox
  {
    hide Send, PacketError, TakeUser, TakeQueue;
  }

  // ---- until when requests can be made ------------------------------------------------------

  lemma AfterKeepsOpen(h: State, r: Outcome, inbox: seq<Packet>)
    ensures var t := After(h, r, inbox); t.Moved? ==> t.peer.h.requestsOpen == (t.peer.phase.Running? && h.requestsOpen)
  {
  }

  lemma EmitKeepsOpen(h: State, src: Source)
    requires CanTake(h, src)
    ensures ToSend(h, src).0.requestsOpen == h.requestsOpen
  {
    if src.FromQueue? {
      if h.role.Id().Some? {
        match h.requests[0] {
          case EnableServer => case Ask(_) => case AskSender(_, _) => case AskReceiver(_, _) =>
        }
      }
    } else {
      match h.wou[src.id] {
        case Answering(_) =>
        case Sending(q) => if q.items != [] { }
      }
    }
  }

  lemma TurnOpens(x: Peer, inbox: seq<Packet>, a: Action)
    requires Able(x, inbox, a) && Turn(x, inbox, a).Moved? && (x.h.requestsOpen ==> x.phase.Running?)
    ensures var x' := Turn(x, inbox, a).peer;
      x'.h.requestsOpen <==> x.h.requestsOpen && x'.phase.Running? && !a.DropSenders?
    ensures var x' := Turn(x, inbox, a).peer; x'.phase.Running? ==> x.phase.Running?
  {
    if Reads(a) {
      var (h', r) := if a.Receive? then Send(x.h, inbox[0]) else PacketError(x.h, inbox[0]);
      Scope.SendKeepsRest(x.h, inbox[0]);
      ErrorKeepsRest(x.h, inbox[0]);
      AfterKeepsOpen(h', r, inbox[1..]);
      hide Send, PacketError, After;
    } else if a.Emit? {
      EmitKeepsOpen(x.h, a.source);
      hide ToSend;
    } else {
      hide Send, PacketError, ToSend;
    }
  }

  /** The user may make requests as long as the side runs and the user has not given it up; so no request is made
      after that. */
  lemma {:induction false} RequestsUntil(ms: seq<Move>, s: Side)
    requires Play(ms).At?
    ensures var x := Play(ms).net.Of(s); x.h.requestsOpen <==> x.phase.Running? && Did(DropSenders) !in DeedsOf(ms, s)
    ensures forall req :: Possible(Play(ms).net, Move(s, Enqueue(req))) <==>
            Play(ms).net.Of(s).phase.Running? && Did(DropSenders) !in DeedsOf(ms, s)
  {
    if ms != [] {
      var less, m := ms[..|ms| - 1], ms[|ms| - 1];
      var n := Play(less).net;
      assert Play(ms) == Do(n, m) && Possible(n, m);
      RequestsUntil(less, s);
      DeedsNext(ms, s, n);
      hide Play;
      OpenStep(n, m, s, DeedsOf(less, s));
    }
  }

  lemma OpenStep(n: Net, m: Move, s: Side, ds: seq<Deed>)
    requires Possible(n, m) && Do(n, m).At?
    requires n.Of(s).h.requestsOpen <==> n.Of(s).phase.Running? && Did(DropSenders) !in ds
    ensures var x, all := Do(n, m).net.Of(s), ds + if m.who == s then [DeedOf(n.To(s), m.action)] else [];
      x.h.requestsOpen <==> x.phase.Running? && Did(DropSenders) !in all
  {
    if m.who == s {
      TurnOpens(n.Of(s), n.To(s), m.action);
      assert DeedOf(n.To(s), m.action) == Did(DropSenders) <==> m.action.DropSenders?;
      hide Turn, Able, DeedOf;
    } else {
      assert ds + [] == ds;
      hide Turn, Able;
    }
  }
}
