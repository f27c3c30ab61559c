/** Histories only grow, whatever an endpoint does. */
module History {
  import opened Basics
  import opened Protocol
  import opened Conversation
  import opened ConversationSteps
  import opened Peers

  predicate Stays<T(==)>(a: Option<T>, b: Option<T>) {
    a.Some? ==> b == a
  }

  /** The second slot knows everything the first one knows, unchanged. Once a producer was told that nobody takes
      its stream any more, nothing is added to it. */
  predicate Grows(s: Slot, t: Slot) {
    && Stays(s.asked, t.asked) && Stays(s.seen, t.seen) && Stays(s.given, t.given) && Stays(s.result, t.result)
    && (s.refused ==> t.refused) && (s.told ==> t.told) && (s.dropped ==> t.dropped)
    && s.pushed <= t.pushed && s.arrivals <= t.arrivals && (s.told ==> t.pushed == s.pushed)
  }

  lemma GrowsTrans(a: Slot, b: Slot, c: Slot)
    ensures Grows(a, a)
    ensures Grows(a, b) && Grows(b, c) ==> Grows(a, c)
  {
  }

  lemma UserGrows(x: Peer, y: Peer, xy: seq<Packet>, yx: seq<Packet>, a: Action, i: nat)
    requires Inv(x, y, xy, yx) && Able(x, yx, a) && ByUser(a)
    ensures Grows(SlotOf(x.h, i), SlotOf(Turn(x, yx, a).peer.h, i))
  {
    UserSlots(x, yx, a, i);
    if (a.Answer? || a.Push?) && i == a.id {
      assert ShapedAt(x, y, xy, yx, i);
      hide Shaped;
      StillOpen(SlotOf(x.h, i), SlotOf(y.h, i), Thread(xy, i), Thread(yx, i), i, x.phase.Running?, y.phase.Running?);
    }
    hide Turn, SlotOf, Inv;
  }

  /** Whoever waits for an answer was given none, and whoever still takes stream packets was not told to stop. */
  lemma StillOpen(x: Slot, y: Slot, xy: seq<Packet>, yx: seq<Packet>, i: nat, xr: bool, yr: bool)
    requires Shaped(x, y, xy, yx, i, xr, yr)
    ensures x.wou == Some(Answering(Waiting)) ==> x.given.None?
    ensures x.wou.Some? && x.wou.value.Sending? && x.wou.value.queue.open ==> !x.told
  {
    if x.wou == Some(Answering(Waiting)) {
      assert RequestAt(y, x, yx, xy, i, yr, Pending);
    } else if x.wou.Some? && x.wou.value.Sending? {
      ProducerShape(x, y, xy, yx, i, xr, yr);
    }
  }

  lemma EmitGrows(x: Peer, y: Peer, xy: seq<Packet>, yx: seq<Packet>, src: Source, i: nat)
    requires Inv(x, y, xy, yx) && Able(x, yx, Emit(src))
    ensures var t := Turn(x, yx, Emit(src)); t.Moved? ==> Grows(SlotOf(x.h, i), SlotOf(t.peer.h, i))
  {
    match src
    case FromUser(id) =>
      hide TakeUser, SlotOf;
      if i == id { TakeUserSlot(x.h, id); } else { TakeUserElse(x.h, id, i); }
    case FromQueue => QueueGrows(x, y, xy, yx, i);
  }

  lemma QueueGrows(x: Peer, y: Peer, xy: seq<Packet>, yx: seq<Packet>, i: nat)
    requires Inv(x, y, xy, yx) && CanTake(x.h, FromQueue)
    ensures Grows(SlotOf(x.h, i), SlotOf(TakeQueue(x.h).0, i))
  {
    var id := x.h.role.Id();
    hide TakeQueue, Inv, SlotOf, Grows;
    if id.None? || x.h.requests[0].EnableServer? {
      NoNewSlot(x.h, i);
    } else {
      NextIdIsFresh(x, y, xy, yx, id.value);
      TakeQueueSlot(x.h, i);
    }
    NewSlotGrows(SlotOf(x.h, i), SlotOf(TakeQueue(x.h).0, i));
  }

  /** Without an id, or when server requests are enabled, no conversation begins. */
  lemma NoNewSlot(h: State, i: nat)
    requires CanTake(h, FromQueue) && (h.role.Id().None? || h.requests[0].EnableServer?)
    ensures SlotOf(TakeQueue(h).0, i) == SlotOf(h, i)
  {
  }

  lemma NewSlotGrows(s: Slot, t: Slot)
    ensures s == t || s == UNUSED ==> Grows(s, t)
  {
  }

  /** The slot is empty where a packet is about to write. */
  lemma HeadIsNews(x: Peer, y: Peer, xy: seq<Packet>, yx: seq<Packet>)
    requires Inv(x, y, xy, yx) && yx != [] && x.phase.Running? && yx[0].kind.Threaded()
    ensures var s := SlotOf(x.h, yx[0].id);
      && (yx[0].kind.Asks() ==> s.seen.None?)
      && (VerdictOf(yx[0]).Some? ==> s.result.None?)
  {
    var p, i := yx[0], yx[0].id;
    assert ShapedAt(x, y, xy, yx, i);
    ThreadHead(yx, i);
    hide Shaped;
    var s, t, out, rest := SlotOf(x.h, i), SlotOf(y.h, i), Thread(xy, i), Thread(yx[1..], i);
    if p.kind.Asks() {
      AskArrives(s, t, out, p, rest, i, y.phase.Running?);
    } else if VerdictOf(p).Some? {
      AnswerArrives(s, t, out, p, rest, i, y.phase.Running?);
    }
  }

  lemma SendGrows(x: Peer, y: Peer, xy: seq<Packet>, yx: seq<Packet>, i: nat)
    requires Inv(x, y, xy, yx) && yx != [] && x.phase.Running?
    ensures Grows(SlotOf(x.h, i), SlotOf(Send(x.h, yx[0]).0, i))
  {
    if yx[0].kind.Threaded() {
      ThreadedGrows(x, y, xy, yx, i);
    } else {
      hide Send, SlotOf, ShapedAt, Common;
      OtherTakes(x, y, xy, yx);
    }
  }

  lemma ThreadedGrows(x: Peer, y: Peer, xy: seq<Packet>, yx: seq<Packet>, i: nat)
    requires Inv(x, y, xy, yx) && yx != [] && x.phase.Running? && yx[0].kind.Threaded()
    ensures Grows(SlotOf(x.h, i), SlotOf(Send(x.h, yx[0]).0, i))
  {
    var p := yx[0];
    hide Send, Inv;
    HeadFits(x, y, xy, yx);
    HeadIsNews(x, y, xy, yx);
    if p.kind.Asks() { MayAsk(x, y, xy, yx); }
    hide SlotOf;
    if i == p.id {
      SendSlot(x.h, p);
      TakenGrows(SlotOf(x.h, i), p, x.h.listening);
    } else {
      SendElse(x.h, p, i);
    }
  }

  lemma TakenGrows(s: Slot, p: Packet, listening: bool)
    requires (p.kind.Asks() ==> s.seen.None?) && (VerdictOf(p).Some? ==> s.result.None?) && p.kind.Threaded()
    ensures Grows(s, TakenSlot(s, p, listening))
  {
    match p.kind {
      case Request => case RequestReceiver => case RequestSender => case Stream => case StreamClosed =>
      case Response => case NoResponse => case MalformedRequest =>
    }
  }

  lemma ErrorGrows(x: Peer, y: Peer, xy: seq<Packet>, yx: seq<Packet>, i: nat)
    requires Inv(x, y, xy, yx) && yx != [] && x.phase.Running? && yx[0].kind.UserMade()
    ensures Grows(SlotOf(x.h, i), SlotOf(PacketError(x.h, yx[0]).0, i))
  {
    var p := yx[0];
    hide PacketError, Inv, Grows;
    HeadFits(x, y, xy, yx);
    HeadIsNews(x, y, xy, yx);
    hide SlotOf;
    if i == p.id {
      ErrorSlot(x.h, p);
      SpoiltGrows(SlotOf(x.h, i), p);
    } else {
      ErrorElse(x.h, p, i);
      NewSlotGrows(SlotOf(x.h, i), SlotOf(x.h, i));
    }
  }

  lemma SpoiltGrows(s: Slot, p: Packet)
    requires (VerdictOf(p).Some? ==> s.result.None?) && p.kind.UserMade()
    ensures Grows(s, SpoiltSlot(s, p))
  {
    match p.kind {
      case Request => case RequestReceiver => case RequestSender => case Stream => case Response =>
    }
  }

  lemma AfterGrows(h: State, r: Outcome, inbox: seq<Packet>, i: nat)
    ensures var t := After(h, r, inbox); t.Moved? ==> Grows(SlotOf(h, i), SlotOf(t.peer.h, i))
  {
    ClosedSlotOf(h, i);
    hide SlotOf, Closed;
  }

  lemma TurnGrows(x: Peer, y: Peer, xy: seq<Packet>, yx: seq<Packet>, a: Action, i: nat)
    requires Inv(x, y, xy, yx) && Able(x, yx, a)
    ensures var t := Turn(x, yx, a); t.Moved? ==> Grows(SlotOf(x.h, i), SlotOf(t.peer.h, i))
  {
    hide Grows;
    if ByUser(a) {
      hide Turn, SlotOf;
      UserGrows(x, y, xy, yx, a, i);
    } else if a.Receive? || a.ReceiveMalformed? {
      ReceiveGrows(x, y, xy, yx, a, i);
    } else if a.Emit? {
      hide Turn, SlotOf;
      EmitGrows(x, y, xy, yx, a.source, i);
    } else {
      LoopGrows(x, yx, a, i);
    }
  }

  lemma LoopGrows(x: Peer, yx: seq<Packet>, a: Action, i: nat)
    requires Able(x, yx, a) && (a.SendPing? || a.CloseSignal? || a.Finish?)
    ensures Grows(SlotOf(x.h, i), SlotOf(Turn(x, yx, a).peer.h, i))
  {
    hide SlotOf, Closed;
    ClosedSlotOf(x.h, i);
  }

  lemma ReceiveGrows(x: Peer, y: Peer, xy: seq<Packet>, yx: seq<Packet>, a: Action, i: nat)
    requires Inv(x, y, xy, yx) && Able(x, yx, a) && (a.Receive? || a.ReceiveMalformed?)
    ensures var t := Turn(x, yx, a); t.Moved? ==> Grows(SlotOf(x.h, i), SlotOf(t.peer.h, i))
  {
    hide Inv, Send, PacketError, SlotOf, After;
    var (h', r) := if a.Receive? then Send(x.h, yx[0]) else PacketError(x.h, yx[0]);
    if a.Receive? { SendGrows(x, y, xy, yx, i); } else { ErrorGrows(x, y, xy, yx, i); }
    AfterGrows(h', r, yx[1..], i);
    var t := After(h', r, yx[1..]);
    if t.Moved? { GrowsTrans(SlotOf(x.h, i), SlotOf(h', i), SlotOf(t.peer.h, i)); }
  }
}
