/** How a connection ends: the close packet, what is received after it, and what a graceful close guarantees. */
module Goodbye {
  import opened Basics
  import opened Protocol
  import opened Conversation
  import opened Peers
  import opened Connection
  import D = Drain

  // ---- one turn -----------------------------------------------------------------------------

  /** The phases only go forward; a closing endpoint receives nothing, a finished one sends nothing either, and
      the close packet is what an endpoint finishes with. */
  predicate Proper(x: Peer, inbox: seq<Packet>, x': Peer, inbox': seq<Packet>, out: seq<Packet>) {
    && |out| <= 1
    && (inbox' == inbox || (x.phase.Running? && inbox != [] && inbox' == inbox[1..]))
    && (!x.phase.Running? ==> !x'.phase.Running?)
    && (x.phase.Done? ==> out == [] && x'.phase == x.phase)
    && (out != [] && out[0].kind.Close? ==> x.phase == Closing(true) && x'.phase.Done?)
    && (x'.phase == Done(true) && !x.phase.Done? ==> NothingToSend(x'.h))
  }

  lemma TurnIsProper(x: Peer, inbox: seq<Packet>, a: Action)
    requires Able(x, inbox, a) && Turn(x, inbox, a).Moved?
    ensures var t := Turn(x, inbox, a); Proper(x, inbox, t.peer, t.inbox, t.out)
  {
    if a.Receive? || a.ReceiveMalformed? {
      var (h', r) := if a.Receive? then Send(x.h, inbox[0]) else PacketError(x.h, inbox[0]);
      SmallReplies(x.h, inbox[0]);
      hide Send, PacketError, Closed;
    } else if a.Emit? && a.source.FromUser? {
      hide Send, PacketError;
    } else {
      hide Send, PacketError, TakeUser;
    }
  }

  /** The handler never answers with a close packet. */
  lemma SmallReplies(h: State, p: Packet)
    ensures forall r <- [Send(h, p).1, PacketError(h, p).1] :: r.Ok? && r.value.Reply? ==> !r.value.packet.kind.Close?
  {
  }

  // ---- runs ---------------------------------------------------------------------------------

  /** The channel holds the last packets sent, and a close packet is the very last of all. */
  predicate Ledger(x: Peer, sent: seq<Packet>, inFlight: seq<Packet>) {
    && |inFlight| <= |sent| && inFlight == sent[|sent| - |inFlight|..]
    && (forall k :: 0 <= k < |sent| && sent[k].kind.Close? ==> k == |sent| - 1 && x.phase.Done?)
  }

  lemma LedgerSends(x: Peer, inbox: seq<Packet>, x': Peer, inbox': seq<Packet>,
                    sent: seq<Packet>, inFlight: seq<Packet>, out: seq<Packet>)
    requires Ledger(x, sent, inFlight) && Proper(x, inbox, x', inbox', out)
    ensures Ledger(x', sent + out, inFlight + out)
  {
    var all, n := sent + out, |sent| - |inFlight|;
    assert all[n..] == sent[n..] + out;
  }

  lemma LedgerReceives(y: Peer, sent: seq<Packet>, inFlight: seq<Packet>)
    requires Ledger(y, sent, inFlight) && inFlight != []
    ensures Ledger(y, sent, inFlight[1..])
  {
    var n := |sent| - |inFlight|;
    assert sent[n..][1..] == sent[n + 1..];
  }

  predicate Ledgers(n: Net) {
    && Ledger(n.client, n.clientSent, n.toServer)
    && Ledger(n.server, n.serverSent, n.toClient)
  }

  lemma DoIsProper(n: Net, m: Move)
    requires Possible(n, m) && Do(n, m).At?
    ensures var n', s := Do(n, m).net, m.who;
      exists out :: n' == n.Moved(s, n'.Of(s), n'.To(s), out) && Proper(n.Of(s), n.To(s), n'.Of(s), n'.To(s), out)
  {
    hide Able, Turn;
    TurnIsProper(n.Of(m.who), n.To(m.who), m.action);
    var t := Turn(n.Of(m.who), n.To(m.who), m.action);
    var n' := n.Moved(m.who, t.peer, t.inbox, t.out);
    hide Proper;
    assert n' == n.Moved(m.who, n'.Of(m.who), n'.To(m.who), t.out);
  }

  /** In every run each side sends at most one close packet, as its last packet, and only when it is done. */
  lemma {:induction false} CloseIsLast(ms: seq<Move>)
    requires Play(ms).At?
    ensures Ledgers(Play(ms).net)
  {
    if ms == [] {
    } else {
      CloseIsLast(ms[..|ms| - 1]);
      var n, m := Play(ms[..|ms| - 1]).net, ms[|ms| - 1];
      var n', s := Do(n, m).net, m.who;
      DoIsProper(n, m);
      hide Do, Possible;
      var out :| n' == n.Moved(s, n'.Of(s), n'.To(s), out) && Proper(n.Of(s), n.To(s), n'.Of(s), n'.To(s), out);
      LedgerSends(n.Of(s), n.To(s), n'.Of(s), n'.To(s), n.SentBy(s), n.To(s.Other()), out);
      if n'.To(s) != n.To(s) { LedgerReceives(n.Of(s.Other()), n.SentBy(s.Other()), n.To(s)); }
      hide Ledger;
    }
  }

  /** How many packets a side has received. */
  function Received(n: Net, s: Side): int {
    |n.SentBy(s.Other())| - |n.To(s)|
  }

  /** Once a side is closing it stays so and receives nothing more, however the run goes on. */
  lemma {:induction false} QuietAfterClosing(ms: seq<Move>, more: seq<Move>, s: Side)
    requires Play(ms).At? && Play(ms + more).At?
    requires !Play(ms).net.Of(s).phase.Running?
    ensures var n, n' := Play(ms).net, Play(ms + more).net;
      !n'.Of(s).phase.Running? && Received(n', s) == Received(n, s)
    decreases |more|
  {
    if more == [] {
      assert ms + more == ms;
    } else {
      var all, less := ms + more, more[..|more| - 1];
      assert all[..|all| - 1] == ms + less && all[|all| - 1] == more[|more| - 1];
      QuietAfterClosing(ms, less, s);
      var n, m := Play(ms + less).net, more[|more| - 1];
      var n', t := Do(n, m).net, m.who;
      assert Play(all) == At(n');
      hide Play;
      DoIsProper(n, m);
      hide Do, Possible;
      var out :| n' == n.Moved(t, n'.Of(t), n'.To(t), out) && Proper(n.Of(t), n.To(t), n'.Of(t), n'.To(t), out);
    }
  }

  // ---- why it closes ------------------------------------------------------------------------

  /** A packet that hands the user something. */
  predicate Hands(h: State, p: Packet) {
    p.kind.Asks() || (p.kind.EnableServerRequests? && h.role.Enables())
  }

  lemma AnswersToPackets(h: State, p: Packet)
    requires Send(h, p).1.Ok?
    ensures var r := Send(h, p).1.value;
      && (r.CloseNow? <==> p.kind.Close?)
      && (r.CloseWithPacket? <==> Hands(h, p) && !h.listening)
  {
  }

  lemma NeverCloseOnError(h: State, p: Packet)
    requires PacketError(h, p).1.Ok?
    ensures var r := PacketError(h, p).1.value; r.Nothing? || r.Reply?
  {
  }

  /** A running endpoint begins to close for three reasons only: it is asked to, its peer says goodbye, or it is
      handed something while its user no longer listens. It will say goodbye itself unless its peer did. */
  lemma ClosesExactlyWhen(n: Net, m: Move)
    requires n.Of(m.who).phase.Running? && Possible(n, m) && Do(n, m).At?
    ensures var x, q, x' := n.Of(m.who), n.To(m.who), Do(n, m).net.Of(m.who);
      && (x'.phase == Closing(false) <==> m.action.Receive? && q[0].kind.Close?)
      && (x'.phase == Closing(true) <==>
            m.action.CloseSignal? || (m.action.Receive? && Hands(x.h, q[0]) && !x.h.listening))
      && (x'.phase.Running? || x'.phase.Closing?)
  {
    var h, q := n.Of(m.who).h, n.To(m.who);
    if m.action.Receive? {
      hide Send;
      if Send(h, q[0]).1.Ok? { AnswersToPackets(h, q[0]); }
    } else if m.action.ReceiveMalformed? {
      hide PacketError;
      if PacketError(h, q[0]).1.Ok? { NeverCloseOnError(h, q[0]); }
    } else {
      hide Send, PacketError;
    }
  }

  // ---- who says goodbye ---------------------------------------------------------------------

  const GOODBYE := Packet(Close, 0, EMPTY)

  /** A side begins to close on its own account. */
  predicate OwnReason(n: Net, m: Move)
    requires Possible(n, m)
  {
    || m.action.CloseSignal?
    || (m.action.Receive? && Hands(n.Of(m.who).h, n.To(m.who)[0]) && !n.Of(m.who).h.listening)
  }

  /** A side begins to close because its peer did. */
  predicate PeersReason(n: Net, m: Move)
    requires Possible(n, m)
  {
    m.action.Receive? && n.To(m.who)[0].kind.Close?
  }

  predicate NoGoodbye(sent: seq<Packet>) {
    forall k :: 0 <= k < |sent| ==> !sent[k].kind.Close?
  }

  /** A side that is done has nothing left to send, or it ran out of ids. */
  predicate Finished(x: Peer)
    requires x.phase.Done?
  {
    || (x.phase.drained && NothingToSend(x.h))
    || (!x.phase.drained && x.h.requests != [] && x.h.role.CanSendRequests() && x.h.role.Id().None?)
  }

  /** Where a side stands with its goodbye, once it is closing. */
  predicate Leaving(x: Peer, sent: seq<Packet>, own: bool) {
    match x.phase
    case Running => false
    case Closing(w) => w == own && NoGoodbye(sent)
    case Done(_) => Finished(x) && if own then sent != [] && sent[|sent| - 1] == GOODBYE else NoGoodbye(sent)
  }

  lemma TurnLeaves(x: Peer, inbox: seq<Packet>, a: Action, sent: seq<Packet>, own: bool)
    requires Able(x, inbox, a) && Turn(x, inbox, a).Moved? && Leaving(x, sent, own)
    ensures var t := Turn(x, inbox, a); Leaving(t.peer, sent + t.out, own)
  {
    if a.Emit? && a.source.FromUser? {
      hide Send, PacketError;
    } else {
      hide Send, PacketError, TakeUser;
    }
  }

  lemma DoLeaves(n: Net, m: Move, s: Side, own: bool)
    requires Possible(n, m) && Do(n, m).At? && Leaving(n.Of(s), n.SentBy(s), own)
    ensures Leaving(Do(n, m).net.Of(s), Do(n, m).net.SentBy(s), own)
  {
    hide Able, Turn, Leaving;
    if m.who == s { TurnLeaves(n.Of(s), n.To(s), m.action, n.SentBy(s), own); }
  }

  /** The move by which a side stops reading. */
  lemma BeginsToLeave(ms: seq<Move>, m: Move)
    requires Play(ms).At? && Play(ms).net.Of(m.who).phase.Running? && Possible(Play(ms).net, m)
    requires OwnReason(Play(ms).net, m) || PeersReason(Play(ms).net, m)
    requires Do(Play(ms).net, m).At?
    ensures var n := Do(Play(ms).net, m).net; Leaving(n.Of(m.who), n.SentBy(m.who), OwnReason(Play(ms).net, m))
  {
    var n, n' := Play(ms).net, Do(Play(ms).net, m).net;
    hide Do, Possible;
    ClosesExactlyWhen(n, m);
    assert (ms + [m])[..|ms + [m]| - 1] == ms;
    assert Play(ms + [m]) == At(n');
    CloseIsLast(ms + [m]);
  }

  /** Who says goodbye. In every run, a side that began to close by itself, because it was told to or because it was
      handed something nobody listens for, ends what it sends with a close packet; a side that closed because of its
      peer's close packet sends none. Either way it ends only with nothing left to send, or without ids. */
  lemma {:induction false} SaysGoodbye(ms: seq<Move>, m: Move, more: seq<Move>)
    requires Play(ms).At? && Play(ms).net.Of(m.who).phase.Running? && Possible(Play(ms).net, m)
    requires OwnReason(Play(ms).net, m) || PeersReason(Play(ms).net, m)
    requires Play(ms + [m] + more).At?
    ensures var n := Play(ms + [m] + more).net;
      Leaving(n.Of(m.who), n.SentBy(m.who), OwnReason(Play(ms).net, m))
    decreases |more|
  {
    var all := ms + [m] + more;
    if more == [] {
      assert all == ms + [m] && all[..|all| - 1] == ms && all[|all| - 1] == m;
      BeginsToLeave(ms, m);
    } else {
      var less := more[..|more| - 1];
      assert all[..|all| - 1] == ms + [m] + less && all[|all| - 1] == more[|more| - 1];
      hide Leaving, Possible, Do, OwnReason, PeersReason;
      SaysGoodbye(ms, m, less);
      DoLeaves(Play(ms + [m] + less).net, more[|more| - 1], m.who, OwnReason(Play(ms).net, m));
    }
  }

  /** Every side that stopped reading did so for one of these reasons, once. */
  lemma {:induction false} WhyItLeft(ms: seq<Move>, s: Side) returns (k: nat)
    requires Play(ms).At? && !Play(ms).net.Of(s).phase.Running?
    ensures k < |ms| && ms[k].who == s
    ensures Play(ms[..k]).At? && Play(ms[..k]).net.Of(s).phase.Running? && Possible(Play(ms[..k]).net, ms[k])
    ensures OwnReason(Play(ms[..k]).net, ms[k]) != PeersReason(Play(ms[..k]).net, ms[k])
  {
    var less, m := ms[..|ms| - 1], ms[|ms| - 1];
    var n := Play(less).net;
    if n.Of(s).phase.Running? {
      hide Do, Possible;
      k := |ms| - 1;
      if m.who != s { OthersStay(n, m, s); }
      ClosesExactlyWhen(n, m);
    } else {
      k := WhyItLeft(less, s);
      assert less[..k] == ms[..k];
    }
  }

  lemma OthersStay(n: Net, m: Move, s: Side)
    requires Possible(n, m) && Do(n, m).At? && m.who != s
    ensures Do(n, m).net.Of(s) == n.Of(s)
  {
    hide Able, Turn;
  }

  // ---- what a closing side still sends ------------------------------------------------------

  lemma NobodyAskedAhead(x: Peer, y: Peer, xy: seq<Packet>, yx: seq<Packet>, i: nat)
    requires Common(x, y, xy, yx) && D.Ahead(x.h.role, i)
    ensures i !in x.h.log.asked && i !in y.h.log.asked
  {
    hide Carries;
  }

  /** In every run, no table holds an id that is still to be handed out. */
  lemma IdsAreFresh(n: Net, ms: seq<Move>, s: Side)
    requires Reached(n, ms)
    ensures D.FreshIds(n.Of(s).h)
  {
    var x, y, xy, yx := n.Of(s), n.Of(s.Other()), n.To(s.Other()), n.To(s);
    ShapeAt(n, ms, s, 0);
    forall i: nat | D.Ahead(x.h.role, i) ensures i !in x.h.wos && i !in x.h.wou {
      hide Reached;
      NobodyAskedAhead(x, y, xy, yx, i);
      ShapeAt(n, ms, s, i);
      hide Shaped, Common;
      NobodyAsked(SlotOf(x.h, i), SlotOf(y.h, i), Thread(xy, i), Thread(yx, i), i, x.phase.Running?, y.phase.Running?);
    }
    hide Reached, ShapedAt;
  }

  /** In every run, whenever a side closes: drawing from its sources in any order, it sends exactly what it owes,
      queued requests and their streams included, and each conversation gets its packets in order. It never fails on
      the way. It stops before only if ids run out or a user of its own keeps a stream open. */
  lemma ClosingDrains(n: Net, ms: seq<Move>, s: Side, picks: seq<Source>, i: nat)
    requires Reached(n, ms) && D.CanDrain(Closed(n.Of(s).h), picks)
    ensures var h := n.Of(s).h; var (end, out) := D.DrainBy(Closed(h), picks);
      && |out| == |picks| <= D.DebtOf(Closed(h))
      && (NothingToSend(end) <==> |picks| == D.DebtOf(Closed(h)))
      && (NothingToSend(end) ==> D.IdsSuffice(h) && Thread(out, i) == D.OwedTo(Closed(h), i))
      && (D.IdsSuffice(h) && !NothingToSend(end) ==> (exists t :: D.CanSend(end, t)) || D.Waits(end))
      && (forall t :: D.CanSend(end, t) ==> ToSend(end, t).1.Packets?)
      && (D.StreamsEnded(Closed(h)) ==> !D.Waits(end))
  {
    var h := n.Of(s).h;
    hide D.FreshIds, D.Along, Closed, NothingToSend, D.DebtOf, D.OwedTo, D.IdsSuffice, D.CanDrain, D.DrainBy, ToSend;
    IdsAreFresh(n, ms, s);
    D.CloseDrains(h, picks, i);
    var end := D.DrainBy(Closed(h), picks).0;
    assert D.FreshIds(end) by {
      D.ClosedIsShut(h);
      D.DrainPays(Closed(h), picks);
      D.AlongIsFresh(Closed(h), end, D.DrainBy(Closed(h), picks).1);
    }
    forall t | D.CanSend(end, t) ensures ToSend(end, t).1.Packets? {
      D.SendPays(end, t);
    }
  }

  // ---- a graceful close ---------------------------------------------------------------------

  lemma OnlyGoodbye(n: Net, ms: seq<Move>, s: Side)
    requires Reached(n, ms) && n.To(s) != [] && n.To(s)[0].kind.Close?
    ensures n.To(s) == [n.To(s)[0]] && (forall i: nat :: Thread(n.To(s), i) == [])
    ensures n.Of(s.Other()).phase.Done?
  {
    hide ShapedAt, Reached, IdsOk, EnabledOk, Carries;
    ShapeAt(n, ms, s, 0);
    var q := n.To(s);
    assert q == [q[0]];
    forall i: nat ensures Thread(q, i) == [] {
      ThreadOfOne(q[0], i);
    }
  }

  lemma ServedShape(x: Slot, y: Slot, xy: seq<Packet>, i: nat, yr: bool)
    requires Shaped(x, y, xy, [], i, true, yr) && y.wou.None?
    ensures x.asked.Some? && x.asked.value.kind.Request? && (y.seen.Some? || y.refused) ==> x.result.Some?
  {
  }

  /** When the close packet of a side that had nothing left to send comes in, that side has let down nobody:
      every request it took in, or could not parse, has been resolved, every stream it produced has come in
      completely, and the only requests still waiting are those it never received. */
  lemma GracefulClose(n: Net, ms: seq<Move>, s: Side, i: nat)
    requires Reached(n, ms) && n.Of(s).phase.Running?
    requires n.To(s) != [] && n.To(s)[0].kind.Close? && n.Of(s.Other()).phase == Done(true)
    ensures var a, b := n.Of(s).h.log, n.Of(s.Other()).h.log;
      && (i in a.asked && a.asked[i].kind.Request? && (i in b.seen || i in b.refused) ==> i in a.results)
      && ArrivedBodies(Get(a.arrivals, i)) == Get(b.pushed, i)
      && (Waits(n.Of(s), i) <==> Count(n.To(s.Other()), i, false) == 1)
  {
    var x, y, xy, yx := n.Of(s), n.Of(s.Other()), n.To(s.Other()), n.To(s);
    hide Reached, IdsOk, EnabledOk, Carries;
    OnlyGoodbye(n, ms, s);
    ShapeAt(n, ms, s, i);
    assert y.h.wou == map[];
    hide Common;
    assert Thread(yx, i) == [];
    StreamsConserved(n, ms, s.Other(), i);
    InFlightThread(yx, i);
    RequestsConserved(n, ms, s, i);
    assert Count(yx, i, true) == 0 by { CountThread(yx, i, true); }
    hide Shaped;
    ServedShape(SlotOf(x.h, i), SlotOf(y.h, i), Thread(xy, i), i, y.phase.Running?);
  }
}
