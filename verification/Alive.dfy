/** What can be done: nobody is ever stuck with something to say, and every request can be answered. */
module Alive {
  import opened Basics
  import opened Protocol
  import opened Conversation
  import opened Peers
  import opened Connection
  import opened Deeds
  import opened Users
  import D = Drain
  import G = Goodbye
  import Scope

  // ---- one turn after the other -------------------------------------------------------------

  /** A side has sent one more packet; its inbox and the other side are as before. */
  predicate SentOne(n: Net, s: Side, p: Packet, n': Net) {
    && n'.SentBy(s) == n.SentBy(s) + [p] && n'.To(s.Other()) == n.To(s.Other()) + [p]
    && n'.To(s) == n.To(s) && n'.Of(s.Other()) == n.Of(s.Other()) && n'.Of(s).phase == n.Of(s).phase
  }

  /** The user acts, and a packet leaves. */
  predicate TwoTurns(x: Peer, inbox: seq<Packet>, a: Action, b: Action, x': Peer, p: Packet) {
    && Able(x, inbox, a) && Turn(x, inbox, a).Moved?
    && var mid := Turn(x, inbox, a);
    && mid.inbox == inbox && mid.out == []
    && Able(mid.peer, inbox, b) && Turn(mid.peer, inbox, b) == Moved(x', inbox, [p]) && x'.phase == x.phase
  }

  lemma OneTurn(ms: seq<Move>, n: Net, s: Side, a: Action)
    requires Play(ms) == At(n) && Able(n.Of(s), n.To(s), a) && Turn(n.Of(s), n.To(s), a).Moved?
    ensures var t := Turn(n.Of(s), n.To(s), a); Play(ms + [Move(s, a)]) == At(n.Moved(s, t.peer, t.inbox, t.out))
  {
    hide Able, Turn, Play;
    Scope.PlayMore(ms, n, Move(s, a));
  }

  lemma MovedTwice(n: Net, s: Side, x: Peer, x': Peer, p: Packet)
    requires x'.phase == n.Of(s).phase
    ensures var mid := n.Moved(s, x, n.To(s), []); mid.Of(s) == x && mid.To(s) == n.To(s)
    ensures var end := n.Moved(s, x, n.To(s), []).Moved(s, x', n.To(s), [p]); SentOne(n, s, p, end) && end.Of(s) == x'
  {
  }

  lemma PlayTwo(ms: seq<Move>, n: Net, s: Side, a: Action, b: Action, x': Peer, p: Packet)
    requires Play(ms) == At(n) && TwoTurns(n.Of(s), n.To(s), a, b, x', p)
    ensures var end := Play(ms + [Move(s, a)] + [Move(s, b)]); end.At? && SentOne(n, s, p, end.net) && end.net.Of(s) == x'
  {
    var x := Turn(n.Of(s), n.To(s), a).peer;
    var mid := n.Moved(s, x, n.To(s), []);
    hide Able, Turn, Play, SentOne;
    OneTurn(ms, n, s, a);
    MovedTwice(n, s, x, x', p);
    OneTurn(ms + [Move(s, a)], mid, s, b);
  }

  // ---- what a user does goes out ------------------------------------------------------------

  lemma AnswerTurns(x: Peer, inbox: seq<Packet>, i: nat, b: Body)
    requires !x.phase.Done? && i in x.h.wou && x.h.wou[i] == Answering(Waiting)
    ensures exists x' :: TwoTurns(x, inbox, Answer(i, b), Emit(FromUser(i)), x', Packet(Response, i, b))
                         && x'.h.wou == x.h.wou - {i}
    ensures exists x' :: TwoTurns(x, inbox, DropAnswer(i), Emit(FromUser(i)), x', Packet(NoResponse, i, EMPTY))
                         && x'.h.wou == x.h.wou - {i}
  {
    AnswerTurn(x, inbox, i, b);
    DropTurn(x, inbox, i);
  }

  lemma AnswerTurn(x: Peer, inbox: seq<Packet>, i: nat, b: Body)
    requires !x.phase.Done? && i in x.h.wou && x.h.wou[i] == Answering(Waiting)
    ensures exists x' :: TwoTurns(x, inbox, Answer(i, b), Emit(FromUser(i)), x', Packet(Response, i, b))
                         && x'.h.wou == x.h.wou - {i}
  {
    var mid := Turn(x, inbox, Answer(i, b)).peer;
    var x' := Turn(mid, inbox, Emit(FromUser(i))).peer;
    assert x'.h.wou == x.h.wou - {i};
    assert TwoTurns(x, inbox, Answer(i, b), Emit(FromUser(i)), x', Packet(Response, i, b));
  }

  lemma DropTurn(x: Peer, inbox: seq<Packet>, i: nat)
    requires !x.phase.Done? && i in x.h.wou && x.h.wou[i] == Answering(Waiting)
    ensures exists x' :: TwoTurns(x, inbox, DropAnswer(i), Emit(FromUser(i)), x', Packet(NoResponse, i, EMPTY))
                         && x'.h.wou == x.h.wou - {i}
  {
    var mid := Turn(x, inbox, DropAnswer(i)).peer;
    var x' := Turn(mid, inbox, Emit(FromUser(i))).peer;
    assert x'.h.wou == x.h.wou - {i};
    assert TwoTurns(x, inbox, DropAnswer(i), Emit(FromUser(i)), x', Packet(NoResponse, i, EMPTY));
  }

  lemma PushTurn(x: Peer, inbox: seq<Packet>, i: nat, b: Body)
    requires !x.phase.Done? && i in x.h.wou && x.h.wou[i] == Sending(Queue([], true))
    ensures exists x' :: TwoTurns(x, inbox, Push(i, b), Emit(FromUser(i)), x', Packet(Stream, i, b)) && x'.h.wou == x.h.wou
  {
    var mid := Turn(x, inbox, Push(i, b)).peer;
    var x' := Turn(mid, inbox, Emit(FromUser(i))).peer;
    var none: seq<Body> := [];
    assert (none + [b])[1..] == none;
    assert x'.h.wou == x.h.wou;
    assert TwoTurns(x, inbox, Push(i, b), Emit(FromUser(i)), x', Packet(Stream, i, b));
  }

  lemma EndTurn(x: Peer, inbox: seq<Packet>, i: nat)
    requires !x.phase.Done? && i in x.h.wou && x.h.wou[i].Sending? && x.h.wou[i].queue.items == []
    ensures exists x' :: TwoTurns(x, inbox, EndPush(i), Emit(FromUser(i)), x', Packet(StreamClosed, i, EMPTY))
                         && x'.h.wou == x.h.wou - {i}
  {
    var mid := Turn(x, inbox, EndPush(i)).peer;
    var x' := Turn(mid, inbox, Emit(FromUser(i))).peer;
    assert x'.h.wou == x.h.wou - {i};
    assert TwoTurns(x, inbox, EndPush(i), Emit(FromUser(i)), x', Packet(StreamClosed, i, EMPTY));
  }

  /** Whoever owes an answer can give it, and it leaves. So does the news that there is none. */
  lemma AnswerGoesOut(n: Net, ms: seq<Move>, s: Side, i: nat, answer: Option<Body>)
    requires Play(ms) == At(n) && !n.Of(s).phase.Done? && i in n.Of(s).h.wou && n.Of(s).h.wou[i] == Answering(Waiting)
    ensures var a := if answer.Some? then Answer(i, answer.value) else DropAnswer(i);
      var p := if answer.Some? then Packet(Response, i, answer.value) else Packet(NoResponse, i, EMPTY);
      var end := Play(ms + [Move(s, a)] + [Move(s, Emit(FromUser(i)))]);
      end.At? && SentOne(n, s, p, end.net) && end.net.Of(s).h.wou == n.Of(s).h.wou - {i}
  {
    var x, q := n.Of(s), n.To(s);
    AnswerTurns(x, q, i, answer.GetOr(EMPTY));
    hide TwoTurns, Play;
    match answer
    case Some(b) =>
      var x' :| TwoTurns(x, q, Answer(i, b), Emit(FromUser(i)), x', Packet(Response, i, b)) && x'.h.wou == x.h.wou - {i};
      PlayTwo(ms, n, s, Answer(i, b), Emit(FromUser(i)), x', Packet(Response, i, b));
    case None =>
      var p := Packet(NoResponse, i, EMPTY);
      var x' :| TwoTurns(x, q, DropAnswer(i), Emit(FromUser(i)), x', p) && x'.h.wou == x.h.wou - {i};
      PlayTwo(ms, n, s, DropAnswer(i), Emit(FromUser(i)), x', p);
  }

  /** Whoever has a stream open can put something into it, and it leaves once what is before it has left. */
  lemma PushGoesOut(n: Net, ms: seq<Move>, s: Side, i: nat, b: Body)
    requires Play(ms) == At(n) && !n.Of(s).phase.Done? && i in n.Of(s).h.wou
    requires n.Of(s).h.wou[i] == Sending(Queue([], true))
    ensures var end := Play(ms + [Move(s, Push(i, b))] + [Move(s, Emit(FromUser(i)))]);
      end.At? && SentOne(n, s, Packet(Stream, i, b), end.net) && end.net.Of(s).h.wou == n.Of(s).h.wou
  {
    var x, p := n.Of(s), Packet(Stream, i, b);
    PushTurn(x, n.To(s), i, b);
    hide TwoTurns, Play;
    var x' :| TwoTurns(x, n.To(s), Push(i, b), Emit(FromUser(i)), x', p) && x'.h.wou == x.h.wou;
    PlayTwo(ms, n, s, Push(i, b), Emit(FromUser(i)), x', p);
  }

  /** And whoever has nothing more to put in can end it. */
  lemma EndGoesOut(n: Net, ms: seq<Move>, s: Side, i: nat)
    requires Play(ms) == At(n) && !n.Of(s).phase.Done? && i in n.Of(s).h.wou
    requires n.Of(s).h.wou[i].Sending? && n.Of(s).h.wou[i].queue.items == []
    ensures var end := Play(ms + [Move(s, EndPush(i))] + [Move(s, Emit(FromUser(i)))]);
      end.At? && SentOne(n, s, Packet(StreamClosed, i, EMPTY), end.net) && end.net.Of(s).h.wou == n.Of(s).h.wou - {i}
  {
    var x, p := n.Of(s), Packet(StreamClosed, i, EMPTY);
    EndTurn(x, n.To(s), i);
    hide TwoTurns, Play;
    var x' :| TwoTurns(x, n.To(s), EndPush(i), Emit(FromUser(i)), x', p) && x'.h.wou == x.h.wou - {i};
    PlayTwo(ms, n, s, EndPush(i), Emit(FromUser(i)), x', p);
  }

  // ---- a request is made --------------------------------------------------------------------

  lemma MakeRequest(n: Net, s: Side, req: InternalRequest)
    requires n.Of(s).h.requestsOpen && n.Of(s).h.requests == []
    ensures Possible(n, Move(s, Enqueue(req))) && Do(n, Move(s, Enqueue(req))).At?
    ensures var n' := Do(n, Move(s, Enqueue(req))).net;
      && n'.Of(s) == n.Of(s).(h := n.Of(s).h.(requests := [req])) && n'.Of(s.Other()) == n.Of(s.Other())
      && n'.To(s) == n.To(s) && n'.To(s.Other()) == n.To(s.Other()) && n'.SentBy(s) == n.SentBy(s)
  {
  }

  lemma OneIn(req: InternalRequest)
    ensures [req][1..] == []
  {
  }

  /** A request that is made with an id left leaves under that id. */
  lemma RequestLeaves(n: Net, s: Side, req: InternalRequest, i: nat)
    requires n.Of(s).h.requests == [req] && !n.Of(s).phase.Done?
    requires n.Of(s).h.role.CanSendRequests() && n.Of(s).h.role.Id() == Some(i) && SlotOf(n.Of(s).h, i) == UNUSED
    ensures Possible(n, Move(s, Emit(FromQueue))) && Do(n, Move(s, Emit(FromQueue))).At?
    ensures var n' := Do(n, Move(s, Emit(FromQueue))).net;
      && SentOne(n, s, Opening(req, i), n') && n'.Of(s).h.requests == []
      && (!req.EnableServer? ==> SlotOf(n'.Of(s).h, i) == OpenedSlot(req))
  {
    var h := n.Of(s).h;
    assert i !in h.wos && i !in h.wou by { UnusedTables(h, i); }
    NoDuplicate(h, i);
    QueueShrinks(h);
    OneIn(req);
    if !req.EnableServer? { TakeQueueSlot(h, i); }
    hide TakeQueue, SlotOf;
  }

  lemma UnusedTables(h: State, i: nat)
    requires SlotOf(h, i) == UNUSED
    ensures i !in h.wos && i !in h.wou
  {
  }

  lemma NoDuplicate(h: State, i: nat)
    requires CanTake(h, FromQueue) && h.role.Id() == Some(i) && i !in h.wos && i !in h.wou
    ensures TakeQueue(h).1.Packets?
  {
    match h.requests[0] {
      case EnableServer => case Ask(_) => case AskSender(_, _) => case AskReceiver(_, _) =>
    }
  }

  /** A user can make a request, and it leaves under the next id. */
  lemma RequestGoesOut(n: Net, ms: seq<Move>, s: Side, req: InternalRequest, i: nat)
    requires Reached(n, ms) && n.Of(s).h.requestsOpen && n.Of(s).h.requests == [] && !n.Of(s).phase.Done?
    requires n.Of(s).h.role.CanSendRequests() && n.Of(s).h.role.Id() == Some(i)
    ensures var end := Play(ms + [Move(s, Enqueue(req))] + [Move(s, Emit(FromQueue))]);
      && end.At? && SentOne(n, s, Opening(req, i), end.net)
      && (!req.EnableServer? ==> SlotOf(end.net.Of(s).h, i) == OpenedSlot(req))
  {
    var a, b := Move(s, Enqueue(req)), Move(s, Emit(FromQueue));
    NextIdIsNew(n, ms, s, i);
    assert Play(ms) == At(n);
    MakeRequest(n, s, req);
    var mid := Do(n, a).net;
    assert SlotOf(mid.Of(s).h, i) == SlotOf(n.Of(s).h, i);
    hide Play, SlotOf, Possible, Do, Opening, OpenedSlot;
    RequestLeaves(mid, s, req, i);
    Scope.PlayMore(ms, n, a);
    Scope.PlayMore(ms + [a], mid, b);
  }

  lemma StaysScoped(ms: seq<Move>, n: Net, m: Move)
    requires Reached(n, ms) && Possible(n, m) && Do(n, m).At? && InScope(n.Of(m.who), m.action)
    ensures Reached(Do(n, m).net, ms + [m])
  {
    assert (ms + [m])[..|ms|] == ms;
    hide Do, Possible, InScope;
  }

  /** A request in flight to a side that listens is handed to its user. */
  lemma RequestArrives(n: Net, ms: seq<Move>, s: Side, i: nat, q: Body)
    requires Play(ms) == At(n) && n.Of(s).phase.Running? && n.Of(s).h.listening && n.Of(s).h.role.CanReceiveRequests()
    requires n.To(s) == [Packet(Request, i, q)] && i !in n.Of(s).h.wou
    ensures var end := Play(ms + [Move(s, Receive)]);
      && end.At? && end.net.Of(s.Other()) == n.Of(s.Other()) && end.net.To(s) == [] && end.net.To(s.Other()) == n.To(s.Other())
      && end.net.Of(s).phase.Running? && i in end.net.Of(s).h.wou && end.net.Of(s).h.wou[i] == Answering(Waiting)
  {
    var x, p := n.Of(s), Packet(Request, i, q);
    assert [p][1..] == [];
    OneTurn(ms, n, s, Receive);
    hide Play;
  }

  /** An answer in flight to a side that waits for it is what its user gets. */
  lemma AnswerComesIn(n: Net, ms: seq<Move>, s: Side, i: nat, b: Body)
    requires Play(ms) == At(n) && n.Of(s).phase.Running?
    requires n.To(s) == [Packet(Response, i, b)] && i in n.Of(s).h.wos && n.Of(s).h.wos[i].Awaiting?
    ensures var end := Play(ms + [Move(s, Receive)]);
      end.At? && i in end.net.Of(s).h.log.results && end.net.Of(s).h.log.results[i] == Got(b)
  {
    OneTurn(ms, n, s, Receive);
    hide Play;
  }

  lemma OpenedAsk(h: State, i: nat, q: Body)
    requires SlotOf(h, i) == OpenedSlot(Ask(q))
    ensures i in h.wos && h.wos[i].Awaiting?
  {
  }

  lemma AskIsWelcome(n: Net, ms: seq<Move>, s: Side, i: nat, q: Body)
    requires Reached(n, ms) && n.Of(s).h.requestsOpen && n.Of(s).h.requests == [] && n.Of(s).phase.Running?
    requires n.Of(s).h.role.CanSendRequests() && n.Of(s).h.role.Id() == Some(i)
    requires n.To(s.Other()) == [] && n.Of(s.Other()).phase.Running?
    ensures n.Of(s.Other()).h.role.CanReceiveRequests() && i !in n.Of(s.Other()).h.wou
  {
    var a, b := Move(s, Enqueue(Ask(q))), Move(s, Emit(FromQueue));
    RequestGoesOut(n, ms, s, Ask(q), i);
    MakeRequest(n, s, Ask(q));
    NextIdIsNew(n, ms, s, i);
    UnusedTables(n.Of(s.Other()).h, i);
    var mid := Do(n, a).net;
    Scope.PlayMore(ms, n, a);
    assert InScope(n.Of(s), a.action);
    StaysScoped(ms, n, a);
    assert InScope(mid.Of(s), b.action);
    var all := ms + [a] + [b];
    assert all[..|all| - 1] == ms + [a] && all[|all| - 1] == b;
    hide Play, Possible, Do, SlotOf;
    assert Reached(Play(all).net, all) by { LastScoped(all); }
    hide Reached;
    RequestsAreWelcome(Play(all).net, all, s.Other());
  }

  lemma LastScoped(all: seq<Move>)
    requires all != [] && Scoped(all[..|all| - 1]) && Play(all).At?
    requires match Play(all[..|all| - 1]) case At(n) => InScope(n.Of(all[|all| - 1].who), all[|all| - 1].action) case _ => true
    ensures Reached(Play(all).net, all)
  {
    hide Play, InScope;
  }

  /** Side s waits for an answer that the user of the other side may give, and nothing is in flight. */
  predicate Waited(n: Net, s: Side, i: nat) {
    && n.Of(s).phase.Running? && i in n.Of(s).h.wos && n.Of(s).h.wos[i].Awaiting?
    && n.Of(s.Other()).phase.Running? && i in n.Of(s.Other()).h.wou && n.Of(s.Other()).h.wou[i] == Answering(Waiting)
    && n.To(s) == [] && n.To(s.Other()) == []
  }

  /** The request is in flight, and nothing else. */
  predicate OnItsWay(n: Net, s: Side, i: nat, q: Body) {
    && n.Of(s).phase.Running? && i in n.Of(s).h.wos && n.Of(s).h.wos[i].Awaiting?
    && n.To(s) == [] && n.To(s.Other()) == [Packet(Request, i, q)]
  }

  lemma AskGoes(n: Net, ms: seq<Move>, s: Side, i: nat, q: Body) returns (all: seq<Move>, end: Net)
    requires Reached(n, ms) && n.Of(s).phase.Running? && n.To(s) == [] && n.To(s.Other()) == []
    requires n.Of(s).h.requestsOpen && n.Of(s).h.requests == []
    requires n.Of(s).h.role.CanSendRequests() && n.Of(s).h.role.Id() == Some(i)
    ensures ms <= all && Play(all) == At(end) && OnItsWay(end, s, i, q) && end.Of(s.Other()) == n.Of(s.Other())
  {
    hide Reached, SlotOf, OpenedSlot, Play;
    RequestGoesOut(n, ms, s, Ask(q), i);
    all := ms + [Move(s, Enqueue(Ask(q)))] + [Move(s, Emit(FromQueue))];
    end := Play(all).net;
    OpenedAsk(end.Of(s).h, i, q);
  }

  lemma AskReaches(n: Net, ms: seq<Move>, s: Side, i: nat, q: Body) returns (all: seq<Move>, end: Net)
    requires Reached(n, ms) && n.Of(s).phase.Running? && n.Of(s.Other()).phase.Running?
    requires n.To(s) == [] && n.To(s.Other()) == [] && n.Of(s.Other()).h.listening
    requires n.Of(s).h.requestsOpen && n.Of(s).h.requests == []
    requires n.Of(s).h.role.CanSendRequests() && n.Of(s).h.role.Id() == Some(i)
    ensures ms <= all && Play(all) == At(end) && Waited(end, s, i)
  {
    hide Reached, SlotOf, OpenedSlot, Play;
    AskIsWelcome(n, ms, s, i, q);
    var ms1, n1 := AskGoes(n, ms, s, i, q);
    RequestArrives(n1, ms1, s.Other(), i, q);
    all := ms1 + [Move(s.Other(), Receive)];
    end := Play(all).net;
  }

  lemma AnswerReaches(n: Net, ms: seq<Move>, s: Side, i: nat, b: Body) returns (all: seq<Move>)
    requires Play(ms) == At(n) && Waited(n, s, i)
    ensures ms <= all && Play(all).At? && i in Play(all).net.Of(s).h.log.results
    ensures Play(all).net.Of(s).h.log.results[i] == Got(b)
  {
    var o := s.Other();
    hide Play;
    AnswerGoesOut(n, ms, o, i, Some(b));
    var ms1 := ms + [Move(o, Answer(i, b))] + [Move(o, Emit(FromUser(i)))];
    AnswerComesIn(Play(ms1).net, ms1, s, i, b);
    all := ms1 + [Move(s, Receive)];
  }

  /** From every state a connection can reach: if nothing is in flight to it, a side that listens can be asked by the
      other one, whenever that has an id left, and can answer; and the other one gets just this answer. */
  lemma RequestsCanBeAnswered(n: Net, ms: seq<Move>, s: Side, i: nat, q: Body, b: Body) returns (more: seq<Move>)
    requires Reached(n, ms) && n.Of(s).phase.Running? && n.Of(s.Other()).phase.Running?
    requires n.To(s) == [] && n.To(s.Other()) == [] && n.Of(s.Other()).h.listening
    requires n.Of(s).h.requestsOpen && n.Of(s).h.requests == []
    requires n.Of(s).h.role.CanSendRequests() && n.Of(s).h.role.Id() == Some(i)
    ensures Play(ms + more).At? && i in Play(ms + more).net.Of(s).h.log.results
    ensures Play(ms + more).net.Of(s).h.log.results[i] == Got(b)
  {
    hide Reached, Play, Waited;
    var mid, end := AskReaches(n, ms, s, i, q);
    var all := AnswerReaches(end, mid, s, i, b);
    more := all[|ms|..];
    assert ms + more == all;
  }

  // ---- everybody can read, and leave --------------------------------------------------------

  lemma ReadingIsPossible(n: Net, s: Side)
    requires n.Of(s).phase.Running? && n.To(s) != []
    ensures Possible(n, Move(s, Receive)) && InScope(n.Of(s), Receive)
    ensures n.To(s)[0].kind.UserMade() ==> Possible(n, Move(s, ReceiveMalformed)) && InScope(n.Of(s), ReceiveMalformed)
  {
  }

  /** Whatever is in flight to a side that runs can be taken in, and if its body comes from a user, it may turn out not
      to parse. Neither ever fails. */
  lemma EverythingCanBeRead(n: Net, ms: seq<Move>, s: Side)
    requires Reached(n, ms) && n.Of(s).phase.Running? && n.To(s) != []
    ensures Possible(n, Move(s, Receive)) && Do(n, Move(s, Receive)).At?
    ensures n.To(s)[0].kind.UserMade() ==> Possible(n, Move(s, ReceiveMalformed)) && Do(n, Move(s, ReceiveMalformed)).At?
  {
    hide NetInv, Do, Play, Possible, InScope;
    NeverBroken(ms);
    ReadingIsPossible(n, s);
    DoKeeps(n, Move(s, Receive));
    if n.To(s)[0].kind.UserMade() { DoKeeps(n, Move(s, ReceiveMalformed)); }
  }

  /** All moves of one side. */
  predicate OnlyBy(ms: seq<Move>, s: Side) {
    forall k :: 0 <= k < |ms| ==> ms[k].who == s
  }

  /** A side that is closing and settled. */
  ghost predicate Closes(x: Peer) {
    x.phase.Closing? && D.Shut(x.h) && D.FreshIds(x.h)
  }

  lemma OneEmit(ms: seq<Move>, n: Net, s: Side, src: Source)
    requires Play(ms) == At(n) && Closes(n.Of(s)) && D.CanSend(n.Of(s).h, src)
    ensures var end := Play(ms + [Move(s, Emit(src))]);
      end.At? && Closes(end.net.Of(s)) && D.DebtOf(end.net.Of(s).h) + 1 == D.DebtOf(n.Of(s).h)
  {
    hide Play, ToSend, D.FreshIds, D.DebtOf, D.Shut;
    D.SendPays(n.Of(s).h, src);
    D.SendSettles(n.Of(s).h, src);
    OneTurn(ms, n, s, Emit(src));
  }

  lemma EndedStream(h: State, i: nat) returns (h': State)
    requires D.Shut(h) && D.FreshIds(h) && i in h.wou && h.wou[i].Sending?
    ensures h' == h.(wou := h.wou[i := h.wou[i].Closed()])
    ensures D.Shut(h') && D.FreshIds(h') && D.DebtOf(h') == D.DebtOf(h) && D.CanSend(h', FromUser(i))
  {
    h' := h.(wou := h.wou[i := h.wou[i].Closed()]);
    hide D.Ahead, D.Owed;
    D.DebtWithout(h.wou, i);
    D.DebtWithout(h'.wou, i);
    assert h'.wou - {i} == h.wou - {i};
    D.OwedLength(h.wou[i].queue, i);
    D.OwedLength(h'.wou[i].queue, i);
  }

  lemma OneEnd(ms: seq<Move>, n: Net, s: Side, i: nat)
    requires Play(ms) == At(n) && Closes(n.Of(s)) && i in n.Of(s).h.wou && n.Of(s).h.wou[i].Sending?
    ensures var end := Play(ms + [Move(s, EndPush(i))]);
      && end.At? && Closes(end.net.Of(s)) && D.DebtOf(end.net.Of(s).h) == D.DebtOf(n.Of(s).h)
      && D.CanSend(end.net.Of(s).h, FromUser(i))
  {
    hide Play, D.FreshIds, D.DebtOf, D.Shut, D.CanSend;
    var h' := EndedStream(n.Of(s).h, i);
    OneTurn(ms, n, s, EndPush(i));
  }

  lemma OneFinish(ms: seq<Move>, n: Net, s: Side)
    requires Play(ms) == At(n) && n.Of(s).phase.Closing?
    requires NothingToSend(n.Of(s).h) || (CanTake(n.Of(s).h, FromQueue) && n.Of(s).h.role.next.None?)
    ensures Play(ms + [Move(s, Finish)]).At? && Play(ms + [Move(s, Finish)]).net.Of(s).phase.Done?
  {
    hide Play;
    OneTurn(ms, n, s, Finish);
  }

  lemma Joined(ms: seq<Move>, a: seq<Move>, b: seq<Move>, s: Side)
    requires OnlyBy(a, s) && OnlyBy(b, s)
    ensures ms + (a + b) == ms + a + b && OnlyBy(a + b, s)
  {
  }

  /** A closing side gets to its end by moves of its own. */
  lemma {:induction false} CanFinish(ms: seq<Move>, n: Net, s: Side) returns (more: seq<Move>)
    requires Play(ms) == At(n) && Closes(n.Of(s))
    ensures OnlyBy(more, s) && Play(ms + more).At? && Play(ms + more).net.Of(s).phase.Done?
    decreases D.DebtOf(n.Of(s).h)
  {
    var h := n.Of(s).h;
    if !NothingToSend(h) { D.SomeReady(h); }
    hide Play, NothingToSend, D.FreshIds, D.DebtOf, D.Shut;
    if NothingToSend(h) || (CanTake(h, FromQueue) && h.role.next.None?) {
      OneFinish(ms, n, s);
      more := [Move(s, Finish)];
    } else if src :| CanTake(h, src) {
      var a := [Move(s, Emit(src))];
      OneEmit(ms, n, s, src);
      var rest := CanFinish(ms + a, Play(ms + a).net, s);
      Joined(ms, a, rest, s);
      more := a + rest;
    } else {
      var i :| i in h.wou && h.wou[i].Sending? && h.wou[i].queue.open && h.wou[i].queue.items == [];
      var a, b := [Move(s, EndPush(i))], [Move(s, Emit(FromUser(i)))];
      OneEnd(ms, n, s, i);
      OneEmit(ms + a, Play(ms + a).net, s, FromUser(i));
      var rest := CanFinish(ms + a + b, Play(ms + a + b).net, s);
      Joined(ms, a, b, s);
      Joined(ms, a + b, rest, s);
      more := a + b + rest;
    }
  }

  /** From every state a connection can reach, a side that runs can be told to close, and then comes to its end by
      moves of its own, whatever the other side does or does not do. The last it sends is a close packet. */
  lemma EverybodyCanLeave(n: Net, ms: seq<Move>, s: Side) returns (more: seq<Move>)
    requires Reached(n, ms) && n.Of(s).phase.Running?
    ensures OnlyBy(more, s) && Play(ms + [Move(s, CloseSignal)] + more).At?
    ensures var end := Play(ms + [Move(s, CloseSignal)] + more).net;
      end.Of(s).phase.Done? && end.SentBy(s) != [] && end.SentBy(s)[|end.SentBy(s)| - 1] == G.GOODBYE
  {
    var m := Move(s, CloseSignal);
    G.IdsAreFresh(n, ms, s);
    D.ClosedIsShut(n.Of(s).h);
    OneTurn(ms, n, s, CloseSignal);
    hide Play, D.FreshIds, D.Shut, Reached;
    var mid := Play(ms + [m]).net;
    more := CanFinish(ms + [m], mid, s);
    G.SaysGoodbye(ms, m, more);
  }
}
