/** Every step an endpoint can take with one id leads from a shape to a shape. */
module ConversationSteps {
  import opened Basics
  import opened Protocol
  import opened Conversation

  // ---- sequences ----------------------------------------------------------------------------

  lemma {:induction false} BodiesOfSnoc(t: seq<Packet>, p: Packet)
    ensures BodiesOf(t + [p]) == BodiesOf(t) + (if p.kind.Stream? then [p.body] else [])
  {
    var all := t + [p];
    if t == [] {
      assert all[0] == p && all[1..] == [];
    } else {
      assert all[0] == t[0] && all[1..] == t[1..] + [p];
      BodiesOfSnoc(t[1..], p);
      var first := if t[0].kind.Stream? then [t[0].body] else [];
      assert BodiesOf(all) == first + BodiesOf(all[1..]) && BodiesOf(t) == first + BodiesOf(t[1..]);
    }
  }

  lemma ArrivedBodiesSnoc(s: seq<Arrival>, a: Arrival)
    ensures ArrivedBodies(s + [a]) == ArrivedBodies(s) + [a.body]
  {
    assert (s + [a])[..|s|] == s;
  }

  // ---- local users --------------------------------------------------------------------------

  lemma AnswerKeeps(x: Slot, y: Slot, xy: seq<Packet>, yx: seq<Packet>, i: nat, xr: bool, yr: bool, b: Body)
    requires Shaped(x, y, xy, yx, i, xr, yr) && x.wou == Some(Answering(Waiting))
    ensures Shaped(x.(wou := Some(Answering(Answered(b))), given := Some(b)), y, xy, yx, i, xr, yr)
  {
    assert RequestAt(y, x, yx, xy, i, yr, Pending);
    assert RequestAt(y, x.(wou := Some(Answering(Answered(b))), given := Some(b)), yx, xy, i, yr, Pending);
  }

  lemma DropAnswerKeeps(x: Slot, y: Slot, xy: seq<Packet>, yx: seq<Packet>, i: nat, xr: bool, yr: bool)
    requires Shaped(x, y, xy, yx, i, xr, yr) && x.wou == Some(Answering(Waiting))
    ensures Shaped(x.(wou := Some(Answering(Dropped))), y, xy, yx, i, xr, yr)
  {
    assert RequestAt(y, x, yx, xy, i, yr, Pending);
    assert RequestAt(y, x.(wou := Some(Answering(Dropped))), yx, xy, i, yr, Pending);
  }

  /** An entry that sends a stream belongs to the producer. */
  lemma ProducerShape(x: Slot, y: Slot, xy: seq<Packet>, yx: seq<Packet>, i: nat, xr: bool, yr: bool)
    requires Shaped(x, y, xy, yx, i, xr, yr) && x.wou.Some? && x.wou.value.Sending?
    ensures || SenderShape(x, y, xy, yx, i, yr, false) || SenderShape(x, y, xy, yx, i, yr, true)
            || ReceiverShape(x, y, xy, yx, i, yr, true)
  {
  }

  lemma PushKeeps(x: Slot, y: Slot, xy: seq<Packet>, yx: seq<Packet>, i: nat, xr: bool, yr: bool, q: Queue, b: Body)
    requires Shaped(x, y, xy, yx, i, xr, yr) && x.wou == Some(Sending(q))
    ensures Shaped(x.(wou := Some(Sending(q.(items := q.items + [b]))), pushed := x.pushed + [b]), y, xy, yx, i, xr, yr)
  {
    ProducerShape(x, y, xy, yx, i, xr, yr);
    var x' := x.(wou := Some(Sending(q.(items := q.items + [b]))), pushed := x.pushed + [b]);
    if SenderShape(x, y, xy, yx, i, yr, false) {
      FlowPush(x, x', y, xy[1..], b);
    } else {
      FlowPush(x, x', y, xy, b);
      assert SenderShape(x, y, xy, yx, i, yr, true) ==> SenderShape(x', y, xy, yx, i, yr, true);
      assert ReceiverShape(x, y, xy, yx, i, yr, true) ==> ReceiverShape(x', y, xy, yx, i, yr, true);
    }
  }

  lemma FlowPush(p: Slot, p': Slot, c: Slot, data: seq<Packet>, b: Body)
    requires Flow(p, c, data) && p.wou.Some? && p'.wou.Some? && p'.wou.value.Sending?
    requires Queued(p') == Queued(p) + [b] && p'.pushed == p.pushed + [b]
    ensures Flow(p', c, data)
  {
    var before := ArrivedBodies(c.arrivals) + BodiesOf(data);
    assert before + (Queued(p) + [b]) == before + Queued(p) + [b];
  }

  lemma EndPushKeeps(x: Slot, y: Slot, xy: seq<Packet>, yx: seq<Packet>, i: nat, xr: bool, yr: bool, q: Queue)
    requires Shaped(x, y, xy, yx, i, xr, yr) && x.wou == Some(Sending(q))
    ensures Shaped(x.(wou := Some(Sending(q.(open := false)))), y, xy, yx, i, xr, yr)
  {
    ProducerShape(x, y, xy, yx, i, xr, yr);
    var x' := x.(wou := Some(Sending(q.(open := false))));
    if SenderShape(x, y, xy, yx, i, yr, false) {
      assert Flow(x', y, xy[1..]);
    } else {
      assert Flow(x', y, xy);
    }
  }

  /** An entry that receives a stream belongs to the consumer. */
  lemma ConsumerShape(x: Slot, y: Slot, xy: seq<Packet>, yx: seq<Packet>, i: nat, xr: bool, yr: bool)
    requires Shaped(x, y, xy, yx, i, xr, yr) && x.wos.Some? && x.wos.value.Receiving?
    ensures || SenderShape(y, x, yx, xy, i, xr, true)
            || ReceiverShape(y, x, yx, xy, i, xr, false) || ReceiverShape(y, x, yx, xy, i, xr, true)
  {
  }

  lemma DropConsumerKeeps(x: Slot, y: Slot, xy: seq<Packet>, yx: seq<Packet>, i: nat, xr: bool, yr: bool)
    requires Shaped(x, y, xy, yx, i, xr, yr) && x.wos.Some? && x.wos.value.Receiving?
    ensures Shaped(x.(wos := Some(Receiving(false)), dropped := true), y, xy, yx, i, xr, yr)
  {
    ConsumerShape(x, y, xy, yx, i, xr, yr);
    var x' := x.(wos := Some(Receiving(false)), dropped := true);
    if Flow(y, x, yx) { assert Flow(y, x', yx); }
  }

  // ---- closing ------------------------------------------------------------------------------

  function ClosedSlot(x: Slot): Slot {
    x.(wos := None, wou := match x.wou case Some(u) => Some(u.Closed()) case None => None)
  }

  lemma CloseKeeps(x: Slot, y: Slot, xy: seq<Packet>, yx: seq<Packet>, i: nat, xr: bool, yr: bool)
    requires Shaped(x, y, xy, yx, i, xr, yr)
    ensures Shaped(ClosedSlot(x), y, xy, yx, i, false, yr)
  {
    var x' := ClosedSlot(x);
    if Opened(x, y, xy, yx, i, xr, yr) {
      CloseAsker(x, y, xy, yx, i, xr, yr);
    } else if Opened(y, x, yx, xy, i, yr, xr) {
      CloseAsked(x, y, xy, yx, i, xr, yr);
    }
  }

  lemma ClosedAsker(x: Slot, y: Slot, xy: seq<Packet>, yx: seq<Packet>, i: nat, xr: bool, st: Station)
    requires RequestAt(x, y, xy, yx, i, xr, st)
    ensures RequestAt(ClosedSlot(x), y, xy, yx, i, false, st)
  {
  }

  lemma ClosedAnswerer(y: Slot, x: Slot, yx: seq<Packet>, xy: seq<Packet>, i: nat, yr: bool, st: Station)
    requires RequestAt(y, x, yx, xy, i, yr, st)
    ensures RequestAt(y, ClosedSlot(x), yx, xy, i, yr, st)
  {
  }

  lemma ClosedProducer(x: Slot, y: Slot, xy: seq<Packet>, yx: seq<Packet>, i: nat, yr: bool, begun: bool)
    ensures SenderShape(x, y, xy, yx, i, yr, begun) ==> SenderShape(ClosedSlot(x), y, xy, yx, i, yr, begun)
    ensures ReceiverShape(x, y, xy, yx, i, yr, begun) ==> ReceiverShape(ClosedSlot(x), y, xy, yx, i, yr, begun)
  {
    if SenderShape(x, y, xy, yx, i, yr, false) {
      assert Flow(ClosedSlot(x), y, xy[1..]);
    } else if SenderShape(x, y, xy, yx, i, yr, true) || ReceiverShape(x, y, xy, yx, i, yr, true) {
      assert Flow(ClosedSlot(x), y, xy);
    }
  }

  lemma ClosedConsumer(y: Slot, x: Slot, yx: seq<Packet>, xy: seq<Packet>, i: nat, xr: bool, begun: bool)
    ensures SenderShape(y, x, yx, xy, i, xr, begun) ==> SenderShape(y, ClosedSlot(x), yx, xy, i, false, begun)
    ensures ReceiverShape(y, x, yx, xy, i, xr, begun) ==> ReceiverShape(y, ClosedSlot(x), yx, xy, i, false, begun)
  {
    if SenderShape(y, x, yx, xy, i, xr, false) {
      assert Flow(y, ClosedSlot(x), yx[1..]);
    } else if SenderShape(y, x, yx, xy, i, xr, true) || ReceiverShape(y, x, yx, xy, i, xr, true) {
      assert Flow(y, ClosedSlot(x), yx);
    }
  }

  lemma CloseAsker(x: Slot, y: Slot, xy: seq<Packet>, yx: seq<Packet>, i: nat, xr: bool, yr: bool)
    requires Opened(x, y, xy, yx, i, xr, yr)
    ensures Opened(ClosedSlot(x), y, xy, yx, i, false, yr)
  {
    hide RequestAt, SenderShape, ReceiverShape, ClosedSlot;
    if RequestShape(x, y, xy, yx, i, xr) {
      var st :| RequestAt(x, y, xy, yx, i, xr, st);
      ClosedAsker(x, y, xy, yx, i, xr, st);
    }
    ClosedProducer(x, y, xy, yx, i, yr, false);
    ClosedProducer(x, y, xy, yx, i, yr, true);
    ClosedConsumer(y, x, yx, xy, i, xr, false);
    ClosedConsumer(y, x, yx, xy, i, xr, true);
  }

  lemma CloseAsked(x: Slot, y: Slot, xy: seq<Packet>, yx: seq<Packet>, i: nat, xr: bool, yr: bool)
    requires Opened(y, x, yx, xy, i, yr, xr)
    ensures Opened(y, ClosedSlot(x), yx, xy, i, yr, false)
  {
    hide RequestAt, SenderShape, ReceiverShape, ClosedSlot;
    if RequestShape(y, x, yx, xy, i, yr) {
      var st :| RequestAt(y, x, yx, xy, i, yr, st);
      ClosedAnswerer(y, x, yx, xy, i, yr, st);
    }
    ClosedProducer(x, y, xy, yx, i, yr, false);
    ClosedProducer(x, y, xy, yx, i, yr, true);
    ClosedConsumer(y, x, yx, xy, i, xr, false);
    ClosedConsumer(y, x, yx, xy, i, xr, true);
  }

  // ---- sending ------------------------------------------------------------------------------

  /** The answer leaves. */
  lemma EmitAnswerKeeps(x: Slot, y: Slot, xy: seq<Packet>, yx: seq<Packet>, i: nat, xr: bool, yr: bool, p: Packet)
    requires Shaped(x, y, xy, yx, i, xr, yr) && x.wou.Some? && x.wou.value.Answering? && x.wou.value.Ready()
    requires p == match x.wou.value.reply case Answered(b) => Packet(Response, i, b) case _ => Packet(NoResponse, i, EMPTY)
    ensures Shaped(x.(wou := None), y, xy + [p], yx, i, xr, yr)
  {
    assert RequestAt(y, x, yx, xy, i, yr, Pending);
    assert RequestAt(y, x.(wou := None), yx, xy + [p], i, yr, Coming);
  }

  lemma DataSnoc(p: Slot, p': Slot, c: Slot, data: seq<Packet>, out: Packet)
    requires Flow(p, c, data) && p.wou.Some? && p'.pushed == p.pushed
    requires out.kind.Stream? || out.kind.StreamClosed?
    requires out.kind.Stream? ==> p'.wou.Some? && p'.wou.value.Sending? && Queued(p) == [out.body] + Queued(p')
    requires out.kind.StreamClosed? ==> p'.wou.None? && Queued(p) == []
    ensures Flow(p', c, data + [out])
  {
    BodiesOfSnoc(data, out);
    assert DataThread(data + [out]);
    if out.kind.Stream? {
      assert ArrivedBodies(c.arrivals) + (BodiesOf(data) + [out.body]) + Queued(p') ==
             ArrivedBodies(c.arrivals) + BodiesOf(data) + ([out.body] + Queued(p'));
    }
  }

  /** A stream packet, or the packet that closes the stream, leaves. */
  lemma EmitDataKeeps(x: Slot, x': Slot, y: Slot, xy: seq<Packet>, yx: seq<Packet>, i: nat, xr: bool, yr: bool, out: Packet)
    requires Shaped(x, y, xy, yx, i, xr, yr) && x.wou.Some? && x.wou.value.Sending?
    requires x' == x.(wou := x'.wou) && Belongs(out, i)
    requires out.kind.Stream? || out.kind.StreamClosed?
    requires out.kind.Stream? ==>
      && x'.wou.Some? && x'.wou.value.Sending? && x'.wou.value.queue.open == x.wou.value.queue.open
      && Queued(x) == [out.body] + Queued(x')
    requires out.kind.StreamClosed? ==> x'.wou.None? && Queued(x) == []
    ensures Shaped(x', y, xy + [out], yx, i, xr, yr)
  {
    ProducerShape(x, y, xy, yx, i, xr, yr);
    if SenderShape(x, y, xy, yx, i, yr, false) {
      DataSnoc(x, x', y, xy[1..], out);
      assert (xy + [out])[1..] == xy[1..] + [out];
      assert SenderShape(x', y, xy + [out], yx, i, yr, false);
    } else {
      DataSnoc(x, x', y, xy, out);
      if SenderShape(x, y, xy, yx, i, yr, true) {
        assert SenderShape(x', y, xy + [out], yx, i, yr, true);
      } else {
        assert ReceiverShape(x', y, xy + [out], yx, i, yr, true);
      }
    }
  }

  /** A request leaves under an id that nobody has used. */
  lemma AskKeeps(i: nat, b: Body, xr: bool, yr: bool)
    ensures var q := Question(Request, b);
      Shaped(UNUSED.(wos := Some(Awaiting), asked := Some(q)), UNUSED, [Packet(Request, i, b)], [], i, xr, yr)
  {
    var q := Question(Request, b);
    assert RequestAt(UNUSED.(wos := Some(Awaiting), asked := Some(q)), UNUSED, [Packet(Request, i, b)], [], i, xr, Going);
  }

  lemma AskSenderKeeps(i: nat, b: Body, q: Queue, xr: bool, yr: bool)
    ensures var x := UNUSED.(wou := Some(Sending(q)), asked := Some(Question(RequestSender, b)), pushed := q.items);
      Shaped(x, UNUSED, [Packet(RequestSender, i, b)], [], i, xr, yr)
  {
    var x := UNUSED.(wou := Some(Sending(q)), asked := Some(Question(RequestSender, b)), pushed := q.items);
    var t := [Packet(RequestSender, i, b)];
    assert t[1..] == [] && Flow(x, UNUSED, []);
    assert SenderShape(x, UNUSED, t, [], i, yr, false);
  }

  lemma AskReceiverKeeps(i: nat, b: Body, open: bool, xr: bool, yr: bool)
    ensures var x := UNUSED.(wos := Some(Receiving(open)), asked := Some(Question(RequestReceiver, b)), dropped := !open);
      Shaped(x, UNUSED, [Packet(RequestReceiver, i, b)], [], i, xr, yr)
  {
    var x := UNUSED.(wos := Some(Receiving(open)), asked := Some(Question(RequestReceiver, b)), dropped := !open);
    assert ReceiverShape(UNUSED, x, [], [Packet(RequestReceiver, i, b)], i, xr, false);
  }

  // ---- receiving ----------------------------------------------------------------------------

  /** The first packet of a thread decides the shape. */
  lemma AskArrives(x: Slot, y: Slot, xy: seq<Packet>, p: Packet, rest: seq<Packet>, i: nat, yr: bool)
    requires Shaped(x, y, xy, [p] + rest, i, true, yr) && p.kind.Asks()
    ensures p.kind.Request? ==> RequestAt(y, x, [p] + rest, xy, i, yr, Going)
    ensures p.kind.RequestSender? ==> SenderShape(y, x, [p] + rest, xy, i, true, false)
    ensures p.kind.RequestReceiver? ==> ReceiverShape(x, y, xy, [p] + rest, i, yr, false)
    ensures y.asked == Some(Question(p.kind, p.body)) && x.wou.None? && x.wos.None? && p.id == i
    ensures p.kind.Request? || p.kind.RequestReceiver? ==> rest == []
  {
    assert ([p] + rest)[0] == p && ([p] + rest)[1..] == rest;
  }

  lemma RequestArrives(x: Slot, y: Slot, xy: seq<Packet>, p: Packet, i: nat, yr: bool, heard: bool)
    requires Shaped(x, y, xy, [p], i, true, yr) && p.kind.Request?
    ensures Shaped(x.(seen := Some(Question(p.kind, p.body)), wou := Some(Answering(if heard then Waiting else Dropped))),
                   y, xy, [], i, true, yr)
    ensures Shaped(x.(refused := true), y, xy + [Packet(MalformedRequest, i, EMPTY)], [], i, true, yr)
  {
    assert [p] + [] == [p];
    AskArrives(x, y, xy, p, [], i, yr);
    assert RequestAt(y, x.(seen := Some(Question(p.kind, p.body)), wou := Some(Answering(if heard then Waiting else Dropped))),
                     [], xy, i, yr, Pending);
    assert RequestAt(y, x.(refused := true), [], xy + [Packet(MalformedRequest, i, EMPTY)], i, yr, Coming);
  }

  lemma AskReceiverArrives(x: Slot, y: Slot, xy: seq<Packet>, p: Packet, i: nat, yr: bool, heard: bool)
    requires Shaped(x, y, xy, [p], i, true, yr) && p.kind.RequestReceiver?
    ensures Shaped(x.(seen := Some(Question(p.kind, p.body)), wou := Some(Sending(Queue([], heard)))),
                   y, xy, [], i, true, yr)
    ensures Shaped(x.(refused := true), y, xy + [Packet(StreamClosed, i, EMPTY)], [], i, true, yr)
  {
    assert [p] + [] == [p];
    AskArrives(x, y, xy, p, [], i, yr);
    var x' := x.(seen := Some(Question(p.kind, p.body)), wou := Some(Sending(Queue([], heard))));
    assert Flow(x', y, xy);
    assert ReceiverShape(x', y, xy, [], i, yr, true);
    var t := [Packet(StreamClosed, i, EMPTY)];
    assert xy + t == t && t[1..] == [];
    assert Flow(x.(refused := true), y, t);
    assert ReceiverShape(x.(refused := true), y, t, [], i, yr, true);
  }

  lemma AskSenderArrives(x: Slot, y: Slot, xy: seq<Packet>, p: Packet, rest: seq<Packet>, i: nat, yr: bool, heard: bool)
    requires Shaped(x, y, xy, [p] + rest, i, true, yr) && p.kind.RequestSender?
    ensures Shaped(x.(seen := Some(Question(p.kind, p.body)), wos := Some(Receiving(heard)), dropped := x.dropped || !heard),
                   y, xy, rest, i, true, yr)
    ensures Shaped(x.(refused := true), y, xy + [Packet(StreamClosed, i, EMPTY)], rest, i, true, yr)
  {
    AskArrives(x, y, xy, p, rest, i, yr);
    assert ([p] + rest)[1..] == rest;
    var x' := x.(seen := Some(Question(p.kind, p.body)), wos := Some(Receiving(heard)), dropped := x.dropped || !heard);
    assert Flow(y, x', rest);
    assert SenderShape(y, x', rest, xy, i, true, true);
    assert Flow(y, x.(refused := true), rest);
    assert SenderShape(y, x.(refused := true), rest, xy + [Packet(StreamClosed, i, EMPTY)], i, true, true);
  }

  /** An answer finds its requester waiting, and says the truth. */
  lemma AnswerArrives(x: Slot, y: Slot, xy: seq<Packet>, p: Packet, rest: seq<Packet>, i: nat, yr: bool)
    requires Shaped(x, y, xy, [p] + rest, i, true, yr) && VerdictOf(p).Some?
    ensures x.wos == Some(Awaiting) && x.result.None?
    ensures Shaped(x.(wos := None, result := VerdictOf(p)), y, xy, rest, i, true, yr)
    ensures p.kind.Response? ==>
      Shaped(x.(wos := None, result := Some(GotBadResponse)), y, xy, rest, i, true, yr)
  {
    assert ([p] + rest)[0] == p && ([p] + rest)[1..] == rest;
    assert RequestAt(x, y, xy, [p] + rest, i, true, Coming);
    assert RequestAt(x.(wos := None, result := VerdictOf(p)), y, xy, rest, i, true, Resolved);
    if p.kind.Response? {
      assert RequestAt(x.(wos := None, result := Some(GotBadResponse)), y, xy, rest, i, true, Resolved);
    }
  }

  lemma FlowUncons(p: Slot, c: Slot, c': Slot, out: Packet, rest: seq<Packet>, fate: Fate)
    requires Flow(p, c, [out] + rest) && out.kind.Stream?
    requires c' == c.(arrivals := c.arrivals + [Arrival(out.body, fate)]) && (fate.Rejected? ==> c.dropped || c.refused)
    ensures Flow(p, c', rest)
  {
    var data := [out] + rest;
    assert data[0] == out && data[1..] == rest;
    ArrivedBodiesSnoc(c.arrivals, Arrival(out.body, fate));
    assert forall k :: 0 <= k < |rest| ==> rest[k] == data[k + 1];
    assert ArrivedBodies(c.arrivals) + ([out.body] + BodiesOf(rest)) + Queued(p) ==
           ArrivedBodies(c.arrivals) + [out.body] + BodiesOf(rest) + Queued(p);
    assert EndsClosed(data) <==> EndsClosed(rest);
  }

  lemma StreamArrives(x: Slot, y: Slot, xy: seq<Packet>, p: Packet, rest: seq<Packet>, i: nat, yr: bool, fate: Fate)
    requires Shaped(x, y, xy, [p] + rest, i, true, yr) && p.kind.Stream?
    requires fate.Rejected? ==> x.wos != Some(Receiving(true))
    ensures x.wos.None? || x.wos.value.Receiving?
    ensures Shaped(x.(arrivals := x.arrivals + [Arrival(p.body, fate)]), y,
                   xy + (if fate.Rejected? then [Packet(StreamClosed, i, EMPTY)] else []), rest, i, true, yr)
  {
    StreamHead(x, y, xy, p, rest, i, yr);
    var x' := x.(arrivals := x.arrivals + [Arrival(p.body, fate)]);
    var xy' := xy + (if fate.Rejected? then [Packet(StreamClosed, i, EMPTY)] else []);
    FlowUncons(y, x, x', p, rest, fate);
    hide Flow;
    assert SenderShape(y, x, [p] + rest, xy, i, true, true) ==> SenderShape(y, x', rest, xy', i, true, true);
    assert ReceiverShape(y, x, [p] + rest, xy, i, true, true) ==> ReceiverShape(y, x', rest, xy', i, true, true);
  }

  /** A stream packet finds a consumer, or one whose user left, or one that refused the request. */
  lemma StreamHead(x: Slot, y: Slot, xy: seq<Packet>, p: Packet, rest: seq<Packet>, i: nat, yr: bool)
    requires Shaped(x, y, xy, [p] + rest, i, true, yr) && p.kind.Stream?
    ensures SenderShape(y, x, [p] + rest, xy, i, true, true) || ReceiverShape(y, x, [p] + rest, xy, i, true, true)
    ensures Flow(y, x, [p] + rest) && !x.told
    ensures x.wos == Some(Receiving(true)) <==> !x.dropped && !x.refused
  {
    assert ([p] + rest)[0] == p;
  }

  /** The other side says the stream is closed: to the consumer this is the end, to the producer it means that
      no more will be taken. */
  lemma StreamClosedArrives(x: Slot, y: Slot, xy: seq<Packet>, p: Packet, rest: seq<Packet>, i: nat, yr: bool)
    requires Shaped(x, y, xy, [p] + rest, i, true, yr) && p.kind.StreamClosed?
    ensures x.wos.None? || x.wos.value.Receiving?
    ensures Shaped(x.(wos := None, told := true,
                      wou := match x.wou case Some(u) => Some(u.Closed()) case None => None),
                   y, xy, rest, i, true, yr)
  {
    assert ([p] + rest)[0] == p;
    var x' := x.(wos := None, told := true, wou := match x.wou case Some(u) => Some(u.Closed()) case None => None);
    if SenderShape(x, y, xy, [p] + rest, i, yr, true) || ReceiverShape(x, y, xy, [p] + rest, i, yr, true) {
      NoMoreWanted(x, x', y, xy, p, rest, i, yr);
    } else {
      EndArrives(x, x', y, xy, p, rest, i, yr);
    }
    hide Flow;
  }

  lemma NoMoreWanted(x: Slot, x': Slot, y: Slot, xy: seq<Packet>, p: Packet, rest: seq<Packet>, i: nat, yr: bool)
    requires SenderShape(x, y, xy, [p] + rest, i, yr, true) || ReceiverShape(x, y, xy, [p] + rest, i, yr, true)
    requires x' == x.(wos := None, told := true, wou := match x.wou case Some(u) => Some(u.Closed()) case None => None)
    ensures SenderShape(x, y, xy, [p] + rest, i, yr, true) ==> SenderShape(x', y, xy, rest, i, yr, true)
    ensures ReceiverShape(x, y, xy, [p] + rest, i, yr, true) ==> ReceiverShape(x', y, xy, rest, i, yr, true)
  {
    var yx := [p] + rest;
    assert forall k :: 0 <= k < |rest| ==> rest[k] == yx[k + 1];
    assert Flow(x', y, xy);
  }

  lemma EndArrives(x: Slot, x': Slot, y: Slot, xy: seq<Packet>, p: Packet, rest: seq<Packet>, i: nat, yr: bool)
    requires SenderShape(y, x, [p] + rest, xy, i, true, true) || ReceiverShape(y, x, [p] + rest, xy, i, true, true)
    requires p.kind.StreamClosed? && x' == x.(wos := None, told := true)
    ensures rest == []
    ensures SenderShape(y, x, [p] + rest, xy, i, true, true) ==> SenderShape(y, x', rest, xy, i, true, true)
    ensures ReceiverShape(y, x, [p] + rest, xy, i, true, true) ==> ReceiverShape(y, x', rest, xy, i, true, true)
  {
    var yx := [p] + rest;
    assert yx[0] == p && yx[1..] == rest;
    assert rest == [];
    assert BodiesOf(yx) == [] + BodiesOf([]);
    assert Flow(y, x', rest);
  }
}
