/** The `watch` channel, through which configurations reach a running connection: shared data behind a lock, a
    version counter, a sender count and a notification, used by any number of senders and receivers at once.
    Every atomic access is one step, and steps of different threads come in any order. */
module Watch {
  import opened Basics

  // ---- threads ------------------------------------------------------------------------------

  /** How far a call of `send` has come. */
  datatype SendPhase = Wants | Locked | Written | Bumped | Released

  datatype SendCall<T> = SendCall(owner: nat, value: T, phase: SendPhase) {
    predicate HoldsLock() {
      phase.Locked? || phase.Written? || phase.Bumped?
    }

    /** The version is raised and the receivers are not yet notified. */
    predicate OwesNotice() {
      phase.Bumped? || phase.Released?
    }
  }

  /** How far a call of `recv` has come. A generation counts the notifications before the call began to listen. */
  datatype RecvPhase = Idle | Looping | Listening(gen: nat) | Unchanged(gen: nat) | Parked(gen: nat) | Changed

  /** A receiver: its version, the position in the log of the value it returned last, and whether it was told
      that there are no senders left. */
  datatype Receiver = Receiver(version: nat, phase: RecvPhase, seen: Option<nat>, ended: bool)

  /** `log` holds all values ever written, the first one included. */
  datatype State<T> = State(
    data: T,
    version: nat,
    txCount: int,
    gen: nat,
    lock: Option<nat>,
    senders: set<nat>,
    sends: map<nat, SendCall<T>>,
    leaving: set<nat>,
    receivers: map<nat, Receiver>,
    log: seq<T>)

  /** A new channel with one sender and one receiver that has seen nothing. */
  function Channel<T>(data: T): State<T> {
    State(data, 1, 1, 0, None, {0}, map[], {}, map[0 := Receiver(0, Idle, None, false)], [data])
  }

  // ---- steps --------------------------------------------------------------------------------

  datatype Step<T> =
    // a sender
    | CloneSender(sender: nat, copy: nat)
    | StartSend(sender: nat, call: nat, value: T)
    | TakeLock(call: nat)
    | Write(call: nat)
    | Bump(call: nat)
    | Release(call: nat)
    | Notify(call: nat)
    | DropSender(sender: nat)
    | NotifyLast(sender: nat)
    // a receiver
    | CloneReceiver(receiver: nat, copy: nat)
    | StartRecv(receiver: nat)
    | Listen(receiver: nat)
    | LoadVersion(receiver: nat)
    | ReadData(receiver: nat)
    | LoadCount(receiver: nat)
    | Wake(receiver: nat)
    | Cancel(receiver: nat)

  predicate At<T>(s: State<T>, call: nat, p: SendPhase) {
    call in s.sends && s.sends[call].phase == p
  }

  predicate Able<T>(s: State<T>, a: Step<T>) {
    match a
    case CloneSender(x, y) => x in s.senders && y !in s.senders && y !in s.leaving
    case StartSend(x, c, _) => x in s.senders && c !in s.sends
    case TakeLock(c) => At(s, c, Wants) && s.lock.None?
    case Write(c) => At(s, c, Locked)
    case Bump(c) => At(s, c, Written)
    case Release(c) => At(s, c, Bumped)
    case Notify(c) => At(s, c, Released)
    case DropSender(x) => x in s.senders && forall c <- s.sends :: s.sends[c].owner != x
    case NotifyLast(x) => x in s.leaving
    case CloneReceiver(r, q) => r in s.receivers && s.receivers[r].phase.Idle? && q !in s.receivers
    case StartRecv(r) => r in s.receivers && s.receivers[r].phase.Idle?
    case Listen(r) => r in s.receivers && s.receivers[r].phase.Looping?
    case LoadVersion(r) => r in s.receivers && s.receivers[r].phase.Listening?
    case ReadData(r) => r in s.receivers && s.receivers[r].phase.Changed? && s.lock.None?
    case LoadCount(r) => r in s.receivers && s.receivers[r].phase.Unchanged?
    case Wake(r) => r in s.receivers && s.receivers[r].phase.Parked? && s.receivers[r].phase.gen != s.gen
    case Cancel(r) => r in s.receivers && s.receivers[r].phase.Parked?
  }

  function Sends<T>(s: State<T>, c: nat, p: SendPhase): State<T>
    requires c in s.sends
  {
    s.(sends := s.sends[c := s.sends[c].(phase := p)])
  }

  function Receives<T>(s: State<T>, r: nat, x: Receiver): State<T> {
    s.(receivers := s.receivers[r := x])
  }

  function Next<T>(s: State<T>, a: Step<T>): State<T>
    requires Able(s, a)
  {
    match a
    case CloneSender(_, y) => s.(senders := s.senders + {y}, txCount := s.txCount + 1)
    case StartSend(x, c, v) => s.(sends := s.sends[c := SendCall(x, v, Wants)])
    case TakeLock(c) => Sends(s, c, Locked).(lock := Some(c))
    case Write(c) => Sends(s, c, Written).(data := s.sends[c].value, log := s.log + [s.sends[c].value])
    case Bump(c) => Sends(s, c, Bumped).(version := s.version + 1)
    case Release(c) => Sends(s, c, Released).(lock := None)
    case Notify(c) => s.(sends := s.sends - {c}, gen := s.gen + 1)
    case DropSender(x) =>
      s.(senders := s.senders - {x}, txCount := s.txCount - 1,
         leaving := if s.txCount == 1 then s.leaving + {x} else s.leaving)
    case NotifyLast(x) => s.(leaving := s.leaving - {x}, gen := s.gen + 1)
    case CloneReceiver(r, q) => Receives(s, q, s.receivers[r])
    case StartRecv(r) => Receives(s, r, s.receivers[r].(phase := Looping))
    case Listen(r) => Receives(s, r, s.receivers[r].(phase := Listening(s.gen)))
    case LoadVersion(r) =>
      var x := s.receivers[r];
      Receives(s, r, if x.version != s.version then x.(version := s.version, phase := Changed)
                     else x.(phase := Unchanged(x.phase.gen)))
    case ReadData(r) => Receives(s, r, s.receivers[r].(phase := Idle, seen := if s.log == [] then None else Some(|s.log| - 1)))
    case LoadCount(r) =>
      var x := s.receivers[r];
      Receives(s, r, if s.txCount == 0 then x.(phase := Idle, ended := true) else x.(phase := Parked(x.phase.gen)))
    case Wake(r) => Receives(s, r, s.receivers[r].(phase := Looping))
    case Cancel(r) => Receives(s, r, s.receivers[r].(phase := Idle))
  }

  // ---- the invariant ------------------------------------------------------------------------

  /** The lock is held by the one call that is between taking and releasing it. */
  predicate LockOk<T>(s: State<T>) {
    && (s.lock.Some? ==> s.lock.value in s.sends)
    && (forall c <- s.sends :: s.sends[c].HoldsLock() <==> s.lock == Some(c))
  }

  predicate Writing<T>(s: State<T>) {
    s.lock.Some? && At(s, s.lock.value, Written)
  }

  /** The data is the last value written, and the version says how many there were. */
  predicate DataOk<T(==)>(s: State<T>) {
    && s.log != [] && s.data == s.log[|s.log| - 1]
    && |s.log| == s.version + (if Writing(s) then 1 else 0)
  }

  predicate CountOk<T>(s: State<T>) {
    && s.txCount == |s.senders|
    && (forall c <- s.sends :: s.sends[c].owner in s.senders)
  }

  /** Somebody is still going to notify. */
  predicate NoticeDue<T>(s: State<T>) {
    exists c <- s.sends :: s.sends[c].OwesNotice()
  }

  /** A receiver is never ahead, and what it returned is not older than the version it recorded. */
  predicate VersionOk<T>(s: State<T>, x: Receiver) {
    && x.version <= s.version && (x.seen.Some? ==> x.seen.value < s.version)
    && (x.version > 0 && !x.phase.Changed? ==> x.seen.Some? && x.version <= x.seen.value + 1)
    && (x.ended ==> s.senders == {})
  }

  /** A receiver that listens and was not notified since has seen the newest version, or somebody owes a notice.
      Once it is parked, there is also a sender left, or the last one owes a notice. */
  predicate WakeOk<T>(s: State<T>, x: Receiver) {
    && (x.phase.Listening? || x.phase.Unchanged? || x.phase.Parked? ==> x.phase.gen <= s.gen)
    && ((x.phase.Unchanged? || x.phase.Parked?) && x.phase.gen == s.gen ==> x.version == s.version || NoticeDue(s))
    && (x.phase.Parked? && x.phase.gen == s.gen ==> s.senders != {} || s.leaving != {})
  }

  predicate ReceiverOk<T>(s: State<T>, x: Receiver) {
    VersionOk(s, x) && WakeOk(s, x)
  }

  predicate Inv<T(==)>(s: State<T>) {
    && LockOk(s) && DataOk(s) && CountOk(s)
    && forall r <- s.receivers :: ReceiverOk(s, s.receivers[r])
  }

  lemma ChannelOk<T>(data: T)
    ensures Inv(Channel(data))
  {
  }

  // ---- senders ------------------------------------------------------------------------------

  predicate BySender<T>(a: Step<T>) {
    || a.CloneSender? || a.StartSend? || a.TakeLock? || a.Write? || a.Bump? || a.Release? || a.Notify?
    || a.DropSender? || a.NotifyLast?
  }

  lemma SenderKeepsData<T>(s: State<T>, a: Step<T>)
    requires Inv(s) && Able(s, a) && BySender(a)
    ensures LockOk(Next(s, a)) && DataOk(Next(s, a)) && CountOk(Next(s, a))
  {
  }

  /** A notice that was due stays due until everybody is notified. */
  lemma NoticeStays<T>(s: State<T>, a: Step<T>)
    requires Able(s, a) && BySender(a) && NoticeDue(s)
    ensures NoticeDue(Next(s, a)) || Next(s, a).gen == s.gen + 1
  {
    var c :| c in s.sends && s.sends[c].OwesNotice();
    if !a.Notify? { assert c in Next(s, a).sends && Next(s, a).sends[c].OwesNotice(); }
  }

  lemma SenderKeepsReceiver<T>(s: State<T>, a: Step<T>, x: Receiver)
    requires Inv(s) && Able(s, a) && BySender(a) && ReceiverOk(s, x)
    ensures ReceiverOk(Next(s, a), x)
  {
    if NoticeDue(s) { NoticeStays(s, a); }
    if a.Bump? { assert Next(s, a).sends[a.call].OwesNotice(); }
    if a.DropSender? && s.senders - {a.sender} == {} { assert s.senders == {a.sender}; }
  }

  // ---- receivers ----------------------------------------------------------------------------

  lemma ReceiverStep<T>(s: State<T>, a: Step<T>)
    requires Inv(s) && Able(s, a) && !BySender(a)
    ensures var s' := Next(s, a);
      && s' == s.(receivers := s'.receivers)
      && (forall r <- s'.receivers :: (r in s.receivers && s'.receivers[r] == s.receivers[r]) || ReceiverOk(s, s'.receivers[r]))
  {
    if a.LoadCount? && s.txCount == 0 { assert s.senders == {}; }
    if a.ReadData? { assert !Writing(s); }
  }

  /** The rest of the state does not depend on the receivers, nor one receiver on the others. */
  lemma ReceiversApart<T>(s: State<T>, s': State<T>, x: Receiver)
    requires s' == s.(receivers := s'.receivers)
    ensures LockOk(s') == LockOk(s) && DataOk(s') == DataOk(s) && CountOk(s') == CountOk(s)
    ensures ReceiverOk(s', x) == ReceiverOk(s, x)
  {
  }

  lemma NextKeeps<T>(s: State<T>, a: Step<T>)
    requires Inv(s) && Able(s, a)
    ensures Inv(Next(s, a))
  {
    var s' := Next(s, a);
    if BySender(a) {
      assert s'.receivers == s.receivers;
      hide Next, Able, LockOk, DataOk, CountOk, ReceiverOk;
      SenderKeepsData(s, a);
      forall r | r in s'.receivers ensures ReceiverOk(s', s'.receivers[r]) {
        SenderKeepsReceiver(s, a, s'.receivers[r]);
      }
    } else {
      hide Next, Able, LockOk, DataOk, CountOk, ReceiverOk;
      ReceiverStep(s, a);
      ReceiversApart(s, s', Receiver(0, Idle, None, false));
      forall r | r in s'.receivers ensures ReceiverOk(s', s'.receivers[r]) {
        ReceiversApart(s, s', s'.receivers[r]);
      }
    }
  }

  // ---- every run ----------------------------------------------------------------------------

  /** Where an interleaving of steps leads, if all of them are possible. */
  function PlayOn<T>(from: State<T>, steps: seq<Step<T>>): Option<State<T>> {
    if steps == [] then Some(from) else
    match PlayOn(from, steps[..|steps| - 1])
    case Some(s) => if Able(s, steps[|steps| - 1]) then Some(Next(s, steps[|steps| - 1])) else None
    case None => None
  }

  /** Where it leads from a new channel. */
  function Play<T>(data: T, steps: seq<Step<T>>): Option<State<T>> {
    PlayOn(Channel(data), steps)
  }

  lemma PlayOnMore<T>(from: State<T>, steps: seq<Step<T>>, s: State<T>, a: Step<T>)
    requires PlayOn(from, steps) == Some(s) && Able(s, a)
    ensures PlayOn(from, steps + [a]) == Some(Next(s, a))
  {
    assert (steps + [a])[..|steps|] == steps;
  }

  lemma {:induction false} PlayOnConcat<T>(from: State<T>, a: seq<Step<T>>, s: State<T>, b: seq<Step<T>>)
    requires PlayOn(from, a) == Some(s)
    ensures PlayOn(from, a + b) == PlayOn(s, b)
    decreases |b|
  {
    hide Able, Next;
    if b == [] {
      assert a + b == a;
    } else {
      assert (a + b)[..|a + b| - 1] == a + b[..|b| - 1];
      PlayOnConcat(from, a, s, b[..|b| - 1]);
    }
  }

  lemma {:induction false} PlayOnKeeps<T>(from: State<T>, steps: seq<Step<T>>)
    requires Inv(from)
    ensures PlayOn(from, steps).Some? ==> Inv(PlayOn(from, steps).value)
  {
    hide Inv, Able, Next;
    if steps != [] {
      PlayOnKeeps(from, steps[..|steps| - 1]);
      match PlayOn(from, steps[..|steps| - 1])
      case Some(s) => if Able(s, steps[|steps| - 1]) { NextKeeps(s, steps[|steps| - 1]); }
      case None =>
    }
  }

  lemma PlayKeeps<T>(data: T, steps: seq<Step<T>>)
    ensures Play(data, steps).Some? ==> Inv(Play(data, steps).value)
  {
    hide Inv;
    ChannelOk(data);
    PlayOnKeeps(Channel(data), steps);
  }

  predicate Reached<T(==)>(data: T, steps: seq<Step<T>>, s: State<T>) {
    Play(data, steps) == Some(s)
  }

  /** A receiver sleeps: it waits for a notification, and none has come since it began to listen. */
  predicate Sleeps<T>(s: State<T>, r: nat) {
    r in s.receivers && s.receivers[r].phase == Parked(s.gen)
  }

  /** No wakeup is ever lost: a receiver that sleeps has recorded the newest version, or a sender is on its way to
      notify it; and there is a sender left, or the last one is on its way to notify it. */
  lemma NoLostWakeup<T>(data: T, steps: seq<Step<T>>, s: State<T>, r: nat)
    requires Reached(data, steps, s) && Sleeps(s, r)
    ensures s.receivers[r].version == s.version || exists c <- s.sends :: s.sends[c].OwesNotice()
    ensures s.senders != {} || s.leaving != {}
  {
    PlayKeeps(data, steps);
    assert ReceiverOk(s, s.receivers[r]);
  }

  /** When all senders are at rest, a receiver that sleeps has returned the newest value, and may still get another
      one. */
  lemma SleepersAreUpToDate<T>(data: T, steps: seq<Step<T>>, s: State<T>, r: nat)
    requires Reached(data, steps, s) && Sleeps(s, r) && s.sends == map[] && s.leaving == {}
    ensures s.receivers[r].seen.Some? && s.receivers[r].seen.value == |s.log| - 1 && s.log[|s.log| - 1] == s.data
    ensures s.senders != {}
  {
    PlayKeeps(data, steps);
    assert ReceiverOk(s, s.receivers[r]);
  }

  /** What a receiver returned is never older than the version it recorded, and it is a value of the log. */
  lemma NeverOlder<T>(data: T, steps: seq<Step<T>>, s: State<T>, r: nat)
    requires Reached(data, steps, s) && r in s.receivers && !s.receivers[r].phase.Changed? && s.receivers[r].version > 0
    ensures s.receivers[r].seen.Some? && s.receivers[r].version - 1 <= s.receivers[r].seen.value < |s.log|
  {
    PlayKeeps(data, steps);
    assert ReceiverOk(s, s.receivers[r]);
  }

  /** A read returns the newest value there is at that moment: no write is half done. */
  lemma ReadsAreWhole<T>(data: T, steps: seq<Step<T>>, s: State<T>, r: nat)
    requires Reached(data, steps, s) && Able(s, ReadData(r))
    ensures |s.log| == s.version > 0 && s.data == s.log[s.version - 1] && s.receivers[r].version <= s.version
  {
    hide Play;
    PlayKeeps(data, steps);
    hide WakeOk, CountOk;
    assert !Writing(s);
    assert ReceiverOk(s, s.receivers[r]);
  }

  /** A receiver that was told there are no senders left was told the truth, and it stays true. */
  lemma NoneMeansNoSender<T>(data: T, steps: seq<Step<T>>, s: State<T>, r: nat)
    requires Reached(data, steps, s) && r in s.receivers && s.receivers[r].ended
    ensures s.senders == {} && forall a: Step<T> :: Able(s, a) ==> Next(s, a).senders == {}
  {
    PlayKeeps(data, steps);
    assert ReceiverOk(s, s.receivers[r]);
  }

  /** A step never takes a receiver back to an older version or value. */
  lemma OnlyForward<T>(data: T, steps: seq<Step<T>>, s: State<T>, a: Step<T>, r: nat)
    requires Reached(data, steps, s) && Able(s, a) && r in s.receivers
    ensures r in Next(s, a).receivers
    ensures var x, y := s.receivers[r], Next(s, a).receivers[r];
      x.version <= y.version && (x.seen.Some? ==> y.seen.Some? && x.seen.value <= y.seen.value)
  {
    PlayKeeps(data, steps);
    assert ReceiverOk(s, s.receivers[r]);
  }

  /** A copy of a receiver has seen what the original has seen: what is sent next is new to both or to neither. */
  lemma CopiesAgree<T>(data: T, steps: seq<Step<T>>, s: State<T>, r: nat, q: nat)
    requires Reached(data, steps, s) && Able(s, CloneReceiver(r, q))
    ensures var s' := Next(s, CloneReceiver(r, q));
      && s'.receivers.Keys == s.receivers.Keys + {q} && s'.receivers[r] == s.receivers[r]
      && s'.receivers[q].version == s.receivers[r].version && s'.receivers[q].seen == s.receivers[r].seen
      && s'.receivers[q].phase.Idle?
  {
    hide Reached;
  }

  /** A copy of a sender keeps the channel alive when the original goes: nobody is told that no sender is left. */
  lemma CopiesKeepAlive<T>(data: T, steps: seq<Step<T>>, s: State<T>, x: nat, y: nat)
    requires Reached(data, steps, s) && Able(s, CloneSender(x, y)) && forall c <- s.sends :: s.sends[c].owner != x
    ensures Able(Next(s, CloneSender(x, y)), DropSender(x))
    ensures var s' := Next(Next(s, CloneSender(x, y)), DropSender(x));
      s'.senders == s.senders - {x} + {y} && s'.txCount == s.txCount > 0 && s'.leaving == s.leaving
  {
    hide Play, LockOk, DataOk, ReceiverOk;
    PlayKeeps(data, steps);
    assert x in s.senders && |s.senders| > 0;
  }

  /** A receiver that waits can be cancelled, and has lost nothing: it is out of its call, knows what it knew, and can
      be called again. */
  lemma CancelLosesNothing<T>(data: T, steps: seq<Step<T>>, s: State<T>, r: nat)
    requires Reached(data, steps, s) && r in s.receivers && s.receivers[r].phase.Parked?
    ensures Able(s, Cancel(r))
    ensures var s' := Next(s, Cancel(r));
      && s' == s.(receivers := s.receivers[r := s.receivers[r].(phase := Idle)]) && Able(s', StartRecv(r))
  {
    hide Reached;
  }

  // ---- when None hides a value --------------------------------------------------------------

  /** A step of this receiver. */
  predicate StepOf<T>(a: Step<T>, r: nat) {
    match a
    case CloneReceiver(x, _) => x == r
    case StartRecv(x) => x == r
    case Listen(x) => x == r
    case LoadVersion(x) => x == r
    case ReadData(x) => x == r
    case LoadCount(x) => x == r
    case Wake(x) => x == r
    case Cancel(x) => x == r
    case _ => false
  }

  /** Only other threads take these steps. */
  predicate Leaves<T>(steps: seq<Step<T>>, r: nat) {
    forall k :: 0 <= k < |steps| ==> !StepOf(steps[k], r)
  }

  /** How often a version is raised. */
  function Bumps<T>(steps: seq<Step<T>>): nat {
    if steps == [] then 0 else Bumps(steps[..|steps| - 1]) + (if steps[|steps| - 1].Bump? then 1 else 0)
  }

  lemma OtherStep<T>(s: State<T>, a: Step<T>, r: nat)
    requires Able(s, a) && r in s.receivers && !StepOf(a, r)
    ensures r in Next(s, a).receivers && Next(s, a).receivers[r] == s.receivers[r]
    ensures Next(s, a).version == s.version + (if a.Bump? then 1 else 0)
  {
  }

  /** What others do leaves a receiver as it is; the version counts what they raise it by. */
  lemma {:induction false} Undisturbed<T>(from: State<T>, steps: seq<Step<T>>, s: State<T>, r: nat)
    requires PlayOn(from, steps) == Some(s) && Leaves(steps, r) && r in from.receivers
    ensures r in s.receivers && s.receivers[r] == from.receivers[r]
    ensures s.version == from.version + Bumps(steps)
    decreases |steps|
  {
    hide Able, Next;
    if steps != [] {
      var less, last := steps[..|steps| - 1], steps[|steps| - 1];
      var before := PlayOn(from, less).value;
      Undisturbed(from, less, before, r);
      OtherStep(before, last, r);
    }
  }

  /** A receiver finds nothing new, others go on, and then it finds no sender left and returns None. Nothing is
      hidden from it if and only if no version was raised in between. */
  lemma NoneHidesExactly<T>(data: T, pre: seq<Step<T>>, s0: State<T>, r: nat, mid: seq<Step<T>>, s: State<T>)
    requires Reached(data, pre, s0) && Able(s0, LoadVersion(r)) && s0.receivers[r].version == s0.version
    requires PlayOn(Next(s0, LoadVersion(r)), mid) == Some(s) && Leaves(mid, r) && s.txCount == 0
    ensures Able(s, LoadCount(r)) && Next(s, LoadCount(r)).receivers[r].ended
    ensures Next(s, LoadCount(r)).receivers[r].version == s.version <==> Bumps(mid) == 0
  {
    hide PlayOn;
    Undisturbed(Next(s0, LoadVersion(r)), mid, s, r);
  }

  /** The receiver is about to return None and there is a version it has not seen. */
  predicate Hides<T>(from: State<T>, steps: seq<Step<T>>, r: nat) {
    var end := PlayOn(from, steps);
    && end.Some? && end.value.txCount == 0 && r in end.value.receivers
    && end.value.receivers[r].phase.Unchanged? && end.value.receivers[r].version < end.value.version
  }

  /** Without a sender nothing is ever sent again. */
  predicate Silent<T>(s: State<T>) {
    s.senders == {} && s.sends == map[]
  }

  lemma SilentStep<T>(s: State<T>, a: Step<T>)
    requires Able(s, a) && Silent(s)
    ensures Silent(Next(s, a)) && Next(s, a).version == s.version
  {
  }

  lemma {:induction false} SilentForever<T>(from: State<T>, steps: seq<Step<T>>, s: State<T>)
    requires PlayOn(from, steps) == Some(s) && Silent(from)
    ensures Silent(s) && s.version == from.version
    decreases |steps|
  {
    hide Able, Next, Silent;
    if steps != [] {
      var before := PlayOn(from, steps[..|steps| - 1]).value;
      SilentForever(from, steps[..|steps| - 1], before);
      SilentStep(before, steps[|steps| - 1]);
    }
  }

  // ---- letting all senders go ---------------------------------------------------------------

  /** The senders have moved on, and no receiver has. */
  predicate SendersMoved<T(==)>(from: State<T>, steps: seq<Step<T>>, s: State<T>) {
    && PlayOn(from, steps) == Some(s) && (forall k :: 0 <= k < |steps| ==> BySender(steps[k]))
    && s.receivers == from.receivers && s.version >= from.version
  }

  lemma MoveSender<T>(from: State<T>, steps: seq<Step<T>>, s: State<T>, a: Step<T>)
    requires SendersMoved(from, steps, s) && Able(s, a) && BySender(a)
    ensures SendersMoved(from, steps + [a], Next(s, a))
  {
    PlayOnMore(from, steps, s, a);
    hide PlayOn, Able;
    forall k | 0 <= k < |steps + [a]| ensures BySender((steps + [a])[k]) {
      assert k < |steps| ==> (steps + [a])[k] == steps[k];
    }
  }

  /** The next step of a call of `send`. */
  function StepFor<T>(c: nat, p: SendPhase): Step<T> {
    match p
    case Wants => TakeLock(c)
    case Locked => Write(c)
    case Written => Bump(c)
    case Bumped => Release(c)
    case Released => Notify(c)
  }

  function Togo(p: SendPhase): nat {
    match p
    case Wants => 4
    case Locked => 3
    case Written => 2
    case Bumped => 1
    case Released => 0
  }

  /** Whether the call is still going to raise the version. */
  function Due(p: SendPhase): nat {
    if p.Bumped? || p.Released? then 0 else 1
  }

  lemma OneSendStep<T>(s: State<T>, c: nat)
    requires Inv(s) && c in s.sends && (s.lock.None? || s.lock == Some(c))
    ensures var a := StepFor(c, s.sends[c].phase);
      && Able(s, a) && BySender(a) && Next(s, a).senders == s.senders
      && (s.sends[c].phase.Released? ==>
            Next(s, a).sends == s.sends - {c} && Next(s, a).lock == None && Next(s, a).version == s.version)
      && (!s.sends[c].phase.Released? ==>
            && c in Next(s, a).sends && Next(s, a).sends - {c} == s.sends - {c}
            && (Next(s, a).lock.None? || Next(s, a).lock == Some(c))
            && Togo(Next(s, a).sends[c].phase) < Togo(s.sends[c].phase)
            && Next(s, a).version + Due(Next(s, a).sends[c].phase) == s.version + Due(s.sends[c].phase))
  {
  }

  /** A call that has the lock, or can have it, can run to its end. */
  lemma {:induction false} FinishOne<T>(from: State<T>, pre: seq<Step<T>>, s: State<T>, c: nat)
    returns (steps: seq<Step<T>>, end: State<T>)
    requires SendersMoved(from, pre, s) && Inv(s) && c in s.sends && (s.lock.None? || s.lock == Some(c))
    ensures SendersMoved(from, steps, end) && Inv(end)
    ensures end.sends == s.sends - {c} && end.lock == None && end.senders == s.senders
    ensures end.version == s.version + Due(s.sends[c].phase)
    decreases Togo(s.sends[c].phase)
  {
    hide SendersMoved, Inv, Able, Next;
    var a := StepFor<T>(c, s.sends[c].phase);
    OneSendStep(s, c);
    MoveSender(from, pre, s, a);
    NextKeeps(s, a);
    if s.sends[c].phase.Released? {
      steps, end := pre + [a], Next(s, a);
    } else {
      steps, end := FinishOne(from, pre + [a], Next(s, a), c);
    }
  }

  /** All calls of `send` can run to their end. */
  lemma {:induction false} FinishSends<T>(from: State<T>, pre: seq<Step<T>>, s: State<T>)
    returns (steps: seq<Step<T>>, end: State<T>)
    requires SendersMoved(from, pre, s) && Inv(s)
    ensures SendersMoved(from, steps, end) && Inv(end)
    ensures end.sends == map[] && end.lock == None && end.senders == s.senders
    decreases |s.sends|
  {
    hide SendersMoved;
    assert s.lock.Some? ==> s.lock.value in s.sends;
    if s.sends == map[] {
      steps, end := pre, s;
    } else {
      hide Inv;
      var c := if s.lock.Some? then s.lock.value else var c :| c in s.sends; c;
      steps, end := FinishOne(from, pre, s, c);
      assert |s.sends - {c}| < |s.sends| by { assert s.sends.Keys == (s.sends - {c}).Keys + {c}; }
      steps, end := FinishSends(from, steps, end);
    }
  }

  /** A send, undisturbed, raises the version. */
  lemma SendThrough<T>(from: State<T>, pre: seq<Step<T>>, s: State<T>, x: nat, v: T)
    returns (steps: seq<Step<T>>, end: State<T>)
    requires SendersMoved(from, pre, s) && Inv(s) && s.sends == map[] && s.lock == None && x in s.senders
    ensures SendersMoved(from, steps, end) && Inv(end) && end.version > s.version
    ensures end.sends == map[] && end.senders == s.senders
  {
    var a: Step<T> := StartSend(x, 0, v);
    MoveSender(from, pre, s, a);
    NextKeeps(s, a);
    steps, end := FinishOne(from, pre + [a], Next(s, a), 0);
    assert end.sends == map[];
  }

  /** With no call under way, all senders can be dropped. */
  lemma {:induction false} DropAll<T>(from: State<T>, pre: seq<Step<T>>, s: State<T>)
    returns (steps: seq<Step<T>>, end: State<T>)
    requires SendersMoved(from, pre, s) && Inv(s) && s.sends == map[]
    ensures SendersMoved(from, steps, end) && end.txCount == 0 && end.version == s.version
    decreases |s.senders|
  {
    hide SendersMoved;
    if s.senders == {} {
      steps, end := pre, s;
    } else {
      var x :| x in s.senders;
      var a: Step<T> := DropSender(x);
      MoveSender(from, pre, s, a);
      NextKeeps(s, a);
      hide Inv;
      steps, end := DropAll(from, pre + [a], Next(s, a));
    }
  }

  // ---- exactly when -------------------------------------------------------------------------

  /** From the moment the version was loaded and found unchanged: if no sender is left, every continuation hides
      nothing from the receiver; if there is one, some continuation does. */
  lemma LoadMayHideExactly<T>(data: T, pre: seq<Step<T>>, s0: State<T>, r: nat)
    requires Reached(data, pre, s0) && Able(s0, LoadVersion(r)) && s0.receivers[r].version == s0.version
    ensures s0.senders != {} <==>
            exists mid: seq<Step<T>> :: Leaves(mid, r) && Hides(Next(s0, LoadVersion(r)), mid, r)
  {
    var s1 := Next(s0, LoadVersion(r));
    hide Play;
    PlayKeeps(data, pre);
    NextKeeps(s0, LoadVersion(r));
    if s0.senders == {} {
      assert Silent(s1) by { NoCallsWithoutSenders(s0); }
      forall mid: seq<Step<T>> | Leaves(mid, r) ensures !Hides(s1, mid, r) {
        NeverHidden(s1, mid, r);
      }
    } else {
      var mid := HideOne(s1, r);
    }
  }

  lemma NoCallsWithoutSenders<T>(s: State<T>)
    requires Inv(s) && s.senders == {}
    ensures Silent(s)
  {
    forall c: nat ensures c !in s.sends { NoCall(s, c); }
    assert s.sends.Keys == {};
  }

  lemma NoCall<T>(s: State<T>, c: nat)
    requires CountOk(s) && s.senders == {}
    ensures c !in s.sends
  {
  }

  lemma NeverHidden<T>(from: State<T>, mid: seq<Step<T>>, r: nat)
    requires Silent(from) && r in from.receivers && from.receivers[r].version == from.version && Leaves(mid, r)
    ensures !Hides(from, mid, r)
  {
    hide PlayOn, Silent;
    if PlayOn(from, mid).Some? {
      SilentForever(from, mid, PlayOn(from, mid).value);
      Undisturbed(from, mid, PlayOn(from, mid).value, r);
    }
  }

  /** All calls finish, one more value is sent, and all senders go. */
  lemma HideOne<T>(from: State<T>, r: nat) returns (mid: seq<Step<T>>)
    requires Inv(from) && from.senders != {} && r in from.receivers && from.receivers[r].phase.Unchanged?
    requires from.receivers[r].version == from.version
    ensures Leaves(mid, r) && Hides(from, mid, r)
  {
    var x :| x in from.senders;
    assert SendersMoved(from, [], from);
    hide Inv, SendersMoved;
    var s;
    mid, s := FinishSends(from, [], from);
    var before := s.version;
    assert before >= from.version by { MovedForward(from, mid, s); }
    mid, s := SendThrough(from, mid, s, x, from.data);
    mid, s := DropAll(from, mid, s);
    MovedForward(from, mid, s);
    forall k | 0 <= k < |mid| ensures !StepOf(mid[k], r) {
      assert BySender(mid[k]);
    }
  }

  lemma MovedForward<T>(from: State<T>, steps: seq<Step<T>>, s: State<T>)
    requires SendersMoved(from, steps, s)
    ensures PlayOn(from, steps) == Some(s) && s.receivers == from.receivers && s.version >= from.version
    ensures forall k :: 0 <= k < |steps| ==> BySender(steps[k])
  {
  }

  // ---- before the call ----------------------------------------------------------------------

  /** One call of `recv` that has not returned, among steps of other threads. */
  predicate OneCall<T(==)>(steps: seq<Step<T>>, r: nat) {
    && steps != [] && steps[0] == StartRecv(r)
    && forall k :: 0 < k < |steps| ==>
         steps[k] != StartRecv(r) && steps[k] != ReadData(r) && steps[k] != Cancel(r)
         && !(steps[k].CloneReceiver? && steps[k].receiver == r)
  }

  /** A call of `recv` may return None and leave a value unseen if and only if the receiver is up to date when it
      is called and there is a sender. */
  lemma RecvMayHideExactly<T>(data: T, pre: seq<Step<T>>, s0: State<T>, r: nat)
    requires Reached(data, pre, s0) && Able(s0, StartRecv(r))
    ensures s0.senders != {} && s0.receivers[r].version == s0.version <==>
            exists steps: seq<Step<T>> :: OneCall(steps, r) && Hides(s0, steps, r)
  {
    hide Play;
    PlayKeeps(data, pre);
    if s0.senders != {} && s0.receivers[r].version == s0.version {
      var steps := CallAndHide(s0, r);
    } else {
      if s0.senders == {} { NoCallsWithoutSenders(s0); }
      assert ReceiverOk(s0, s0.receivers[r]);
      forall steps: seq<Step<T>> | OneCall(steps, r) ensures !Hides(s0, steps, r) {
        CallHidesNothing(s0, steps, r);
      }
    }
  }

  lemma CallAndHide<T>(s0: State<T>, r: nat) returns (steps: seq<Step<T>>)
    requires Inv(s0) && Able(s0, StartRecv(r)) && s0.senders != {} && s0.receivers[r].version == s0.version
    ensures OneCall(steps, r) && Hides(s0, steps, r)
  {
    hide PlayOn, Inv;
    var first, s := CallBegins(s0, r);
    var mid := HideOne(s, r);
    PlayOnConcat(s0, first, s, mid);
    steps := first + mid;
    forall k | 0 < k < |steps| ensures k < 3 || !StepOf(steps[k], r) {
      if k >= 3 { assert steps[k] == mid[k - 3]; }
    }
  }

  /** An up to date receiver calls `recv` and finds nothing new. */
  lemma CallBegins<T>(s0: State<T>, r: nat) returns (first: seq<Step<T>>, s: State<T>)
    requires Inv(s0) && Able(s0, StartRecv(r)) && s0.receivers[r].version == s0.version
    ensures PlayOn(s0, first) == Some(s) && Inv(s) && s.senders == s0.senders
    ensures |first| == 3 && first[0] == StartRecv(r) && first[1] == Listen(r) && first[2] == LoadVersion(r)
    ensures r in s.receivers && s.receivers[r].phase.Unchanged? && s.receivers[r].version == s.version
  {
    var none: seq<Step<T>> := [];
    first := none + [StartRecv(r)] + [Listen(r)] + [LoadVersion(r)];
    assert PlayOn(s0, none) == Some(s0);
    hide PlayOn, Inv;
    PlayOnMore(s0, none, s0, StartRecv(r));
    NextKeeps(s0, StartRecv(r));
    var s1 := Next(s0, StartRecv(r));
    PlayOnMore(s0, none + [StartRecv(r)], s1, Listen(r));
    NextKeeps(s1, Listen(r));
    var s2 := Next(s1, Listen(r));
    PlayOnMore(s0, none + [StartRecv(r)] + [Listen(r)], s2, LoadVersion(r));
    NextKeeps(s2, LoadVersion(r));
    s := Next(s2, LoadVersion(r));
  }

  /** The receiver was behind when it was called, and finds out as soon as it looks. */
  predicate Behind<T>(s: State<T>, r: nat) {
    && r in s.receivers && var x := s.receivers[r];
    && (x.phase.Looping? || x.phase.Listening? || x.phase.Changed?)
    && (!x.phase.Changed? ==> x.version < s.version)
  }

  /** The channel is silent, and a receiver that finds nothing new misses nothing. */
  predicate NothingToMiss<T>(s: State<T>, r: nat) {
    && Silent(s) && r in s.receivers
    && (s.receivers[r].phase.Unchanged? ==> s.receivers[r].version == s.version)
  }

  lemma CallStep<T>(s: State<T>, a: Step<T>, r: nat)
    requires Able(s, a) && a != StartRecv(r) && a != ReadData(r) && a != Cancel(r)
    ensures Behind(s, r) ==> Behind(Next(s, a), r)
    ensures NothingToMiss(s, r) ==> NothingToMiss(Next(s, a), r)
  {
    if StepOf(a, r) {
    } else if r in s.receivers {
      OtherStep(s, a, r);
      if Silent(s) { SilentStep(s, a); }
      hide Able, Next;
    }
  }

  lemma {:induction false} CallStays<T>(s0: State<T>, steps: seq<Step<T>>, s: State<T>, r: nat)
    requires OneCall(steps, r) && PlayOn(s0, steps) == Some(s) && Able(s0, StartRecv(r))
    requires s0.receivers[r].version < s0.version || Silent(s0)
    ensures Behind(s, r) || NothingToMiss(s, r)
    decreases |steps|
  {
    var less, last := steps[..|steps| - 1], steps[|steps| - 1];
    if less == [] {
      assert PlayOn(s0, less) == Some(s0) && last == StartRecv(r);
    } else {
      hide Behind, NothingToMiss, Next, Able;
      var before := PlayOn(s0, less).value;
      CallStays(s0, less, before, r);
      CallStep(before, last, r);
    }
  }

  lemma CallHidesNothing<T>(s0: State<T>, steps: seq<Step<T>>, r: nat)
    requires OneCall(steps, r) && Able(s0, StartRecv(r))
    requires s0.receivers[r].version < s0.version || Silent(s0)
    ensures !Hides(s0, steps, r)
  {
    if PlayOn(s0, steps).Some? { CallStays(s0, steps, PlayOn(s0, steps).value, r); }
    hide PlayOn;
  }

  /** So `recv` may return None although there is a value its receiver has not seen, in any channel: once it has
      returned the first value, the condition is met. */
  lemma NoneMayHideAValue<T>(data: T)
    ensures exists pre: seq<Step<T>>, s0: State<T>, steps: seq<Step<T>> ::
      Reached(data, pre, s0) && Able(s0, StartRecv(0)) && OneCall(steps, 0) && Hides(s0, steps, 0)
  {
    var s: State<T> := Channel(data);
    var s1 := Next(s, StartRecv(0));
    var s2 := Next(s1, Listen(0));
    var s3 := Next(s2, LoadVersion(0));
    var s4 := Next(s3, ReadData(0));
    var none: seq<Step<T>> := [];
    assert PlayOn(s, none) == Some(s);
    PlayOnMore(s, none, s, StartRecv(0));
    PlayOnMore(s, none + [StartRecv(0)], s1, Listen(0));
    PlayOnMore(s, none + [StartRecv(0)] + [Listen(0)], s2, LoadVersion(0));
    PlayOnMore(s, none + [StartRecv(0)] + [Listen(0)] + [LoadVersion(0)], s3, ReadData(0));
    hide PlayOn;
    var pre := none + [StartRecv(0)] + [Listen(0)] + [LoadVersion(0)] + [ReadData(0)];
    assert Reached(data, pre, s4);
    assert s4.senders == {0};
    hide Hides, OneCall;
    RecvMayHideExactly(data, pre, s4, 0);
    var steps :| OneCall(steps, 0) && Hides(s4, steps, 0);
  }

  // ---- how a call ends ----------------------------------------------------------------------

  /** The receiver is out of its call if and only if it was told that no sender is left. */
  predicate OverIfEnded<T>(s: State<T>, r: nat) {
    r in s.receivers && (s.receivers[r].phase.Idle? <==> s.receivers[r].ended)
  }

  lemma EndStep<T>(s: State<T>, a: Step<T>, r: nat)
    requires Able(s, a) && a != StartRecv(r) && a != ReadData(r) && a != Cancel(r) && OverIfEnded(s, r)
    ensures OverIfEnded(Next(s, a), r)
  {
    if !StepOf(a, r) {
      OtherStep(s, a, r);
      hide Able, Next;
    }
  }

  /** A call of `recv` that has neither read a value nor been cancelled is over if and only if it was told that no
      sender is left. In particular a notification alone never ends it. */
  lemma {:induction false} CallEndsExactly<T>(s0: State<T>, steps: seq<Step<T>>, s: State<T>, r: nat)
    requires Able(s0, StartRecv(r)) && !s0.receivers[r].ended && OneCall(steps, r) && PlayOn(s0, steps) == Some(s)
    ensures OverIfEnded(s, r)
    decreases |steps|
  {
    var less, last := steps[..|steps| - 1], steps[|steps| - 1];
    if less == [] {
      assert PlayOn(s0, less) == Some(s0) && last == StartRecv(r);
    } else {
      hide OverIfEnded, Next, Able;
      var before := PlayOn(s0, less).value;
      CallEndsExactly(s0, less, before, r);
      EndStep(before, last, r);
    }
  }

  /** The next step of a receiver inside a call. */
  function StepIn<T>(s: State<T>, r: nat): Step<T>
    requires r in s.receivers && !s.receivers[r].phase.Idle?
  {
    match s.receivers[r].phase
    case Looping => Listen(r)
    case Listening(_) => LoadVersion(r)
    case Unchanged(_) => LoadCount(r)
    case Parked(_) => Wake(r)
    case Changed => ReadData(r)
  }

  function StepsLeft(p: RecvPhase): nat {
    match p
    case Unchanged(_) => 5
    case Parked(_) => 4
    case Looping => 3
    case Listening(_) => 2
    case Changed => 1
    case Idle => 0
  }

  /** All senders are at rest, and the receiver is in a call with a value to get. */
  predicate ValueWaits<T>(s: State<T>, r: nat) {
    && s.sends == map[] && s.leaving == {} && r in s.receivers
    && var x := s.receivers[r];
    && !x.phase.Idle? && (x.phase.Changed? || x.version < s.version) && (x.phase.Unchanged? ==> s.senders != {})
  }

  lemma OneStepIn<T>(s: State<T>, r: nat)
    requires Inv(s) && ValueWaits(s, r)
    ensures var a := StepIn(s, r); var s' := Next(s, a);
      && Able(s, a) && s' == s.(receivers := s'.receivers) && r in s'.receivers
      && StepsLeft(s'.receivers[r].phase) < StepsLeft(s.receivers[r].phase)
      && (s.receivers[r].phase.Changed? ==> s'.receivers[r].phase.Idle? && s'.receivers[r].seen == Some(|s.log| - 1))
      && (!s.receivers[r].phase.Changed? ==> ValueWaits(s', r))
  {
    assert !NoticeDue(s);
    assert s.lock == None;
    assert ReceiverOk(s, s.receivers[r]);
    hide DataOk;
  }

  /** Steps of one receiver. */
  predicate AllOf<T>(steps: seq<Step<T>>, r: nat) {
    forall k :: 0 <= k < |steps| ==> StepOf(steps[k], r)
  }

  lemma StepFirst<T>(s: State<T>, a: Step<T>, rest: seq<Step<T>>, end: State<T>, r: nat)
    requires Able(s, a) && StepOf(a, r) && PlayOn(Next(s, a), rest) == Some(end) && AllOf(rest, r)
    ensures PlayOn(s, [a] + rest) == Some(end) && AllOf([a] + rest, r)
  {
    var none: seq<Step<T>> := [];
    assert PlayOn(s, none) == Some(s);
    hide PlayOn, Next, Able, StepOf;
    PlayOnMore(s, none, s, a);
    assert none + [a] == [a];
    PlayOnConcat(s, [a], Next(s, a), rest);
  }

  lemma NoStep<T>(s: State<T>, r: nat)
    ensures var none: seq<Step<T>> := []; PlayOn(s, none) == Some(s) && AllOf(none, r)
  {
  }

  lemma StepInIsOf<T>(s: State<T>, r: nat)
    requires r in s.receivers && !s.receivers[r].phase.Idle?
    ensures StepOf(StepIn(s, r), r)
  {
  }

  /** With all senders at rest, a receiver in a call that has not got the newest value gets it by steps of its own, at
      most five, wherever in the call it is; only if it has already looked for the version and no sender is left, it
      is told so instead. */
  lemma {:induction false} ReturnsTheNewest<T>(s: State<T>, r: nat) returns (steps: seq<Step<T>>, end: State<T>)
    requires Inv(s) && ValueWaits(s, r)
    ensures PlayOn(s, steps) == Some(end) && AllOf(steps, r) && |steps| <= StepsLeft(s.receivers[r].phase)
    ensures r in end.receivers && end.receivers[r].phase.Idle? && end.receivers[r].seen == Some(|end.log| - 1)
    ensures end.log == s.log
    decreases StepsLeft(s.receivers[r].phase)
  {
    var a := StepIn(s, r);
    StepInIsOf(s, r);
    OneStepIn(s, r);
    hide PlayOn, Next, Able, Inv, AllOf, StepOf, StepIn;
    NextKeeps(s, a);
    var rest: seq<Step<T>>;
    if s.receivers[r].phase.Changed? {
      NoStep(Next(s, a), r);
      rest, end := [], Next(s, a);
    } else {
      hide ValueWaits;
      rest, end := ReturnsTheNewest(Next(s, a), r);
    }
    StepFirst(s, a, rest, end, r);
    steps := [a] + rest;
  }

  /** The same for every state a channel can reach. */
  lemma NoValueIsStuck<T>(data: T, pre: seq<Step<T>>, s: State<T>, r: nat)
    requires Reached(data, pre, s) && ValueWaits(s, r)
    ensures exists steps: seq<Step<T>> ::
      && PlayOn(s, steps).Some? && AllOf(steps, r)
      && var end := PlayOn(s, steps).value;
         r in end.receivers && end.receivers[r].phase.Idle? && end.receivers[r].seen == Some(|s.log| - 1)
  {
    hide Inv, PlayOn, ValueWaits, AllOf;
    PlayKeeps(data, pre);
    var steps, end := ReturnsTheNewest(s, r);
  }

  // ---- what is in the log -------------------------------------------------------------------

  /** The value a call of `send` was last begun with. */
  function ValueOf<T>(steps: seq<Step<T>>, call: nat): Option<T> {
    if steps == [] then None else
    match steps[|steps| - 1]
    case StartSend(_, c, v) => if c == call then Some(v) else ValueOf(steps[..|steps| - 1], call)
    case _ => ValueOf(steps[..|steps| - 1], call)
  }

  /** The values the calls have written, in the order in which they got to write. */
  function WrittenBy<T>(steps: seq<Step<T>>): seq<T> {
    if steps == [] then [] else
    var less := steps[..|steps| - 1];
    WrittenBy(less) +
    match steps[|steps| - 1]
    case Write(c) => (match ValueOf(less, c) case Some(v) => [v] case None => [])
    case _ => []
  }

  predicate CallsTold<T(==)>(s: State<T>, steps: seq<Step<T>>) {
    forall c <- s.sends :: ValueOf(steps, c) == Some(s.sends[c].value)
  }

  lemma StepTold<T>(s: State<T>, steps: seq<Step<T>>, data: T)
    requires steps != [] && var less, a := steps[..|steps| - 1], steps[|steps| - 1];
      Able(s, a) && CallsTold(s, less) && s.log == [data] + WrittenBy(less)
    ensures var s' := Next(s, steps[|steps| - 1]); CallsTold(s', steps) && s'.log == [data] + WrittenBy(steps)
  {
  }

  /** What receivers can see is what was sent: the log holds the first value and then, in the order of their writes,
      the values that the calls of `send` were begun with. */
  lemma {:induction false} LogIsWhatWasSent<T>(data: T, steps: seq<Step<T>>, s: State<T>)
    requires Reached(data, steps, s)
    ensures s.log == [data] + WrittenBy(steps) && CallsTold(s, steps)
  {
    if steps != [] {
      var before := PlayOn(Channel(data), steps[..|steps| - 1]).value;
      hide Able, Next, CallsTold, WrittenBy;
      LogIsWhatWasSent(data, steps[..|steps| - 1], before);
      StepTold(before, steps, data);
    }
  }
}
