/** The ids one side hands out over a connection. */
module Ids {
  import opened Basics
  import opened Protocol

  datatype IdOp = Take | Enable

  /** Taking an id is only for a role that may send requests. */
  predicate Legal(r: Role, ops: seq<IdOp>)
    decreases |ops|
  {
    ops != [] ==>
      if ops[0].Take? then r.CanSendRequests() && Legal(r.Advanced(), ops[1..]) else Legal(r.Enabled(), ops[1..])
  }

  /** All ids handed out, in order. */
  function Issued(r: Role, ops: seq<IdOp>): seq<nat>
    requires Legal(r, ops)
    decreases |ops|
  {
    if ops == [] then [] else
    if ops[0].Enable? then Issued(r.Enabled(), ops[1..]) else
    (if r.Id().Some? then [r.Id().value] else []) + Issued(r.Advanced(), ops[1..])
  }

  /** The counter is in the range of its role. */
  predicate InRange(r: Role) {
    r.CanSendRequests() && r.next.Some? ==>
      && r.next.value <= U32_MAX
      && (r.BiClient? ==> r.next.value <= U32_MID)
      && (r.BiServer? ==> r.next.value > U32_MID)
  }

  /** Ids fit 32 bits, stay in the range of the role and never fall behind its counter. Once they are used up,
      there is never another one. */
  lemma {:induction false} IdsInRange(r: Role, ops: seq<IdOp>, j: nat)
    requires InRange(r) && Legal(r, ops) && j < |Issued(r, ops)|
    ensures var id := Issued(r, ops)[j];
      && id < 0x1_0000_0000 && (r.CanSendRequests() ==> r.next.Some? && r.next.value <= id)
      && (r.BiClient? ==> id < 0x8000_0000) && (r.Server() ==> id >= 0x8000_0000)
    decreases |ops|
  {
    if ops[0].Enable? {
      IdsInRange(r.Enabled(), ops[1..], j);
    } else if r.Id().Some? {
      if j > 0 { IdsInRange(r.Advanced(), ops[1..], j - 1); }
    } else {
      IdsInRange(r.Advanced(), ops[1..], j);
    }
  }

  /** Ids are handed out without gaps, from the counter on, whether or not server requests are enabled on the way. */
  lemma {:induction false} IdsAreConsecutive(r: Role, ops: seq<IdOp>, j: nat)
    requires r.CanSendRequests() && Legal(r, ops) && j < |Issued(r, ops)|
    ensures r.next.Some? && Issued(r, ops)[j] == r.next.value + j
    decreases |ops|
  {
    if ops[0].Enable? {
      IdsAreConsecutive(r.Enabled(), ops[1..], j);
    } else if r.Id().Some? {
      if j > 0 { IdsAreConsecutive(r.Advanced(), ops[1..], j - 1); }
    } else {
      IdsAreConsecutive(r.Advanced(), ops[1..], j);
    }
  }

  /** Ids only go up, so none is handed out twice. */
  lemma {:induction false} IdsIncrease(r: Role, ops: seq<IdOp>, j: nat, k: nat)
    requires InRange(r) && Legal(r, ops) && j < k < |Issued(r, ops)|
    ensures Issued(r, ops)[j] < Issued(r, ops)[k]
    decreases |ops|
  {
    if r.CanSendRequests() {
      IdsAreConsecutive(r, ops, j);
      IdsAreConsecutive(r, ops, k);
    } else {
      IdsIncrease(r.Enabled(), ops[1..], j, k);
    }
  }

  /** Enabling server requests again changes nothing. */
  lemma EnablingTwice(r: Role)
    ensures r.Enabled().Enabled() == r.Enabled() && !r.Enabled().Enables()
  {
  }

  // ---- both sides ---------------------------------------------------------------------------

  /** The role after some operations. */
  function RoleAfter(r: Role, ops: seq<IdOp>): Role
    requires Legal(r, ops)
    decreases |ops|
  {
    if ops == [] then r else RoleAfter(if ops[0].Take? then r.Advanced() else r.Enabled(), ops[1..])
  }

  lemma {:induction false} IssuedOfConcat(r: Role, a: seq<IdOp>, b: seq<IdOp>)
    requires Legal(r, a + b)
    ensures Legal(r, a) && Legal(RoleAfter(r, a), b)
    ensures Issued(r, a + b) == Issued(r, a) + Issued(RoleAfter(r, a), b)
    ensures RoleAfter(r, a + b) == RoleAfter(RoleAfter(r, a), b)
    decreases |a|
  {
    if a == [] {
      assert a + b == b;
    } else {
      assert (a + b)[0] == a[0] && (a + b)[1..] == a[1..] + b;
      IssuedOfConcat(if a[0].Take? then r.Advanced() else r.Enabled(), a[1..], b);
    }
  }

  lemma {:induction false} RoleStaysInRange(r: Role, ops: seq<IdOp>)
    requires Legal(r, ops) && InRange(r)
    ensures InRange(RoleAfter(r, ops)) && RoleAfter(r, ops).Server() == r.Server()
    decreases |ops|
  {
    if ops != [] { RoleStaysInRange(if ops[0].Take? then r.Advanced() else r.Enabled(), ops[1..]); }
  }

  /** A client of a new connection that takes some ids, enables server requests and takes more. */
  function ClientIds(before: seq<IdOp>, after: seq<IdOp>): seq<nat>
    requires Legal(UniClient(Some(0)), before + [Enable] + after)
  {
    Issued(UniClient(Some(0)), before + [Enable] + after)
  }

  predicate Disjoint(a: seq<nat>, b: seq<nat>) {
    forall j, k :: 0 <= j < |a| && 0 <= k < |b| ==> a[j] != b[k]
  }

  predicate AtMostMid(ids: seq<nat>) {
    forall j :: 0 <= j < |ids| ==> ids[j] <= U32_MID
  }

  lemma ClientSplit(before: seq<IdOp>, after: seq<IdOp>)
    requires Legal(UniClient(Some(0)), before + [Enable] + after)
    ensures Legal(UniClient(Some(0)), before)
    ensures var mid := RoleAfter(UniClient(Some(0)), before).Enabled();
      Legal(mid, after) && mid.BiClient? && InRange(mid)
      && ClientIds(before, after) == Issued(UniClient(Some(0)), before) + Issued(mid, after)
  {
    var r := UniClient(Some(0));
    assert before + [Enable] + after == before + ([Enable] + after);
    IssuedOfConcat(r, before, [Enable] + after);
    RoleStaysInRange(r, before);
    assert ([Enable] + after)[1..] == after;
  }

  /** The ids of a client and its server, before and after server requests are enabled, never meet, whatever the
      server does, if and only if the client had handed out no id above the middle when it enabled them. */
  lemma IdsApart(before: seq<IdOp>, after: seq<IdOp>)
    requires Legal(UniClient(Some(0)), before + [Enable] + after)
    ensures Legal(UniClient(Some(0)), before)
    ensures AtMostMid(Issued(UniClient(Some(0)), before)) <==>
            forall server: seq<IdOp> :: Legal(UniServer, server) ==>
              Disjoint(ClientIds(before, after), Issued(UniServer, server))
  {
    ClientSplit(before, after);
    var early := Issued(UniClient(Some(0)), before);
    if AtMostMid(early) {
      forall server: seq<IdOp> | Legal(UniServer, server)
        ensures Disjoint(ClientIds(before, after), Issued(UniServer, server))
      {
        IdsApartInTime(before, after, server);
      }
    } else {
      LateIdsMeet(before, after);
    }
  }

  lemma IdsApartInTime(before: seq<IdOp>, after: seq<IdOp>, server: seq<IdOp>)
    requires Legal(UniClient(Some(0)), before + [Enable] + after) && Legal(UniServer, server)
    requires Legal(UniClient(Some(0)), before) && AtMostMid(Issued(UniClient(Some(0)), before))
    ensures Disjoint(ClientIds(before, after), Issued(UniServer, server))
  {
    ClientSplit(before, after);
    var early, mid := Issued(UniClient(Some(0)), before), RoleAfter(UniClient(Some(0)), before).Enabled();
    forall j, k | 0 <= j < |ClientIds(before, after)| && 0 <= k < |Issued(UniServer, server)|
      ensures ClientIds(before, after)[j] <= U32_MID < Issued(UniServer, server)[k]
    {
      IdsInRange(UniServer, server, k);
      if j >= |early| { IdsInRange(mid, after, j - |early|); }
    }
  }

  /** The first id of the server is one the late client has used. */
  lemma LateIdsMeet(before: seq<IdOp>, after: seq<IdOp>)
    requires Legal(UniClient(Some(0)), before + [Enable] + after)
    requires Legal(UniClient(Some(0)), before) && !AtMostMid(Issued(UniClient(Some(0)), before))
    ensures Legal(UniServer, [Enable, Take])
    ensures !Disjoint(ClientIds(before, after), Issued(UniServer, [Enable, Take]))
  {
    ClientSplit(before, after);
    var early := Issued(UniClient(Some(0)), before);
    var j :| 0 <= j < |early| && early[j] > U32_MID;
    IdsAreConsecutive(UniClient(Some(0)), before, j);
    IdsAreConsecutive(UniClient(Some(0)), before, U32_MID + 1);
    var server := BiServer(Some(U32_MID + 1));
    assert [Enable, Take][1..] == [Take] && [Take][1..] == [];
    assert Issued(server, [Take]) == [U32_MID + 1];
    assert Issued(UniServer, [Enable, Take]) == [U32_MID + 1];
    var a, b := ClientIds(before, after), Issued(UniServer, [Enable, Take]);
    assert a[U32_MID + 1] == early[U32_MID + 1] == b[0];
  }
}
