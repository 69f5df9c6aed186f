/** The system variables: group id, membership, and the version that guards them. */
module SystemVariables {
  import opened PaxosTypes

  /** All ones: no version yet. */
  const NO_VERSION: nat := 0xFFFF_FFFF_FFFF_FFFF

  datatype Vars = Vars(gid: nat, version: nat, members: seq<NodeId>)

  const NO_VARS := Vars(0, NO_VERSION, [])

  datatype Ret = Done | GidNotSame | VersionConflict

  datatype Outcome = Outcome(vars: Vars, ret: Ret)

  /** One log entry of the system state machine: a compare-and-set on the version. */
  function Exec(v: Vars, inst: nat, op: Vars): Outcome {
    if v.gid != 0 && op.gid != v.gid then Outcome(v, GidNotSame)
    else if op.version != v.version then Outcome(v, VersionConflict)
    else Outcome(op.(version := inst), Done)
  }

  // ---------------------------------------------------------------- the three calls

  datatype Change =
    | Create(gid: nat)
    | Add(node: NodeId)
    | Remove(node: NodeId)
    | Swap(from: NodeId, to: NodeId)

  function Without(m: seq<NodeId>, gone: set<NodeId>): seq<NodeId> {
    if m == [] then []
    else
      var init := Without(m[..|m| - 1], gone);
      if m[|m| - 1] in gone then init else init + [m[|m| - 1]]
  }

  /** The membership a call asks for; None when the call is refused. */
  function Applied(ch: Change, m: seq<NodeId>): Option<seq<NodeId>> {
    match ch
    case Create(_) => Some(m)
    case Add(n) => if n in m then None else Some(m + [n])
    case Remove(n) => if n in m then Some(Without(m, {n})) else None
    case Swap(from, to) => if from !in m && to in m then None else Some(Without(m, {from, to}) + [to])
  }

  predicate NoDuplicates(m: seq<NodeId>) {
    forall i, j :: 0 <= i < j < |m| ==> m[i] != m[j]
  }

  lemma {:induction false} WithoutKeeps(m: seq<NodeId>, gone: set<NodeId>)
    ensures forall n :: n in Without(m, gone) <==> n in m && n !in gone
    ensures NoDuplicates(m) ==> NoDuplicates(Without(m, gone))
    ensures (forall n :: n in m ==> n !in gone) ==> Without(m, gone) == m
  {
    if m != [] {
      var init := m[..|m| - 1];
      assert m == init + [m[|m| - 1]];
      WithoutKeeps(init, gone);
    }
  }

  /** Who is a member after a call that is not refused; and nobody is ever in twice. */
  lemma AppliedMembers(ch: Change, m: seq<NodeId>)
    requires Applied(ch, m).Some?
    ensures var m' := Applied(ch, m).value;
      forall n :: n in m' <==>
        match ch
        case Create(_) => n in m
        case Add(a) => n in m || n == a
        case Remove(a) => n in m && n != a
        case Swap(from, to) => n == to || (n in m && n != from)
    ensures NoDuplicates(m) ==> NoDuplicates(Applied(ch, m).value)
  {
    match ch
    case Create(_) =>
    case Add(_) =>
    case Remove(a) => WithoutKeeps(m, {a});
    case Swap(from, to) => WithoutKeeps(m, {from, to});
  }

  // ---------------------------------------------------------------- the objects

  class SystemVSM {
    const me: NodeId
    var gid: nat
    var version: nat
    var members: seq<NodeId>
    var nodeIds: set<NodeId>
    var store: Option<Vars>

    ghost function View(): Vars
      reads this
    {
      Vars(gid, version, members)
    }

    ghost predicate Valid()
      reads this
    {
      nodeIds == set n | n in members
    }

    constructor (me: NodeId, store: Option<Vars>)
      ensures Valid() && this.me == me && this.store == store
      ensures View() == if store.None? then NO_VARS else store.value
    {
      this.me, this.store := me, store;
      gid, version, members, nodeIds := 0, NO_VERSION, [], {};
      new;
      if store.Some? {
        gid, version, members := store.value.gid, store.value.version, store.value.members;
        RefreshNodeIds();
      }
    }

    method RefreshNodeIds()
      modifies this`nodeIds
      ensures Valid()
    {
      nodeIds := {};
      for i := 0 to |members|
        invariant nodeIds == set n | n in members[..i]
      {
        nodeIds := nodeIds + {members[i]};
      }
      assert members[..|members|] == members;
    }

    /** The configured list counts only until the group has an id. */
    method AddNodeIDList(list: seq<NodeId>)
      requires Valid()
      modifies this
      ensures Valid() && store == old(store)
      ensures View() == if old(gid) != 0 then old(View()) else old(View()).(members := list)
    {
      if gid != 0 {
        return;
      }
      members := [];
      for i := 0 to |list|
        invariant members == list[..i] && gid == old(gid) && version == old(version) && store == old(store)
      {
        members := members + [list[i]];
      }
      RefreshNodeIds();
    }

    /** Executing a log entry: the whole state changes, and is stored, or nothing does. */
    method Execute(inst: nat, op: Vars) returns (ret: Ret)
      requires Valid()
      modifies this
      ensures Valid() && Outcome(View(), ret) == Exec(old(View()), inst, op)
      ensures store == if ret.Done? then Some(View()) else old(store)
    {
      if gid != 0 && op.gid != gid {
        return GidNotSame;
      }
      if op.version != version {
        return VersionConflict;
      }
      store := Some(op.(version := inst));
      gid, version, members := op.gid, inst, op.members;
      RefreshNodeIds();
      ret := Done;
    }

    function GetMajorityCount(): (m: nat)
      requires Valid()
      reads this
      ensures 2 * m > |nodeIds| && 2 * (m - 1) <= |nodeIds|
    {
      |nodeIds| / 2 + 1
    }

    /** Without a group id everybody is welcome. */
    function IsValidNodeID(n: NodeId): (ok: bool)
      requires Valid()
      reads this
      ensures ok <==> gid == 0 || n in members
    {
      gid == 0 || n in nodeIds
    }
  }

  /** The list of a call, built from the membership it read; refused or not. */
  method AddMember(list: seq<NodeId>, node: NodeId) returns (after: Option<seq<NodeId>>)
    ensures after == Applied(Add(node), list)
    ensures after.None? <==> node in list
    ensures after.Some? ==> after.value == list + [node]
  {
    for i := 0 to |list|
      invariant node !in list[..i]
    {
      if list[i] == node {
        return None;
      }
    }
    assert list[..|list|] == list;
    after := Some(list + [node]);
  }

  method RemoveMember(list: seq<NodeId>, node: NodeId) returns (after: Option<seq<NodeId>>)
    ensures after == Applied(Remove(node), list)
    ensures after.None? <==> node !in list
  {
    var present := false;
    var rest := [];
    for i := 0 to |list|
      invariant present <==> node in list[..i]
      invariant rest == Without(list[..i], {node})
    {
      assert list[..i + 1][..i] == list[..i];
      if list[i] == node {
        present := true;
      } else {
        rest := rest + [list[i]];
      }
    }
    assert list[..|list|] == list;
    after := if present then Some(rest) else None;
  }

  method ChangeMember(list: seq<NodeId>, from: NodeId, to: NodeId) returns (after: Option<seq<NodeId>>)
    ensures after == Applied(Swap(from, to), list)
    ensures after.None? <==> from !in list && to in list
  {
    var fromExists, toExists := false, false;
    var rest := [];
    for i := 0 to |list|
      invariant fromExists <==> from in list[..i]
      invariant toExists <==> to in list[..i] && to != from
      invariant rest == Without(list[..i], {from, to})
    {
      assert list[..i + 1][..i] == list[..i];
      if list[i] == from {
        fromExists := true;
      } else if list[i] == to {
        toExists := true;
      } else {
        rest := rest + [list[i]];
      }
    }
    assert list[..|list|] == list;
    if !fromExists && toExists {
      return None;
    }
    after := Some(rest + [to]);
  }
}
