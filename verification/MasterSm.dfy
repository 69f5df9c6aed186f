/** The master state machine: who is master, since which log entry, until when. */
module MasterSm {
  import opened PaxosTypes

  const NULL_NODE: NodeId := 0

  /** Versions are 64-bit; all ones means that no master was ever learned. */
  const NO_VERSION: nat := 0xFFFF_FFFF_FFFF_FFFF

  /** `last` is the proposer's version when it proposed, 0 when it was not filled in. */
  datatype Op = Op(node: NodeId, version: nat, lease: nat, last: nat, sid: nat)

  datatype Stored = Stored(node: NodeId, version: nat, lease: nat)

  datatype Sm = Sm(master: NodeId, version: nat, lease: nat, expire: nat, store: Option<Stored>)

  const FRESH_SM := Sm(NULL_NODE, NO_VERSION, 0, 0, None)

  /** A newer entry whose proposer had another version makes the node adopt that version. */
  predicate NeedsRepair(m: Sm, inst: nat, op: Op) {
    op.last != 0 && inst > m.version && op.last != m.version
  }

  function Repair(m: Sm, inst: nat, op: Op): Sm {
    if NeedsRepair(m, inst, op) then m.(version := op.last) else m
  }

  /** `abs` is the end of the node's own lease, 0 when the entry is not its own live proposal. */
  function ApplyBid(me: NodeId, m: Sm, inst: nat, op: Op, abs: nat, clock: nat): Sm {
    var m1 := Repair(m, inst, op);
    if op.version != m1.version then m1
    else Sm(op.node, inst, op.lease, if op.node == me then abs else clock + op.lease,
            Some(Stored(op.node, inst, op.lease)))
  }

  /** After a restart the node does not trust a lease of its own, and waits out everybody else's. */
  function InitSm(me: NodeId, store: Option<Stored>, clock: nat): Sm {
    match store
    case None => FRESH_SM
    case Some(v) =>
      if v.node == me then Sm(NULL_NODE, v.version, 0, 0, store)
      else Sm(v.node, v.version, 0, clock + v.lease, store)
  }

  function GetMaster(m: Sm, clock: nat): NodeId {
    if clock >= m.expire then NULL_NODE else m.master
  }

  predicate IsIMMaster(me: NodeId, m: Sm, clock: nat) {
    GetMaster(m, clock) == me
  }

  /** The version to bid with; None while another master's lease runs. */
  function Check(me: NodeId, m: Sm, clock: nat): Option<nat> {
    var master := GetMaster(m, clock);
    if master != NULL_NODE && master != me then None else Some(m.version)
  }

  /** Late by a tenth of a second against the lease the others grant. */
  function OwnEnd(start: nat, lease: nat): nat {
    if start + lease >= 100 then start + lease - 100 else 0
  }

  // ---------------------------------------------------------------- the objects

  class MasterStateMachine {
    const me: NodeId
    var masterNode: NodeId
    var version: nat
    var leaseTime: nat
    var absExpireTime: nat
    var store: Option<Stored>

    constructor (me: NodeId, store: Option<Stored>)
      ensures this.me == me && View() == FRESH_SM.(store := store)
    {
      this.me, this.store := me, store;
      masterNode, version, leaseTime, absExpireTime := NULL_NODE, NO_VERSION, 0, 0;
    }

    ghost function View(): Sm
      reads this
    {
      Sm(masterNode, version, leaseTime, absExpireTime, store)
    }

    method Init(clock: nat)
      requires View() == FRESH_SM.(store := store)
      modifies this
      ensures View() == InitSm(me, old(store), clock)
    {
      if store.Some? {
        version := store.value.version;
        if store.value.node == me {
          masterNode := NULL_NODE;
          absExpireTime := 0;
        } else {
          masterNode := store.value.node;
          absExpireTime := clock + store.value.lease;
        }
      }
    }

    method LearnMaster(inst: nat, op: Op, abs: nat, clock: nat)
      modifies this
      ensures View() == ApplyBid(me, old(View()), inst, op, abs, clock)
    {
      if op.last != 0 && inst > version && op.last != version {
        version := op.last;
      }
      if op.version != version {
        return;
      }
      store := Some(Stored(op.node, inst, op.lease));
      masterNode := op.node;
      if masterNode == me {
        absExpireTime := abs;
      } else {
        absExpireTime := clock + op.lease;
      }
      leaseTime := op.lease;
      version := inst;
    }

    method SafeGetMaster(clock: nat) returns (master: NodeId, v: nat)
      ensures master == GetMaster(View(), clock) && v == version
    {
      if clock >= absExpireTime {
        master := NULL_NODE;
      } else {
        master := masterNode;
      }
      v := version;
    }

    method BeforePropose(op: Op) returns (op': Op)
      ensures op' == op.(last := version)
    {
      op' := op.(last := version);
    }
  }

  class MasterMgr {
    const me: NodeId
    const sm: MasterStateMachine
    var leaseTime: nat

    constructor (me: NodeId, sm: MasterStateMachine)
      ensures this.me == me && this.sm == sm && leaseTime == 10000
    {
      this.me, this.sm := me, sm;
      leaseTime := 10000;
    }

    method SetLeaseTime(ms: nat)
      modifies this
      ensures leaseTime == if ms < 1000 then old(leaseTime) else ms
    {
      if ms < 1000 {
        return;
      }
      leaseTime := ms;
    }

    /** `begin` is the clock at the check, `start` when the bid is made. */
    method TryBeMaster(lease: nat, begin: nat, start: nat, sid: nat) returns (bid: Option<Op>, abs: nat)
      requires begin <= start && lease >= 1000 && sm.me == me
      ensures var c := Check(me, sm.View(), begin);
        && bid == (if c.None? then None else Some(Op(me, c.value, lease, 0, sid)))
        && (bid.Some? ==> abs == OwnEnd(start, lease))
    {
      abs := 0;
      var master, v := sm.SafeGetMaster(begin);
      if master != NULL_NODE && master != me {
        return None, 0;
      }
      bid := Some(Op(me, v, lease, 0, sid));
      abs := start + (lease - 100);
    }
  }
}
