/** What holds of every ledger state reachable from a reset ledger, and how
    records may evolve over any sequence of calls. */
module LedgerInvariants {
  import opened EscrowTypes
  import opened Ledger

  /** The facts about a record that creation establishes and no later
      call undoes. */
  predicate WellFormed(e: Escrow)
  {
    && e.proposalId > 0
    && e.amount > 0
    && 0 < e.quorum <= 100
    && 0 < |e.description| <= 200
    && 1 < e.multisigCount <= 10
    && e.verifier == None
    && e.oracle.Some?
    && (e.refundReason.Some? <==> e.status == Refunded)
    && (e.refundReason.Some? ==> 0 < |e.refundReason.value| <= 100)
  }

  /** The escrow IDs in use are exactly 0 .. nextEscrowId - 1. */
  ghost predicate DenseIds(s: State)
  {
    forall id :: id in s.escrows <==> 0 <= id < s.nextEscrowId
  }

  /** An audit entry exists only for an existing escrow, and agrees with
      that escrow's current amount and deadline. */
  predicate AuditAgrees(s: State)
  {
    forall id :: id in s.escrowUpdates ==>
      && id in s.escrows
      && s.escrowUpdates[id].updateAmount == s.escrows[id].amount
      && s.escrowUpdates[id].updateDeadline == s.escrows[id].deadline
  }

  /** The ledger invariant. */
  ghost predicate Inv(s: State)
  {
    && DenseIds(s)
    && AuditAgrees(s)
    && (forall id :: id in s.escrows ==> WellFormed(s.escrows[id]))
    && s.maxEscrows > 0
    && s.escrowFee >= 0
    && (forall i :: 0 <= i < |s.stxTransfers| ==> s.stxTransfers[i].amount >= 0)
  }

  lemma InitialInv()
    ensures Inv(Initial())
  {
  }

  lemma CreatePreservesInv(s: State, caller: Principal, height: int, a: CreateArgs)
    requires Inv(s)
    ensures Inv(CreateEscrow(s, caller, height, a).state)
  {
    var t := CreateEscrow(s, caller, height, a).state;
    if t != s {
      var n := s.nextEscrowId;
      assert WellFormed(t.escrows[n]);
      assert forall i :: 0 <= i < |t.stxTransfers| ==> t.stxTransfers[i].amount >= 0 by {
        forall i | 0 <= i < |t.stxTransfers| ensures t.stxTransfers[i].amount >= 0 {
          if i < |s.stxTransfers| { assert t.stxTransfers[i] == s.stxTransfers[i]; }
        }
      }
    }
  }

  lemma UpdatePreservesInv(s: State, caller: Principal, height: int, id: int, amount: int, deadline: int)
    requires Inv(s)
    ensures Inv(UpdateEscrow(s, caller, height, id, amount, deadline).state)
  {
  }

  lemma ReleasePreservesInv(s: State, height: int, id: int, verified: bool)
    requires Inv(s)
    ensures Inv(VerifyAndRelease(s, height, id, verified).state)
  {
    var t := VerifyAndRelease(s, height, id, verified).state;
    if t != s {
      assert forall i :: 0 <= i < |t.stxTransfers| ==> t.stxTransfers[i].amount >= 0 by {
        forall i | 0 <= i < |t.stxTransfers| ensures t.stxTransfers[i].amount >= 0 {
          if i < |s.stxTransfers| { assert t.stxTransfers[i] == s.stxTransfers[i]; }
        }
      }
    }
  }

  lemma RefundPreservesInv(s: State, caller: Principal, id: int, reason: string)
    requires Inv(s)
    ensures Inv(RefundEscrow(s, caller, id, reason).state)
  {
    var t := RefundEscrow(s, caller, id, reason).state;
    if t != s {
      assert forall i :: 0 <= i < |t.stxTransfers| ==> t.stxTransfers[i].amount >= 0 by {
        forall i | 0 <= i < |t.stxTransfers| ensures t.stxTransfers[i].amount >= 0 {
          if i < |s.stxTransfers| { assert t.stxTransfers[i] == s.stxTransfers[i]; }
        }
      }
    }
  }

  lemma SettersPreserveInv(s: State, caller: Principal, newAdmin: Principal, newMax: int, newFee: int)
    requires Inv(s)
    ensures Inv(SetAdminPrincipal(s, caller, newAdmin).state)
    ensures Inv(SetMaxEscrows(s, caller, newMax).state)
    ensures Inv(SetEscrowFee(s, caller, newFee).state)
  {
  }

  // ---------------------------------------------------------------------
  // Sequences of calls

  /** One ledger operation with its arguments. */
  datatype Op =
    | SetAdminPrincipalOp(newAdmin: Principal)
    | SetMaxEscrowsOp(newMax: int)
    | SetEscrowFeeOp(newFee: int)
    | CreateEscrowOp(args: CreateArgs)
    | UpdateEscrowOp(id: int, amount: int, deadline: int)
    | VerifyAndReleaseOp(id: int, verified: bool)
    | RefundEscrowOp(id: int, reason: string)

  /** An operation made by a caller at a block height. */
  datatype Call = Call(caller: Principal, height: int, op: Op)

  function Apply(s: State, c: Call): (r: State)
  {
    match c.op
    case SetAdminPrincipalOp(p) => SetAdminPrincipal(s, c.caller, p).state
    case SetMaxEscrowsOp(m) => SetMaxEscrows(s, c.caller, m).state
    case SetEscrowFeeOp(f) => SetEscrowFee(s, c.caller, f).state
    case CreateEscrowOp(a) => CreateEscrow(s, c.caller, c.height, a).state
    case UpdateEscrowOp(id, amount, deadline) => UpdateEscrow(s, c.caller, c.height, id, amount, deadline).state
    case VerifyAndReleaseOp(id, verified) => VerifyAndRelease(s, c.height, id, verified).state
    case RefundEscrowOp(id, reason) => RefundEscrow(s, c.caller, id, reason).state
  }

  /** The state after making the calls one after another. */
  function Run(s: State, calls: seq<Call>): (r: State)
    decreases |calls|
  {
    if calls == [] then s else Run(Apply(s, calls[0]), calls[1..])
  }

  lemma ApplyPreservesInv(s: State, c: Call)
    requires Inv(s)
    ensures Inv(Apply(s, c))
  {
    match c.op
    case SetAdminPrincipalOp(p) => SettersPreserveInv(s, c.caller, p, 1, 0);
    case SetMaxEscrowsOp(m) => SettersPreserveInv(s, c.caller, "", m, 0);
    case SetEscrowFeeOp(f) => SettersPreserveInv(s, c.caller, "", 1, f);
    case CreateEscrowOp(a) => CreatePreservesInv(s, c.caller, c.height, a);
    case UpdateEscrowOp(id, amount, deadline) => UpdatePreservesInv(s, c.caller, c.height, id, amount, deadline);
    case VerifyAndReleaseOp(id, verified) => ReleasePreservesInv(s, c.height, id, verified);
    case RefundEscrowOp(id, reason) => RefundPreservesInv(s, c.caller, id, reason);
  }

  lemma {:induction false} RunPreservesInv(s: State, calls: seq<Call>)
    requires Inv(s)
    ensures Inv(Run(s, calls))
    decreases |calls|
  {
    if calls != [] {
      ApplyPreservesInv(s, calls[0]);
      RunPreservesInv(Apply(s, calls[0]), calls[1..]);
    }
  }

  /** Every state reached from a reset ledger satisfies the invariant. */
  lemma ReachableInv(calls: seq<Call>)
    ensures Inv(Run(Initial(), calls))
  {
    InitialInv();
    RunPreservesInv(Initial(), calls);
  }

  // ---------------------------------------------------------------------
  // Monotonic evolution of records

  /** f is a possible later version of record e: the fields fixed at
      creation keep their values, and a released or refunded record does
      not change at all. */
  predicate Successor(e: Escrow, f: Escrow)
  {
    && f.proposalId == e.proposalId
    && f.vendor == e.vendor
    && f.lockedAt == e.lockedAt
    && f.verifier == e.verifier
    && f.quorum == e.quorum
    && f.description == e.description
    && f.verificationMethod == e.verificationMethod
    && f.multisigCount == e.multisigCount
    && f.oracle == e.oracle
    && (e.status != Locked ==> f == e)
  }

  /** t is a possible later state of s: the counter never goes back, IDs are
      never reclaimed, every record evolves as Successor allows, and the
      transfer log only grows at its end. */
  predicate Evolves(s: State, t: State)
  {
    && s.nextEscrowId <= t.nextEscrowId
    && s.stxTransfers <= t.stxTransfers
    && forall id :: id in s.escrows ==> id in t.escrows && Successor(s.escrows[id], t.escrows[id])
  }

  lemma ApplyEvolves(s: State, c: Call)
    requires Inv(s)
    ensures Evolves(s, Apply(s, c))
  {
  }

  lemma {:induction false} RunEvolves(s: State, calls: seq<Call>)
    requires Inv(s)
    ensures Evolves(s, Run(s, calls))
    decreases |calls|
  {
    if calls != [] {
      var t := Apply(s, calls[0]);
      ApplyEvolves(s, calls[0]);
      ApplyPreservesInv(s, calls[0]);
      RunEvolves(t, calls[1..]);
    }
  }

  /** A released or refunded record keeps its value through any later calls. */
  lemma TerminalRecordsAreFrozen(s: State, calls: seq<Call>, id: int)
    requires Inv(s) && id in s.escrows && s.escrows[id].status != Locked
    ensures id in Run(s, calls).escrows && Run(s, calls).escrows[id] == s.escrows[id]
  {
    RunEvolves(s, calls);
  }

  /** Release, refund and update all fail on a released or refunded record,
      leaving the state as it was; release and an admin's refund fail with
      FundsReleased, and an admin's otherwise valid update with
      UpdateNotAllowed. */
  lemma TerminalRejectsOperations(s: State, caller: Principal, height: int, id: int,
                                  verified: bool, reason: string, amount: int, deadline: int)
    requires id in s.escrows && s.escrows[id].status != Locked
    ensures VerifyAndRelease(s, height, id, verified) == Step(s, Err(FundsReleased))
    ensures RefundEscrow(s, caller, id, reason)
         == Step(s, Err(if caller == s.adminPrincipal then FundsReleased else NotAuthorized))
    ensures UpdateEscrow(s, caller, height, id, amount, deadline).result.Err?
    ensures UpdateEscrow(s, caller, height, id, amount, deadline).state == s
    ensures caller == s.adminPrincipal && amount > 0 && deadline > height
        ==> UpdateEscrow(s, caller, height, id, amount, deadline).result == Err(UpdateNotAllowed)
  {
  }

  // ---------------------------------------------------------------------
  // The escrow count

  lemma {:induction false} DenseMapSize<V>(m: map<int, V>, n: nat)
    requires forall id :: id in m <==> 0 <= id < n
    ensures |m| == n
    decreases n
  {
    if n == 0 {
      assert forall k :: k !in m;
      assert m == map[];
    } else {
      var m' := m - {n - 1};
      assert m'.Keys == m.Keys - {n - 1};
      DenseMapSize(m', n - 1);
    }
  }

  /** With dense IDs the counter equals the number of records. */
  lemma CountIsNumberOfEscrows(s: State)
    ensures Inv(s) ==> |s.escrows| == s.nextEscrowId
  {
    if Inv(s) {
      DenseMapSize(s.escrows, s.nextEscrowId);
    }
  }

  /** The cap is not an invariant: an admin may lower it below the counter. */
  lemma CapMayFallBelowCounter()
    ensures
      var s := CreateEscrow(Initial(), "ST1TEST", 0,
                 CreateArgs(1, 1000, "ST2VENDOR", 100, 50, "Roof repair", "multisig", 3, "ST3ORACLE")).state;
      var t := CreateEscrow(s, "ST1TEST", 0,
                 CreateArgs(2, 2000, "ST4VENDOR", 200, 60, "Elevator fix", "oracle", 2, "ST5ORACLE")).state;
      var u := SetMaxEscrows(t, InitialAdmin, 1).state;
      Inv(u) && u.nextEscrowId == 2 && u.maxEscrows == 1
  {
    var a1 := CreateArgs(1, 1000, "ST2VENDOR", 100, 50, "Roof repair", "multisig", 3, "ST3ORACLE");
    var a2 := CreateArgs(2, 2000, "ST4VENDOR", 200, 60, "Elevator fix", "oracle", 2, "ST5ORACLE");
    var s := CreateEscrow(Initial(), "ST1TEST", 0, a1).state;
    InitialInv();
    CreatePreservesInv(Initial(), "ST1TEST", 0, a1);
    CreatePreservesInv(s, "ST1TEST", 0, a2);
    var t := CreateEscrow(s, "ST1TEST", 0, a2).state;
    SettersPreserveInv(t, InitialAdmin, "", 1, 0);
  }
}
