/** The escrow ledger as an object whose methods update its fields in place:
    configuration, the escrow and audit maps, the transfer log, and the
    caller identity and block height that its clients set before a call. */
module FundEscrow {
  import opened EscrowTypes
  import Ledger
  import LedgerInvariants

  class FundEscrowMock {
    var nextEscrowId: nat
    var maxEscrows: int
    var escrowFee: int
    var adminPrincipal: Principal
    var escrows: map<int, Escrow>
    var escrowUpdates: map<int, EscrowUpdate>
    var blockHeight: int
    var caller: Principal
    var stxTransfers: seq<Transfer>

    /** The ledger state held in the fields. */
    function Snapshot(): (r: Ledger.State)
      reads this
    {
      Ledger.State(nextEscrowId, maxEscrows, escrowFee, adminPrincipal, escrows, escrowUpdates, stxTransfers)
    }

    ghost predicate Valid()
      reads this
    {
      LedgerInvariants.Inv(Snapshot())
    }

    constructor ()
      ensures Snapshot() == Ledger.Initial() && blockHeight == 0 && caller == "ST1TEST"
      ensures Valid()
    {
      new;
      Reset();
    }

    /** Puts every field back to its initial value and empties the log. */
    method Reset()
      modifies this
      ensures Snapshot() == Ledger.Initial() && blockHeight == 0 && caller == "ST1TEST"
      ensures Valid()
    {
      nextEscrowId := 0;
      maxEscrows := Ledger.InitialMaxEscrows;
      escrowFee := Ledger.InitialEscrowFee;
      adminPrincipal := Ledger.InitialAdmin;
      escrows := map[];
      escrowUpdates := map[];
      blockHeight := 0;
      caller := "ST1TEST";
      stxTransfers := [];
      LedgerInvariants.InitialInv();
    }

    method SetAdminPrincipal(newAdmin: Principal) returns (r: Result<bool>)
      modifies this`adminPrincipal
      ensures r == Ledger.SetAdminPrincipal(old(Snapshot()), caller, newAdmin).result
      ensures Snapshot() == Ledger.SetAdminPrincipal(old(Snapshot()), caller, newAdmin).state
      ensures old(Valid()) ==> Valid()
    {
      if caller != adminPrincipal { return Err(NotAuthorized); }
      adminPrincipal := newAdmin;
      return Ok(true);
    }

    method SetMaxEscrows(newMax: int) returns (r: Result<bool>)
      modifies this`maxEscrows
      ensures r == Ledger.SetMaxEscrows(old(Snapshot()), caller, newMax).result
      ensures Snapshot() == Ledger.SetMaxEscrows(old(Snapshot()), caller, newMax).state
      ensures old(Valid()) ==> Valid()
    {
      if caller != adminPrincipal { return Err(NotAuthorized); }
      if newMax <= 0 { return Err(InvalidUpdateParam); }
      maxEscrows := newMax;
      return Ok(true);
    }

    method SetEscrowFee(newFee: int) returns (r: Result<bool>)
      modifies this`escrowFee
      ensures r == Ledger.SetEscrowFee(old(Snapshot()), caller, newFee).result
      ensures Snapshot() == Ledger.SetEscrowFee(old(Snapshot()), caller, newFee).state
      ensures old(Valid()) ==> Valid()
    {
      if caller != adminPrincipal { return Err(NotAuthorized); }
      if newFee < 0 { return Err(InvalidUpdateParam); }
      escrowFee := newFee;
      return Ok(true);
    }

    method CreateEscrow(proposalId: int, amount: int, vendor: Principal, deadline: int, quorum: int,
                        description: string, verificationMethod: string, multisigCount: int, oracle: Principal)
      returns (r: Result<int>)
      modifies this`escrows, this`nextEscrowId, this`stxTransfers
      ensures
        var args := CreateArgs(proposalId, amount, vendor, deadline, quorum, description,
                               verificationMethod, multisigCount, oracle);
        && r == Ledger.CreateEscrow(old(Snapshot()), caller, blockHeight, args).result
        && Snapshot() == Ledger.CreateEscrow(old(Snapshot()), caller, blockHeight, args).state
      ensures old(Valid()) ==> Valid()
    {
      if nextEscrowId >= maxEscrows { return Err(MaxEscrowsExceeded); }
      if proposalId <= 0 { return Err(InvalidProposalId); }
      if amount <= 0 { return Err(InvalidAmount); }
      if vendor == caller { return Err(InvalidVendor); }
      if deadline <= blockHeight { return Err(InvalidDeadline); }
      if quorum <= 0 || quorum > 100 { return Err(InvalidQuorum); }
      if |description| == 0 || |description| > 200 { return Err(InvalidDescription); }
      var vm := ParseVerificationMethod(verificationMethod);
      if vm.None? { return Err(InvalidVerificationMethod); }
      if multisigCount <= 1 || multisigCount > 10 { return Err(InvalidMultisigCount); }
      if oracle == caller { return Err(InvalidOracle); }

      ghost var before := Snapshot();
      stxTransfers := stxTransfers + [Transfer(escrowFee, caller, adminPrincipal)];
      stxTransfers := stxTransfers + [Transfer(amount, caller, Contract)];
      var id := nextEscrowId;
      var escrow := Escrow(proposalId, amount, vendor, blockHeight, deadline, Locked, None,
                           quorum, description, vm.value, multisigCount, Some(oracle), None);
      escrows := escrows[id := escrow];
      nextEscrowId := nextEscrowId + 1;
      if LedgerInvariants.Inv(before) {
        LedgerInvariants.CreatePreservesInv(before, caller, blockHeight,
          CreateArgs(proposalId, amount, vendor, deadline, quorum, description,
                     verificationMethod, multisigCount, oracle));
      }
      return Ok(id);
    }

    /** The record stored under id; present exactly for the IDs handed out. */
    function GetEscrow(id: int): (r: Option<Escrow>)
      reads this
      ensures r.Some? ==> id in escrows && r.value == escrows[id]
      ensures Valid() ==> (r.Some? <==> 0 <= id < nextEscrowId)
      ensures Valid() && r.Some? ==> LedgerInvariants.WellFormed(r.value)
    {
      if id in escrows then Some(escrows[id]) else None
    }

    method UpdateEscrow(id: int, updateAmount: int, updateDeadline: int) returns (r: Result<bool>)
      modifies this`escrows, this`escrowUpdates
      ensures r == Ledger.UpdateEscrow(old(Snapshot()), caller, blockHeight, id, updateAmount, updateDeadline).result
      ensures Snapshot() == Ledger.UpdateEscrow(old(Snapshot()), caller, blockHeight, id, updateAmount, updateDeadline).state
      ensures old(Valid()) ==> Valid()
    {
      var escrow := GetEscrow(id);
      if escrow.None? { return Err(EscrowNotFound); }
      if caller != adminPrincipal { return Err(NotAuthorized); }
      if updateAmount <= 0 { return Err(InvalidAmount); }
      if updateDeadline <= blockHeight { return Err(InvalidDeadline); }
      if escrow.value.status != Locked { return Err(UpdateNotAllowed); }

      ghost var before := Snapshot();
      var updated := escrow.value.(amount := updateAmount, deadline := updateDeadline);
      escrows := escrows[id := updated];
      escrowUpdates := escrowUpdates[id := EscrowUpdate(updateAmount, updateDeadline, blockHeight, caller)];
      if LedgerInvariants.Inv(before) {
        LedgerInvariants.UpdatePreservesInv(before, caller, blockHeight, id, updateAmount, updateDeadline);
      }
      return Ok(true);
    }

    method VerifyAndRelease(id: int, verified: bool) returns (r: Result<bool>)
      modifies this`escrows, this`stxTransfers
      ensures r == Ledger.VerifyAndRelease(old(Snapshot()), blockHeight, id, verified).result
      ensures Snapshot() == Ledger.VerifyAndRelease(old(Snapshot()), blockHeight, id, verified).state
      ensures old(Valid()) ==> Valid()
    {
      var escrow := GetEscrow(id);
      if escrow.None? { return Err(EscrowNotFound); }
      if escrow.value.status != Locked { return Err(FundsReleased); }
      if blockHeight >= escrow.value.deadline { return Err(ExpiredEscrow); }
      if !verified { return Err(VerificationFailed); }

      ghost var before := Snapshot();
      stxTransfers := stxTransfers + [Transfer(escrow.value.amount, Contract, escrow.value.vendor)];
      escrows := escrows[id := escrow.value.(status := Released)];
      if LedgerInvariants.Inv(before) {
        LedgerInvariants.ReleasePreservesInv(before, blockHeight, id, verified);
      }
      return Ok(true);
    }

    method RefundEscrow(id: int, reason: string) returns (r: Result<bool>)
      modifies this`escrows, this`stxTransfers
      ensures r == Ledger.RefundEscrow(old(Snapshot()), caller, id, reason).result
      ensures Snapshot() == Ledger.RefundEscrow(old(Snapshot()), caller, id, reason).state
      ensures old(Valid()) ==> Valid()
    {
      var escrow := GetEscrow(id);
      if escrow.None? { return Err(EscrowNotFound); }
      if caller != adminPrincipal { return Err(NotAuthorized); }
      if escrow.value.status != Locked { return Err(FundsReleased); }
      if |reason| == 0 || |reason| > 100 { return Err(InvalidRefundReason); }

      ghost var before := Snapshot();
      stxTransfers := stxTransfers + [Transfer(escrow.value.amount, Contract, ContributionManager)];
      escrows := escrows[id := escrow.value.(status := Refunded, refundReason := Some(reason))];
      if LedgerInvariants.Inv(before) {
        LedgerInvariants.RefundPreservesInv(before, caller, id, reason);
      }
      return Ok(true);
    }

    /** The number of escrows ever created, which is the number of records. */
    function GetEscrowCount(): (r: Result<int>)
      reads this
      ensures r.Ok? && r.value == nextEscrowId
      ensures Valid() ==> r.value == |escrows|
    {
      LedgerInvariants.CountIsNumberOfEscrows(Snapshot());
      Ok(nextEscrowId)
    }
  }
}
