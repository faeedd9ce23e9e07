/** The ledger's documented scenarios, stated over the value model and, for
    one of them, driven through the object model. */
module Scenarios {
  import opened EscrowTypes
  import opened Ledger
  import FundEscrow

  const Tester: Principal := "ST1TEST"

  /** The standard roof-repair request used throughout. */
  function RoofRepair(): CreateArgs
  {
    CreateArgs(1, 1000, "ST2VENDOR", 100, 50, "Roof repair", "multisig", 3, "ST3ORACLE")
  }

  /** The ledger right after the roof-repair escrow was created at height 0. */
  function AfterRoofRepair(): State
  {
    CreateEscrow(Initial(), Tester, 0, RoofRepair()).state
  }

  lemma CreateScenario()
    ensures CreateEscrow(Initial(), Tester, 0, RoofRepair()).result == Ok(0)
    ensures 0 in AfterRoofRepair().escrows
    ensures AfterRoofRepair().escrows[0]
         == Escrow(1, 1000, "ST2VENDOR", 0, 100, Locked, None, 50, "Roof repair", Multisig, 3, Some("ST3ORACLE"), None)
    ensures AfterRoofRepair().stxTransfers
         == [Transfer(500, Tester, InitialAdmin), Transfer(1000, Tester, Contract)]
  {
  }

  /** Each creation check, broken on its own, reports its own error. */
  lemma CreateRejectionScenarios()
    ensures CreateEscrow(Initial(), Tester, 0, RoofRepair().(proposalId := 0)).result == Err(InvalidProposalId)
    ensures CreateEscrow(Initial(), Tester, 0, RoofRepair().(amount := 0)).result == Err(InvalidAmount)
    ensures CreateEscrow(Initial(), Tester, 0, RoofRepair().(vendor := Tester)).result == Err(InvalidVendor)
    ensures CreateEscrow(Initial(), Tester, 100, RoofRepair().(deadline := 99)).result == Err(InvalidDeadline)
    ensures CreateEscrow(Initial(), Tester, 0, RoofRepair().(quorum := 101)).result == Err(InvalidQuorum)
    ensures CreateEscrow(Initial(), Tester, 0, RoofRepair().(description := "")).result == Err(InvalidDescription)
    ensures CreateEscrow(Initial(), Tester, 0, RoofRepair().(verificationMethod := "invalid")).result
         == Err(InvalidVerificationMethod)
    ensures CreateEscrow(Initial(), Tester, 0, RoofRepair().(multisigCount := 11)).result == Err(InvalidMultisigCount)
    ensures CreateEscrow(Initial(), Tester, 0, RoofRepair().(oracle := Tester)).result == Err(InvalidOracle)
  {
    RejectedAt(0, RoofRepair().(proposalId := 0), InvalidProposalId);
    RejectedAt(0, RoofRepair().(amount := 0), InvalidAmount);
    RejectedAt(0, RoofRepair().(vendor := Tester), InvalidVendor);
    RejectedAt(100, RoofRepair().(deadline := 99), InvalidDeadline);
    RejectedAt(0, RoofRepair().(quorum := 101), InvalidQuorum);
    RejectedAt(0, RoofRepair().(description := ""), InvalidDescription);
    RejectedAt(0, RoofRepair().(verificationMethod := "invalid"), InvalidVerificationMethod);
    RejectedAt(0, RoofRepair().(multisigCount := 11), InvalidMultisigCount);
    RejectedAt(0, RoofRepair().(oracle := Tester), InvalidOracle);
  }

  /** A create on a fresh ledger whose checks report e fails with e. */
  lemma RejectedAt(height: int, a: CreateArgs, e: Error)
    requires CreateCheck(Initial(), Tester, height, a) == Some(e)
    ensures CreateEscrow(Initial(), Tester, height, a).result == Err(e)
  {
  }

  /** When the cap is reached, creation fails with MaxEscrowsExceeded even if
      every other argument is invalid too. */
  lemma CapCheckedFirst(s: State, caller: Principal, height: int, a: CreateArgs)
    requires s.nextEscrowId >= s.maxEscrows
    ensures CreateEscrow(s, caller, height, a) == Step(s, Err(MaxEscrowsExceeded))
  {
  }

  lemma UpdateScenarios()
    ensures
      var out := UpdateEscrow(AfterRoofRepair(), InitialAdmin, 0, 0, 1500, 150);
      && out.result == Ok(true)
      && out.state.escrows[0].amount == 1500 && out.state.escrows[0].deadline == 150
      && out.state.escrowUpdates[0] == EscrowUpdate(1500, 150, 0, InitialAdmin)
    ensures UpdateEscrow(AfterRoofRepair(), Tester, 0, 0, 1500, 150).result == Err(NotAuthorized)
    ensures UpdateEscrow(Initial(), InitialAdmin, 0, 99, 1500, 150).result == Err(EscrowNotFound)
  {
  }

  lemma ReleaseScenarios()
    ensures
      var out := VerifyAndRelease(AfterRoofRepair(), 50, 0, true);
      && out.result == Ok(true)
      && out.state.escrows[0].status == Released
      && Transfer(1000, Contract, "ST2VENDOR") in out.state.stxTransfers
    ensures
      var out := VerifyAndRelease(AfterRoofRepair(), 0, 0, true);
      && out.result == Ok(true)
      && VerifyAndRelease(out.state, 0, 0, true).result == Err(FundsReleased)
      && RefundEscrow(out.state, InitialAdmin, 0, "Work not completed").result == Err(FundsReleased)
    ensures VerifyAndRelease(AfterRoofRepair(), 101, 0, true).result == Err(ExpiredEscrow)
    ensures VerifyAndRelease(AfterRoofRepair(), 0, 0, false).result == Err(VerificationFailed)
  {
    var out := VerifyAndRelease(AfterRoofRepair(), 50, 0, true);
    assert out.state.stxTransfers[2] == Transfer(1000, Contract, "ST2VENDOR");
  }

  lemma RefundScenarios()
    ensures
      var out := RefundEscrow(AfterRoofRepair(), InitialAdmin, 0, "Work not completed");
      && out.result == Ok(true)
      && out.state.escrows[0].status == Refunded
      && out.state.escrows[0].refundReason == Some("Work not completed")
      && Transfer(1000, Contract, ContributionManager) in out.state.stxTransfers
    ensures RefundEscrow(AfterRoofRepair(), Tester, 0, "Work not completed").result == Err(NotAuthorized)
    ensures
      var out := RefundEscrow(AfterRoofRepair(), InitialAdmin, 0, "");
      out == Step(AfterRoofRepair(), Err(InvalidRefundReason)) && out.state.escrows[0].status == Locked
  {
    var out := RefundEscrow(AfterRoofRepair(), InitialAdmin, 0, "Work not completed");
    assert out.state.stxTransfers[2] == Transfer(1000, Contract, ContributionManager);
  }

  lemma CountScenario()
    ensures
      var second := CreateArgs(2, 2000, "ST4VENDOR", 200, 60, "Elevator fix", "oracle", 2, "ST5ORACLE");
      var out := CreateEscrow(AfterRoofRepair(), Tester, 0, second);
      out.result == Ok(1) && out.state.nextEscrowId == 2
  {
  }

  /** The fee transfer carries the fee in force at the time of the call. */
  lemma FeeScenario()
    ensures
      var s := SetEscrowFee(Initial(), InitialAdmin, 1000);
      && s.result == Ok(true)
      && s.state.escrowFee == 1000
      && CreateEscrow(s.state, Tester, 0, RoofRepair()).state.stxTransfers[0] == Transfer(1000, Tester, InitialAdmin)
  {
  }

  /** With a zero fee, creation still requests a transfer of zero. */
  lemma ZeroFeeTransferEmitted()
    ensures
      var s := SetEscrowFee(Initial(), InitialAdmin, 0).state;
      CreateEscrow(s, Tester, 0, RoofRepair()).state.stxTransfers[0] == Transfer(0, Tester, InitialAdmin)
  {
  }

  /** The roof-repair scenario driven through the object: create at height 0,
      release at height 50, then release again. */
  method RoofRepairOnObject() returns (ledger: FundEscrow.FundEscrowMock, first: Result<bool>, second: Result<bool>)
    ensures fresh(ledger)
    ensures first == Ok(true) && second == Err(FundsReleased)
    ensures 0 in ledger.escrows && ledger.escrows[0].status == Released
    ensures ledger.stxTransfers
         == [Transfer(500, Tester, InitialAdmin), Transfer(1000, Tester, Contract), Transfer(1000, Contract, "ST2VENDOR")]
  {
    ledger := new FundEscrow.FundEscrowMock();
    var id := ledger.CreateEscrow(1, 1000, "ST2VENDOR", 100, 50, "Roof repair", "multisig", 3, "ST3ORACLE");
    assert id == Ok(0);
    ledger.blockHeight := 50;
    first := ledger.VerifyAndRelease(0, true);
    second := ledger.VerifyAndRelease(0, true);
  }
}
