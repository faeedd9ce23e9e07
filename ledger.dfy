/** The escrow ledger as a state machine over values: one function per
    operation, from the state before the call (plus the caller and the
    current block height) to the state after it and the result returned.
    Every operation validates first and changes nothing unless all of its
    guards hold. */
module Ledger {
  import opened EscrowTypes
  import opened Guards

  const InitialMaxEscrows: int := 1000
  const InitialEscrowFee: int := 500
  const InitialAdmin: Principal := "ST1ADMIN"

  /** The ledger's configuration, its two maps and its transfer log. */
  datatype State = State(
    nextEscrowId: nat,
    maxEscrows: int,
    escrowFee: int,
    adminPrincipal: Principal,
    escrows: map<int, Escrow>,
    escrowUpdates: map<int, EscrowUpdate>,
    stxTransfers: seq<Transfer>)

  /** The state after a call together with what the call returned. */
  datatype Step<+T> = Step(state: State, result: Result<T>)

  /** The state a freshly reset ledger starts from. */
  function Initial(): (r: State)
  {
    State(0, InitialMaxEscrows, InitialEscrowFee, InitialAdmin, map[], map[], [])
  }

  /** The three admin-settable configuration values agree. */
  predicate SameConfig(s: State, t: State)
  {
    s.maxEscrows == t.maxEscrows && s.escrowFee == t.escrowFee && s.adminPrincipal == t.adminPrincipal
  }

  /** m' holds the keys of m plus id, and agrees with m away from id. */
  predicate SameExcept<V(==)>(m: map<int, V>, m': map<int, V>, id: int)
  {
    && m'.Keys == m.Keys + {id}
    && forall k :: k in m && k != id ==> k in m' && m'[k] == m[k]
  }

  // ---------------------------------------------------------------------
  // createEscrow

  /** Every one of the ten creation checks holds. */
  predicate CreateAllowed(s: State, caller: Principal, height: int, a: CreateArgs)
  {
    && s.nextEscrowId < s.maxEscrows
    && a.proposalId > 0
    && a.amount > 0
    && a.vendor != caller
    && a.deadline > height
    && 0 < a.quorum <= 100
    && 0 < |a.description| <= 200
    && ParseVerificationMethod(a.verificationMethod).Some?
    && 1 < a.multisigCount <= 10
    && a.oracle != caller
  }

  /** The creation checks, in the order they are made. */
  function CreateGuards(s: State, caller: Principal, height: int, a: CreateArgs): (r: seq<Guard>)
  {
    [ Guard(s.nextEscrowId < s.maxEscrows, MaxEscrowsExceeded),
      Guard(a.proposalId > 0, InvalidProposalId),
      Guard(a.amount > 0, InvalidAmount),
      Guard(a.vendor != caller, InvalidVendor),
      Guard(a.deadline > height, InvalidDeadline),
      Guard(0 < a.quorum <= 100, InvalidQuorum),
      Guard(0 < |a.description| <= 200, InvalidDescription),
      Guard(ParseVerificationMethod(a.verificationMethod).Some?, InvalidVerificationMethod),
      Guard(1 < a.multisigCount <= 10, InvalidMultisigCount),
      Guard(a.oracle != caller, InvalidOracle) ]
  }

  /** The creation checks as the ledger runs them, each returning early. */
  function CreateCheck(s: State, caller: Principal, height: int, a: CreateArgs): (r: Option<Error>)
  {
    if s.nextEscrowId >= s.maxEscrows then Some(MaxEscrowsExceeded)
    else if a.proposalId <= 0 then Some(InvalidProposalId)
    else if a.amount <= 0 then Some(InvalidAmount)
    else if a.vendor == caller then Some(InvalidVendor)
    else if a.deadline <= height then Some(InvalidDeadline)
    else if a.quorum <= 0 || a.quorum > 100 then Some(InvalidQuorum)
    else if |a.description| == 0 || |a.description| > 200 then Some(InvalidDescription)
    else if ParseVerificationMethod(a.verificationMethod).None? then Some(InvalidVerificationMethod)
    else if a.multisigCount <= 1 || a.multisigCount > 10 then Some(InvalidMultisigCount)
    else if a.oracle == caller then Some(InvalidOracle)
    else None
  }

  /** The early-return chain reports the first failing creation guard. */
  lemma CreateCheckIsFirstFailure(s: State, caller: Principal, height: int, a: CreateArgs)
    ensures CreateCheck(s, caller, height, a) == FirstFailure(CreateGuards(s, caller, height, a))
    ensures CreateCheck(s, caller, height, a).None? <==> CreateAllowed(s, caller, height, a)
  {
    var gs := CreateGuards(s, caller, height, a);
    if !gs[0].ok { FirstFailureAt(gs, 0); }
    else if !gs[1].ok { FirstFailureAt(gs, 1); }
    else if !gs[2].ok { FirstFailureAt(gs, 2); }
    else if !gs[3].ok { FirstFailureAt(gs, 3); }
    else if !gs[4].ok { FirstFailureAt(gs, 4); }
    else if !gs[5].ok { FirstFailureAt(gs, 5); }
    else if !gs[6].ok { FirstFailureAt(gs, 6); }
    else if !gs[7].ok { FirstFailureAt(gs, 7); }
    else if !gs[8].ok { FirstFailureAt(gs, 8); }
    else if !gs[9].ok { FirstFailureAt(gs, 9); }
    else { assert PassesBefore(gs, |gs|); }
  }

  /** The record a successful create stores: status locked, locked at the
      current height, no verifier and no refund reason, every other field
      as passed. */
  predicate IsNewRecord(e: Escrow, height: int, a: CreateArgs)
  {
    && e.proposalId == a.proposalId
    && e.amount == a.amount
    && e.vendor == a.vendor
    && e.lockedAt == height
    && e.deadline == a.deadline
    && e.status == Locked
    && e.verifier == None
    && e.quorum == a.quorum
    && e.description == a.description
    && MethodName(e.verificationMethod) == a.verificationMethod
    && e.multisigCount == a.multisigCount
    && e.oracle == Some(a.oracle)
    && e.refundReason == None
  }

  /** createEscrow: on success, the fee and the amount are requested from the
      caller, in that order, and the record is stored under the next ID. */
  function CreateEscrow(s: State, caller: Principal, height: int, a: CreateArgs): (out: Step<int>)
    ensures out.result.Ok? <==> CreateAllowed(s, caller, height, a)
    ensures out.result.Err? ==>
      && out.state == s
      && FirstFailure(CreateGuards(s, caller, height, a)) == Some(out.result.error)
    ensures out.result.Ok? ==>
      && out.result.value == s.nextEscrowId
      && out.state.nextEscrowId == s.nextEscrowId + 1
      && out.state.nextEscrowId <= out.state.maxEscrows
      && SameExcept(s.escrows, out.state.escrows, s.nextEscrowId)
      && IsNewRecord(out.state.escrows[s.nextEscrowId], height, a)
      && out.state.escrowUpdates == s.escrowUpdates
      && SameConfig(s, out.state)
      && out.state.stxTransfers == s.stxTransfers
           + [Transfer(s.escrowFee, caller, s.adminPrincipal), Transfer(a.amount, caller, Contract)]
  {
    CreateCheckIsFirstFailure(s, caller, height, a);
    match CreateCheck(s, caller, height, a)
    case Some(e) => Step(s, Err(e))
    case None =>
      var id := s.nextEscrowId;
      var record := Escrow(a.proposalId, a.amount, a.vendor, height, a.deadline, Locked, None,
                           a.quorum, a.description, ParseVerificationMethod(a.verificationMethod).value,
                           a.multisigCount, Some(a.oracle), None);
      var log := s.stxTransfers
                 + [Transfer(s.escrowFee, caller, s.adminPrincipal)]
                 + [Transfer(a.amount, caller, Contract)];
      Step(s.(escrows := s.escrows[id := record], nextEscrowId := id + 1, stxTransfers := log), Ok(id))
  }

  // ---------------------------------------------------------------------
  // updateEscrow

  predicate UpdateAllowed(s: State, caller: Principal, height: int, id: int, amount: int, deadline: int)
  {
    && id in s.escrows
    && caller == s.adminPrincipal
    && amount > 0
    && deadline > height
    && s.escrows[id].status == Locked
  }

  function UpdateGuards(s: State, caller: Principal, height: int, id: int, amount: int, deadline: int): (r: seq<Guard>)
  {
    [ Guard(id in s.escrows, EscrowNotFound),
      Guard(caller == s.adminPrincipal, NotAuthorized),
      Guard(amount > 0, InvalidAmount),
      Guard(deadline > height, InvalidDeadline),
      Guard(id !in s.escrows || s.escrows[id].status == Locked, UpdateNotAllowed) ]
  }

  function UpdateCheck(s: State, caller: Principal, height: int, id: int, amount: int, deadline: int): (r: Option<Error>)
  {
    if id !in s.escrows then Some(EscrowNotFound)
    else if caller != s.adminPrincipal then Some(NotAuthorized)
    else if amount <= 0 then Some(InvalidAmount)
    else if deadline <= height then Some(InvalidDeadline)
    else if s.escrows[id].status != Locked then Some(UpdateNotAllowed)
    else None
  }

  lemma UpdateCheckIsFirstFailure(s: State, caller: Principal, height: int, id: int, amount: int, deadline: int)
    ensures UpdateCheck(s, caller, height, id, amount, deadline) == FirstFailure(UpdateGuards(s, caller, height, id, amount, deadline))
    ensures UpdateCheck(s, caller, height, id, amount, deadline).None? <==> UpdateAllowed(s, caller, height, id, amount, deadline)
  {
    var gs := UpdateGuards(s, caller, height, id, amount, deadline);
    if !gs[0].ok { FirstFailureAt(gs, 0); }
    else if !gs[1].ok { FirstFailureAt(gs, 1); }
    else if !gs[2].ok { FirstFailureAt(gs, 2); }
    else if !gs[3].ok { FirstFailureAt(gs, 3); }
    else if !gs[4].ok { FirstFailureAt(gs, 4); }
    else { assert PassesBefore(gs, |gs|); }
  }

  /** updateEscrow: the admin amends amount and deadline of a locked escrow;
      the audit entry for that ID is replaced as a whole. */
  function UpdateEscrow(s: State, caller: Principal, height: int, id: int, amount: int, deadline: int): (out: Step<bool>)
    ensures out.result.Ok? <==> UpdateAllowed(s, caller, height, id, amount, deadline)
    ensures out.result.Err? ==>
      && out.state == s
      && FirstFailure(UpdateGuards(s, caller, height, id, amount, deadline)) == Some(out.result.error)
    ensures out.result.Ok? ==>
      && out.result.value
      && SameExcept(s.escrows, out.state.escrows, id)
      && out.state.escrows[id] == s.escrows[id].(amount := amount, deadline := deadline)
      && SameExcept(s.escrowUpdates, out.state.escrowUpdates, id)
      && out.state.escrowUpdates[id] == EscrowUpdate(amount, deadline, height, caller)
      && out.state.nextEscrowId == s.nextEscrowId
      && SameConfig(s, out.state)
      && out.state.stxTransfers == s.stxTransfers
  {
    UpdateCheckIsFirstFailure(s, caller, height, id, amount, deadline);
    match UpdateCheck(s, caller, height, id, amount, deadline)
    case Some(e) => Step(s, Err(e))
    case None =>
      var updated := s.escrows[id].(amount := amount, deadline := deadline);
      Step(s.(escrows := s.escrows[id := updated],
              escrowUpdates := s.escrowUpdates[id := EscrowUpdate(amount, deadline, height, caller)]),
           Ok(true))
  }

  // ---------------------------------------------------------------------
  // verifyAndRelease (the caller is not consulted)

  predicate ReleaseAllowed(s: State, height: int, id: int, verified: bool)
  {
    && id in s.escrows
    && s.escrows[id].status == Locked
    && height < s.escrows[id].deadline
    && verified
  }

  function ReleaseGuards(s: State, height: int, id: int, verified: bool): (r: seq<Guard>)
  {
    [ Guard(id in s.escrows, EscrowNotFound),
      Guard(id !in s.escrows || s.escrows[id].status == Locked, FundsReleased),
      Guard(id !in s.escrows || height < s.escrows[id].deadline, ExpiredEscrow),
      Guard(verified, VerificationFailed) ]
  }

  function ReleaseCheck(s: State, height: int, id: int, verified: bool): (r: Option<Error>)
  {
    if id !in s.escrows then Some(EscrowNotFound)
    else if s.escrows[id].status != Locked then Some(FundsReleased)
    else if height >= s.escrows[id].deadline then Some(ExpiredEscrow)
    else if !verified then Some(VerificationFailed)
    else None
  }

  lemma ReleaseCheckIsFirstFailure(s: State, height: int, id: int, verified: bool)
    ensures ReleaseCheck(s, height, id, verified) == FirstFailure(ReleaseGuards(s, height, id, verified))
    ensures ReleaseCheck(s, height, id, verified).None? <==> ReleaseAllowed(s, height, id, verified)
  {
    var gs := ReleaseGuards(s, height, id, verified);
    if !gs[0].ok { FirstFailureAt(gs, 0); }
    else if !gs[1].ok { FirstFailureAt(gs, 1); }
    else if !gs[2].ok { FirstFailureAt(gs, 2); }
    else if !gs[3].ok { FirstFailureAt(gs, 3); }
    else { assert PassesBefore(gs, |gs|); }
  }

  /** verifyAndRelease: pays the locked amount out to the vendor and marks the
      escrow released; nothing else changes. */
  function VerifyAndRelease(s: State, height: int, id: int, verified: bool): (out: Step<bool>)
    ensures out.result.Ok? <==> ReleaseAllowed(s, height, id, verified)
    ensures out.result.Err? ==>
      && out.state == s
      && FirstFailure(ReleaseGuards(s, height, id, verified)) == Some(out.result.error)
    ensures out.result.Ok? ==>
      && out.result.value
      && SameExcept(s.escrows, out.state.escrows, id)
      && out.state.escrows[id] == s.escrows[id].(status := Released)
      && out.state.stxTransfers == s.stxTransfers + [Transfer(s.escrows[id].amount, Contract, s.escrows[id].vendor)]
      && out.state.escrowUpdates == s.escrowUpdates
      && out.state.nextEscrowId == s.nextEscrowId
      && SameConfig(s, out.state)
  {
    ReleaseCheckIsFirstFailure(s, height, id, verified);
    match ReleaseCheck(s, height, id, verified)
    case Some(e) => Step(s, Err(e))
    case None =>
      var escrow := s.escrows[id];
      Step(s.(stxTransfers := s.stxTransfers + [Transfer(escrow.amount, Contract, escrow.vendor)],
              escrows := s.escrows[id := escrow.(status := Released)]),
           Ok(true))
  }

  // ---------------------------------------------------------------------
  // refundEscrow

  predicate RefundAllowed(s: State, caller: Principal, id: int, reason: string)
  {
    && id in s.escrows
    && caller == s.adminPrincipal
    && s.escrows[id].status == Locked
    && 0 < |reason| <= 100
  }

  function RefundGuards(s: State, caller: Principal, id: int, reason: string): (r: seq<Guard>)
  {
    [ Guard(id in s.escrows, EscrowNotFound),
      Guard(caller == s.adminPrincipal, NotAuthorized),
      Guard(id !in s.escrows || s.escrows[id].status == Locked, FundsReleased),
      Guard(0 < |reason| <= 100, InvalidRefundReason) ]
  }

  function RefundCheck(s: State, caller: Principal, id: int, reason: string): (r: Option<Error>)
  {
    if id !in s.escrows then Some(EscrowNotFound)
    else if caller != s.adminPrincipal then Some(NotAuthorized)
    else if s.escrows[id].status != Locked then Some(FundsReleased)
    else if |reason| == 0 || |reason| > 100 then Some(InvalidRefundReason)
    else None
  }

  lemma RefundCheckIsFirstFailure(s: State, caller: Principal, id: int, reason: string)
    ensures RefundCheck(s, caller, id, reason) == FirstFailure(RefundGuards(s, caller, id, reason))
    ensures RefundCheck(s, caller, id, reason).None? <==> RefundAllowed(s, caller, id, reason)
  {
    var gs := RefundGuards(s, caller, id, reason);
    if !gs[0].ok { FirstFailureAt(gs, 0); }
    else if !gs[1].ok { FirstFailureAt(gs, 1); }
    else if !gs[2].ok { FirstFailureAt(gs, 2); }
    else if !gs[3].ok { FirstFailureAt(gs, 3); }
    else { assert PassesBefore(gs, |gs|); }
  }

  /** refundEscrow: the admin returns the locked amount to the contribution
      manager, marks the escrow refunded and records the reason. */
  function RefundEscrow(s: State, caller: Principal, id: int, reason: string): (out: Step<bool>)
    ensures out.result.Ok? <==> RefundAllowed(s, caller, id, reason)
    ensures out.result.Err? ==>
      && out.state == s
      && FirstFailure(RefundGuards(s, caller, id, reason)) == Some(out.result.error)
    ensures out.result.Ok? ==>
      && out.result.value
      && SameExcept(s.escrows, out.state.escrows, id)
      && out.state.escrows[id] == s.escrows[id].(status := Refunded, refundReason := Some(reason))
      && out.state.stxTransfers == s.stxTransfers + [Transfer(s.escrows[id].amount, Contract, ContributionManager)]
      && out.state.escrowUpdates == s.escrowUpdates
      && out.state.nextEscrowId == s.nextEscrowId
      && SameConfig(s, out.state)
  {
    RefundCheckIsFirstFailure(s, caller, id, reason);
    match RefundCheck(s, caller, id, reason)
    case Some(e) => Step(s, Err(e))
    case None =>
      var escrow := s.escrows[id];
      Step(s.(stxTransfers := s.stxTransfers + [Transfer(escrow.amount, Contract, ContributionManager)],
              escrows := s.escrows[id := escrow.(status := Refunded, refundReason := Some(reason))]),
           Ok(true))
  }

  // ---------------------------------------------------------------------
  // Admin setters

  /** setAdminPrincipal: only the current admin may hand the role over. */
  function SetAdminPrincipal(s: State, caller: Principal, newAdmin: Principal): (out: Step<bool>)
    ensures out.result.Ok? <==> caller == s.adminPrincipal
    ensures out.result.Err? ==> out.state == s && out.result.error == NotAuthorized
    ensures out.result.Ok? ==>
      && out.result.value
      && out.state.adminPrincipal == newAdmin
      && out.state == s.(adminPrincipal := out.state.adminPrincipal)
  {
    if caller != s.adminPrincipal then Step(s, Err(NotAuthorized))
    else Step(s.(adminPrincipal := newAdmin), Ok(true))
  }

  function SetMaxEscrowsGuards(s: State, caller: Principal, newMax: int): (r: seq<Guard>)
  {
    [ Guard(caller == s.adminPrincipal, NotAuthorized), Guard(newMax > 0, InvalidUpdateParam) ]
  }

  /** setMaxEscrows: the admin sets a positive cap; the cap may fall below
      the number of escrows already created. */
  function SetMaxEscrows(s: State, caller: Principal, newMax: int): (out: Step<bool>)
    ensures out.result.Ok? <==> caller == s.adminPrincipal && newMax > 0
    ensures out.result.Err? ==>
      && out.state == s
      && FirstFailure(SetMaxEscrowsGuards(s, caller, newMax)) == Some(out.result.error)
    ensures out.result.Ok? ==>
      && out.result.value
      && out.state.maxEscrows == newMax
      && out.state == s.(maxEscrows := out.state.maxEscrows)
  {
    var gs := SetMaxEscrowsGuards(s, caller, newMax);
    if caller != s.adminPrincipal then FirstFailureAt(gs, 0); Step(s, Err(NotAuthorized))
    else if newMax <= 0 then FirstFailureAt(gs, 1); Step(s, Err(InvalidUpdateParam))
    else Step(s.(maxEscrows := newMax), Ok(true))
  }

  function SetEscrowFeeGuards(s: State, caller: Principal, newFee: int): (r: seq<Guard>)
  {
    [ Guard(caller == s.adminPrincipal, NotAuthorized), Guard(newFee >= 0, InvalidUpdateParam) ]
  }

  /** setEscrowFee: the admin sets a non-negative fee (zero included). */
  function SetEscrowFee(s: State, caller: Principal, newFee: int): (out: Step<bool>)
    ensures out.result.Ok? <==> caller == s.adminPrincipal && newFee >= 0
    ensures out.result.Err? ==>
      && out.state == s
      && FirstFailure(SetEscrowFeeGuards(s, caller, newFee)) == Some(out.result.error)
    ensures out.result.Ok? ==>
      && out.result.value
      && out.state.escrowFee == newFee
      && out.state == s.(escrowFee := out.state.escrowFee)
  {
    var gs := SetEscrowFeeGuards(s, caller, newFee);
    if caller != s.adminPrincipal then FirstFailureAt(gs, 0); Step(s, Err(NotAuthorized))
    else if newFee < 0 then FirstFailureAt(gs, 1); Step(s, Err(InvalidUpdateParam))
    else Step(s.(escrowFee := newFee), Ok(true))
  }
}
