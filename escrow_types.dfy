/** Entities, error codes and return shapes of the fund-escrow ledger. */
module EscrowTypes {

  datatype Option<+T> = None | Some(value: T)

  /** An account identity (a Stacks principal, written as text). */
  type Principal = string

  /** The account that holds locked funds. */
  const Contract: Principal := "contract"

  /** The pooled collector that receives refunds. */
  const ContributionManager: Principal := "contribution-manager"

  /** The fixed error taxonomy; Code gives each kind its numeric value. */
  datatype Error =
    | NotAuthorized
    | InvalidProposalId
    | InvalidAmount
    | InvalidVendor
    | EscrowAlreadyExists
    | EscrowNotFound
    | InvalidTimestamp
    | FundsLocked
    | FundsReleased
    | VerificationFailed
    | InvalidVerifier
    | InsufficientBalance
    | TransferFailed
    | InvalidStatus
    | ExpiredEscrow
    | InvalidQuorum
    | InvalidDeadline
    | InvalidDescription
    | MaxEscrowsExceeded
    | InvalidUpdateParam
    | UpdateNotAllowed
    | InvalidRefundReason
    | InvalidVerificationMethod
    | InvalidMultisigCount
    | InvalidOracle

  /** The numeric error code the ledger reports for each kind. */
  function Code(e: Error): (c: int)
    ensures 100 <= c <= 124
    ensures FromCode(c) == Some(e)
  {
    match e
    case NotAuthorized => 100
    case InvalidProposalId => 101
    case InvalidAmount => 102
    case InvalidVendor => 103
    case EscrowAlreadyExists => 104
    case EscrowNotFound => 105
    case InvalidTimestamp => 106
    case FundsLocked => 107
    case FundsReleased => 108
    case VerificationFailed => 109
    case InvalidVerifier => 110
    case InsufficientBalance => 111
    case TransferFailed => 112
    case InvalidStatus => 113
    case ExpiredEscrow => 114
    case InvalidQuorum => 115
    case InvalidDeadline => 116
    case InvalidDescription => 117
    case MaxEscrowsExceeded => 118
    case InvalidUpdateParam => 119
    case UpdateNotAllowed => 120
    case InvalidRefundReason => 121
    case InvalidVerificationMethod => 122
    case InvalidMultisigCount => 123
    case InvalidOracle => 124
  }

  /** Decodes a numeric error code; exactly the codes 100..124 are known. */
  function FromCode(c: int): (r: Option<Error>)
    ensures r.Some? <==> 100 <= c <= 124
  {
    if c == 100 then Some(NotAuthorized)
    else if c == 101 then Some(InvalidProposalId)
    else if c == 102 then Some(InvalidAmount)
    else if c == 103 then Some(InvalidVendor)
    else if c == 104 then Some(EscrowAlreadyExists)
    else if c == 105 then Some(EscrowNotFound)
    else if c == 106 then Some(InvalidTimestamp)
    else if c == 107 then Some(FundsLocked)
    else if c == 108 then Some(FundsReleased)
    else if c == 109 then Some(VerificationFailed)
    else if c == 110 then Some(InvalidVerifier)
    else if c == 111 then Some(InsufficientBalance)
    else if c == 112 then Some(TransferFailed)
    else if c == 113 then Some(InvalidStatus)
    else if c == 114 then Some(ExpiredEscrow)
    else if c == 115 then Some(InvalidQuorum)
    else if c == 116 then Some(InvalidDeadline)
    else if c == 117 then Some(InvalidDescription)
    else if c == 118 then Some(MaxEscrowsExceeded)
    else if c == 119 then Some(InvalidUpdateParam)
    else if c == 120 then Some(UpdateNotAllowed)
    else if c == 121 then Some(InvalidRefundReason)
    else if c == 122 then Some(InvalidVerificationMethod)
    else if c == 123 then Some(InvalidMultisigCount)
    else if c == 124 then Some(InvalidOracle)
    else None
  }

  /** Distinct error kinds have distinct codes. */
  lemma CodeInjective(e1: Error, e2: Error)
    ensures Code(e1) == Code(e2) ==> e1 == e2
  {
    assert FromCode(Code(e1)) == Some(e1);
    assert FromCode(Code(e2)) == Some(e2);
  }

  /** Every known code decodes to the kind that encodes back to it. */
  lemma FromCodeRoundTrip(c: int)
    requires 100 <= c <= 124
    ensures FromCode(c).Some? && Code(FromCode(c).value) == c
  {
  }

  /** The operation outcome: a value on success, an error kind otherwise. */
  datatype Result<+T> = Ok(value: T) | Err(error: Error)

  datatype Status = Locked | Released | Refunded

  datatype VerificationMethod = Oracle | Multisig | Vote

  /** The text the caller passes for each verification method. */
  function MethodName(m: VerificationMethod): (r: string)
  {
    match m
    case Oracle => "oracle"
    case Multisig => "multisig"
    case Vote => "vote"
  }

  /** Accepts exactly the three method names "oracle", "multisig" and "vote". */
  function ParseVerificationMethod(s: string): (r: Option<VerificationMethod>)
    ensures r.Some? <==> s == "oracle" || s == "multisig" || s == "vote"
    ensures r.Some? ==> MethodName(r.value) == s
  {
    if s == "oracle" then Some(Oracle)
    else if s == "multisig" then Some(Multisig)
    else if s == "vote" then Some(Vote)
    else None
  }

  /** Parsing the name of a method gives the method back. */
  lemma MethodNameRoundTrip(m: VerificationMethod)
    ensures ParseVerificationMethod(MethodName(m)) == Some(m)
  {
  }

  /** One locked-fund agreement. */
  datatype Escrow = Escrow(
    proposalId: int,
    amount: int,
    vendor: Principal,
    lockedAt: int,
    deadline: int,
    status: Status,
    verifier: Option<Principal>,
    quorum: int,
    description: string,
    verificationMethod: VerificationMethod,
    multisigCount: int,
    oracle: Option<Principal>,
    refundReason: Option<string>)

  /** The audit record of the latest amount/deadline amendment of an escrow. */
  datatype EscrowUpdate = EscrowUpdate(
    updateAmount: int,
    updateDeadline: int,
    updateTimestamp: int,
    updater: Principal)

  /** A transfer request handed to the external settlement service. */
  datatype Transfer = Transfer(amount: int, from: Principal, to: Principal)

  /** The arguments of a create call, in the order the caller passes them. */
  datatype CreateArgs = CreateArgs(
    proposalId: int,
    amount: int,
    vendor: Principal,
    deadline: int,
    quorum: int,
    description: string,
    verificationMethod: string,
    multisigCount: int,
    oracle: Principal)
}
