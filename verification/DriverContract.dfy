/**
  Value types shared by the driver lifecycle, its journal, the reservation store and the
  receipt log (agent/driver/contract.go, agent/driver/receipt.go).

  Times are natural numbers with 0 for Go's zero time.  SHA-256 is modelled as a free
  constructor per hash domain, so it is injective and domain separated by construction; the
  module DigestLayout proves that the byte layout fed to the hash deserves that treatment.
*/
module DriverContract {
  import opened Common

  const CONTRACT_VERSION: nat := 1

  // ---------------------------------------------------------------- identifiers

  predicate PrintableAscii(text: string) {
    forall c | c in text :: ' ' <= c <= '~'
  }

  predicate ValidIdentifier(text: string) {
    text != "" && |text| <= 128 && PrintableAscii(text) && ' ' !in text
  }

  const SHELL_METACHARACTERS: string := " \t;|&$`<>(){}[]*?!~'\"\\#"

  predicate ValidTarget(text: string) {
    && text != "" && |text| <= 256 && PrintableAscii(text)
    && forall c | c in text :: c !in SHELL_METACHARACTERS
  }

  // ---------------------------------------------------------------- digests

  /** A string-valued field that may hold a hexadecimal SHA-256. */
  datatype Digest =
    | NoDigest
    | ReservationHash(key: ReservationKey)
    | OwnershipHash(planId: string, planRevision: nat, operationId: string, target: string, reservationToken: Digest)
    | ApprovalHash(planId: string, planRevision: nat, operationId: string, target: string, approverKind: string)
    | ReceiptHash(receipt: Receipt)
    | HostHash(host: nat)
    | PlainText(text: string)

  predicate ValidDigest(digest: Digest) {
    !digest.NoDigest? && !digest.PlainText?
  }

  /** The identifier rule applied to a digest-valued field: 64 hex digits always satisfy it. */
  predicate ValidToken(token: Digest) {
    match token
    case NoDigest => false
    case PlainText(text) => ValidIdentifier(text)
    case _ => true
  }

  // ---------------------------------------------------------------- reservations

  datatype ReservationKey = ReservationKey(
    planId: string, policyRevision: nat, planRevision: nat, nonce: string, fingerprint: string)

  const NO_KEY := ReservationKey("", 0, 0, "", "")

  predicate ValidKey(key: ReservationKey) {
    && ValidIdentifier(key.planId) && key.policyRevision != 0 && key.planRevision != 0
    && ValidIdentifier(key.nonce) && ValidIdentifier(key.fingerprint)
  }

  datatype ReservationToken = ReservationToken(key: ReservationKey, token: Digest, issuedAt: nat)

  predicate ValidReservationToken(token: ReservationToken) {
    ValidKey(token.key) && token.token == ReservationHash(token.key) && token.issuedAt != 0
  }

  // ---------------------------------------------------------------- plans, approvals, driver values

  datatype PlanRef = PlanRef(planId: string, planRevision: nat, operationId: string)

  predicate ValidRef(ref: PlanRef) {
    ValidIdentifier(ref.planId) && ref.planRevision != 0 && ValidIdentifier(ref.operationId)
  }

  datatype Operation = Operation(id: string, target: string)

  datatype Approval = Approval(
    planId: string, planRevision: nat, operationId: string, target: string, approverKind: string, digest: Digest)

  predicate ValidApproval(approval: Approval) {
    && ValidIdentifier(approval.planId) && approval.planRevision != 0
    && ValidIdentifier(approval.operationId) && ValidIdentifier(approval.approverKind)
    && ValidTarget(approval.target)
    && approval.digest == ApprovalHash(
         approval.planId, approval.planRevision, approval.operationId, approval.target, approval.approverKind)
  }

  /** `tidy` abstracts the bounds on diff lines and reason codes, which nothing else reads. */
  datatype Simulation = Simulation(
    operationId: string, target: string, snapshotDigest: Digest,
    beforeDigest: Digest, afterDigest: Digest, wouldSucceed: bool, tidy: bool)

  predicate ValidSimulation(result: Simulation) {
    && ValidIdentifier(result.operationId) && ValidTarget(result.target)
    && ValidDigest(result.snapshotDigest) && result.snapshotDigest == result.beforeDigest
    && ValidDigest(result.afterDigest) && result.tidy
  }

  datatype ApplyRequest = ApplyRequest(
    ref: PlanRef, target: string, operation: Operation, reservation: ReservationToken)

  datatype ApplyReceipt = ApplyReceipt(
    ref: PlanRef, target: string, ownership: Digest, beforeDigest: Digest, appliedDigest: Digest,
    reason: ReasonCode, startedAt: nat, completedAt: nat)

  predicate ValidApplyReceipt(receipt: ApplyReceipt) {
    && ValidRef(receipt.ref) && ValidTarget(receipt.target) && ValidToken(receipt.ownership)
    && ValidDigest(receipt.beforeDigest) && ValidDigest(receipt.appliedDigest)
    && ValidReason(receipt.reason)
    && receipt.startedAt != 0 && receipt.startedAt <= receipt.completedAt
  }

  datatype Verification = Verification(
    ownership: Digest, expected: Digest, observed: Digest, verified: bool, tidy: bool, at: nat)

  predicate ValidVerification(result: Verification) {
    && ValidToken(result.ownership) && ValidDigest(result.expected) && ValidDigest(result.observed)
    && (result.verified ==> result.expected == result.observed)
    && result.at != 0 && result.tidy
  }

  datatype RollbackReceipt = RollbackReceipt(
    ref: PlanRef, ownership: Digest, restored: Digest, reason: ReasonCode, at: nat)

  predicate ValidRollbackReceipt(receipt: RollbackReceipt) {
    && ValidRef(receipt.ref) && ValidToken(receipt.ownership) && ValidDigest(receipt.restored)
    && ValidReason(receipt.reason) && receipt.at != 0
  }

  /** The ownership token every driver must issue for an apply request. */
  function OwnershipTokenFor(ref: PlanRef, target: string, reservationToken: Digest): (token: Digest)
    ensures ValidToken(token) && ValidDigest(token)
  {
    OwnershipHash(ref.planId, ref.planRevision, ref.operationId, target, reservationToken)
  }

  // ---------------------------------------------------------------- receipts

  /** Reason codes the lifecycle writes, and any other code a driver may supply. */
  datatype ReasonCode =
    | ReasonApplied | ReasonVerified | ReasonRolledBack
    | ReasonRecoveryCommit | ReasonRecoveryRollback
    | DriverReason(wellFormed: bool, code: string)

  predicate ValidReason(reason: ReasonCode) {
    reason.DriverReason? ==> reason.wellFormed
  }

  datatype ReceiptKind = ApplyKind | VerifyKind | RollbackKind | CommitKind

  datatype Receipt = Receipt(
    kind: ReceiptKind, ref: PlanRef, target: string, ownership: Digest, digest: Digest,
    reason: ReasonCode, at: nat)

  predicate ValidReceipt(receipt: Receipt) {
    && ValidRef(receipt.ref)
    && (receipt.target != "" ==> ValidTarget(receipt.target))
    && ValidToken(receipt.ownership) && ValidDigest(receipt.digest)
    && ValidReason(receipt.reason) && receipt.at != 0
  }

  function ApplyLine(receipt: ApplyReceipt): Receipt {
    Receipt(ApplyKind, receipt.ref, receipt.target, receipt.ownership, receipt.appliedDigest,
            receipt.reason, receipt.completedAt)
  }

  function VerifyLine(receipt: ApplyReceipt, verification: Verification): Receipt {
    Receipt(VerifyKind, receipt.ref, receipt.target, receipt.ownership, verification.observed,
            ReasonVerified, verification.at)
  }

  function CommitLine(receipt: ApplyReceipt, reason: ReasonCode, at: nat): Receipt {
    Receipt(CommitKind, receipt.ref, receipt.target, receipt.ownership, receipt.appliedDigest, reason, at)
  }

  function RollbackLine(receipt: RollbackReceipt, reason: ReasonCode): Receipt {
    Receipt(RollbackKind, receipt.ref, "", receipt.ownership, receipt.restored, reason, receipt.at)
  }

  /** ReceiptStore.Append behind appendReceipt: a duplicate is tolerated and not stored twice. */
  function AppendReceipt(receipts: seq<Receipt>, receipt: Receipt): Result<seq<Receipt>, ()> {
    if !ValidReceipt(receipt) then Err(())
    else if receipt in receipts then Ok(receipts)
    else Ok(receipts + [receipt])
  }
}
