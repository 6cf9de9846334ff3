/**
  Plans as the policy compiler signs them and the enforcer validates them
  (agent/enforcement/enforcer.go:324-736).  Messages have no absent entries or unknown fields here;
  `fits` stands for the wire checks.  A signature is the key that made it and the content it covers.
*/
module PlanContract {
  import opened Common

  const MINUTE: int := 60_000_000_000
  const SECOND: int := 1_000_000_000

  // ---------------------------------------------------------------- capabilities

  datatype Operation = NoOperation | Enforce | Verify | Rollback | Observe
  datatype Level = NoLevel | Unsupported | Partial | Full | Experimental

  datatype Capability = Capability(key: string, level: Level, operations: seq<Operation>)
  datatype Requirement = Requirement(key: string, operations: seq<Operation>, minimum: Level)

  // ---------------------------------------------------------------- plans

  datatype Value = Flag(flag: bool) | Text(text: string) | List(items: seq<string>)

  datatype Phase = Precondition | Verification
  datatype Kind = NoKind | Firewall | Mesh | Route | Dns

  datatype Check = Check(
    id: string, phase: Phase, kind: string, parameters: map<string, Value>, required: bool, timeout: int,
    requirements: seq<Requirement>)

  datatype Step = Step(
    id: string, kind: Kind, target: string, parameters: map<string, Value>, timeout: int,
    requirements: seq<Requirement>)

  datatype Status = NoStatus | Signed | Delivered | OtherStatus

  /** Everything the plan signature covers. */
  datatype Content = Content(
    id: string, deploymentId: string, nodeId: string, policyId: string, policyRevision: nat, revision: nat,
    nonceBytes: nat,
    createdAt: int, expiresAt: int, recoveryAllowlist: seq<string>, sensitive: bool, dryRun: string,
    preconditions: seq<Check>, actions: seq<Step>, verifications: seq<Check>, rollback: seq<Step>)

  datatype Signature = Signature(keyId: string, signedAt: int, signer: nat, covers: Content)

  datatype Plan = Plan(content: Content, status: Status, signature: Option<Signature>)

  datatype Config = Config(deploymentId: string, nodeId: string, planKeyId: string, planKey: nat,
                           capabilities: seq<Capability>)

  // ---------------------------------------------------------------- strings

  predicate IsSpace(c: char) {
    c == ' ' || '\t' <= c <= '\r'
  }

  predicate Trimmed(text: string) {
    text != "" ==> !IsSpace(text[0]) && !IsSpace(text[|text| - 1])
  }

  predicate NoBreaks(text: string) {
    '\r' !in text && '\n' !in text && '\0' !in text
  }

  predicate TokenCharacter(c: char) {
    'a' <= c <= 'z' || 'A' <= c <= 'Z' || '0' <= c <= '9' || c == '.' || c == '_' || c == ':' || c == '-'
  }

  predicate SafeToken(text: string) {
    text != "" && |text| <= 128 && forall i | 0 <= i < |text| :: TokenCharacter(text[i])
  }

  predicate Unique(values: seq<string>) {
    forall i, j | 0 <= i < j < |values| :: values[i] != values[j]
  }

  /** validUniqueValues of the compiler. */
  predicate UniqueValues(values: seq<string>, minimum: nat, maximum: nat, length: nat) {
    && minimum <= |values| <= maximum && Unique(values)
    && forall i | 0 <= i < |values| :: values[i] != "" && |values[i]| <= length && Trimmed(values[i])
  }

  predicate Unbroken(values: seq<string>) {
    forall i | 0 <= i < |values| :: NoBreaks(values[i])
  }

  // ---------------------------------------------------------------- parameters

  predicate ExactFields(parameters: map<string, Value>, names: set<string>) {
    parameters.Keys == names
  }

  predicate IsFlag(parameters: map<string, Value>, name: string, flag: bool) {
    name in parameters && parameters[name] == Flag(flag)
  }

  predicate IsText(parameters: map<string, Value>, name: string, text: string) {
    name in parameters && parameters[name] == Text(text)
  }

  /** stringListField: a bounded list of distinct, bounded, trimmed strings without line breaks. */
  predicate IsList(parameters: map<string, Value>, name: string, minimum: nat, maximum: nat, length: nat) {
    name in parameters && parameters[name].List?
    && UniqueValues(parameters[name].items, minimum, maximum, length) && Unbroken(parameters[name].items)
  }

  predicate ValidTimeout(timeout: int) {
    0 < timeout <= 2 * MINUTE
  }

  predicate ValidCheckParameters(check: Check) {
    && ExactFields(check.parameters, {"source"}) && IsText(check.parameters, "source", "endpoint")
    && match check.phase
       case Precondition => check.kind == "state.capture"
       case Verification => check.kind == "mesh.connected" || check.kind == "route.egress" || check.kind == "dns.path"
  }

  const PROVIDERS: seq<string> := ["auto", "tailscale", "headscale", "wireguard"]

  predicate ValidStepParameters(step: Step, undo: bool, recovery: seq<string>) {
    && IsFlag(step.parameters, "simulation", false) && IsText(step.parameters, "failMode", "CLOSED")
    && if undo then ExactFields(step.parameters, {"simulation", "failMode"})
       else
         match step.kind
         case Firewall =>
           && step.target == "protected-egress"
           && ExactFields(step.parameters, {"simulation", "failMode", "allowedDestinations", "recoveryDestinations"})
           && IsList(step.parameters, "allowedDestinations", 0, 32, 512)
           && IsList(step.parameters, "recoveryDestinations", 1, 32, 512)
           && step.parameters["recoveryDestinations"].items == recovery
         case Mesh => step.target in PROVIDERS && ExactFields(step.parameters, {"simulation", "failMode"})
         case Route =>
           && step.target == "approved-egress"
               && ExactFields(step.parameters, {"simulation", "failMode", "allowedExitNodeIds"})
           && IsList(step.parameters, "allowedExitNodeIds", 1, 32, 128)
         case Dns =>
           && step.target == "protected-dns"
               && ExactFields(step.parameters, {"simulation", "failMode", "allowedResolvers"})
           && IsList(step.parameters, "allowedResolvers", 1, 16, 512)
         case NoKind => false
  }

  // ---------------------------------------------------------------- capability requirements

  predicate ValidRequirements(requirements: seq<Requirement>) {
    && requirements != []
    && forall i | 0 <= i < |requirements| ::
         SafeToken(requirements[i].key) && requirements[i].operations != [] && !requirements[i].minimum.NoLevel?
  }

  predicate Satisfies(actual: Level, minimum: Level) {
    match minimum
    case Unsupported => !actual.NoLevel?
    case Partial => actual.Partial? || actual.Full?
    case Full => actual.Full?
    case Experimental => actual.Experimental?
    case NoLevel => false
  }

  predicate Offers(capability: Capability, requirement: Requirement) {
    && capability.key == requirement.key && Satisfies(capability.level, requirement.minimum)
    && forall i | 0 <= i < |requirement.operations| ::
         !requirement.operations[i].NoOperation? && requirement.operations[i] in capability.operations
  }

  /** supportsAll of the enforcer: some capability offers each requirement in full. */
  predicate SupportsAll(capabilities: seq<Capability>, requirements: seq<Requirement>) {
    && ValidRequirements(requirements)
    && forall i | 0 <= i < |requirements| :: Offered(capabilities, requirements[i])
  }

  predicate Offered(capabilities: seq<Capability>, requirement: Requirement) {
    exists k :: 0 <= k < |capabilities| && Offers(capabilities[k], requirement)
  }

  /** A contract fixes the key, full support, and the operations up to order. */
  predicate Meets(requirement: Requirement, key: string, operations: seq<Operation>) {
    && requirement.key == key && requirement.minimum.Full? && |requirement.operations| == |operations|
    && (forall i, j | 0 <= i < j < |requirement.operations| :: requirement.operations[i] != requirement.operations[j])
    && (forall i | 0 <= i < |requirement.operations| :: requirement.operations[i] in operations)
  }

  datatype Contract = Contract(key: string, operations: seq<Operation>)

  const FIREWALL := Contract("firewall.egress.enforce", [Enforce, Rollback])
  const MESH := Contract("mesh.path.enforce", [Enforce, Verify])
  const ROUTE := Contract("network.route.enforce", [Enforce, Verify, Rollback])
  const DNS := Contract("dns.protected.enforce", [Enforce, Verify, Rollback])

  predicate MeetsAll(requirements: seq<Requirement>, contracts: seq<Contract>) {
    && |requirements| == |contracts|
    && forall i | 0 <= i < |contracts| :: Meets(requirements[i], contracts[i].key, contracts[i].operations)
  }

  // ---------------------------------------------------------------- the fixed layout

  predicate CheckIs(check: Check, id: string, kind: string, contracts: seq<Contract>) {
    check.id == id && check.kind == kind && check.required && MeetsAll(check.requirements, contracts)
  }

  predicate StepIs(step: Step, id: string, kind: Kind, target: Option<string>, contract: Contract) {
    step.id == id && step.kind == kind && (target.Some? ==> step.target == target.value)
        && MeetsAll(step.requirements, [contract])
  }

  predicate ValidLayout(content: Content) {
    && |content.preconditions| == 1 && |content.actions| == 4 && |content.verifications| == 3 && |content.rollback| == 3
    && CheckIs(content.preconditions[0], "preflight-current-state", "state.capture", [FIREWALL, MESH, ROUTE, DNS])
    && CheckIs(content.verifications[0], "verify-mesh", "mesh.connected", [MESH])
    && CheckIs(content.verifications[1], "verify-route", "route.egress", [ROUTE])
    && CheckIs(content.verifications[2], "verify-dns", "dns.path", [DNS])
    && StepIs(content.actions[0], "guard-egress", Firewall, Some("protected-egress"), FIREWALL)
    && StepIs(content.actions[1], "connect-mesh", Mesh, None, MESH)
    && StepIs(content.actions[2], "set-route", Route, Some("approved-egress"), ROUTE)
    && StepIs(content.actions[3], "set-dns", Dns, Some("protected-dns"), DNS)
    && StepIs(content.rollback[0], "rollback-dns", Dns, Some("captured:dns"), DNS)
    && StepIs(content.rollback[1], "rollback-route", Route, Some("captured:route"), ROUTE)
    && StepIs(content.rollback[2], "rollback-firewall", Firewall, Some("captured:firewall"), FIREWALL)
  }

  // ---------------------------------------------------------------- the validator

  datatype Rejection =
    | WireInvalid | TargetMismatch | IdentityInvalid | StatusInvalid | TimeInvalid | SignerInvalid | SignatureInvalid
    | RecoveryInvalid | StructureInvalid | LayoutUnsupported | CheckInvalid | OperationInvalid | DuplicateId

  const MAXIMUM_ITEMS: nat := 64

  predicate TimesValid(content: Content, now: int) {
    content.createdAt <= now < content.expiresAt && content.createdAt < content.expiresAt
  }

  predicate SignerValid(plan: Plan, keyId: string, now: int) {
    && plan.signature.Some? && plan.signature.value.keyId == keyId
    && plan.content.createdAt - 5 * MINUTE <= plan.signature.value.signedAt <= now + 5 * MINUTE
    && plan.signature.value.signedAt < plan.content.expiresAt
  }

  /** policy.VerifyPlan: the signature was made with the plan key over exactly this content. */
  predicate SignatureVerifies(plan: Plan, key: nat) {
    plan.signature.Some? && plan.signature.value.signer == key && plan.signature.value.covers == plan.content
  }

  predicate RecoveryValid(allowlist: seq<string>) {
    && 0 < |allowlist| <= 32
    && forall i | 0 <= i < |allowlist| ::
         allowlist[i] != "" && |allowlist[i]| <= 512 && Trimmed(allowlist[i]) && NoBreaks(allowlist[i])
  }

  predicate Bounded<T>(items: seq<T>) {
    0 < |items| <= MAXIMUM_ITEMS
  }

  predicate CheckValid(check: Check, phase: Phase, config: Config) {
    && check.id != "" && check.phase == phase && check.kind != "" && ValidTimeout(check.timeout)
    && ValidRequirements(check.requirements) && ValidCheckParameters(check)
        && SupportsAll(config.capabilities, check.requirements)
  }

  predicate StepValid(step: Step, undo: bool, recovery: seq<string>, config: Config) {
    && step.id != "" && !step.kind.NoKind? && step.target != "" && ValidTimeout(step.timeout)
    && ValidRequirements(step.requirements) && ValidStepParameters(step, undo, recovery)
        && SupportsAll(config.capabilities, step.requirements)
  }

  function Ids(content: Content): seq<string> {
    seq(|content.preconditions|, i requires 0 <= i < |content.preconditions| => content.preconditions[i].id)
    + seq(|content.verifications|, i requires 0 <= i < |content.verifications| => content.verifications[i].id)
    + seq(|content.actions|, i requires 0 <= i < |content.actions| => content.actions[i].id)
    + seq(|content.rollback|, i requires 0 <= i < |content.rollback| => content.rollback[i].id)
  }

  /** Why the enforcer rejects a plan at a time, if it does; `fits` is the wire size and unknown-field check. */
  function Reject(plan: Plan, config: Config, now: int, fits: bool): Option<Rejection> {
    var content := plan.content;
    if !fits then Some(WireInvalid)
    else if content.deploymentId != config.deploymentId || content.nodeId != config.nodeId then Some(TargetMismatch)
    else if !SafeToken(content.id) || !SafeToken(content.policyId) || content.policyRevision == 0
        || content.revision == 0 || content.nonceBytes != 32
    then Some(IdentityInvalid)
    else if !plan.status.Signed? && !plan.status.Delivered? then Some(StatusInvalid)
    else if !TimesValid(content, now) then Some(TimeInvalid)
    else if !SignerValid(plan, config.planKeyId, now) then Some(SignerInvalid)
    else if !SignatureVerifies(plan, config.planKey) then Some(SignatureInvalid)
    else if !RecoveryValid(content.recoveryAllowlist) then Some(RecoveryInvalid)
    else if !content.sensitive || content.dryRun == "" || |content.dryRun| > 4096 || !Trimmed(content.dryRun)
            || !Bounded(content.preconditions) || !Bounded(content.actions) || !Bounded(content.verifications)
                || !Bounded(content.rollback)
    then Some(StructureInvalid)
    else if !ValidLayout(content) then Some(LayoutUnsupported)
    else if !(forall i | 0 <= i < |content.preconditions| :: CheckValid(content.preconditions[i], Precondition, config))
            || !(forall i | 0 <= i < |content.verifications| ::
                 CheckValid(content.verifications[i], Verification, config))
    then Some(CheckInvalid)
    else if !(forall i | 0 <= i < |content.actions| ::
              StepValid(content.actions[i], false, content.recoveryAllowlist, config))
            || !(forall i | 0 <= i < |content.rollback| ::
                 StepValid(content.rollback[i], true, content.recoveryAllowlist, config))
    then Some(OperationInvalid)
    else if !Unique(Ids(content)) then Some(DuplicateId)
    else None
  }

  /**
    A plan accepted once is accepted at exactly the moments of its window that do not precede its
    signature by five minutes.
  */
  lemma AcceptedExactlyInWindow(plan: Plan, config: Config, once: int, now: int)
    requires Reject(plan, config, once, true).None?
    ensures plan.signature.Some?
    ensures Reject(plan, config, now, true).None? <==>
              plan.content.createdAt <= now < plan.content.expiresAt
                  && plan.signature.value.signedAt - 5 * MINUTE <= now
  {
    hide ValidLayout, CheckValid, StepValid, Ids, RecoveryValid, SafeToken, Trimmed, SignatureVerifies, Unique;
  }
}
