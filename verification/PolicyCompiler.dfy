/**
  The policy compiler (core/policy/compiler.go:43-244) and its agreement with the enforcer: exactly
  which validated profiles compile to plans the enforcer accepts.  The derived plan id is a
  parameter, as are trimming-and-lowering of the mesh provider and the compiler's clock.
*/
module PolicyCompiler {
  import opened Common
  import opened PlanContract

  datatype EgressMode = OtherEgress | MeshEgress | TrustedExit

  datatype Egress = Egress(
    closed: bool, mode: EgressMode, exits: seq<string>, recovery: seq<string>, allowed: seq<string>)

  datatype ActionPolicy = ActionPolicy(requireProtected: bool, applications: seq<string>, dataClasses: seq<string>)

  datatype Profile = Profile(
    fits: bool, policyId: string, revision: nat, currentVersion: bool, guard: bool,
    meshRequired: bool, provider: string, egress: Option<Egress>,
    dnsProtected: bool, resolvers: seq<string>, networksStrict: bool, payloadCapture: bool, retentionDays: nat,
    scrambler: bool, actions: seq<ActionPolicy>)

  datatype Violation = Violation(code: string, field: string)

  predicate ValidAction(action: ActionPolicy) {
    action.requireProtected && UniqueValues(action.applications, 1, 32, 128)
        && UniqueValues(action.dataClasses, 1, 32, 128)
  }

  predicate ValidEgress(egress: Egress) {
    && egress.closed && !egress.mode.OtherEgress?
    && (egress.mode.TrustedExit? ==> UniqueValues(egress.exits, 1, 32, 128))
    && UniqueValues(egress.recovery, 1, 32, 512)
  }

  /** A profile the first release supports: guard mode, required mesh, fail-closed egress, protected DNS. */
  predicate ValidProfile(profile: Profile, normalize: string -> string) {
    && profile.fits && profile.policyId != "" && profile.revision != 0 && profile.currentVersion && profile.guard
    && profile.meshRequired && normalize(profile.provider) in PROVIDERS
    && profile.egress.Some? && ValidEgress(profile.egress.value)
    && profile.dnsProtected && UniqueValues(profile.resolvers, 1, 16, 512)
    && profile.networksStrict && !profile.payloadCapture && 0 < profile.retentionDays <= 30 && !profile.scrambler
    && profile.actions != [] && forall i | 0 <= i < |profile.actions| :: ValidAction(profile.actions[i])
  }

  /** Collects every violation; there is none exactly for a valid profile. */
  method Validate(profile: Profile, normalize: string -> string) returns (violations: seq<Violation>)
    ensures violations == [] <==> ValidProfile(profile, normalize)
  {
    if !profile.fits {
      return [Violation("AF-POLICY-WIRE-INVALID", "profile")];
    }
    violations := [];
    if profile.policyId == "" || profile.revision == 0 {
      violations := violations + [Violation("AF-POLICY-METADATA", "metadata")];
    }
    if !profile.currentVersion {
      violations := violations + [Violation("AF-POLICY-VERSION", "apiVersion")];
    }
    if !profile.guard {
      violations := violations + [Violation("AF-POLICY-MODE", "mode")];
    }
    if !profile.meshRequired {
      violations := violations + [Violation("AF-POLICY-MESH", "mesh.required")];
    } else if normalize(profile.provider) !in PROVIDERS {
      violations := violations + [Violation("AF-POLICY-MESH-PROVIDER", "mesh.provider")];
    }
    var egress := EgressViolations(profile.egress);
    violations := violations + egress;
    if !profile.dnsProtected {
      violations := violations + [Violation("AF-POLICY-DNS", "dns")];
    } else if !UniqueValues(profile.resolvers, 1, 16, 512) {
      violations := violations + [Violation("AF-POLICY-DNS-RESOLVERS", "dns.allowedResolvers")];
    }
    if !profile.networksStrict {
      violations := violations + [Violation("AF-POLICY-UNTRUSTED", "networks")];
    }
    if profile.payloadCapture || profile.retentionDays == 0 || profile.retentionDays > 30 {
      violations := violations + [Violation("AF-POLICY-TELEMETRY", "telemetry")];
    }
    if profile.scrambler {
      violations := violations + [Violation("AF-POLICY-SCRAMBLER-DEFERRED", "scrambler.enabled")];
    }
    if |profile.actions| == 0 {
      violations := violations + [Violation("AF-POLICY-ACTIONS", "actions")];
    }
    var actions := ActionViolations(profile.actions);
    violations := violations + actions;
  }

  method EgressViolations(egress: Option<Egress>) returns (violations: seq<Violation>)
    ensures violations == [] <==> egress.Some? && ValidEgress(egress.value)
  {
    if egress.None? || !egress.value.closed {
      return [Violation("AF-POLICY-FAIL-CLOSED", "egress.failMode")];
    }
    violations := [];
    if egress.value.mode.OtherEgress? {
      violations := violations + [Violation("AF-POLICY-EGRESS", "egress.mode")];
    }
    if egress.value.mode.TrustedExit? && !UniqueValues(egress.value.exits, 1, 32, 128) {
      violations := violations + [Violation("AF-POLICY-EXITS", "egress.allowedExitNodeIds")];
    }
    if |egress.value.recovery| == 0 || |egress.value.recovery| > 32 {
      violations := violations + [Violation("AF-POLICY-RECOVERY", "egress.recoveryDestinations")];
    } else if !UniqueValues(egress.value.recovery, 1, 32, 512) {
      violations := violations + [Violation("AF-POLICY-RECOVERY-VALUES", "egress.recoveryDestinations")];
    }
  }

  method ActionViolations(actions: seq<ActionPolicy>) returns (violations: seq<Violation>)
    ensures violations == [] <==> forall i | 0 <= i < |actions| :: ValidAction(actions[i])
  {
    violations := [];
    for i := 0 to |actions|
      invariant violations == [] <==> forall k | 0 <= k < i :: ValidAction(actions[k])
    {
      if !ValidAction(actions[i]) {
        violations := violations + [Violation("AF-POLICY-ACTION-SCOPE", "actions")];
      }
    }
  }

  // ---------------------------------------------------------------- compilation

  function Require(contract: Contract): Requirement {
    Requirement(contract.key, contract.operations, Full)
  }

  /** supports: the first capability of that key with full support decides. */
  predicate Supports(capabilities: seq<Capability>, requirement: Requirement) {
    capabilities != [] &&
      if capabilities[0].key == requirement.key && capabilities[0].level.Full?
      then forall i | 0 <= i < |requirement.operations| :: requirement.operations[i] in capabilities[0].operations
      else Supports(capabilities[1..], requirement)
  }

  const BASE: map<string, Value> := map["simulation" := Flag(false), "failMode" := Text("CLOSED")]

  function MakeStep(id: string, kind: Kind, target: string, contract: Contract, values: map<string, Value>): Step {
    Step(id, kind, target, BASE + values, 15 * SECOND, [Require(contract)])
  }

  function MakeCheck(id: string, phase: Phase, kind: string, contracts: seq<Contract>): Check {
    Check(id, phase, kind, map["source" := Text("endpoint")], true, 10 * SECOND,
          seq(|contracts|, i requires 0 <= i < |contracts| => Require(contracts[i])))
  }

  const DRY_RUN :=
    "Hold protected egress; " + "connect the private mesh; " + "select and verify the approved exit; "
    + "verify protected DNS; " + "roll back captured state on any failure."

  datatype Compiler = Compiler(deploymentId: string, keyId: string, key: nat)

  function Compose(compiler: Compiler, profile: Profile, egress: Egress, nodeId: string, revision: nat, planId: string,
                   target: string, now: int): Content {
    Content(
      planId, compiler.deploymentId, nodeId, profile.policyId, profile.revision, revision, 32, now, now + 5 * MINUTE,
      egress.recovery, true, DRY_RUN,
      [MakeCheck("preflight-current-state", Precondition, "state.capture", [FIREWALL, MESH, ROUTE, DNS])],
      [MakeStep("guard-egress", Firewall, "protected-egress", FIREWALL,
                map["allowedDestinations" := List(egress.allowed), "recoveryDestinations" := List(egress.recovery)]),
       MakeStep("connect-mesh", Mesh, target, MESH, map[]),
       MakeStep("set-route", Route, "approved-egress", ROUTE, map["allowedExitNodeIds" := List(egress.exits)]),
       MakeStep("set-dns", Dns, "protected-dns", DNS, map["allowedResolvers" := List(profile.resolvers)])],
      [MakeCheck("verify-mesh", Verification, "mesh.connected", [MESH]),
       MakeCheck("verify-route", Verification, "route.egress", [ROUTE]),
       MakeCheck("verify-dns", Verification, "dns.path", [DNS])],
      [MakeStep("rollback-dns", Dns, "captured:dns", DNS, map[]),
       MakeStep("rollback-route", Route, "captured:route", ROUTE, map[]),
       MakeStep("rollback-firewall", Firewall, "captured:firewall", FIREWALL, map[])])
  }

  datatype Compiled = Compiled(plan: Plan) | Violated | Failed

  function Compile(compiler: Compiler, profile: Profile, nodeId: string, revision: nat, manifestNode: string,
                   capabilities: seq<Capability>, planId: string, normalize: string -> string, now: int): Compiled
  {
    if !ValidProfile(profile, normalize) then Violated
    else if nodeId == "" || revision == 0 || manifestNode != nodeId then Failed
    else if !(Supports(capabilities, Require(FIREWALL)) && Supports(capabilities, Require(MESH))
              && Supports(capabilities, Require(ROUTE)) && Supports(capabilities, Require(DNS))) then Violated
    else
      var content := Compose(compiler, profile, profile.egress.value, nodeId, revision, planId,
                             normalize(profile.provider), now);
      Compiled(Plan(content, Signed, Some(Signature(compiler.keyId, now, compiler.key, content))))
  }

  // ---------------------------------------------------------------- agreement

  /** What the enforcer asks of a profile beyond what the compiler validates. */
  predicate Portable(profile: Profile, egress: Egress) {
    && SafeToken(profile.policyId)
    && UniqueValues(egress.exits, 1, 32, 128) && Unbroken(egress.exits)
    && UniqueValues(egress.allowed, 0, 32, 512) && Unbroken(egress.allowed)
    && Unbroken(egress.recovery) && Unbroken(profile.resolvers)
  }

  lemma {:induction false} SupportedIsOffered(capabilities: seq<Capability>, contract: Contract)
    requires Supports(capabilities, Require(contract)) && NoOperation !in contract.operations
    ensures Offered(capabilities, Require(contract))
    decreases |capabilities|
  {
    if capabilities[0].key == contract.key && capabilities[0].level.Full? {
      assert Offers(capabilities[0], Require(contract));
    } else {
      SupportedIsOffered(capabilities[1..], contract);
      var k :| 0 <= k < |capabilities[1..]| && Offers(capabilities[1..][k], Require(contract));
      assert Offers(capabilities[k + 1], Require(contract));
    }
  }

  predicate AllSupported(capabilities: seq<Capability>) {
    Supports(capabilities, Require(FIREWALL)) && Supports(capabilities, Require(MESH))
    && Supports(capabilities, Require(ROUTE)) && Supports(capabilities, Require(DNS))
  }

  predicate Standard(contract: Contract) {
    contract == FIREWALL || contract == MESH || contract == ROUTE || contract == DNS
  }

  lemma StandardIsSafe(contract: Contract)
    requires Standard(contract)
    ensures SafeToken(contract.key) && contract.operations != [] && NoOperation !in contract.operations
    ensures Meets(Require(contract), contract.key, contract.operations)
  {
  }

  lemma RequirementsMet(capabilities: seq<Capability>, contracts: seq<Contract>, requirements: seq<Requirement>)
    requires AllSupported(capabilities) && contracts != [] && |requirements| == |contracts|
    requires forall i | 0 <= i < |contracts| :: Standard(contracts[i]) && requirements[i] == Require(contracts[i])
    ensures MeetsAll(requirements, contracts) && ValidRequirements(requirements)
        && SupportsAll(capabilities, requirements)
  {
    hide Supports, SafeToken, Meets, Offered;
    forall i | 0 <= i < |contracts|
      ensures Meets(requirements[i], contracts[i].key, contracts[i].operations)
      ensures SafeToken(requirements[i].key) && requirements[i].operations != []
      ensures Offered(capabilities, requirements[i])
    {
      StandardIsSafe(contracts[i]);
      SupportedIsOffered(capabilities, contracts[i]);
    }
  }

  lemma CheckAccepted(check: Check, id: string, phase: Phase, kind: string, contracts: seq<Contract>, config: Config)
    requires check == MakeCheck(id, phase, kind, contracts) && AllSupported(config.capabilities)
    requires contracts != [] && forall i | 0 <= i < |contracts| :: Standard(contracts[i])
    requires id != "" && kind != "" && (phase.Precondition? ==> kind == "state.capture")
    requires phase.Verification? ==> kind == "mesh.connected" || kind == "route.egress" || kind == "dns.path"
    ensures CheckIs(check, id, kind, contracts) && CheckValid(check, phase, config)
  {
    hide AllSupported, MeetsAll, ValidRequirements, SupportsAll;
    RequirementsMet(config.capabilities, contracts, check.requirements);
  }

  lemma StepAccepted(step: Step, id: string, kind: Kind, target: string, contract: Contract, values: map<string, Value>,
                     undo: bool, recovery: seq<string>, config: Config)
    requires step == MakeStep(id, kind, target, contract, values) && AllSupported(config.capabilities)
        && Standard(contract)
    requires id != "" && !kind.NoKind? && target != ""
    ensures StepIs(step, id, kind, Some(target), contract)
    ensures StepValid(step, undo, recovery, config) <==> ValidStepParameters(step, undo, recovery)
  {
    hide AllSupported, MeetsAll, ValidRequirements, SupportsAll, ValidStepParameters;
    RequirementsMet(config.capabilities, [contract], step.requirements);
  }

  lemma FirewallStep(step: Step, egress: Egress)
    requires step == MakeStep("guard-egress", Firewall, "protected-egress", FIREWALL,
                              map["allowedDestinations" := List(egress.allowed),
                                  "recoveryDestinations" := List(egress.recovery)])
    ensures ValidStepParameters(step, false, egress.recovery) <==>
              && UniqueValues(egress.allowed, 0, 32, 512) && Unbroken(egress.allowed)
              && UniqueValues(egress.recovery, 1, 32, 512) && Unbroken(egress.recovery)
  {
    hide UniqueValues, Unbroken;
    assert step.parameters.Keys == {"simulation", "failMode", "allowedDestinations", "recoveryDestinations"};
  }

  lemma MeshStep(step: Step, target: string, recovery: seq<string>)
    requires step == MakeStep("connect-mesh", Mesh, target, MESH, map[])
    ensures ValidStepParameters(step, false, recovery) <==> target in PROVIDERS
  {
    assert step.parameters.Keys == {"simulation", "failMode"};
  }

  lemma RouteStep(step: Step, exits: seq<string>, recovery: seq<string>)
    requires step == MakeStep("set-route", Route, "approved-egress", ROUTE, map["allowedExitNodeIds" := List(exits)])
    ensures ValidStepParameters(step, false, recovery) <==> UniqueValues(exits, 1, 32, 128) && Unbroken(exits)
  {
    hide UniqueValues, Unbroken;
    assert step.parameters.Keys == {"simulation", "failMode", "allowedExitNodeIds"};
  }

  lemma DnsStep(step: Step, resolvers: seq<string>, recovery: seq<string>)
    requires step == MakeStep("set-dns", Dns, "protected-dns", DNS, map["allowedResolvers" := List(resolvers)])
    ensures ValidStepParameters(step, false, recovery) <==> UniqueValues(resolvers, 1, 16, 512) && Unbroken(resolvers)
  {
    hide UniqueValues, Unbroken;
    assert step.parameters.Keys == {"simulation", "failMode", "allowedResolvers"};
  }

  lemma UndoStep(step: Step, id: string, kind: Kind, target: string, contract: Contract, recovery: seq<string>)
    requires step == MakeStep(id, kind, target, contract, map[])
    ensures ValidStepParameters(step, true, recovery)
  {
    assert step.parameters.Keys == {"simulation", "failMode"};
  }

  /** The composed plan has the fixed layout and valid checks, whatever the profile. */
  lemma LayoutAccepted(content: Content, profile: Profile, egress: Egress, compiler: Compiler, nodeId: string,
                       revision: nat,
                       planId: string, target: string, now: int, config: Config)
    requires content == Compose(compiler, profile, egress, nodeId, revision, planId, target, now)
    requires AllSupported(config.capabilities) && target in PROVIDERS
    ensures ValidLayout(content)
    ensures forall i | 0 <= i < |content.preconditions| :: CheckValid(content.preconditions[i], Precondition, config)
    ensures forall i | 0 <= i < |content.verifications| :: CheckValid(content.verifications[i], Verification, config)
    ensures forall i | 0 <= i < |content.rollback| :: StepValid(content.rollback[i], true, egress.recovery, config)
    ensures (forall i | 0 <= i < |content.actions| ::
             StepValid(content.actions[i], false, egress.recovery, config)) <==>
              forall i | 0 <= i < |content.actions| :: ValidStepParameters(content.actions[i], false, egress.recovery)
  {
    hide AllSupported, CheckIs, CheckValid, StepIs, StepValid, ValidStepParameters, MakeStep, MakeCheck;
    CheckAccepted(content.preconditions[0], "preflight-current-state", Precondition, "state.capture",
                  [FIREWALL, MESH, ROUTE, DNS], config);
    CheckAccepted(content.verifications[0], "verify-mesh", Verification, "mesh.connected", [MESH], config);
    CheckAccepted(content.verifications[1], "verify-route", Verification, "route.egress", [ROUTE], config);
    CheckAccepted(content.verifications[2], "verify-dns", Verification, "dns.path", [DNS], config);
    var actions, undo := content.actions, content.rollback;
    StepAccepted(actions[0], "guard-egress", Firewall, "protected-egress", FIREWALL,
                 map["allowedDestinations" := List(egress.allowed), "recoveryDestinations" := List(egress.recovery)],
                 false, egress.recovery, config);
    StepAccepted(actions[1], "connect-mesh", Mesh, target, MESH, map[], false, egress.recovery, config);
    AnyTarget(actions[1], "connect-mesh", Mesh, target, MESH);
    StepAccepted(actions[2], "set-route", Route, "approved-egress", ROUTE,
                 map["allowedExitNodeIds" := List(egress.exits)], false, egress.recovery, config);
    StepAccepted(actions[3], "set-dns", Dns, "protected-dns", DNS, map["allowedResolvers" := List(profile.resolvers)],
                 false, egress.recovery, config);
    StepAccepted(undo[0], "rollback-dns", Dns, "captured:dns", DNS, map[], true, egress.recovery, config);
    UndoStep(undo[0], "rollback-dns", Dns, "captured:dns", DNS, egress.recovery);
    StepAccepted(undo[1], "rollback-route", Route, "captured:route", ROUTE, map[], true, egress.recovery, config);
    UndoStep(undo[1], "rollback-route", Route, "captured:route", ROUTE, egress.recovery);
    StepAccepted(undo[2], "rollback-firewall", Firewall, "captured:firewall", FIREWALL, map[], true, egress.recovery,
                 config);
    UndoStep(undo[2], "rollback-firewall", Firewall, "captured:firewall", FIREWALL, egress.recovery);
  }

  lemma AnyTarget(step: Step, id: string, kind: Kind, target: string, contract: Contract)
    requires StepIs(step, id, kind, Some(target), contract)
    ensures StepIs(step, id, kind, None, contract)
  {
  }

  lemma IdsAreUnique(content: Content)
    requires ValidLayout(content)
    ensures Unique(Ids(content))
  {
    hide MeetsAll;
    var ids := Ids(content);
    assert ids == ["preflight-current-state", "verify-mesh", "verify-route", "verify-dns", "guard-egress",
                   "connect-mesh", "set-route", "set-dns",
                   "rollback-dns", "rollback-route", "rollback-firewall"];
  }

  lemma ParametersAccepted(content: Content, profile: Profile, egress: Egress, compiler: Compiler, nodeId: string,
                           revision: nat,
                           planId: string, target: string, now: int)
    requires content == Compose(compiler, profile, egress, nodeId, revision, planId, target, now) && target in PROVIDERS
    requires UniqueValues(egress.recovery, 1, 32, 512) && UniqueValues(profile.resolvers, 1, 16, 512)
    ensures (forall i | 0 <= i < |content.actions| ::
             ValidStepParameters(content.actions[i], false, egress.recovery)) <==>
              && UniqueValues(egress.exits, 1, 32, 128) && Unbroken(egress.exits)
              && UniqueValues(egress.allowed, 0, 32, 512) && Unbroken(egress.allowed)
              && Unbroken(egress.recovery) && Unbroken(profile.resolvers)
  {
    hide ValidStepParameters, UniqueValues, Unbroken, MakeStep, MakeCheck;
    var actions := content.actions;
    FirewallStep(actions[0], egress);
    MeshStep(actions[1], target, egress.recovery);
    RouteStep(actions[2], egress.exits, egress.recovery);
    DnsStep(actions[3], profile.resolvers, egress.recovery);
    if forall i | 0 <= i < |actions| :: ValidStepParameters(actions[i], false, egress.recovery) {
      assert ValidStepParameters(actions[0], false, egress.recovery)
          && ValidStepParameters(actions[2], false, egress.recovery)
             && ValidStepParameters(actions[3], false, egress.recovery);
    }
  }

  /**
    A compiled plan is accepted by the enforcer of the same node, key and manifest, at every moment
    of its five minutes, if and only if the profile is portable: every validated trusted-exit
    profile whose strings are clean and whose allowed destinations are bounded is.
  */
  lemma CompiledPlansAreAccepted(compiler: Compiler, profile: Profile, nodeId: string, revision: nat,
                                 manifestNode: string,
                                 capabilities: seq<Capability>, planId: string, normalize: string -> string, now: int,
                                 later: int)
    requires Compile(compiler, profile, nodeId, revision, manifestNode, capabilities, planId, normalize, now).Compiled?
    requires SafeToken(planId) && now <= later < now + 5 * MINUTE
    ensures var plan := Compile(compiler, profile, nodeId, revision, manifestNode, capabilities, planId, normalize,
                                now).plan;
      var config := Config(compiler.deploymentId, nodeId, compiler.keyId, compiler.key, capabilities);
      && profile.egress.Some?
      && (Reject(plan, config, later, true).None? <==> Portable(profile, profile.egress.value))
  {
    hide Compose, ValidLayout, CheckValid, StepValid, Ids, Supports, ValidStepParameters, SafeToken;
    var plan := Compile(compiler, profile, nodeId, revision, manifestNode, capabilities, planId, normalize, now).plan;
    var config := Config(compiler.deploymentId, nodeId, compiler.keyId, compiler.key, capabilities);
    var egress, target := profile.egress.value, normalize(profile.provider);
    ComposedFields(compiler, profile, egress, nodeId, revision, planId, target, now);
    LayoutAccepted(plan.content, profile, egress, compiler, nodeId, revision, planId, target, now, config);
    ParametersAccepted(plan.content, profile, egress, compiler, nodeId, revision, planId, target, now);
    IdsAreUnique(plan.content);
    RecoveryAccepted(egress.recovery);
  }

  lemma RecoveryAccepted(recovery: seq<string>)
    requires UniqueValues(recovery, 1, 32, 512)
    ensures RecoveryValid(recovery) <==> Unbroken(recovery)
  {
    hide NoBreaks, Trimmed;
  }

  lemma ComposedFields(compiler: Compiler, profile: Profile, egress: Egress, nodeId: string, revision: nat,
                       planId: string, target: string, now: int)
    ensures var content := Compose(compiler, profile, egress, nodeId, revision, planId, target, now);
      && content.id == planId && content.deploymentId == compiler.deploymentId && content.nodeId == nodeId
      && content.policyId == profile.policyId && content.policyRevision == profile.revision
          && content.revision == revision
      && content.nonceBytes == 32 && content.createdAt == now && content.expiresAt == now + 5 * MINUTE
      && content.recoveryAllowlist == egress.recovery && content.sensitive
      && content.dryRun == DRY_RUN && content.dryRun != "" && |content.dryRun| <= 4096 && Trimmed(content.dryRun)
      && Bounded(content.preconditions) && Bounded(content.actions) && Bounded(content.verifications)
          && Bounded(content.rollback)
  {
    DryRunIsTrimmed();
  }

  lemma DryRunIsTrimmed()
    ensures DRY_RUN != "" && |DRY_RUN| <= 4096 && Trimmed(DRY_RUN)
  {
    assert DRY_RUN[0] == "Hold protected egress; "[0] == 'H';
    assert DRY_RUN[|DRY_RUN| - 1] == "roll back captured state on any failure."[39] == '.';
  }

  // ---------------------------------------------------------------- admitted by the compiler, refused by the enforcer

  /** A mesh-mode profile, open in the policy id and in every list a plan carries. */
  function MeshProfile(
    policyId: string, exits: seq<string>, allowed: seq<string>, recovery: seq<string>, resolvers: seq<string>): Profile
  {
    Profile(true, policyId, 1, true, true, true, "auto", Some(Egress(true, MeshEgress, exits, recovery, allowed)),
            true, resolvers, true, false, 1, false, [ActionPolicy(true, ["a"], ["c"])])
  }

  const FULL_MANIFEST: seq<Capability> :=
    [Capability(FIREWALL.key, Full, FIREWALL.operations), Capability(MESH.key, Full, MESH.operations),
     Capability(ROUTE.key, Full, ROUTE.operations), Capability(DNS.key, Full, DNS.operations)]

  const EXAMPLE_COMPILER := Compiler("deployment", "key", 1)

  function Unchanged(text: string): string {
    text
  }

  function CompileExample(profile: Profile): Compiled {
    Compile(EXAMPLE_COMPILER, profile, "node", 1, "node", FULL_MANIFEST, "plan", Unchanged, 0)
  }

  function RejectExample(plan: Plan): Option<Rejection> {
    Reject(plan, Config("deployment", "node", "key", 1, FULL_MANIFEST), 0, true)
  }

  lemma FullManifestSupports()
    ensures AllSupported(FULL_MANIFEST)
  {
    var one, two, three := FULL_MANIFEST[1..], FULL_MANIFEST[2..], FULL_MANIFEST[3..];
    assert one[1..] == two && two[1..] == three;
    assert Supports(three, Require(DNS)) && Supports(two, Require(ROUTE)) && Supports(one, Require(MESH));
    assert Supports(two, Require(DNS)) && Supports(one, Require(ROUTE));
    assert Supports(one, Require(DNS));
  }

  lemma OneName(name: string, maximum: nat, length: nat)
    requires |name| == 1 && !IsSpace(name[0]) && maximum > 0 && length > 0
    ensures UniqueValues([name], 1, maximum, length)
  {
  }

  /** In mesh mode only an empty policy id and improper recovery and resolver lists keep a profile from compiling. */
  lemma MeshProfilesCompile(
    policyId: string, exits: seq<string>, allowed: seq<string>, recovery: seq<string>, resolvers: seq<string>)
    ensures CompileExample(MeshProfile(policyId, exits, allowed, recovery, resolvers)).Compiled? <==>
              policyId != "" && UniqueValues(recovery, 1, 32, 512) && UniqueValues(resolvers, 1, 16, 512)
  {
    hide UniqueValues, Compose;
    FullManifestSupports();
    OneName("a", 32, 128);
    OneName("c", 32, 128);
  }

  /** Of the plans that result the enforcer accepts exactly those with a safe id and clean, bounded lists. */
  lemma MeshProfilesAccepted(
    policyId: string, exits: seq<string>, allowed: seq<string>, recovery: seq<string>, resolvers: seq<string>)
    requires policyId != "" && UniqueValues(recovery, 1, 32, 512) && UniqueValues(resolvers, 1, 16, 512)
    ensures CompileExample(MeshProfile(policyId, exits, allowed, recovery, resolvers)).Compiled?
    ensures RejectExample(CompileExample(MeshProfile(policyId, exits, allowed, recovery, resolvers)).plan).None? <==>
              && SafeToken(policyId) && UniqueValues(exits, 1, 32, 128) && Unbroken(exits)
              && UniqueValues(allowed, 0, 32, 512) && Unbroken(allowed) && Unbroken(recovery) && Unbroken(resolvers)
  {
    hide UniqueValues, Compile, Reject, SafeToken, Unbroken;
    MeshProfilesCompile(policyId, exits, allowed, recovery, resolvers);
    assert SafeToken("plan") by { PlanIsSafe(); }
    CompiledPlansAreAccepted(EXAMPLE_COMPILER, MeshProfile(policyId, exits, allowed, recovery, resolvers), "node", 1,
                             "node", FULL_MANIFEST, "plan", Unchanged, 0, 0);
  }

  lemma PlanIsSafe()
    ensures SafeToken("plan") && SafeToken("p")
  {
  }

  const BROKEN: seq<string> := ["x\ny"]

  lemma BrokenName(maximum: nat, length: nat)
    requires maximum > 0 && length > 2
    ensures UniqueValues(BROKEN, 1, maximum, length) && !Unbroken(BROKEN)
  {
    assert "x\ny"[1] == '\n' && !NoBreaks(BROKEN[0]);
  }

  ghost predicate CompiledAndRefused(profile: Profile) {
    CompileExample(profile).Compiled? && RejectExample(CompileExample(profile).plan).Some?
  }

  /** Profiles that compile and whose plans are refused, one for each condition the compiler does not look at. */
  lemma CompiledButRefused()
    ensures CompiledAndRefused(MeshProfile("p q", ["e"], [], ["r"], ["d"]))
    ensures CompiledAndRefused(MeshProfile("p", [], [], ["r"], ["d"]))
    ensures CompiledAndRefused(MeshProfile("p", BROKEN, [], ["r"], ["d"]))
    ensures CompiledAndRefused(MeshProfile("p", ["e"], ["x", "x"], ["r"], ["d"]))
    ensures CompiledAndRefused(MeshProfile("p", ["e"], BROKEN, ["r"], ["d"]))
    ensures CompiledAndRefused(MeshProfile("p", ["e"], [], BROKEN, ["d"]))
    ensures CompiledAndRefused(MeshProfile("p", ["e"], [], ["r"], BROKEN))
    ensures var plain := MeshProfile("p", ["e"], [], ["r"], ["d"]);
      CompileExample(plain).Compiled? && RejectExample(CompileExample(plain).plan).None?
  {
    hide CompileExample, RejectExample;
    OneName("r", 32, 512);
    OneName("d", 16, 512);
    OneName("e", 32, 128);
    BrokenName(32, 512);
    BrokenName(16, 512);
    PlanIsSafe();
    MeshProfilesAccepted("p q", ["e"], [], ["r"], ["d"]);
    assert !TokenCharacter("p q"[1]);
    MeshProfilesAccepted("p", [], [], ["r"], ["d"]);
    MeshProfilesAccepted("p", BROKEN, [], ["r"], ["d"]);
    MeshProfilesAccepted("p", ["e"], ["x", "x"], ["r"], ["d"]);
    assert ["x", "x"][0] == ["x", "x"][1];
    MeshProfilesAccepted("p", ["e"], BROKEN, ["r"], ["d"]);
    MeshProfilesAccepted("p", ["e"], [], BROKEN, ["d"]);
    MeshProfilesAccepted("p", ["e"], [], ["r"], BROKEN);
    MeshProfilesAccepted("p", ["e"], [], ["r"], ["d"]);
    assert Unbroken(["e"]) && Unbroken(["r"]) && Unbroken(["d"]);
  }
}
