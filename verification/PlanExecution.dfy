/**
  One plan execution and its replay defence (agent/enforcement/enforcer.go:78-164, 244-316,
  738-906).  The driver is any function of the calls made so far, so every behaviour is covered; a
  panic, an error and a timeout are one `broken` reply.
*/
module PlanExecution {
  import opened Common
  import opened PlanContract

  // ---------------------------------------------------------------- the driver and its answers

  datatype Evidence = Evidence(valid: bool, supporting: bool, firm: bool, trustedSource: bool, observedAt: int)

  datatype CheckOutcome = NoOutcome | Passed | NotPassed | Skipped | Unknown

  datatype CheckReply = CheckReply(broken: bool, outcome: CheckOutcome, evidence: seq<Evidence>, at: int)
  datatype StepReply = StepReply(broken: bool, succeeded: bool)

  datatype Call = CallCheck(planId: string, id: string) | CallApply(planId: string, id: string)
      | CallRollback(planId: string, id: string)

  datatype Driver = Driver(
    check: (seq<Call>, Check) -> CheckReply, apply: (seq<Call>, Step) -> StepReply,
    undo: (seq<Call>, Step) -> StepReply)

  datatype CheckResult = CheckResult(id: string, outcome: CheckOutcome)
  datatype StepResult = StepResult(id: string, succeeded: bool)

  /** Supporting, detected or verified, from a trusted kind of source, and neither stale nor from the future. */
  predicate Current(evidence: Evidence, at: int, maximumAge: int) {
    && evidence.supporting && evidence.firm && evidence.trustedSource
    && -5 * MINUTE <= at - evidence.observedAt <= maximumAge
  }

  predicate AllValid(evidence: seq<Evidence>) {
    forall i | 0 <= i < |evidence| :: evidence[i].valid
  }

  predicate SomeCurrent(evidence: seq<Evidence>, at: int, maximumAge: int) {
    exists i :: 0 <= i < |evidence| && Current(evidence[i], at, maximumAge)
  }

  /** runCheck: a pass stands only with current supporting evidence, and a required check cannot be skipped. */
  function Judge(check: Check, reply: CheckReply, maximumAge: int): (outcome: CheckOutcome)
    ensures outcome.Passed? <==>
              !reply.broken && reply.outcome.Passed? && AllValid(reply.evidence)
                  && SomeCurrent(reply.evidence, reply.at, maximumAge)
  {
    if reply.broken || !AllValid(reply.evidence) then Unknown
    else if reply.outcome.NoOutcome? || (reply.outcome.Passed? && !SomeCurrent(reply.evidence, reply.at, maximumAge))
        then Unknown
    else if check.required && reply.outcome.Skipped? then Unknown
    else reply.outcome
  }

  predicate Fine(check: Check, result: CheckResult) {
    check.required ==> result.outcome.Passed?
  }

  // ---------------------------------------------------------------- the phases of one execution

  datatype Checks = Checks(results: seq<CheckResult>, log: seq<Call>, failed: bool)
  datatype Steps = Steps(results: seq<StepResult>, log: seq<Call>, failed: bool)

  /** Checks in order up to the first required one that does not pass. */
  function RunChecks(planId: string, checks: seq<Check>, driver: Driver, log: seq<Call>, maximumAge: int): Checks
    decreases |checks|
  {
    if checks == [] then Checks([], log, false)
    else
      var check := checks[0];
      var result := CheckResult(check.id, Judge(check, driver.check(log, check), maximumAge));
      var after := log + [CallCheck(planId, check.id)];
      if !Fine(check, result) then Checks([result], after, true)
      else
        var rest := RunChecks(planId, checks[1..], driver, after, maximumAge);
        Checks([result] + rest.results, rest.log, rest.failed)
  }

  /** runOperation: an error or a panic of the driver is a failure. */
  function Reported(step: Step, reply: StepReply): StepResult {
    StepResult(step.id, !reply.broken && reply.succeeded)
  }

  /** Actions in order up to the first that fails. */
  function RunActions(planId: string, steps: seq<Step>, driver: Driver, log: seq<Call>): Steps
    decreases |steps|
  {
    if steps == [] then Steps([], log, false)
    else
      var result := Reported(steps[0], driver.apply(log, steps[0]));
      var after := log + [CallApply(planId, steps[0].id)];
      if !result.succeeded then Steps([result], after, true)
      else
        var rest := RunActions(planId, steps[1..], driver, after);
        Steps([result] + rest.results, rest.log, rest.failed)
  }

  /** Every rollback operation once, in order, whatever the others did. */
  function RunRollback(planId: string, steps: seq<Step>, driver: Driver, log: seq<Call>): Steps
    decreases |steps|
  {
    if steps == [] then Steps([], log, false)
    else
      var result := Reported(steps[0], driver.undo(log, steps[0]));
      var rest := RunRollback(planId, steps[1..], driver, log + [CallRollback(planId, steps[0].id)]);
      Steps([result] + rest.results, rest.log, rest.failed || !result.succeeded)
  }

  datatype Verdict = Rejected | RolledBack | Failed | Committed

  datatype PlanResult = PlanResult(
    planId: string, revision: nat, verdict: Verdict,
    preconditions: seq<CheckResult>, actions: seq<StepResult>, verifications: seq<CheckResult>,
    rollback: seq<StepResult>)

  datatype Executed = Executed(result: PlanResult, log: seq<Call>)

  function Undo(plan: Content, driver: Driver, log: seq<Call>, result: PlanResult): Executed {
    var undone := RunRollback(plan.id, plan.rollback, driver, log);
    Executed(result.(rollback := undone.results, verdict := if undone.failed then Failed else RolledBack), undone.log)
  }

  function Execute(plan: Content, driver: Driver, log: seq<Call>, maximumAge: int): Executed {
    var blank := PlanResult(plan.id, plan.revision, Rejected, [], [], [], []);
    var before := RunChecks(plan.id, plan.preconditions, driver, log, maximumAge);
    var checked := blank.(preconditions := before.results);
    if before.failed then Executed(checked, before.log)
    else
      var acted := RunActions(plan.id, plan.actions, driver, before.log);
      var applied := checked.(actions := acted.results);
      if acted.failed then Undo(plan, driver, acted.log, applied)
      else
        var after := RunChecks(plan.id, plan.verifications, driver, acted.log, maximumAge);
        var verified := applied.(verifications := after.results);
        if after.failed then Undo(plan, driver, after.log, verified)
        else Executed(verified.(verdict := Committed), after.log)
  }

  // ---------------------------------------------------------------- the shape of the call log

  function CheckCalls(planId: string, checks: seq<Check>): seq<Call> {
    seq(|checks|, i requires 0 <= i < |checks| => CallCheck(planId, checks[i].id))
  }

  function ApplyCalls(planId: string, steps: seq<Step>): seq<Call> {
    seq(|steps|, i requires 0 <= i < |steps| => CallApply(planId, steps[i].id))
  }

  function RollbackCalls(planId: string, steps: seq<Step>): seq<Call> {
    seq(|steps|, i requires 0 <= i < |steps| => CallRollback(planId, steps[i].id))
  }

  /** The result of the i-th check, judged by the driver's answer at its own place in the log. */
  function CheckedAt(checks: seq<Check>, i: nat, driver: Driver, log: seq<Call>, planId: string, maximumAge: int)
    : CheckResult
    requires i < |checks|
  {
    var reply := driver.check(log + CheckCalls(planId, checks[..i]), checks[i]);
    CheckResult(checks[i].id, Judge(checks[i], reply, maximumAge))
  }

  /** The checks that ran are a prefix, each judged by its own answer; only the last may be short of fine. */
  ghost predicate CheckPrefix(checks: seq<Check>, results: seq<CheckResult>, failed: bool, driver: Driver,
                              log: seq<Call>, planId: string, maximumAge: int) {
    && |results| <= |checks|
    && (forall i | 0 <= i < |results| ::
          && results[i] == CheckedAt(checks, i, driver, log, planId, maximumAge)
          && (Fine(checks[i], results[i]) <==> !(failed && i == |results| - 1)))
    && (if failed then results != [] else |results| == |checks|)
  }

  /** The actions that ran are a prefix, each reported as the driver answered it; only the last may have failed. */
  ghost predicate StepPrefix(planId: string, steps: seq<Step>, results: seq<StepResult>, failed: bool, driver: Driver,
                             log: seq<Call>) {
    && |results| <= |steps|
    && (forall i | 0 <= i < |results| ::
          && results[i] == Reported(steps[i], driver.apply(log + ApplyCalls(planId, steps[..i]), steps[i]))
          && (results[i].succeeded <==> !(failed && i == |results| - 1)))
    && (if failed then results != [] else |results| == |steps|)
  }

  lemma CallsCons(planId: string, check: Check, checks: seq<Check>, n: nat)
    requires n <= |checks|
    ensures CheckCalls(planId, ([check] + checks)[..n + 1])
        == [CallCheck(planId, check.id)] + CheckCalls(planId, checks[..n])
  {
  }

  lemma PrefixCons(check: Check, rest: seq<Check>, result: CheckResult, results: seq<CheckResult>, failed: bool,
                   driver: Driver, log: seq<Call>, planId: string, maximumAge: int)
    requires result == CheckResult(check.id, Judge(check, driver.check(log, check), maximumAge)) && Fine(check, result)
    requires CheckPrefix(rest, results, failed, driver, log + [CallCheck(planId, check.id)], planId, maximumAge)
    ensures CheckPrefix([check] + rest, [result] + results, failed, driver, log, planId, maximumAge)
  {
    hide Judge, Fine, CheckCalls;
    var checks, all := [check] + rest, [result] + results;
    var after := log + [CallCheck(planId, check.id)];
    forall i | 0 <= i < |all|
      ensures all[i] == CheckedAt(checks, i, driver, log, planId, maximumAge)
      ensures Fine(checks[i], all[i]) <==> !(failed && i == |all| - 1)
    {
      if i == 0 {
        NoChecksYet(planId, checks, log);
      } else {
        CallsCons(planId, check, rest, i - 1);
        assert after + CheckCalls(planId, rest[..i - 1]) == log + CheckCalls(planId, checks[..i]);
        assert all[i] == results[i - 1] && checks[i] == rest[i - 1];
      }
    }
  }

  lemma NoChecksYet(planId: string, checks: seq<Check>, log: seq<Call>)
    ensures log + CheckCalls(planId, checks[..0]) == log
  {
  }

  lemma PrefixStops(check: Check, rest: seq<Check>, result: CheckResult, driver: Driver, log: seq<Call>, planId: string,
                    maximumAge: int)
    requires result == CheckResult(check.id, Judge(check, driver.check(log, check), maximumAge)) && !Fine(check, result)
    ensures CheckPrefix([check] + rest, [result], true, driver, log, planId, maximumAge)
  {
    hide Judge;
    NoChecksYet(planId, [check] + rest, log);
  }

  lemma {:induction false} ChecksShape(planId: string, checks: seq<Check>, driver: Driver, log: seq<Call>,
                                       maximumAge: int)
    ensures var run := RunChecks(planId, checks, driver, log, maximumAge);
      && CheckPrefix(checks, run.results, run.failed, driver, log, planId, maximumAge) && |run.results| <= |checks|
      && run.log == log + CheckCalls(planId, checks[..|run.results|])
    decreases |checks|
  {
    hide Judge, Fine, CheckPrefix;
    if checks == [] {
      EmptyPrefix(driver, log, planId, maximumAge);
      NoChecksYet(planId, checks, log);
    } else {
      var check, rest := checks[0], checks[1..];
      var result := CheckResult(check.id, Judge(check, driver.check(log, check), maximumAge));
      var after := log + [CallCheck(planId, check.id)];
      assert checks == [check] + rest;
      if !Fine(check, result) {
        PrefixStops(check, rest, result, driver, log, planId, maximumAge);
        CallsCons(planId, check, rest, 0);
        NoChecksYet(planId, rest, after);
      } else {
        ChecksShape(planId, rest, driver, after, maximumAge);
        var later := RunChecks(planId, rest, driver, after, maximumAge);
        PrefixCons(check, rest, result, later.results, later.failed, driver, log, planId, maximumAge);
        CallsCons(planId, check, rest, |later.results|);
        assert after + CheckCalls(planId, rest[..|later.results|])
            == log + CheckCalls(planId, checks[..|later.results| + 1]);
      }
    }
  }

  lemma EmptyPrefix(driver: Driver, log: seq<Call>, planId: string, maximumAge: int)
    ensures CheckPrefix([], [], false, driver, log, planId, maximumAge)
  {
  }

  lemma StepPrefixCons(planId: string, step: Step, rest: seq<Step>, result: StepResult, results: seq<StepResult>,
                       failed: bool,
                       driver: Driver, log: seq<Call>)
    requires result == Reported(step, driver.apply(log, step)) && result.succeeded
    requires StepPrefix(planId, rest, results, failed, driver, log + [CallApply(planId, step.id)])
    ensures StepPrefix(planId, [step] + rest, [result] + results, failed, driver, log)
  {
    hide Reported, ApplyCalls;
    var steps, all := [step] + rest, [result] + results;
    forall i | 0 <= i < |all|
      ensures all[i] == Reported(steps[i], driver.apply(log + ApplyCalls(planId, steps[..i]), steps[i]))
      ensures all[i].succeeded <==> !(failed && i == |all| - 1)
    {
      if i == 0 {
        NoStepsYet(planId, steps, log);
      } else {
        ApplyCallsCons(planId, step, rest, i - 1);
        assert log + [CallApply(planId, step.id)] + ApplyCalls(planId, rest[..i - 1])
            == log + ApplyCalls(planId, steps[..i]);
        assert all[i] == results[i - 1] && steps[i] == rest[i - 1];
      }
    }
  }

  lemma StepStops(planId: string, step: Step, rest: seq<Step>, result: StepResult, driver: Driver, log: seq<Call>)
    requires result == Reported(step, driver.apply(log, step)) && !result.succeeded
    ensures StepPrefix(planId, [step] + rest, [result], true, driver, log)
  {
    NoStepsYet(planId, [step] + rest, log);
  }

  lemma NoStepsYet(planId: string, steps: seq<Step>, log: seq<Call>)
    ensures log + ApplyCalls(planId, steps[..0]) == log && log + RollbackCalls(planId, steps[..0]) == log
  {
  }

  lemma ApplyCallsCons(planId: string, step: Step, steps: seq<Step>, n: nat)
    requires n <= |steps|
    ensures ApplyCalls(planId, ([step] + steps)[..n + 1])
        == [CallApply(planId, step.id)] + ApplyCalls(planId, steps[..n])
  {
  }

  lemma {:induction false} ActionsShape(planId: string, steps: seq<Step>, driver: Driver, log: seq<Call>)
    ensures var run := RunActions(planId, steps, driver, log);
      && StepPrefix(planId, steps, run.results, run.failed, driver, log) && |run.results| <= |steps|
      && run.log == log + ApplyCalls(planId, steps[..|run.results|])
    decreases |steps|
  {
    hide ApplyCalls, Reported;
    if steps == [] {
      NoStepsYet(planId, steps, log);
    } else {
      hide StepPrefix;
      var step, rest := steps[0], steps[1..];
      assert steps == [step] + rest;
      var result := Reported(step, driver.apply(log, step));
      var after := log + [CallApply(planId, step.id)];
      ApplyCallsCons(planId, step, rest, 0);
      NoStepsYet(planId, rest, after);
      if result.succeeded {
        ActionsShape(planId, rest, driver, after);
        var later := RunActions(planId, rest, driver, after);
        StepPrefixCons(planId, step, rest, result, later.results, later.failed, driver, log);
        ApplyCallsCons(planId, step, rest, |later.results|);
        assert after + ApplyCalls(planId, rest[..|later.results|])
            == log + ApplyCalls(planId, steps[..|later.results| + 1]);
      } else {
        StepStops(planId, step, rest, result, driver, log);
        assert after + ApplyCalls(planId, rest[..0]) == log + ApplyCalls(planId, steps[..1]);
      }
    }
  }

  /** Every rollback ran once, reported as the driver answered it; the whole failed exactly when one of them did. */
  ghost predicate AllRan(planId: string, steps: seq<Step>, results: seq<StepResult>, failed: bool, driver: Driver,
                         log: seq<Call>) {
    && |results| == |steps|
    && (forall i | 0 <= i < |steps| ::
        results[i] == Reported(steps[i], driver.undo(log + RollbackCalls(planId, steps[..i]), steps[i])))
    && (failed <==> !AllSucceeded(steps, results))
  }

  lemma RollbackCallsCons(planId: string, step: Step, steps: seq<Step>, n: nat)
    requires n <= |steps|
    ensures RollbackCalls(planId, ([step] + steps)[..n + 1])
        == [CallRollback(planId, step.id)] + RollbackCalls(planId, steps[..n])
  {
  }

  lemma AllRanCons(planId: string, step: Step, rest: seq<Step>, result: StepResult, results: seq<StepResult>,
                   failed: bool,
                   driver: Driver, log: seq<Call>)
    requires result == Reported(step, driver.undo(log, step))
    requires AllRan(planId, rest, results, failed, driver, log + [CallRollback(planId, step.id)])
    ensures AllRan(planId, [step] + rest, [result] + results, failed || !result.succeeded, driver, log)
  {
    hide Reported, RollbackCalls;
    var steps, all := [step] + rest, [result] + results;
    forall i | 0 <= i < |all|
      ensures all[i] == Reported(steps[i], driver.undo(log + RollbackCalls(planId, steps[..i]), steps[i]))
    {
      if i == 0 {
        NoStepsYet(planId, steps, log);
      } else {
        RollbackCallsCons(planId, step, rest, i - 1);
        assert log + [CallRollback(planId, step.id)] + RollbackCalls(planId, rest[..i - 1])
            == log + RollbackCalls(planId, steps[..i]);
        assert all[i] == results[i - 1] && steps[i] == rest[i - 1];
      }
    }
    AllSucceededCons(step, rest, result, results);
  }

  lemma AllSucceededCons(step: Step, rest: seq<Step>, result: StepResult, results: seq<StepResult>)
    ensures AllSucceeded([step] + rest, [result] + results) <==> result.succeeded && AllSucceeded(rest, results)
  {
    var all := [result] + results;
    assert all[0] == result && forall i | 0 <= i < |results| :: results[i] == all[i + 1];
  }

  lemma {:induction false} RollbackShape(planId: string, steps: seq<Step>, driver: Driver, log: seq<Call>)
    ensures var run := RunRollback(planId, steps, driver, log);
      AllRan(planId, steps, run.results, run.failed, driver, log) && run.log == log + RollbackCalls(planId, steps)
    decreases |steps|
  {
    hide Reported;
    if steps == [] {
      assert log + [] == log;
    } else {
      hide AllRan, RollbackCalls;
      var step, rest := steps[0], steps[1..];
      assert steps == [step] + rest;
      var result := Reported(step, driver.undo(log, step));
      var after := log + [CallRollback(planId, step.id)];
      RollbackShape(planId, rest, driver, after);
      var later := RunRollback(planId, rest, driver, after);
      AllRanCons(planId, step, rest, result, later.results, later.failed, driver, log);
      RollbackCallsCons(planId, step, rest, |rest|);
      assert steps[..|rest| + 1] == steps && rest[..|rest|] == rest;
      assert after + RollbackCalls(planId, rest) == log + RollbackCalls(planId, steps);
    }
  }

  /** The phases a result says have run, and how the verdict follows from them. */
  ghost predicate Shaped(plan: Content, result: PlanResult, calls: seq<Call>) {
    var p, a, v, r := |result.preconditions|, |result.actions|, |result.verifications|, |result.rollback|;
    && p <= |plan.preconditions| && a <= |plan.actions| && v <= |plan.verifications|
    && calls == CheckCalls(plan.id, plan.preconditions[..p]) + ApplyCalls(plan.id, plan.actions[..a])
                + CheckCalls(plan.id, plan.verifications[..v])
                    + (if r == 0 then [] else RollbackCalls(plan.id, plan.rollback))
    && (r == 0 || r == |plan.rollback|)
  }

  ghost predicate AllFine(checks: seq<Check>, results: seq<CheckResult>) {
    |results| == |checks| && forall i | 0 <= i < |checks| :: Fine(checks[i], results[i])
  }

  predicate AllSucceeded(steps: seq<Step>, results: seq<StepResult>) {
    |results| == |steps| && forall i | 0 <= i < |steps| :: results[i].succeeded
  }

  /** Committed, rejected, rolled back or failed: each exactly when the phases say so. */
  ghost predicate VerdictFollows(plan: Content, result: PlanResult) {
    var checked := AllFine(plan.preconditions, result.preconditions);
    var acted := AllSucceeded(plan.actions, result.actions);
    var verified := AllFine(plan.verifications, result.verifications);
    && (result.verdict.Rejected? <==> !checked) && (result.verdict.Committed? <==> checked && acted && verified)
    && (!checked ==> result.actions == []) && (!acted ==> result.verifications == [])
    && (checked && !(acted && verified) ==> |result.rollback| == |plan.rollback|)
    && (!checked || (acted && verified) ==> result.rollback == [])
    && (result.verdict.RolledBack? <==> checked && !(acted && verified) && AllSucceeded(plan.rollback, result.rollback))
  }

  lemma PrefixFine(checks: seq<Check>, results: seq<CheckResult>, failed: bool, driver: Driver, log: seq<Call>,
                   planId: string, maximumAge: int)
    requires CheckPrefix(checks, results, failed, driver, log, planId, maximumAge)
    ensures AllFine(checks, results) <==> !failed
  {
    if failed {
      assert !Fine(checks[|results| - 1], results[|results| - 1]);
    }
  }

  lemma PrefixSucceeded(planId: string, steps: seq<Step>, results: seq<StepResult>, failed: bool, driver: Driver,
                        log: seq<Call>)
    requires StepPrefix(planId, steps, results, failed, driver, log)
    ensures AllSucceeded(steps, results) <==> !failed
  {
    if failed {
      assert !results[|results| - 1].succeeded;
    }
  }

  /**
    For every driver: preconditions, then actions, then verifications in order, each up to the first
    that stops the plan, and after an action or verification failure every rollback once in order.
  */
  lemma ExecutionShape(plan: Content, driver: Driver, log: seq<Call>, maximumAge: int)
    requires plan.rollback != []
    ensures var executed := Execute(plan, driver, log, maximumAge);
      && log <= executed.log && Shaped(plan, executed.result, executed.log[|log|..])
          && VerdictFollows(plan, executed.result)
      && executed.result.planId == plan.id && executed.result.revision == plan.revision
  {
    hide RunChecks, RunActions, RunRollback, CheckPrefix, StepPrefix, AllFine, AllSucceeded, CheckCalls, ApplyCalls,
         RollbackCalls;
    NoCalls(plan);
    ChecksShape(plan.id, plan.preconditions, driver, log, maximumAge);
    var before := RunChecks(plan.id, plan.preconditions, driver, log, maximumAge);
    PrefixFine(plan.preconditions, before.results, before.failed, driver, log, plan.id, maximumAge);
    var first := CheckCalls(plan.id, plan.preconditions[..|before.results|]);
    if before.failed {
      assert (log + first)[|log|..] == first + [] + [] + [];
    } else {
      ActionsShape(plan.id, plan.actions, driver, before.log);
      var acted := RunActions(plan.id, plan.actions, driver, before.log);
      PrefixSucceeded(plan.id, plan.actions, acted.results, acted.failed, driver, before.log);
      var second := ApplyCalls(plan.id, plan.actions[..|acted.results|]);
      var applied := PlanResult(plan.id, plan.revision, Rejected, before.results, acted.results, [], []);
      if acted.failed {
        UndoShape(plan, driver, acted.log, applied);
        assert (log + first + second + RollbackCalls(plan.id, plan.rollback))[|log|..]
            == first + second + [] + RollbackCalls(plan.id, plan.rollback);
      } else {
        ChecksShape(plan.id, plan.verifications, driver, acted.log, maximumAge);
        var after := RunChecks(plan.id, plan.verifications, driver, acted.log, maximumAge);
        PrefixFine(plan.verifications, after.results, after.failed, driver, acted.log, plan.id, maximumAge);
        var third := CheckCalls(plan.id, plan.verifications[..|after.results|]);
        if after.failed {
          UndoShape(plan, driver, after.log, applied.(verifications := after.results));
          assert (log + first + second + third + RollbackCalls(plan.id, plan.rollback))[|log|..]
              == first + second + third + RollbackCalls(plan.id, plan.rollback);
        } else {
          assert (log + first + second + third)[|log|..] == first + second + third + [];
        }
      }
    }
  }

  lemma NoCalls(plan: Content)
    ensures ApplyCalls(plan.id, plan.actions[..0]) == [] && CheckCalls(plan.id, plan.verifications[..0]) == []
  {
  }

  lemma UndoShape(plan: Content, driver: Driver, log: seq<Call>, result: PlanResult)
    ensures var undone := Undo(plan, driver, log, result);
      && undone.log == log + RollbackCalls(plan.id, plan.rollback) && |undone.result.rollback| == |plan.rollback|
      && undone.result == result.(rollback := undone.result.rollback, verdict := undone.result.verdict)
      && (undone.result.verdict.RolledBack? <==> AllSucceeded(plan.rollback, undone.result.rollback))
      && (undone.result.verdict.RolledBack? || undone.result.verdict.Failed?)
  {
    RollbackShape(plan.id, plan.rollback, driver, log);
  }

  /** Each phase is reported as the driver answered it, at its own place in the log, up to the first failure. */
  ghost predicate Followed(plan: Content, executed: Executed, driver: Driver, log: seq<Call>, maximumAge: int) {
    var result := executed.result;
    var checked := AllFine(plan.preconditions, result.preconditions);
    var acted := AllSucceeded(plan.actions, result.actions);
    var verified := AllFine(plan.verifications, result.verifications);
    var acting := log + CheckCalls(plan.id, plan.preconditions);
    var verifying := acting + ApplyCalls(plan.id, plan.actions);
    var undoing := |executed.log| - |plan.rollback|;
    && CheckPrefix(plan.preconditions, result.preconditions, !checked, driver, log, plan.id, maximumAge)
    && (checked ==> StepPrefix(plan.id, plan.actions, result.actions, !acted, driver, acting))
    && (checked && acted ==> CheckPrefix(plan.verifications, result.verifications, !verified, driver, verifying,
                                         plan.id, maximumAge))
    && (result.rollback != [] ==>
          && 0 <= undoing
          && AllRan(plan.id, plan.rollback, result.rollback, result.verdict.Failed?, driver, executed.log[..undoing]))
  }

  lemma ExecutionFollows(plan: Content, driver: Driver, log: seq<Call>, maximumAge: int)
    ensures Followed(plan, Execute(plan, driver, log, maximumAge), driver, log, maximumAge)
  {
    hide RunChecks, RunActions, RunRollback, CheckPrefix, StepPrefix, AllRan, AllFine, AllSucceeded, CheckCalls,
         ApplyCalls, RollbackCalls;
    ChecksShape(plan.id, plan.preconditions, driver, log, maximumAge);
    var before := RunChecks(plan.id, plan.preconditions, driver, log, maximumAge);
    PrefixFine(plan.preconditions, before.results, before.failed, driver, log, plan.id, maximumAge);
    if !before.failed {
      FullPrefix(plan.preconditions, before.results, driver, log, plan.id, maximumAge);
      assert plan.preconditions[..|before.results|] == plan.preconditions;
      ActionsShape(plan.id, plan.actions, driver, before.log);
      var acted := RunActions(plan.id, plan.actions, driver, before.log);
      PrefixSucceeded(plan.id, plan.actions, acted.results, acted.failed, driver, before.log);
      if acted.failed {
        UndoFollows(plan, driver, acted.log);
      } else {
        FullSteps(plan.id, plan.actions, acted.results, driver, before.log);
        assert plan.actions[..|acted.results|] == plan.actions;
        ChecksShape(plan.id, plan.verifications, driver, acted.log, maximumAge);
        var after := RunChecks(plan.id, plan.verifications, driver, acted.log, maximumAge);
        PrefixFine(plan.verifications, after.results, after.failed, driver, acted.log, plan.id, maximumAge);
        UndoFollows(plan, driver, after.log);
      }
    }
  }

  lemma UndoFollows(plan: Content, driver: Driver, log: seq<Call>)
    ensures var undone := RunRollback(plan.id, plan.rollback, driver, log);
      && |undone.log| == |log| + |plan.rollback| && undone.log[..|log|] == log
      && AllRan(plan.id, plan.rollback, undone.results, undone.failed, driver, log)
  {
    hide AllRan, RunRollback;
    RollbackShape(plan.id, plan.rollback, driver, log);
    assert |RollbackCalls(plan.id, plan.rollback)| == |plan.rollback|;
  }

  /** A check that was answered with a pass and with valid evidence, some of it current. */
  predicate Evidenced(reply: CheckReply, maximumAge: int) {
    !reply.broken && reply.outcome.Passed? && AllValid(reply.evidence)
        && SomeCurrent(reply.evidence, reply.at, maximumAge)
  }

  lemma FineIsEvidenced(checks: seq<Check>, results: seq<CheckResult>, driver: Driver, log: seq<Call>, planId: string,
                        maximumAge: int, i: nat)
    requires CheckPrefix(checks, results, false, driver, log, planId, maximumAge) && i < |checks| && checks[i].required
    ensures Evidenced(driver.check(log + CheckCalls(planId, checks[..i]), checks[i]), maximumAge)
  {
    assert Fine(checks[i], results[i]);
  }

  /**
    COMMITTED only if every required check, before and after, passed with current evidence at its
    own place in the log.
  */
  lemma CommittedIsEvidenced(plan: Content, driver: Driver, log: seq<Call>, maximumAge: int, i: nat)
    requires Execute(plan, driver, log, maximumAge).result.verdict.Committed?
    ensures var end := Execute(plan, driver, log, maximumAge).log;
      var p, a := |log|, |log| + |plan.preconditions| + |plan.actions|;
      && |end| == a + |plan.verifications|
      && (i < |plan.preconditions| && plan.preconditions[i].required ==>
          Evidenced(driver.check(end[..p + i], plan.preconditions[i]), maximumAge))
      && (i < |plan.verifications| && plan.verifications[i].required ==>
          Evidenced(driver.check(end[..a + i], plan.verifications[i]), maximumAge))
  {
    hide RunChecks, RunActions, RunRollback, CheckPrefix, StepPrefix, Evidenced;
    var before := RunChecks(plan.id, plan.preconditions, driver, log, maximumAge);
    var acted := RunActions(plan.id, plan.actions, driver, before.log);
    var after := RunChecks(plan.id, plan.verifications, driver, acted.log, maximumAge);
    ChecksShape(plan.id, plan.preconditions, driver, log, maximumAge);
    ActionsShape(plan.id, plan.actions, driver, before.log);
    ChecksShape(plan.id, plan.verifications, driver, acted.log, maximumAge);
    FullPrefix(plan.preconditions, before.results, driver, log, plan.id, maximumAge);
    FullPrefix(plan.verifications, after.results, driver, acted.log, plan.id, maximumAge);
    FullSteps(plan.id, plan.actions, acted.results, driver, before.log);
    var end := Execute(plan, driver, log, maximumAge).log;
    if i < |plan.preconditions| && plan.preconditions[i].required {
      FineIsEvidenced(plan.preconditions, before.results, driver, log, plan.id, maximumAge, i);
      assert end[..|log| + i] == log + CheckCalls(plan.id, plan.preconditions[..i]);
    }
    if i < |plan.verifications| && plan.verifications[i].required {
      FineIsEvidenced(plan.verifications, after.results, driver, acted.log, plan.id, maximumAge, i);
      assert end[..|acted.log| + i] == acted.log + CheckCalls(plan.id, plan.verifications[..i]);
    }
  }

  lemma FullPrefix(checks: seq<Check>, results: seq<CheckResult>, driver: Driver, log: seq<Call>, planId: string,
                   maximumAge: int)
    requires CheckPrefix(checks, results, false, driver, log, planId, maximumAge)
    ensures |results| == |checks| && |CheckCalls(planId, checks[..|results|])| == |checks|
  {
  }

  lemma FullSteps(planId: string, steps: seq<Step>, results: seq<StepResult>, driver: Driver, log: seq<Call>)
    requires StepPrefix(planId, steps, results, false, driver, log)
    ensures |results| == |steps|
  {
  }

  // ---------------------------------------------------------------- the replay store

  datatype Reservation = Reservation(planId: string, fingerprint: string, policyRevision: nat, planRevision: nat)

  datatype Record = Record(reservation: Reservation, result: Option<PlanResult>)

  datatype Store = Store(policyRevision: nat, planRevision: nat, records: map<string, Record>)

  datatype Grant = Fresh(store: Store) | Replayed(result: PlanResult) | InProgress | Replay

  function Reserve(store: Store, reservation: Reservation): Grant {
    if reservation.planId in store.records then
      var existing := store.records[reservation.planId];
      if existing.reservation != reservation then Replay
      else if existing.result.None? then InProgress
      else Replayed(existing.result.value)
    else if reservation.planId == "" || reservation.fingerprint == "" || reservation.policyRevision == 0
        || reservation.planRevision == 0
            || reservation.policyRevision < store.policyRevision || reservation.planRevision <= store.planRevision
    then Replay
    else Fresh(Store(reservation.policyRevision, reservation.planRevision,
                     store.records[reservation.planId := Record(reservation, None)]))
  }

  function Complete(store: Store, result: PlanResult): Option<Store> {
    if result.planId == "" || result.planId !in store.records
        || store.records[result.planId].reservation.planRevision != result.revision then None
    else
      match store.records[result.planId].result
      case Some(previous) => if previous == result then Some(store) else None
      case None =>
        var completed := store.records[result.planId].(result := Some(result));
        Some(store.(records := store.records[result.planId := completed]))
  }

  /** `calls` bounds how far a crash lets the execution get; `executed` lists the plans whose execution began. */
  datatype World = World(store: Store, log: seq<Call>, executed: seq<string>)

  datatype Answer = Answered(result: PlanResult) | Refused | Died

  datatype Environment = Environment(
    fits: bool, now: int, fingerprint: string, driver: Driver, maximumAge: int, trusted: bool, reserve: Fault,
    crash: Option<nat>, complete: Fault)

  function Refusal(plan: Plan): PlanResult {
    PlanResult(plan.content.id, plan.content.revision, Rejected, [], [], [], [])
  }

  /** Apply: validate, reserve, execute, complete.  A crash keeps what the driver was already asked to do. */
  function Apply(world: World, plan: Plan, config: Config, env: Environment): (World, Answer) {
    if Reject(plan, config, env.now, env.fits).Some? then (world, Answered(Refusal(plan)))
    else
      var content := plan.content;
      var grant := Reserve(world.store,
                           Reservation(content.id, env.fingerprint, content.policyRevision, content.revision));
      if env.reserve.DiesBefore? then (world, Died)
      else if env.reserve.Refuses? then (world, Answered(Refusal(plan)))
      else
        match grant
        case Fresh(store) =>
          var reserved := world.(store := store);
          if env.reserve.DiesAfter? then (reserved, Died)
          else if env.reserve.Tears? then (reserved, Answered(Refusal(plan)))
          else Carry(reserved, content, env)
        case Replayed(result) =>
          if env.reserve.DiesAfter? then (world, Died)
          else if env.reserve.Tears? then (world, Answered(Refusal(plan)))
          else if result.planId == content.id && result.revision == content.revision && env.trusted
              then (world, Answered(result))
          else (world, Refused)
        case _ => (world, if env.reserve.DiesAfter? then Died else Answered(Refusal(plan)))
  }

  function Carry(world: World, content: Content, env: Environment): (World, Answer) {
    var executed := Execute(content, env.driver, world.log, env.maximumAge);
    var begun := world.(executed := world.executed + [content.id]);
    if env.crash.Some? && |world.log| + env.crash.value <= |executed.log|
    then (begun.(log := executed.log[..|world.log| + env.crash.value]), Died)
    else
      var ran := begun.(log := executed.log);
      var completed := Complete(world.store, executed.result);
      var stored := if completed.Some? && Lands(env.complete) then ran.(store := completed.value) else ran;
      (stored, if Kills(env.complete) then Died else Answered(executed.result))
  }

  // ---------------------------------------------------------------- every sequence of calls

  /** No action was ever asked of the driver a second time. */
  predicate AppliedOnce(log: seq<Call>) {
    forall i, j | 0 <= i < j < |log| :: log[i].CallApply? ==> log[i] != log[j]
  }

  predicate DistinctActions(plan: Content) {
    forall i, j | 0 <= i < j < |plan.actions| :: plan.actions[i].id != plan.actions[j].id
  }

  lemma ShapedOnce(plan: Content, result: PlanResult, calls: seq<Call>)
    requires Shaped(plan, result, calls) && DistinctActions(plan)
    ensures AppliedOnce(calls)
  {
    var p, a := |result.preconditions|, |result.actions|;
    var applies := ApplyCalls(plan.id, plan.actions[..a]);
    forall i | 0 <= i < |calls| && calls[i].CallApply?
      ensures p <= i < p + a && calls[i] == applies[i - p]
    {
    }
  }

  /** Every plan the driver was called for is on record, no plan's execution began twice, and no action was repeated. */
  ghost predicate Recorded(world: World) {
    && AppliedOnce(world.log)
    && (forall i | 0 <= i < |world.log| :: world.log[i].planId in world.executed)
    && (forall i | 0 <= i < |world.executed| :: world.executed[i] in world.store.records)
    && (forall i, j | 0 <= i < j < |world.executed| :: world.executed[i] != world.executed[j])
  }

  lemma CompleteKeeps(store: Store, result: PlanResult)
    ensures var completed := Complete(store, result);
      completed.Some? ==>
        && completed.value.records.Keys == store.records.Keys
        && (forall id | id in store.records :: completed.value.records[id].reservation == store.records[id].reservation)
  {
  }

  lemma {:induction false} ExecutionNamesThePlan(plan: Content, driver: Driver, log: seq<Call>, maximumAge: int)
    requires plan.rollback != []
    ensures var end := Execute(plan, driver, log, maximumAge).log;
      log <= end && forall i | |log| <= i < |end| :: end[i].planId == plan.id
  {
    hide Execute, VerdictFollows;
    ExecutionShape(plan, driver, log, maximumAge);
    var end := Execute(plan, driver, log, maximumAge).log;
    var calls := end[|log|..];
    ShapedNames(plan, Execute(plan, driver, log, maximumAge).result, calls);
    forall i | |log| <= i < |end|
      ensures end[i].planId == plan.id
    {
      assert end[i] == calls[i - |log|];
    }
  }

  lemma ShapedNames(plan: Content, result: PlanResult, calls: seq<Call>)
    requires Shaped(plan, result, calls)
    ensures forall i | 0 <= i < |calls| :: calls[i].planId == plan.id
  {
  }

  lemma StillOnce(log: seq<Call>, longer: seq<Call>, planId: string, executed: seq<string>)
    requires AppliedOnce(log) && log <= longer && AppliedOnce(longer[|log|..]) && planId !in executed
    requires forall i | 0 <= i < |log| :: log[i].planId in executed
    requires forall i | |log| <= i < |longer| :: longer[i].planId == planId
    ensures forall n | |log| <= n <= |longer| :: AppliedOnce(longer[..n])
    ensures AppliedOnce(longer)
  {
    forall i, j | 0 <= i < j < |longer| && longer[i].CallApply?
      ensures longer[i] != longer[j]
    {
      if i < |log| {
        assert longer[i] == log[i];
        if j < |log| {
          assert longer[j] == log[j];
        }
      } else {
        assert longer[i] == longer[|log|..][i - |log|] && longer[j] == longer[|log|..][j - |log|];
      }
    }
  }

  lemma CarryKeeps(world: World, content: Content, env: Environment)
    requires Recorded(world) && content.id in world.store.records && content.id !in world.executed
    requires content.rollback != [] && DistinctActions(content)
    ensures Recorded(Carry(world, content, env).0)
  {
    hide Execute, Complete, Shaped, VerdictFollows, DistinctActions;
    ExecutionNamesThePlan(content, env.driver, world.log, env.maximumAge);
    var whole := Execute(content, env.driver, world.log, env.maximumAge);
    ExecutionShape(content, env.driver, world.log, env.maximumAge);
    ShapedOnce(content, whole.result, whole.log[|world.log|..]);
    StillOnce(world.log, whole.log, content.id, world.executed);
    CompleteKeeps(world.store, Execute(content, env.driver, world.log, env.maximumAge).result);
    var after := Carry(world, content, env).0;
    assert after.executed == world.executed + [content.id];
    forall i | 0 <= i < |after.log|
      ensures after.log[i].planId in after.executed
    {
      if i >= |world.log| {
        assert after.executed[|world.executed|] == content.id;
      } else {
        assert after.log[i] == world.log[i];
      }
    }
  }

  lemma ApplyKeeps(world: World, plan: Plan, config: Config, env: Environment)
    requires Recorded(world)
    ensures Recorded(Apply(world, plan, config, env).0)
  {
    hide Reject, Carry;
    AcceptedHasRollback(plan, config, env.now, env.fits);
    var content := plan.content;
    var grant := Reserve(world.store,
                         Reservation(content.id, env.fingerprint, content.policyRevision, content.revision));
    if grant.Fresh? && Reject(plan, config, env.now, env.fits).None? {
      assert content.id !in world.store.records;
      var reserved := world.(store := grant.store);
      assert Recorded(reserved);
      assert content.id !in world.executed;
      CarryKeeps(reserved, content, env);
    }
  }

  lemma AcceptedHasRollback(plan: Plan, config: Config, now: int, fits: bool)
    ensures Reject(plan, config, now, fits).None? ==> plan.content.rollback != [] && DistinctActions(plan.content)
  {
    hide CheckValid, StepValid, Ids, SignerValid, SignatureVerifies, RecoveryValid, SafeToken, Trimmed, MeetsAll;
  }

  datatype Request = Request(plan: Plan, config: Config, env: Environment)

  function Play(world: World, requests: seq<Request>): World
    decreases |requests|
  {
    if requests == [] then world
    else Play(Apply(world, requests[0].plan, requests[0].config, requests[0].env).0, requests[1..])
  }

  /** Across any sequence of calls, redeliveries, failures and crashes, no plan id's execution begins twice. */
  lemma {:induction false} NoPlanRunsTwice(world: World, requests: seq<Request>)
    requires Recorded(world)
    ensures Recorded(Play(world, requests))
    decreases |requests|
  {
    hide Recorded, Apply;
    if requests != [] {
      ApplyKeeps(world, requests[0].plan, requests[0].config, requests[0].env);
      NoPlanRunsTwice(Apply(world, requests[0].plan, requests[0].config, requests[0].env).0, requests[1..]);
    }
  }
}
