/**
  The enforcer and its in-memory replay store as objects (agent/enforcement/enforcer.go:86-155,
  244-316, 738-906), each method proved to be the step of the execution model.
*/
module PlanEnforcer {
  import opened Common
  import opened PlanContract
  import opened PlanExecution

  class MemoryStateStore {
    var policyRevision: nat
    var planRevision: nat
    var records: map<string, Record>

    function Contents(): Store
      reads this
    {
      Store(policyRevision, planRevision, records)
    }

    constructor (policyRevision: nat, planRevision: nat)
      ensures Contents() == Store(policyRevision, planRevision, map[])
    {
      this.policyRevision, this.planRevision, records := policyRevision, planRevision, map[];
    }

    method ReservePlan(reservation: Reservation) returns (grant: Grant)
      modifies this
      ensures grant == Reserve(old(Contents()), reservation)
      ensures Contents() == if grant.Fresh? then grant.store else old(Contents())
    {
      if reservation.planId in records {
        var existing := records[reservation.planId];
        if existing.reservation != reservation {
          return Replay;
        }
        if existing.result.None? {
          return InProgress;
        }
        return Replayed(existing.result.value);
      }
      if reservation.planId == "" || reservation.fingerprint == "" || reservation.policyRevision == 0
          || reservation.planRevision == 0
         || reservation.policyRevision < policyRevision || reservation.planRevision <= planRevision {
        return Replay;
      }
      policyRevision := reservation.policyRevision;
      planRevision := reservation.planRevision;
      records := records[reservation.planId := Record(reservation, None)];
      grant := Fresh(Contents());
    }

    method CompletePlan(result: PlanResult) returns (ok: bool)
      modifies this
      ensures ok <==> Complete(old(Contents()), result).Some?
      ensures Contents() == if ok then Complete(old(Contents()), result).value else old(Contents())
    {
      if result.planId == "" || result.planId !in records
          || records[result.planId].reservation.planRevision != result.revision {
        return false;
      }
      var record := records[result.planId];
      if record.result.Some? {
        return record.result.value == result;
      }
      records := records[result.planId := record.(result := Some(result))];
      ok := true;
    }
  }

  class Enforcer {
    const config: Config
    const store: MemoryStateStore
    var log: seq<Call>
    ghost var executed: seq<string>

    ghost function Contents(): World
      reads this, store
    {
      World(store.Contents(), log, executed)
    }

    constructor (config: Config, store: MemoryStateStore)
      ensures this.config == config && this.store == store && Contents() == World(store.Contents(), [], [])
    {
      this.config, this.store, log, executed := config, store, [], [];
    }

    method CheckAll(planId: string, checks: seq<Check>, driver: Driver,
                    maximumAge: int) returns (results: seq<CheckResult>, failed: bool)
      modifies this`log
      ensures Checks(results, log, failed) == RunChecks(planId, checks, driver, old(log), maximumAge)
    {
      results, failed := [], false;
      assert checks[0..] == checks;
      for i := 0 to |checks|
        invariant !failed
        invariant var whole, rest := RunChecks(planId, checks, driver, old(log), maximumAge),
        RunChecks(planId, checks[i..], driver, log, maximumAge);
          whole == Checks(results + rest.results, rest.log, rest.failed)
      {
        var check := checks[i];
        assert checks[i..][0] == check && checks[i..][1..] == checks[i + 1..];
        var result := CheckResult(check.id, Judge(check, driver.check(log, check), maximumAge));
        log := log + [CallCheck(planId, check.id)];
        if check.required && !result.outcome.Passed? {
          return results + [result], true;
        }
        ghost var rest := RunChecks(planId, checks[i + 1..], driver, log, maximumAge);
        assert results + ([result] + rest.results) == (results + [result]) + rest.results;
        results := results + [result];
      }
      assert results + [] == results;
    }

    method ApplyAll(planId: string, steps: seq<Step>, driver: Driver) returns (results: seq<StepResult>, failed: bool)
      modifies this`log
      ensures Steps(results, log, failed) == RunActions(planId, steps, driver, old(log))
    {
      results, failed := [], false;
      assert steps[0..] == steps;
      for i := 0 to |steps|
        invariant !failed
        invariant var whole, rest := RunActions(planId, steps, driver, old(log)),
        RunActions(planId, steps[i..], driver, log);
          whole == Steps(results + rest.results, rest.log, rest.failed)
      {
        assert steps[i..][0] == steps[i] && steps[i..][1..] == steps[i + 1..];
        var reply := driver.apply(log, steps[i]);
        var result := StepResult(steps[i].id, !reply.broken && reply.succeeded);
        log := log + [CallApply(planId, steps[i].id)];
        if !result.succeeded {
          return results + [result], true;
        }
        ghost var rest := RunActions(planId, steps[i + 1..], driver, log);
        assert results + ([result] + rest.results) == (results + [result]) + rest.results;
        results := results + [result];
      }
      assert results + [] == results;
    }

    method RollbackAll(planId: string, steps: seq<Step>, driver: Driver)
      returns (results: seq<StepResult>, complete: bool)
      modifies this`log
      ensures Steps(results, log, !complete) == RunRollback(planId, steps, driver, old(log))
    {
      results, complete := [], true;
      assert steps[0..] == steps;
      for i := 0 to |steps|
        invariant var whole, rest := RunRollback(planId, steps, driver, old(log)),
        RunRollback(planId, steps[i..], driver, log);
          whole == Steps(results + rest.results, rest.log, !complete || rest.failed)
      {
        assert steps[i..][0] == steps[i] && steps[i..][1..] == steps[i + 1..];
        var reply := driver.undo(log, steps[i]);
        var result := StepResult(steps[i].id, !reply.broken && reply.succeeded);
        log := log + [CallRollback(planId, steps[i].id)];
        if !result.succeeded {
          complete := false;
        }
        ghost var rest := RunRollback(planId, steps[i + 1..], driver, log);
        assert results + ([result] + rest.results) == (results + [result]) + rest.results;
        results := results + [result];
      }
      assert results + [] == results;
    }

    method UndoPlan(plan: Content, driver: Driver, result: PlanResult) returns (terminal: PlanResult)
      modifies this`log
      ensures Executed(terminal, log) == Undo(plan, driver, old(log), result)
    {
      var results, complete := RollbackAll(plan.id, plan.rollback, driver);
      terminal := result.(rollback := results, verdict := if complete then RolledBack else Failed);
    }

    method ExecutePlan(plan: Content, driver: Driver, maximumAge: int) returns (terminal: PlanResult)
      modifies this`log
      ensures Executed(terminal, log) == Execute(plan, driver, old(log), maximumAge)
    {
      hide RunChecks, RunActions, RunRollback;
      var result := PlanResult(plan.id, plan.revision, Rejected, [], [], [], []);
      var preconditions, failed := CheckAll(plan.id, plan.preconditions, driver, maximumAge);
      result := result.(preconditions := preconditions);
      if failed {
        return result;
      }
      var actions;
      actions, failed := ApplyAll(plan.id, plan.actions, driver);
      result := result.(actions := actions);
      if failed {
        terminal := UndoPlan(plan, driver, result);
        return;
      }
      var verifications;
      verifications, failed := CheckAll(plan.id, plan.verifications, driver, maximumAge);
      result := result.(verifications := verifications);
      if failed {
        terminal := UndoPlan(plan, driver, result);
        return;
      }
      terminal := result.(verdict := Committed);
    }

    /** A process that dies during the execution has asked the driver for nothing after the point where it died. */
    method ApplyPlan(plan: Plan, env: Environment) returns (answer: Answer)
      modifies this, store
      ensures (Contents(), answer) == Apply(old(Contents()), plan, config, env)
    {
      hide Execute, Reject;
      if Reject(plan, config, env.now, env.fits).Some? {
        return Answered(Refusal(plan));
      }
      if env.reserve.DiesBefore? {
        return Died;
      }
      if env.reserve.Refuses? {
        return Answered(Refusal(plan));
      }
      var content := plan.content;
      var grant := store.ReservePlan(Reservation(content.id, env.fingerprint, content.policyRevision,
                                                 content.revision));
      if env.reserve.DiesAfter? {
        return Died;
      }
      if env.reserve.Tears? {
        return Answered(Refusal(plan));
      }
      match grant {
        case Replay => return Answered(Refusal(plan));
        case InProgress => return Answered(Refusal(plan));
        case Replayed(result) =>
          if result.planId != content.id || result.revision != content.revision || !env.trusted {
            return Refused;
          }
          return Answered(result);
        case Fresh(_) =>
      }
      answer := CarryOut(content, env);
    }

    method CarryOut(content: Content, env: Environment) returns (answer: Answer)
      modifies this, store
      ensures (Contents(), answer) == Carry(old(Contents()), content, env)
    {
      hide Execute, Complete;
      executed := executed + [content.id];
      var before := |log|;
      var terminal := ExecutePlan(content, env.driver, env.maximumAge);
      if env.crash.Some? && before + env.crash.value <= |log| {
        log := log[..before + env.crash.value];
        return Died;
      }
      if Lands(env.complete) {
        var ok := store.CompletePlan(terminal);
      }
      answer := if Kills(env.complete) then Died else Answered(terminal);
    }
  }
}
