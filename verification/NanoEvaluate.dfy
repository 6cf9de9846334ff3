/**
  The budgeted evaluator with its schedule cursor (core/nano/nano.go:565-686) against a recursive
  meaning that knows no budget, and the law that a frame may be evaluated in two parts.
  Numbers are reals; a float that is not a number or infinite is `NotFinite`.
*/
module NanoEvaluate {
  import opened Common
  import opened NanoTokens
  import opened NanoGrammar
  import opened NanoParser

  datatype Float = Finite(value: real) | NotFinite

  datatype Frame = Frame(timestamps: seq<int>, signals: map<string, seq<Float>>)

  datatype Cursor = Cursor(initialized: bool, nextDue: int)

  datatype Emitted = Emitted(action: string, timestamp: int)

  datatype TraceEntry =
    | Loaded(at: int, name: string)
    | Checked(at: int, condition: Condition, observed: real, passed: bool)
    | Fired(at: int, action: string)

  datatype Evaluation = Evaluation(intents: seq<Emitted>, trace: seq<TraceEntry>, instructions: nat)

  datatype EvaluateError = InvalidLimits | AdmissionDenied | InvalidFrame | InstructionLimit

  predicate IsInt64(value: int) {
    -MAX_INT64 - 1 <= value <= MAX_INT64
  }

  /** What the Go types and Compile promise of a program and a frame. */
  predicate Compiled(program: Program) {
    program.schedule.Some? ==> 0 < program.schedule.value.seconds <= MAX_INT64
  }

  function Interval(program: Program): int {
    if program.schedule.Some? then program.schedule.value.seconds else 1
  }

  // ---------------------------------------------------------------- admission and frames

  predicate AdmittedIntent(intent: Intent) {
    (intent.action == "EXECUTE" || intent.action == "OBSERVE") && intent.asset == "" && intent.confidence.None?
  }

  predicate Admitted(program: Program) {
    forall i | 0 <= i < |program.intents| :: AdmittedIntent(program.intents[i])
  }

  predicate BlankName(name: string) {
    forall i | 0 <= i < |name| :: name[i] == ' ' || '\t' <= name[i] <= '\r'
  }

  predicate Sorted(timestamps: seq<int>) {
    forall i | 0 < i < |timestamps| :: timestamps[i - 1] <= timestamps[i]
  }

  predicate ValidSeries(name: string, series: seq<Float>, size: nat) {
    !BlankName(name) && |series| == size && forall i | 0 <= i < |series| :: series[i].Finite?
  }

  predicate ValidFrame(frame: Frame, limits: Limits) {
    && 0 < |frame.timestamps| <= limits.maxTimestamps && |frame.signals| <= limits.maxSignals
    && Shaped(frame)
  }

  predicate Shaped(frame: Frame) {
    Sorted(frame.timestamps) && forall name | name in frame.signals ::
        ValidSeries(name, frame.signals[name], |frame.timestamps|)
  }

  // ---------------------------------------------------------------- the meaning of a frame

  function Compare(observed: real, operator: string, expected: real): bool {
    if operator == "<" then observed < expected
    else if operator == "<=" then observed <= expected
    else if operator == ">" then observed > expected
    else if operator == ">=" then observed >= expected
    else if operator == "==" then observed == expected
    else if operator == "!=" then observed != expected
    else false
  }

  predicate Due(cursor: Cursor, timestamp: int) {
    cursor.initialized ==> timestamp >= cursor.nextDue
  }

  /** What a stretch of evaluation amounts to; `sound` is lost to an overflow or a missing signal. */
  datatype Tally = Tally(intents: seq<Emitted>, trace: seq<TraceEntry>, instructions: nat, sound: bool)

  const NOTHING := Tally([], [], 0, true)

  function Plus(a: Tally, b: Tally): Tally {
    Tally(a.intents + b.intents, a.trace + b.trace, a.instructions + b.instructions, a.sound && b.sound)
  }

  function Observed(frame: Frame, signal: string, i: nat): real
    requires i < |frame.timestamps| && Shaped(frame) && signal in frame.signals
  {
    assert ValidSeries(signal, frame.signals[signal], |frame.timestamps|);
    frame.signals[signal][i].value
  }

  predicate Holds(condition: Condition, frame: Frame, i: nat)
    requires i < |frame.timestamps| && Shaped(frame)
  {
    condition.signal in frame.signals
        && Compare(Observed(frame, condition.signal, i), condition.operator, condition.value)
  }

  /** Conditions are looked at in order up to the first that does not hold. */
  function CheckAll(conditions: seq<Condition>, frame: Frame, i: nat): Tally
    requires i < |frame.timestamps| && Shaped(frame)
    decreases |conditions|
  {
    if conditions == [] then NOTHING
    else if conditions[0].signal !in frame.signals then Tally([], [], 1, false)
    else
      var holds := Holds(conditions[0], frame, i);
      var first := Tally([], [Checked(frame.timestamps[i], conditions[0], Observed(frame, conditions[0].signal, i),
                                      holds)], 1, true);
      if holds then Plus(first, CheckAll(conditions[1..], frame, i)) else first
  }

  predicate AllHold(conditions: seq<Condition>, frame: Frame, i: nat)
    requires i < |frame.timestamps| && Shaped(frame)
  {
    forall k | 0 <= k < |conditions| :: Holds(conditions[k], frame, i)
  }

  function FireAll(intents: seq<Intent>, at: int): Tally {
    Tally(seq(|intents|, k requires 0 <= k < |intents| => Emitted(intents[k].action, at)),
          seq(|intents|, k requires 0 <= k < |intents| => Fired(at, intents[k].action)), |intents|, true)
  }

  /** One due point: all conditions true, and at least one, fires every intent in order. */
  function Point(program: Program, frame: Frame, i: nat): Tally
    requires i < |frame.timestamps| && Shaped(frame)
  {
    var checked := CheckAll(program.conditions, frame, i);
    if frame.timestamps[i] > MAX_INT64 - Interval(program) then Tally([], [], 0, false)
    else if program.conditions != [] && AllHold(program.conditions, frame, i)
    then Plus(checked, FireAll(program.intents, frame.timestamps[i]))
    else checked
  }

  datatype Meaning = Meaning(tally: Tally, cursor: Cursor)

  /** The greedy reading from index `i` on: a point that is due sets the next due time. */
  function MeaningFrom(program: Program, frame: Frame, i: nat, cursor: Cursor): Meaning
    requires i <= |frame.timestamps| && Shaped(frame)
    decreases |frame.timestamps| - i
  {
    if i == |frame.timestamps| then Meaning(NOTHING, cursor)
    else if !Due(cursor, frame.timestamps[i]) then MeaningFrom(program, frame, i + 1, cursor)
    else
      var rest := MeaningFrom(program, frame, i + 1, Cursor(true, frame.timestamps[i] + Interval(program)));
      Meaning(Plus(Point(program, frame, i), rest.tally), rest.cursor)
  }

  predicate Affordable(tally: Tally, limits: Limits) {
    tally.sound && tally.instructions <= limits.maxInstructions && |tally.intents| <= limits.maxOutputs
  }

  /** Accepted, meaning and budget together: when Evaluate succeeds. */
  predicate Succeeds(program: Program, frame: Frame, cursor: Cursor, limits: Limits) {
    && ValidLimits(limits) && Admitted(program) && ValidFrame(frame, limits)
    && Affordable(MeaningFrom(program, frame, 0, cursor).tally, limits)
  }

  // ---------------------------------------------------------------- a frame in two parts

  function Part(frame: Frame, from: nat, to: nat): (part: Frame)
    requires from <= to <= |frame.timestamps| && Shaped(frame)
    ensures Shaped(part) && part.signals.Keys == frame.signals.Keys
  {
    Frame(frame.timestamps[from..to],
          map name | name in frame.signals ::
            assert ValidSeries(name, frame.signals[name], |frame.timestamps|); frame.signals[name][from..to])
  }

  lemma PartSize(frame: Frame, from: nat, to: nat)
    requires from <= to <= |frame.timestamps| && Shaped(frame)
    ensures |Part(frame, from, to).signals| == |frame.signals|
  {
    var part := Part(frame, from, to);
    assert |part.signals| == |part.signals.Keys| && |frame.signals| == |frame.signals.Keys|;
  }

  lemma {:induction false} CheckPart(conditions: seq<Condition>, frame: Frame, from: nat, to: nat, i: nat)
    requires from <= i < to <= |frame.timestamps| && Shaped(frame)
    ensures CheckAll(conditions, Part(frame, from, to), i - from) == CheckAll(conditions, frame, i)
    ensures AllHold(conditions, Part(frame, from, to), i - from) <==> AllHold(conditions, frame, i)
    decreases |conditions|
  {
    var part := Part(frame, from, to);
    forall k | 0 <= k < |conditions|
      ensures Holds(conditions[k], part, i - from) <==> Holds(conditions[k], frame, i)
    {
      SamePoint(conditions[k], frame, from, to, i);
    }
    if conditions != [] {
      SamePoint(conditions[0], frame, from, to, i);
      CheckPart(conditions[1..], frame, from, to, i);
    }
  }

  lemma SamePoint(condition: Condition, frame: Frame, from: nat, to: nat, i: nat)
    requires from <= i < to <= |frame.timestamps| && Shaped(frame)
    ensures condition.signal in frame.signals <==> condition.signal in Part(frame, from, to).signals
    ensures condition.signal in frame.signals ==>
              Observed(Part(frame, from, to), condition.signal, i - from) == Observed(frame, condition.signal, i)
    ensures Holds(condition, Part(frame, from, to), i - from) <==> Holds(condition, frame, i)
  {
  }

  lemma PlusAssociates(a: Tally, b: Tally, c: Tally)
    ensures Plus(a, Plus(b, c)) == Plus(Plus(a, b), c) && Plus(NOTHING, a) == a && Plus(a, NOTHING) == a
  {
    assert a.intents + (b.intents + c.intents) == (a.intents + b.intents) + c.intents;
    assert a.trace + (b.trace + c.trace) == (a.trace + b.trace) + c.trace;
    assert [] + a.intents == a.intents && [] + a.trace == a.trace && a.intents + [] == a.intents
        && a.trace + [] == a.trace;
  }

  /** Reading a frame from `i` is reading its part up to `k`, then the rest from the carried cursor. */
  lemma {:induction false} MeaningSplits(program: Program, frame: Frame, k: nat, i: nat, cursor: Cursor)
    requires i <= k <= |frame.timestamps| && Shaped(frame)
    ensures var first := MeaningFrom(program, Part(frame, 0, k), i, cursor);
      var second := MeaningFrom(program, Part(frame, k, |frame.timestamps|), 0, first.cursor);
      MeaningFrom(program, frame, i, cursor) == Meaning(Plus(first.tally, second.tally), second.cursor)
    decreases k - i
  {
    hide Point, Plus;
    var first := MeaningFrom(program, Part(frame, 0, k), i, cursor);
    if i == k {
      MeaningShifts(program, frame, k, k, cursor);
      PlusAssociates(MeaningFrom(program, frame, k, cursor).tally, NOTHING, NOTHING);
    } else if !Due(cursor, frame.timestamps[i]) {
      MeaningSplits(program, frame, k, i + 1, cursor);
    } else {
      var next := Cursor(true, frame.timestamps[i] + Interval(program));
      MeaningSplits(program, frame, k, i + 1, next);
      SamePointTally(program, frame, 0, k, i);
      var second := MeaningFrom(program, Part(frame, k, |frame.timestamps|), 0, first.cursor);
      PlusAssociates(Point(program, frame, i), MeaningFrom(program, Part(frame, 0, k), i + 1, next).tally,
                     second.tally);
    }
  }

  lemma SamePointTally(program: Program, frame: Frame, from: nat, to: nat, i: nat)
    requires from <= i < to <= |frame.timestamps| && Shaped(frame)
    ensures Point(program, Part(frame, from, to), i - from) == Point(program, frame, i)
  {
    CheckPart(program.conditions, frame, from, to, i);
  }

  lemma {:induction false} MeaningShifts(program: Program, frame: Frame, k: nat, i: nat, cursor: Cursor)
    requires k <= i <= |frame.timestamps| && Shaped(frame)
    ensures MeaningFrom(program, Part(frame, k, |frame.timestamps|), i - k, cursor)
        == MeaningFrom(program, frame, i, cursor)
    decreases |frame.timestamps| - i
  {
    hide Point, Plus;
    if i < |frame.timestamps| {
      if Due(cursor, frame.timestamps[i]) {
        SamePointTally(program, frame, k, |frame.timestamps|, i);
        MeaningShifts(program, frame, k, i + 1, Cursor(true, frame.timestamps[i] + Interval(program)));
      } else {
        MeaningShifts(program, frame, k, i + 1, cursor);
      }
    }
  }

  /**
    A frame within the limits, split anywhere: evaluating the parts in turn from the carried cursor
    succeeds and stays within the budget together if and only if the whole does, and then gives the
    concatenated intents and trace, the summed instruction count and the same final cursor.
  */
  lemma EvaluationSplits(program: Program, frame: Frame, k: nat, cursor: Cursor, limits: Limits)
    requires ValidFrame(frame, limits) && 0 < k < |frame.timestamps|
    ensures var first := MeaningFrom(program, Part(frame, 0, k), 0, cursor);
      var second := MeaningFrom(program, Part(frame, k, |frame.timestamps|), 0, first.cursor);
      var whole := MeaningFrom(program, frame, 0, cursor);
      && whole.tally.intents == first.tally.intents + second.tally.intents
      && whole.tally.trace == first.tally.trace + second.tally.trace
      && whole.tally.instructions == first.tally.instructions + second.tally.instructions
      && whole.cursor == second.cursor
      && (Succeeds(program, frame, cursor, limits) <==>
            && Succeeds(program, Part(frame, 0, k), cursor, limits)
            && Succeeds(program, Part(frame, k, |frame.timestamps|), first.cursor, limits)
            && first.tally.instructions + second.tally.instructions <= limits.maxInstructions
            && |first.tally.intents| + |second.tally.intents| <= limits.maxOutputs)
  {
    hide MeaningFrom;
    MeaningSplits(program, frame, k, 0, cursor);
    PartSize(frame, 0, k);
    PartSize(frame, k, |frame.timestamps|);
  }

  // ---------------------------------------------------------------- the evaluator

  lemma AllHoldStep(conditions: seq<Condition>, frame: Frame, i: nat)
    requires i < |frame.timestamps| && Shaped(frame) && conditions != []
    ensures AllHold(conditions, frame, i) <==> Holds(conditions[0], frame, i) && AllHold(conditions[1..], frame, i)
  {
    hide Holds;
    if Holds(conditions[0], frame, i) && AllHold(conditions[1..], frame, i) {
      forall k | 0 <= k < |conditions|
        ensures Holds(conditions[k], frame, i)
      {
        assert k > 0 ==> conditions[k] == conditions[1..][k - 1];
      }
    }
    if AllHold(conditions, frame, i) {
      forall k | 0 <= k < |conditions[1..]|
        ensures Holds(conditions[1..][k], frame, i)
      {
        assert conditions[1..][k] == conditions[k + 1];
      }
    }
  }

  /** The front condition, after `before`: missing, failing, or holding. */
  lemma CheckStep(before: Tally, conditions: seq<Condition>, frame: Frame, i: nat)
    requires i < |frame.timestamps| && Shaped(frame) && conditions != []
    ensures var total := Plus(before, CheckAll(conditions, frame, i));
      && total.instructions >= before.instructions + 1
      && (conditions[0].signal !in frame.signals ==> !total.sound)
      && (conditions[0].signal in frame.signals ==>
            var holds := Holds(conditions[0], frame, i);
            var entry := Checked(frame.timestamps[i], conditions[0], Observed(frame, conditions[0].signal, i), holds);
            var next := Plus(before, Tally([], [entry], 1, true));
            total == if holds then Plus(next, CheckAll(conditions[1..], frame, i)) else next)
  {
    hide Holds, Observed;
    if conditions[0].signal in frame.signals {
      var entry := Checked(frame.timestamps[i], conditions[0], Observed(frame, conditions[0].signal, i), true);
      PlusAssociates(before, Tally([], [entry], 1, true), CheckAll(conditions[1..], frame, i));
    }
  }

  /** The conditions of one due point; `spent` instructions were used before. */
  method CheckConditions(program: Program, frame: Frame, i: nat, spent: nat, limits: Limits)
    returns (reply: Result<Tally, EvaluateError>, matched: bool)
    requires i < |frame.timestamps| && Shaped(frame) && spent <= limits.maxInstructions
    ensures var checked := CheckAll(program.conditions, frame, i);
      && (reply.Ok? <==> checked.sound && spent + checked.instructions <= limits.maxInstructions)
      && (reply.Ok? ==>
            && reply.value == checked
            && (matched <==> program.conditions != [] && AllHold(program.conditions, frame, i)))
      && (reply.Err? ==>
            && (reply.error.InvalidFrame? || reply.error.InstructionLimit?)
            && (reply.error.InvalidFrame? ==> !checked.sound)
            && (reply.error.InstructionLimit? ==> spent + checked.instructions > limits.maxInstructions))
  {
    hide Holds, Observed, CheckAll, AllHold, Plus;
    ghost var conditions := program.conditions;
    matched := |program.conditions| > 0;
    var checked := NOTHING;
    assert conditions[0..] == conditions;
    PlusAssociates(CheckAll(conditions, frame, i), NOTHING, NOTHING);
    for k := 0 to |program.conditions|
      invariant matched <==> program.conditions != []
      invariant checked.sound && checked.instructions == k && spent + k <= limits.maxInstructions
      invariant CheckAll(conditions, frame, i) == Plus(checked, CheckAll(conditions[k..], frame, i))
      invariant AllHold(conditions, frame, i) <==> AllHold(conditions[k..], frame, i)
    {
      var condition := program.conditions[k];
      CheckStep(checked, conditions[k..], frame, i);
      AllHoldStep(conditions[k..], frame, i);
      assert conditions[k..][0] == condition && conditions[k..][1..] == conditions[k + 1..];
      if spent + checked.instructions + 1 > limits.maxInstructions {
        return Err(InstructionLimit), matched;
      }
      if condition.signal !in frame.signals {
        return Err(InvalidFrame), matched;
      }
      var passed := Holds(condition, frame, i);
      var entry := Checked(frame.timestamps[i], condition, Observed(frame, condition.signal, i), passed);
      PlusCounts(checked, Tally([], [entry], 1, true));
      checked := Plus(checked, Tally([], [entry], 1, true));
      if !passed {
        return Ok(checked), false;
      }
    }
    NoMoreConditions(checked, conditions[|conditions|..], frame, i);
    reply := Ok(checked);
  }

  lemma PlusCounts(a: Tally, b: Tally)
    ensures Plus(a, b).instructions == a.instructions + b.instructions && (Plus(a, b).sound <==> a.sound && b.sound)
  {
  }

  lemma NoMoreConditions(checked: Tally, conditions: seq<Condition>, frame: Frame, i: nat)
    requires i < |frame.timestamps| && Shaped(frame) && conditions == []
    ensures Plus(checked, CheckAll(conditions, frame, i)) == checked && AllHold(conditions, frame, i)
  {
    PlusAssociates(checked, NOTHING, NOTHING);
  }

  /** The intents of a matched point, on top of what was tallied before. */
  method FireIntents(program: Program, at: int, before: Tally, limits: Limits)
    returns (reply: Result<Tally, EvaluateError>)
    requires before.sound && before.instructions <= limits.maxInstructions && |before.intents| <= limits.maxOutputs
    ensures var fired := Plus(before, FireAll(program.intents, at));
      && (reply.Ok? <==> Affordable(fired, limits)) && (reply.Ok? ==> reply.value == fired)
      && (reply.Err? ==> reply.error.InstructionLimit?)
  {
    var tally := before;
    for k := 0 to |program.intents|
      invariant tally == Plus(before, FireAll(program.intents[..k], at)) && Affordable(tally, limits)
    {
      var action := program.intents[k].action;
      if tally.instructions + 1 > limits.maxInstructions || |tally.intents| >= limits.maxOutputs {
        return Err(InstructionLimit);
      }
      FireSnoc(program.intents, k, at);
      assert before.intents + (FireAll(program.intents[..k], at).intents + [Emitted(action, at)])
          == (before.intents + FireAll(program.intents[..k], at).intents) + [Emitted(action, at)];
      assert before.trace + (FireAll(program.intents[..k], at).trace + [Fired(at, action)])
          == (before.trace + FireAll(program.intents[..k], at).trace) + [Fired(at, action)];
      tally := Tally(tally.intents + [Emitted(action, at)], tally.trace + [Fired(at, action)], tally.instructions + 1,
                     true);
    }
    assert program.intents[..|program.intents|] == program.intents;
    reply := Ok(tally);
  }

  lemma FireSnoc(intents: seq<Intent>, k: nat, at: int)
    requires k < |intents|
    ensures FireAll(intents[..k + 1], at).intents
        == FireAll(intents[..k], at).intents + [Emitted(intents[k].action, at)]
    ensures FireAll(intents[..k + 1], at).trace == FireAll(intents[..k], at).trace + [Fired(at, intents[k].action)]
  {
  }

  method ValidateFrame(frame: Frame, limits: Limits) returns (ok: bool)
    ensures ok <==> ValidFrame(frame, limits)
  {
    if |frame.timestamps| == 0 || |frame.timestamps| > limits.maxTimestamps || |frame.signals| > limits.maxSignals {
      return false;
    }
    for i := 0 to |frame.timestamps|
      invariant Sorted(frame.timestamps[..i])
    {
      if i > 0 && frame.timestamps[i] < frame.timestamps[i - 1] {
        assert !Sorted(frame.timestamps);
        return false;
      }
      assert forall k | 0 < k < i :: frame.timestamps[..i][k - 1] <= frame.timestamps[..i][k];
    }
    assert frame.timestamps[..|frame.timestamps|] == frame.timestamps;
    var pending := frame.signals.Keys;
    while pending != {}
      invariant pending <= frame.signals.Keys
      invariant forall name | name in frame.signals.Keys - pending ::
          ValidSeries(name, frame.signals[name], |frame.timestamps|)
      decreases |pending|
    {
      var name :| name in pending;
      if !ValidSeries(name, frame.signals[name], |frame.timestamps|) {
        return false;
      }
      pending := pending - {name};
    }
    ok := true;
  }

  /** What cannot be afforded so far cannot be afforded in the end. */
  lemma Unaffordable(so: Tally, far: Tally, limits: Limits)
    requires !Affordable(so, limits)
    ensures !Affordable(Plus(so, far), limits)
    ensures !so.sound ==> !Plus(so, far).sound
    ensures so.instructions > limits.maxInstructions || |so.intents| > limits.maxOutputs ==>
        OverBudget(Plus(so, far), limits)
  {
  }

  predicate OverBudget(tally: Tally, limits: Limits) {
    tally.instructions > limits.maxInstructions || |tally.intents| > limits.maxOutputs
  }

  /** One due point on top of what was tallied before. */
  method EvaluatePoint(program: Program, frame: Frame, i: nat, before: Tally,
                       limits: Limits) returns (reply: Result<Tally, EvaluateError>)
    requires i < |frame.timestamps| && Shaped(frame) && Affordable(before, limits)
    ensures var after := Plus(before, Point(program, frame, i));
      && (reply.Ok? <==> Affordable(after, limits)) && (reply.Ok? ==> reply.value == after)
      && (reply.Err? ==>
            && (reply.error.InvalidFrame? || reply.error.InstructionLimit?)
            && (reply.error.InvalidFrame? ==> !after.sound)
            && (reply.error.InstructionLimit? ==> OverBudget(after, limits)))
  {
    hide CheckAll, AllHold, Shaped;
    var at := frame.timestamps[i];
    if at > MAX_INT64 - Interval(program) {
      return Err(InvalidFrame);
    }
    ghost var checked := CheckAll(program.conditions, frame, i);
    ChecksEmitNothing(program.conditions, frame, i);
    PlusAssociates(before, checked, FireAll(program.intents, at));
    var conditions, matched := CheckConditions(program, frame, i, before.instructions, limits);
    if conditions.Err? {
      return Err(conditions.error);
    }
    if !matched {
      return Ok(Plus(before, conditions.value));
    }
    reply := FireIntents(program, at, Plus(before, conditions.value), limits);
  }

  lemma {:induction false} ChecksEmitNothing(conditions: seq<Condition>, frame: Frame, i: nat)
    requires i < |frame.timestamps| && Shaped(frame)
    ensures CheckAll(conditions, frame, i).intents == []
    decreases |conditions|
  {
    hide Holds, Observed;
    if conditions != [] {
      ChecksEmitNothing(conditions[1..], frame, i);
    }
  }

  /**
    Evaluate succeeds exactly when the meaning is sound and affordable, and returns it; every error
    returns the old cursor.
  */
  method Evaluate(program: Program, frame: Frame, cursor: Cursor, limits: Limits)
    returns (reply: Result<Evaluation, EvaluateError>, next: Cursor)
    requires Compiled(program) && IsInt64(cursor.nextDue) && forall i | 0 <= i < |frame.timestamps| ::
        IsInt64(frame.timestamps[i])
    ensures reply.Ok? <==> Succeeds(program, frame, cursor, limits)
    ensures reply.Ok? ==>
              var meaning := MeaningFrom(program, frame, 0, cursor);
              && reply.value.intents == meaning.tally.intents && reply.value.instructions == meaning.tally.instructions
              && reply.value.trace == [Loaded(frame.timestamps[0], program.name)] + meaning.tally.trace
              && next == meaning.cursor
    ensures IsInt64(next.nextDue) && (reply.Err? ==> next == cursor)
    ensures !ValidLimits(limits) ==> reply == Err(InvalidLimits)
    ensures ValidLimits(limits) && !Admitted(program) ==> reply == Err(AdmissionDenied)
    ensures ValidLimits(limits) && Admitted(program) && reply.Err? ==>
              && (reply.error.InvalidFrame? ==>
                  !ValidFrame(frame, limits) || !MeaningFrom(program, frame, 0, cursor).tally.sound)
              && (reply.error.InstructionLimit? ==>
                  ValidFrame(frame, limits) && OverBudget(MeaningFrom(program, frame, 0, cursor).tally, limits))
              && (reply.error.InvalidFrame? || reply.error.InstructionLimit?)
  {
    hide Point, Plus, Shaped;
    next := cursor;
    if !ValidLimits(limits) {
      return Err(InvalidLimits), cursor;
    }
    var admitted := AdmitWatchdog(program);
    if !admitted {
      return Err(AdmissionDenied), cursor;
    }
    var valid := ValidateFrame(frame, limits);
    if !valid {
      return Err(InvalidFrame), cursor;
    }
    var tally := NOTHING;
    ghost var meaning := MeaningFrom(program, frame, 0, cursor);
    PlusAssociates(meaning.tally, NOTHING, NOTHING);
    for index := 0 to |frame.timestamps|
      invariant Affordable(tally, limits) && IsInt64(next.nextDue)
      invariant var rest := MeaningFrom(program, frame, index, next);
        meaning == Meaning(Plus(tally, rest.tally), rest.cursor)
    {
      var timestamp := frame.timestamps[index];
      if !(next.initialized && timestamp < next.nextDue) {
        ghost var point := Point(program, frame, index);
        ghost var rest := MeaningFrom(program, frame, index + 1, Cursor(true, timestamp + Interval(program)));
        PlusAssociates(tally, point, rest.tally);
        var step := EvaluatePoint(program, frame, index, tally, limits);
        if step.Err? {
          Unaffordable(Plus(tally, point), rest.tally, limits);
          return Err(step.error), cursor;
        }
        PointFits(program, frame, index, tally);
        tally := step.value;
        next := Cursor(true, timestamp + Interval(program));
      }
    }
    PlusAssociates(tally, NOTHING, NOTHING);
    reply := Ok(Evaluation(tally.intents, [Loaded(frame.timestamps[0], program.name)] + tally.trace,
                           tally.instructions));
  }

  lemma PointFits(program: Program, frame: Frame, i: nat, before: Tally)
    requires i < |frame.timestamps| && Shaped(frame) && Plus(before, Point(program, frame, i)).sound
    ensures frame.timestamps[i] + Interval(program) <= MAX_INT64
  {
  }

  method AdmitWatchdog(program: Program) returns (ok: bool)
    ensures ok <==> Admitted(program)
  {
    for i := 0 to |program.intents|
      invariant forall k | 0 <= k < i :: AdmittedIntent(program.intents[k])
    {
      if !AdmittedIntent(program.intents[i]) {
        return false;
      }
    }
    ok := true;
  }
}
