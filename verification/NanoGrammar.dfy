/**
  The Nano grammar and its parser as a function (core/nano/nano.go:367-563): concrete syntax
  trees with the symbols they yield and the program they denote, and a proof that the parser
  accepts exactly the yields of the trees that keep the limits, returning the tree.

  `strconv.ParseFloat` is a parameter: a reader that gives a finite number or nothing.
*/
module NanoGrammar {
  import opened Common
  import opened NanoTokens

  type Reader = string -> Option<real>

  const MAX_INT64: int := 0x7fff_ffff_ffff_ffff

  datatype Limits = Limits(
    maxSourceBytes: nat, maxTokens: nat, maxAgents: nat, maxConditions: nat, maxIntents: nat, maxSignals: nat,
    maxTimestamps: nat, maxInstructions: nat, maxOutputs: nat)

  // ---------------------------------------------------------------- programs

  datatype Schedule = Schedule(interval: string, seconds: int)
  datatype Condition = Condition(signal: string, operator: string, value: real)
  datatype Intent = Intent(action: string, asset: string, confidence: Option<real>)
  datatype Program = Program(
    name: string, schedule: Option<Schedule>, conditions: seq<Condition>, intents: seq<Intent>, agents: seq<string>)

  // ---------------------------------------------------------------- intervals

  function Digits(text: string): (value: nat)
    requires All(text, IsDigit)
  {
    if text == [] then 0 else Digits(text[..|text| - 1]) * 10 + (text[|text| - 1] as int - '0' as int)
  }

  /** strconv.ParseInt(text, 10, 64): an optional sign, digits, and a value that fits. */
  function ParseInt(text: string): Option<int> {
    var signed := text != [] && (text[0] == '+' || text[0] == '-');
    var digits := if signed then text[1..] else text;
    if digits == [] || !All(digits, IsDigit) then None
    else
      var value := if signed && text[0] == '-' then -(Digits(digits) as int) else Digits(digits);
      if -MAX_INT64 - 1 <= value <= MAX_INT64 then Some(value) else None
  }

  function UnitSeconds(unit: char): Option<nat> {
    match unit
    case 's' => Some(1)
    case 'm' => Some(60)
    case 'h' => Some(3600)
    case 'd' => Some(86400)
    case _ => None
  }

  /** The division guards the product: what passes fits 64 bits, and everything that fits passes. */
  function IntervalSeconds(text: string): (seconds: Option<int>)
    ensures seconds.Some? ==> 0 < seconds.value <= MAX_INT64
  {
    if |text| < 2 then None
    else
      var amount := ParseInt(text[..|text| - 1]);
      var unit := UnitSeconds(text[|text| - 1]);
      if amount.None? || amount.value <= 0 || unit.None? || amount.value > MAX_INT64 / unit.value then None
      else
        assert amount.value * unit.value <= MAX_INT64 by { ProductFits(amount.value, unit.value); }
        Some(amount.value * unit.value)
  }

  lemma ProductFits(amount: int, unit: int)
    requires amount > 0 && unit > 0
    ensures amount <= MAX_INT64 / unit <==> amount * unit <= MAX_INT64
  {
    var quotient := MAX_INT64 / unit;
    assert quotient * unit <= MAX_INT64 < (quotient + 1) * unit;
    if amount <= quotient {
      assert amount * unit <= quotient * unit;
    } else {
      assert amount * unit >= (quotient + 1) * unit;
    }
  }

  /** Of a span of digits and a unit: exactly the positive products that fit 64 bits are accepted. */
  lemma IntervalMeaning(text: string)
    requires WellFormed(Span(text))
    ensures var amount, unit := Digits(text[..|text| - 1]), UnitSeconds(text[|text| - 1]).value;
      IntervalSeconds(text) == if 0 < amount * unit <= MAX_INT64 then Some(amount * unit) else None
  {
    var digits := text[..|text| - 1];
    var amount, unit := Digits(digits), UnitSeconds(text[|text| - 1]).value;
    assert IsDigit(digits[0]);
    if amount > 0 {
      ProductFits(amount, unit);
      assert amount <= amount * unit;
    }
  }

  // ---------------------------------------------------------------- trees, yields, meanings

  datatype ConditionTree = ConditionTree(signal: string, argument: Option<string>, operator: string, number: Symbol)
  datatype IntentTree = Trade(action: string, asset: string, confidence: Option<Symbol>) | Plain(action: string)
  datatype RuleTree = RuleTree(conditions: seq<ConditionTree>, intents: seq<IntentTree>)
  datatype ItemTree = AgentTree(name: string) | ScheduleTree(interval: string, rule: Option<RuleTree>)
  datatype Tree = Tree(name: string, items: seq<ItemTree>)

  function ConditionYield(tree: ConditionTree): seq<Symbol> {
    [Word(tree.signal)]
    + (if tree.argument.Some? then [LeftParen, Whole(tree.argument.value), RightParen] else [])
    + [Comparison(tree.operator), tree.number]
  }

  function ConditionsYield(trees: seq<ConditionTree>): seq<Symbol> {
    if trees == [] then []
    else if |trees| == 1 then ConditionYield(trees[0])
    else ConditionYield(trees[0]) + [Word("and")] + ConditionsYield(trees[1..])
  }

  function IntentYield(tree: IntentTree): seq<Symbol> {
    match tree
    case Plain(action) => [Word(action), LeftParen, RightParen]
    case Trade(action, asset, confidence) =>
      [Word(action), LeftParen, Word(asset)] + (if confidence.Some? then [Comma, confidence.value] else [])
          + [RightParen]
  }

  function IntentsYield(trees: seq<IntentTree>): seq<Symbol> {
    if trees == [] then [] else IntentYield(trees[0]) + IntentsYield(trees[1..])
  }

  function RuleYield(tree: RuleTree): seq<Symbol> {
    [Word("if")] + ConditionsYield(tree.conditions) + [LeftBrace] + IntentsYield(tree.intents) + [RightBrace]
  }

  function ItemYield(tree: ItemTree): seq<Symbol> {
    match tree
    case AgentTree(name) => [Word("agent"), Word(name)]
    case ScheduleTree(interval, rule) =>
      [Word("every"), Span(interval), LeftBrace] + (if rule.Some? then RuleYield(rule.value) else []) + [RightBrace]
  }

  function ItemsYield(trees: seq<ItemTree>): seq<Symbol> {
    if trees == [] then [] else ItemYield(trees[0]) + ItemsYield(trees[1..])
  }

  function TreeYield(tree: Tree): seq<Symbol> {
    [Word("strategy"), Word(tree.name), LeftBrace] + ItemsYield(tree.items) + [RightBrace]
  }

  predicate ValidNumber(symbol: Symbol, read: Reader) {
    (symbol.Whole? || symbol.Decimal?) && read(symbol.text).Some?
  }

  predicate ValidCondition(tree: ConditionTree, read: Reader) {
    ValidNumber(tree.number, read)
  }

  function ActionName(word: string): Option<string> {
    if word == "buy" then Some("BUY")
    else if word == "sell" then Some("SELL")
    else if word == "execute" then Some("EXECUTE")
    else if word == "pause" then Some("PAUSE")
    else if word == "observe" then Some("OBSERVE")
    else None
  }

  predicate Trades(word: string) {
    word == "buy" || word == "sell"
  }

  predicate ValidIntent(tree: IntentTree, read: Reader) {
    && ActionName(tree.action).Some? && (tree.Trade? <==> Trades(tree.action))
    && (tree.Trade? && tree.confidence.Some? ==>
          ValidNumber(tree.confidence.value, read) && 0.0 <= read(tree.confidence.value.text).value <= 1.0)
  }

  predicate ValidRule(tree: RuleTree, read: Reader, limits: Limits) {
    && 0 < |tree.conditions| <= limits.maxConditions && 0 < |tree.intents| <= limits.maxIntents
    && (forall i | 0 <= i < |tree.conditions| :: ValidCondition(tree.conditions[i], read))
    && (forall i | 0 <= i < |tree.intents| :: ValidIntent(tree.intents[i], read))
  }

  predicate ValidItem(tree: ItemTree, read: Reader, limits: Limits) {
    tree.ScheduleTree? ==>
      && IntervalSeconds(tree.interval).Some?
      && (tree.rule.Some? ==> ValidRule(tree.rule.value, read, limits))
  }

  function Agents(items: seq<ItemTree>): seq<string> {
    if items == [] then []
    else (if items[0].AgentTree? then [items[0].name] else []) + Agents(items[1..])
  }

  function Schedules(items: seq<ItemTree>): seq<ItemTree> {
    if items == [] then []
    else (if items[0].ScheduleTree? then [items[0]] else []) + Schedules(items[1..])
  }

  predicate ValidItems(items: seq<ItemTree>, read: Reader, limits: Limits) {
    forall i | 0 <= i < |items| :: ValidItem(items[i], read, limits)
  }

  /** The grammar's side conditions: numbers, actions, at most one schedule, and the limits. */
  predicate ValidTree(tree: Tree, read: Reader, limits: Limits) {
    ValidItems(tree.items, read, limits) && |Agents(tree.items)| <= limits.maxAgents && |Schedules(tree.items)| <= 1
  }

  // ---------------------------------------------------------------- the parser

  datatype Fail = Limit | Syntax

  datatype Parsed<T> = Parsed(tree: T, rest: seq<Symbol>)

  predicate Starts(symbols: seq<Symbol>, symbol: Symbol) {
    symbols != [] && symbols[0] == symbol
  }

  function ParseCondition(symbols: seq<Symbol>, read: Reader): Result<Parsed<ConditionTree>, Fail> {
    if symbols == [] || !symbols[0].Word? then Err(Syntax)
    else
      var signal, rest := symbols[0].text, symbols[1..];
      if Starts(rest, LeftParen) then
        if |rest| < 3 || !rest[1].Whole? || rest[2] != RightParen then Err(Syntax)
        else ParseComparison(signal, Some(rest[1].text), rest[3..], read)
      else ParseComparison(signal, None, rest, read)
  }

  function ParseComparison(signal: string, argument: Option<string>, symbols: seq<Symbol>, read: Reader)
    : Result<Parsed<ConditionTree>, Fail>
  {
    if |symbols| < 2 || !symbols[0].Comparison? || !ValidNumber(symbols[1], read) then Err(Syntax)
    else Ok(Parsed(ConditionTree(signal, argument, symbols[0].text, symbols[1]), symbols[2..]))
  }

  /** One or more conditions joined by `and`; `room` more may follow. */
  function ParseConditions(symbols: seq<Symbol>, read: Reader, room: nat): Result<Parsed<seq<ConditionTree>>, Fail>
    decreases room
  {
    match ParseCondition(symbols, read)
    case Err(fail) => Err(fail)
    case Ok(first) =>
      if room == 0 then Err(Limit)
      else if !Starts(first.rest, Word("and")) then Ok(Parsed([first.tree], first.rest))
      else
        match ParseConditions(first.rest[1..], read, room - 1)
        case Err(fail) => Err(fail)
        case Ok(more) => Ok(Parsed([first.tree] + more.tree, more.rest))
  }

  function ParseIntent(symbols: seq<Symbol>, read: Reader): Result<Parsed<IntentTree>, Fail>
    requires symbols != [] && symbols[0].Word?
  {
    var action, rest := symbols[0].text, symbols[1..];
    if ActionName(action).None? || !Starts(rest, LeftParen) then Err(Syntax)
    else if Trades(action) then
      if |rest| < 2 || !rest[1].Word? then Err(Syntax) else ParseTrade(action, rest[1].text, rest[2..], read)
    else if !Starts(rest[1..], RightParen) then Err(Syntax)
    else Ok(Parsed(Plain(action), rest[2..]))
  }

  function ParseTrade(action: string, asset: string, symbols: seq<Symbol>, read: Reader): Result<Parsed<IntentTree>,
  Fail> {
    if Starts(symbols, Comma) then
      if |symbols| < 3 || !ValidNumber(symbols[1], read) || !(0.0 <= read(symbols[1].text).value <= 1.0)
          || symbols[2] != RightParen
      then Err(Syntax)
      else Ok(Parsed(Trade(action, asset, Some(symbols[1])), symbols[3..]))
    else if !Starts(symbols, RightParen) then Err(Syntax)
    else Ok(Parsed(Trade(action, asset, None), symbols[1..]))
  }

  /** Intents for as long as a word comes next; `room` more may follow. */
  function ParseIntents(symbols: seq<Symbol>, read: Reader, room: nat): Result<Parsed<seq<IntentTree>>, Fail>
    decreases room
  {
    if symbols == [] || !symbols[0].Word? then Ok(Parsed([], symbols))
    else
      match ParseIntent(symbols, read)
      case Err(fail) => Err(fail)
      case Ok(first) =>
        if room == 0 then Err(Limit)
        else
          match ParseIntents(first.rest, read, room - 1)
          case Err(fail) => Err(fail)
          case Ok(more) => Ok(Parsed([first.tree] + more.tree, more.rest))
  }

  /** After the keyword `if`. */
  function ParseRule(symbols: seq<Symbol>, read: Reader, limits: Limits): Result<Parsed<RuleTree>, Fail> {
    match ParseConditions(symbols, read, limits.maxConditions)
    case Err(fail) => Err(fail)
    case Ok(conditions) =>
      if |conditions.rest| < 2 || conditions.rest[0] != LeftBrace || !conditions.rest[1].Word? then Err(Syntax)
      else
        match ParseIntents(conditions.rest[1..], read, limits.maxIntents)
        case Err(fail) => Err(fail)
        case Ok(intents) =>
          if !Starts(intents.rest, RightBrace) then Err(Syntax)
          else Ok(Parsed(RuleTree(conditions.tree, intents.tree), intents.rest[1..]))
  }

  /** After the keyword `every`. */
  function ParseSchedule(symbols: seq<Symbol>, read: Reader, limits: Limits): Result<Parsed<ItemTree>, Fail> {
    if |symbols| < 2 || !symbols[0].Span? || IntervalSeconds(symbols[0].text).None? || symbols[1] != LeftBrace
        then Err(Syntax)
    else
      var interval, rest := symbols[0].text, symbols[2..];
      if !Starts(rest, Word("if")) then CloseSchedule(ScheduleTree(interval, None), rest)
      else
        match ParseRule(rest[1..], read, limits)
        case Err(fail) => Err(fail)
        case Ok(rule) => CloseSchedule(ScheduleTree(interval, Some(rule.tree)), rule.rest)
  }

  function CloseSchedule(tree: ItemTree, symbols: seq<Symbol>): Result<Parsed<ItemTree>, Fail> {
    if Starts(symbols, RightBrace) then Ok(Parsed(tree, symbols[1..])) else Err(Syntax)
  }

  // ---------------------------------------------------------------- soundness below the items

  lemma ConditionSound(symbols: seq<Symbol>, read: Reader)
    ensures var parsed := ParseCondition(symbols, read);
      parsed.Ok? ==>
        && symbols == ConditionYield(parsed.value.tree) + parsed.value.rest
        && ValidCondition(parsed.value.tree, read)
  {
    hide ValidNumber;
    if symbols != [] && symbols[0].Word? {
      var rest := symbols[1..];
      assert symbols == [symbols[0]] + rest;
      if Starts(rest, LeftParen) && |rest| >= 3 {
        assert rest == [rest[0], rest[1], rest[2]] + rest[3..];
      }
    }
  }

  lemma {:induction false} ConditionsSound(symbols: seq<Symbol>, read: Reader, room: nat)
    ensures var parsed := ParseConditions(symbols, read, room);
      parsed.Ok? ==>
        && symbols == ConditionsYield(parsed.value.tree) + parsed.value.rest && 0 < |parsed.value.tree| <= room
        && (forall i | 0 <= i < |parsed.value.tree| :: ValidCondition(parsed.value.tree[i], read))
        && !Starts(parsed.value.rest, Word("and"))
    decreases room
  {
    hide ParseCondition, ConditionYield, ValidCondition;
    ConditionSound(symbols, read);
    var first := ParseCondition(symbols, read);
    if first.Ok? && room > 0 && Starts(first.value.rest, Word("and")) {
      ConditionsSound(first.value.rest[1..], read, room - 1);
      var more := ParseConditions(first.value.rest[1..], read, room - 1);
      if more.Ok? {
        assert ([first.value.tree] + more.value.tree)[1..] == more.value.tree;
        assert first.value.rest == [Word("and")] + first.value.rest[1..];
      }
    }
  }

  lemma TradeSound(action: string, asset: string, symbols: seq<Symbol>, read: Reader)
    requires ActionName(action).Some? && Trades(action)
    ensures var parsed := ParseTrade(action, asset, symbols, read);
      parsed.Ok? ==>
        && [Word(action), LeftParen, Word(asset)] + symbols == IntentYield(parsed.value.tree) + parsed.value.rest
        && ValidIntent(parsed.value.tree, read)
  {
    hide ValidNumber, ActionName, Trades;
  }

  lemma IntentSound(symbols: seq<Symbol>, read: Reader)
    requires symbols != [] && symbols[0].Word?
    ensures var parsed := ParseIntent(symbols, read);
      parsed.Ok? ==>
        && symbols == IntentYield(parsed.value.tree) + parsed.value.rest
        && ValidIntent(parsed.value.tree, read)
  {
    hide ParseTrade, ActionName, Trades, ValidNumber;
    var rest := symbols[1..];
    if |rest| >= 2 && rest[1].Word? && Trades(symbols[0].text) && ActionName(symbols[0].text).Some?
        && rest[0] == LeftParen {
      TradeSound(symbols[0].text, rest[1].text, rest[2..], read);
      assert symbols == [symbols[0], rest[0], rest[1]] + rest[2..];
    }
  }

  lemma {:induction false} IntentsSound(symbols: seq<Symbol>, read: Reader, room: nat)
    ensures var parsed := ParseIntents(symbols, read, room);
      parsed.Ok? ==>
        && symbols == IntentsYield(parsed.value.tree) + parsed.value.rest && |parsed.value.tree| <= room
        && (forall i | 0 <= i < |parsed.value.tree| :: ValidIntent(parsed.value.tree[i], read))
        && (parsed.value.tree == [] ==> symbols == [] || !symbols[0].Word?)
    decreases room
  {
    hide ParseIntent, IntentYield, ValidIntent;
    if symbols != [] && symbols[0].Word? {
      IntentSound(symbols, read);
      var first := ParseIntent(symbols, read);
      if first.Ok? && room > 0 {
        IntentsSound(first.value.rest, read, room - 1);
        var more := ParseIntents(first.value.rest, read, room - 1);
        if more.Ok? {
          assert ([first.value.tree] + more.value.tree)[1..] == more.value.tree;
        }
      }
    }
  }

  lemma RuleSound(symbols: seq<Symbol>, read: Reader, limits: Limits)
    ensures var parsed := ParseRule(symbols, read, limits);
      parsed.Ok? ==>
        && [Word("if")] + symbols == RuleYield(parsed.value.tree) + parsed.value.rest
        && ValidRule(parsed.value.tree, read, limits)
  {
    hide ParseConditions, ParseIntents, ConditionsYield, IntentsYield, ValidCondition, ValidIntent;
    ConditionsSound(symbols, read, limits.maxConditions);
    var conditions := ParseConditions(symbols, read, limits.maxConditions);
    if conditions.Ok? && |conditions.value.rest| >= 2 {
      var rest := conditions.value.rest;
      IntentsSound(rest[1..], read, limits.maxIntents);
      assert rest == [rest[0]] + rest[1..];
      var intents := ParseIntents(rest[1..], read, limits.maxIntents);
      if intents.Ok? && Starts(intents.value.rest, RightBrace) {
        assert intents.value.rest == [RightBrace] + intents.value.rest[1..];
      }
    }
  }

  lemma ScheduleSound(symbols: seq<Symbol>, read: Reader, limits: Limits)
    ensures var parsed := ParseSchedule(symbols, read, limits);
      parsed.Ok? ==>
        && parsed.value.tree.ScheduleTree?
            && [Word("every")] + symbols == ItemYield(parsed.value.tree) + parsed.value.rest
        && ValidItem(parsed.value.tree, read, limits)
  {
    hide ParseRule, RuleYield, ValidRule, IntervalSeconds;
    if ParseSchedule(symbols, read, limits).Ok? {
      var interval, rest := symbols[0].text, symbols[2..];
      var head := [Word("every"), Span(interval), LeftBrace];
      assert [Word("every")] + symbols == head + rest;
      if Starts(rest, Word("if")) {
        RuleSound(rest[1..], read, limits);
        assert rest == [Word("if")] + rest[1..];
        var rule := ParseRule(rest[1..], read, limits).value;
        assert rule.rest == [RightBrace] + rule.rest[1..];
        assert head + (RuleYield(rule.tree) + ([RightBrace] + rule.rest[1..]))
            == head + RuleYield(rule.tree) + [RightBrace] + rule.rest[1..];
      } else {
        assert rest == [RightBrace] + rest[1..];
      }
    }
  }

  lemma ScheduleShrinks(symbols: seq<Symbol>, read: Reader, limits: Limits)
    ensures var parsed := ParseSchedule(symbols, read, limits); parsed.Ok? ==> |parsed.value.rest| < |symbols|
  {
    hide ParseSchedule;
    ScheduleSound(symbols, read, limits);
  }

  /** Items up to the closing brace, with room for so many agents and, unless there was one, a schedule. */
  function ParseItems(symbols: seq<Symbol>, read: Reader, limits: Limits, room: nat,
                      scheduled: bool): (parsed: Result<Parsed<seq<ItemTree>>, Fail>)
    ensures parsed.Ok? ==> Starts(parsed.value.rest, RightBrace)
    decreases |symbols|
  {
    if Starts(symbols, RightBrace) then Ok(Parsed([], symbols))
    else if Starts(symbols, Word("agent")) then
      if |symbols| < 2 || !symbols[1].Word? then Err(Syntax)
      else if room == 0 then Err(Limit)
      else
        match ParseItems(symbols[2..], read, limits, room - 1, scheduled)
        case Err(fail) => Err(fail)
        case Ok(more) => Ok(Parsed([AgentTree(symbols[1].text)] + more.tree, more.rest))
    else if Starts(symbols, Word("every")) then
      if scheduled then Err(Syntax)
      else
        match ParseSchedule(symbols[1..], read, limits)
        case Err(fail) => Err(fail)
        case Ok(first) =>
          ScheduleShrinks(symbols[1..], read, limits);
          match ParseItems(first.rest, read, limits, room, true)
          case Err(fail) => Err(fail)
          case Ok(more) => Ok(Parsed([first.tree] + more.tree, more.rest))
    else Err(Syntax)
  }

  function ParseProgram(symbols: seq<Symbol>, read: Reader, limits: Limits): Result<Tree, Fail> {
    if |symbols| < 3 || symbols[0] != Word("strategy") || !symbols[1].Word? || symbols[2] != LeftBrace then Err(Syntax)
    else
      match ParseItems(symbols[3..], read, limits, limits.maxAgents, false)
      case Err(fail) => Err(fail)
      case Ok(items) =>
        if Starts(items.rest[1..], End) then Ok(Tree(symbols[1].text, items.tree)) else Err(Syntax)
  }

  // ---------------------------------------------------------------- completeness below the items

  lemma ConditionComplete(tree: ConditionTree, rest: seq<Symbol>, read: Reader)
    requires ValidCondition(tree, read)
    ensures ParseCondition(ConditionYield(tree) + rest, read) == Ok(Parsed(tree, rest))
  {
    hide ValidNumber;
    var symbols := ConditionYield(tree) + rest;
    if tree.argument.Some? {
      assert symbols[1..][3..] == [Comparison(tree.operator), tree.number] + rest;
      assert symbols[1..][3..][2..] == rest;
    } else {
      assert symbols[1..] == [Comparison(tree.operator), tree.number] + rest;
      assert symbols[1..][2..] == rest;
    }
  }

  lemma {:induction false} ConditionsComplete(trees: seq<ConditionTree>, rest: seq<Symbol>, read: Reader, room: nat)
    requires 0 < |trees| <= room && (forall i | 0 <= i < |trees| :: ValidCondition(trees[i], read))
        && !Starts(rest, Word("and"))
    ensures ParseConditions(ConditionsYield(trees) + rest, read, room) == Ok(Parsed(trees, rest))
    decreases |trees|
  {
    hide ParseCondition, ConditionYield, ValidCondition;
    if |trees| == 1 {
      ConditionComplete(trees[0], rest, read);
      assert trees == [trees[0]];
    } else {
      var more := [Word("and")] + ConditionsYield(trees[1..]) + rest;
      ConditionComplete(trees[0], more, read);
      ConditionsComplete(trees[1..], rest, read, room - 1);
      assert ConditionsYield(trees) + rest == ConditionYield(trees[0]) + more;
      assert more[1..] == ConditionsYield(trees[1..]) + rest;
      assert trees == [trees[0]] + trees[1..];
    }
  }

  lemma IntentComplete(tree: IntentTree, rest: seq<Symbol>, read: Reader)
    requires ValidIntent(tree, read)
    ensures ParseIntent(IntentYield(tree) + rest, read) == Ok(Parsed(tree, rest))
  {
    hide ValidNumber, ActionName, Trades;
    var symbols := IntentYield(tree) + rest;
    if tree.Plain? {
      assert symbols[1..][2..] == rest;
    } else if tree.confidence.Some? {
      assert symbols[1..][2..] == [Comma, tree.confidence.value, RightParen] + rest;
      assert symbols[1..][2..][3..] == rest;
    } else {
      assert symbols[1..][2..] == [RightParen] + rest;
      assert symbols[1..][2..][1..] == rest;
    }
  }

  lemma IntentStarts(tree: IntentTree)
    ensures IntentYield(tree) != [] && IntentYield(tree)[0].Word?
  {
  }

  lemma {:induction false} IntentsComplete(trees: seq<IntentTree>, rest: seq<Symbol>, read: Reader, room: nat)
    requires |trees| <= room && (forall i | 0 <= i < |trees| :: ValidIntent(trees[i], read))
        && (rest == [] || !rest[0].Word?)
    ensures ParseIntents(IntentsYield(trees) + rest, read, room) == Ok(Parsed(trees, rest))
    ensures trees != [] ==> IntentsYield(trees) != [] && IntentsYield(trees)[0].Word?
    decreases |trees|
  {
    hide ParseIntent, ValidIntent, IntentYield;
    if trees == [] {
      assert IntentsYield(trees) + rest == rest;
    } else {
      var more := IntentsYield(trees[1..]) + rest;
      IntentComplete(trees[0], more, read);
      IntentStarts(trees[0]);
      IntentsComplete(trees[1..], rest, read, room - 1);
      assert IntentsYield(trees) + rest == IntentYield(trees[0]) + more;
      assert trees == [trees[0]] + trees[1..];
    }
  }

  lemma RuleComplete(tree: RuleTree, rest: seq<Symbol>, read: Reader, limits: Limits)
    requires ValidRule(tree, read, limits)
    ensures RuleYield(tree) + rest == [Word("if")] + (RuleYield(tree) + rest)[1..]
    ensures ParseRule((RuleYield(tree) + rest)[1..], read, limits) == Ok(Parsed(tree, rest))
  {
    hide ParseConditions, ParseIntents, ConditionsYield, IntentsYield, ValidCondition, ValidIntent;
    var closing := [RightBrace] + rest;
    var body := [LeftBrace] + IntentsYield(tree.intents) + closing;
    assert (RuleYield(tree) + rest)[1..] == ConditionsYield(tree.conditions) + body;
    ConditionsComplete(tree.conditions, body, read, limits.maxConditions);
    assert body[1..] == IntentsYield(tree.intents) + closing;
    IntentsComplete(tree.intents, closing, read, limits.maxIntents);
    assert closing[1..] == rest;
  }

  lemma ScheduleComplete(tree: ItemTree, rest: seq<Symbol>, read: Reader, limits: Limits)
    requires tree.ScheduleTree? && ValidItem(tree, read, limits)
    ensures ItemYield(tree) + rest == [Word("every")] + (ItemYield(tree) + rest)[1..]
    ensures ParseSchedule((ItemYield(tree) + rest)[1..], read, limits) == Ok(Parsed(tree, rest))
  {
    hide ParseRule, RuleYield, ValidRule, IntervalSeconds;
    var closing := [RightBrace] + rest;
    var symbols := (ItemYield(tree) + rest)[1..];
    assert closing[1..] == rest;
    if tree.rule.Some? {
      RuleComplete(tree.rule.value, closing, read, limits);
      assert symbols[2..] == RuleYield(tree.rule.value) + closing;
    } else {
      assert symbols[2..] == closing;
    }
  }

  // ---------------------------------------------------------------- items and programs

  lemma {:induction false} ItemsSound(symbols: seq<Symbol>, read: Reader, limits: Limits, room: nat, scheduled: bool)
    requires ParseItems(symbols, read, limits, room, scheduled).Ok?
    ensures ItemsRead(ParseItems(symbols, read, limits, room, scheduled).value, symbols, read, limits, room, scheduled)
    decreases |symbols|
  {
    hide ParseSchedule, ItemsRead;
    if Starts(symbols, RightBrace) {
      NoItems(symbols, read, limits, room, scheduled);
    } else if Starts(symbols, Word("agent")) {
      ItemsSound(symbols[2..], read, limits, room - 1, scheduled);
      var more := ParseItems(symbols[2..], read, limits, room - 1, scheduled).value;
      AgentFirst(symbols[1].text, read, limits);
      assert symbols == [symbols[0], symbols[1]] + symbols[2..];
      ItemFirst(AgentTree(symbols[1].text), more, symbols[2..], read, limits, room - 1, scheduled);
    } else {
      ScheduleSound(symbols[1..], read, limits);
      ScheduleShrinks(symbols[1..], read, limits);
      var first := ParseSchedule(symbols[1..], read, limits).value;
      ItemsSound(first.rest, read, limits, room, true);
      var more := ParseItems(first.rest, read, limits, room, true).value;
      assert symbols == [symbols[0]] + symbols[1..];
      ItemFirst(first.tree, more, first.rest, read, limits, room, true);
    }
  }

  ghost predicate ItemsRead(parsed: Parsed<seq<ItemTree>>, symbols: seq<Symbol>, read: Reader, limits: Limits,
                            room: nat, scheduled: bool) {
    && symbols == ItemsYield(parsed.tree) + parsed.rest && ValidItems(parsed.tree, read, limits)
    && |Agents(parsed.tree)| <= room && |Schedules(parsed.tree)| <= if scheduled then 0 else 1
  }

  lemma NoItems(symbols: seq<Symbol>, read: Reader, limits: Limits, room: nat, scheduled: bool)
    ensures ItemsRead(Parsed([], symbols), symbols, read, limits, room, scheduled)
  {
    assert symbols == [] + symbols;
  }

  /** One item more in front: an agent takes a room, a schedule may only come where none was before. */
  lemma ItemFirst(item: ItemTree, more: Parsed<seq<ItemTree>>, symbols: seq<Symbol>, read: Reader, limits: Limits,
                  room: nat, scheduled: bool)
    requires ItemsRead(more, symbols, read, limits, room, scheduled) && ValidItem(item, read, limits)
    requires item.ScheduleTree? ==> scheduled
    ensures ItemsRead(Parsed([item] + more.tree, more.rest), ItemYield(item) + symbols, read, limits,
                      if item.AgentTree? then room + 1 else room, if item.AgentTree? then scheduled else false)
  {
    hide ItemYield, ValidItem;
    assert ([item] + more.tree)[1..] == more.tree;
    assert ItemYield(item) + (ItemsYield(more.tree) + more.rest)
        == (ItemYield(item) + ItemsYield(more.tree)) + more.rest;
  }

  lemma AgentFirst(name: string, read: Reader, limits: Limits)
    ensures ItemYield(AgentTree(name)) == [Word("agent"), Word(name)] && ValidItem(AgentTree(name), read, limits)
  {
  }

  lemma {:induction false} ItemsComplete(items: seq<ItemTree>, rest: seq<Symbol>, read: Reader, limits: Limits,
                                         room: nat, scheduled: bool)
    requires ValidItems(items, read, limits) && |Agents(items)| <= room
        && |Schedules(items)| <= (if scheduled then 0 else 1)
    requires Starts(rest, RightBrace)
    ensures ParseItems(ItemsYield(items) + rest, read, limits, room, scheduled) == Ok(Parsed(items, rest))
    decreases |items|
  {
    hide ParseSchedule, ValidItem, ItemYield;
    if items == [] {
      assert ItemsYield(items) + rest == rest;
    } else {
      var more := ItemsYield(items[1..]) + rest;
      var symbols := ItemsYield(items) + rest;
      assert symbols == ItemYield(items[0]) + more;
      assert items == [items[0]] + items[1..];
      if items[0].AgentTree? {
        AgentFirst(items[0].name, read, limits);
        ItemsComplete(items[1..], rest, read, limits, room - 1, scheduled);
        assert symbols[2..] == more;
      } else {
        ItemsComplete(items[1..], rest, read, limits, room, true);
        ScheduleComplete(items[0], more, read, limits);
      }
    }
  }

  predicate Ended(symbols: seq<Symbol>) {
    symbols != [] && symbols[|symbols| - 1] == End && forall i | 0 <= i < |symbols| - 1 :: symbols[i] != End
  }

  /** What the parser accepts is the yield of the valid tree it returns ... */
  lemma ProgramSound(symbols: seq<Symbol>, read: Reader, limits: Limits)
    requires Ended(symbols) && ParseProgram(symbols, read, limits).Ok?
    ensures var tree := ParseProgram(symbols, read, limits).value;
      symbols == TreeYield(tree) + [End] && ValidTree(tree, read, limits)
  {
    hide ParseItems, ItemsYield, ValidItems, Agents, Schedules;
    ItemsSound(symbols[3..], read, limits, limits.maxAgents, false);
    var items := ParseItems(symbols[3..], read, limits, limits.maxAgents, false).value;
    var n := |ItemsYield(items.tree)|;
    assert symbols == symbols[..3] + symbols[3..];
    assert items.rest == [RightBrace] + items.rest[1..];
    assert symbols[3 + n + 1] == items.rest[1..][0];
    assert items.rest[1..] == [End];
  }

  /** ... and every yield of a valid tree is accepted with that very tree. */
  lemma ProgramComplete(tree: Tree, read: Reader, limits: Limits)
    requires ValidTree(tree, read, limits)
    ensures ParseProgram(TreeYield(tree) + [End], read, limits) == Ok(tree)
  {
    hide ParseItems, ItemsYield, ValidItems, Agents, Schedules;
    var symbols := TreeYield(tree) + [End];
    assert symbols[3..] == ItemsYield(tree.items) + [RightBrace, End];
    ItemsComplete(tree.items, [RightBrace, End], read, limits, limits.maxAgents, false);
    assert [RightBrace, End][1..] == [End];
  }

  /** The grammar is unambiguous: a list of symbols has at most one valid tree. */
  lemma OneTree(a: Tree, b: Tree, read: Reader, limits: Limits)
    requires ValidTree(a, read, limits) && ValidTree(b, read, limits) && TreeYield(a) == TreeYield(b)
    ensures a == b
  {
    hide ValidTree, TreeYield, ParseProgram;
    ProgramComplete(a, read, limits);
    ProgramComplete(b, read, limits);
  }

  // ---------------------------------------------------------------- the program a tree denotes

  function ConditionOf(tree: ConditionTree, read: Reader): Condition
    requires ValidCondition(tree, read)
  {
    Condition(tree.signal, tree.operator, read(tree.number.text).value)
  }

  function IntentOf(tree: IntentTree, read: Reader): Intent
    requires ValidIntent(tree, read)
  {
    var action := ActionName(tree.action).value;
    match tree
    case Plain(_) => Intent(action, "", None)
    case Trade(_, asset, confidence) =>
      Intent(action, asset, if confidence.Some? then Some(read(confidence.value.text).value) else None)
  }

  function ConditionsOf(trees: seq<ConditionTree>, read: Reader): seq<Condition>
    requires forall i | 0 <= i < |trees| :: ValidCondition(trees[i], read)
  {
    seq(|trees|, i requires 0 <= i < |trees| => ConditionOf(trees[i], read))
  }

  function IntentsOf(trees: seq<IntentTree>, read: Reader): seq<Intent>
    requires forall i | 0 <= i < |trees| :: ValidIntent(trees[i], read)
  {
    seq(|trees|, i requires 0 <= i < |trees| => IntentOf(trees[i], read))
  }

  /** What one item adds to the program. */
  function WithItem(program: Program, item: ItemTree, read: Reader, limits: Limits): Program
    requires ValidItem(item, read, limits)
  {
    match item
    case AgentTree(name) => program.(agents := program.agents + [name])
    case ScheduleTree(interval, rule) =>
      var scheduled := program.(schedule := Some(Schedule(interval, IntervalSeconds(interval).value)));
      if rule.None? then scheduled
      else scheduled.(conditions := program.conditions + ConditionsOf(rule.value.conditions, read),
                      intents := program.intents + IntentsOf(rule.value.intents, read))
  }

  function WithItems(program: Program, items: seq<ItemTree>, read: Reader, limits: Limits): Program
    requires ValidItems(items, read, limits)
    decreases |items|
  {
    if items == [] then program else WithItems(WithItem(program, items[0], read, limits), items[1..], read, limits)
  }

  function EmptyProgram(name: string): Program {
    Program(name, None, [], [], [])
  }

  function ProgramOf(tree: Tree, read: Reader, limits: Limits): Program
    requires ValidTree(tree, read, limits)
  {
    WithItems(EmptyProgram(tree.name), tree.items, read, limits)
  }

  lemma {:induction false} WithItemsMeaning(program: Program, items: seq<ItemTree>, read: Reader, limits: Limits)
    requires ValidItems(items, read, limits)
    ensures var end := WithItems(program, items, read, limits);
      && end.name == program.name && end.agents == program.agents + Agents(items)
      && (Schedules(items) == [] ==>
            end.schedule == program.schedule && end.conditions == program.conditions && end.intents == program.intents)
    decreases |items|
  {
    hide IntervalSeconds, ConditionsOf, IntentsOf;
    if items != [] {
      WithItemsMeaning(WithItem(program, items[0], read, limits), items[1..], read, limits);
    }
  }

  /** The program has the schedule, and the conditions and intents of its rule and no others. */
  predicate Carries(program: Program, item: ItemTree, read: Reader, limits: Limits)
    requires item.ScheduleTree? && ValidItem(item, read, limits)
  {
    && program.schedule == Some(Schedule(item.interval, IntervalSeconds(item.interval).value))
    && program.conditions == (if item.rule.Some? then ConditionsOf(item.rule.value.conditions, read) else [])
    && program.intents == (if item.rule.Some? then IntentsOf(item.rule.value.intents, read) else [])
  }

  lemma {:induction false} ScheduleCarried(program: Program, items: seq<ItemTree>, read: Reader, limits: Limits)
    requires ValidItems(items, read, limits) && |Schedules(items)| == 1 && program.conditions == []
        && program.intents == []
    ensures var item := Schedules(items)[0];
      && item.ScheduleTree? && ValidItem(item, read, limits)
      && Carries(WithItems(program, items, read, limits), item, read, limits)
    decreases |items|
  {
    hide IntervalSeconds, ConditionsOf, IntentsOf;
    assert ValidItem(items[0], read, limits);
    var next := WithItem(program, items[0], read, limits);
    if items[0].ScheduleTree? {
      assert Schedules(items[1..]) == [];
      WithItemsMeaning(next, items[1..], read, limits);
    } else {
      assert [] + Schedules(items[1..]) == Schedules(items[1..]);
      ScheduleCarried(next, items[1..], read, limits);
    }
  }

  /**
    The denoted program: the agents in order; without a schedule, nothing else; with one, its interval
    in seconds and the conditions and intents of its rule.
  */
  lemma ProgramMeaning(tree: Tree, read: Reader, limits: Limits)
    requires ValidTree(tree, read, limits)
    ensures var program, schedules := ProgramOf(tree, read, limits), Schedules(tree.items);
      && program.name == tree.name && program.agents == Agents(tree.items) && |program.agents| <= limits.maxAgents
      && (schedules == [] ==> program.schedule == None && program.conditions == [] && program.intents == [])
      && (schedules != [] ==>
            && schedules[0].ScheduleTree? && ValidItem(schedules[0], read, limits)
            && Carries(program, schedules[0], read, limits)
            && 0 < program.schedule.value.seconds <= MAX_INT64)
  {
    hide Carries, WithItems;
    WithItemsMeaning(EmptyProgram(tree.name), tree.items, read, limits);
    if Schedules(tree.items) != [] {
      ScheduleCarried(EmptyProgram(tree.name), tree.items, read, limits);
      CarriesSeconds(ProgramOf(tree, read, limits), Schedules(tree.items)[0], read, limits);
    }
  }

  lemma CarriesSeconds(program: Program, item: ItemTree, read: Reader, limits: Limits)
    requires item.ScheduleTree? && ValidItem(item, read, limits) && Carries(program, item, read, limits)
    ensures program.schedule.Some? && 0 < program.schedule.value.seconds <= MAX_INT64
  {
  }
}
