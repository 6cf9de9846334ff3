/**
  The recursive-descent parser object with its token index (core/nano/nano.go:329-547) and
  Compile (core/nano/nano.go:154-174), proved to be the parser function of the grammar module.
  A syntax error is modelled without its message and position.
*/
module NanoParser {
  import opened Common
  import opened NanoTokens
  import opened NanoGrammar

  function SymbolsOf(tokens: seq<Token>): (symbols: seq<Symbol>)
    ensures |symbols| == |tokens|
  {
    seq(|tokens|, i requires 0 <= i < |tokens| => tokens[i].symbol)
  }

  function Join<T>(done: seq<T>, parsed: Result<Parsed<seq<T>>, Fail>): Result<Parsed<seq<T>>, Fail> {
    match parsed
    case Err(fail) => Err(fail)
    case Ok(more) => Ok(Parsed(done + more.tree, more.rest))
  }

  lemma JoinOne<T>(done: seq<T>, item: T, parsed: Result<Parsed<seq<T>>, Fail>)
    ensures Join(done, Join([item], parsed)) == Join(done + [item], parsed)
  {
    if parsed.Ok? {
      assert done + ([item] + parsed.value.tree) == (done + [item]) + parsed.value.tree;
    }
  }

  lemma JoinNone<T>(done: seq<T>, parsed: Result<Parsed<seq<T>>, Fail>, rest: seq<Symbol>)
    ensures Join([], parsed) == parsed && Join(done, Ok(Parsed([], rest))) == Ok(Parsed(done, rest))
  {
    if parsed.Ok? {
      assert [] + parsed.value.tree == parsed.value.tree;
    }
    assert done + [] == done;
  }

  class Parser {
    const tokens: seq<Token>
    const read: Reader
    const limits: Limits
    var index: nat

    /** The tokenizer's list: one end token, last, and the index never passes it. */
    ghost predicate Valid()
      reads this
    {
      index < |tokens| && Ended(SymbolsOf(tokens))
    }

    ghost function Rest(): (rest: seq<Symbol>)
      requires Valid()
      reads this
      ensures rest != [] && Ended(rest) && rest[0] == tokens[index].symbol
    {
      SymbolsOf(tokens)[index..]
    }

    constructor (tokens: seq<Token>, read: Reader, limits: Limits)
      requires Ended(SymbolsOf(tokens))
      ensures this.tokens == tokens && this.read == read && this.limits == limits
      ensures Valid() && Rest() == SymbolsOf(tokens)
    {
      this.tokens, this.read, this.limits, index := tokens, read, limits, 0;
    }

    method Take() returns (symbol: Symbol)
      requires Valid()
      modifies this
      ensures Valid() && symbol == old(Rest()[0])
      ensures Rest() == if symbol == End then old(Rest()) else old(Rest())[1..]
    {
      symbol := tokens[index].symbol;
      if symbol != End {
        index := index + 1;
      }
    }

    method Accept(expected: Symbol) returns (ok: bool)
      requires Valid() && expected != End
      modifies this
      ensures Valid() && ok == (old(Rest()[0]) == expected)
      ensures Rest() == if ok then old(Rest())[1..] else old(Rest())
    {
      ok := tokens[index].symbol == expected;
      if ok {
        index := index + 1;
      }
    }

    method AcceptWord() returns (word: Option<string>)
      requires Valid()
      modifies this
      ensures Valid() && word == (if old(Rest()[0]).Word? then Some(old(Rest()[0]).text) else None)
      ensures Rest() == if word.Some? then old(Rest())[1..] else old(Rest())
    {
      if !tokens[index].symbol.Word? {
        return None;
      }
      word := Some(tokens[index].symbol.text);
      index := index + 1;
    }

    method Number() returns (value: Option<real>)
      requires Valid()
      modifies this
      ensures Valid() && (value.Some? <==> ValidNumber(old(Rest()[0]), read))
      ensures value.Some? ==> value == read(old(Rest()[0]).text) && Rest() == old(Rest())[1..]
    {
      var symbol := tokens[index].symbol;
      if !symbol.Whole? && !symbol.Decimal? {
        return None;
      }
      index := index + 1;
      value := read(symbol.text);
    }

    method Condition() returns (reply: Result<Condition, Fail>)
      requires Valid()
      modifies this
      ensures Valid()
      ensures var parsed := ParseCondition(old(Rest()), read);
        && (reply.Ok? <==> parsed.Ok?) && (reply.Err? ==> reply.error == parsed.error)
        && (parsed.Ok? ==>
              ValidCondition(parsed.value.tree, read) && reply.value == ConditionOf(parsed.value.tree, read)
                  && Rest() == parsed.value.rest)
    {
      hide ValidNumber, SymbolsOf, Ended;
      ghost var start := Rest();
      var signal := AcceptWord();
      if signal.None? {
        return Err(Syntax);
      }
      var ok := Accept(LeftParen);
      if ok {
        assert Rest() == start[1..][1..];
        if !tokens[index].symbol.Whole? {
          return Err(Syntax);
        }
        var argument := Take();
        ok := Accept(RightParen);
        if !ok {
          return Err(Syntax);
        }
        assert Rest() == start[1..][3..];
      }
      ghost var comparison := Rest();
      if !tokens[index].symbol.Comparison? {
        return Err(Syntax);
      }
      var operator := Take();
      var number := Number();
      if number.None? {
        return Err(Syntax);
      }
      assert Rest() == comparison[2..];
      reply := Ok(NanoGrammar.Condition(signal.value, operator.text, number.value));
    }

    method Intent() returns (reply: Result<Intent, Fail>)
      requires Valid() && Rest()[0].Word?
      modifies this
      ensures Valid()
      ensures var parsed := ParseIntent(old(Rest()), read);
        && (reply.Ok? <==> parsed.Ok?) && (reply.Err? ==> reply.error == parsed.error)
        && (parsed.Ok? ==>
              ValidIntent(parsed.value.tree, read) && reply.value == IntentOf(parsed.value.tree, read)
                  && Rest() == parsed.value.rest)
    {
      hide ValidNumber, ActionName, ParseTrade, SymbolsOf, Ended;
      ghost var start := Rest();
      var action := Take();
      var canonical := ActionName(action.text);
      if canonical.None? {
        return Err(Syntax);
      }
      var ok := Accept(LeftParen);
      if !ok {
        return Err(Syntax);
      }
      assert Rest() == start[1..][1..];
      if Trades(action.text) {
        var asset := AcceptWord();
        if asset.None? {
          return Err(Syntax);
        }
        assert Rest() == start[1..][2..];
        reply := TradeTail(action.text, asset.value);
      } else {
        ok := Accept(RightParen);
        if !ok {
          return Err(Syntax);
        }
        assert Rest() == start[1..][2..];
        reply := Ok(NanoGrammar.Intent(canonical.value, "", None));
      }
    }

    method TradeTail(action: string, asset: string) returns (reply: Result<Intent, Fail>)
      requires Valid() && ActionName(action).Some? && Trades(action)
      modifies this
      ensures Valid()
      ensures var parsed := ParseTrade(action, asset, old(Rest()), read);
        && (reply.Ok? <==> parsed.Ok?) && (reply.Err? ==> reply.error == parsed.error)
        && (parsed.Ok? ==>
              ValidIntent(parsed.value.tree, read) && reply.value == IntentOf(parsed.value.tree, read)
                  && Rest() == parsed.value.rest)
    {
      hide ActionName, SymbolsOf, Ended;
      ghost var start := Rest();
      var confidence: Option<real> := None;
      var ok := Accept(Comma);
      if ok {
        confidence := Number();
        if confidence.None? || !(0.0 <= confidence.value <= 1.0) {
          return Err(Syntax);
        }
        assert Rest() == start[2..];
      }
      ghost var closing := Rest();
      ok := Accept(RightParen);
      if !ok {
        return Err(Syntax);
      }
      assert confidence.Some? ==> Rest() == start[3..];
      reply := Ok(NanoGrammar.Intent(ActionName(action).value, asset, confidence));
    }

    /** The loop over conditions joined by `and`. */
    method Conditions() returns (reply: Result<seq<Condition>, Fail>)
      requires Valid()
      modifies this
      ensures Valid()
      ensures var parsed := ParseConditions(old(Rest()), read, limits.maxConditions);
        && (reply.Ok? <==> parsed.Ok?) && (reply.Err? ==> reply.error == parsed.error)
        && (parsed.Ok? ==>
              && (forall i | 0 <= i < |parsed.value.tree| :: ValidCondition(parsed.value.tree[i], read))
              && reply.value == ConditionsOf(parsed.value.tree, read) && Rest() == parsed.value.rest)
    {
      hide ParseCondition, ParseConditions, Join, SymbolsOf, Ended, ValidCondition, ConditionOf;
      var conditions: seq<Condition> := [];
      ghost var done: seq<ConditionTree> := [];
      ghost var start := Rest();
      JoinNone([], ParseConditions(start, read, limits.maxConditions), []);
      while true
        invariant Valid() && |conditions| == |done| <= limits.maxConditions
        invariant forall i | 0 <= i < |done| ::
            ValidCondition(done[i], read) && conditions[i] == ConditionOf(done[i], read)
        invariant ParseConditions(start, read, limits.maxConditions)
            == Join(done, ParseConditions(Rest(), read, limits.maxConditions - |done|))
        decreases limits.maxConditions - |done|
      {
        ghost var before, room := Rest(), limits.maxConditions - |done|;
        ConditionsStep(before, done, read, room);
        var condition := Condition();
        if condition.Err? {
          return Err(condition.error);
        }
        conditions := conditions + [condition.value];
        if |conditions| > limits.maxConditions {
          return Err(Limit);
        }
        ghost var tree := ParseCondition(before, read).value.tree;
        var and := Accept(Word("and"));
        if !and {
          done := done + [tree];
          assert conditions == ConditionsOf(done, read);
          return Ok(conditions);
        }
        done := done + [tree];
      }
    }

    /** The loop over intents, for as long as a word comes next. */
    method Intents() returns (reply: Result<seq<Intent>, Fail>)
      requires Valid()
      modifies this
      ensures Valid()
      ensures var parsed := ParseIntents(old(Rest()), read, limits.maxIntents);
        && (reply.Ok? <==> parsed.Ok?) && (reply.Err? ==> reply.error == parsed.error)
        && (parsed.Ok? ==>
              && (forall i | 0 <= i < |parsed.value.tree| :: ValidIntent(parsed.value.tree[i], read))
              && reply.value == IntentsOf(parsed.value.tree, read) && Rest() == parsed.value.rest)
    {
      hide ParseIntent, ParseIntents, Join, SymbolsOf, Ended, ValidIntent, IntentOf;
      var intents: seq<Intent> := [];
      ghost var done: seq<IntentTree> := [];
      ghost var start := Rest();
      JoinNone([], ParseIntents(start, read, limits.maxIntents), []);
      while tokens[index].symbol.Word?
        invariant Valid() && |intents| == |done| <= limits.maxIntents
        invariant forall i | 0 <= i < |done| :: ValidIntent(done[i], read) && intents[i] == IntentOf(done[i], read)
        invariant ParseIntents(start, read, limits.maxIntents)
            == Join(done, ParseIntents(Rest(), read, limits.maxIntents - |done|))
        decreases limits.maxIntents - |done|
      {
        ghost var before, room := Rest(), limits.maxIntents - |done|;
        IntentsStep(before, done, read, room);
        var intent := Intent();
        if intent.Err? {
          return Err(intent.error);
        }
        intents := intents + [intent.value];
        if |intents| > limits.maxIntents {
          return Err(Limit);
        }
        done := done + [ParseIntent(before, read).value.tree];
      }
      NoIntents(Rest(), done, read, limits.maxIntents - |done|);
      assert intents == IntentsOf(done, read);
      reply := Ok(intents);
    }

    /** After the keyword `if`: conditions, a brace, at least one action, a brace. */
    method Rule(program: Program) returns (reply: Result<Program, Fail>)
      requires Valid()
      modifies this
      ensures Valid()
      ensures var parsed := ParseRule(old(Rest()), read, limits);
        && (reply.Ok? <==> parsed.Ok?) && (reply.Err? ==> reply.error == parsed.error)
        && (parsed.Ok? ==>
              && ValidRule(parsed.value.tree, read, limits) && Rest() == parsed.value.rest
              && reply.value == program.(conditions := program.conditions
                                         + ConditionsOf(parsed.value.tree.conditions, read),
                                         intents := program.intents + IntentsOf(parsed.value.tree.intents, read)))
    {
      hide ParseConditions, ParseIntents, SymbolsOf, Ended, ConditionsOf, IntentsOf;
      RuleSound(Rest(), read, limits);
      var conditions := Conditions();
      if conditions.Err? {
        return Err(conditions.error);
      }
      ghost var body := Rest();
      var ok := Accept(LeftBrace);
      if !ok || !tokens[index].symbol.Word? {
        return Err(Syntax);
      }
      assert Rest() == body[1..];
      var intents := Intents();
      if intents.Err? {
        return Err(intents.error);
      }
      ok := Accept(RightBrace);
      if !ok {
        return Err(Syntax);
      }
      reply := Ok(program.(conditions := program.conditions + conditions.value,
                           intents := program.intents + intents.value));
    }

    /** After the keyword `every`. */
    method ScheduleItem(program: Program) returns (reply: Result<Program, Fail>)
      requires Valid()
      modifies this
      ensures Valid()
      ensures var parsed := ParseSchedule(old(Rest()), read, limits);
        && (reply.Ok? <==> parsed.Ok?) && (reply.Err? ==> reply.error == parsed.error)
        && (parsed.Ok? ==>
              && ValidItem(parsed.value.tree, read, limits) && Rest() == parsed.value.rest
              && reply.value == WithItem(program, parsed.value.tree, read, limits))
    {
      hide ParseRule, SymbolsOf, Ended, ConditionsOf, IntentsOf, IntervalSeconds, ValidRule;
      ghost var start := Rest();
      ScheduleSound(start, read, limits);
      if !tokens[index].symbol.Span? {
        return Err(Syntax);
      }
      var interval := Take();
      var seconds := IntervalSeconds(interval.text);
      if seconds.None? {
        return Err(Syntax);
      }
      var next := program.(schedule := Some(Schedule(interval.text, seconds.value)));
      var ok := Accept(LeftBrace);
      if !ok {
        return Err(Syntax);
      }
      ghost var body := Rest();
      assert body == start[2..];
      ok := Accept(Word("if"));
      if ok {
        var ruled := Rule(next);
        if ruled.Err? {
          return Err(ruled.error);
        }
        next := ruled.value;
      }
      ok := Accept(RightBrace);
      if !ok {
        return Err(Syntax);
      }
      reply := Ok(next);
    }

    method Strategy() returns (reply: Result<Program, Fail>)
      requires Valid() && index == 0
      modifies this
      ensures var parsed := ParseProgram(SymbolsOf(tokens), read, limits);
        && (reply.Ok? <==> parsed.Ok?) && (reply.Err? ==> reply.error == parsed.error)
        && (parsed.Ok? ==> ValidTree(parsed.value, read,
                                     limits) && reply.value == ProgramOf(parsed.value, read, limits))
    {
      hide ParseItems, Ended, ValidTree, ProgramOf;
      ghost var start := Rest();
      assert start == SymbolsOf(tokens);
      hide SymbolsOf;
      var ok := Accept(Word("strategy"));
      if !ok {
        return Err(Syntax);
      }
      var name := AcceptWord();
      if name.None? {
        return Err(Syntax);
      }
      ok := Accept(LeftBrace);
      if !ok {
        return Err(Syntax);
      }
      assert Rest() == start[3..];
      reply := Items(name.value);
      if reply.Err? {
        return;
      }
      ok := Accept(RightBrace);
      if tokens[index].symbol != End {
        return Err(Syntax);
      }
      ProgramSound(start, read, limits);
      AssembledProgram(ParseProgram(start, read, limits).value, read, limits);
    }

    /** The loop over agents and the schedule, up to the closing brace. */
    method Items(name: string) returns (reply: Result<Program, Fail>)
      requires Valid()
      modifies this
      ensures Valid()
      ensures var parsed := ParseItems(old(Rest()), read, limits, limits.maxAgents, false);
        && (reply.Ok? <==> parsed.Ok?) && (reply.Err? ==> reply.error == parsed.error)
        && (parsed.Ok? ==>
              && ValidItems(parsed.value.tree, read, limits) && Rest() == parsed.value.rest
              && reply.value == WithItems(EmptyProgram(name), parsed.value.tree, read, limits))
    {
      hide ParseItems, ParseSchedule, SymbolsOf, Ended, ValidItems, WithItems, WithItem, ValidItem, Join;
      var program := EmptyProgram(name);
      ghost var done: seq<ItemTree> := [];
      ghost var start := Rest();
      JoinNone([], ParseItems(start, read, limits, limits.maxAgents, false), []);
      NoItemsYet(name, read, limits);
      while tokens[index].symbol != RightBrace
        invariant Valid() && |program.agents| <= limits.maxAgents
        invariant ValidItems(done, read, limits) && program == WithItems(EmptyProgram(name), done, read, limits)
        invariant ParseItems(start, read, limits, limits.maxAgents, false)
               == Join(done, ParseItems(Rest(), read, limits, limits.maxAgents - |program.agents|,
                                        program.schedule.Some?))
        decreases |Rest()|
      {
        ghost var before := Rest();
        ghost var room, scheduled := limits.maxAgents - |program.agents|, program.schedule.Some?;
        ItemsFail(before, done, read, limits, room, scheduled);
        var agent := Accept(Word("agent"));
        if agent {
          var word := AcceptWord();
          if word.None? {
            return Err(Syntax);
          }
          assert Rest() == before[2..];
          if |program.agents| + 1 > limits.maxAgents {
            return Err(Limit);
          }
          ItemJoins(name, program, done, AgentTree(word.value), read, limits);
          AgentStep(before, done, read, limits, room, scheduled);
          program := program.(agents := program.agents + [word.value]);
          done := done + [AgentTree(word.value)];
        } else {
          var every := Accept(Word("every"));
          if !every || program.schedule.Some? {
            return Err(Syntax);
          }
          ScheduleSound(Rest(), read, limits);
          ScheduleShrinks(Rest(), read, limits);
          ghost var parsed := ParseSchedule(Rest(), read, limits);
          var next := ScheduleItem(program);
          if next.Err? {
            return Err(next.error);
          }
          ItemJoins(name, program, done, parsed.value.tree, read, limits);
          EveryStep(before, done, read, limits, room);
          program := next.value;
          done := done + [parsed.value.tree];
        }
      }
      ItemsStep(Rest(), read, limits, limits.maxAgents - |program.agents|, program.schedule.Some?);
      JoinNone(done, Ok(Parsed([], Rest())), Rest());
      reply := Ok(program);
    }
  }

  /** One round of the conditions loop, read off the parser function. */
  lemma ConditionsStep(symbols: seq<Symbol>, done: seq<ConditionTree>, read: Reader, room: nat)
    ensures var joined := Join(done, ParseConditions(symbols, read, room));
      match ParseCondition(symbols, read)
      case Err(fail) => joined == Err(fail)
      case Ok(first) =>
        if room == 0 then joined == Err(Limit)
        else if Starts(first.rest, Word("and"))
            then joined == Join(done + [first.tree], ParseConditions(first.rest[1..], read, room - 1))
        else joined == Ok(Parsed(done + [first.tree], first.rest))
  {
    hide ParseCondition;
    var first := ParseCondition(symbols, read);
    if first.Ok? && room > 0 && Starts(first.value.rest, Word("and")) {
      JoinOne(done, first.value.tree, ParseConditions(first.value.rest[1..], read, room - 1));
    }
  }

  lemma IntentsStep(symbols: seq<Symbol>, done: seq<IntentTree>, read: Reader, room: nat)
    requires symbols != [] && symbols[0].Word?
    ensures var joined := Join(done, ParseIntents(symbols, read, room));
      match ParseIntent(symbols, read)
      case Err(fail) => joined == Err(fail)
      case Ok(first) =>
        if room == 0 then joined == Err(Limit)
            else joined == Join(done + [first.tree], ParseIntents(first.rest, read, room - 1))
  {
    hide ParseIntent;
    var first := ParseIntent(symbols, read);
    if first.Ok? && room > 0 {
      JoinOne(done, first.value.tree, ParseIntents(first.value.rest, read, room - 1));
    }
  }

  lemma NoIntents(symbols: seq<Symbol>, done: seq<IntentTree>, read: Reader, room: nat)
    requires symbols != [] && !symbols[0].Word?
    ensures Join(done, ParseIntents(symbols, read, room)) == Ok(Parsed(done, symbols))
  {
    JoinNone(done, Ok(Parsed([], symbols)), symbols);
  }

  /** One round of the items loop, read off the parser function. */
  lemma ItemsStep(symbols: seq<Symbol>, read: Reader, limits: Limits, room: nat, scheduled: bool)
    requires symbols != []
    ensures var parsed := ParseItems(symbols, read, limits, room, scheduled);
      if symbols[0] == RightBrace then parsed == Ok(Parsed([], symbols))
      else if symbols[0] == Word("agent") then
        if |symbols| < 2 || !symbols[1].Word? then parsed == Err(Syntax)
        else if room == 0 then parsed == Err(Limit)
        else parsed == Join([AgentTree(symbols[1].text)], ParseItems(symbols[2..], read, limits, room - 1, scheduled))
      else if symbols[0] == Word("every") && !scheduled then
        match ParseSchedule(symbols[1..], read, limits)
        case Err(fail) => parsed == Err(fail)
        case Ok(first) => parsed == Join([first.tree], ParseItems(first.rest, read, limits, room, true))
      else parsed == Err(Syntax)
  {
    hide ParseSchedule;
  }

  lemma AgentStep(symbols: seq<Symbol>, done: seq<ItemTree>, read: Reader, limits: Limits, room: nat, scheduled: bool)
    requires |symbols| >= 2 && symbols[0] == Word("agent") && symbols[1].Word? && room > 0
    ensures Join(done, ParseItems(symbols, read, limits, room, scheduled))
         == Join(done + [AgentTree(symbols[1].text)], ParseItems(symbols[2..], read, limits, room - 1, scheduled))
  {
    hide ParseItems, Join;
    ItemsStep(symbols, read, limits, room, scheduled);
    JoinOne(done, AgentTree(symbols[1].text), ParseItems(symbols[2..], read, limits, room - 1, scheduled));
  }

  lemma EveryStep(symbols: seq<Symbol>, done: seq<ItemTree>, read: Reader, limits: Limits, room: nat)
    requires symbols != [] && symbols[0] == Word("every") && ParseSchedule(symbols[1..], read, limits).Ok?
    ensures var first := ParseSchedule(symbols[1..], read, limits).value;
      Join(done, ParseItems(symbols, read, limits, room, false))
          == Join(done + [first.tree], ParseItems(first.rest, read, limits, room, true))
  {
    hide ParseItems, Join, ParseSchedule;
    ItemsStep(symbols, read, limits, room, false);
    var first := ParseSchedule(symbols[1..], read, limits).value;
    JoinOne(done, first.tree, ParseItems(first.rest, read, limits, room, true));
  }

  /** Where the items loop gives up. */
  lemma ItemsFail(symbols: seq<Symbol>, done: seq<ItemTree>, read: Reader, limits: Limits, room: nat, scheduled: bool)
    requires symbols != [] && symbols[0] != RightBrace
    ensures var joined := Join(done, ParseItems(symbols, read, limits, room, scheduled));
      && (symbols[0] != Word("agent") && (symbols[0] != Word("every") || scheduled) ==> joined == Err(Syntax))
      && (symbols[0] == Word("agent") && (|symbols| < 2 || !symbols[1].Word?) ==> joined == Err(Syntax))
      && (symbols[0] == Word("agent") && |symbols| >= 2 && symbols[1].Word? && room == 0 ==> joined == Err(Limit))
      && (symbols[0] == Word("every") && !scheduled && ParseSchedule(symbols[1..], read, limits).Err? ==>
            joined == Err(ParseSchedule(symbols[1..], read, limits).error))
  {
    hide ParseItems, ParseSchedule;
    ItemsStep(symbols, read, limits, room, scheduled);
  }

  lemma NoItemsYet(name: string, read: Reader, limits: Limits)
    ensures ValidItems([], read, limits) && WithItems(EmptyProgram(name), [], read, limits) == EmptyProgram(name)
  {
  }

  /** One more item at the end of the list adds what it adds to the program so far. */
  lemma {:induction false} WithItemsSnoc(program: Program, done: seq<ItemTree>, item: ItemTree, read: Reader,
                                         limits: Limits)
    requires ValidItems(done, read, limits) && ValidItem(item, read, limits)
    ensures ValidItems(done + [item], read, limits)
    ensures WithItems(program, done + [item], read, limits)
        == WithItem(WithItems(program, done, read, limits), item, read, limits)
    decreases |done|
  {
    hide ValidItem, WithItem;
    if done == [] {
      assert ([] + [item])[1..] == [];
    } else {
      WithItemsSnoc(WithItem(program, done[0], read, limits), done[1..], item, read, limits);
      assert (done + [item])[1..] == done[1..] + [item];
    }
  }

  lemma ItemJoins(name: string, program: Program, done: seq<ItemTree>, item: ItemTree, read: Reader, limits: Limits)
    requires ValidItems(done, read, limits) && program == WithItems(EmptyProgram(name), done, read, limits)
    requires ValidItem(item, read, limits) || item.AgentTree?
    ensures ValidItems(done + [item], read, limits) && ValidItem(item, read, limits)
    ensures var next := WithItem(program, item, read, limits);
      && WithItems(EmptyProgram(name), done + [item], read, limits) == next
      && (item.AgentTree? ==> next == program.(agents := program.agents + [item.name]))
      && (item.ScheduleTree? ==> next.schedule.Some? && next.agents == program.agents)
  {
    hide WithItems;
    WithItemsSnoc(EmptyProgram(name), done, item, read, limits);
  }

  lemma AssembledProgram(tree: Tree, read: Reader, limits: Limits)
    requires ValidTree(tree, read, limits)
    ensures ValidItems(tree.items, read, limits)
        && ProgramOf(tree, read, limits) == WithItems(EmptyProgram(tree.name), tree.items, read, limits)
  {
  }

  // ---------------------------------------------------------------- Compile

  datatype CompileFail = BadLimits | SourceLimit | LexFail(lex: LexError) | ParseFail(fail: Fail) | NoNodes

  predicate ValidLimits(limits: Limits) {
    && limits.maxSourceBytes >= 1 && limits.maxTokens >= 1 && limits.maxAgents >= 1 && limits.maxConditions >= 1
        && limits.maxIntents >= 1
    && limits.maxSignals >= 1 && limits.maxTimestamps >= 1 && limits.maxInstructions >= 1 && limits.maxOutputs >= 1
  }

  /** The source reads as the yield of a valid tree with at least one item. */
  ghost predicate Derives(source: string, tree: Tree, read: Reader, limits: Limits) {
    && Tokens(source, limits.maxTokens).Ok?
    && SymbolsOf(Tokens(source, limits.maxTokens).value) == TreeYield(tree) + [End]
    && ValidTree(tree, read, limits) && tree.items != []
  }

  /** Compile accepts a source exactly when the grammar derives it within the limits, and returns what it denotes. */
  method Compile(source: string, validText: bool, read: Reader, limits: Limits)
    returns (reply: Result<Program, CompileFail>, ghost tree: Tree)
    ensures reply.Ok? <==>
              && ValidLimits(limits) && 0 < |source| <= limits.maxSourceBytes && validText
              && exists t :: Derives(source, t, read, limits)
    ensures reply.Ok? ==> Derives(source, tree, read, limits) && reply.value == ProgramOf(tree, read, limits)
  {
    hide Tokens, ParseProgram, TreeYield, ProgramOf, ValidTree;
    tree := Tree("", []);
    if !ValidLimits(limits) {
      return Err(BadLimits), tree;
    }
    if |source| == 0 || |source| > limits.maxSourceBytes || !validText {
      return Err(SourceLimit), tree;
    }
    var tokens := Tokenize(source, limits.maxTokens);
    if tokens.Err? {
      return Err(LexFail(tokens.error)), tree;
    }
    TokensEnd(source, limits.maxTokens);
    var parser := new Parser(tokens.value, read, limits);
    var program := parser.Strategy();
    DerivedTree(source, read, limits);
    if program.Err? {
      return Err(ParseFail(program.error)), tree;
    }
    tree := ParseProgram(SymbolsOf(tokens.value), read, limits).value;
    ProgramMeaning(tree, read, limits);
    NodesMeanItems(tree.items);
    if program.value.schedule.None? && program.value.agents == [] {
      return Err(NoNodes), tree;
    }
    reply := Ok(program.value);
    assert Derives(source, tree, read, limits);
  }

  lemma TokensEnd(source: string, maximum: nat)
    requires Tokens(source, maximum).Ok?
    ensures Ended(SymbolsOf(Tokens(source, maximum).value))
  {
    hide Tokens, LaidOut;
    TokensAreSlices(source, maximum);
    var pieces :| Tiles(source, pieces, Tokens(source, maximum).value) && |pieces| <= maximum;
  }

  lemma DerivedTree(source: string, read: Reader, limits: Limits)
    requires Tokens(source, limits.maxTokens).Ok?
    ensures var parsed := ParseProgram(SymbolsOf(Tokens(source, limits.maxTokens).value), read, limits);
      && (parsed.Ok? && parsed.value.items != [] ==> Derives(source, parsed.value, read, limits))
      && (parsed.Ok? ==> ValidTree(parsed.value, read, limits))
      && (forall t | Derives(source, t, read, limits) :: parsed == Ok(t))
  {
    hide Tokens, ParseProgram, TreeYield, ValidTree, SymbolsOf;
    TokensEnd(source, limits.maxTokens);
    var symbols := SymbolsOf(Tokens(source, limits.maxTokens).value);
    if ParseProgram(symbols, read, limits).Ok? {
      ProgramSound(symbols, read, limits);
    }
    forall t | Derives(source, t, read, limits)
      ensures ParseProgram(symbols, read, limits) == Ok(t)
    {
      ProgramComplete(t, read, limits);
    }
  }

  lemma NodesMeanItems(items: seq<ItemTree>)
    ensures items == [] <==> Agents(items) == [] && Schedules(items) == []
  {
    if items != [] {
      assert items[0].AgentTree? || items[0].ScheduleTree?;
    }
  }
}
