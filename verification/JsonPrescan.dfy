/**
  The iterative JSON prescan of the capability manifest loader (agent/capability/load.go:199-301)
  against a recursive reading of the value tree whose tokens it sees (objects and nesting limits as
  in sections 4 and 9 of RFC 8259).  Case folding and the clean-string test are parameters.
*/
module JsonPrescan {
  import opened Common

  const MAX_DEPTH: nat := 8

  datatype Json = Object(members: Members) | Array(items: Items) | Text(text: string) | Scalar
  datatype Members = NoMembers | Member(name: string, value: Json, more: Members)
  datatype Items = NoItems | Item(head: Json, tail: Items)

  /** The tokens of encoding/json: delimiters, strings, and every other scalar. */
  datatype Token = OpenObject | CloseObject | OpenArray | CloseArray | Str(text: string) | Other

  type Fold = string -> string
  type Clean = string -> bool

  // ---------------------------------------------------------------- the token stream of a tree

  function Stream(json: Json): seq<Token> {
    match json
    case Object(members) => [OpenObject] + MemberStream(members) + [CloseObject]
    case Array(items) => [OpenArray] + ItemStream(items) + [CloseArray]
    case Text(text) => [Str(text)]
    case Scalar => [Other]
  }

  function MemberStream(members: Members): seq<Token> {
    match members
    case NoMembers => []
    case Member(name, value, more) => [Str(name)] + Stream(value) + MemberStream(more)
  }

  function ItemStream(items: Items): seq<Token> {
    match items
    case NoItems => []
    case Item(head, tail) => Stream(head) + ItemStream(tail)
  }

  // ---------------------------------------------------------------- the tree predicate

  function Max(a: nat, b: nat): nat {
    if a < b then b else a
  }

  /** How many containers nest. */
  function Depth(json: Json): nat {
    match json
    case Object(members) => 1 + MembersDepth(members)
    case Array(items) => 1 + ItemsDepth(items)
    case _ => 0
  }

  function MembersDepth(members: Members): nat {
    match members
    case NoMembers => 0
    case Member(_, value, more) => Max(Depth(value), MembersDepth(more))
  }

  function ItemsDepth(items: Items): nat {
    match items
    case NoItems => 0
    case Item(head, tail) => Max(Depth(head), ItemsDepth(tail))
  }

  function Names(members: Members): seq<string> {
    match members
    case NoMembers => []
    case Member(name, _, more) => [name] + Names(more)
  }

  /** No two member names of the object are equal once folded. */
  predicate Distinct(members: Members, fold: Fold) {
    var names := Names(members);
    forall i, j | 0 <= i < j < |names| :: fold(names[i]) != fold(names[j])
  }

  /** Every string is clean and no object at any depth repeats a folded member name. */
  predicate Sound(json: Json, fold: Fold, clean: Clean) {
    match json
    case Object(members) => Distinct(members, fold) && MembersSound(members, fold, clean)
    case Array(items) => ItemsSound(items, fold, clean)
    case Text(text) => clean(text)
    case Scalar => true
  }

  predicate MembersSound(members: Members, fold: Fold, clean: Clean) {
    match members
    case NoMembers => true
    case Member(name, value, more) => clean(name) && Sound(value, fold, clean) && MembersSound(more, fold, clean)
  }

  predicate ItemsSound(items: Items, fold: Fold, clean: Clean) {
    match items
    case NoItems => true
    case Item(head, tail) => Sound(head, fold, clean) && ItemsSound(tail, fold, clean)
  }

  predicate Acceptable(json: Json, fold: Fold, clean: Clean) {
    json.Object? && Depth(json) <= MAX_DEPTH && Sound(json, fold, clean)
  }

  // ---------------------------------------------------------------- the stack machine

  datatype Frame = Frame(keyed: bool, expectKey: bool, seen: set<string>)

  datatype Scan = Scan(stack: seq<Frame>, sawTopLevel: bool)

  datatype Reason = Syntax | Trailing | Nesting | BadString | DuplicateKey

  const START := Scan([], false)

  function Top(stack: seq<Frame>): Frame
    requires stack != []
  {
    stack[|stack| - 1]
  }

  function WithTop(stack: seq<Frame>, frame: Frame): seq<Frame>
    requires stack != []
  {
    stack[..|stack| - 1] + [frame]
  }

  /** markValue: after a value an object expects a key. */
  function Marked(frame: Frame): Frame {
    if frame.keyed then frame.(expectKey := true) else frame
  }

  function Step(scan: Scan, token: Token, fold: Fold, clean: Clean): Result<Scan, Reason> {
    var stack := scan.stack;
    if scan.sawTopLevel && stack == [] then Err(Trailing)
    else
      match token
      case OpenObject => Open(scan, true)
      case OpenArray => Open(scan, false)
      case Str(text) =>
        if stack == [] then Err(Syntax)
        else if !clean(text) then Err(BadString)
        else if Top(stack).keyed && Top(stack).expectKey then
          if fold(text) in Top(stack).seen then Err(DuplicateKey)
          else Ok(scan.(stack := WithTop(stack, Frame(true, false, Top(stack).seen + {fold(text)}))))
        else Ok(scan.(stack := WithTop(stack, Marked(Top(stack)))))
      case Other => if stack == [] then Err(Syntax) else Ok(scan.(stack := WithTop(stack, Marked(Top(stack)))))
      case _ => if stack == [] then Err(Syntax) else Ok(scan.(stack := stack[..|stack| - 1]))
  }

  function Open(scan: Scan, keyed: bool): Result<Scan, Reason> {
    if scan.stack == [] && !keyed then Err(Syntax)
    else if |scan.stack| + 1 > MAX_DEPTH then Err(Nesting)
    else
      var below := if scan.stack == [] then [] else WithTop(scan.stack, Marked(Top(scan.stack)));
      Ok(Scan(below + [Frame(keyed, keyed, {})], true))
  }

  function Run(scan: Scan, tokens: seq<Token>, fold: Fold, clean: Clean): Result<Scan, Reason>
    decreases |tokens|
  {
    if tokens == [] then Ok(scan)
    else
      match Step(scan, tokens[0], fold, clean)
      case Err(reason) => Err(reason)
      case Ok(next) => Run(next, tokens[1..], fold, clean)
  }

  function Prescan(tokens: seq<Token>, fold: Fold, clean: Clean): Result<(), Reason> {
    match Run(START, tokens, fold, clean)
    case Err(reason) => Err(reason)
    case Ok(end) => if !end.sawTopLevel || end.stack != [] then Err(Syntax) else Ok(())
  }

  lemma {:induction false} RunAppend(scan: Scan, a: seq<Token>, b: seq<Token>, fold: Fold, clean: Clean)
    ensures Run(scan, a + b, fold, clean) ==
              match Run(scan, a, fold, clean)
              case Err(reason) => Err(reason)
              case Ok(next) => Run(next, b, fold, clean)
    decreases |a|
  {
    hide Step;
    if a == [] {
      assert a + b == b;
    } else {
      assert (a + b)[1..] == a[1..] + b;
      if Step(scan, a[0], fold, clean).Ok? {
        RunAppend(Step(scan, a[0], fold, clean).value, a[1..], b, fold, clean);
      }
    }
  }

  lemma RunOne(scan: Scan, token: Token, fold: Fold, clean: Clean)
    ensures Run(scan, [token], fold, clean) == Step(scan, token, fold, clean)
  {
    hide Step;
    if Step(scan, token, fold, clean).Ok? {
      assert [token][1..] == [];
      assert Run(Step(scan, token, fold, clean).value, [token][1..], fold, clean) == Step(scan, token, fold, clean);
    }
  }

  // ---------------------------------------------------------------- the machine reads trees

  /** A value may come next: the innermost container is an array, or an object that has just had a key. */
  predicate AtValue(scan: Scan) {
    scan.sawTopLevel && 0 < |scan.stack| <= MAX_DEPTH && (Top(scan.stack).keyed ==> !Top(scan.stack).expectKey)
  }

  /** Members may come next, with these names already seen. */
  predicate AtMembers(scan: Scan, seen: set<string>) {
    scan.sawTopLevel && 0 < |scan.stack| <= MAX_DEPTH && Top(scan.stack) == Frame(true, true, seen)
  }

  predicate AtItems(scan: Scan) {
    scan.sawTopLevel && 0 < |scan.stack| <= MAX_DEPTH && !Top(scan.stack).keyed
  }

  /** What the scan of members admits, given the names seen before them. */
  predicate Fresh(members: Members, seen: set<string>, fold: Fold) {
    match members
    case NoMembers => true
    case Member(name, _, more) => fold(name) !in seen && Fresh(more, seen + {fold(name)}, fold)
  }

  /** After a value, the scan stands where it stood, with the container marked. */
  function AfterValue(scan: Scan): Scan
    requires scan.stack != []
  {
    scan.(stack := WithTop(scan.stack, Marked(Top(scan.stack))))
  }

  function SeenAfter(members: Members, seen: set<string>, fold: Fold): set<string> {
    match members
    case NoMembers => seen
    case Member(name, _, more) => SeenAfter(more, seen + {fold(name)}, fold)
  }

  lemma {:induction false} ValueRead(json: Json, scan: Scan, fold: Fold, clean: Clean)
    requires AtValue(scan)
    ensures var read := Run(scan, Stream(json), fold, clean);
      if Depth(json) <= MAX_DEPTH - |scan.stack| && Sound(json, fold, clean) then read == Ok(AfterValue(scan))
          else read.Err?
    decreases json
  {
    match json
    case Text(text) => RunOne(scan, Str(text), fold, clean);
    case Scalar => RunOne(scan, Other, fold, clean);
    case Object(members) => ObjectRead(members, scan, fold, clean);
    case Array(items) => ArrayRead(items, scan, fold, clean);
  }

  lemma {:induction false} ObjectRead(members: Members, scan: Scan, fold: Fold, clean: Clean)
    requires scan == START || AtValue(scan)
    ensures var read := Run(scan, Stream(Object(members)), fold, clean);
      if Depth(Object(members)) <= MAX_DEPTH - |scan.stack| && Sound(Object(members), fold, clean)
      then read == Ok(if scan == START then Scan([], true) else AfterValue(scan)) else read.Err?
    decreases members, 2
  {
    hide Run, Step, Distinct;
    FreshIsDistinct(members, {}, fold);
    RunOne(scan, OpenObject, fold, clean);
    RunAppend(scan, [OpenObject], MemberStream(members) + [CloseObject], fold, clean);
    assert Stream(Object(members)) == [OpenObject] + (MemberStream(members) + [CloseObject]);
    OpenMeaning(scan, true, fold, clean);
    if |scan.stack| < MAX_DEPTH {
      var inside := Step(scan, OpenObject, fold, clean).value;
      RunAppend(inside, MemberStream(members), [CloseObject], fold, clean);
      MembersRead(members, inside, {}, fold, clean);
      var end := inside.(stack := WithTop(inside.stack, Frame(true, true, SeenAfter(members, {}, fold))));
      RunOne(end, CloseObject, fold, clean);
      CloseMeaning(scan, end, CloseObject, fold, clean);
    }
  }

  lemma {:induction false} ArrayRead(items: Items, scan: Scan, fold: Fold, clean: Clean)
    requires AtValue(scan)
    ensures var read := Run(scan, Stream(Array(items)), fold, clean);
      if Depth(Array(items)) <= MAX_DEPTH - |scan.stack| && Sound(Array(items), fold, clean)
      then read == Ok(AfterValue(scan)) else read.Err?
    decreases items, 2
  {
    hide Run, Step;
    RunOne(scan, OpenArray, fold, clean);
    RunAppend(scan, [OpenArray], ItemStream(items) + [CloseArray], fold, clean);
    assert Stream(Array(items)) == [OpenArray] + (ItemStream(items) + [CloseArray]);
    OpenMeaning(scan, false, fold, clean);
    if |scan.stack| < MAX_DEPTH {
      var inside := Step(scan, OpenArray, fold, clean).value;
      RunAppend(inside, ItemStream(items), [CloseArray], fold, clean);
      ItemsRead(items, inside, fold, clean);
      RunOne(inside, CloseArray, fold, clean);
      CloseMeaning(scan, inside, CloseArray, fold, clean);
    }
  }

  /** The stack with one container opened on top of a value position. */
  predicate Inside(scan: Scan, inside: Scan, keyed: bool) {
    && inside.sawTopLevel && |inside.stack| == |scan.stack| + 1 && Top(inside.stack).keyed == keyed
    && inside.stack[..|scan.stack|] == if scan.stack == [] then [] else AfterValue(scan).stack
  }

  lemma OpenMeaning(scan: Scan, keyed: bool, fold: Fold, clean: Clean)
    requires AtValue(scan) || (scan == START && keyed)
    ensures var next := Step(scan, if keyed then OpenObject else OpenArray, fold, clean);
      && (next.Ok? <==> |scan.stack| < MAX_DEPTH)
      && (next.Ok? ==> Inside(scan, next.value, keyed) && Top(next.value.stack) == Frame(keyed, keyed, {}))
  {
  }

  lemma CloseMeaning(scan: Scan, inside: Scan, token: Token, fold: Fold, clean: Clean)
    requires (AtValue(scan) || scan == START) && Inside(scan, inside, token.CloseObject?)
        && (token.CloseObject? || token.CloseArray?)
    ensures Step(inside, token, fold, clean) == Ok(if scan == START then Scan([], true) else AfterValue(scan))
  {
  }

  lemma {:induction false} MembersRead(members: Members, scan: Scan, seen: set<string>, fold: Fold, clean: Clean)
    requires AtMembers(scan, seen)
    ensures var read := Run(scan, MemberStream(members), fold, clean);
      if MembersDepth(members) <= MAX_DEPTH - |scan.stack| && Fresh(members, seen, fold)
          && MembersSound(members, fold, clean)
      then read == Ok(scan.(stack := WithTop(scan.stack, Frame(true, true, SeenAfter(members, seen, fold)))))
      else read.Err?
    decreases members, 1
  {
    hide Step;
    match members
    case NoMembers =>
      assert WithTop(scan.stack, Top(scan.stack)) == scan.stack;
    case Member(name, value, more) =>
      MemberRead(name, value, more, scan, seen, fold, clean);
  }

  lemma {:induction false} MemberRead(name: string, value: Json, more: Members, scan: Scan, seen: set<string>,
                                      fold: Fold, clean: Clean)
    requires AtMembers(scan, seen)
    ensures var members := Member(name, value, more);
      var read := Run(scan, MemberStream(members), fold, clean);
      if MembersDepth(members) <= MAX_DEPTH - |scan.stack| && Fresh(members, seen, fold)
          && MembersSound(members, fold, clean)
      then read == Ok(scan.(stack := WithTop(scan.stack, Frame(true, true, SeenAfter(members, seen, fold)))))
      else read.Err?
    decreases Member(name, value, more), 0
  {
    hide Run, Step, WithTop, Depth, MembersDepth, Sound, MembersSound, Fresh, SeenAfter;
    MemberParts(name, value, more, seen, fold, clean);
    var tail := Stream(value) + MemberStream(more);
    assert MemberStream(Member(name, value, more)) == [Str(name)] + tail;
    RunAppend(scan, [Str(name)], tail, fold, clean);
    RunOne(scan, Str(name), fold, clean);
    KeyRead(name, scan, seen, fold, clean);
    if clean(name) && fold(name) !in seen {
      var keyed := Step(scan, Str(name), fold, clean).value;
      var next := AfterValue(keyed);
      RunAppend(keyed, Stream(value), MemberStream(more), fold, clean);
      ValueRead(value, keyed, fold, clean);
      MembersRead(more, next, seen + {fold(name)}, fold, clean);
    }
  }

  lemma KeyRead(name: string, scan: Scan, seen: set<string>, fold: Fold, clean: Clean)
    requires AtMembers(scan, seen)
    ensures var next := Step(scan, Str(name), fold, clean);
      && (next.Ok? <==> clean(name) && fold(name) !in seen)
      && (next.Ok? ==>
            && AtValue(next.value) && |next.value.stack| == |scan.stack|
            && AtMembers(AfterValue(next.value), seen + {fold(name)}) && |AfterValue(next.value).stack| == |scan.stack|
            && (forall frame ::
                  AfterValue(next.value).(stack := WithTop(AfterValue(next.value).stack, frame))
                  == scan.(stack := WithTop(scan.stack, frame))))
  {
    var next := Step(scan, Str(name), fold, clean);
    if next.Ok? {
      forall frame
        ensures AfterValue(next.value).(stack := WithTop(AfterValue(next.value).stack, frame))
            == scan.(stack := WithTop(scan.stack, frame))
      {
        assert WithTop(AfterValue(next.value).stack, frame) == WithTop(scan.stack, frame);
      }
    }
  }

  lemma MemberParts(name: string, value: Json, more: Members, seen: set<string>, fold: Fold, clean: Clean)
    ensures var members := Member(name, value, more);
      && MembersDepth(members) == Max(Depth(value), MembersDepth(more))
      && (MembersSound(members, fold, clean) <==>
          clean(name) && Sound(value, fold, clean) && MembersSound(more, fold, clean))
      && (Fresh(members, seen, fold) <==> fold(name) !in seen && Fresh(more, seen + {fold(name)}, fold))
      && SeenAfter(members, seen, fold) == SeenAfter(more, seen + {fold(name)}, fold)
  {
  }

  lemma {:induction false} ItemsRead(items: Items, scan: Scan, fold: Fold, clean: Clean)
    requires AtItems(scan)
    ensures var read := Run(scan, ItemStream(items), fold, clean);
      if ItemsDepth(items) <= MAX_DEPTH - |scan.stack| && ItemsSound(items, fold, clean) then read == Ok(scan)
          else read.Err?
    decreases items, 1
  {
    hide Step, Depth, Sound, Stream;
    match items
    case NoItems =>
    case Item(head, tail) =>
      RunAppend(scan, Stream(head), ItemStream(tail), fold, clean);
      ValueRead(head, scan, fold, clean);
      assert AfterValue(scan).stack == scan.stack;
      ItemsRead(tail, scan, fold, clean);
  }

  // ---------------------------------------------------------------- names seen against names repeated

  /** None of the names folds into `seen`. */
  predicate Avoids(names: seq<string>, seen: set<string>, fold: Fold) {
    forall i | 0 <= i < |names| :: fold(names[i]) !in seen
  }

  lemma AvoidsMore(names: seq<string>, seen: set<string>, one: string, fold: Fold)
    ensures Avoids(names, seen + {one}, fold) <==> Avoids(names, seen, fold) && Avoids(names, {one}, fold)
  {
  }

  lemma AvoidsCons(name: string, rest: seq<string>, seen: set<string>, fold: Fold)
    ensures Avoids([name] + rest, seen, fold) <==> fold(name) !in seen && Avoids(rest, seen, fold)
  {
    var names := [name] + rest;
    if Avoids(names, seen, fold) {
      assert fold(names[0]) !in seen;
      forall i | 0 <= i < |rest|
        ensures fold(rest[i]) !in seen
      {
        assert fold(names[i + 1]) !in seen;
      }
    }
  }

  lemma {:induction false} FreshMeaning(members: Members, seen: set<string>, fold: Fold)
    ensures Fresh(members, seen, fold) <==> Distinct(members, fold) && Avoids(Names(members), seen, fold)
    decreases members
  {
    match members
    case NoMembers =>
    case Member(name, value, more) =>
      FreshMeaning(more, seen + {fold(name)}, fold);
      AvoidsMore(Names(more), seen, fold(name), fold);
      AvoidsCons(name, Names(more), seen, fold);
      DistinctCons(name, value, more, fold);
  }

  lemma DistinctCons(name: string, value: Json, more: Members, fold: Fold)
    ensures Distinct(Member(name, value, more), fold) <==>
        Distinct(more, fold) && Avoids(Names(more), {fold(name)}, fold)
  {
    var names, rest := Names(Member(name, value, more)), Names(more);
    assert names == [name] + rest;
    if Distinct(Member(name, value, more), fold) {
      forall i | 0 <= i < |rest|
        ensures fold(rest[i]) !in {fold(name)}
      {
        assert fold(names[0]) != fold(names[i + 1]);
      }
      forall i, j | 0 <= i < j < |rest|
        ensures fold(rest[i]) != fold(rest[j])
      {
        assert fold(names[i + 1]) != fold(names[j + 1]);
      }
    }
  }

  lemma FreshIsDistinct(members: Members, seen: set<string>, fold: Fold)
    requires seen == {}
    ensures Fresh(members, seen, fold) <==> Distinct(members, fold)
  {
    FreshMeaning(members, seen, fold);
  }

  // ---------------------------------------------------------------- main results

  /** On the tokens of any value tree the prescan accepts exactly the acceptable objects. */
  lemma PrescanMeaning(json: Json, fold: Fold, clean: Clean)
    ensures Prescan(Stream(json), fold, clean).Ok? <==> Acceptable(json, fold, clean)
  {
    match json
    case Object(members) => ObjectRead(members, START, fold, clean);
    case Array(items) =>
      RunAppend(START, [OpenArray], ItemStream(items) + [CloseArray], fold, clean);
      RunOne(START, OpenArray, fold, clean);
      assert Stream(json) == [OpenArray] + (ItemStream(items) + [CloseArray]);
    case Text(text) => RunOne(START, Str(text), fold, clean);
    case Scalar => RunOne(START, Other, fold, clean);
  }

  /** Nothing may follow an accepted document, and no shorter beginning of it is accepted. */
  lemma AcceptedDocumentsDoNotExtend(tokens: seq<Token>, more: seq<Token>, fold: Fold, clean: Clean)
    requires Prescan(tokens, fold, clean).Ok? && more != []
    ensures Prescan(tokens + more, fold, clean) == Err(Trailing)
  {
    RunAppend(START, tokens, more, fold, clean);
  }

  // ---------------------------------------------------------------- the loop

  /** The prescan as it runs: one pass over the tokens with a stack it changes in place. */
  method PrescanTokens(tokens: seq<Token>, fold: Fold, clean: Clean) returns (reply: Result<(), Reason>)
    ensures reply == Prescan(tokens, fold, clean)
  {
    hide Run;
    var stack: seq<Frame> := [];
    var sawTopLevel := false;
    assert tokens[0..] == tokens;
    for i := 0 to |tokens|
      invariant Run(START, tokens, fold, clean) == Run(Scan(stack, sawTopLevel), tokens[i..], fold, clean)
    {
      ghost var before := Scan(stack, sawTopLevel);
      assert tokens[i..][0] == tokens[i] && tokens[i..][1..] == tokens[i + 1..];
      RunStep(before, tokens[i..], fold, clean);
      if sawTopLevel && |stack| == 0 {
        return Err(Trailing);
      }
      match tokens[i] {
        case OpenObject =>
          if |stack| > 0 {
            stack := WithTop(stack, Marked(Top(stack)));
          }
          sawTopLevel := true;
          if |stack| + 1 > MAX_DEPTH {
            return Err(Nesting);
          }
          stack := stack + [Frame(true, true, {})];
        case OpenArray =>
          if |stack| == 0 {
            return Err(Syntax);
          }
          stack := WithTop(stack, Marked(Top(stack)));
          sawTopLevel := true;
          if |stack| + 1 > MAX_DEPTH {
            return Err(Nesting);
          }
          stack := stack + [Frame(false, false, {})];
        case Str(text) =>
          if |stack| == 0 {
            return Err(Syntax);
          }
          var frame := Top(stack);
          if !clean(text) {
            return Err(BadString);
          }
          if frame.keyed && frame.expectKey {
            var folded := fold(text);
            if folded in frame.seen {
              return Err(DuplicateKey);
            }
            stack := WithTop(stack, Frame(true, false, frame.seen + {folded}));
          } else {
            stack := WithTop(stack, Marked(frame));
          }
        case Other =>
          if |stack| == 0 {
            return Err(Syntax);
          }
          stack := WithTop(stack, Marked(Top(stack)));
        case _ =>
          if |stack| == 0 {
            return Err(Syntax);
          }
          stack := stack[..|stack| - 1];
      }
    }
    RunNothing(Scan(stack, sawTopLevel), tokens[|tokens|..], fold, clean);
    if !sawTopLevel || |stack| != 0 {
      return Err(Syntax);
    }
    reply := Ok(());
  }

  lemma RunStep(scan: Scan, tokens: seq<Token>, fold: Fold, clean: Clean)
    requires tokens != []
    ensures Run(scan, tokens, fold, clean) ==
              match Step(scan, tokens[0], fold, clean)
              case Err(reason) => Err(reason)
              case Ok(next) => Run(next, tokens[1..], fold, clean)
  {
    hide Step;
  }

  lemma RunNothing(scan: Scan, tokens: seq<Token>, fold: Fold, clean: Clean)
    requires tokens == []
    ensures Run(scan, tokens, fold, clean) == Ok(scan)
  {
  }
}
