/**
  The Nano tokenizer (core/nano/nano.go:199-327).  A source text is a string whose characters
  stand for its bytes.  The specification reads one lexeme off the front of the remaining text;
  the tokenizer walks the whole text with an offset, a line and a column.
*/
module NanoTokens {
  import opened Common

  datatype Symbol =
    | Word(text: string) | Whole(text: string) | Decimal(text: string) | Span(text: string) | Comparison(text: string)
    | LeftBrace | RightBrace | LeftParen | RightParen | Comma | End

  function Text(symbol: Symbol): string {
    match symbol
    case LeftBrace => "{"
    case RightBrace => "}"
    case LeftParen => "("
    case RightParen => ")"
    case Comma => ","
    case End => ""
    case _ => symbol.text
  }

  datatype Token = Token(symbol: Symbol, line: nat, column: nat)

  datatype LexError = LimitExceeded | SyntaxAt(line: nat, column: nat)

  // ---------------------------------------------------------------- characters

  predicate IsBlank(c: char) {
    c == ' ' || c == '\t' || c == '\r' || c == '\n'
  }

  predicate IdentifierStart(c: char) {
    'a' <= c <= 'z' || 'A' <= c <= 'Z' || c == '_'
  }

  predicate IsDigit(c: char) {
    '0' <= c <= '9'
  }

  predicate IdentifierPart(c: char) {
    IdentifierStart(c) || IsDigit(c)
  }

  predicate NotNewline(c: char) {
    c != '\n'
  }

  predicate IsUnit(c: char) {
    c == 's' || c == 'm' || c == 'h' || c == 'd'
  }

  /** The length of the longest prefix whose characters all satisfy `p`. */
  function Run(text: string, p: char -> bool): (n: nat)
    ensures n <= |text| && (n < |text| ==> !p(text[n]))
    ensures forall i | 0 <= i < n :: p(text[i])
  {
    if text != [] && p(text[0]) then 1 + Run(text[1..], p) else 0
  }

  predicate CommentStart(text: string) {
    |text| >= 2 && text[0] == '/' && text[1] == '/'
  }

  /** The true position of a byte offset: one more than the newlines, and the bytes since the last one. */
  function LineOf(source: string, offset: nat): nat
    requires offset <= |source|
  {
    if offset == 0 then 1 else LineOf(source, offset - 1) + (if source[offset - 1] == '\n' then 1 else 0)
  }

  function ColumnOf(source: string, offset: nat): nat
    requires offset <= |source|
  {
    if offset == 0 || source[offset - 1] == '\n' then 1 else ColumnOf(source, offset - 1) + 1
  }

  // ---------------------------------------------------------------- one lexeme

  /** The symbol at the front of the text, its text being the prefix it takes. */
  function Lexeme(text: string): (lexeme: Option<Symbol>)
    requires text != []
    ensures lexeme.Some? ==> Text(lexeme.value) != [] && Text(lexeme.value) <= text && '\n' !in Text(lexeme.value)
  {
    var c := text[0];
    if c == '{' then Some(LeftBrace)
    else if c == '}' then Some(RightBrace)
    else if c == '(' then Some(LeftParen)
    else if c == ')' then Some(RightParen)
    else if c == ',' then Some(Comma)
    else if c == '<' || c == '>' then Some(Comparison(if |text| > 1 && text[1] == '=' then text[..2] else text[..1]))
    else if c == '=' || c == '!' then if |text| > 1 && text[1] == '=' then Some(Comparison(text[..2])) else None
    else if IdentifierStart(c) then Some(Word(text[..Run(text, IdentifierPart)]))
    else if IsDigit(c) then Numeral(text)
    else None
  }

  /** Digits, digits with a fraction, or digits and exactly one unit letter; nothing may be glued to them. */
  function Numeral(text: string): (lexeme: Option<Symbol>)
    requires text != [] && IsDigit(text[0])
    ensures lexeme.Some? ==> Text(lexeme.value) != [] && Text(lexeme.value) <= text && '\n' !in Text(lexeme.value)
  {
    var whole := Run(text, IsDigit);
    if whole < |text| && text[whole] == '.' then Fraction(text, whole)
    else if whole < |text| && IdentifierPart(text[whole]) then
      if IsUnit(text[whole]) && (whole + 1 < |text| ==> !IdentifierPart(text[whole + 1]))
          then Some(Span(text[..whole + 1])) else None
    else Some(Whole(text[..whole]))
  }

  function Fraction(text: string, dot: nat): (lexeme: Option<Symbol>)
    requires dot < |text| && text[dot] == '.' && '\n' !in text[..dot]
    ensures lexeme.Some? ==> Text(lexeme.value) != [] && Text(lexeme.value) <= text && '\n' !in Text(lexeme.value)
  {
    var digits := Run(text[dot + 1..], IsDigit);
    var end := dot + 1 + digits;
    if digits == 0 || (end < |text| && IdentifierPart(text[end])) then None
    else
      assert text[..end] == text[..dot] + "." + text[dot + 1..][..digits];
      Some(Decimal(text[..end]))
  }

  // ---------------------------------------------------------------- the whole text

  /** A symbol and where it starts. */
  datatype Piece = Piece(symbol: Symbol, offset: nat)

  /** `rest` is what is left of a text of `size` bytes; `count` symbols have been read. */
  function Lex(rest: string, size: nat, count: nat, maximum: nat): (read: Result<seq<Piece>, Option<nat>>)
    requires |rest| <= size
    ensures read.Ok? ==> forall i | 0 <= i < |read.value| :: read.value[i].offset < size
    ensures read.Err? && read.error.Some? ==> read.error.value < size
    decreases |rest|
  {
    if rest == [] then Ok([])
    else if IsBlank(rest[0]) then Lex(rest[1..], size, count, maximum)
    else if CommentStart(rest) then Lex(rest[Run(rest, NotNewline)..], size, count, maximum)
    else
      match Lexeme(rest)
      case None => Err(Some(size - |rest|))
      case Some(symbol) =>
        if count + 1 > maximum then Err(None)
        else
          match Lex(rest[|Text(symbol)|..], size, count + 1, maximum)
          case Err(error) => Err(error)
          case Ok(pieces) => Ok([Piece(symbol, size - |rest|)] + pieces)
  }

  function Located(source: string, piece: Piece): Token
    requires piece.offset <= |source|
  {
    Token(piece.symbol, LineOf(source, piece.offset), ColumnOf(source, piece.offset))
  }

  /** Blank characters and comments; a comment runs to a newline, or to the end of the source in the last gap. */
  ghost predicate Gap(text: string, last: bool)
    decreases |text|
  {
    text == []
    || (IsBlank(text[0]) && Gap(text[1..], last))
    || (CommentStart(text) && (last || Run(text, NotNewline) < |text|) && Gap(text[Run(text, NotNewline)..], last))
  }

  /** A lexeme of the source: it starts at its first character and stops where it must. */
  ghost predicate WholeLexeme(source: string, piece: Piece) {
    piece.offset < |source| && !IsBlank(source[piece.offset]) && !CommentStart(source[piece.offset..])
    && Lexeme(source[piece.offset..]) == Some(piece.symbol)
  }

  /** Every piece is an exact slice of the source, in order, with only layout before, between and after. */
  ghost predicate LaidOut(source: string, from: nat, pieces: seq<Piece>)
    requires from <= |source|
    decreases |pieces|
  {
    if pieces == [] then Gap(source[from..], true)
    else
      var start := pieces[0].offset;
      var end := start + |Text(pieces[0].symbol)|;
      && from <= start < end <= |source| && WholeLexeme(source, pieces[0])
      && Gap(source[from..start], false) && source[start..end] == Text(pieces[0].symbol)
      && LaidOut(source, end, pieces[1..])
  }

  /** A successful reading is laid out over the source, from any point of it, and keeps within the limit. */
  lemma {:induction false} LexLaidOut(source: string, from: nat, count: nat, maximum: nat)
    requires from <= |source| && count <= maximum
    ensures var read := Lex(source[from..], |source|, count, maximum);
      read.Ok? ==> LaidOut(source, from, read.value) && count + |read.value| <= maximum
    decreases |source| - from
  {
    hide Lexeme, LaidOut, Lex, Run;
    var rest := source[from..];
    if rest == [] {
      NothingLeft(source, from);
      LexNothing(|source|, count, maximum);
    } else if IsBlank(rest[0]) {
      LexLayout(rest, |source|, count, maximum);
      assert rest[1..] == source[from + 1..];
      LexLaidOut(source, from + 1, count, maximum);
      if Lex(rest[1..], |source|, count, maximum).Ok? {
        BlankBefore(source, from, Lex(rest[1..], |source|, count, maximum).value);
      }
    } else if CommentStart(rest) {
      LexLayout(rest, |source|, count, maximum);
      var k := Run(rest, NotNewline);
      CommentIsLong(rest);
      assert rest[k..] == source[from + k..];
      LexLaidOut(source, from + k, count, maximum);
      if Lex(rest[k..], |source|, count, maximum).Ok? {
        CommentBefore(source, from, Lex(rest[k..], |source|, count, maximum).value);
      }
    } else if Lexeme(rest).Some? && count + 1 <= maximum {
      SymbolLaidOut(source, from, count, maximum);
    } else {
      LexStops(rest, |source|, count, maximum);
    }
  }

  lemma SymbolLaidOut(source: string, from: nat, count: nat, maximum: nat)
    requires from < |source| && count + 1 <= maximum
    requires !IsBlank(source[from]) && !CommentStart(source[from..]) && Lexeme(source[from..]).Some?
    ensures var read := Lex(source[from..], |source|, count, maximum);
      read.Ok? ==> LaidOut(source, from, read.value) && count + |read.value| <= maximum
    decreases |source| - from, 0
  {
    hide Lexeme, LaidOut, Text;
    var rest := source[from..];
    var symbol := Lexeme(rest).value;
    var n := |Text(symbol)|;
    assert rest[n..] == source[from + n..];
    LexLaidOut(source, from + n, count + 1, maximum);
    if Lex(rest[n..], |source|, count + 1, maximum).Ok? {
      LexemeBefore(source, from, symbol, Lex(rest[n..], |source|, count + 1, maximum).value);
    }
  }

  lemma LexNothing(size: nat, count: nat, maximum: nat)
    ensures Lex([], size, count, maximum) == Ok([])
  {
  }

  lemma LexStops(rest: string, size: nat, count: nat, maximum: nat)
    requires rest != [] && |rest| <= size && !IsBlank(rest[0]) && !CommentStart(rest)
    requires Lexeme(rest).None? || count + 1 > maximum
    ensures Lex(rest, size, count, maximum).Err?
  {
    hide Lexeme;
  }

  lemma CommentIsLong(rest: string)
    requires CommentStart(rest)
    ensures Run(rest, NotNewline) >= 2
  {
  }

  lemma NothingLeft(source: string, from: nat)
    requires from == |source|
    ensures LaidOut(source, from, [])
  {
  }

  lemma LexemeBefore(source: string, from: nat, symbol: Symbol, pieces: seq<Piece>)
    requires from <= |source| && WholeLexeme(source, Piece(symbol, from)) && Text(symbol) != []
        && Text(symbol) <= source[from..]
    requires LaidOut(source, from + |Text(symbol)|, pieces)
    ensures LaidOut(source, from, [Piece(symbol, from)] + pieces)
  {
    hide WholeLexeme, Text;
    assert ([Piece(symbol, from)] + pieces)[1..] == pieces;
    assert source[from..from] == [];
    assert source[from..][..|Text(symbol)|] == source[from..from + |Text(symbol)|];
  }

  lemma BlankBefore(source: string, from: nat, pieces: seq<Piece>)
    requires from < |source| && IsBlank(source[from]) && LaidOut(source, from + 1, pieces)
    ensures LaidOut(source, from, pieces)
  {
    hide WholeLexeme, CommentStart;
    if pieces == [] {
      assert source[from..][1..] == source[from + 1..];
    } else {
      assert source[from..pieces[0].offset][1..] == source[from + 1..pieces[0].offset];
    }
  }

  lemma CommentBefore(source: string, from: nat, pieces: seq<Piece>)
    requires from < |source| && CommentStart(source[from..])
    requires LaidOut(source, from + Run(source[from..], NotNewline), pieces)
    ensures LaidOut(source, from, pieces)
  {
    hide Lexeme;
    var k := Run(source[from..], NotNewline);
    if pieces == [] {
      assert source[from..][k..] == source[from + k..];
    } else {
      CommentGap(source, from, pieces[0].offset);
    }
  }

  /** A comment before a token ends in a newline before that token. */
  lemma CommentGap(source: string, from: nat, start: nat)
    requires from < |source| && CommentStart(source[from..])
    requires from + Run(source[from..], NotNewline) <= start < |source| && !IsBlank(source[start])
    requires Gap(source[from + Run(source[from..], NotNewline)..start], false)
    ensures Gap(source[from..start], false)
  {
    var k := Run(source[from..], NotNewline);
    var text := source[from..start];
    assert source[from..][k] == source[from + k];
    assert source[from..] == text + source[start..];
    RunWithin(text, source[start..], NotNewline);
    assert text[k..] == source[from + k..start];
    assert source[from..][0] == text[0] && source[from..][1] == source[from + 1];
    assert k >= 2;
  }

  lemma {:induction false} RunWithin(text: string, more: string, p: char -> bool)
    requires Run(text + more, p) < |text|
    ensures Run(text, p) == Run(text + more, p)
    decreases |text|
  {
    if text != [] && p(text[0]) {
      assert (text + more)[1..] == text[1..] + more;
      RunWithin(text[1..], more, p);
    }
  }

  // ---------------------------------------------------------------- the tokenizer

  function LocatedAll(source: string, pieces: seq<Piece>): seq<Token>
    requires forall i | 0 <= i < |pieces| :: pieces[i].offset < |source|
  {
    seq(|pieces|, i requires 0 <= i < |pieces| => Located(source, pieces[i]))
  }

  /** What the tokenizer returns: located pieces and an end token, or the position of the first bad lexeme. */
  function Tokens(source: string, maximum: nat): Result<seq<Token>, LexError> {
    match Lex(source, |source|, 0, maximum)
    case Ok(pieces) => Ok(LocatedAll(source, pieces)
                          + [Token(End, LineOf(source, |source|), ColumnOf(source, |source|))])
    case Err(None) => Err(LimitExceeded)
    case Err(Some(offset)) => Err(SyntaxAt(LineOf(source, offset), ColumnOf(source, offset)))
  }

  function Prepend(done: seq<Piece>, read: Result<seq<Piece>, Option<nat>>): Result<seq<Piece>, Option<nat>> {
    match read
    case Ok(pieces) => Ok(done + pieces)
    case Err(error) => Err(error)
  }

  lemma LexLayout(rest: string, size: nat, count: nat, maximum: nat)
    requires rest != [] && |rest| <= size
    ensures IsBlank(rest[0]) ==> Lex(rest, size, count, maximum) == Lex(rest[1..], size, count, maximum)
    ensures CommentStart(rest) ==>
              Lex(rest, size, count, maximum) == Lex(rest[Run(rest, NotNewline)..], size, count, maximum)
    ensures !IsBlank(rest[0]) && !CommentStart(rest) && Lexeme(rest).None? ==>
        Lex(rest, size, count, maximum) == Err(Some(size - |rest|))
  {
    hide Lexeme, Run;
  }

  lemma LexSymbol(rest: string, size: nat, done: seq<Piece>, maximum: nat)
    requires rest != [] && |rest| <= size && !IsBlank(rest[0]) && !CommentStart(rest) && Lexeme(rest).Some?
    ensures var symbol := Lexeme(rest).value;
      Prepend(done, Lex(rest, size, |done|, maximum)) ==
        if |done| + 1 > maximum then Err(None)
        else Prepend(done + [Piece(symbol, size - |rest|)], Lex(rest[|Text(symbol)|..], size, |done| + 1, maximum))
  {
    hide Lexeme, Text;
    var symbol := Lexeme(rest).value;
    var next := Lex(rest[|Text(symbol)|..], size, |done| + 1, maximum);
    if next.Ok? {
      assert done + ([Piece(symbol, size - |rest|)] + next.value)
          == (done + [Piece(symbol, size - |rest|)]) + next.value;
    }
  }

  lemma LexEnds(size: nat, done: seq<Piece>, maximum: nat, read: Result<seq<Piece>, Option<nat>>)
    ensures Prepend([], read) == read && Prepend(done, Lex([], size, |done|, maximum)) == Ok(done)
  {
    if read.Ok? {
      assert [] + read.value == read.value;
    }
    assert done + [] == done;
  }

  method Tokenize(source: string, maximum: nat) returns (result: Result<seq<Token>, LexError>)
    ensures result == Tokens(source, maximum)
  {
    hide Lexeme, Text, Lex, Run, Prepend;
    var tokens: seq<Token> := [];
    ghost var done: seq<Piece> := [];
    var offset, line, column := 0, 1, 1;
    assert source[0..] == source;
    LexEnds(|source|, [], maximum, Lex(source, |source|, 0, maximum));
    while offset < |source|
      invariant 0 <= offset <= |source| && line == LineOf(source, offset) && column == ColumnOf(source, offset)
      invariant forall i | 0 <= i < |done| :: done[i].offset < |source|
      invariant |tokens| == |done| <= maximum
      invariant forall i | 0 <= i < |done| :: tokens[i] == Located(source, done[i])
      invariant Lex(source, |source|, 0, maximum) == Prepend(done, Lex(source[offset..], |source|, |done|, maximum))
      decreases |source| - offset
    {
      ghost var rest := source[offset..];
      LexLayout(rest, |source|, |done|, maximum);
      var character := source[offset];
      if character == '\n' {
        assert rest[1..] == source[offset + 1..];
        offset, line, column := offset + 1, line + 1, 1;
      } else if character == ' ' || character == '\t' || character == '\r' {
        assert rest[1..] == source[offset + 1..];
        offset, column := offset + 1, column + 1;
      } else if character == '/' && offset + 1 < |source| && source[offset + 1] == '/' {
        var end := Advance(source, offset, NotNewline);
        assert rest[end - offset..] == source[end..];
        SameLine(source, offset, end);
        offset, column := end, column + (end - offset);
      } else {
        var symbol := ScanLexeme(source, offset);
        if symbol.None? {
          assert Lex(source, |source|, 0, maximum) == Err(Some(offset)) by { BadLexeme(done, offset); }
          return Err(SyntaxAt(line, column));
        }
        LexSymbol(rest, |source|, done, maximum);
        var size := |Text(symbol.value)|;
        tokens := tokens + [Token(symbol.value, line, column)];
        if |tokens| > maximum {
          return Err(LimitExceeded);
        }
        done := done + [Piece(symbol.value, offset)];
        assert rest[size..] == source[offset + size..];
        LexemeStaysOnLine(source, offset, symbol.value);
        offset, column := offset + size, column + size;
      }
    }
    assert source[offset..] == [];
    LexEnds(|source|, done, maximum, Ok([]));
    assert tokens == LocatedAll(source, done);
    result := Ok(tokens + [Token(End, line, column)]);
  }

  lemma BadLexeme(done: seq<Piece>, offset: nat)
    ensures Prepend(done, Err(Some(offset))) == Err(Some(offset))
  {
  }

  /** Within a line only the column moves, byte by byte. */
  lemma {:induction false} SameLine(source: string, start: nat, end: nat)
    requires start <= end <= |source| && forall i | start <= i < end :: source[i] != '\n'
    ensures LineOf(source, end) == LineOf(source, start)
        && ColumnOf(source, end) == ColumnOf(source, start) + (end - start)
  {
    if start < end {
      SameLine(source, start, end - 1);
    }
  }

  lemma LexemeStaysOnLine(source: string, offset: nat, symbol: Symbol)
    requires offset < |source| && Lexeme(source[offset..]) == Some(symbol)
    ensures var end := offset + |Text(symbol)|;
      end <= |source| && LineOf(source, end) == LineOf(source, offset)
          && ColumnOf(source, end) == ColumnOf(source, offset) + |Text(symbol)|
  {
    hide Lexeme, Text;
    var rest, size := source[offset..], |Text(symbol)|;
    assert rest[..size] == Text(symbol) && forall i | 0 <= i < size :: source[offset + i] == rest[i] == Text(symbol)[i];
    SameLine(source, offset, offset + size);
  }

  /** The inner loops: from `start` to the end of a run. */
  method Advance(source: string, start: nat, p: char -> bool) returns (end: nat)
    requires start <= |source|
    ensures end == start + Run(source[start..], p)
    ensures start <= end <= |source| && forall i | start <= i < end :: p(source[i])
  {
    end := start;
    while end < |source| && p(source[end])
      invariant start <= end <= |source|
      invariant forall i | start <= i < end :: p(source[i])
      invariant Run(source[start..], p) == (end - start) + Run(source[end..], p)
    {
      assert source[end..][1..] == source[end + 1..];
      end := end + 1;
    }
    assert end < |source| ==> source[end..][0] == source[end];
  }

  /** One lexeme, as the switch of the tokenizer reads it. */
  method ScanLexeme(source: string, start: nat) returns (symbol: Option<Symbol>)
    requires start < |source|
    ensures symbol == Lexeme(source[start..])
  {
    ghost var rest := source[start..];
    var character := source[start];
    match character {
      case '{' => return Some(LeftBrace);
      case '}' => return Some(RightBrace);
      case '(' => return Some(LeftParen);
      case ')' => return Some(RightParen);
      case ',' => return Some(Comma);
      case _ =>
    }
    if character == '<' || character == '>' {
      assert rest[..1] == source[start..start + 1] && (|rest| > 1 ==> rest[..2] == source[start..start + 2]);
      if start + 1 < |source| && source[start + 1] == '=' {
        return Some(Comparison(source[start..start + 2]));
      }
      return Some(Comparison(source[start..start + 1]));
    }
    if character == '=' || character == '!' {
      if start + 1 >= |source| || source[start + 1] != '=' {
        return None;
      }
      assert rest[..2] == source[start..start + 2];
      return Some(Comparison(source[start..start + 2]));
    }
    if IdentifierStart(character) {
      var end := Advance(source, start, IdentifierPart);
      assert rest[..end - start] == source[start..end];
      return Some(Word(source[start..end]));
    }
    if IsDigit(character) {
      symbol := ScanNumeral(source, start);
      return;
    }
    return None;
  }

  method ScanNumeral(source: string, start: nat) returns (symbol: Option<Symbol>)
    requires start < |source| && IsDigit(source[start])
    ensures symbol == Numeral(source[start..])
  {
    hide Run, Fraction;
    ghost var rest := source[start..];
    var end := Advance(source, start, IsDigit);
    if end < |source| && source[end] == '.' {
      symbol := ScanFraction(source, start, end);
      return;
    }
    assert rest[..end - start] == source[start..end];
    if end < |source| && IdentifierPart(source[end]) {
      var whole := end;
      end := Advance(source, whole, IdentifierPart);
      GluedRun(source[whole..]);
      if end != whole + 1 || !IsUnit(source[whole]) {
        return None;
      }
      assert rest[..end - start] == source[start..end];
      return Some(Span(source[start..end]));
    }
    symbol := Some(Whole(source[start..end]));
  }

  method ScanFraction(source: string, start: nat, dot: nat) returns (symbol: Option<Symbol>)
    requires start <= dot < |source| && source[dot] == '.' && '\n' !in source[start..][..dot - start]
    ensures symbol == Fraction(source[start..], dot - start)
  {
    hide Run, IsDigit, IdentifierPart;
    ghost var rest := source[start..];
    assert rest[dot - start + 1..] == source[dot + 1..];
    var end := Advance(source, dot + 1, IsDigit);
    if end == dot + 1 || (end < |source| && IdentifierPart(source[end])) {
      return None;
    }
    assert rest[..end - start] == source[start..end];
    symbol := Some(Decimal(source[start..end]));
  }

  lemma GluedRun(text: string)
    requires text != [] && IdentifierPart(text[0])
    ensures Run(text, IdentifierPart) == 1 <==> (1 < |text| ==> !IdentifierPart(text[1]))
  {
  }

  /** The tokens are the pieces, each an exact slice of the source at its true line and column, then the end. */
  ghost predicate Tiles(source: string, pieces: seq<Piece>, tokens: seq<Token>) {
    && LaidOut(source, 0, pieces)
    && (forall i | 0 <= i < |pieces| :: pieces[i].offset < |source| && pieces[i].symbol != End)
    && tokens == LocatedAll(source, pieces) + [Token(End, LineOf(source, |source|), ColumnOf(source, |source|))]
  }

  /** The tokens of an accepted source tile it, with nothing but layout in between, and keep within the limit. */
  lemma TokensAreSlices(source: string, maximum: nat)
    requires Tokens(source, maximum).Ok?
    ensures exists pieces :: Tiles(source, pieces, Tokens(source, maximum).value) && |pieces| <= maximum
  {
    hide Lex, LaidOut;
    var pieces := Lex(source, |source|, 0, maximum).value;
    assert source[0..] == source;
    LexLaidOut(source, 0, 0, maximum);
    PiecesAreNotEnd(source, 0, pieces);
    assert Tiles(source, pieces, Tokens(source, maximum).value);
  }

  lemma {:induction false} PiecesAreNotEnd(source: string, from: nat, pieces: seq<Piece>)
    requires from <= |source| && LaidOut(source, from, pieces)
    ensures forall i | 0 <= i < |pieces| :: pieces[i].symbol != End
    decreases |pieces|
  {
    hide Lexeme;
    if pieces != [] {
      PiecesAreNotEnd(source, pieces[0].offset + |Text(pieces[0].symbol)|, pieces[1..]);
    }
  }

  lemma {:induction false} RunStops(text: string, more: string, p: char -> bool)
    requires Run(text, p) < |text|
    ensures Run(text + more, p) == Run(text, p)
    decreases |text|
  {
    if p(text[0]) {
      assert (text + more)[1..] == text[1..] + more;
      RunStops(text[1..], more, p);
    }
  }

  /** Layout is skipped, up to the next token or to the end. */
  lemma {:induction false} GapIsSkipped(source: string, from: nat, start: nat, count: nat, maximum: nat)
    requires from <= start <= |source| && Gap(source[from..start], start == |source|)
    ensures Lex(source[from..], |source|, count, maximum) == Lex(source[start..], |source|, count, maximum)
    decreases start - from
  {
    hide Lexeme, Lex;
    var text, rest := source[from..start], source[from..];
    if from < start {
      LexLayout(rest, |source|, count, maximum);
      assert text[0] == rest[0];
      if IsBlank(text[0]) && Gap(text[1..], start == |source|) {
        assert text[1..] == source[from + 1..start] && rest[1..] == source[from + 1..];
        GapIsSkipped(source, from + 1, start, count, maximum);
      } else {
        CommentIsSkipped(source, from, start);
        var k := Run(text, NotNewline);
        assert text[k..] == source[from + k..start] && rest[k..] == source[from + k..];
        CommentIsLong(text);
        GapIsSkipped(source, from + k, start, count, maximum);
      }
    }
  }

  lemma CommentIsSkipped(source: string, from: nat, start: nat)
    requires from < start <= |source| && CommentStart(source[from..start])
    requires start == |source| || Run(source[from..start], NotNewline) < start - from
    ensures CommentStart(source[from..]) && Run(source[from..], NotNewline) == Run(source[from..start], NotNewline)
  {
    var text, rest := source[from..start], source[from..];
    assert rest == text + source[start..];
    assert rest[0] == text[0] && rest[1] == text[1];
    if start == |source| {
      assert rest == text;
    } else {
      RunStops(text, source[start..], NotNewline);
    }
  }

  /** Every tiling of a source within the limit is what the tokenizer reads. */
  lemma {:induction false} LaidOutIsRead(source: string, from: nat, count: nat, maximum: nat, pieces: seq<Piece>)
    requires from <= |source| && LaidOut(source, from, pieces) && count + |pieces| <= maximum
    ensures Lex(source[from..], |source|, count, maximum) == Ok(pieces)
    decreases |pieces|
  {
    hide Lexeme, Gap, Lex, Text;
    if pieces == [] {
      assert source[from..|source|] == source[from..] && source[|source|..] == [];
      GapIsSkipped(source, from, |source|, count, maximum);
      LexNothing(|source|, count, maximum);
    } else {
      var start, n := pieces[0].offset, |Text(pieces[0].symbol)|;
      GapIsSkipped(source, from, start, count, maximum);
      assert source[start..][n..] == source[start + n..];
      LaidOutIsRead(source, start + n, count + 1, maximum, pieces[1..]);
      LexOne(source[start..], |source|, count, maximum);
      assert pieces == [pieces[0]] + pieces[1..];
    }
  }

  lemma LexOne(rest: string, size: nat, count: nat, maximum: nat)
    requires rest != [] && |rest| <= size && !IsBlank(rest[0]) && !CommentStart(rest) && Lexeme(rest).Some?
    requires count + 1 <= maximum
    ensures var symbol := Lexeme(rest).value;
      var next := Lex(rest[|Text(symbol)|..], size, count + 1, maximum);
      next.Ok? ==> Lex(rest, size, count, maximum) == Ok([Piece(symbol, size - |rest|)] + next.value)
  {
    hide Lexeme, Text;
  }

  /** The tokenizer is exact: it returns a list of tokens if and only if they tile the source within the limit. */
  lemma TokensExactly(source: string, maximum: nat, tokens: seq<Token>)
    ensures Tokens(source, maximum) == Ok(tokens) <==> exists pieces ::
        Tiles(source, pieces, tokens) && |pieces| <= maximum
  {
    hide Lex, LaidOut;
    if Tokens(source, maximum) == Ok(tokens) {
      TokensAreSlices(source, maximum);
    }
    assert source[0..] == source;
    forall pieces | Tiles(source, pieces, tokens) && |pieces| <= maximum
      ensures Tokens(source, maximum) == Ok(tokens)
    {
      LaidOutIsRead(source, 0, 0, maximum, pieces);
    }
  }

  // ---------------------------------------------------------------- lexical classes and the round trip

  predicate All(text: string, p: char -> bool) {
    forall i | 0 <= i < |text| :: p(text[i])
  }

  /** The lexical classes of the language, by themselves. */
  predicate WellFormed(symbol: Symbol) {
    match symbol
    case Word(text) => text != [] && IdentifierStart(text[0]) && All(text, IdentifierPart)
    case Whole(text) => text != [] && All(text, IsDigit)
    case Decimal(text) => exists dot :: 0 < dot < |text| - 1 && SplitsAt(text, dot)
    case Span(text) => |text| > 1 && All(text[..|text| - 1], IsDigit) && IsUnit(text[|text| - 1])
    case Comparison(text) => text in ["<", "<=", ">", ">=", "==", "!="]
    case End => false
    case _ => true
  }

  predicate SplitsAt(text: string, dot: nat) {
    dot < |text| && All(text[..dot], IsDigit) && text[dot] == '.' && All(text[dot + 1..], IsDigit)
  }

  lemma {:induction false} RunOver(text: string, rest: string, p: char -> bool)
    requires All(text, p) && (rest != [] ==> !p(rest[0]))
    ensures Run(text + rest, p) == |text|
  {
    if text == [] {
      assert text + rest == rest;
    } else {
      RunOver(text[1..], rest, p);
      assert (text + rest)[1..] == text[1..] + rest;
    }
  }

  /** Whatever the tokenizer reads belongs to its class ... */
  lemma LexemeIsWellFormed(text: string)
    requires text != [] && Lexeme(text).Some?
    ensures WellFormed(Lexeme(text).value)
  {
    hide Fraction;
    assert text[..1] == [text[0]] && (|text| > 1 ==> text[..2] == [text[0], text[1]]);
    if IsDigit(text[0]) {
      var whole := Run(text, IsDigit);
      if whole < |text| && text[whole] == '.' {
        FractionIsWellFormed(text, whole);
      } else if whole < |text| {
        assert text[..whole + 1][..whole] == text[..whole];
      }
    }
  }

  lemma FractionIsWellFormed(text: string, dot: nat)
    requires 0 < dot < |text| && text[dot] == '.' && '\n' !in text[..dot] && All(text[..dot], IsDigit)
    ensures Fraction(text, dot).Some? ==> WellFormed(Fraction(text, dot).value)
  {
    hide Run;
    var digits := Run(text[dot + 1..], IsDigit);
    var value := text[..dot + 1 + digits];
    assert value[..dot] == text[..dot] && value[dot + 1..] == text[dot + 1..][..digits];
    assert SplitsAt(value, dot);
  }

  /** ... and whatever belongs to a class is read back from in front of a blank. */
  lemma LexemeReads(symbol: Symbol, rest: string)
    requires WellFormed(symbol) && (rest != [] ==> IsBlank(rest[0]))
    ensures Text(symbol) != [] && !IsBlank(Text(symbol)[0]) && Text(symbol)[0] != '/'
    ensures Lexeme(Text(symbol) + rest) == Some(symbol)
  {
    hide Run, Fraction;
    var text := Text(symbol);
    var whole := text + rest;
    assert forall k | 0 <= k <= |text| :: whole[..k] == text[..k];
    match symbol
    case Word(_) => RunOver(text, rest, IdentifierPart);
    case Whole(_) => RunOver(text, rest, IsDigit);
    case Span(_) => SpanReads(text, rest);
    case Decimal(_) => DecimalReads(text, rest);
    case _ =>
  }

  lemma SpanReads(text: string, rest: string)
    requires WellFormed(Span(text)) && (rest != [] ==> IsBlank(rest[0]))
    ensures IsDigit(text[0]) && Numeral(text + rest) == Some(Span(text))
  {
    hide Run, Fraction;
    var digits, unit := text[..|text| - 1], text[|text| - 1..];
    assert text[0] == digits[0];
    RunOver(digits, unit + rest, IsDigit);
    assert text + rest == digits + (unit + rest) && (text + rest)[..|text|] == text;
  }

  lemma DecimalReads(text: string, rest: string)
    requires WellFormed(Decimal(text)) && (rest != [] ==> IsBlank(rest[0]))
    ensures IsDigit(text[0]) && Numeral(text + rest) == Some(Decimal(text))
  {
    hide Run;
    var dot :| 0 < dot < |text| - 1 && SplitsAt(text, dot);
    var digits, fraction := text[..dot], text[dot + 1..];
    assert text[0] == digits[0];
    RunOver(digits, "." + fraction + rest, IsDigit);
    assert text + rest == digits + ("." + fraction + rest);
    RunOver(fraction, rest, IsDigit);
    assert (text + rest)[dot + 1..] == fraction + rest && (text + rest)[..|text|] == text;
  }

  /** Symbols written out with a blank after each. */
  function Render(symbols: seq<Symbol>): string {
    if symbols == [] then [] else Text(symbols[0]) + " " + Render(symbols[1..])
  }

  function Symbols(pieces: seq<Piece>): seq<Symbol> {
    seq(|pieces|, i requires 0 <= i < |pieces| => pieces[i].symbol)
  }

  /** Reading undoes writing, for every list of well-formed symbols within the limit. */
  lemma {:induction false} RenderedTextReadsBack(symbols: seq<Symbol>, size: nat, count: nat, maximum: nat)
    requires forall i | 0 <= i < |symbols| :: WellFormed(symbols[i])
    requires |Render(symbols)| <= size && count + |symbols| <= maximum
    ensures var read := Lex(Render(symbols), size, count, maximum); read.Ok? && Symbols(read.value) == symbols
    decreases |symbols|
  {
    hide Lexeme, WellFormed, Text, Run;
    if symbols != [] {
      var symbol, tail := symbols[0], Render(symbols[1..]);
      var text := Render(symbols);
      assert text == Text(symbol) + (" " + tail);
      LexemeReads(symbol, " " + tail);
      assert text[|Text(symbol)|..] == " " + tail && (" " + tail)[1..] == tail;
      RenderedTextReadsBack(symbols[1..], size, count + 1, maximum);
      LexLayout(" " + tail, size, count + 1, maximum);
      var read := Lex(tail, size, count + 1, maximum).value;
      assert Lex(text, size, count, maximum) == Ok([Piece(symbol, size - |text|)] + read);
      assert Symbols([Piece(symbol, size - |text|)] + read) == [symbol] + Symbols(read);
    }
  }
}
