/**
 * Shared vocabulary of the interpreter (src/common.js): token kinds, source
 * locations and their textual prefix, tokens, function definitions, the
 * precedence table and `mop`, the map over an object's values.
 */
module Common {
  import opened Wrappers

  /** The kinds of token the lexer produces; `For` and `From` are the two the parser also uses. */
  datatype TokenKind =
    | Assign | Around | Asterisk | Boolean | By | Character | Circle | Circumflex
    | Comma | Distribute | Dot | EOF | Else | ElseIf | ForwardSlash | Identifier
    | If | In | Indentation | Integer | LeftCurlyBrace | LeftParenthesis
    | LeftSquareBracket | Less | LessEqual | Linebreak | Minus | More | MoreEqual
    | NotSame | Percent | Plus | Range | Real | Repeat | RightArrow
    | RightCurlyBrace | RightParenthesis | RightSquareBracket | Same | String
    | Symbol | T | Then | Through | Tilde | To | UpAssign | With
    | For | From

  /** A stretch of source text: first and last line, first and last column. */
  datatype SourceLocation = SourceLocation(lineStart: int, lineEnd: int, columnStart: int, columnEnd: int)

  /** A lexeme: its kind, its text and where it was found. */
  datatype Token = Token(kind: TokenKind, source: string, where: SourceLocation)

  /** A user or built-in function: name, formal parameter names and body. */
  datatype FunctionDefinition<Body> = FunctionDefinition(name: string, formals: seq<string>, body: Body)

  /**
   * Whether the point (column, row) lies in `loc`. The column test lets the
   * column just past `columnEnd` through, so a cursor placed right after the
   * last character still hits the location.
   */
  predicate Contains(loc: SourceLocation, column: int, row: int)
    ensures Contains(loc, column, row) ==> loc.lineStart <= loc.lineEnd && loc.columnStart <= loc.columnEnd + 1
  {
    loc.lineStart <= row && row <= loc.lineEnd && loc.columnStart <= column && column - 1 <= loc.columnEnd
  }

  /** The location that starts where `a` starts and ends where `b` ends. */
  function Span(a: SourceLocation, b: SourceLocation): (r: SourceLocation)
    ensures a == b ==> r == a
    ensures forall column, row :: a.lineEnd <= b.lineEnd && a.columnEnd <= b.columnEnd && Contains(a, column, row) ==>
              Contains(r, column, row)
  {
    SourceLocation(a.lineStart, b.lineEnd, a.columnStart, b.columnEnd)
  }

  /** A fresh copy of a location; locations are values here, so the copy is equal to it. */
  function Clone(loc: SourceLocation): (r: SourceLocation)
    ensures r == loc
  {
    SourceLocation(loc.lineStart, loc.lineEnd, loc.columnStart, loc.columnEnd)
  }

  /** The plain record a location becomes when it is posted between threads. */
  datatype Pod = Pod(lineStart: int, lineEnd: int, columnStart: int, columnEnd: int)

  function ToPod(loc: SourceLocation): Pod
  {
    Pod(loc.lineStart, loc.lineEnd, loc.columnStart, loc.columnEnd)
  }

  /** Rebuilds a location from a posted record; a missing record (falsy) gives none. */
  function Reify(pod: Option<Pod>): (r: Option<SourceLocation>)
    ensures r.Some? <==> pod.Some?
    ensures r.Some? ==> ToPod(r.value) == pod.value
  {
    match pod
    case None => None
    case Some(p) => Some(SourceLocation(p.lineStart, p.lineEnd, p.columnStart, p.columnEnd))
  }

  lemma ReifyToPod(loc: SourceLocation)
    ensures Reify(Some(ToPod(loc))) == Some(loc)
  {
  }

  lemma SpanOfItself(a: SourceLocation)
    ensures Span(a, a) == a
  {
  }

  /** Spanning is associative, so a chain of spans only depends on its two ends. */
  lemma SpanAssociative(a: SourceLocation, b: SourceLocation, c: SourceLocation)
    ensures Span(Span(a, b), c) == Span(a, Span(b, c)) == Span(a, c)
  {
  }

  /** A span covers the first location whenever the second one ends no earlier. */
  lemma SpanCovers(a: SourceLocation, b: SourceLocation, column: int, row: int)
    requires Contains(a, column, row)
    requires a.lineEnd <= b.lineEnd && a.columnEnd <= b.columnEnd
    ensures Contains(Span(a, b), column, row)
  {
  }

  /** The column right after the end is inside, the one after that is not. */
  lemma ContainsOnePastEnd(loc: SourceLocation)
    requires loc.lineStart <= loc.lineEnd && loc.columnStart <= loc.columnEnd
    ensures Contains(loc, loc.columnEnd + 1, loc.lineStart)
    ensures !Contains(loc, loc.columnEnd + 2, loc.lineStart)
  {
  }

  // ---------------------------------------------------------------------------
  // Text of a location: "lineStart:lineEnd:columnStart:columnEnd:"

  function DigitChar(d: nat): char
    requires d < 10
  {
    "0123456789"[d]
  }

  predicate IsDigit(c: char)
  {
    '0' <= c <= '9'
  }

  predicate AllDigits(s: string)
  {
    forall k :: 0 <= k < |s| ==> IsDigit(s[k])
  }

  /** Decimal digits of a natural number, most significant first, without leading zeros. */
  function Digits(n: nat): (r: string)
    ensures |r| > 0 && AllDigits(r)
    ensures |r| > 1 ==> r[0] != '0'
    decreases n
  {
    if n < 10 then [DigitChar(n)] else Digits(n / 10) + [DigitChar(n % 10)]
  }

  /** How JavaScript writes an integral number as a string. */
  function NumberToString(n: int): (r: string)
    ensures |r| > 0
    ensures n < 0 <==> r[0] == '-'
    ensures ':' !in r
  {
    if n < 0 then "-" + Digits(-n) else Digits(n)
  }

  function DigitsValue(s: string): nat
    requires AllDigits(s)
  {
    if |s| == 0 then 0 else DigitsValue(s[..|s| - 1]) * 10 + (s[|s| - 1] as int - '0' as int)
  }

  /** Reads back an optionally signed decimal integer. */
  function StringToNumber(s: string): Option<int>
  {
    if |s| > 1 && s[0] == '-' && AllDigits(s[1..]) then Some(-(DigitsValue(s[1..]) as int))
    else if |s| > 0 && AllDigits(s) then Some(DigitsValue(s))
    else None
  }

  lemma {:induction false} DigitsValueOfDigits(n: nat)
    ensures DigitsValue(Digits(n)) == n
    decreases n
  {
    if n >= 10 {
      var s := Digits(n / 10) + [DigitChar(n % 10)];
      assert s[..|s| - 1] == Digits(n / 10);
      DigitsValueOfDigits(n / 10);
    }
  }

  lemma NumberToStringRoundTrip(n: int)
    ensures StringToNumber(NumberToString(n)) == Some(n)
  {
    if n < 0 {
      var d := Digits(-n);
      var text := "-" + d;
      assert NumberToString(n) == text && text[0] == '-' && |text| > 1;
      assert text[1..] == d;
      DigitsValueOfDigits(-n);
      assert StringToNumber(text) == Some(-(DigitsValue(d) as int));
    } else {
      var d := Digits(n);
      assert NumberToString(n) == d && IsDigit(d[0]);
      DigitsValueOfDigits(n);
      assert StringToNumber(d) == Some(DigitsValue(d));
    }
  }

  /** The prefix an error message carries so that the editor can place it. */
  function DebugPrefix(loc: SourceLocation): (r: string)
    ensures |r| > 0 && r[|r| - 1] == ':'
  {
    NumberToString(loc.lineStart) + ":" + NumberToString(loc.lineEnd) + ":" +
    NumberToString(loc.columnStart) + ":" + NumberToString(loc.columnEnd) + ":"
  }

  /** What a located exception shows the user: its location's prefix, then its message. */
  function UserMessage(where: SourceLocation, message: string): (r: string)
    ensures |r| > |message| && r[|r| - |message|..] == message
  {
    DebugPrefix(where) + message
  }

  /** Splits off the text before the first colon. */
  function TakeField(s: string): Option<(string, string)>
    decreases |s|
  {
    if |s| == 0 then None
    else if s[0] == ':' then Some(("", s[1..]))
    else match TakeField(s[1..])
      case None => None
      case Some(p) => Some(([s[0]] + p.0, p.1))
  }

  function ReadNumber(s: string): Option<(int, string)>
  {
    match TakeField(s)
    case None => None
    case Some(p) =>
      match StringToNumber(p.0)
      case None => None
      case Some(n) => Some((n, p.1))
  }

  /** Reads a message back into its location and its text: the inverse of `UserMessage`. */
  function ParseUserMessage(s: string): Option<(SourceLocation, string)>
  {
    match ReadNumber(s)
    case None => None
    case Some(a) =>
      match ReadNumber(a.1)
      case None => None
      case Some(b) =>
        match ReadNumber(b.1)
        case None => None
        case Some(c) =>
          match ReadNumber(c.1)
          case None => None
          case Some(d) => Some((SourceLocation(a.0, b.0, c.0, d.0), d.1))
  }

  lemma {:induction false} TakeFieldOfColonFree(f: string, rest: string)
    requires ':' !in f
    ensures TakeField(f + ":" + rest) == Some((f, rest))
    decreases |f|
  {
    var s := f + ":" + rest;
    if |f| == 0 {
      assert s[1..] == rest;
    } else {
      assert s[0] == f[0];
      assert s[1..] == f[1..] + ":" + rest;
      TakeFieldOfColonFree(f[1..], rest);
      assert [f[0]] + f[1..] == f;
    }
  }

  lemma ReadNumberOfString(n: int, rest: string)
    ensures ReadNumber(NumberToString(n) + ":" + rest) == Some((n, rest))
  {
    TakeFieldOfColonFree(NumberToString(n), rest);
    NumberToStringRoundTrip(n);
  }

  /** A user message names its location and its text unambiguously. */
  lemma UserMessageRoundTrip(where: SourceLocation, message: string)
    ensures ParseUserMessage(UserMessage(where, message)) == Some((where, message))
  {
    var s4 := NumberToString(where.columnEnd) + ":" + message;
    var s3 := NumberToString(where.columnStart) + ":" + s4;
    var s2 := NumberToString(where.lineEnd) + ":" + s3;
    var s1 := NumberToString(where.lineStart) + ":" + s2;
    assert UserMessage(where, message) == s1;
    ReadNumberOfString(where.lineStart, s2);
    ReadNumberOfString(where.lineEnd, s3);
    ReadNumberOfString(where.columnStart, s4);
    ReadNumberOfString(where.columnEnd, message);
  }

  /** Two different locations never put the same prefix on a message. */
  lemma UserMessageInjective(a: SourceLocation, m: string, b: SourceLocation, n: string)
    requires UserMessage(a, m) == UserMessage(b, n)
    ensures a == b && m == n
  {
    UserMessageRoundTrip(a, m);
    UserMessageRoundTrip(b, n);
  }

  // ---------------------------------------------------------------------------
  // Operator precedence

  datatype Level =
    | Atom | Property | Call | Power | Not | Multiplicative | Additive
    | Shift | And | Or | Relational | Equality | Assignment

  function Precedence(level: Level): (r: int)
    ensures 15 <= r <= 100
    ensures r == 100 <==> level == Atom
    ensures r == 15 <==> level == Assignment
  {
    match level
    case Atom => 100
    case Property => 99
    case Call => 98
    case Power => 95
    case Not => 90
    case Multiplicative => 80
    case Additive => 70
    case Shift => 65
    case And => 60
    case Or => 59
    case Relational => 50
    case Equality => 45
    case Assignment => 15
  }

  /** Every level, from the tightest binding to the loosest. */
  const Levels: seq<Level> :=
    [Atom, Property, Call, Power, Not, Multiplicative, Additive, Shift, And, Or, Relational, Equality, Assignment]

  /** The table is a strict order: listed tighter means a strictly higher number. */
  lemma PrecedenceStrictlyOrdered()
    ensures forall l: Level :: l in Levels
    ensures forall i, j :: 0 <= i < j < |Levels| ==> Precedence(Levels[i]) > Precedence(Levels[j])
  {
    forall l: Level ensures l in Levels {
      match l
      case Atom => assert Levels[0] == l;
      case Property => assert Levels[1] == l;
      case Call => assert Levels[2] == l;
      case Power => assert Levels[3] == l;
      case Not => assert Levels[4] == l;
      case Multiplicative => assert Levels[5] == l;
      case Additive => assert Levels[6] == l;
      case Shift => assert Levels[7] == l;
      case And => assert Levels[8] == l;
      case Or => assert Levels[9] == l;
      case Relational => assert Levels[10] == l;
      case Equality => assert Levels[11] == l;
      case Assignment => assert Levels[12] == l;
    }
  }

  // ---------------------------------------------------------------------------
  // mop: an entries with every value transformed

  function Mop<K, V, W>(entries: map<K, V>, xform: V -> W): (r: map<K, W>)
    ensures r.Keys == entries.Keys
    ensures forall key :: key in r ==> r[key] == xform(entries[key])
  {
    map key | key in entries :: xform(entries[key])
  }

  lemma MopComposes<K, U, V, W>(entries: map<K, U>, f: U -> V, g: V -> W)
    ensures Mop(Mop(entries, f), g) == Mop(entries, x => g(f(x)))
  {
  }

  lemma MopIdentity<K, V>(entries: map<K, V>)
    ensures Mop(entries, x => x) == entries
  {
  }
}
