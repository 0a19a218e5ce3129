/**
 * The recursive-descent parser of parser.js. The functions below state,
 * branch by branch, what each parsing routine returns and where it leaves
 * the cursor and the stack of indentation depths; the `Parser` class runs
 * the same routines by updating its cursor and stack in place, and each of
 * its methods is proved to agree with the function of the same routine.
 */
module Parsing {
  import opened Wrappers
  import opened Common

  /**
   * The syntax tree, one constructor per class the parser builds.
   * `Undefined` is what `atom` returns when it recognises nothing: the
   * parser passes it on like any expression until something asks for its
   * location.
   */
  datatype Expr =
    | Undefined
    | ExpressionInteger(where: SourceLocation, text: string)
    | ExpressionReal(where: SourceLocation, text: string)
    | ExpressionString(where: SourceLocation, text: string)
    | ExpressionBoolean(where: SourceLocation, value: bool)
    | ExpressionIdentifier(where: SourceLocation, token: Token)
    | ExpressionVector(where: SourceLocation, elements: seq<Expr>)
    | ExpressionFunctionCall(where: SourceLocation, name: string, actuals: seq<Expr>)
    | ExpressionProperty(where: SourceLocation, base: Expr, property: Expr)
    | ExpressionAdd(where: SourceLocation, a: Expr, b: Expr)
    | ExpressionSubtract(where: SourceLocation, a: Expr, b: Expr)
    | ExpressionMultiply(where: SourceLocation, a: Expr, b: Expr)
    | ExpressionDivide(where: SourceLocation, a: Expr, b: Expr)
    | ExpressionRemainder(where: SourceLocation, a: Expr, b: Expr)
    | ExpressionAssignment(where: SourceLocation, lhs: Expr, rhs: Expr)
    | ExpressionBlock(where: SourceLocation, statements: seq<Expr>)
    | ExpressionFor(where: SourceLocation, j: Expr, start: Expr, stop: Expr, step: int, body: Expr)
    | ExpressionRepeat(where: SourceLocation, count: Expr, body: Expr)
    | ExpressionWith(where: SourceLocation, scope: Expr, body: Expr)
    | StatementTo(where: SourceLocation, e: Expr, body: Expr)
    | StatementThrough(where: SourceLocation, e: Expr, body: Expr)
    | StatementFrom(where: SourceLocation, from: Expr, body: Expr)
    | StatementBetween(where: SourceLocation, from: Expr, to: Expr, body: Expr)

  /** The nodes `atom` builds. */
  predicate IsAtom(e: Expr)
  {
    e.Undefined? || e.ExpressionInteger? || e.ExpressionReal? || e.ExpressionString? || e.ExpressionBoolean? ||
    e.ExpressionIdentifier? || e.ExpressionVector? || e.ExpressionFunctionCall? || e.ExpressionFor? ||
    e.ExpressionRepeat? || e.ExpressionWith?
  }

  predicate IsMultiplicativeNode(e: Expr)
  {
    e.ExpressionMultiply? || e.ExpressionDivide? || e.ExpressionRemainder?
  }

  predicate IsAdditiveNode(e: Expr)
  {
    e.ExpressionAdd? || e.ExpressionSubtract?
  }

  /*
   * How the operator levels nest. The right operand of a `.` is always an
   * atom; the right operand of `*`, `/` or `%` is a property chain; the
   * right operand of `+` or `-` is a multiplicative chain; the left
   * operand of `=` is an additive chain. So each of `.`, `*`, `+` groups to
   * the left, `=` to the right, and no looser operator ever appears
   * directly under a tighter one (the language has no parentheses).
   */

  predicate PropertyChain(e: Expr)
  {
    if e.ExpressionProperty? then IsAtom(e.property) && PropertyChain(e.base) else IsAtom(e)
  }

  predicate MultiplicativeChain(e: Expr)
  {
    if IsMultiplicativeNode(e) then PropertyChain(e.b) && MultiplicativeChain(e.a) else PropertyChain(e)
  }

  predicate AdditiveChain(e: Expr)
  {
    if IsAdditiveNode(e) then MultiplicativeChain(e.b) && AdditiveChain(e.a) else MultiplicativeChain(e)
  }

  predicate AssignmentChain(e: Expr)
  {
    if e.ExpressionAssignment? then AdditiveChain(e.lhs) && AssignmentChain(e.rhs) else AdditiveChain(e)
  }

  /** The four time-interval statements. */
  predicate IsInterval(e: Expr)
  {
    e.StatementTo? || e.StatementThrough? || e.StatementFrom? || e.StatementBetween?
  }

  /** A located complaint, or the TypeError of reading a location off something undefined. */
  datatype ParseError = Located(where: SourceLocation, message: Message) | TypeError

  /** The cursor and the stack of enclosing indentation depths. */
  datatype State = State(i: nat, indents: seq<int>)

  /** What a routine returns, and the state it leaves. */
  datatype Parsed<T> = Parsed(result: Result<T, ParseError>, next: State)

  ghost predicate Valid(toks: seq<Token>, s: State)
  {
    s.i <= |toks| && |s.indents| > 0
  }

  /** The complaints the parser can make. */
  datatype Message =
    | ProgramEndMsg
    | NotIndentedMsg
    | NoIncreaseMsg
    | JumpsMsg
    | IntervalLinebreakMsg
    | SecondTMsg
    | ToOrThroughMsg
    | BetweenLinebreakMsg
    | FromOrBetweenMsg
    | LinebreakOrEndMsg
    | LoopRangeMsg
    | CommaMsg
    | RightParenthesisMsg
    | RepeatCountMsg
    | WithScopeMsg
    | UnknownMsg(source: string)

  /** The wording of each complaint. */
  function Text(m: Message): string
  {
    match m
    case ProgramEndMsg => "I expected the program to end after this, but it didn't."
    case NotIndentedMsg => "I expected the code to be indented here, but it wasn't."
    case NoIncreaseMsg => "I expected the indentation to increase upon entering a block."
    case JumpsMsg => "I expected consistent indentation within a block, but this indentation jumps around."
    case IntervalLinebreakMsg => "I expected a linebreak after this time interval."
    case SecondTMsg => "I expected a second t in this through-interval."
    case ToOrThroughMsg => "I expected either a to-interval or a through-interval, but that's not what I found."
    case BetweenLinebreakMsg => "I expected either a line break after this interval."
    case FromOrBetweenMsg => "I expected either a from-interval or a between-interval, but that's not what I found."
    case LinebreakOrEndMsg => "I expected a line break or the end the program, but that's not what I found."
    case LoopRangeMsg => "I expected a linebreak after this loop's range."
    case CommaMsg => "I expected a comma between vector elements."
    case RightParenthesisMsg => "I expected a right parenthesis to close the function call."
    case RepeatCountMsg => "I expected a linebreak after this repeat's count."
    case WithScopeMsg => "I expected a linebreak after this with statement's scope expression."
    case UnknownMsg(source) => "I don't know what \"" + source + "\" means here."
  }

  // ---------------------------------------------------------------------------
  // Looking at tokens

  /** `has(type, offset)`: the token `offset` places past the cursor exists and has that kind. */
  predicate HasAt(toks: seq<Token>, s: State, kind: TokenKind, offset: int)
  {
    0 <= s.i + offset < |toks| && toks[s.i + offset].kind == kind
  }

  /** `isFirstOfExpression(offset)`: the kinds that may start an expression in an argument list or a loop header. */
  predicate IsFirstOfExpression(toks: seq<Token>, s: State, offset: int)
  {
    HasAt(toks, s, Integer, offset) || HasAt(toks, s, T, offset) || HasAt(toks, s, Boolean, offset) ||
    HasAt(toks, s, String, offset) || HasAt(toks, s, Identifier, offset) ||
    HasAt(toks, s, LeftSquareBracket, offset) || HasAt(toks, s, Repeat, offset) || HasAt(toks, s, For, offset)
  }

  predicate AtAdditiveOperator(toks: seq<Token>, s: State)
  {
    HasAt(toks, s, Plus, 0) || HasAt(toks, s, Minus, 0)
  }

  predicate AtMultiplicativeOperator(toks: seq<Token>, s: State)
  {
    HasAt(toks, s, Asterisk, 0) || HasAt(toks, s, ForwardSlash, 0) || HasAt(toks, s, Percent, 0)
  }

  /** `consume()`: the cursor moves one token on. */
  function Next(s: State): State
  {
    s.(i := s.i + 1)
  }

  /** `tokens[i].where`, a TypeError past the end. */
  function WhereAt(toks: seq<Token>, s: State): Result<SourceLocation, ParseError>
  {
    if s.i < |toks| then Ok(toks[s.i].where) else Err(TypeError)
  }

  /** `e.where`, a TypeError for an undefined expression. */
  function Loc(e: Expr): Result<SourceLocation, ParseError>
  {
    if e.Undefined? then Err(TypeError) else Ok(e.where)
  }

  /** `SourceLocation.span(a, b)` of two locations that may have failed to be read. */
  function Join(a: Result<SourceLocation, ParseError>, b: Result<SourceLocation, ParseError>): Result<SourceLocation, ParseError>
  {
    if a.Err? then Err(a.error) else if b.Err? then Err(b.error) else Ok(Span(a.value, b.value))
  }

  /** A `LocatedException` at a location that may itself have failed to be read. */
  function Complain(where: Result<SourceLocation, ParseError>, message: Message): ParseError
  {
    if where.Err? then where.error else Located(where.value, message)
  }

  // ---------------------------------------------------------------------------
  // The routines, as functions of the tokens and the state

  /** `program`: a block that must be followed by the end of input. */
  function ParseProgram(toks: seq<Token>, s: State): (r: Parsed<Expr>)
    requires Valid(toks, s)
    ensures s.i <= r.next.i <= |toks|
    ensures r.result.Ok? ==> r.result.value.ExpressionBlock? && HasAt(toks, r.next, EOF, 0) && r.next.indents == s.indents
    decreases |toks| - s.i, 20
  {
    var p := ParseBlock(toks, s);
    if p.result.Ok? && !HasAt(toks, p.next, EOF, 0) then Parsed(Err(Located(p.result.value.where, ProgramEndMsg)), p.next)
    else p
  }

  /**
   * `block`: an Indentation deeper than the enclosing block opens it; its
   * depth is pushed for the lines of the block and popped after them. The
   * location spans the first to the last statement.
   */
  function ParseBlock(toks: seq<Token>, s: State): (r: Parsed<Expr>)
    requires Valid(toks, s)
    ensures s.i <= r.next.i <= |toks|
    ensures r.result.Ok? ==> r.result.value.ExpressionBlock? && r.next.indents == s.indents
    decreases |toks| - s.i, 19
  {
    if !HasAt(toks, s, Indentation, 0) then Parsed(Err(Complain(WhereAt(toks, s), NotIndentedMsg)), s)
    else
      var indentation := toks[s.i];
      var depth := |indentation.source|;
      if depth <= s.indents[|s.indents| - 1] then Parsed(Err(Located(indentation.where, NoIncreaseMsg)), s)
      else
        var lines := BlockLines(toks, s.(indents := s.indents + [depth]), depth, []);
        if lines.result.Err? then Parsed(Err(lines.result.error), lines.next)
        else
          var after := lines.next.(indents := s.indents);
          var statements := lines.result.value;
          var where := if |statements| > 0 then Join(Loc(statements[0]), Loc(statements[|statements| - 1])) else Err(TypeError);
          if where.Err? then Parsed(Err(where.error), after)
          else Parsed(Ok(ExpressionBlock(where.value, statements)), after)
  }

  /**
   * The lines of a block: each Indentation must have the block's depth;
   * one followed by a line break is a blank line, one followed by the end
   * of input ends the block, and any other starts a statement.
   */
  function BlockLines(toks: seq<Token>, s: State, depth: int, statements: seq<Expr>): (r: Parsed<seq<Expr>>)
    requires Valid(toks, s)
    ensures s.i <= r.next.i <= |toks|
    ensures r.result.Ok? ==> r.next.indents == s.indents
    decreases |toks| - s.i, 18
  {
    if !HasAt(toks, s, Indentation, 0) then Parsed(Ok(statements), s)
    else if |toks[s.i].source| != depth then Parsed(Err(Located(toks[s.i].where, JumpsMsg)), s)
    else
      var s1 := Next(s);
      if HasAt(toks, s1, Linebreak, 0) then BlockLines(toks, Next(s1), depth, statements)
      else if HasAt(toks, s1, EOF, 0) then BlockLines(toks, s1, depth, statements)
      else
        var p := ParseStatement(toks, s1);
        if p.result.Err? then Parsed(Err(p.result.error), p.next)
        else BlockLines(toks, p.next, depth, statements + [p.result.value])
  }

  /** The four forms of a statement that carries a block. */
  datatype Form = ToForm | ThroughForm | FromForm | BetweenForm

  /**
   * What `statement` does once its first expression `e` is read and the
   * cursor is at `s2`: it is finished (an error, or the expression is the
   * whole statement), or a block of the given form follows at `at`, or the
   * end expression of a between-interval follows at `at`.
   */
  datatype Step = Finished(p: Parsed<Expr>) | Body(form: Form, at: State) | SecondExpression(at: State)

  function StatementAfter(toks: seq<Token>, s: State, e: Expr, s2: State): (r: Step)
    requires Valid(toks, s) && Valid(toks, s2) && s.i <= s2.i
    ensures r.Finished? ==> s2.i <= r.p.next.i <= |toks| && (r.p.result.Ok? ==> r.p.next.indents == s2.indents)
    ensures !r.Finished? ==> s2.i < r.at.i <= |toks| && r.at.indents == s2.indents
  {
    if HasAt(toks, s, T, 0) then
      var firstT := toks[s.i];
      if HasAt(toks, s2, Linebreak, 0) then Body(ToForm, Next(s2))
      else if HasAt(toks, s2, RightArrow, 0) then
        var arrow := toks[s2.i];
        var s3 := Next(s2);
        if !HasAt(toks, s3, T, 0) then Finished(Parsed(Err(Located(Span(firstT.where, arrow.where), SecondTMsg)), s3))
        else
          var secondT := toks[s3.i];
          var s4 := Next(s3);
          if !HasAt(toks, s4, Linebreak, 0) then Finished(Parsed(Err(Located(Span(firstT.where, secondT.where), IntervalLinebreakMsg)), s4))
          else Body(ThroughForm, Next(s4))
      else Finished(Parsed(Err(Complain(Join(Ok(firstT.where), Loc(e)), ToOrThroughMsg)), s2))
    else if HasAt(toks, s2, RightArrow, 0) then
      var arrow := toks[s2.i].where;
      var s3 := Next(s2);
      if !HasAt(toks, s3, T, 0) then Finished(Parsed(Err(Complain(Join(Loc(e), Ok(arrow)), FromOrBetweenMsg)), s3))
      else
        var t := toks[s3.i];
        var s4 := Next(s3);
        if HasAt(toks, s4, Linebreak, 0) then Body(FromForm, Next(s4))
        else if HasAt(toks, s4, RightArrow, 0) then SecondExpression(Next(s4))
        else Finished(Parsed(Err(Complain(Join(Loc(e), Ok(t.where)), FromOrBetweenMsg)), s4))
    else if HasAt(toks, s2, Linebreak, 0) then Finished(Parsed(Ok(e), Next(s2)))
    else if HasAt(toks, s2, EOF, 0) || HasAt(toks, s2, Indentation, 0) then Finished(Parsed(Ok(e), s2))
    else Finished(Parsed(Err(Complain(WhereAt(toks, s2), LinebreakOrEndMsg)), s2))
  }

  /** The statement of a form around its block, spanning `e` to the block. */
  function WithBody(form: Form, e: Expr, to: Expr, pb: Parsed<Expr>): (r: Parsed<Expr>)
    ensures r.next == pb.next
    ensures r.result.Ok? ==> pb.result.Ok? && IsInterval(r.result.value)
  {
    if pb.result.Err? then pb
    else
      var where := Join(Loc(e), Loc(pb.result.value));
      if where.Err? then Parsed(Err(where.error), pb.next)
      else
        var b := pb.result.value;
        match form
        case ToForm => Parsed(Ok(StatementTo(where.value, e, b)), pb.next)
        case ThroughForm => Parsed(Ok(StatementThrough(where.value, e, b)), pb.next)
        case FromForm => Parsed(Ok(StatementFrom(where.value, e, b)), pb.next)
        case BetweenForm => Parsed(Ok(StatementBetween(where.value, e, to, b)), pb.next)
  }

  /**
   * `statement`: after a leading `t`, `t -> E` or `t -> E -> t` and a line
   * break before the body; otherwise an expression, then `E -> t` or
   * `E -> t -> E` and a line break before the body, or the expression
   * alone, ended by a line break or followed by the end of input or an
   * Indentation.
   */
  function ParseStatement(toks: seq<Token>, s: State): (r: Parsed<Expr>)
    requires Valid(toks, s)
    ensures s.i <= r.next.i <= |toks|
    ensures r.result.Ok? ==> r.next.indents == s.indents
    decreases |toks| - s.i, 17
  {
    if HasAt(toks, s, T, 0) && !HasAt(toks, Next(s), RightArrow, 0) then Parsed(Err(Located(toks[s.i].where, ToOrThroughMsg)), Next(s))
    else StatementRest(toks, s, if HasAt(toks, s, T, 0) then Next(Next(s)) else s)
  }

  /** `statement` from its first expression on, which starts at `entry`. */
  function StatementRest(toks: seq<Token>, s: State, entry: State): (r: Parsed<Expr>)
    requires Valid(toks, s) && Valid(toks, entry) && s.i <= entry.i && entry.indents == s.indents
    ensures s.i <= r.next.i <= |toks|
    ensures r.result.Ok? ==> r.next.indents == s.indents
    decreases |toks| - s.i, 17, 1
  {
    var pe := ParseExpression(toks, entry);
    if pe.result.Err? then pe
    else FinishStatement(toks, s, pe.result.value, StatementAfter(toks, s, pe.result.value, pe.next))
  }

  /** The rest of `statement` once the step after its first expression `e` is known. */
  function FinishStatement(toks: seq<Token>, s: State, e: Expr, step: Step): (r: Parsed<Expr>)
    requires step.Finished? ==> s.i <= step.p.next.i <= |toks| && (step.p.result.Ok? ==> step.p.next.indents == s.indents)
    requires !step.Finished? ==> Valid(toks, step.at) && s.i < step.at.i && step.at.indents == s.indents
    ensures s.i <= r.next.i <= |toks|
    ensures r.result.Ok? ==> r.next.indents == s.indents
    decreases |toks| - s.i, 16
  {
    match step
    case Finished(p) => p
    case Body(form, at) => WithBody(form, e, Undefined, ParseBlock(toks, at))
    case SecondExpression(at) =>
      var pt := ParseExpression(toks, at);
      if pt.result.Err? then pt
      else if !HasAt(toks, pt.next, Linebreak, 0) then Parsed(Err(Complain(Join(Loc(e), Loc(pt.result.value)), BetweenLinebreakMsg)), pt.next)
      else WithBody(BetweenForm, e, pt.result.value, ParseBlock(toks, Next(pt.next)))
  }

  /** `expression`: an assignment expression. */
  function ParseExpression(toks: seq<Token>, s: State): (r: Parsed<Expr>)
    requires Valid(toks, s)
    ensures s.i <= r.next.i <= |toks|
    ensures r.result.Ok? ==> r.next.indents == s.indents
    decreases |toks| - s.i, 15
  {
    ParseAssignment(toks, s)
  }

  /** `expressionAssignment`: `=` binds loosest and groups to the right. */
  function ParseAssignment(toks: seq<Token>, s: State): (r: Parsed<Expr>)
    requires Valid(toks, s)
    ensures s.i <= r.next.i <= |toks|
    ensures r.result.Ok? ==> r.next.indents == s.indents
    decreases |toks| - s.i, 14
  {
    var pl := ParseAdditive(toks, s);
    if pl.result.Err? || !HasAt(toks, pl.next, Assign, 0) then pl
    else
      var lhs := pl.result.value;
      var pr := ParseAssignment(toks, Next(pl.next));
      if pr.result.Err? then pr
      else
        var where := Join(Loc(lhs), Loc(pr.result.value));
        if where.Err? then Parsed(Err(where.error), pr.next)
        else Parsed(Ok(ExpressionAssignment(where.value, lhs, pr.result.value)), pr.next)
  }

  /** `expressionAdditive`: multiplicative operands joined by `+` and `-`, folded to the left. */
  function ParseAdditive(toks: seq<Token>, s: State): (r: Parsed<Expr>)
    requires Valid(toks, s)
    ensures s.i <= r.next.i <= |toks|
    ensures r.result.Ok? ==> r.next.indents == s.indents
    decreases |toks| - s.i, 13
  {
    var pa := ParseMultiplicative(toks, s);
    if pa.result.Err? then pa else AdditiveTail(toks, pa.next, pa.result.value)
  }

  function AdditiveTail(toks: seq<Token>, s: State, a: Expr): (r: Parsed<Expr>)
    requires Valid(toks, s)
    ensures s.i <= r.next.i <= |toks|
    ensures r.result.Ok? ==> r.next.indents == s.indents
    decreases |toks| - s.i, 12
  {
    if !AtAdditiveOperator(toks, s) then Parsed(Ok(a), s)
    else
      var operator := toks[s.i];
      var pb := ParseMultiplicative(toks, Next(s));
      if pb.result.Err? then pb
      else
        var b := pb.result.value;
        var where := Join(Loc(a), Loc(b));
        if where.Err? then Parsed(Err(where.error), pb.next)
        else AdditiveTail(toks, pb.next, AdditiveNode(operator.kind, where.value, a, b))
  }

  /** The node an additive operator token builds: `+` adds, any other subtracts. */
  function AdditiveNode(operator: TokenKind, where: SourceLocation, a: Expr, b: Expr): (r: Expr)
    ensures IsAdditiveNode(r) && r.a == a && r.b == b
  {
    if operator == Plus then ExpressionAdd(where, a, b) else ExpressionSubtract(where, a, b)
  }

  /** `expressionMultiplicative`: property operands joined by `*`, `/` and `%`, folded to the left. */
  function ParseMultiplicative(toks: seq<Token>, s: State): (r: Parsed<Expr>)
    requires Valid(toks, s)
    ensures s.i <= r.next.i <= |toks|
    ensures r.result.Ok? ==> r.next.indents == s.indents
    decreases |toks| - s.i, 11
  {
    var pa := ParseProperty(toks, s);
    if pa.result.Err? then pa else MultiplicativeTail(toks, pa.next, pa.result.value)
  }

  function MultiplicativeTail(toks: seq<Token>, s: State, a: Expr): (r: Parsed<Expr>)
    requires Valid(toks, s)
    ensures s.i <= r.next.i <= |toks|
    ensures r.result.Ok? ==> r.next.indents == s.indents
    decreases |toks| - s.i, 10
  {
    if !AtMultiplicativeOperator(toks, s) then Parsed(Ok(a), s)
    else
      var operator := toks[s.i];
      var pb := ParseProperty(toks, Next(s));
      if pb.result.Err? then pb
      else
        var b := pb.result.value;
        var where := Join(Loc(a), Loc(b));
        if where.Err? then Parsed(Err(where.error), pb.next)
        else MultiplicativeTail(toks, pb.next, MultiplicativeNode(operator.kind, where.value, a, b))
  }

  /** The node a multiplicative operator token builds: `*` multiplies, `/` divides, any other takes the remainder. */
  function MultiplicativeNode(operator: TokenKind, where: SourceLocation, a: Expr, b: Expr): (r: Expr)
    ensures IsMultiplicativeNode(r) && r.a == a && r.b == b
  {
    if operator == Asterisk then ExpressionMultiply(where, a, b)
    else if operator == ForwardSlash then ExpressionDivide(where, a, b)
    else ExpressionRemainder(where, a, b)
  }

  /** `expressionProperty`: atoms joined by `.`, folded to the left. */
  function ParseProperty(toks: seq<Token>, s: State): (r: Parsed<Expr>)
    requires Valid(toks, s)
    ensures s.i <= r.next.i <= |toks|
    ensures r.result.Ok? ==> r.next.indents == s.indents
    decreases |toks| - s.i, 9
  {
    var pa := ParseAtom(toks, s);
    if pa.result.Err? then pa else PropertyTail(toks, pa.next, pa.result.value)
  }

  function PropertyTail(toks: seq<Token>, s: State, base: Expr): (r: Parsed<Expr>)
    requires Valid(toks, s)
    ensures s.i <= r.next.i <= |toks|
    ensures r.result.Ok? ==> r.next.indents == s.indents
    decreases |toks| - s.i, 8
  {
    if !HasAt(toks, s, Dot, 0) then Parsed(Ok(base), s)
    else
      var pp := ParseAtom(toks, Next(s));
      if pp.result.Err? then pp
      else
        var property := pp.result.value;
        var where := Join(Loc(base), Loc(property));
        if where.Err? then Parsed(Err(where.error), pp.next)
        else PropertyTail(toks, pp.next, ExpressionProperty(where.value, base, property))
  }

  /**
   * `atom`: a literal, a `for` loop, a vector, a call, a `repeat`, an
   * identifier (or `t`) or a `with`. A `for` whose header does not have
   * the expected shape yields undefined, as does a line break, which is
   * left unconsumed; any other token is not understood.
   */
  function ParseAtom(toks: seq<Token>, s: State): (r: Parsed<Expr>)
    requires Valid(toks, s)
    ensures s.i <= r.next.i <= |toks|
    ensures r.result.Ok? ==> r.next.indents == s.indents
    ensures r.result.Ok? ==> IsAtom(r.result.value)
    decreases |toks| - s.i, 7
  {
    if HasAt(toks, s, Integer, 0) then Parsed(Ok(ExpressionInteger(toks[s.i].where, toks[s.i].source)), Next(s))
    else if HasAt(toks, s, String, 0) then Parsed(Ok(ExpressionString(toks[s.i].where, toks[s.i].source)), Next(s))
    else if HasAt(toks, s, Real, 0) then Parsed(Ok(ExpressionReal(toks[s.i].where, toks[s.i].source)), Next(s))
    else if HasAt(toks, s, Boolean, 0) then Parsed(Ok(ExpressionBoolean(toks[s.i].where, toks[s.i].source == "true")), Next(s))
    else if HasAt(toks, s, For, 0) then ParseFor(toks, s)
    else if HasAt(toks, s, LeftSquareBracket, 0) then ParseVector(toks, s)
    else if HasAt(toks, s, Identifier, 0) && HasAt(toks, s, LeftParenthesis, 1) then ParseCall(toks, s)
    else if HasAt(toks, s, Repeat, 0) then ParseRepeat(toks, s)
    else if HasAt(toks, s, Identifier, 0) || HasAt(toks, s, T, 0) then
      Parsed(Ok(ExpressionIdentifier(toks[s.i].where, toks[s.i])), Next(s))
    else if HasAt(toks, s, With, 0) then ParseWith(toks, s)
    else if !HasAt(toks, s, Linebreak, 0) then
      if s.i < |toks| then Parsed(Err(Located(toks[s.i].where, UnknownMsg(toks[s.i].source))), s)
      else Parsed(Err(TypeError), s)
    else Parsed(Ok(Undefined), s)
  }

  /** `for j from start to stop`, a line break and the body; a header of another shape yields undefined. */
  function ParseFor(toks: seq<Token>, s: State): (r: Parsed<Expr>)
    requires Valid(toks, s) && HasAt(toks, s, For, 0)
    ensures s.i < r.next.i <= |toks|
    ensures r.result.Ok? ==> r.next.indents == s.indents
    ensures r.result.Ok? ==> r.result.value.Undefined? || r.result.value.ExpressionFor?
    decreases |toks| - s.i, 6
  {
    var sourceStart := toks[s.i].where;
    var s1 := Next(s);
    if !IsFirstOfExpression(toks, s1, 0) then Parsed(Ok(Undefined), s1)
    else
      var pj := ParseExpression(toks, s1);
      if pj.result.Err? then pj
      else
        var s2 := pj.next;
        if !(HasAt(toks, s2, From, 0) && IsFirstOfExpression(toks, s2, 1)) then Parsed(Ok(Undefined), s2)
        else
          var pstart := ParseExpression(toks, Next(s2));
          if pstart.result.Err? then pstart
          else
            var s3 := pstart.next;
            if !(HasAt(toks, s3, To, 0) && IsFirstOfExpression(toks, s3, 1)) then Parsed(Ok(Undefined), s3)
            else
              var pstop := ParseExpression(toks, Next(s3));
              if pstop.result.Err? then pstop
              else
                var stop := pstop.result.value;
                var s4 := pstop.next;
                if !HasAt(toks, s4, Linebreak, 0) then Parsed(Err(Complain(Join(Ok(sourceStart), Loc(stop)), LoopRangeMsg)), s4)
                else
                  var pb := ParseBlock(toks, Next(s4));
                  if pb.result.Err? then pb
                  else
                    var body := pb.result.value;
                    Parsed(Ok(ExpressionFor(Span(sourceStart, body.where), pj.result.value, pstart.result.value, stop, 1, body)), pb.next)
  }

  /** `[`, the elements, `]`. */
  function ParseVector(toks: seq<Token>, s: State): (r: Parsed<Expr>)
    requires Valid(toks, s) && HasAt(toks, s, LeftSquareBracket, 0)
    ensures s.i < r.next.i <= |toks|
    ensures r.result.Ok? ==> r.next.indents == s.indents && r.result.value.ExpressionVector?
    decreases |toks| - s.i, 6
  {
    var sourceStart := toks[s.i].where;
    var pv := VectorTail(toks, Next(s), []);
    if pv.result.Err? then Parsed(Err(pv.result.error), pv.next)
    else
      var sourceEnd := toks[pv.next.i].where;
      Parsed(Ok(ExpressionVector(Span(sourceStart, sourceEnd), pv.result.value)), Next(pv.next))
  }

  /** A name, `(`, the actual parameters, `)`. */
  function ParseCall(toks: seq<Token>, s: State): (r: Parsed<Expr>)
    requires Valid(toks, s) && HasAt(toks, s, Identifier, 0) && HasAt(toks, s, LeftParenthesis, 1)
    ensures s.i < r.next.i <= |toks|
    ensures r.result.Ok? ==> r.next.indents == s.indents && r.result.value.ExpressionFunctionCall?
    decreases |toks| - s.i, 6
  {
    var sourceStart := toks[s.i].where;
    var name := toks[s.i].source;
    var pa := Actuals(toks, Next(Next(s)));
    if pa.result.Err? then Parsed(Err(pa.result.error), pa.next)
    else
      var sourceEnd := WhereAt(toks, pa.next);
      if sourceEnd.Err? then Parsed(Err(sourceEnd.error), pa.next)
      else if !HasAt(toks, pa.next, RightParenthesis, 0) then
        Parsed(Err(Located(Span(sourceStart, sourceEnd.value), RightParenthesisMsg)), pa.next)
      else Parsed(Ok(ExpressionFunctionCall(Span(sourceStart, sourceEnd.value), name, pa.result.value)), Next(pa.next))
  }

  /** `repeat count`, a line break and the body. */
  function ParseRepeat(toks: seq<Token>, s: State): (r: Parsed<Expr>)
    requires Valid(toks, s) && HasAt(toks, s, Repeat, 0)
    ensures s.i < r.next.i <= |toks|
    ensures r.result.Ok? ==> r.next.indents == s.indents && r.result.value.ExpressionRepeat?
    decreases |toks| - s.i, 6
  {
    var sourceStart := toks[s.i].where;
    var pc := ParseExpression(toks, Next(s));
    if pc.result.Err? then pc
    else
      var count := pc.result.value;
      if !HasAt(toks, pc.next, Linebreak, 0) then Parsed(Err(Complain(Join(Ok(sourceStart), Loc(count)), RepeatCountMsg)), pc.next)
      else
        var pb := ParseBlock(toks, Next(pc.next));
        if pb.result.Err? then pb
        else Parsed(Ok(ExpressionRepeat(Span(sourceStart, pb.result.value.where), count, pb.result.value)), pb.next)
  }

  /** `with scope`, a line break and the body. */
  function ParseWith(toks: seq<Token>, s: State): (r: Parsed<Expr>)
    requires Valid(toks, s) && HasAt(toks, s, With, 0)
    ensures s.i < r.next.i <= |toks|
    ensures r.result.Ok? ==> r.next.indents == s.indents && r.result.value.ExpressionWith?
    decreases |toks| - s.i, 6
  {
    var sourceStart := toks[s.i].where;
    var pc := ParseExpression(toks, Next(s));
    if pc.result.Err? then pc
    else
      var scope := pc.result.value;
      if !HasAt(toks, pc.next, Linebreak, 0) then Parsed(Err(Complain(Join(Ok(sourceStart), Loc(scope)), WithScopeMsg)), pc.next)
      else
        var pb := ParseBlock(toks, Next(pc.next));
        if pb.result.Err? then pb
        else Parsed(Ok(ExpressionWith(Span(sourceStart, pb.result.value.where), scope, pb.result.value)), pb.next)
  }

  /** The elements of a vector literal up to its `]`, separated by commas. */
  function VectorTail(toks: seq<Token>, s: State, elements: seq<Expr>): (r: Parsed<seq<Expr>>)
    requires Valid(toks, s)
    ensures s.i <= r.next.i <= |toks|
    ensures r.result.Ok? ==> r.next.indents == s.indents && HasAt(toks, r.next, RightSquareBracket, 0)
    decreases |toks| - s.i, 16
  {
    if HasAt(toks, s, RightSquareBracket, 0) then Parsed(Ok(elements), s)
    else
      var pe := ParseExpression(toks, s);
      if pe.result.Err? then Parsed(Err(pe.result.error), pe.next)
      else
        var e := pe.result.value;
        var s1 := pe.next;
        if HasAt(toks, s1, RightSquareBracket, 0) then Parsed(Ok(elements + [e]), s1)
        else if HasAt(toks, s1, Comma, 0) then VectorTail(toks, Next(s1), elements + [e])
        else Parsed(Err(Complain(Join(Loc(e), WhereAt(toks, s1)), CommaMsg)), s1)
  }

  /** The actual parameters of a call: none, or expressions separated by commas. */
  function Actuals(toks: seq<Token>, s: State): (r: Parsed<seq<Expr>>)
    requires Valid(toks, s)
    ensures s.i <= r.next.i <= |toks|
    ensures r.result.Ok? ==> r.next.indents == s.indents
    decreases |toks| - s.i, 16
  {
    if !IsFirstOfExpression(toks, s, 0) then Parsed(Ok([]), s)
    else
      var pe := ParseExpression(toks, s);
      if pe.result.Err? then Parsed(Err(pe.result.error), pe.next)
      else ActualsTail(toks, pe.next, [pe.result.value])
  }

  function ActualsTail(toks: seq<Token>, s: State, actuals: seq<Expr>): (r: Parsed<seq<Expr>>)
    requires Valid(toks, s)
    ensures s.i <= r.next.i <= |toks|
    ensures r.result.Ok? ==> r.next.indents == s.indents
    decreases |toks| - s.i, 6
  {
    if !(HasAt(toks, s, Comma, 0) && IsFirstOfExpression(toks, s, 1)) then Parsed(Ok(actuals), s)
    else
      var pe := ParseExpression(toks, Next(s));
      if pe.result.Err? then Parsed(Err(pe.result.error), pe.next)
      else ActualsTail(toks, pe.next, actuals + [pe.result.value])
  }

  // ---------------------------------------------------------------------------
  // The parser itself: a cursor and an indentation stack updated in place

  class Parser {
    const tokens: seq<Token>
    var i: nat
    var indents: seq<int>

    /** A fresh parser: the cursor at the first token and the stack holding only -1, below any depth. */
    constructor(tokens: seq<Token>)
      ensures this.tokens == tokens && i == 0 && indents == [-1]
    {
      this.tokens := tokens;
      i := 0;
      indents := [-1];
    }

    function Here(): State
      reads this
    {
      State(i, indents)
    }

    ghost predicate Ready()
      reads this
    {
      Valid(tokens, Here())
    }

    /** `consume`: the current token, with the cursor moved past it. */
    method Consume() returns (t: Token)
      requires i < |tokens|
      modifies this
      ensures t == tokens[old(i)] && Here() == Next(old(Here()))
    {
      t := tokens[i];
      i := i + 1;
    }

    method Program() returns (r: Result<Expr, ParseError>)
      requires Ready()
      modifies this
      ensures Parsed(r, Here()) == ParseProgram(tokens, old(Here()))
      decreases |tokens| - i, 20
    {
      r := Block();
      if r.Ok? && !HasAt(tokens, Here(), EOF, 0) {
        r := Err(Located(r.value.where, ProgramEndMsg));
      }
    }

    method Block() returns (r: Result<Expr, ParseError>)
      requires Ready()
      modifies this
      ensures Parsed(r, Here()) == ParseBlock(tokens, old(Here()))
      decreases |tokens| - i, 19
    {
      if !HasAt(tokens, Here(), Indentation, 0) {
        return Err(Complain(WhereAt(tokens, Here()), NotIndentedMsg));
      }
      var indentation := tokens[i];
      var depth := |indentation.source|;
      if depth <= indents[|indents| - 1] {
        return Err(Located(indentation.where, NoIncreaseMsg));
      }
      indents := indents + [depth];
      var lines := Lines(depth);
      if lines.Err? {
        return Err(lines.error);
      }
      assert indents == old(indents) + [depth];
      indents := indents[..|indents| - 1];
      assert indents == old(indents);
      var statements := lines.value;
      if |statements| == 0 {
        return Err(TypeError);
      }
      var where := Join(Loc(statements[0]), Loc(statements[|statements| - 1]));
      if where.Err? {
        return Err(where.error);
      }
      return Ok(ExpressionBlock(where.value, statements));
    }

    /** The loop of `block` over its lines. */
    method Lines(depth: int) returns (r: Result<seq<Expr>, ParseError>)
      requires Ready()
      modifies this
      ensures Parsed(r, Here()) == BlockLines(tokens, old(Here()), depth, [])
      decreases |tokens| - i, 18
    {
      var statements: seq<Expr> := [];
      while HasAt(tokens, Here(), Indentation, 0)
        invariant Valid(tokens, Here()) && old(i) <= i
        invariant BlockLines(tokens, Here(), depth, statements) == BlockLines(tokens, old(Here()), depth, [])
        decreases |tokens| - i
      {
        ghost var head := Here();
        ghost var before := statements;
        if |tokens[i].source| != depth {
          return Err(Located(tokens[i].where, JumpsMsg));
        }
        var _ := Consume();
        if HasAt(tokens, Here(), Linebreak, 0) {
          var _ := Consume();
        } else if !HasAt(tokens, Here(), EOF, 0) {
          var st := Statement();
          assert Parsed(st, Here()) == ParseStatement(tokens, Next(head));
          if st.Err? {
            return Err(st.error);
          }
          statements := statements + [st.value];
        }
        assert BlockLines(tokens, head, depth, before) == BlockLines(tokens, Here(), depth, statements);
      }
      return Ok(statements);
    }

    method Statement() returns (r: Result<Expr, ParseError>)
      requires Ready()
      modifies this
      ensures Parsed(r, Here()) == ParseStatement(tokens, old(Here()))
      decreases |tokens| - i, 17
    {
      ghost var start := Here();
      var leadingT: Option<Token> := None;
      if HasAt(tokens, Here(), T, 0) {
        var firstT := tokens[i];
        i := i + 1;
        if !HasAt(tokens, Here(), RightArrow, 0) {
          return Err(Located(firstT.where, ToOrThroughMsg));
        }
        i := i + 1;
        leadingT := Some(firstT);
      }
      r := Rest(start, leadingT);
    }

    /** `statement` from its first expression on. */
    method Rest(ghost start: State, leadingT: Option<Token>) returns (r: Result<Expr, ParseError>)
      requires Ready() && Valid(tokens, start) && start.i <= i && indents == start.indents
      requires leadingT.Some? == HasAt(tokens, start, T, 0) && (leadingT.Some? ==> leadingT.value == tokens[start.i])
      modifies this
      ensures Parsed(r, Here()) == StatementRest(tokens, start, old(Here()))
      decreases |tokens| - start.i, 17, 1
    {
      ghost var entry := Here();
      var e := Expression();
      assert Parsed(e, Here()) == ParseExpression(tokens, entry);
      if e.Err? {
        return e;
      }
      r := AfterExpression(start, leadingT, e.value);
    }

    /** `statement` once its first expression `e` is read. */
    method AfterExpression(ghost start: State, leadingT: Option<Token>, e: Expr) returns (r: Result<Expr, ParseError>)
      requires Ready() && Valid(tokens, start) && start.i <= i && indents == start.indents
      requires leadingT.Some? == HasAt(tokens, start, T, 0) && (leadingT.Some? ==> leadingT.value == tokens[start.i])
      modifies this
      ensures Parsed(r, Here()) == FinishStatement(tokens, start, e, StatementAfter(tokens, start, e, old(Here())))
      decreases |tokens| - start.i, 17, 0
    {
      var step := AfterFirst(start, leadingT, e);
      r := Finish(start, e, step);
    }

    /** The rest of `statement`: the body, or the end of a between-interval and then the body. */
    method Finish(ghost start: State, e: Expr, step: Step) returns (r: Result<Expr, ParseError>)
      requires Ready()
      requires Here() == if step.Finished? then step.p.next else step.at
      requires step.Finished? ==> start.i <= step.p.next.i <= |tokens| && (step.p.result.Ok? ==> step.p.next.indents == start.indents)
      requires !step.Finished? ==> Valid(tokens, step.at) && start.i < step.at.i && step.at.indents == start.indents
      modifies this
      ensures Parsed(r, Here()) == FinishStatement(tokens, start, e, step)
      decreases |tokens| - start.i, 16
    {
      match step
      case Finished(p) =>
        return p.result;
      case Body(form, at) =>
        var b := Block();
        return WithBody(form, e, Undefined, Parsed(b, Here())).result;
      case SecondExpression(at) =>
        var to := Expression();
        if to.Err? {
          return to;
        }
        if !HasAt(tokens, Here(), Linebreak, 0) {
          return Err(Complain(Join(Loc(e), Loc(to.value)), BetweenLinebreakMsg));
        }
        var _ := Consume();
        var b := Block();
        return WithBody(BetweenForm, e, to.value, Parsed(b, Here())).result;
    }

    /**
     * The part of `statement` after its first expression `e`: the tokens
     * it checks are consumed, up to the body's line break or the `->`
     * before the end of a between-interval.
     */
    method AfterFirst(ghost start: State, leadingT: Option<Token>, e: Expr) returns (step: Step)
      requires Ready() && Valid(tokens, start) && start.i <= i
      requires leadingT.Some? == HasAt(tokens, start, T, 0) && (leadingT.Some? ==> leadingT.value == tokens[start.i])
      modifies this
      ensures step == StatementAfter(tokens, start, e, old(Here()))
      ensures Here() == if step.Finished? then step.p.next else step.at
    {
      if leadingT.Some? {
        var firstT := leadingT.value;
        if HasAt(tokens, Here(), Linebreak, 0) {
          var _ := Consume();
          return Body(ToForm, Here());
        } else if HasAt(tokens, Here(), RightArrow, 0) {
          var arrow := Consume();
          if !HasAt(tokens, Here(), T, 0) {
            return Finished(Parsed(Err(Located(Span(firstT.where, arrow.where), SecondTMsg)), Here()));
          }
          var secondT := Consume();
          if !HasAt(tokens, Here(), Linebreak, 0) {
            return Finished(Parsed(Err(Located(Span(firstT.where, secondT.where), IntervalLinebreakMsg)), Here()));
          }
          var _ := Consume();
          return Body(ThroughForm, Here());
        } else {
          return Finished(Parsed(Err(Complain(Join(Ok(firstT.where), Loc(e)), ToOrThroughMsg)), Here()));
        }
      } else if HasAt(tokens, Here(), RightArrow, 0) {
        var arrow := tokens[i].where;
        var _ := Consume();
        if !HasAt(tokens, Here(), T, 0) {
          return Finished(Parsed(Err(Complain(Join(Loc(e), Ok(arrow)), FromOrBetweenMsg)), Here()));
        }
        var t := Consume();
        if HasAt(tokens, Here(), Linebreak, 0) {
          var _ := Consume();
          return Body(FromForm, Here());
        } else if HasAt(tokens, Here(), RightArrow, 0) {
          var _ := Consume();
          return SecondExpression(Here());
        } else {
          return Finished(Parsed(Err(Complain(Join(Loc(e), Ok(t.where)), FromOrBetweenMsg)), Here()));
        }
      } else if HasAt(tokens, Here(), Linebreak, 0) {
        var _ := Consume();
        return Finished(Parsed(Ok(e), Here()));
      } else if HasAt(tokens, Here(), EOF, 0) || HasAt(tokens, Here(), Indentation, 0) {
        return Finished(Parsed(Ok(e), Here()));
      } else {
        return Finished(Parsed(Err(Complain(WhereAt(tokens, Here()), LinebreakOrEndMsg)), Here()));
      }
    }

    method Expression() returns (r: Result<Expr, ParseError>)
      requires Ready()
      modifies this
      ensures Parsed(r, Here()) == ParseExpression(tokens, old(Here()))
      decreases |tokens| - i, 15
    {
      r := ExpressionAssignment();
    }

    method ExpressionAssignment() returns (r: Result<Expr, ParseError>)
      requires Ready()
      modifies this
      ensures Parsed(r, Here()) == ParseAssignment(tokens, old(Here()))
      decreases |tokens| - i, 14
    {
      var lhs := ExpressionAdditive();
      if lhs.Err? || !HasAt(tokens, Here(), Assign, 0) {
        return lhs;
      }
      var _ := Consume();
      var rhs := ExpressionAssignment();
      if rhs.Err? {
        return rhs;
      }
      var where := Join(Loc(lhs.value), Loc(rhs.value));
      if where.Err? {
        return Err(where.error);
      }
      return Ok(Expr.ExpressionAssignment(where.value, lhs.value, rhs.value));
    }

    method ExpressionAdditive() returns (r: Result<Expr, ParseError>)
      requires Ready()
      modifies this
      ensures Parsed(r, Here()) == ParseAdditive(tokens, old(Here()))
      decreases |tokens| - i, 13
    {
      r := ExpressionMultiplicative();
      if r.Ok? {
        r := AdditiveOperators(r.value);
      }
    }

    /** The operator loop of `expressionAdditive`, from the first operand onwards. */
    method AdditiveOperators(first: Expr) returns (r: Result<Expr, ParseError>)
      requires Ready()
      modifies this
      ensures Parsed(r, Here()) == AdditiveTail(tokens, old(Here()), first)
      decreases |tokens| - i, 12
    {
      var a := first;
      while AtAdditiveOperator(tokens, Here())
        invariant Valid(tokens, Here()) && old(i) <= i
        invariant AdditiveTail(tokens, Here(), a) == AdditiveTail(tokens, old(Here()), first)
        decreases |tokens| - i
      {
        ghost var head := Here();
        ghost var before := a;
        var operator := Consume();
        var b := ExpressionMultiplicative();
        if b.Err? {
          return b;
        }
        var where := Join(Loc(a), Loc(b.value));
        if where.Err? {
          return Err(where.error);
        }
        a := AdditiveNode(operator.kind, where.value, a, b.value);
        assert AdditiveTail(tokens, head, before) == AdditiveTail(tokens, Here(), a);
      }
      return Ok(a);
    }

    method ExpressionMultiplicative() returns (r: Result<Expr, ParseError>)
      requires Ready()
      modifies this
      ensures Parsed(r, Here()) == ParseMultiplicative(tokens, old(Here()))
      decreases |tokens| - i, 11
    {
      r := ExpressionProperty();
      if r.Ok? {
        r := MultiplicativeOperators(r.value);
      }
    }

    /** The operator loop of `expressionMultiplicative`, from the first operand onwards. */
    method MultiplicativeOperators(first: Expr) returns (r: Result<Expr, ParseError>)
      requires Ready()
      modifies this
      ensures Parsed(r, Here()) == MultiplicativeTail(tokens, old(Here()), first)
      decreases |tokens| - i, 10
    {
      var a := first;
      while AtMultiplicativeOperator(tokens, Here())
        invariant Valid(tokens, Here()) && old(i) <= i
        invariant MultiplicativeTail(tokens, Here(), a) == MultiplicativeTail(tokens, old(Here()), first)
        decreases |tokens| - i
      {
        ghost var head := Here();
        ghost var before := a;
        var operator := Consume();
        var b := ExpressionProperty();
        assert Parsed(b, Here()) == ParseProperty(tokens, Next(head));
        if b.Err? {
          return b;
        }
        var where := Join(Loc(a), Loc(b.value));
        if where.Err? {
          return Err(where.error);
        }
        a := MultiplicativeNode(operator.kind, where.value, a, b.value);
        assert MultiplicativeTail(tokens, head, before) == MultiplicativeTail(tokens, Here(), a);
      }
      return Ok(a);
    }

    method ExpressionProperty() returns (r: Result<Expr, ParseError>)
      requires Ready()
      modifies this
      ensures Parsed(r, Here()) == ParseProperty(tokens, old(Here()))
      decreases |tokens| - i, 9
    {
      r := Atom();
      if r.Ok? {
        r := PropertyOperators(r.value);
      }
    }

    /** The `.` loop of `expressionProperty`, from the first atom onwards. */
    method PropertyOperators(first: Expr) returns (r: Result<Expr, ParseError>)
      requires Ready()
      modifies this
      ensures Parsed(r, Here()) == PropertyTail(tokens, old(Here()), first)
      decreases |tokens| - i, 8
    {
      var base := first;
      while HasAt(tokens, Here(), Dot, 0)
        invariant Valid(tokens, Here()) && old(i) <= i
        invariant PropertyTail(tokens, Here(), base) == PropertyTail(tokens, old(Here()), first)
        decreases |tokens| - i
      {
        ghost var head := Here();
        ghost var before := base;
        var _ := Consume();
        var property := Atom();
        if property.Err? {
          return property;
        }
        var where := Join(Loc(base), Loc(property.value));
        if where.Err? {
          return Err(where.error);
        }
        base := Expr.ExpressionProperty(where.value, base, property.value);
        assert PropertyTail(tokens, head, before) == PropertyTail(tokens, Here(), base);
      }
      return Ok(base);
    }

    method Atom() returns (r: Result<Expr, ParseError>)
      requires Ready()
      modifies this
      ensures Parsed(r, Here()) == ParseAtom(tokens, old(Here()))
      decreases |tokens| - i, 7
    {
      if HasAt(tokens, Here(), Integer, 0) {
        var token := Consume();
        return Ok(ExpressionInteger(token.where, token.source));
      } else if HasAt(tokens, Here(), String, 0) {
        var token := Consume();
        return Ok(ExpressionString(token.where, token.source));
      } else if HasAt(tokens, Here(), Real, 0) {
        var token := Consume();
        return Ok(ExpressionReal(token.where, token.source));
      } else if HasAt(tokens, Here(), Boolean, 0) {
        var token := Consume();
        return Ok(ExpressionBoolean(token.where, token.source == "true"));
      } else if HasAt(tokens, Here(), For, 0) {
        r := AtomFor();
      } else if HasAt(tokens, Here(), LeftSquareBracket, 0) {
        r := AtomVector();
      } else if HasAt(tokens, Here(), Identifier, 0) && HasAt(tokens, Here(), LeftParenthesis, 1) {
        r := AtomCall();
      } else if HasAt(tokens, Here(), Repeat, 0) {
        r := AtomRepeat();
      } else if HasAt(tokens, Here(), Identifier, 0) || HasAt(tokens, Here(), T, 0) {
        var where := tokens[i].where;
        var id := Consume();
        return Ok(ExpressionIdentifier(where, id));
      } else if HasAt(tokens, Here(), With, 0) {
        r := AtomWith();
      } else if !HasAt(tokens, Here(), Linebreak, 0) {
        if i < |tokens| {
          return Err(Located(tokens[i].where, UnknownMsg(tokens[i].source)));
        }
        return Err(TypeError);
      } else {
        return Ok(Undefined);
      }
    }

    method AtomFor() returns (r: Result<Expr, ParseError>)
      requires Ready() && HasAt(tokens, Here(), For, 0)
      modifies this
      ensures Parsed(r, Here()) == ParseFor(tokens, old(Here()))
      decreases |tokens| - i, 6
    {
      var sourceStart := tokens[i].where;
      var _ := Consume();
      if !IsFirstOfExpression(tokens, Here(), 0) {
        return Ok(Undefined);
      }
      var j := Expression();
      if j.Err? {
        return j;
      }
      if !(HasAt(tokens, Here(), From, 0) && IsFirstOfExpression(tokens, Here(), 1)) {
        return Ok(Undefined);
      }
      var _ := Consume();
      var start := Expression();
      if start.Err? {
        return start;
      }
      if !(HasAt(tokens, Here(), To, 0) && IsFirstOfExpression(tokens, Here(), 1)) {
        return Ok(Undefined);
      }
      var _ := Consume();
      var stop := Expression();
      if stop.Err? {
        return stop;
      }
      if !HasAt(tokens, Here(), Linebreak, 0) {
        return Err(Complain(Join(Ok(sourceStart), Loc(stop.value)), LoopRangeMsg));
      }
      var _ := Consume();
      var body := Block();
      if body.Err? {
        return body;
      }
      return Ok(ExpressionFor(Span(sourceStart, body.value.where), j.value, start.value, stop.value, 1, body.value));
    }

    method AtomVector() returns (r: Result<Expr, ParseError>)
      requires Ready() && HasAt(tokens, Here(), LeftSquareBracket, 0)
      modifies this
      ensures Parsed(r, Here()) == ParseVector(tokens, old(Here()))
      decreases |tokens| - i, 6
    {
      var sourceStart := tokens[i].where;
      var _ := Consume();
      ghost var entry := Here();
      var elements: seq<Expr> := [];
      while true
        invariant Valid(tokens, Here()) && old(i) < i && indents == old(indents)
        invariant VectorTail(tokens, Here(), elements) == VectorTail(tokens, entry, [])
        decreases |tokens| - i
      {
        if HasAt(tokens, Here(), RightSquareBracket, 0) {
          break;
        }
        var e := Expression();
        if e.Err? {
          return Err(e.error);
        }
        elements := elements + [e.value];
        if HasAt(tokens, Here(), RightSquareBracket, 0) {
          break;
        }
        if HasAt(tokens, Here(), Comma, 0) {
          var _ := Consume();
        } else {
          return Err(Complain(Join(Loc(e.value), WhereAt(tokens, Here())), CommaMsg));
        }
      }
      var sourceEnd := tokens[i].where;
      var _ := Consume();
      return Ok(ExpressionVector(Span(sourceStart, sourceEnd), elements));
    }

    method AtomCall() returns (r: Result<Expr, ParseError>)
      requires Ready() && HasAt(tokens, Here(), Identifier, 0) && HasAt(tokens, Here(), LeftParenthesis, 1)
      modifies this
      ensures Parsed(r, Here()) == ParseCall(tokens, old(Here()))
      decreases |tokens| - i, 6
    {
      var sourceStart := tokens[i].where;
      var nameToken := Consume();
      var name := nameToken.source;
      var _ := Consume();
      var actuals := ActualParameters();
      if actuals.Err? {
        return Err(actuals.error);
      }
      var sourceEnd := WhereAt(tokens, Here());
      if sourceEnd.Err? {
        return Err(sourceEnd.error);
      }
      if !HasAt(tokens, Here(), RightParenthesis, 0) {
        return Err(Located(Span(sourceStart, sourceEnd.value), RightParenthesisMsg));
      }
      var _ := Consume();
      return Ok(ExpressionFunctionCall(Span(sourceStart, sourceEnd.value), name, actuals.value));
    }

    /** The actual parameters of a call, up to but not including its `)`. */
    method ActualParameters() returns (r: Result<seq<Expr>, ParseError>)
      requires Ready()
      modifies this
      ensures Parsed(r, Here()) == Actuals(tokens, old(Here()))
      decreases |tokens| - i, 16
    {
      if !IsFirstOfExpression(tokens, Here(), 0) {
        return Ok([]);
      }
      var first := Expression();
      if first.Err? {
        return Err(first.error);
      }
      var actuals := [first.value];
      ghost var mid := Here();
      while HasAt(tokens, Here(), Comma, 0) && IsFirstOfExpression(tokens, Here(), 1)
        invariant Valid(tokens, Here()) && old(i) <= i && indents == old(indents)
        invariant ActualsTail(tokens, Here(), actuals) == ActualsTail(tokens, mid, [first.value])
        decreases |tokens| - i
      {
        var _ := Consume();
        var e := Expression();
        if e.Err? {
          return Err(e.error);
        }
        actuals := actuals + [e.value];
      }
      return Ok(actuals);
    }

    method AtomRepeat() returns (r: Result<Expr, ParseError>)
      requires Ready() && HasAt(tokens, Here(), Repeat, 0)
      modifies this
      ensures Parsed(r, Here()) == ParseRepeat(tokens, old(Here()))
      decreases |tokens| - i, 6
    {
      var sourceStart := tokens[i].where;
      var _ := Consume();
      var count := Expression();
      if count.Err? {
        return count;
      }
      if !HasAt(tokens, Here(), Linebreak, 0) {
        return Err(Complain(Join(Ok(sourceStart), Loc(count.value)), RepeatCountMsg));
      }
      var _ := Consume();
      var body := Block();
      if body.Err? {
        return body;
      }
      return Ok(ExpressionRepeat(Span(sourceStart, body.value.where), count.value, body.value));
    }

    method AtomWith() returns (r: Result<Expr, ParseError>)
      requires Ready() && HasAt(tokens, Here(), With, 0)
      modifies this
      ensures Parsed(r, Here()) == ParseWith(tokens, old(Here()))
      decreases |tokens| - i, 6
    {
      var sourceStart := tokens[i].where;
      var _ := Consume();
      var scope := Expression();
      if scope.Err? {
        return scope;
      }
      if !HasAt(tokens, Here(), Linebreak, 0) {
        return Err(Complain(Join(Ok(sourceStart), Loc(scope.value)), WithScopeMsg));
      }
      var _ := Consume();
      var body := Block();
      if body.Err? {
        return body;
      }
      return Ok(ExpressionWith(Span(sourceStart, body.value.where), scope.value, body.value));
    }
  }

  /** `parse`: a program from the start of the tokens, with only -1 on the indentation stack. */
  method Parse(tokens: seq<Token>) returns (r: Result<Expr, ParseError>)
    ensures r == ParseProgram(tokens, State(0, [-1])).result
    ensures r.Ok? ==> r.value.ExpressionBlock?
  {
    var parser := new Parser(tokens);
    r := parser.Program();
  }

  // ---------------------------------------------------------------------------
  // Grouping and precedence

  lemma {:induction false} PropertyTailFoldsLeft(toks: seq<Token>, s: State, base: Expr)
    requires Valid(toks, s) && PropertyChain(base)
    ensures var r := PropertyTail(toks, s, base); r.result.Ok? ==> PropertyChain(r.result.value)
    decreases |toks| - s.i
  {
    if !HasAt(toks, s, Dot, 0) {
      return;
    }
    var pp := ParseAtom(toks, Next(s));
    if pp.result.Err? {
      return;
    }
    var where := Join(Loc(base), Loc(pp.result.value));
    if where.Err? {
      return;
    }
    var node := ExpressionProperty(where.value, base, pp.result.value);
    assert PropertyChain(node);
    assert PropertyTail(toks, s, base) == PropertyTail(toks, pp.next, node);
    PropertyTailFoldsLeft(toks, pp.next, node);
  }

  /** `a.b.c` is `(a.b).c`. */
  lemma PropertyFoldsLeft(toks: seq<Token>, s: State)
    requires Valid(toks, s)
    ensures var r := ParseProperty(toks, s); r.result.Ok? ==> PropertyChain(r.result.value)
  {
    var pa := ParseAtom(toks, s);
    if pa.result.Ok? {
      PropertyTailFoldsLeft(toks, pa.next, pa.result.value);
    }
  }

  lemma {:induction false} MultiplicativeTailFoldsLeft(toks: seq<Token>, s: State, a: Expr)
    requires Valid(toks, s) && MultiplicativeChain(a)
    ensures var r := MultiplicativeTail(toks, s, a); r.result.Ok? ==> MultiplicativeChain(r.result.value)
    decreases |toks| - s.i
  {
    if !AtMultiplicativeOperator(toks, s) {
      return;
    }
    var pb := ParseProperty(toks, Next(s));
    if pb.result.Err? {
      return;
    }
    var where := Join(Loc(a), Loc(pb.result.value));
    if where.Err? {
      return;
    }
    PropertyFoldsLeft(toks, Next(s));
    var node := MultiplicativeNode(toks[s.i].kind, where.value, a, pb.result.value);
    assert MultiplicativeChain(node);
    assert MultiplicativeTail(toks, s, a) == MultiplicativeTail(toks, pb.next, node);
    MultiplicativeTailFoldsLeft(toks, pb.next, node);
  }

  /** `a * b / c` is `(a * b) / c`, and each operand is a property chain. */
  lemma MultiplicativeFoldsLeft(toks: seq<Token>, s: State)
    requires Valid(toks, s)
    ensures var r := ParseMultiplicative(toks, s); r.result.Ok? ==> MultiplicativeChain(r.result.value)
  {
    var pa := ParseProperty(toks, s);
    PropertyFoldsLeft(toks, s);
    if pa.result.Ok? {
      MultiplicativeTailFoldsLeft(toks, pa.next, pa.result.value);
    }
  }

  lemma {:induction false} AdditiveTailFoldsLeft(toks: seq<Token>, s: State, a: Expr)
    requires Valid(toks, s) && AdditiveChain(a)
    ensures var r := AdditiveTail(toks, s, a); r.result.Ok? ==> AdditiveChain(r.result.value)
    decreases |toks| - s.i
  {
    if !AtAdditiveOperator(toks, s) {
      return;
    }
    var pb := ParseMultiplicative(toks, Next(s));
    if pb.result.Err? {
      return;
    }
    var where := Join(Loc(a), Loc(pb.result.value));
    if where.Err? {
      return;
    }
    MultiplicativeFoldsLeft(toks, Next(s));
    var node := AdditiveNode(toks[s.i].kind, where.value, a, pb.result.value);
    assert AdditiveChain(node);
    assert AdditiveTail(toks, s, a) == AdditiveTail(toks, pb.next, node);
    AdditiveTailFoldsLeft(toks, pb.next, node);
  }

  /** `a - b - c` is `(a - b) - c`, and `*` binds tighter than `+`: each operand is a multiplicative chain. */
  lemma AdditiveFoldsLeft(toks: seq<Token>, s: State)
    requires Valid(toks, s)
    ensures var r := ParseAdditive(toks, s); r.result.Ok? ==> AdditiveChain(r.result.value)
  {
    var pa := ParseMultiplicative(toks, s);
    MultiplicativeFoldsLeft(toks, s);
    if pa.result.Ok? {
      AdditiveTailFoldsLeft(toks, pa.next, pa.result.value);
    }
  }

  /** `a = b = c` is `a = (b = c)`, and `=` binds loosest: its left side is an additive chain. */
  lemma {:induction false} AssignmentFoldsRight(toks: seq<Token>, s: State)
    requires Valid(toks, s)
    ensures var r := ParseAssignment(toks, s); r.result.Ok? ==> AssignmentChain(r.result.value)
    decreases |toks| - s.i
  {
    var pl := ParseAdditive(toks, s);
    AdditiveFoldsLeft(toks, s);
    if pl.result.Ok? && HasAt(toks, pl.next, Assign, 0) {
      AssignmentFoldsRight(toks, Next(pl.next));
    }
  }

  /** An expression is an assignment chain, so never a time interval. */
  lemma ExpressionIsNoInterval(toks: seq<Token>, s: State)
    requires Valid(toks, s)
    ensures var r := ParseExpression(toks, s); r.result.Ok? ==> AssignmentChain(r.result.value) && !IsInterval(r.result.value)
  {
    AssignmentFoldsRight(toks, s);
  }

  // ---------------------------------------------------------------------------
  // Blocks

  /**
   * A block opens only on an Indentation strictly deeper than the top of
   * the stack: any other token is not indented, and a shallower or equal
   * Indentation does not increase; both are located at the token.
   */
  lemma BlockNeedsDeeperIndentation(toks: seq<Token>, s: State)
    requires Valid(toks, s)
    ensures !HasAt(toks, s, Indentation, 0) ==> ParseBlock(toks, s).result.Err?
    ensures s.i < |toks| && toks[s.i].kind != Indentation ==>
              ParseBlock(toks, s).result == Err(Located(toks[s.i].where, NotIndentedMsg))
    ensures HasAt(toks, s, Indentation, 0) && |toks[s.i].source| <= s.indents[|s.indents| - 1] ==>
              ParseBlock(toks, s).result == Err(Located(toks[s.i].where, NoIncreaseMsg))
  {
    var r := ParseBlock(toks, s);
    if !HasAt(toks, s, Indentation, 0) {
      assert r.result == Err(Complain(WhereAt(toks, s), NotIndentedMsg));
    } else if |toks[s.i].source| <= s.indents[|s.indents| - 1] {
      assert r.result == Err(Located(toks[s.i].where, NoIncreaseMsg));
    }
  }

  /** A block that opens holds at least one statement and leaves the stack as it found it. */
  lemma BlockOpensDeeper(toks: seq<Token>, s: State)
    requires Valid(toks, s)
    ensures var r := ParseBlock(toks, s);
            r.result.Ok? ==>
              HasAt(toks, s, Indentation, 0) && s.indents[|s.indents| - 1] < |toks[s.i].source| &&
              |r.result.value.statements| > 0 && r.next.indents == s.indents
  {
    BlockNeedsDeeperIndentation(toks, s);
  }

  /** Within a block, a line at any other depth than the block's is an error located at its Indentation. */
  lemma JumpingIndentationFails(toks: seq<Token>, s: State, depth: int, statements: seq<Expr>)
    requires Valid(toks, s) && HasAt(toks, s, Indentation, 0) && |toks[s.i].source| != depth
    ensures BlockLines(toks, s, depth, statements).result == Err(Located(toks[s.i].where, JumpsMsg))
  {
  }

  /** An Indentation directly followed by a line break is a blank line: skipped, adding no statement. */
  lemma BlankLineAddsNothing(toks: seq<Token>, s: State, depth: int, statements: seq<Expr>)
    requires Valid(toks, s) && HasAt(toks, s, Indentation, 0) && |toks[s.i].source| == depth
    requires HasAt(toks, s, Linebreak, 1)
    ensures BlockLines(toks, s, depth, statements) == BlockLines(toks, Next(Next(s)), depth, statements)
  {
  }

  /** The statements of a block are collected in order: those already read stay, in front. */
  lemma {:induction false} BlockLinesKeepStatements(toks: seq<Token>, s: State, depth: int, statements: seq<Expr>)
    requires Valid(toks, s)
    ensures var r := BlockLines(toks, s, depth, statements);
            r.result.Ok? ==> |r.result.value| >= |statements| && r.result.value[..|statements|] == statements
    decreases |toks| - s.i
  {
    if HasAt(toks, s, Indentation, 0) && |toks[s.i].source| == depth {
      var s1 := Next(s);
      if HasAt(toks, s1, Linebreak, 0) {
        BlockLinesKeepStatements(toks, Next(s1), depth, statements);
      } else if HasAt(toks, s1, EOF, 0) {
        BlockLinesKeepStatements(toks, s1, depth, statements);
      } else {
        var p := ParseStatement(toks, s1);
        if p.result.Ok? {
          var more := statements + [p.result.value];
          BlockLinesKeepStatements(toks, p.next, depth, more);
          var r := BlockLines(toks, p.next, depth, more);
          if r.result.Ok? {
            assert r.result.value[..|statements|] == r.result.value[..|more|][..|statements|];
          }
        }
      }
    }
  }

  // ---------------------------------------------------------------------------
  // Statements

  /** A leading `t` not followed by `->` is an error at the `t`. */
  lemma LeadingTNeedsArrow(toks: seq<Token>, s: State)
    requires Valid(toks, s) && HasAt(toks, s, T, 0) && !HasAt(toks, s, RightArrow, 1)
    ensures ParseStatement(toks, s).result == Err(Located(toks[s.i].where, ToOrThroughMsg))
  {
  }

  /** `x` is a statement of the given form whose first expression is `e`. */
  predicate IsForm(x: Expr, form: Form, e: Expr)
  {
    match form
    case ToForm => x.StatementTo? && x.e == e
    case ThroughForm => x.StatementThrough? && x.e == e
    case FromForm => x.StatementFrom? && x.from == e
    case BetweenForm => x.StatementBetween? && x.from == e
  }

  /** A statement built around a block has the form asked for and starts with `e`. */
  lemma WithBodyForm(form: Form, e: Expr, to: Expr, pb: Parsed<Expr>)
    ensures var r := WithBody(form, e, to, pb); r.result.Ok? ==> IsForm(r.result.value, form, e)
  {
  }

  /**
   * Finishing a statement: a finished step is the statement, a body makes
   * a statement of the step's form, and a second expression makes a
   * between-interval, each starting with `e`.
   */
  lemma FinishForms(toks: seq<Token>, s: State, e: Expr, step: Step)
    requires step.Finished? ==> s.i <= step.p.next.i <= |toks| && (step.p.result.Ok? ==> step.p.next.indents == s.indents)
    requires !step.Finished? ==> Valid(toks, step.at) && s.i < step.at.i && step.at.indents == s.indents
    ensures var r := FinishStatement(toks, s, e, step);
            (step.Finished? ==> r == step.p) &&
            (r.result.Ok? && step.Body? ==> IsForm(r.result.value, step.form, e)) &&
            (r.result.Ok? && step.SecondExpression? ==> IsForm(r.result.value, BetweenForm, e))
  {
    match step
    case Finished(_) =>
    case Body(form, at) =>
      WithBodyForm(form, e, Undefined, ParseBlock(toks, at));
    case SecondExpression(at) =>
      var pt := ParseExpression(toks, at);
      if pt.result.Ok? && HasAt(toks, pt.next, Linebreak, 0) {
        WithBodyForm(BetweenForm, e, pt.result.value, ParseBlock(toks, Next(pt.next)));
      }
  }

  /**
   * After a leading `t` and its expression: a line break opens the body of
   * a to-interval, `-> t` and a line break that of a through-interval, and
   * anything else is an error.
   */
  lemma LeadingTSteps(toks: seq<Token>, s: State, e: Expr, s2: State)
    requires Valid(toks, s) && Valid(toks, s2) && s.i <= s2.i && HasAt(toks, s, T, 0)
    ensures var st := StatementAfter(toks, s, e, s2);
            (st.Finished? ==> st.p.result.Err?) && !st.SecondExpression? &&
            (st.Body? ==> (st.form == ToForm || st.form == ThroughForm)) &&
            (st.Body? && st.form == ToForm <==> HasAt(toks, s2, Linebreak, 0)) &&
            (st.Body? && st.form == ThroughForm <==>
               HasAt(toks, s2, RightArrow, 0) && HasAt(toks, s2, T, 1) && HasAt(toks, s2, Linebreak, 2))
  {
  }

  /**
   * After an expression E with no leading `t`: `-> t` and a line break
   * opens the body of a from-interval, `-> t ->` the end expression of a
   * between-interval, `->` before anything but `t` is an error, and
   * otherwise E is the statement, ended by a line break, or followed by
   * the end of input or an Indentation, and before any other token an
   * error.
   */
  lemma PlainSteps(toks: seq<Token>, s: State, e: Expr, s2: State)
    requires Valid(toks, s) && Valid(toks, s2) && s.i <= s2.i && !HasAt(toks, s, T, 0)
    ensures var st := StatementAfter(toks, s, e, s2);
            (st.Body? ==> st.form == FromForm && HasAt(toks, s2, RightArrow, 0) && HasAt(toks, s2, T, 1) && HasAt(toks, s2, Linebreak, 2)) &&
            (st.SecondExpression? ==> HasAt(toks, s2, RightArrow, 0) && HasAt(toks, s2, T, 1) && HasAt(toks, s2, RightArrow, 2)) &&
            (HasAt(toks, s2, RightArrow, 0) && !HasAt(toks, s2, T, 1) ==> st.Finished? && st.p.result.Err?)
    ensures var st := StatementAfter(toks, s, e, s2);
            st.Finished? && st.p.result.Ok? ==>
              st.p.result.value == e && !HasAt(toks, s2, RightArrow, 0) &&
              ((HasAt(toks, s2, Linebreak, 0) && st.p.next == Next(s2)) ||
               ((HasAt(toks, s2, EOF, 0) || HasAt(toks, s2, Indentation, 0)) && st.p.next == s2))
    ensures s2.i < |toks| && toks[s2.i].kind !in {RightArrow, Linebreak, EOF, Indentation} ==>
              StatementAfter(toks, s, e, s2) == Finished(Parsed(Err(Located(toks[s2.i].where, LinebreakOrEndMsg)), s2))
  {
  }

  /**
   * After a leading `t` the only statements are `t -> E` and
   * `t -> E -> t`, with E the expression after the arrow.
   */
  lemma LeadingTForms(toks: seq<Token>, s: State)
    requires Valid(toks, s) && HasAt(toks, s, T, 0) && HasAt(toks, s, RightArrow, 1)
    ensures var r := ParseStatement(toks, s);
            var pe := ParseExpression(toks, Next(Next(s)));
            r.result.Ok? ==>
              (r.result.value.StatementTo? || r.result.value.StatementThrough?) &&
              pe.result.Ok? && r.result.value.e == pe.result.value
  {
    var entry := Next(Next(s));
    assert ParseStatement(toks, s) == StatementRest(toks, s, entry);
    var pe := ParseExpression(toks, entry);
    if pe.result.Ok? {
      var st := StatementAfter(toks, s, pe.result.value, pe.next);
      LeadingTSteps(toks, s, pe.result.value, pe.next);
      FinishForms(toks, s, pe.result.value, st);
    }
  }

  /** The two are told apart by what follows E: a line break, or `-> t` and a line break. */
  lemma ToOrThroughChoice(toks: seq<Token>, s: State)
    requires Valid(toks, s) && HasAt(toks, s, T, 0) && HasAt(toks, s, RightArrow, 1)
    ensures var r := ParseStatement(toks, s);
            var pe := ParseExpression(toks, Next(Next(s)));
            r.result.Ok? ==>
              (r.result.value.StatementTo? <==> HasAt(toks, pe.next, Linebreak, 0)) &&
              (r.result.value.StatementThrough? <==>
                 HasAt(toks, pe.next, RightArrow, 0) && HasAt(toks, pe.next, T, 1) && HasAt(toks, pe.next, Linebreak, 2))
  {
    var entry := Next(Next(s));
    assert ParseStatement(toks, s) == StatementRest(toks, s, entry);
    var pe := ParseExpression(toks, entry);
    if pe.result.Ok? {
      var st := StatementAfter(toks, s, pe.result.value, pe.next);
      LeadingTSteps(toks, s, pe.result.value, pe.next);
      FinishForms(toks, s, pe.result.value, st);
    }
  }

  /**
   * Without a leading `t` a statement starts with an expression E, and it
   * is an interval exactly when `->` follows E: `E -> t` and a line break
   * is a from-interval, `E -> t -> E2` a between-interval.
   */
  lemma PlainStatementForms(toks: seq<Token>, s: State)
    requires Valid(toks, s) && !HasAt(toks, s, T, 0)
    ensures var r := ParseStatement(toks, s);
            var pe := ParseExpression(toks, s);
            r.result.Ok? ==>
              pe.result.Ok? &&
              (IsInterval(r.result.value) <==> HasAt(toks, pe.next, RightArrow, 0)) &&
              (r.result.value.StatementFrom? ==>
                 r.result.value.from == pe.result.value && HasAt(toks, pe.next, T, 1) && HasAt(toks, pe.next, Linebreak, 2)) &&
              (r.result.value.StatementBetween? ==>
                 r.result.value.from == pe.result.value && HasAt(toks, pe.next, T, 1) && HasAt(toks, pe.next, RightArrow, 2))
  {
    assert ParseStatement(toks, s) == StatementRest(toks, s, s);
    var pe := ParseExpression(toks, s);
    if pe.result.Ok? {
      ExpressionIsNoInterval(toks, s);
      var st := StatementAfter(toks, s, pe.result.value, pe.next);
      PlainSteps(toks, s, pe.result.value, pe.next);
      FinishForms(toks, s, pe.result.value, st);
    }
  }

  /** `E ->` without a `t` after the arrow is an error. */
  lemma ArrowNeedsT(toks: seq<Token>, s: State)
    requires Valid(toks, s) && !HasAt(toks, s, T, 0)
    ensures var pe := ParseExpression(toks, s);
            pe.result.Ok? && HasAt(toks, pe.next, RightArrow, 0) && !HasAt(toks, pe.next, T, 1) ==>
              ParseStatement(toks, s).result.Err?
  {
    assert ParseStatement(toks, s) == StatementRest(toks, s, s);
    var pe := ParseExpression(toks, s);
    if pe.result.Ok? {
      var st := StatementAfter(toks, s, pe.result.value, pe.next);
      PlainSteps(toks, s, pe.result.value, pe.next);
      FinishForms(toks, s, pe.result.value, st);
    }
  }

  /**
   * A statement that is not an interval is the expression E itself,
   * whose line break is consumed or which stands before the end of input
   * or an Indentation; before any other token it is an error.
   */
  lemma PlainStatementEnds(toks: seq<Token>, s: State)
    requires Valid(toks, s) && !HasAt(toks, s, T, 0)
    ensures var r := ParseStatement(toks, s);
            var pe := ParseExpression(toks, s);
            r.result.Ok? && !IsInterval(r.result.value) ==>
              pe.result.Ok? && r.result.value == pe.result.value &&
              ((HasAt(toks, pe.next, Linebreak, 0) && r.next == Next(pe.next)) ||
               ((HasAt(toks, pe.next, EOF, 0) || HasAt(toks, pe.next, Indentation, 0)) && r.next == pe.next))
    ensures var pe := ParseExpression(toks, s);
            pe.result.Ok? && pe.next.i < |toks| &&
            toks[pe.next.i].kind !in {RightArrow, Linebreak, EOF, Indentation} ==>
              ParseStatement(toks, s).result == Err(Located(toks[pe.next.i].where, LinebreakOrEndMsg))
  {
    assert ParseStatement(toks, s) == StatementRest(toks, s, s);
    var pe := ParseExpression(toks, s);
    if pe.result.Ok? {
      var st := StatementAfter(toks, s, pe.result.value, pe.next);
      PlainSteps(toks, s, pe.result.value, pe.next);
      FinishForms(toks, s, pe.result.value, st);
    }
  }

  // ---------------------------------------------------------------------------
  // Vectors and calls

  /** A vector element followed by neither `,` nor `]` is an error: a comma was expected. */
  lemma VectorNeedsCommas(toks: seq<Token>, s: State, elements: seq<Expr>)
    requires Valid(toks, s) && !HasAt(toks, s, RightSquareBracket, 0)
    ensures var pe := ParseExpression(toks, s);
            pe.result.Ok? && !pe.result.value.Undefined? && pe.next.i < |toks| &&
            toks[pe.next.i].kind != RightSquareBracket && toks[pe.next.i].kind != Comma ==>
              VectorTail(toks, s, elements).result == Err(Located(Span(pe.result.value.where, toks[pe.next.i].where), CommaMsg))
  {
  }

  /**
   * A call whose argument list cannot start (the token after `(` is not
   * one of the kinds the first-of-expression test lists) and is not
   * closed right away is an error: a right parenthesis was expected.
   */
  lemma CallNeedsArgumentOrParenthesis(toks: seq<Token>, s: State)
    requires Valid(toks, s) && HasAt(toks, s, Identifier, 0) && HasAt(toks, s, LeftParenthesis, 1)
    requires s.i + 2 < |toks| && !IsFirstOfExpression(toks, Next(Next(s)), 0) && toks[s.i + 2].kind != RightParenthesis
    ensures ParseAtom(toks, s).result == Err(Located(Span(toks[s.i].where, toks[s.i + 2].where), RightParenthesisMsg))
  {
    assert Actuals(toks, Next(Next(s))) == Parsed(Ok([]), Next(Next(s)));
  }

  /**
   * The kinds the first-of-expression test lists do not include Real: as
   * written, `f(1.5)` reads an empty argument list and then fails for want
   * of a right parenthesis.
   */
  lemma RealFirstArgumentRejected(w: SourceLocation)
    ensures var toks := [Token(Identifier, "f", w), Token(LeftParenthesis, "(", w), Token(Real, "1.5", w),
                         Token(RightParenthesis, ")", w), Token(EOF, "", w)];
            ParseAtom(toks, State(0, [-1])).result == Err(Located(Span(w, w), RightParenthesisMsg))
  {
    var toks := [Token(Identifier, "f", w), Token(LeftParenthesis, "(", w), Token(Real, "1.5", w),
                 Token(RightParenthesis, ")", w), Token(EOF, "", w)];
    CallNeedsArgumentOrParenthesis(toks, State(0, [-1]));
  }

  /**
   * `has` tests the kind of the token at an offset from the cursor and is
   * false past either end; `isFirstOfExpression` accepts exactly eight
   * kinds, among them neither real literals nor `with` nor `)`.
   */
  lemma FirstOfExpressionKinds(toks: seq<Token>, s: State, offset: int)
    ensures forall kind :: HasAt(toks, s, kind, offset) <==> 0 <= s.i + offset < |toks| && toks[s.i + offset].kind == kind
    ensures IsFirstOfExpression(toks, s, offset) <==>
              0 <= s.i + offset < |toks| &&
              toks[s.i + offset].kind in {Integer, T, Boolean, String, Identifier, LeftSquareBracket, Repeat, For}
    ensures IsFirstOfExpression(toks, s, offset) ==>
              !HasAt(toks, s, Real, offset) && !HasAt(toks, s, With, offset) && !HasAt(toks, s, RightParenthesis, offset)
  {
  }

  // ---------------------------------------------------------------------------
  // What vectors and calls collect

  /** The elements of a vector are collected in order: those already read stay, in front. */
  lemma {:induction false} VectorTailKeepsElements(toks: seq<Token>, s: State, elements: seq<Expr>)
    requires Valid(toks, s)
    ensures var r := VectorTail(toks, s, elements);
            r.result.Ok? ==> |r.result.value| >= |elements| && r.result.value[..|elements|] == elements
    decreases |toks| - s.i
  {
    if !HasAt(toks, s, RightSquareBracket, 0) {
      var pe := ParseExpression(toks, s);
      if pe.result.Ok? && !HasAt(toks, pe.next, RightSquareBracket, 0) && HasAt(toks, pe.next, Comma, 0) {
        var more := elements + [pe.result.value];
        VectorTailKeepsElements(toks, Next(pe.next), more);
        var r := VectorTail(toks, Next(pe.next), more);
        if r.result.Ok? {
          assert r.result.value[..|elements|] == r.result.value[..|more|][..|elements|];
        }
      }
    }
  }

  /**
   * One element of a vector: the expression at the cursor is appended, then
   * `]` closes the vector and `,` goes on to the next element; `]` at the
   * cursor closes it with nothing added.
   */
  lemma VectorTailStep(toks: seq<Token>, s: State, elements: seq<Expr>)
    requires Valid(toks, s)
    ensures HasAt(toks, s, RightSquareBracket, 0) ==> VectorTail(toks, s, elements) == Parsed(Ok(elements), s)
    ensures var pe := ParseExpression(toks, s);
            !HasAt(toks, s, RightSquareBracket, 0) && pe.result.Ok? ==>
              (HasAt(toks, pe.next, RightSquareBracket, 0) ==>
                 VectorTail(toks, s, elements) == Parsed(Ok(elements + [pe.result.value]), pe.next)) &&
              (HasAt(toks, pe.next, Comma, 0) ==>
                 VectorTail(toks, s, elements) == VectorTail(toks, Next(pe.next), elements + [pe.result.value]))
    ensures var pe := ParseExpression(toks, s);
            !HasAt(toks, s, RightSquareBracket, 0) && pe.result.Err? ==>
              VectorTail(toks, s, elements) == Parsed(Err(pe.result.error), pe.next)
  {
  }

  /**
   * A vector literal holds exactly what its elements collect from after the
   * `[`, spans the `[` to the `]` and leaves the cursor past the `]`.
   */
  lemma VectorCollects(toks: seq<Token>, s: State)
    requires Valid(toks, s) && HasAt(toks, s, LeftSquareBracket, 0)
    ensures var r := ParseVector(toks, s);
            var pv := VectorTail(toks, Next(s), []);
            (r.result.Ok? <==> pv.result.Ok?) &&
            (r.result.Ok? ==>
               pv.result.Ok? && HasAt(toks, pv.next, RightSquareBracket, 0) && r.next == Next(pv.next) &&
               r.result.value == ExpressionVector(Span(toks[s.i].where, toks[pv.next.i].where), pv.result.value))
  {
  }

  /** A nonempty vector literal starts with the expression right after the `[`. */
  lemma VectorStartsAfterBracket(toks: seq<Token>, s: State)
    requires Valid(toks, s) && HasAt(toks, s, LeftSquareBracket, 0)
    ensures var r := ParseVector(toks, s);
            var pe := ParseExpression(toks, Next(s));
            r.result.Ok? && r.result.value.elements != [] ==>
              !HasAt(toks, Next(s), RightSquareBracket, 0) && pe.result.Ok? && r.result.value.elements[0] == pe.result.value
  {
    var r := ParseVector(toks, s);
    var pv := VectorTail(toks, Next(s), []);
    VectorCollects(toks, s);
    if r.result.Ok? && r.result.value.elements != [] {
      assert pv.result.Ok? && pv.result.value == r.result.value.elements;
      assert !HasAt(toks, Next(s), RightSquareBracket, 0);
      var pe := ParseExpression(toks, Next(s));
      assert pe.result.Ok?;
      if HasAt(toks, pe.next, RightSquareBracket, 0) {
        assert pv.result.value == [] + [pe.result.value];
      } else {
        assert HasAt(toks, pe.next, Comma, 0);
        assert pv == VectorTail(toks, Next(pe.next), [] + [pe.result.value]);
        VectorTailKeepsElements(toks, Next(pe.next), [] + [pe.result.value]);
      }
    }
  }

  /**
   * The arguments of a call are collected in order: those already read
   * stay, in front, and the list stops where no `,` and expression follow.
   */
  lemma {:induction false} ActualsTailKeeps(toks: seq<Token>, s: State, actuals: seq<Expr>)
    requires Valid(toks, s)
    ensures var r := ActualsTail(toks, s, actuals);
            r.result.Ok? ==>
              |r.result.value| >= |actuals| && r.result.value[..|actuals|] == actuals &&
              !(HasAt(toks, r.next, Comma, 0) && IsFirstOfExpression(toks, r.next, 1))
    decreases |toks| - s.i
  {
    if HasAt(toks, s, Comma, 0) && IsFirstOfExpression(toks, s, 1) {
      var pe := ParseExpression(toks, Next(s));
      if pe.result.Ok? {
        var more := actuals + [pe.result.value];
        ActualsTailKeeps(toks, pe.next, more);
        var r := ActualsTail(toks, pe.next, more);
        if r.result.Ok? {
          assert r.result.value[..|actuals|] == r.result.value[..|more|][..|actuals|];
        }
      }
    }
  }

  /**
   * A call's argument list is empty exactly when no expression can start
   * at the cursor; otherwise it starts with the expression there, and it
   * ends where no `,` and expression follow.
   */
  lemma ActualsKeep(toks: seq<Token>, s: State)
    requires Valid(toks, s)
    ensures var r := Actuals(toks, s);
            var pe := ParseExpression(toks, s);
            r.result.Ok? ==>
              (r.result.value == [] <==> !IsFirstOfExpression(toks, s, 0)) &&
              (IsFirstOfExpression(toks, s, 0) ==> pe.result.Ok? && r.result.value[0] == pe.result.value) &&
              (IsFirstOfExpression(toks, s, 0) ==> !(HasAt(toks, r.next, Comma, 0) && IsFirstOfExpression(toks, r.next, 1)))
  {
    if IsFirstOfExpression(toks, s, 0) {
      var pe := ParseExpression(toks, s);
      if pe.result.Ok? {
        var r := ActualsTail(toks, pe.next, [pe.result.value]);
        assert Actuals(toks, s) == r;
        ActualsTailKeeps(toks, pe.next, [pe.result.value]);
        if r.result.Ok? {
          assert r.result.value[..1] == [pe.result.value];
          assert r.result.value[0] == r.result.value[..1][0];
        }
      } else {
        assert Actuals(toks, s).result.Err?;
      }
    } else {
      assert Actuals(toks, s) == Parsed(Ok([]), s);
    }
  }

  /**
   * A call holds the name and exactly the arguments collected after its
   * `(`, spans the name to the `)` and leaves the cursor past the `)`.
   */
  lemma CallCollects(toks: seq<Token>, s: State)
    requires Valid(toks, s) && HasAt(toks, s, Identifier, 0) && HasAt(toks, s, LeftParenthesis, 1)
    ensures var r := ParseCall(toks, s);
            var pa := Actuals(toks, Next(Next(s)));
            (r.result.Ok? <==> pa.result.Ok? && HasAt(toks, pa.next, RightParenthesis, 0)) &&
            (r.result.Ok? ==>
               pa.result.Ok? && HasAt(toks, pa.next, RightParenthesis, 0) && r.next == Next(pa.next) &&
               r.result.value == ExpressionFunctionCall(Span(toks[s.i].where, toks[pa.next.i].where), toks[s.i].source, pa.result.value))
  {
  }

  // ---------------------------------------------------------------------------
  // Loops and scopes built from their parts

  /**
   * `repeat`: it succeeds exactly when its count parses, a line break
   * follows and the block parses; then it holds that count and that block
   * and spans `repeat` to the block. A count not followed by a line break
   * is an error.
   */
  lemma RepeatParts(toks: seq<Token>, s: State)
    requires Valid(toks, s) && HasAt(toks, s, Repeat, 0)
    ensures var pc := ParseExpression(toks, Next(s));
            ParseRepeat(toks, s).result.Ok? <==>
              pc.result.Ok? && HasAt(toks, pc.next, Linebreak, 0) && ParseBlock(toks, Next(pc.next)).result.Ok?
    ensures var pc := ParseExpression(toks, Next(s));
            pc.result.Ok? && HasAt(toks, pc.next, Linebreak, 0) && ParseBlock(toks, Next(pc.next)).result.Ok? ==>
              var pb := ParseBlock(toks, Next(pc.next));
              ParseRepeat(toks, s) ==
                Parsed(Ok(ExpressionRepeat(Span(toks[s.i].where, pb.result.value.where), pc.result.value, pb.result.value)), pb.next)
    ensures var pc := ParseExpression(toks, Next(s));
            pc.result.Ok? && !HasAt(toks, pc.next, Linebreak, 0) ==>
              ParseRepeat(toks, s) ==
                Parsed(Err(Complain(Join(Ok(toks[s.i].where), Loc(pc.result.value)), RepeatCountMsg)), pc.next)
  {
  }

  /** `with`: the same shape as `repeat`, with a scope in place of the count. */
  lemma WithParts(toks: seq<Token>, s: State)
    requires Valid(toks, s) && HasAt(toks, s, With, 0)
    ensures var pc := ParseExpression(toks, Next(s));
            ParseWith(toks, s).result.Ok? <==>
              pc.result.Ok? && HasAt(toks, pc.next, Linebreak, 0) && ParseBlock(toks, Next(pc.next)).result.Ok?
    ensures var pc := ParseExpression(toks, Next(s));
            pc.result.Ok? && HasAt(toks, pc.next, Linebreak, 0) && ParseBlock(toks, Next(pc.next)).result.Ok? ==>
              var pb := ParseBlock(toks, Next(pc.next));
              ParseWith(toks, s) ==
                Parsed(Ok(ExpressionWith(Span(toks[s.i].where, pb.result.value.where), pc.result.value, pb.result.value)), pb.next)
    ensures var pc := ParseExpression(toks, Next(s));
            pc.result.Ok? && !HasAt(toks, pc.next, Linebreak, 0) ==>
              ParseWith(toks, s) ==
                Parsed(Err(Complain(Join(Ok(toks[s.i].where), Loc(pc.result.value)), WithScopeMsg)), pc.next)
  {
  }

  /**
   * `for`: a header `for j from start to stop` whose parts parse, then a
   * line break and a block that parses, makes a loop of exactly those
   * parts, with step 1, spanning `for` to the block. A header that cannot
   * start an expression after `for` is undefined.
   */
  lemma ForParts(toks: seq<Token>, s: State)
    requires Valid(toks, s) && HasAt(toks, s, For, 0)
    ensures !IsFirstOfExpression(toks, Next(s), 0) ==> ParseFor(toks, s) == Parsed(Ok(Undefined), Next(s))
    ensures var pj := ParseExpression(toks, Next(s));
            IsFirstOfExpression(toks, Next(s), 0) && pj.result.Ok? &&
            HasAt(toks, pj.next, From, 0) && IsFirstOfExpression(toks, pj.next, 1) ==>
              var pstart := ParseExpression(toks, Next(pj.next));
              pstart.result.Ok? && HasAt(toks, pstart.next, To, 0) && IsFirstOfExpression(toks, pstart.next, 1) ==>
                var pstop := ParseExpression(toks, Next(pstart.next));
                pstop.result.Ok? && HasAt(toks, pstop.next, Linebreak, 0) && ParseBlock(toks, Next(pstop.next)).result.Ok? ==>
                  var pb := ParseBlock(toks, Next(pstop.next));
                  ParseFor(toks, s) ==
                    Parsed(Ok(ExpressionFor(Span(toks[s.i].where, pb.result.value.where),
                                            pj.result.value, pstart.result.value, pstop.result.value, 1, pb.result.value)), pb.next)
  {
  }

  // ---------------------------------------------------------------------------
  // Atoms through the operator levels

  /** A literal, or a name (or `t`) that is not followed by `(`. */
  predicate AtSimpleAtom(toks: seq<Token>, s: State)
  {
    HasAt(toks, s, Integer, 0) || HasAt(toks, s, String, 0) || HasAt(toks, s, Real, 0) || HasAt(toks, s, Boolean, 0) ||
    ((HasAt(toks, s, Identifier, 0) || HasAt(toks, s, T, 0)) && !HasAt(toks, s, LeftParenthesis, 1))
  }

  /** A line break, an Indentation or the end of input. */
  predicate AtLineEnd(toks: seq<Token>, s: State)
  {
    HasAt(toks, s, Linebreak, 0) || HasAt(toks, s, Indentation, 0) || HasAt(toks, s, EOF, 0)
  }

  /**
   * A literal or a plain name that ends its line is its own atom, located
   * at its token, and every level of operators above the atom passes it on
   * unchanged, with the cursor just past it.
   */
  lemma SimpleAtomPassesThrough(toks: seq<Token>, s: State)
    requires Valid(toks, s) && AtSimpleAtom(toks, s) && AtLineEnd(toks, Next(s))
    ensures var a := ParseAtom(toks, s);
            a.result.Ok? && a.next == Next(s) && !a.result.value.Undefined? && a.result.value.where == toks[s.i].where &&
            ParseProperty(toks, s) == a && ParseMultiplicative(toks, s) == a && ParseAdditive(toks, s) == a &&
            ParseAssignment(toks, s) == a && ParseExpression(toks, s) == a
  {
    SimpleAtomItself(toks, s);
    var a := ParseAtom(toks, s);
    var n := Next(s);
    assert !HasAt(toks, n, Dot, 0) && !AtMultiplicativeOperator(toks, n) && !AtAdditiveOperator(toks, n) && !HasAt(toks, n, Assign, 0);
    assert ParseProperty(toks, s) == PropertyTail(toks, n, a.result.value) == a;
    assert ParseMultiplicative(toks, s) == MultiplicativeTail(toks, n, a.result.value) == a;
    assert ParseAdditive(toks, s) == AdditiveTail(toks, n, a.result.value) == a;
  }

  lemma SimpleAtomItself(toks: seq<Token>, s: State)
    requires Valid(toks, s) && AtSimpleAtom(toks, s)
    ensures var a := ParseAtom(toks, s);
            a.result.Ok? && a.next == Next(s) && !a.result.value.Undefined? && a.result.value.where == toks[s.i].where
  {
  }

  /**
   * Such an atom at the start of a statement is the whole statement, which
   * consumes the line break after it and stops before an Indentation or the
   * end of input.
   */
  lemma SimpleAtomStatement(toks: seq<Token>, s: State)
    requires Valid(toks, s) && AtSimpleAtom(toks, s) && !HasAt(toks, s, T, 0) && AtLineEnd(toks, Next(s))
    ensures ParseStatement(toks, s) ==
            Parsed(ParseAtom(toks, s).result, if HasAt(toks, Next(s), Linebreak, 0) then Next(Next(s)) else Next(s))
  {
    SimpleAtomPassesThrough(toks, s);
    var x := ParseAtom(toks, s).result.value;
    assert ParseStatement(toks, s) == StatementRest(toks, s, s);
    assert StatementRest(toks, s, s) == FinishStatement(toks, s, x, StatementAfter(toks, s, x, Next(s)));
  }

  // ---------------------------------------------------------------------------
  // Whole programs

  /**
   * The last line of a block, indented to the block's depth and holding only
   * such an atom, adds that atom to the statements; the loop then stops at
   * the end of input.
   */
  lemma LastSimpleLine(toks: seq<Token>, s: State, depth: int, statements: seq<Expr>)
    requires Valid(toks, s) && HasAt(toks, s, Indentation, 0) && |toks[s.i].source| == depth
    requires AtSimpleAtom(toks, Next(s)) && !HasAt(toks, Next(s), T, 0) && HasAt(toks, Next(Next(s)), EOF, 0)
    ensures var a := ParseAtom(toks, Next(s));
            a.result.Ok? && BlockLines(toks, s, depth, statements) == Parsed(Ok(statements + [a.result.value]), Next(Next(s)))
  {
    var s1 := Next(s);
    var p := ParseStatement(toks, s1);
    assert p == Parsed(ParseAtom(toks, s1).result, Next(s1)) && p.result.Ok? by {
      SimpleAtomStatement(toks, s1);
      SimpleAtomItself(toks, s1);
    }
    StatementLine(toks, s, depth, statements);
  }

  /** A line holding a statement that parses adds it and goes on after it. */
  lemma StatementLine(toks: seq<Token>, s: State, depth: int, statements: seq<Expr>)
    requires Valid(toks, s) && HasAt(toks, s, Indentation, 0) && |toks[s.i].source| == depth
    requires !HasAt(toks, Next(s), Linebreak, 0) && !HasAt(toks, Next(s), EOF, 0)
    requires ParseStatement(toks, Next(s)).result.Ok?
    ensures var p := ParseStatement(toks, Next(s));
            BlockLines(toks, s, depth, statements) == BlockLines(toks, p.next, depth, statements + [p.result.value])
  {
  }

  /** The state inside the block that the Indentation under the cursor opens. */
  function Opened(toks: seq<Token>, s: State): State
    requires s.i < |toks|
  {
    s.(indents := s.indents + [|toks[s.i].source|])
  }

  /**
   * A block of one line holding such an atom, with nothing after it, is a
   * block of that one statement, spanning the atom's location; the
   * indentation stack is restored after it.
   */
  lemma OneLineBlock(toks: seq<Token>, s: State)
    requires Valid(toks, s) && HasAt(toks, s, Indentation, 0) && |toks[s.i].source| > s.indents[|s.indents| - 1]
    requires AtSimpleAtom(toks, Next(Opened(toks, s))) && !HasAt(toks, Next(s), T, 0) && HasAt(toks, Next(Next(s)), EOF, 0)
    ensures var a := ParseAtom(toks, Next(Opened(toks, s)));
            a.result.Ok? &&
            ParseBlock(toks, s) == Parsed(Ok(ExpressionBlock(Span(toks[s.i + 1].where, toks[s.i + 1].where), [a.result.value])), Next(Next(s)))
  {
    var s0 := Opened(toks, s);
    var a := ParseAtom(toks, Next(s0));
    assert a.result.Ok? && !a.result.value.Undefined? && a.result.value.where == toks[s.i + 1].where by {
      SimpleAtomItself(toks, Next(s0));
    }
    var x := a.result.value;
    assert BlockLines(toks, s0, |toks[s.i].source|, []) == Parsed(Ok([x]), Next(Next(s0))) by {
      assert !HasAt(toks, Next(s0), T, 0) && HasAt(toks, Next(Next(s0)), EOF, 0);
      LastSimpleLine(toks, s0, |toks[s.i].source|, []);
      assert [] + [x] == [x];
    }
    assert Join(Loc(x), Loc(x)) == Ok(Span(toks[s.i + 1].where, toks[s.i + 1].where));
    assert Next(Next(s0)).(indents := s.indents) == Next(Next(s));
    BlockOfLines(toks, s);
  }

  /** A block whose lines succeed, with located first and last statements, spans them. */
  lemma BlockOfLines(toks: seq<Token>, s: State)
    requires Valid(toks, s) && HasAt(toks, s, Indentation, 0) && |toks[s.i].source| > s.indents[|s.indents| - 1]
    ensures var lines := BlockLines(toks, Opened(toks, s), |toks[s.i].source|, []);
            lines.result.Ok? && |lines.result.value| > 0 ==>
              var statements := lines.result.value;
              var where := Join(Loc(statements[0]), Loc(statements[|statements| - 1]));
              where.Ok? ==>
                ParseBlock(toks, s) == Parsed(Ok(ExpressionBlock(where.value, statements)), lines.next.(indents := s.indents))
  {
  }

  /**
   * A program of one line holding such an atom is a block of that one
   * statement; the end of input follows it.
   */
  lemma OneLineProgram(toks: seq<Token>, s: State)
    requires Valid(toks, s) && HasAt(toks, s, Indentation, 0) && |toks[s.i].source| > s.indents[|s.indents| - 1]
    requires AtSimpleAtom(toks, Next(Opened(toks, s))) && !HasAt(toks, Next(s), T, 0) && HasAt(toks, Next(Next(s)), EOF, 0)
    ensures var a := ParseAtom(toks, Next(Opened(toks, s)));
            a.result.Ok? && ParseProgram(toks, s) == ParseBlock(toks, s)
  {
    OneLineBlock(toks, s);
  }
}
