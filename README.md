# Twoville core in Dafny

Twoville is a small language for drawing animated SVG figures. A program is
a sequence of indented statements; a statement may carry a time interval
(`t -> 10`, `10 -> t`, `10 -> t -> 20`) whose body sets shape properties
over time. This project models the core of the interpreter:

- the recursive-descent parser (`parser.js`), as a `Parser` class over the
  token list, the cursor and the indentation stack. Each of its methods is
  proved equal to a pure specification function on `(tokens, state)`, and
  the grammar's promises are proved about those functions: operator chains
  fold left, assignment folds right, blocks need deeper and consistent
  indentation, and the interval statement forms are chosen as the code
  chooses them;
- three generations of the binding store:
  - the first, in `builtins.js`;
  - the second, in `types.js`;
  - the current one, in `src/environment.js`.

  Each is a class with a parent chain. Lookups are proved to find the
  nearest binding, and each `bind` is proved to make exactly the setter
  calls on a timeline that the code makes;
- the number and vector values of `builtins.js`: arithmetic, element access
  and interpolation;
- the shapes of `types.js` and `src/shape.js`. This covers:
  - serial numbering;
  - what a new shape binds;
  - markers and nodes;
  - the walk up `parent` that decides whether a shape is inside a cutout;
  - the checks made before drawing. `types.js` makes them in `draw`;
    `src/shape.js` makes them in `configureState`;
- the helpers of `src/common.js`:
  - source locations and their spans;
  - located error messages;
  - operator precedence;
  - `mop`.

Files, one module each:

| file | module | contents |
|---|---|---|
| wrappers.dfy | `Wrappers` | `Option`, `Result` |
| common.dfy | `Common` | `SourceLocation`, `Token`, user messages, `Precedence`, `Mop` |
| values.dfy | `Values` | values, arithmetic, interpolation |
| timeline.dfy | `Timelines` | time bounds, `Timeline` as a log of setter calls |
| kinds.dfy | `Kinds` | environment and shape kinds, their `timedIds` tables |
| environment.dfy | `Environments` | the current `Environment` / `TimelinedEnvironment` |
| builtins_env.dfy | `Builtins` | the first `TwovilleEnvironment` |
| types_env.dfy | `Types` | the second `TwovilleEnvironment`, `TwovilleShape`, draw checks, arc flags |
| shape.dfy | `Shapes` | `Shape`, markers, nodes, `isCutoutChild`, `configureState` checks |
| parser.dfy | `Parsing` | expressions, the `Parser` class with its specification functions, grammar lemmas |

JavaScript's `undefined` and `null` are explicit:
- a time bound is `Unset` or `At(t)`;
- an absent child or location is `None`;
- a missing binding is `None` or an `Err`.

`src/environment.js` tests time bounds for truthiness, so a bound of 0
counts as absent. `types.js` and `builtins.js` test `!= null`, so 0 counts
as present. The model keeps both tests (`Truthy`, `Present`).

## Model

| member | source | states |
|---|---|---|
| Parsing.Parse | parser.js:36-39 | parsing starts at token 0 with the indentation stack `[-1]`, gives exactly the program that the specification function describes, and any success is a block |
| Parsing.Parser.constructor | parser.js:36-38 | a new parser holds the tokens, its cursor at 0 and the indentation stack `[-1]` |
| Parsing.Parser.Consume | parser.js:53-56 | returns the token under the cursor and moves the cursor one token on |
| Parsing.Parser.Program | parser.js:58-64 | the imperative `program` gives the result and final cursor of `ParseProgram`: a block that must be followed by end of file |
| Parsing.ParseProgram | parser.js:58-64 | the cursor never moves back or past the end; a success is a block sitting before the end-of-file token, with the indentation stack restored |
| Parsing.Parser.Block | parser.js:66-102 | the imperative `block` gives the result and final cursor of `ParseBlock`, including pushing and popping the indentation stack |
| Parsing.ParseBlock | parser.js:66-102 | the cursor only moves forward; a success is a block and leaves the indentation stack as it found it |
| Parsing.Parser.Lines | parser.js:79-90 | the loop over the lines of a block gives exactly the statements and final cursor of `BlockLines` |
| Parsing.BlockLines | parser.js:79-90 | the cursor only moves forward; a success leaves the indentation stack unchanged |
| Parsing.BlockNeedsDeeperIndentation | parser.js:67-75 | a block that does not start on an indentation token fails with the "expected the code to be indented" error at that token; an indentation no deeper than the enclosing one fails with the "expected the indentation to increase" error |
| Parsing.BlockOpensDeeper | parser.js:66-102 | a successful block started on an indentation deeper than the top of the stack, holds at least one statement, and restores the stack |
| Parsing.JumpingIndentationFails | parser.js:80-82 | a line indented differently from the block's first line fails with the "indentation jumps around" error at that line |
| Parsing.BlankLineAddsNothing | parser.js:83-85 | an indented empty line is skipped and contributes no statement |
| Parsing.BlockLinesKeepStatements | parser.js:79-90 | the statements gathered so far stay, in order, at the front of the block's statements |
| Parsing.Parser.Statement | parser.js:104-181 | the imperative `statement` gives the result and final cursor of `ParseStatement` |
| Parsing.ParseStatement | parser.js:104-181 | the cursor only moves forward; a success leaves the indentation stack unchanged |
| Parsing.StatementRest | parser.js:110-180 | after the optional leading `t ->`, the first expression is parsed and then the rest of the statement is decided from it; the cursor only moves forward |
| Parsing.Parser.Rest | parser.js:110-180 | parsing the first expression and the rest of the statement gives exactly `StatementRest` |
| Parsing.Parser.AfterExpression | parser.js:111-180 | once the first expression is parsed, what follows it decides the statement exactly as `FinishStatement` of `StatementAfter` says |
| Parsing.StatementAfter | parser.js:111-180 | what follows the first expression either finishes the statement (the cursor never moves back) or names the interval form or second expression to parse next, from a later position with the same indentation stack |
| Parsing.Parser.AfterFirst | parser.js:111-180 | the tokens after the first expression give exactly the step of `StatementAfter`, and the cursor lands where that step says |
| Parsing.Parser.Finish | parser.js:111-180 | the body or second expression that completes an interval statement gives exactly `FinishStatement` |
| Parsing.FinishStatement | parser.js:111-180 | completing a statement never moves the cursor back and leaves the indentation stack unchanged on success |
| Parsing.WithBody | parser.js:111-180 | an interval statement takes its cursor from its body's parse, and succeeds only when the body does; the result is always one of the four interval forms |
| Parsing.WithBodyForm | parser.js:111-180 | a successful interval statement is of the requested form, with the first expression as its bound |
| Parsing.FinishForms | parser.js:111-180 | a finished step is the statement's result as it stands; a body step yields the named form; a second expression yields `StatementBetween` |
| Parsing.LeadingTNeedsArrow | parser.js:105-137 | a statement that starts with `t` but not `t ->` fails with the "to or through" error at the `t` |
| Parsing.LeadingTSteps | parser.js:105-137 | after `t -> e`, a line break means `StatementTo`, `-> t` and a line break mean `StatementThrough`, and anything else fails |
| Parsing.PlainSteps | parser.js:140-180 | after a plain first expression: `-> t` and a line break mean `StatementFrom`; `-> t ->` means a second expression; `->` without `t` fails. A plain statement ends at a line break (consumed), an indentation or end of file (not consumed), with the expression unchanged; any other token fails with the "expected a linebreak" error |
| Parsing.LeadingTForms | parser.js:105-137 | a successful statement starting `t ->` is `StatementTo` or `StatementThrough` over the expression after the arrow |
| Parsing.ToOrThroughChoice | parser.js:111-130 | that statement is `StatementTo` exactly when a line break follows the expression, and `StatementThrough` exactly when `-> t` and a line break follow it |
| Parsing.PlainStatementForms | parser.js:140-180 | a successful plain statement is an interval exactly when `->` follows its first expression; `StatementFrom` and `StatementBetween` take that expression as their start and need the tokens the code checks for |
| Parsing.ArrowNeedsT | parser.js:150-165 | a first expression followed by `->` without `t` makes the statement fail |
| Parsing.PlainStatementEnds | parser.js:171-178 | a successful non-interval statement is the expression itself and ends where the code says; any other following token fails with the "expected a linebreak" error at that token |
| Parsing.Parser.Expression | parser.js:183-185 | the imperative `expression` gives exactly `ParseExpression` |
| Parsing.ParseExpression | parser.js:183-185 | the cursor only moves forward; a success leaves the indentation stack unchanged |
| Parsing.ExpressionIsNoInterval | parser.js:183-195 | an expression is a right-folded assignment chain and never an interval statement |
| Parsing.Parser.ExpressionAssignment | parser.js:187-195 | the imperative `assignment` gives exactly `ParseAssignment` |
| Parsing.ParseAssignment | parser.js:187-195 | the cursor only moves forward; a success leaves the indentation stack unchanged |
| Parsing.AssignmentFoldsRight | parser.js:187-195 | `a = b = c` nests to the right: every assignment's left side is an additive expression and its right side is again an assignment chain |
| Parsing.Parser.ExpressionAdditive | parser.js:197-209 | the imperative `additive` gives exactly `ParseAdditive` |
| Parsing.Parser.AdditiveOperators | parser.js:199-207 | the loop over `+` and `-` gives exactly `AdditiveTail` from the left operand already parsed |
| Parsing.ParseAdditive | parser.js:197-209 | the cursor only moves forward; a success leaves the indentation stack unchanged |
| Parsing.AdditiveTail | parser.js:199-207 | the cursor only moves forward; a success leaves the indentation stack unchanged |
| Parsing.AdditiveNode | parser.js:201-205 | `+` and `-` build an addition or subtraction node over the two operands |
| Parsing.AdditiveTailFoldsLeft | parser.js:199-207 | the loop nests to the left: each new node takes the tree built so far as its left operand and a multiplicative expression as its right |
| Parsing.AdditiveFoldsLeft | parser.js:197-209 | a whole additive expression is a left-folded chain over multiplicative operands |
| Parsing.Parser.ExpressionMultiplicative | parser.js:211-225 | the imperative `multiplicative` gives exactly `ParseMultiplicative` |
| Parsing.Parser.MultiplicativeOperators | parser.js:213-223 | the loop over `*`, `/` and `%` gives exactly `MultiplicativeTail` |
| Parsing.ParseMultiplicative | parser.js:211-225 | the cursor only moves forward; a success leaves the indentation stack unchanged |
| Parsing.MultiplicativeTail | parser.js:213-223 | the cursor only moves forward; a success leaves the indentation stack unchanged |
| Parsing.MultiplicativeNode | parser.js:215-221 | `*`, `/` and `%` build a multiply, divide or remainder node over the two operands |
| Parsing.MultiplicativeTailFoldsLeft | parser.js:213-223 | the loop nests to the left over property-expression operands |
| Parsing.MultiplicativeFoldsLeft | parser.js:211-225 | a whole multiplicative expression is a left-folded chain |
| Parsing.Parser.ExpressionProperty | parser.js:227-235 | the imperative `property` gives exactly `ParseProperty` |
| Parsing.Parser.PropertyOperators | parser.js:229-233 | the loop over `.` gives exactly `PropertyTail` |
| Parsing.ParseProperty | parser.js:227-235 | the cursor only moves forward; a success leaves the indentation stack unchanged |
| Parsing.PropertyTail | parser.js:229-233 | the cursor only moves forward; a success leaves the indentation stack unchanged |
| Parsing.PropertyTailFoldsLeft | parser.js:229-233 | `a.b.c` nests to the left, each property node having an atom on its right |
| Parsing.PropertyFoldsLeft | parser.js:227-235 | a whole property expression is a left-folded chain over atoms |
| Parsing.Parser.Atom | parser.js:248-355 | the imperative `atom` gives exactly `ParseAtom`, branch by branch |
| Parsing.ParseAtom | parser.js:248-355 | the cursor only moves forward; a success is an atom (a literal, an identifier, `t`, a vector, a call, a `for`, `repeat` or `with`) and leaves the indentation stack unchanged |
| Parsing.Parser.AtomFor | parser.js:261-284 | the `for` branch gives exactly `ParseFor` |
| Parsing.ParseFor | parser.js:261-284 | the branch consumes at least the `for` token; a success is a `for` loop (or undefined, as the code can return) |
| Parsing.ForParts | parser.js:261-284 | `for` not followed by an expression gives undefined just past `for`; a header `for j from a to b`, a line break and a block that parse give the loop over exactly those parts with step 1, spanning `for` to the block |
| Parsing.Parser.AtomVector | parser.js:285-302 | the vector branch gives exactly `ParseVector` |
| Parsing.ParseVector | parser.js:285-302 | the branch consumes at least the `[`; a success is a vector (its elements: `Parsing.VectorCollects`) |
| Parsing.VectorTail | parser.js:288-299 | the cursor only moves forward; a successful element list stops at `]` (what it collects: `Parsing.VectorTailKeepsElements`, `Parsing.VectorTailStep`) |
| Parsing.VectorTailKeepsElements | parser.js:288-299 | the elements already collected stay, in order, at the front of the final list |
| Parsing.VectorTailStep | parser.js:288-299 | at `]` the list is what was collected; otherwise an expression is read: then `]` ends the list with that expression added, `,` goes on after the comma with it added, and a failed expression fails the list with its error |
| Parsing.VectorCollects | parser.js:285-302 | a vector literal succeeds exactly when its element list does; it holds exactly those elements, spans the `[` to the `]` and leaves the cursor past the `]` |
| Parsing.VectorStartsAfterBracket | parser.js:288-291 | a nonempty vector literal starts with the expression right after the `[` |
| Parsing.VectorNeedsCommas | parser.js:292-297 | an element followed by neither `,` nor `]` fails with the "expected a comma" error over the element and that token |
| Parsing.Parser.AtomCall | parser.js:303-325 | the call branch gives exactly `ParseCall` |
| Parsing.Parser.ActualParameters | parser.js:309-316 | the loop over actual parameters gives exactly `Actuals` |
| Parsing.ParseCall | parser.js:303-325 | the branch consumes at least the name; a success is a function call |
| Parsing.Actuals | parser.js:309-316 | the cursor only moves forward; a success leaves the indentation stack unchanged |
| Parsing.ActualsTail | parser.js:311-315 | the cursor only moves forward; a success leaves the indentation stack unchanged |
| Parsing.ActualsTailKeeps | parser.js:311-315 | the arguments already collected stay, in order, at the front; the loop stops where no `,` followed by an expression comes |
| Parsing.ActualsKeep | parser.js:309-316 | the argument list is empty exactly when no expression can start after `(`; otherwise it starts with that expression and stops where no `,` and expression follow |
| Parsing.CallCollects | parser.js:303-325 | a call succeeds exactly when its arguments parse and `)` follows them; the call holds the name and exactly those arguments, spans the name to the `)` and leaves the cursor past it |
| Parsing.CallNeedsArgumentOrParenthesis | parser.js:318-323 | `f(` followed by a token that cannot start an expression and is not `)` fails with the "expected a right parenthesis" error over the name and that token |
| Parsing.RealFirstArgumentRejected | parser.js:237-246 | as written, `f(1.5)` fails because a real literal cannot start an argument list |
| Parsing.FirstOfExpressionKinds | parser.js:237-246 | `has` tests the kind of the token at an offset and is false past the end; `isFirstOfExpression` accepts exactly integer, `t`, boolean, string, identifier, `[`, `repeat` and `for`, so not a real literal, `with` or `)` |
| Parsing.SimpleAtomPassesThrough | parser.js:183-235 | a literal, or a name or `t` not followed by `(`, that ends its line is an atom located at its token, with the cursor just past it, and `property`, `multiplicative`, `additive`, `assignment` and `expression` all give that same atom |
| Parsing.SimpleAtomStatement | parser.js:171-178 | such an atom opening a statement is the whole statement; a line break after it is consumed, an indentation or end of input is not |
| Parsing.StatementLine | parser.js:79-90 | a line of the block's depth holding a statement that parses adds that statement and the loop goes on after it |
| Parsing.LastSimpleLine | parser.js:79-90 | a last line holding such an atom before end of input adds the atom and the loop stops at end of input |
| Parsing.BlockOfLines | parser.js:66-102 | a block whose lines succeed is a block of exactly those statements, spanning the first to the last, with the indentation stack restored |
| Parsing.OneLineBlock | parser.js:66-102 | a block of one line holding such an atom is the block of that atom, spanning its location |
| Parsing.OneLineProgram | parser.js:58-64 | a program of one such line parses to that block, the end of input following it |
| Parsing.Parser.AtomRepeat | parser.js:326-335 | the `repeat` branch gives exactly `ParseRepeat` |
| Parsing.ParseRepeat | parser.js:326-335 | the branch consumes at least `repeat`; a success is a repeat |
| Parsing.RepeatParts | parser.js:326-335 | `repeat` succeeds exactly when its count parses, a line break follows and the block parses; the result is the repeat of that count and block, spanning `repeat` to the block; a count without a line break fails with the code's error over `repeat` and the count |
| Parsing.Parser.AtomWith | parser.js:340-349 | the `with` branch gives exactly `ParseWith` |
| Parsing.ParseWith | parser.js:340-349 | the branch consumes at least `with`; a success is a with-expression |
| Parsing.WithParts | parser.js:340-349 | `with` succeeds exactly when its scope parses, a line break follows and the block parses; the result is the with-expression of that scope and block, spanning `with` to the block; a scope without a line break fails with the code's error |
| Common.Clone | src/common.js:69-71 | a clone is a location equal to the original |
| Common.Contains | src/common.js:65-67 | a location that contains a point has its start no later than its end, allowing the one column past the end |
| Common.Span | src/common.js:80-82 | spanning a location with itself gives it back, and a span reaching at least as far contains every point the first location contains |
| Common.Reify | src/common.js:84-90 | a location comes back exactly when a record is given, and its record is the one given |
| Common.ReifyToPod | src/common.js:84-90 | reifying a location's record gives the location back |
| Common.SpanOfItself | src/common.js:80-82 | the span of a location with itself is that location |
| Common.SpanAssociative | src/common.js:80-82 | spans compose associatively and only the outer two locations matter |
| Common.SpanCovers | src/common.js:65-82 | a span reaching at least as far as `a` contains every point that `a` contains |
| Common.ContainsOnePastEnd | src/common.js:65-67 | `contains` accepts the column one past the end and rejects the column after that |
| Common.Digits | src/common.js:73-78 | a natural number prints as a nonempty string of digits with no leading zero |
| Common.NumberToString | src/common.js:73-78 | an integer prints as a nonempty string with no colon, starting with `-` exactly when it is negative |
| Common.DigitsValueOfDigits | src/common.js:73-78 | printed digits read back as the number printed |
| Common.NumberToStringRoundTrip | src/common.js:73-78 | every printed integer reads back as itself |
| Common.TakeFieldOfColonFree | src/common.js:73-78 | the colon after a field that has none of its own marks where the field ends |
| Common.ReadNumberOfString | src/common.js:73-78 | a printed integer followed by a colon reads back as the integer and the rest |
| Common.DebugPrefix | src/common.js:73-78 | the debug prefix is nonempty and ends with a colon |
| Common.UserMessage | src/common.js:117-126 | the user message is longer than the message and ends with it |
| Common.UserMessageRoundTrip | src/common.js:117-126 | the location and the message can be recovered from the user message |
| Common.UserMessageInjective | src/common.js:117-126 | two errors with the same user message have the same location and the same message |
| Common.PrecedenceStrictlyOrdered | src/common.js:149-163 | the thirteen levels are strictly ordered from atom down to assignment |
| Common.Precedence | src/common.js:149-163 | a precedence lies between 15 and 100; 100 exactly for atoms and 15 exactly for assignment |
| Common.Mop | src/common.js:167 | the mapped object has the same keys, each value transformed |
| Common.MopComposes | src/common.js:167 | mapping twice is mapping once by the composition |
| Common.MopIdentity | src/common.js:167 | mapping by the identity changes nothing |
| Values.Arithmetic | builtins.js:188-299 | a receiver that is not a number throws TypeError, and an operand that is not a number throws '...'; two integers give an integer, and any real makes the result real |
| Values.ArithmeticIsTheOperation | builtins.js:192-299 | on numbers (other than integer by integer division or remainder), the result is the mathematical operation on the two numbers, and not finite exactly when the divisor is zero |
| Values.Apply | builtins.js:192-240 | a real operation fails exactly for division or remainder by zero, and a quotient times the divisor gives the dividend back |
| Values.FloorOfQuotient | builtins.js:224 | the floor of the real quotient of naturals is their integer quotient |
| Values.TruncatedQuotient | builtins.js:224 | `Math.trunc` of a quotient rounds toward zero: the quotient of the magnitudes, negated when the signs differ |
| Values.Trunc | builtins.js:224 | `Math.trunc` of a real: for a nonnegative real the greatest integer not above it, for a negative one the least integer not below it |
| Values.IntRemainder | builtins.js:232-240 | `%` on integers takes the sign of the dividend and the remainder of the magnitudes, so it is smaller than the divisor in magnitude |
| Values.RealRemainder | builtins.js:293-299 | JavaScript `%` with a real operand: the dividend is `trunc(x / y) * y + r`, `r` is never of the opposite sign to the dividend, and `r` is strictly smaller than the divisor in magnitude |
| Values.TruncatedRemainder | builtins.js:232-240 | `x - y * trunc(x / y)` is the remainder of the magnitudes with the sign of the dividend, so `x == trunc(x / y) * y + x % y` |
| Values.DivisionExamples | builtins.js:222-240 | 7 / 2 is 3, -7 / 2 is -3, -7 % 2 is -1, 7 % -2 is 1, and 1 / 0 is not finite |
| Values.ArithmeticAsWritten | builtins.js:192-299 | as written every operation throws: the operand checks come first, then the bare `get()` |
| Values.AsWrittenAdditionThrows | builtins.js:194 | as written `1 + 2` throws a ReferenceError where the intended methods give 3 |
| Values.AsWrittenAgreesOffNumbers | builtins.js:192-299 | the written and the intended methods agree exactly when one side is not a number |
| Values.VectorGet | builtins.js:160-162 | `get(i)` returns element `i` of the vector exactly when `i` is in range |
| Values.OperandAt | builtins.js:175-177 | `other.get(i)` is defined exactly for a numeric or vector operand; a vector operand answers through `Values.VectorGet` |
| Values.Interpolate | builtins.js:175-303 | interpolating a vector gives a vector of the same length; interpolating a number gives a real |
| Values.InterpolateFrom | builtins.js:175-177 | mapping the rest of a vector from index `i` gives the rest of the elements |
| Values.InterpolateFromElementwise | builtins.js:175-177 | toward a vector at least as long, mapping from index `i` succeeds exactly when every element from `i` interpolates toward the element at the same index of the other, and element `k - i` of the result is that interpolation; extra elements of the other vector are ignored |
| Values.InterpolateNumbers | builtins.js:242-303 | a number interpolates toward a number by `a + p * (b - a)` |
| Values.InterpolateNumber | builtins.js:242-303 | a number interpolates exactly toward a number, giving a real that is the start at 0 and the end at 1 |
| Values.InterpolateNumberLine | builtins.js:242-303 | interpolating between numbers gives the start at 0 and the end at 1, and for 0 <= p <= 1 stays between them |
| Values.InterpolateVectorsElementwise | builtins.js:175-177 | vectors of numbers of equal length interpolate element by element, as a case of `Values.InterpolateFromElementwise` |
| Values.InterpolateShorterVectorThrows | builtins.js:175-177 | interpolating toward a shorter vector throws a TypeError when the missing element is reached |
| Values.InterpolateVectorExample | builtins.js:175-177 | `[0, 0]` halfway toward `[10, 20]` is `[5.0, 10.0]` |
| Timelines.Timeline.constructor | builtins.js:38 | a new timeline has had no setter called on it |
| Timelines.Timeline.SetDefault | builtins.js:50 | `setDefault` appends its call to the timeline's log |
| Timelines.Timeline.SetFromValue | builtins.js:45 | `setFromValue` appends its call to the timeline's log |
| Timelines.Timeline.SetToValue | builtins.js:48 | `setToValue` appends its call to the timeline's log |
| Timelines.Timeline.SetBetweenValue | builtins.js:42 | `setBetweenValue` appends its call to the timeline's log |
| Timelines.TruthyEdges | src/environment.js:270-279 | the calls a bind makes under the truthiness test: `setFromValue` first exactly when the start is truthy, `setToValue` last exactly when the end is, `setDefault` exactly when neither is |
| Timelines.PresentEdges | types.js:116-131 | the same calls under the `!= null` test of `types.js` |
| Timelines.BetweenEdges | builtins.js:41-51 | `builtins.js` makes one call: `setBetweenValue` exactly when both bounds are present, `setDefault` exactly when neither is |
| Timelines.EdgesStoreTheValue | src/environment.js:270-279 | every setter call a bind makes stores the bound value; the truthiness test makes two calls when both bounds are set and one otherwise; `setBetweenValue` is always one call |
| Timelines.TruthyAgreesWithPresentAwayFromZero | src/environment.js:270-279 | without a bound of 0, the truthiness test of `src/environment.js` and the `!= null` test of `types.js` make the same calls |
| Timelines.ZeroBoundDiffers | src/environment.js:270-279 | with a bound of 0 the two tests differ: truthiness treats it as absent, `!= null` as present |
| Timelines.BetweenDiffersOnlyWithBothBounds | builtins.js:41-51 | the first generation's `setBetweenValue` differs from the two-setter sequence exactly when both bounds are present |
| Builtins.TwovilleEnvironment.constructor | builtins.js:3-8 | a new environment has no bindings and sits on its parent's chain |
| Builtins.TwovilleEnvironment.Has | builtins.js:21-30 | true exactly when some environment on the chain binds the id |
| Builtins.TwovilleEnvironment.Get | builtins.js:10-19 | the binding of the nearest environment on the chain that binds the id; 'no such var --id--' exactly when none does |
| Builtins.TwovilleEnvironment.BindUntimelined | builtins.js:32-34 | the local binding is set, replacing any earlier one |
| Builtins.TwovilleEnvironment.BindTimelined | builtins.js:36-52 | as written, a TypeError exactly when some environment on the chain binds the id but the local binding is not a timeline; otherwise the id holds a timeline (a fresh one if unbound), no other binding changes, and the timeline gets the call the bounds select |
| Builtins.TwovilleEnvironment.BindTimelinedLocally | builtins.js:36-52 | with the local check, a TypeError exactly when the local binding exists and is not a timeline; otherwise the same calls |
| Builtins.Dispatch | builtins.js:41-51 | the timeline gets exactly the call the `!= null` bounds select, `setBetweenValue` for two |
| Builtins.ShadowedBindThrows | builtins.js:37-42 | rebinding in a child an id whose timeline lives in the parent throws as written, and succeeds with the local check |
| Builtins.UnboundLookup | builtins.js:10-30 | an id bound nowhere: `has` says false and `get` throws 'no such var --y--' |
| Types.TwovilleEnvironment.constructor | types.js:59-67 | a new environment has no bindings and sits on its parent's chain |
| Types.TwovilleEnvironment.Owns | types.js:80-82 | owning an id needs at least one binding |
| Types.TwovilleEnvironment.Has | types.js:84-93 | true exactly when some environment on the chain owns the id |
| Types.TwovilleEnvironment.Get | types.js:69-78 | the binding of the nearest environment on the chain that owns the id; none exactly when no environment owns it |
| Types.TwovilleEnvironment.Bind | types.js:95-131 | an untimelined bind sets the binding and ignores the bounds; a timelined bind creates a local timeline when there is no local binding, throws TypeError exactly when the local binding is not a timeline, and otherwise calls `setFromValue`/`setToValue` as the `!= null` bounds select |
| Types.ShapeCounter.constructor | types.js:137 | the counter starts at 0 with no ids handed out |
| Types.ShapeCounter.InitializeShapes | types.js:139-141 | the counter restarts at 0 |
| Types.IssuedDistinct | types.js:151-152 | the ids handed out since a reset are all different |
| Types.TwovilleShape.constructor | types.js:143-153 | a shape is a fresh timelined environment that binds exactly `stroke` (a fresh empty timelined child of the shape) and `opacity` (a timeline whose default is 1), takes the counter's serial as its id and advances the counter |
| Types.SerialAfterReset | types.js:137-153 | after a reset the first two shapes get ids 0 and 1 |
| Types.RectangleDrawCheck | types.js:681-690 | drawing needs exactly one of `corner` and `center`, and `size` (known on the chain); both set, or neither set, throws its own message, checked before `size` |
| Types.LineDrawCheckAsWritten | types.js:511-514 | as written the check passes exactly for two nodes and always says "vertices" |
| Types.LineDrawCheck | types.js:511-514 | the corrected check passes exactly for two nodes and says "vertex" for exactly one |
| Types.LineMessage | types.js:511-514 | the line message carries the count and the noun at their places in the text |
| Types.LineMessageForOneNode | types.js:513 | for one node the written message says "1 vertices" and the corrected one "1 vertex"; the two agree for every other count |
| Types.ArcFlags | types.js:465-486 | sweep is 1 exactly for direction 0; large is 1 exactly when the signed area is negative (direction 0) or positive (other directions) |
| Types.ArcFlagsMirror | types.js:470-486 | switching the direction flips sweep and, for a nonzero area, flips large; it matches negating the area |
| Types.SignedAreaAntisymmetric | types.js:465 | swapping the two vectors negates the signed area |
| Types.SignedArea | types.js:465 | the signed area is zero exactly when the two vectors are parallel, in particular for a vector with itself |
| Environments.Root.constructor | src/shape.js:75-87 | a root, as the model assumes it, starts its serial counter at 0 with no shapes; `initialize` reads and advances that counter |
| Environments.Environment.constructor | src/environment.js:59-71 | a new environment has no properties or functions, keeps its parent and location, and shares its parent's root |
| Environments.Environment.Owns | src/environment.js:129-131 | an environment with no properties owns nothing; one that is not timelined owns exactly its untimed properties |
| Environments.Environment.Knows | src/environment.js:134-143 | true exactly when some environment on the chain owns the id |
| Environments.Environment.Get | src/environment.js:288-299 | the nearest binding on the chain, untimed before timed within one environment; none exactly when no environment binds the id |
| Environments.Environment.BindFunction | src/environment.js:112-114 | the function is bound locally and nothing else changes |
| Environments.Environment.HasFunction | src/environment.js:116-118 | true exactly when some environment on the chain defines the function |
| Environments.Environment.GetFunction | src/environment.js:120-126 | the nearest definition on the chain; none exactly when no environment defines it |
| Environments.Environment.AssertProperty | src/environment.js:145-149 | passes exactly when the property is owned here; otherwise the error is located at the environment |
| Environments.Environment.BindUntimed | src/environment.js:108-110 | the untimed property is set and nothing else changes |
| Environments.Environment.Bind | src/environment.js:249-281 | an id its kind does not time becomes an untimed property; a timed id gets a timeline (a fresh one when it had none), no other property changes, and the timeline's log grows by the calls the truthy bounds select, copying a bound timeline's boundary values |
| Environments.TimelineBindCopiesBoundaries | src/environment.js:259-269 | binding a timeline stores only its boundary values: both from and to when both bounds are truthy, its default when neither is |
| Environments.LocalBinding | src/environment.js:288-299 | the binding found right here: an untimed property first; without the timed lookup, found exactly when the id is an untimed property |
| Environments.LocalBindingOwned | src/environment.js:288-299 | with the timed lookup a binding is found right here exactly when the environment owns the id |
| Environments.TimedCalls | src/environment.js:259-279 | a bind makes two calls when both bounds are truthy and one otherwise, `setFromValue` first exactly when the start is truthy and `setToValue` last exactly when the end is; an untimed value is what every call stores |
| Kinds.NothingTimed | src/shape.js:1663-1699 | masks, cutouts and plain or bare timelined environments time nothing |
| Kinds.OpacityTimedKinds | src/shape.js:1605-1734 | a shape times `opacity` unless it is a group, mask, cutout or tip |
| Kinds.EnabledTimedKinds | src/shape.js:1605-1734 | every shape times `enabled` except masks and cutouts |
| Kinds.TimedIdsDistinct | src/shape.js:475-1734 | no `timedIds` list names a property twice |
| Kinds.TimedIds | src/shape.js:475-1734 | only timelined environments time anything, and every shape other than a mask or cutout ends its list with `enabled` |
| Kinds.IsTimed | src/environment.js:301-303 | a timed id is a nonempty name of a timelined environment |
| Kinds.TypeName | src/shape.js:475-1734 | every kind has a nonempty type name |
| Kinds.Article | src/shape.js:475-1734 | the article of a timelined kind is "a" or "an", "an" exactly before a type name starting with a vowel |
| Kinds.TypeNameInjective | src/shape.js:475-1734 | different kinds have different type names |
| Shapes.Marker.constructor | src/mark.js:15-17 | a new marker holds its shape, and its id is unset until a shape numbers it |
| Shapes.Shape.constructor | src/shape.js:72-88 | a new shape holds its environment and id, with no source spans, transforms or nodes, and its marker list unset, which `initialize` never assigns |
| Shapes.Shape.AddMarker | src/shape.js:159-162 | a TypeError while the marker list is unset, changing nothing; otherwise the marker is numbered by the list's previous length and appended, nothing else changes, and markers stay numbered by their positions |
| Shapes.FreshShapeCannotMark | src/shape.js:159-162 | `addMarker` on a freshly initialised shape throws a TypeError |
| Shapes.MarkersNumberedInOrder | src/shape.js:159-162 | once the list is set up empty, the first two markers added are numbered 0 and 1 |
| Shapes.Shape.AddNode | src/shape.js:1056-1064 | a vertex shape or path refuses exactly a first node that cannot start it (vertex or turtle; jump or turtle for a path), with the message at the node's location; otherwise the node is appended; other shapes have no `addNode`; a well-started node list stays well started |
| Shapes.SentenceCase | src/shape.js:1059 | capitalising the article keeps its length and everything after the first letter |
| Shapes.Starts | src/shape.js:1056-1064 | only node shapes have a first step, never an unknown one; a turtle starts exactly the node shapes |
| Shapes.FirstStepMessage | src/shape.js:1056-1064 | the message opens with "I saw a path whose first step is " for a path and "I saw <article> <type> whose first step is " for another shape, then names the node type and goes on |
| Shapes.DefaultsPartition | src/shape.js:79-80 | each of `opacity` and `enabled` lands in exactly one of the untimed and timed properties; masks and cutouts keep both untimed |
| Shapes.BindDefaults | src/shape.js:79-80 | binding the defaults gives exactly the untimed and timed defaults for the kind, each timed one a fresh timeline whose single call sets its default |
| Shapes.BindTransforms | src/shape.js:81-84 | the four transform functions are bound, each tied to the shape |
| Shapes.Initialize | src/shape.js:72-88 | the base `Shape.initialize`: a TypeError exactly when no root can be reached. Otherwise a fresh shape of the kind whose id is the root's serial; the serial advances and the shape is appended to the root's shapes; the defaults and transform functions are bound; no nodes, and the marker list unset |
| Shapes.IsCutoutChild | src/shape.js:252-254 | false without a local `parent`; true only through a local parent that is a shape environment |
| Shapes.CutoutFuelMonotone | src/shape.js:252-254 | once the walk has an answer, a deeper stack does not change it |
| Shapes.OwnParentNeverEnds | src/shape.js:252-254 | a shape that is its own parent runs out of stack whatever the depth |
| Shapes.ParentLinks | src/shape.js:252-254 | a cutout parent gives true; a shape parent passes the question up one level; a parent that is not a shape throws |
| Shapes.ConfigureColor | src/shape.js:1829-1862 | passes exactly when neither `opacity` nor `color` is malformed and a colour is set whenever the opacity is positive somewhere (its default or an end of an interval); a malformed opacity is reported before a malformed colour, and a missing colour says "I found a/an <type> whose color isn't set." at the shape |
| Shapes.RectangleConfigureState | src/shape.js:719-774 | passes configureState's own checks exactly when the colour checks pass, `rounding` is not malformed, `size` is well formed and exactly one of `corner` and `center` is set and well formed; each failing case throws its own message, in the code's order, the colour checks first |
| Shapes.DomNodes | src/shape.js:1154 | the drawn nodes are those of the list with `isDom`, in order, and all of them when every node is drawn |
| Shapes.PolygonConfigureState | src/shape.js:1150-1161 | passes configureState's own checks exactly when there are at least three drawn nodes and the colour checks pass; too few nodes is reported first, at the shape, and otherwise the colour checks decide |
| Shapes.LineConfigureState | src/shape.js:1336-1347 | passes exactly when there are two drawn nodes; the error is located at the shape |
| Shapes.HiddenNodesIgnored | src/shape.js:1154 | a node that is not drawn changes neither the polygon nor the line verdict |
| Shapes.DomNodesAppend | src/shape.js:1154 | filtering distributes over concatenation |
| Shapes.LineGenerationsAgree | src/shape.js:1340-1343 | for lines whose nodes are all drawn, the current check and the `types.js` draw check accept the same lines |
| Shapes.RectangleGenerationsAgree | src/shape.js:719-773 | when the colour checks pass, for well-formed properties the current check and the `types.js` draw check accept the same rectangles |
| Shapes.ColorlessShapes | src/shape.js:1829-1862 | a rectangle or a polygon with three drawn nodes, a positive opacity and no colour throws "whose color isn't set" at the shape, whatever its other properties |
| Shapes.TransparentNeedsNoColor | src/shape.js:1850-1862 | an opacity never positive needs no colour |

## Left out

- The token list is an input. The lexer, `token.js` and `ast.js` are not
  part of this model:
  - tokens are modelled with the shape `src/common.js` gives them;
  - expression nodes are a datatype with the fields the parser fills in;
  - literal values keep their source text, because `Number()` and floating
    point parsing are not modelled.
- `timeline.js` is not part of this model. A `Timeline` records the setter
  calls made on it, which is everything a bind decides. A bound timeline's
  `intervalFrom`, `intervalTo` and `getDefault` answers are passed in as
  `Boundaries`.
- Floating point is not modelled. Numbers are mathematical reals, and
  infinities and NaN collapse into `NotFinite`, which is followed no further.
- Not modelled:
  - the DOM and SVG work of `configureState`, `draw` and the `update*Dom`
    methods;
  - `console.log`;
  - `mark.js`;
  - `main.js`;
  - the evaluation of expressions.
- Only the `configureState` decisions of `Rectangle`, `Polygon` and
  `Line` are modelled. The per-property validators (`assertScalar`,
  `assertList`) belong to `timeline.js`: each property comes in as absent,
  malformed (with its error) or well formed. The drawing of other shapes is
  DOM work only.
- Shapes.RectangleConfigureState, Shapes.PolygonConfigureState,
  Shapes.LineConfigureState: `configureFill` is modelled by its colour half,
  `configureColor`, as `Shapes.ConfigureColor`. Not modelled:
  - `configureStroke`, the stroke checks of `configureFill` and of `Line`;
  - `configureNodes`, the checks of each node.

  A shape these checks would refuse may therefore pass the model.
- Shapes.Shape.constructor, Shapes.Initialize, Environments.Root.constructor:
  - Only the base `Shape.initialize` (src/shape.js:72-88) is modelled, plus
    the empty node list of node shapes.
  - Not modelled: the subclasses' additions, which are the `stroke` of
    `initializeFill` (src/shape.js:1819-1822), the vertex and turtle
    functions (src/shape.js:1176-1184, 1265-1272) and the `children` of
    groups (src/shape.js:1610-1613).
  - A root whose serial starts at 0 with no shapes is an assumption of the
    model. None of the modelled files builds a root.
  - None of the modelled files creates a shape's marker list: the code that would, at
    src/shape.js:152-153, is commented out. The model keeps the list unset,
    so `addMarker` throws.
- Environments.Environment.GetFunction: `getFunction` reads
  `this.functions[id]` without `hasOwnProperty` (src/environment.js:121). A
  name inherited from `Object.prototype`, such as `toString`, is therefore
  found as a native function in the first environment, while `hasFunction`
  says it is not defined. The model's function maps hold only defined
  functions, so it returns none there.
- Builtins.TwovilleEnvironment.constructor: a parentless environment stands
  for the record that main.js:134 builds (`{svg, shapes: [], bindings: [],
  parent: null}`). Its `bindings` array owns `length`, so `has('length')`
  is true in the code and false in the model. `new TwovilleEnvironment(null)`
  itself would throw at builtins.js:5.
- `sentenceCase` is imported from `src/common.js` but its definition is not
  part of this model. `Shapes.SentenceCase` capitalises a lowercase ASCII
  first letter.
- Shapes.IsCutoutChild: a `fuel` bound stands for the JavaScript stack. A
  cycle of `parent` links ends in `TooDeep`, standing for the stack overflow
  the code would raise.
- Parsing.Parser.Rest, Parsing.Parser.AfterExpression, Parsing.Parser.AfterFirst, Parsing.Parser.Finish, Parsing.Parser.Lines and Parsing.Parser.ActualParameters: in the code these are the
  middle and end of `statement`, the loop of `block` and the argument loop
  of `atom`. The model splits them into methods so that each is proved on
  its own; the order of token tests is unchanged.
- Parsing.RealFirstArgumentRejected: `isFirstOfExpression` leaves out real
  literals and `with`, so `f(1.5)` does not parse. The model follows the
  code, as this may be the language's intent.
- Parsing.Text: the wording of parser errors is kept apart from the
  parser's logic, as a message datatype. The errors carry their locations
  as the code computes them.
- A block whose only lines are blank has no statements, so
  `sourceStart` and `sourceEnd` keep their initial `null` and the span
  reads a property of `null`. The model
  returns a TypeError there.
- Types.RectangleDrawCheck: the three errors are plain message strings. The
  location of the call that made the shape, which `types.js` attaches to
  each (types.js:209-213 for `size`), is not modelled.
- Types.ArcFlags: models only the large-arc and sweep flags of the arc
  path. The path string and the vector arithmetic that feeds it are left out.
- Intrinsic functions and the built-in values of each generation's global
  environment are named, not modelled.

## Findings

| source | as written | input that shows it | evidently intended | confidence | as-written member | corrected member |
|---|---|---|---|---|---|---|
| builtins.js:194 | `add` (and every arithmetic method of the Integer and Real values, builtins.js:192-299) calls a free `get()`, which has no binding, so the method throws a ReferenceError | `new TwovilleInteger(1).add(new TwovilleInteger(2))` | `this.get()`, giving the Integer 3 | not executed | Values.AsWrittenAdditionThrows | Values.Arithmetic |
| builtins.js:37-42 | `bindTimelined` creates a timeline only when no environment on the whole chain binds the id, then calls a setter on the local binding; an id bound only in a parent leaves the local binding undefined, and the call throws a TypeError | bind `x` in the global environment, then bind `x` at time 1 in a child | test only the local binding, as `types.js:116-119` does, so the child gets its own timeline | not executed | Builtins.ShadowedBindThrows | Builtins.TwovilleEnvironment.BindTimelinedLocally |
| types.js:513 | the line's error message picks "vertex" or "vertices" by `this.nodes.size`, which an array does not have, so it always says "vertices" | a line with one node: "a line that had 1 vertices" | `this.nodes.length == 1`, giving "1 vertex" | not executed | Types.LineMessageForOneNode | Types.LineDrawCheck |
