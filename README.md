# Calculator engine

A Dafny model of the arithmetic core of a desktop-style calculator page
(`script/script.js`). The core is one state machine. It keeps four values:
the display text `current`, the pending left operand `previous`, the
pending `operator`, and the flag `waitingForNew`. Beside them sit a memory
register and a history log. The log is capped at 50 entries and holds the
newest entry first.

Modules:

- `Text`: JavaScript's `\s` and line-terminator character classes. It also
  defines *display text*, the shape of everything the display shows:
  non-empty, no leading white space, no `=`, on one line, at most one
  decimal point.
- `Numbers`: the number type `Float` (a real, ±infinity or NaN) and the
  guards the engine tests (`=== 0`, `< 0`, `isFinite`, `Number.isInteger`,
  the 10^12 and 10^-9 thresholds). It also holds `FormatResult`. The IEEE-754
  operations are the fields of a `FloatLib` record: `parseFloat`,
  `String(n)`, `toExponential(9)`, `toFixed(9)`, `+ - * /` and `Math.sqrt`.
  The calculator is built over any such record. `WellBehaved(lib)` is the
  assumption the calculator makes about the record: number texts are display
  text and never the word `Error`. The two error scenarios in `Chains`
  (`DivideByZero`, `ReciprocalOfZero`) also assume that the text "0" parses
  to zero.
- `Entry`: the string rules of digit entry and backspace. Digit entry
  covers the second-point guard and the exponential redisplay of texts
  longer than 18 characters, and folds over runs of keys.
- `History`: the bounded newest-first push, the text of an entry, and the
  recall parse. The recall parse is an exact model of `/=\s*(.*)$/`. It
  takes the text after the first `=` whose remainder, once leading white
  space is skipped, lies on one line.
- `Engine`: the operators, the unary functions, evaluation with its
  domain-error guards, and the class `Calculator`, whose methods update its
  fields in place. `Calculator.Valid()` is the invariant every method keeps:
  - `operator` and `previous` are both set or both cleared;
  - `current` and `previous` are display text, so `current` is never empty
    and never holds two decimal points;
  - the log has at most 50 entries;
  - every entry recalls to display text.
- `Chains`: strict left-to-right evaluation. Feed a fresh calculator the
  keys of an operand, then steps of an operator and the keys of the next
  operand, then equals. The display is then the left
  fold of the steps, and the log holds one entry for every step that did
  not hit a domain error, newest first, with only the 50 newest kept. That
  includes the steps computed implicitly when the next operator is pressed.

Points of the code's behaviour that the model keeps:

- The log is skipped only when a guard fires: a division by a zero right
  operand (`script/script.js:95`), the square root of a negative or the
  reciprocal of zero (`script/script.js:150`, `script/script.js:152`). The
  tests are at `script/script.js:107` and `script/script.js:159`. A NaN or an
  infinite result is shown as `Error` and is still logged, for example
  `Error + 1 = Error`. `Logged` keys on the guard outcome, as the code does.
- The computation that `handleOperator` runs when an operator is pressed
  while another is pending (`script/script.js:71`) goes through `compute`. It
  is logged exactly like a computation closed by `=` (`HandleOperator`,
  `EvaluateChain`).
- Digit entry replaces only a bare "0" (`script/script.js:38`), so a signed
  zero is extended rather than replaced. Type "0.5", press ± to get "-0.5",
  then backspace twice to get "-0". Typing 5 now gives "-05". The model keeps
  this: no redundant leading zero arises only for unsigned text.

## Model

| member | source | states |
|---|---|---|
| `Numbers.FormatResult` | script/script.js:120-127 | a non-finite value formats as "Error"; a finite integer inside the fixed range formats as its own number text |
| `Numbers.FormatResultIsDisplay` | script/script.js:120-127 | every formatted result is display text |
| `Numbers.FormatResultErrorIff` | script/script.js:121-126 | a formatted result is "Error" exactly when the value is not finite |
| `Entry.FreshEntry` | script/script.js:30-33 | while waiting for a new operand, a key starts the operand `d`, or "0." for the point (a fresh operand always starts with a digit); the result is display text without a redundant leading zero |
| `Entry.AppendKey` | script/script.js:38-39 | a digit typed on a lone "0" replaces it; every other key adds exactly one character at the end. Once the second-point guard has passed, the operand stays display text (so at most one decimal point), and no unsigned "0d" prefix arises |
| `Entry.Typed` | script/script.js:36-45 | a second point is ignored; a key that leaves the text within 18 characters is typed as `AppendKey` types it; the operand stays display text, the exponential redisplay included |
| `Entry.TypeKeys` | script/script.js:29-48 | typing a run of keys one by one keeps the operand display text |
| `Entry.Operand` | script/script.js:29-48 | the operand a run of keys enters after an operator: the first key starts it, the rest extend it; it is display text |
| `Entry.TypedRun` | script/script.js:36-45 | after a text other than "0", a run of keys with at most one point in all that stays within 18 characters is appended as it is |
| `Entry.Backspaced` | script/script.js:131-135 | length 1, or "-" with one more character, resets to "0"; otherwise exactly the last character goes (a prefix one shorter); non-empty stays non-empty |
| `Entry.BackspacedKeepsDisplay` | script/script.js:131-135 | backspace keeps display text display text |
| `History.Pushed` | script/script.js:163-165 | the new entry is at index 0, older entries follow in order, and the length is one more, capped at 50 |
| `History.PushedRecalls` | script/script.js:163-165 | pushing a recallable entry keeps every entry of the log recallable |
| `History.SkipWhitespace` | script/script.js:212 | `\s*` removes a prefix made only of white space and stops at a non-white-space character |
| `History.RecallParse` | script/script.js:212-214 | the captured text is a proper suffix of the entry, lies on one line and does not start with white space; a text without `=` gives no match |
| `History.RecallAfterFirstEquals` | script/script.js:212-214 | the capture is the text after the first `=`, with leading white space skipped |
| `History.RecallSummary` | script/script.js:212-214 | recalling an entry "lhs = result" whose lhs has no `=` gives back exactly the result, so the entry text and the recall are inverse |
| `Engine.OperatorSymbol` | script/script.js:110-118 | each operator's symbol is one display character |
| `Engine.OperatorSymbolInjective` | script/script.js:110-118 | distinct operators get distinct symbols |
| `Engine.UnaryName` | script/script.js:159 | an action name contains no `=`, so a unary entry recalls its result |
| `Engine.Evaluate` | script/script.js:84-97 | a binary computation fails exactly when it divides by a zero right operand |
| `Engine.UnaryOutcome` | script/script.js:149-155 | a unary function fails exactly for the square root of a negative or the reciprocal of zero |
| `Engine.ResultText` | script/script.js:101 | a result text is display text, and it is "Error" exactly after a guarded error or for a result that is not finite |
| `Engine.LoggedRecalls` | script/script.js:107 | logging an outcome keeps the log within 50 entries, every entry stays recallable, and a logged entry recalls exactly the displayed result |
| `Engine.Calculator.constructor` | script/script.js:9-16 | initial state: "0", nothing pending, not waiting, memory 0, empty history |
| `Engine.Calculator.InputDigit` | script/script.js:29-48 | while waiting: starts the operand and clears the flag. Otherwise the operand becomes `Typed` of the key: a second point changes nothing, and a text over 18 characters is redisplayed in exponential notation. The rest of the state is unchanged. |
| `Engine.Calculator.ClearAll` | script/script.js:50-56 | resets current, previous, operator and the flag; memory and history are untouched |
| `Engine.Calculator.PlusMinus` | script/script.js:58-62 | no-op on "0"; otherwise displays the string of the value times -1 |
| `Engine.Calculator.Percent` | script/script.js:64-67 | displays the string of the value divided by 100 |
| `Engine.Calculator.HandleOperator` | script/script.js:69-76 | afterwards `operator` is the new one, `previous` is the display, and the flag is set. The pending computation runs exactly when an operator was pending and the flag was clear, and it is logged unless its guard fired. |
| `Engine.Calculator.Compute` | script/script.js:78-108 | no-op without a pending pair. Otherwise it displays the result or "Error", clears both `operator` and `previous`, sets the flag, and logs "prev sym cur = result" unless a guard fired. |
| `Engine.Calculator.Backspace` | script/script.js:129-137 | no-op while waiting; otherwise `current` becomes its backspaced text |
| `Engine.Calculator.MemoryClear` | script/script.js:140 | memory becomes 0, nothing else changes |
| `Engine.Calculator.MemoryRecall` | script/script.js:141 | displays the memory's text and clears the flag |
| `Engine.Calculator.MemoryAdd` | script/script.js:142 | memory gains the parsed display, or 0 for an empty display; nothing else changes |
| `Engine.Calculator.MemorySubtract` | script/script.js:143 | memory loses the parsed display, or 0 for an empty display; nothing else changes |
| `Engine.Calculator.ApplyUnary` | script/script.js:146-160 | displays the result or "Error" and sets the flag. It logs "op(x) = result" unless a guard fired. The pending operator stays pending. |
| `Engine.Calculator.LogOutcome` | script/script.js:107 | "lhs = result" is pushed exactly when no guard fired; the invariant is kept and nothing but the log changes |
| `Engine.Calculator.AddHistory` | script/script.js:163-167 | given a recallable entry, the log becomes the capped newest-first push of the entry and the invariant is kept; nothing else changes |
| `Engine.Calculator.ClearHistory` | script/script.js:179 | the log becomes empty; nothing else changes |
| `Engine.Calculator.RecallHistory` | script/script.js:208-218 | clicking entry i displays the text after its `=` and clears the flag |
| `Chains.TypeInto` | script/script.js:29-48 | typing keys into an operand being extended leaves the fold of the typing rule on the display and the rest of the engine as it was |
| `Chains.TypeAlone` | script/script.js:79 | a typed operand closed by `=` with nothing pending stays on the display, and nothing is logged |
| `Chains.EvaluateChain` | script/script.js:69-108 | for every run "a0 op1 a1 ... opn an =" of typed operands of any length: the display is the left-to-right fold of the steps, with no precedence, and the log holds one entry per step that did not fail, implicit steps included, newest first, with only the 50 newest kept |
| `Chains.ChainedSteps` | script/script.js:69-108 | "12 + 34 × 5 =" reads both typed operands whole, multiplies the displayed sum by 5 and logs "12 + 34 = sum" and then "sum × 5 = product" |
| `Chains.DivideByZero` | script/script.js:95 | "5 ÷ 0 =" shows "Error" and logs nothing |
| `Chains.ReciprocalOfZero` | script/script.js:152 | the reciprocal of "0" shows "Error" and logs nothing |

## Left out

- Rendering and DOM access (`updateScreen`, `flashScreen` with its timer, `renderHistory`, the class and aria toggles): user-interface side effects.
- The click and keyboard listeners are thin adapters that call the operations above. The history click handler is kept for its recall parse (`RecallHistory`). The model identifies the clicked list item with `history[i]`, because the list is re-rendered from the log after every change.
- IEEE-754 behaviour: rounding, overflow, and the text of `parseFloat`, `String(n)`, `toExponential(9)` and `toFixed(9)` are parameters (`FloatLib`), not definitions. Properties that depend on them are not proved. These include `negate(negate(x)) == x`, "Error" turning into NaN when parsed, and `20` as the text of the chained example's product.
- Finite numbers are reals with one zero. Negative zero is not modelled separately: `String(-0)` is "0", and `x === 0` holds for both zeros.
- `Numbers.FormatResult`: its contract states the non-finite and integer cases only. The exponential and rounded branches are library conversions, so nothing more is stated for them.
- The `default` fallbacks of `operatorSymbol` (returning the operator name) and of `applyUnary` (leaving the value unchanged) cannot be reached: operators and unary functions are closed datatypes.
- `Engine.Calculator.InputDigit`: keys are restricted to the digits and the decimal point, the only values the key bindings pass. The exponential redisplay of over-long entries is the library's `toExponential(9)`.
