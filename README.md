# Style snippets, modelled in Dafny

The repository is a set of TypeScript teaching snippets. Each file puts a "non-ideal" function
beside an "ideal" one. This project models four of them as Dafny functions from inputs to an
outcome and proves how each pair relates: where the two versions agree, and where they do not.

- `polymorphics.dfy` (module `Polymorphics`): the closed shape union. A `Shape` is a rectangle
  (half-width, half-height) or a circle (radius). The module also holds the designator enum and
  its iterable key list, `getWidthX2`, `printInfo`, which switches on the designator, and
  `printInfoUsingPrintingVisitor`, which dispatches through `accept` and a visitor record.
- `switch_results.dfy` (module `SwitchResults`): the three `doWork*` functions. Two are pure.
  `doWorkStillNotIdeal` is an imperative method with a mutable `result`.
- `conditional_relevance.dfy` (module `ConditionalRelevance`): a flag-selected colour printer
  beside two separate ones. It also has a record with optional fields keyed by a tag, whose
  processor throws, and the same data as a tagged union, whose processor cannot fail.
- `short_circuits.dfy` (module `ShortCircuits`): nested `if`/`else` guards beside early-`throw`
  guards.
- `effects.dfy` (module `Effects`): the optional-field type, and `Event`, one observable effect
  of a call (`Log(line)` or `Throw(message)`).

Logging and throwing are returned as data. The guard functions and both record processors
return a trace, `seq<Event<_>>`, where an `Event` is `Log(line)` or `Throw(message)`; the
declarative processor's trace is always a single `Log`. The other functions return what they
log as a plain sequence: `seq<InfoLine>` for `printInfo` and its visitor version, `seq<string>`
for the colour printers, and a `Work(result, log)` pair for the `doWork*` functions. Logged
values are structured rather than rendered template strings: the shape lines are
`WidthHeight(w, h)` or `Radius(r)`, and the record processors log `Num(n)` or `Text(s)`. JavaScript numbers are
`real`. `getWidth` is declared but never implemented in the source, so `GetWidthX2` takes it as a
function parameter. `accept` appears only as a signature. It is defined here as "call the
callback that matches the designator", which is what its visitor type implies.

## Model

| member | source | states |
|---|---|---|
| `Polymorphics.DesignatorsListEnum` | src/polymorphics/example.ts:1-16 | the key list names every enum member exactly once, and each sits at the position of its declaration: Rectangle, then Circle |
| `Polymorphics.Accept` | src/polymorphics/example.ts:21-27 | `accept` returns the `visitSquare` result for a Rectangle and the `visitCircle` result for a Circle |
| `Polymorphics.AcceptRunsMatchingCallback` | src/polymorphics/example.ts:21-27 | with callbacks that only report which of them ran, `accept` reports the shape's own designator, so no other callback is chosen |
| `Polymorphics.AcceptIgnoresOtherCallback` | src/polymorphics/example.ts:21-27 | two visitors that share the callback for the shape's own variant give the same `accept` result, whatever their other callback is |
| `Polymorphics.GetWidthX2` | src/polymorphics/example.ts:49-51 | half the result is the shape's own `getWidth()` |
| `Polymorphics.PrintInfo` | src/polymorphics/example.ts:53-65 | every shape logs exactly one line, and it is a width/height line exactly when the designator is Rectangle |
| `Polymorphics.PrintInfoSizes` | src/polymorphics/example.ts:55-63 | a rectangle logs width 2×halfWidth and height 2×halfHeight; a circle logs its radius unchanged, not doubled |
| `Polymorphics.PrintInfoDescribesShape` | src/polymorphics/example.ts:53-65 | the shape can be recovered from its logged line (sizes halved, radius as is), so two different shapes never log the same line |
| `Polymorphics.PrintInfoUsingPrintingVisitor` | src/polymorphics/example.ts:67-78 | the visitor version logs the same as the switch version for every shape |
| `Polymorphics.PrintInfoExamples` | src/polymorphics/example.ts:53-65 | half-sizes 2 and 3 log width 4 and height 6; radius 5 logs radius 5 |
| `SwitchResults.DoWorkNonIdeal` | src/concern-separation-switch-statements/short-circuit.ts:14-30 | returns false exactly for a rectangle with halfWidth < 1, and on that path it returns before logging; otherwise it logs once |
| `SwitchResults.DoWorkStillNotIdeal` | src/concern-separation-switch-statements/short-circuit.ts:35-53 | always returns false and logs exactly once; it agrees with `doWorkIdeal` only on the shapes where that one returns false |
| `SwitchResults.DoWorkIdeal` | src/concern-separation-switch-statements/short-circuit.ts:65-78 | returns false exactly for a rectangle with halfWidth < 1, true otherwise, and always logs once |
| `SwitchResults.NonIdealResultIsIdealResult` | src/concern-separation-switch-statements/short-circuit.ts:14-30 | `doWorkNonIdeal` returns the same boolean as `doWorkIdeal` for every shape |
| `SwitchResults.NonIdealLogDiffersOnEarlyReturn` | src/concern-separation-switch-statements/short-circuit.ts:17-28 | the two logs differ exactly when the result is false, i.e. on the early return |
| `SwitchResults.NonIdealCanSkipLog` | src/concern-separation-switch-statements/short-circuit.ts:17-23 | some shape takes the early return: `doWorkNonIdeal` logs nothing while `doWorkIdeal` logs its line |
| `SwitchResults.DoWorkBoundaries` | src/concern-separation-switch-statements/short-circuit.ts:17-26 | a circle yields true whatever its radius; halfWidth exactly 1 yields true because the test is strict |
| `ConditionalRelevance.DeclarativeMethodA` | src/conditional-relevance/index.ts:37-39 | logs exactly one line: the colour unchanged |
| `ConditionalRelevance.DeclarativeMethodAWithSecret` | src/conditional-relevance/index.ts:41-43 | logs exactly one line: the colour followed by ".secret" |
| `ConditionalRelevance.OpaqueMethodsAAndAWithSecret` | src/conditional-relevance/index.ts:18-32 | with the flag set it logs what `declarativeMethodAWithSecret` logs; without it, what `declarativeMethodA` logs |
| `ConditionalRelevance.OpaqueMethodsIgnoreX` | src/conditional-relevance/index.ts:18-32 | the parameter `x` never changes the output |
| `ConditionalRelevance.MethodProcessingOpaquePolymorphic` | src/conditional-relevance/index.ts:83-106 | exactly one event; it throws "shapeDefinition required…" for a shape tag without a definition, and "color required…" for a colour tag whose colour is absent or empty; otherwise it logs the coolness or the colour |
| `ConditionalRelevance.OpaqueReadsOnlyRelevantFields` | src/conditional-relevance/index.ts:86-104 | `shapeName` is never read, `color` is not read for a shape tag, and `shapeDefinition` is not read for a colour tag |
| `ConditionalRelevance.ModuleExampleThrows` | src/conditional-relevance/index.ts:114-121 | the module-level call (shape tag, name, no definition) throws "shapeDefinition required for favorite shape" |
| `ConditionalRelevance.MethodProcessingDeclarativePolymorphic` | src/conditional-relevance/index.ts:151-164 | never throws; logs the coolness for a favourite shape and the colour for a favourite colour |
| `ConditionalRelevance.EmbeddedAgreesExceptEmptyColor` | src/conditional-relevance/index.ts:83-164 | a declarative value read as the opaque record gives the same output from both processors, except an empty colour, which the opaque one rejects |
| `ConditionalRelevance.EmbeddedCanDisagree` | src/conditional-relevance/index.ts:100-102 | so the processors are not equivalent: some declarative value makes them differ |
| `ConditionalRelevance.OpaqueSuccessIsDeclarative` | src/conditional-relevance/index.ts:83-164 | every output the opaque processor logs without throwing is the output of the declarative processor for some declarative value |
| `ShortCircuits.DoNotIdeal` | src/short-circuits/index.ts:6-20 | exactly one event; completes iff a = b = c = 1; otherwise throws "a" when a ≠ 1 whatever b and c are, "b" when only b fails, "c" when only c fails |
| `ShortCircuits.DoIdeal` | src/short-circuits/index.ts:22-28 | exactly one event; throws "a", "b", "c" for a = 1, 2, 3 and completes for every other a |
| `ShortCircuits.DoIdealReadsOnlyA` | src/short-circuits/index.ts:22-28 | the outcome depends only on `a`; `b` and `c` are never read |
| `ShortCircuits.GuardStylesNeverAgree` | src/short-circuits/index.ts:6-28 | the two disagree on every input; e.g. (1, 1, 1) completes in one and throws "a" in the other, and a = 5 the other way round |
| `ShortCircuits.DoIdealIntended` | src/short-circuits/index.ts:22-28 | the corrected form of `doIdeal`: an early-throw chain with one guard per argument, proved to behave exactly like the nested guards of `doNotIdeal` (lines 6-20) on every input |
| `ShortCircuits.DoIdealCompletesWhereNestedThrows` | src/short-circuits/index.ts:22-28 | some input completes in `doIdeal` as written while `doNotIdeal` throws |

## Findings

| source | as written | input that shows it | evidently intended | confidence | as-written member | corrected member |
|---|---|---|---|---|---|---|
| src/short-circuits/index.ts:22-28 | all three guards test `a === 1`, `a === 2` and `a === 3`; `b` and `c` are never read | a = b = c = 1 throws "a" although `doNotIdeal` completes; a = 5 completes although `doNotIdeal` throws "a" | `if (a !== 1) throw 'a'; if (b !== 1) throw 'b'; if (c !== 1) throw 'c';`, the short-circuit form of `doNotIdeal` | high; not executed | `ShortCircuits.DoIdeal`, `ShortCircuits.GuardStylesNeverAgree`, `ShortCircuits.DoIdealCompletesWhereNestedThrows` | `ShortCircuits.DoIdealIntended` |

## Left out

- `console.log` output formatting. Logged values are structured data; the way JavaScript turns a number into text inside the template literals is not modelled.
- IEEE-754 behaviour of JavaScript `number`. Numbers are `real`, so NaN, ±Infinity and -0 are not modelled. They would change the `<` and `===` outcomes.
- `getWidth` has no implementation in the source. It is a function parameter of `GetWidthX2`, and nothing is assumed about it.
- Compile-time-only behaviour: TypeScript narrowing and exhaustiveness checks. Dafny's `match` over a datatype gives the same exhaustiveness. The declarative call at src/conditional-relevance/index.ts:172-178 is a deliberate type error. The type of `DeclarativeRecord` rules out that value, so it cannot be written.
- `src/obligation/obligation.ts` is not part of this model. It is an essay on structural versus nominal interfaces, and its only behaviour is returning a constant or always throwing.
- `build/src/index.js` is compiled output that duplicates `src/short-circuits/index.ts`. It is not part of this model.
- Idempotence: calling an operation twice on the same shape gives the same result. The model functions are pure, and the one method, `DoWorkStillNotIdeal`, has `ensures` clauses that fix its result completely, so this is not stated as a lemma.
