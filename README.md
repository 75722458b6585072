# Boolean schema kind of the yup validation library

This project models the boolean schema kind of yup (`src/boolean.ts`):

- the coercion transform its constructor registers, which turns a value that is
  not already a boolean into `true` or `false` when `String(value)` matches
  `/^(true|1)$/i` or `/^(false|0)$/i`, and otherwise leaves it untouched;
- the base type check `_typeCheck`, which unwraps a boxed `Boolean` and then
  asks for a primitive boolean;
- the `isTrue` / `isFalse` narrowing tests, exclusive tests named `is-value`
  whose predicates accept an absent value or exactly the primitive `true`
  (respectively `false`);
- construction: a schema of type `"boolean"` with the coercion as its transform.

Everything in the core is a pure function, so the model is made of datatypes,
functions and lemmas in three modules:

- `JsValue` (`js_value.dfy`): the JavaScript values that reach the schema
  (`undefined`, `null`, primitive and boxed booleans, strings, integral numbers,
  and any other object represented by what `String()` returns for it), the
  `String(value)` conversion with numbers printed in decimal, and `isAbsent`
  (`value == null`, i.e. `undefined` or `null`).
- `CaseFold` (`case_fold.dfy`): whole-string case-insensitive matching against a
  literal. A JavaScript regular expression with the `i` flag and no `u` flag
  compares characters after ECMAScript's Canonicalize operation, which
  upper-cases but never maps a non-ASCII character onto an ASCII one, so for the
  ASCII patterns here ASCII upper-casing of both sides is exact (the long `"ſ"`,
  which upper-cases to `S`, does not match `s`).
- `Boolean` (`boolean.dfy`): the patterns, the transform, the type check,
  the test descriptors and construction.

The transform calls the schema's `isType`, which lives in `schema.ts`; that file
is not part of this model. `Transform` therefore takes `isType` as a parameter,
and `TransformIgnoresAbsentPolicy` proves that any `isType` agreeing with
`_typeCheck` on every value other than `null`/`undefined` gives the same
transform as `Coerce`, the transform guarded by `_typeCheck` itself: the
strings `"null"` and `"undefined"` match neither pattern. The transform's
behaviour is also described independently of `String()` and of pattern
matching by `TrueToken` / `FalseToken` (a string spelled `true`/`1` or
`false`/`0` in any case, the integers 1 and 0, an object whose string form is
so spelled), and the lemmas tie the two descriptions together.

## Model

| member | source | states |
|---|---|---|
| `JsValue.NatDigits` | src/boolean.ts:30 | `String(n)` of a natural number is a non-empty digit string with no leading zero, of length one exactly for n < 10 |
| `JsValue.NatDigitsRoundTrip` | src/boolean.ts:30 | reading the decimal digits back gives the number |
| `JsValue.DecimalRoundTrip` | src/boolean.ts:30 | `String(n)` of an integer is a minus sign exactly for negatives followed by the magnitude's digits, which read back to the magnitude |
| `JsValue.DecimalShape` | src/boolean.ts:30 | `String(n)` holds only digits and `-`, and is a single character exactly for 0..9, then that digit |
| `CaseFold.MatchesCharwise` | src/boolean.ts:30-31 | an anchored `i`-flag literal match holds iff lengths agree and every character agrees after canonicalisation |
| `Boolean.TypeCheck` | src/boolean.ts:38-42 | `_typeCheck` holds exactly for a primitive boolean or a boxed `Boolean`; strings, numbers, `null`, `undefined` and other objects fail |
| `Boolean.TruePatternSpelled` | src/boolean.ts:30 | the true pattern accepts exactly `"1"` and the 16 case spellings of `"true"` |
| `Boolean.FalsePatternSpelled` | src/boolean.ts:31 | the false pattern accepts exactly `"0"` and the 32 case spellings of `"false"` |
| `Boolean.PatternsDisjoint` | src/boolean.ts:30-31 | no string matches both patterns, so the order of the two checks does not matter |
| `Boolean.DecimalSpelled` | src/boolean.ts:30-31 | the only numbers whose string form matches a pattern are 1 (true pattern) and 0 (false pattern), so `10` and `-1` never do |
| `Boolean.StringFormTokens` | src/boolean.ts:29-31 | for a value failing the type check, `String(value)` matches the true (false) pattern iff the value is a true (false) token |
| `Boolean.Coerce` | src/boolean.ts:28-34 | a typed value (primitive or boxed boolean) is returned untouched; a true token becomes `true`, a false token `false`; every other value is returned unchanged |
| `Boolean.TransformIgnoresAbsentPolicy` | src/boolean.ts:29 | the transform with any `isType` that agrees with `_typeCheck` off `null`/`undefined` equals `Coerce` on every value |
| `Boolean.CoerceIdempotent` | src/boolean.ts:28-34 | applying the transform twice gives the same result as once |
| `Boolean.CoerceOutputTyped` | src/boolean.ts:29-41 | the output passes `_typeCheck` iff the input already did or was a true or false token |
| `Boolean.CoercePreservesAbsence` | src/boolean.ts:28-34 | the output is absent iff the input was: `null` and `undefined` pass through and nothing becomes absent |
| `Boolean.CoerceExamplesCoerced` | src/boolean.ts:30-31 | `"TRUE"`, `"True"`, `"1"`, `1` and an object printing as `"1"` become `true`; `"fAlSe"` and `0` become `false` |
| `Boolean.CoerceExamplesUntouched` | src/boolean.ts:29-33 | `" true"`, `"true\n"`, `"yes"`, `"10"`, `10`, `-1`, `null`, `undefined` and boxed booleans are returned as they are |
| `Boolean.Create` | src/boolean.ts:24-35 | a new schema has type tag `"boolean"` and exactly one transform, which equals `Coerce` whenever `isType` agrees with `_typeCheck` off `null`/`undefined` |
| `Boolean.IsTrue` | src/boolean.ts:44-54 | the descriptor is named `is-value`, exclusive, carries the given message (default the locale's `isValue`) and params `{value: "true"}`, and its predicate accepts exactly absent values and primitive `true` |
| `Boolean.IsFalse` | src/boolean.ts:56-66 | the same with params `{value: "false"}` and a predicate accepting exactly absent values and primitive `false` |
| `Boolean.IsValueDescriptorsDiffer` | src/boolean.ts:44-66 | the two descriptors agree on name, exclusivity and message and differ in params; their predicates disagree exactly on `true` and `false` |
| `Boolean.IsValueOverlap` | src/boolean.ts:51-63 | the only values accepted by both predicates are the absent ones |
| `Boolean.IsValueRejectsBoxed` | src/boolean.ts:51-63 | strict equality: a boxed boolean satisfies neither predicate |
| `Boolean.CoercedIsValue` | src/boolean.ts:28-63 | after the transform, `isTrue` accepts exactly absent input, `true` and true tokens; `isFalse` exactly absent input, `false` and false tokens |

## Left out

- Schema machinery in `schema.ts` (not part of this model): registering tests with exclusive-name replacement, running transforms and tests, `withMutation`, `clone`, `concat`, and `default` / `required` / `nullable` presence resolution. `isTrue` / `isFalse` are modelled as the descriptors they pass to `test(...)`, and construction as the type tag and transform list it sets up.
- `isType` (in `schema.ts`) is a parameter of `Transform` and `Create`; its exact definition is not modelled, only that it agrees with `_typeCheck` on present values.
- `isAbsent` (in `util/isAbsent`) is taken as "`undefined` or `null`".
- The TypeScript generics and the declaration-merged interface (lines 20-23 and 71-89): compile-time typing with no runtime behaviour.
- `create()` and `create.prototype = BooleanSchema.prototype` (lines 16-18 and 69): a JavaScript factory and prototype detail; `Create` stands for `new BooleanSchema()`.
- Locale message tables: the default message is the opaque `LocaleIsValue`, a caller's message an opaque template; message functions and rendering are not modelled.
- Floating-point numbers: numbers are integers. JavaScript prints integers of magnitude 10^21 and above in exponent form, and `NaN` / `Infinity` as words; none of these match a pattern, so the transform's result is the same, and such values can be represented as `Other` with their rendering. `-0` prints as `"0"` and is the integer 0 here.
- Values whose `String()` conversion throws or runs user code (symbols in some contexts, objects with side-effecting `toString`): an object is represented only by the fixed string its conversion returns.
