# parameter-to-interface, modelled in Dafny

`ParameterToInterface.transform` (index.js) compiles a validation schema
(an object mapping field names to rules) into the body of a TypeScript
interface. Here is how the compiler works:

- `formatRule` normalises each rule. A string is a type name. An array is
  an enumeration. A RegExp is a string with a format. Any other truthy
  value is the rule object itself. A falsy value becomes `{}`.
- The rule's `type` is looked up in the fixed table `TYPE_MAP`, which has
  sixteen names and thirteen handlers.
- The handler's text is appended to `key?: ` (or to `key: ` when
  `rule.require` is truthy).
- The lines are joined with newlines between `{\n` and `}`.
- The `object` and `array` handlers call `transform` again on nested
  schemas.

The project is split into these modules:

- `Rules` (rules.dfy): the schema values (`RawRule`, `Rule`, `Entry`,
  `Schema`, `RuleSet`) and `FormatRule`.
- `Registry` (registry.dfy): the `TYPE_MAP` table as the ordered name list
  `TypeNames` and the lookup `HandlerFor`.
- `Errors` (errors.dfy): the three TypeErrors and their messages.
- `Engine` (engine.dfy) holds the compiler:
  - Specification functions. `Body` is the result of `transform`, and
    `Lines`, `FieldLine`, `Expression` and `Handle` are one loop
    iteration. `EnumType`, `ObjectType` and `ArrayType` are the handlers.
    These functions are mutually recursive and terminate on the measure
    (schema size, rank).
  - The imperative `Transform` method. It is the `for...in` loop itself,
    accumulating lines, and is proved equal to `Body`.
- `Properties` (properties.dfy): what the compiler promises, proved about
  the specification functions.
- `Text` (text.dfy): `join`, the decimal text of integers (with its parse
  round trip), and substring containment.
- `Suite` (suite.dfy): the schemas of test/index.test.js and the bodies
  they compile to.
- `AsWritten` (as_written.dfy): the loop exactly as written, which fails
  on every non-empty schema (see Findings).

Choices made where the source is unusual:

- **Object without `rule`.** An `object` rule whose `rule.rule` is
  falsy (absent or the empty string) makes the handler return
  `undefined`, and the line reads `key?: undefined`.
  This follows the code (index.js:272-276). It is not treated as a
  malformed-object error.
- **`required` is ignored.** Only `rule.require` makes a field
  non-optional. `required` is carried but never read.
- **Trailing `;`.** Only the `int`, `integer`, `number`, `string`, `id`
  and `enum` outputs end in `;`.
- **Arrays of scalars.** An array of a scalar item type is compiled
  through `transform({type: itemType})`. Its item body is a one-field
  object whose field is named `type`.
- **Empty `itemType`.** `itemType: ''` is falsy and gives `any[]`.
- **The loop's two undeclared identifiers.** The intended behaviour is
  modelled: the looked-up handler is tested, and it is called with the
  normalised rule only.

## Model

| member | source | states |
|---|---|---|
| Rules.FormatRule | index.js:80-91 | A name `s` becomes `{type: s}`. Enum values become `{type: 'enum', values}`. A pattern becomes `{type: 'string', format}`. A record passes through unchanged. A falsy value becomes `{}`. |
| Rules.FormatNested | index.js:313-315 | The schema the array handler compiles: a nested object as is, `{type: t}` for a type name, the empty schema when `rule` is absent. |
| Rules.AsRuleSet | index.js:273-274 | `rule.rule` handed to `transform`: an object is a schema, and a string is not an object. |
| Registry.HandlerFor | index.js:53-70 | A name has a handler exactly when it is one of the sixteen keys of `TYPE_MAP`. |
| Registry.Lookup | index.js:29 | A missing `type` finds no handler. A present one finds a handler exactly when it is a key of the table. |
| Registry.NamesDistinct | index.js:53-70 | The table has sixteen distinct names. |
| Registry.NamesOfHandlers | index.js:53-70 | Read backwards: `int`/`integer`, `dateTime`/`datetime` and `boolean`/`bool` are aliases, and every other handler has exactly one name. |
| Errors.UnknownTypeMessageNamesAll | index.js:31-32 | The unknown-type message mentions every registered name and the rejected name, and ends with the rejected name. |
| Engine.LinesAppend | index.js:22-37 | Running the loop over a schema split in two is running it over each part in turn. The first error wins. |
| Engine.LinesOne | index.js:24-36 | One iteration: the field's line, or its error. |
| Engine.StopsAt | index.js:29-33 | A field that fails after a run of good ones decides the outcome of the whole schema. |
| Engine.Transform | index.js:15-39 | The loop rejects a non-object, accumulates one line per key, stops at the first error and wraps the lines. Its result equals `Body`. |
| Properties.LinesPerField | index.js:22-37 | The loop succeeds exactly when every field does. It then gives one line per key, in key order, each equal to that field's line. Otherwise it gives the error of the first failing field. |
| Properties.BodyLayout | index.js:22-38 | The output is `{\n`, the field lines joined by newlines, then `}`. It fails exactly when some field fails, with the error of the first failing field. |
| Properties.EmptyAndInvalid | index.js:16-18 | An empty schema gives exactly `{\n}`. A non-object is rejected with "need object type rule" before any output. |
| Properties.AddingFieldAppendsLine | index.js:36-38 | Adding a field after the others inserts a newline and its line before the closing brace, or fails with that field's error. |
| Properties.FieldLineLayout | index.js:27-36 | A line is the key, `?` unless `require` is truthy, `: `, then the handler's text. A failing handler fails the line. |
| Properties.RequiredIsIgnored | index.js:27 | Changing `required` never changes a line. |
| Properties.ShorthandsAreOptional | index.js:80-89 | Fields written as a name, an array or a pattern are always optional. |
| Properties.ShorthandMeansRecord | index.js:80-91 | A shorthand renders exactly as the record `formatRule` makes of it. Normalising twice changes nothing. |
| Properties.RegistryNames | index.js:53-70 | The registered names are the thirteen scalar names plus `array`, `object` and `enum`. |
| Properties.ScalarHandlers | index.js:106-258 | Each scalar type gives its fixed text (`number;`, `string;`, `string` or `boolean`), whatever else the rule carries. |
| Properties.UnknownTypeRejected | index.js:29-33 | A missing or unregistered `type` fails the field with the unknown-type error. Its message lists every name and the rejected one. |
| Properties.EnumHandler | index.js:213-218 | Values that are not an array raise the enum error. Otherwise the literals are joined by ` \| ` and followed by `;`. |
| Properties.UnionAppend | index.js:217 | The union keeps the order of the values: one more value appends ` \| ` and its literal. |
| Properties.LiteralQuoting | index.js:217 | Strings are single-quoted. Integers are bare, contain no quote, and read back as the same number. |
| Properties.ObjectHandler | index.js:272-276 | With an object in `rule`, the result is exactly the standalone body of that schema. A non-empty string there is rejected as not an object. When `rule` is falsy (absent or `''`) there is no expression, and the line ends in `undefined`. |
| Properties.ArrayHandler | index.js:300-318 | No item type (or an empty one) gives `any[]`. An unregistered item type fails before any recursion. `object` gives the nested body plus `[]`. Any other name gives the body of `{type: itemType}` plus `[]`. |
| Properties.ArrayOfObjects | index.js:313-317 | An array of objects gives the nested schema's body plus `[]`, and `{\n}[]` when `rule` is missing. |
| Properties.ArrayOfScalars | index.js:313-317 | An array of a scalar type gives `{\ntype?: <text>}[]`. |
| Text.JoinSnoc | index.js:38 | `join` keeps order: appending an element appends the separator and that element. |
| Text.JoinContains | index.js:31 | Every element of a list occurs in its join. |
| Text.IntTextRoundTrip | index.js:217 | The decimal text of an integer reads back as that integer and consists of a sign and digits. |
| Suite.TwoLinesText | index.js:38 | Two lines are wrapped as `{\n`, the first line, a newline, the second line, then `}`. |
| Properties.OptionalLine | index.js:27 | A field without `require` whose handler gives `t` has the line `key?: t`. |
| Suite.RequireCase | test/index.test.js:24 | `{int: {type: 'int', required: true}}` compiles to exactly `{\nint?: number;}`. |
| Suite.ScalarRecordCases | test/index.test.js:25-28 | The `notrequire`, `int`, `number` and `string` fields give their fixed optional lines. A `format` is not rendered. |
| Suite.StringFormatCases | test/index.test.js:35-41 | The `email`, `password` and `url` fields give `string` with no `;`. |
| Suite.ScalarShorthandCases | test/index.test.js:29-32 | The `id`, `date`, `dateTime` and `boolean` shorthands give their fixed optional lines. |
| Suite.EnumNumberCase | test/index.test.js:33 | `[1, 2, 3]` gives `enum?: 1 \| 2 \| 3;`. |
| Suite.EnumStringCase | test/index.test.js:34 | `['x', 'y', 'z']` gives `enum?: 'x' \| 'y' \| 'z';`. |
| Suite.ObjectCase | test/index.test.js:42-50 | The nested `{name, age}` rule is rendered as its own body. |
| Suite.ArrayCase | test/index.test.js:51-70 | An array of `{name, age}` objects gives that body plus `[]`. |
| Suite.ArrayOfStringsCase | test/index.test.js:71-77 | An array of strings gives the one-field body `{\ntype?: string;}` plus `[]`, and its `rule` (with `allowEmpty`) is not read. |
| Suite.ComplexCase | test/index.test.js:78-103 | The `complex` schema compiles to three lines. The third is the nested body of `childx` (an enum) and `childy` (an array of objects). |
| AsWritten.TransformAsWritten | index.js:15-39 | As written, only the empty schema succeeds, with `{\n}`. A non-object raises the schema TypeError. |
| AsWritten.AsWrittenAgreesOnlyWhenEmpty | index.js:29-35 | As written, the loop agrees with `Body` on a non-object and on the empty schema. Every other schema raises a ReferenceError for `checker`. |
| AsWritten.CheckerCounterexample | index.js:30 | `{a: 'string'}` should give `{\na?: string;}` but raises a ReferenceError as written. |

## Left out

- test/index.test.js:105-125 is not modelled. It formats each body with the `prettier` library and writes fixture files, which is I/O and foreign code. Its schemas appear in `Suite` as data.
- `module.exports = Parameter` (index.js:46) is not modelled. It names an identifier that is not declared; the model takes `ParameterToInterface` to be the exported class.
- Keys that `TYPE_MAP` inherits from `Object.prototype` are not modelled. In JavaScript, a `type` such as `toString` finds an inherited function; the model treats such names as unregistered.
- RegExp semantics are not modelled. A pattern is kept as its source text, and no handler reads it.
- `min`, `max`, `allowEmpty` and other extra rule fields are not modelled, since no handler reads them. `format` and `required` are carried as values.
- Enum values are integers or strings only. JavaScript's number-to-string conversion of floats, and of integers of magnitude 10^21 or more, is not modelled.
- A nested `rule` given as an array, a RegExp, a number or a boolean is not modelled. Only an object, a string or an absent value is.
- A truthy non-object rule such as `5` or `true` is represented as the empty record (`Absent` also normalises to it). Both read every field as absent.
- `typeof null === 'object'` is not modelled. Whether the argument is an object is an input variant (`NotAnObject`), not a reading of JavaScript's `typeof`.
- `rule.type` and `itemType` are strings or absent. In JavaScript a non-string such as `{type: 5}` or `itemType: true` is looked up under its coerced key and fails as an unknown type `5` or `true`; the model cannot express such a rule.
- Cyclic schemas (an object that contains itself through `rule`) cannot be represented, since schemas are finite values. In JavaScript `transform` recurses on them until the stack overflows with a RangeError.
- A `Schema` may list the same key twice, which a JavaScript object cannot. For such a sequence the model gives one line per entry, in order.
- The order in which `for...in` visits integer-like keys is not modelled. A schema is an explicit ordered sequence of entries.
- `this` and `.call` binding are not modelled. The handlers call the specification function `Body` for nested schemas rather than the `Transform` method, which is proved equal to it.
- The unused `errors` variable (index.js:312) and the undeclared `obj` argument (index.js:35) are not modelled. Handlers receive only the normalised rule.

## Findings

| source | as written | input that shows it | evidently intended | confidence | as-written member | corrected member |
|---|---|---|---|---|---|---|
| index.js:30 | `if (!checker)` tests an identifier declared nowhere in scope, so the first key of any schema raises a ReferenceError | `transform({a: 'string'})` | test `spec_transfrom`, the handler looked up on index.js:29, and raise the unknown-type TypeError only when it is missing | high (not executed) | AsWritten.CheckerCounterexample | Engine.Transform |
