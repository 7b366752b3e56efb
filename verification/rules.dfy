/** The values a schema is written with, and `formatRule`, which turns the
    four shorthand rule forms into one canonical rule record
    (index.js:80-91). */
module Rules {

  datatype Option<+T> = None | Some(value: T)

  /** An enumeration literal: the model admits integers and strings. */
  datatype Literal = IntLit(n: int) | StrLit(s: string)

  /** A rule as a schema author writes it; the variant is what `formatRule`
      tests for, in its order. */
  datatype RawRule =
    | Name(name: string)                // a string: a bare type name
    | EnumValues(values: seq<Literal>)  // an array: the values of an enum
    | Pattern(source: string)           // a RegExp, kept opaque
    | Record(canonical: Rule)           // any other truthy value
    | Absent                            // a falsy value (undefined, null, false, 0)

  /** The fields of a rule object that the compiler reads or carries.
      A truthy value that is not an object (a number, `true`) reads as a
      record with every field absent. */
  datatype Rule = Rule(
    typeName: Option<string>,        // rule.type
    require: bool,                   // truthiness of rule.require
    required: bool,                  // rule.required: carried, never read
    values: Option<seq<Literal>>,    // rule.values; None when absent or not an array
    itemType: Option<string>,        // rule.itemType
    sub: Nested,                     // rule.rule
    format: Option<string>           // rule.format: carried, never read
  )

  /** The value of a rule's own `rule` field. An object there is read as a
      schema (a nested field map), a string as a type name. */
  datatype Nested = NoRule | RuleName(name: string) | RuleObject(schema: Schema)

  /** One own property of a schema object: a field name and its rule. */
  datatype Entry = Entry(key: string, raw: RawRule)

  /** An object mapping field names to raw rules, in key order. */
  type Schema = seq<Entry>

  /** The argument of `transform`: an object, or a value whose `typeof` is
      not 'object'. */
  datatype RuleSet = Fields(entries: Schema) | NotAnObject

  /** A record with only `type` set (or nothing at all). */
  function Bare(typeName: Option<string>): Rule
  {
    Rule(typeName, false, false, None, None, NoRule, None)
  }

  /** `formatRule`: shorthands become records, records pass through, and a
      falsy value becomes the empty record `{}`. */
  function FormatRule(raw: RawRule): (r: Rule)
    ensures raw.Name? ==> r == Bare(Some(raw.name))
    ensures raw.EnumValues? ==> r.typeName == Some("enum") && r.values == Some(raw.values)
    ensures raw.EnumValues? ==> r.(values := None) == Bare(Some("enum"))
    ensures raw.Pattern? ==> r.typeName == Some("string") && r.format == Some(raw.source)
    ensures raw.Pattern? ==> r.(format := None) == Bare(Some("string"))
    ensures raw.Record? ==> r == raw.canonical
    ensures raw.Absent? ==> r == Bare(None)
    ensures RuleSize(r) <= RawSize(raw)
  {
    match raw
    case Name(n) => Bare(Some(n))
    case EnumValues(vs) => Bare(Some("enum")).(values := Some(vs))
    case Pattern(p) => Bare(Some("string")).(format := Some(p))
    case Record(r) => r
    case Absent => Bare(None)
  }

  /** The object `formatRule(v)` returns, read as the schema `transform`
      iterates over (index.js:313-315): a string `s` becomes `{type: s}`, an
      object passes through, a falsy value becomes `{}`. */
  function FormatNested(n: Nested): (s: Schema)
    ensures n.RuleObject? ==> s == n.schema
    ensures n.RuleName? ==> |s| == 1 && s[0].key == "type" && FormatRule(s[0].raw) == Bare(Some(n.name))
    ensures n.NoRule? ==> s == []
    ensures SchemaSize(s) <= NestedSize(n) + 2
  {
    match n
    case NoRule => []
    case RuleName(t) =>
      assert SchemaSize([Entry("type", Name(t))]) == 2 by {
        assert [Entry("type", Name(t))][1..] == [];
      }
      [Entry("type", Name(t))]
    case RuleObject(s) => s
  }

  /** The value `rule.rule` hands to `transform` (index.js:274): an object is
      a schema, a string is not an object. */
  function AsRuleSet(n: Nested): (rs: RuleSet)
    requires !n.NoRule?
    ensures rs.Fields? <==> n.RuleObject?
    ensures n.RuleObject? ==> rs.entries == n.schema
    ensures RuleSetSize(rs) <= NestedSize(n)
  {
    match n
    case RuleName(_) => NotAnObject
    case RuleObject(s) => Fields(s)
  }

  // Sizes for the termination argument of the compiler. A rule with an
  // item type outweighs the one-field schema the array handler builds from
  // it, so that recursion through `{type: itemType}` also decreases.

  function SchemaSize(s: Schema): nat
    decreases s
  {
    if s == [] then 0 else 1 + RawSize(s[0].raw) + SchemaSize(s[1..])
  }

  function RawSize(raw: RawRule): nat
    decreases raw
  {
    match raw
    case Record(r) => 1 + RuleSize(r)
    case _ => 1
  }

  function RuleSize(r: Rule): nat
    decreases r
  {
    (if r.itemType.Some? then 3 else 1) + NestedSize(r.sub)
  }

  function NestedSize(n: Nested): nat
    decreases n
  {
    match n
    case RuleObject(s) => SchemaSize(s)
    case _ => 0
  }

  function RuleSetSize(rs: RuleSet): nat
  {
    match rs
    case Fields(s) => SchemaSize(s)
    case NotAnObject => 0
  }
}
