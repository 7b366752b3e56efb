/** `ParameterToInterface.transform` (index.js:15-39) and the handlers of
    TYPE_MAP (index.js:106-318): a schema becomes the body of a TypeScript
    interface, one field line per key.

    The functions below are the specification: `Body` is what `transform`
    returns, and the object and array handlers call it for nested schemas.
    The method `Transform` is the loop of index.js:22-38 itself. */
module Engine {
  import opened Text
  import opened Rules
  import opened Registry
  import opened Errors

  /** What a handler returns: a type expression, or `undefined` (the object
      handler given no nested rule). */
  datatype TypeExpr = Expr(text: string) | NoExpr

  /** The text a handler's result contributes to `leftStr + rightStr`. */
  function Render(x: TypeExpr): string
  {
    match x
    case Expr(t) => t
    case NoExpr => "undefined"
  }

  /** `'{\n' + result.join('\n') + '}'`. */
  function Wrap(lines: seq<string>): string
  {
    "{\n" + Join(lines, "\n") + "}"
  }

  /** The optional marker: empty when `rule.require` is truthy. */
  function Marker(rule: Rule): string
  {
    if rule.require then "" else "?"
  }

  /** The result of `transform(rules)`. */
  function Body(rules: RuleSet): Result<string, Error>
    decreases RuleSetSize(rules), 5
  {
    match rules
    case NotAnObject => Err(InvalidSchema)
    case Fields(s) =>
      match Lines(s)
      case Err(e) => Err(e)
      case Ok(lines) => Ok(Wrap(lines))
  }

  /** The field lines of a schema in key order; the first failing field's
      error aborts the whole schema. */
  function Lines(s: Schema): Result<seq<string>, Error>
    decreases SchemaSize(s), 4
  {
    if s == [] then Ok([])
    else
      match FieldLine(s[0].key, s[0].raw)
      case Err(e) => Err(e)
      case Ok(line) =>
        match Lines(s[1..])
        case Err(e) => Err(e)
        case Ok(rest) => Ok([line] + rest)
  }

  /** One iteration of the loop: normalise, look up, call the handler. */
  function FieldLine(key: string, raw: RawRule): Result<string, Error>
    decreases RawSize(raw), 3
  {
    var rule := FormatRule(raw);
    match Expression(rule)
    case Err(e) => Err(e)
    case Ok(x) => Ok(key + Marker(rule) + ": " + Render(x))
  }

  /** The registered handler applied to the rule, or the unknown-type error. */
  function Expression(rule: Rule): Result<TypeExpr, Error>
    decreases RuleSize(rule), 2
  {
    match Lookup(rule.typeName)
    case None => Err(UnknownType(TypeText(rule.typeName)))
    case Some(h) => Handle(h, rule)
  }

  /** Each handler of TYPE_MAP; only some scalar ones end in ';'. */
  function Handle(h: Handler, rule: Rule): Result<TypeExpr, Error>
    decreases RuleSize(rule), 1
  {
    match h
    case CheckInt => Ok(Expr("number;"))
    case CheckNumber => Ok(Expr("number;"))
    case CheckString => Ok(Expr("string;"))
    case CheckId => Ok(Expr("string;"))
    case CheckDate => Ok(Expr("string"))
    case CheckDateTime => Ok(Expr("string"))
    case CheckBoolean => Ok(Expr("boolean"))
    case CheckEnum => EnumType(rule)
    case CheckEmail => Ok(Expr("string"))
    case CheckPassword => Ok(Expr("string"))
    case CheckUrl => Ok(Expr("string"))
    case CheckObject => ObjectType(rule)
    case CheckArray => ArrayType(rule)
  }

  /** A literal of an enum: strings in single quotes (nothing is escaped),
      integers bare. */
  function LiteralText(v: Literal): string
  {
    match v
    case StrLit(s) => "'" + s + "'"
    case IntLit(n) => IntText(n)
  }

  /** The literals joined with ' | '. */
  function Union(vs: seq<Literal>): string
  {
    Join(seq(|vs|, i requires 0 <= i < |vs| => LiteralText(vs[i])), " | ")
  }

  /** `checkEnum` (index.js:213-218). */
  function EnumType(rule: Rule): Result<TypeExpr, Error>
  {
    match rule.values
    case None => Err(MalformedEnum)
    case Some(vs) => Ok(Expr(Union(vs) + ";"))
  }

  /** A nested body as a handler result. */
  function Lift(b: Result<string, Error>): Result<TypeExpr, Error>
  {
    match b
    case Err(e) => Err(e)
    case Ok(t) => Ok(Expr(t))
  }

  /** `checkObject` (index.js:272-276): the body of `rule.rule`, or nothing
      when it is falsy (absent, or the empty string). */
  function ObjectType(rule: Rule): Result<TypeExpr, Error>
    decreases RuleSize(rule), 0
  {
    if rule.sub.NoRule? || rule.sub == RuleName("") then Ok(NoExpr)
    else Lift(Body(AsRuleSet(rule.sub)))
  }

  /** `checkArray` (index.js:300-318): `any[]` without an item type; an
      unknown item type is rejected before any recursion; otherwise the body
      of `formatRule(rule.rule)` (item type 'object') or of
      `formatRule(itemType)`, followed by `[]`. */
  function ArrayType(rule: Rule): Result<TypeExpr, Error>
    decreases RuleSize(rule), 0
  {
    match rule.itemType
    case None => Ok(Expr("any[]"))
    case Some(t) =>
      if t == "" then Ok(Expr("any[]"))
      else if HandlerFor(t).None? then Err(UnknownType(t))
      else
        var item := FormatNested(if t == "object" then rule.sub else RuleName(t));
        match Body(Fields(item))
        case Err(e) => Err(e)
        case Ok(b) => Ok(Expr(b + "[]"))
  }

  /** Sequencing two runs of the loop: the first error wins. */
  function Then(x: Result<seq<string>, Error>, y: Result<seq<string>, Error>): Result<seq<string>, Error>
  {
    if x.Err? then x else if y.Err? then y else Ok(x.value + y.value)
  }

  /** Running the loop over a schema split in two is running it over each
      part in turn. */
  lemma {:induction false} LinesAppend(p: Schema, q: Schema)
    ensures Lines(p + q) == Then(Lines(p), Lines(q))
  {
    if p == [] {
      assert p + q == q;
      assert Lines(q).Ok? ==> [] + Lines(q).value == Lines(q).value;
    } else {
      assert (p + q)[0] == p[0];
      assert (p + q)[1..] == p[1..] + q;
      LinesAppend(p[1..], q);
      match FieldLine(p[0].key, p[0].raw)
      case Err(e) =>
      case Ok(line) =>
        if Lines(p[1..]).Ok? && Lines(q).Ok? {
          assert [line] + (Lines(p[1..]).value + Lines(q).value)
              == ([line] + Lines(p[1..]).value) + Lines(q).value;
        }
    }
  }

  /** The loop over a one-field schema. */
  lemma LinesOne(e: Entry)
    ensures Lines([e]) == if FieldLine(e.key, e.raw).Ok? then Ok([FieldLine(e.key, e.raw).value])
                          else Err(FieldLine(e.key, e.raw).error)
  {
    assert [e][0] == e;
    assert [e][1..] == [];
    if FieldLine(e.key, e.raw).Ok? {
      assert [FieldLine(e.key, e.raw).value] + [] == [FieldLine(e.key, e.raw).value];
    }
  }

  /** `transform` (index.js:15-39): rejects a non-object, then builds one
      line per key in order and joins them. */
  method Transform(rules: RuleSet) returns (r: Result<string, Error>)
    ensures r == Body(rules)
  {
    if rules.NotAnObject? {
      return Err(InvalidSchema);
    }
    var s := rules.entries;
    var result: seq<string> := [];
    for i := 0 to |s|
      invariant Lines(s[..i]) == Ok(result)
    {
      var key := s[i].key;
      var rule := FormatRule(s[i].raw);
      var left := key + Marker(rule) + ": ";
      var handler := Lookup(rule.typeName);
      if handler.None? {
        r := Err(UnknownType(TypeText(rule.typeName)));
        StopsAt(s, i);
        return;
      }
      var right := Handle(handler.value, rule);
      if right.Err? {
        r := Err(right.error);
        StopsAt(s, i);
        return;
      }
      assert FieldLine(s[i].key, s[i].raw) == Ok(left + Render(right.value));
      LinesOne(s[i]);
      LinesAppend(s[..i], [s[i]]);
      result := result + [left + Render(right.value)];
      assert s[..i + 1] == s[..i] + [s[i]];
    }
    assert s[..|s|] == s;
    r := Ok(Wrap(result));
  }

  /** A field that fails after a run of good ones decides the schema's
      result. */
  lemma StopsAt(s: Schema, i: nat)
    requires i < |s| && Lines(s[..i]).Ok? && FieldLine(s[i].key, s[i].raw).Err?
    ensures Lines(s) == Err(FieldLine(s[i].key, s[i].raw).error)
  {
    assert s == s[..i] + s[i..];
    LinesAppend(s[..i], s[i..]);
    assert s[i..][0] == s[i];
  }
}
