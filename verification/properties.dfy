/** What `transform` promises about its output, stated over the model of
    index.js and proved. */
module Properties {
  import opened Text
  import opened Rules
  import opened Registry
  import opened Errors
  import opened Engine

  // ---------------------------------------------------------------------
  // Layout of the body (index.js:22-38)
  // ---------------------------------------------------------------------

  /** The loop produces one line per key, in key order, and succeeds exactly
      when every field does; otherwise the first failing field's error is
      the result. */
  lemma {:induction false} LinesPerField(s: Schema)
    ensures Lines(s).Ok? <==> forall i :: 0 <= i < |s| ==> FieldLine(s[i].key, s[i].raw).Ok?
    ensures Lines(s).Ok? ==> |Lines(s).value| == |s|
    ensures Lines(s).Ok? ==>
              forall i :: 0 <= i < |s| ==> Lines(s).value[i] == FieldLine(s[i].key, s[i].raw).value
    ensures Lines(s).Err? ==>
              exists k :: 0 <= k < |s| && FieldLine(s[k].key, s[k].raw) == Err(Lines(s).error) &&
                          forall i :: 0 <= i < k ==> FieldLine(s[i].key, s[i].raw).Ok?
  {
    if s != [] {
      var rest := s[1..];
      LinesPerField(rest);
      assert forall i :: 1 <= i < |s| ==> rest[i - 1] == s[i];
      var first := FieldLine(s[0].key, s[0].raw);
      if first.Err? {
        assert Lines(s) == Err(first.error);
      } else if Lines(rest).Err? {
        assert Lines(s) == Err(Lines(rest).error);
        var k :| 0 <= k < |rest| && FieldLine(rest[k].key, rest[k].raw) == Err(Lines(rest).error) &&
                 forall i :: 0 <= i < k ==> FieldLine(rest[i].key, rest[i].raw).Ok?;
        assert FieldLine(s[k + 1].key, s[k + 1].raw) == Err(Lines(s).error);
        assert forall i :: 0 <= i < k + 1 ==> FieldLine(s[i].key, s[i].raw).Ok? by {
          forall i | 0 <= i < k + 1
            ensures FieldLine(s[i].key, s[i].raw).Ok?
          {
            if i > 0 { assert s[i] == rest[i - 1]; }
          }
        }
      } else {
        assert Lines(s) == Ok([first.value] + Lines(rest).value);
      }
    }
  }

  /** `transform` of an object: `'{\n'`, the field lines joined by newlines,
      `'}'`; it fails exactly when some field fails, and then with the error
      of the first failing field in key order. */
  lemma {:induction false} BodyLayout(s: Schema)
    ensures Body(Fields(s)).Ok? <==> forall i :: 0 <= i < |s| ==> FieldLine(s[i].key, s[i].raw).Ok?
    ensures Body(Fields(s)).Ok? ==>
              Body(Fields(s)).value == "{\n" + Join(Lines(s).value, "\n") + "}" &&
              |Lines(s).value| == |s| &&
              forall i :: 0 <= i < |s| ==> Lines(s).value[i] == FieldLine(s[i].key, s[i].raw).value
    ensures Body(Fields(s)).Err? ==>
              exists k :: 0 <= k < |s| && FieldLine(s[k].key, s[k].raw) == Err(Body(Fields(s)).error) &&
                          forall i :: 0 <= i < k ==> FieldLine(s[i].key, s[i].raw).Ok?
  {
    LinesPerField(s);
  }

  /** An empty schema gives exactly "{\n}"; a non-object is rejected before
      anything is produced. */
  lemma EmptyAndInvalid()
    ensures Body(Fields([])) == Ok("{\n}")
    ensures Body(NotAnObject) == Err(InvalidSchema)
    ensures Message(InvalidSchema) == "need object type rule"
  {
    assert Wrap([]) == "{\n" + "" + "}";
    assert "{\n" + "" + "}" == "{\n}";
  }

  /** Adding a field after the others adds its line at the end, after a
      newline. */
  lemma AddingFieldAppendsLine(s: Schema, e: Entry)
    requires s != [] && Body(Fields(s)).Ok?
    ensures FieldLine(e.key, e.raw).Ok? ==>
              Body(Fields(s + [e])) ==
              Ok(Body(Fields(s)).value[..|Body(Fields(s)).value| - 1] + "\n" + FieldLine(e.key, e.raw).value + "}")
    ensures FieldLine(e.key, e.raw).Err? ==> Body(Fields(s + [e])) == Err(FieldLine(e.key, e.raw).error)
  {
    LinesAppend(s, [e]);
    LinesOne(e);
    LinesPerField(s);
    var lines := Lines(s).value;
    if FieldLine(e.key, e.raw).Ok? {
      var line := FieldLine(e.key, e.raw).value;
      JoinSnoc(lines, line, "\n");
      var b := Body(Fields(s)).value;
      assert b == "{\n" + Join(lines, "\n") + "}";
      assert b[..|b| - 1] == "{\n" + Join(lines, "\n");
      assert Lines(s + [e]) == Ok(lines + [line]);
      assert Wrap(lines + [line]) == ("{\n" + Join(lines, "\n")) + "\n" + line + "}";
    }
  }

  // ---------------------------------------------------------------------
  // Field lines (index.js:25-36)
  // ---------------------------------------------------------------------

  /** A field line is the key, '?' unless `rule.require` is truthy, ': ' and
      the handler's text; a field whose handler fails fails the line. */
  lemma FieldLineLayout(key: string, r: Rule)
    ensures FieldLine(key, Record(r)).Ok? <==> Expression(r).Ok?
    ensures Expression(r).Ok? && r.require ==>
              FieldLine(key, Record(r)).value == key + ": " + Render(Expression(r).value)
    ensures Expression(r).Ok? && !r.require ==>
              FieldLine(key, Record(r)).value == key + "?: " + Render(Expression(r).value)
    ensures Expression(r).Err? ==> FieldLine(key, Record(r)) == Err(Expression(r).error)
  {
  }

  /** The handlers never read `required`, so `required: true` still gives an
      optional field: only `require` is consulted (index.js:27). */
  lemma RequiredIsIgnored(key: string, r: Rule, b: bool)
    ensures FieldLine(key, Record(r.(required := b))) == FieldLine(key, Record(r))
  {
    var r' := r.(required := b);
    match Lookup(r.typeName)
    case None =>
    case Some(h) =>
      assert EnumType(r') == EnumType(r);
      assert ObjectType(r') == ObjectType(r);
      assert ArrayType(r') == ArrayType(r);
      assert Handle(h, r') == Handle(h, r);
  }

  /** The shorthand forms never carry `require`, so their fields are always
      optional. */
  lemma ShorthandsAreOptional(key: string, raw: RawRule)
    requires !raw.Record?
    ensures FieldLine(key, raw).Ok? ==>
              FieldLine(key, raw).value == key + "?: " + Render(Expression(FormatRule(raw)).value)
  {
  }

  /** A shorthand renders exactly as the record `formatRule` makes of it, and
      normalising a normalised rule changes nothing. */
  lemma ShorthandMeansRecord(key: string, raw: RawRule)
    ensures FieldLine(key, raw) == FieldLine(key, Record(FormatRule(raw)))
    ensures FormatRule(Record(FormatRule(raw))) == FormatRule(raw)
  {
  }

  // ---------------------------------------------------------------------
  // The type table (index.js:53-70, 106-258)
  // ---------------------------------------------------------------------

  /** The fixed text of every scalar type, trailing ';' included where the
      handler has one. */
  const ScalarText: map<string, string> := map[
    "number" := "number;", "int" := "number;", "integer" := "number;",
    "string" := "string;", "id" := "string;",
    "date" := "string", "dateTime" := "string", "datetime" := "string",
    "email" := "string", "password" := "string", "url" := "string",
    "boolean" := "boolean", "bool" := "boolean"
  ]

  /** The registry is the scalar names plus 'array', 'object' and 'enum'. */
  lemma RegistryNames(n: string)
    ensures n in TypeNames <==> n in ScalarText || n == "array" || n == "object" || n == "enum"
  {
  }

  /** Every scalar type renders as its fixed text, whatever else the rule
      carries (bounds, formats and `allowEmpty` never show). */
  lemma ScalarHandlers(r: Rule)
    requires r.typeName.Some? && r.typeName.value in ScalarText
    ensures Expression(r) == Ok(Expr(ScalarText[r.typeName.value]))
  {
    var t := r.typeName.value;
    assert Expression(r) == Handle(HandlerFor(t).value, r);
    match t
    case "number" => case "int" => case "integer" => case "string" => case "id" =>
    case "date" => case "dateTime" => case "datetime" => case "email" =>
    case "password" => case "url" => case "boolean" => case "bool" =>
  }

  /** A type the table lacks, or a missing type, is rejected with the
      unknown-type error; its message lists every registered name and ends
      with the rejected one (index.js:29-33). */
  lemma UnknownTypeRejected(key: string, raw: RawRule)
    requires FormatRule(raw).typeName.None? || FormatRule(raw).typeName.value !in TypeNames
    ensures FieldLine(key, raw) == Err(UnknownType(TypeText(FormatRule(raw).typeName)))
    ensures forall k :: 0 <= k < |TypeNames| ==>
              Contains(Message(FieldLine(key, raw).error), TypeNames[k])
    ensures Contains(Message(FieldLine(key, raw).error), TypeText(FormatRule(raw).typeName))
  {
    UnknownTypeMessageNamesAll(TypeText(FormatRule(raw).typeName));
  }

  // ---------------------------------------------------------------------
  // Enumerations (index.js:213-218)
  // ---------------------------------------------------------------------

  /** `checkEnum`: values that are not an array raise an error; otherwise
      the literals in order joined by ' | ', then ';'. */
  lemma EnumHandler(r: Rule)
    requires r.typeName == Some("enum")
    ensures r.values.None? ==> Expression(r) == Err(MalformedEnum)
    ensures r.values.Some? ==> Expression(r) == Ok(Expr(Union(r.values.value) + ";"))
  {
  }

  /** The union keeps the order of the values: one more value appends
      ' | ' and that literal. */
  lemma UnionAppend(vs: seq<Literal>, v: Literal)
    ensures Union([v]) == LiteralText(v)
    ensures |vs| > 0 ==> Union(vs + [v]) == Union(vs) + " | " + LiteralText(v)
  {
    var texts := seq(|vs|, i requires 0 <= i < |vs| => LiteralText(vs[i]));
    var more := seq(|vs + [v]|, i requires 0 <= i < |vs + [v]| => LiteralText((vs + [v])[i]));
    assert more == texts + [LiteralText(v)];
    assert seq(|[v]|, i requires 0 <= i < |[v]| => LiteralText([v][i])) == [LiteralText(v)];
    if |vs| > 0 {
      JoinSnoc(texts, LiteralText(v), " | ");
    }
  }

  /** String values are single-quoted; numbers are bare and read back as the
      same number. */
  lemma LiteralQuoting(v: Literal)
    ensures v.StrLit? ==> LiteralText(v) == "'" + v.s + "'"
    ensures v.IntLit? ==> ParseInt(LiteralText(v)) == v.n
    ensures v.IntLit? ==> forall i :: 0 <= i < |LiteralText(v)| ==> LiteralText(v)[i] != '\''
  {
    if v.IntLit? {
      IntTextRoundTrip(v.n);
    }
  }

  // ---------------------------------------------------------------------
  // Objects and arrays (index.js:272-276, 300-318)
  // ---------------------------------------------------------------------

  /** `checkObject`: the nested body is exactly `transform(rule.rule)`; a
      non-empty string there is not an object and is rejected; when
      `rule.rule` is falsy (absent or '') the handler returns nothing, and
      the line reads 'undefined'. */
  lemma ObjectHandler(key: string, r: Rule)
    requires r.typeName == Some("object")
    ensures r.sub.RuleObject? ==> Expression(r) == Lift(Body(Fields(r.sub.schema)))
    ensures r.sub.RuleName? && r.sub.name != "" ==> Expression(r) == Err(InvalidSchema)
    ensures r.sub.NoRule? || r.sub == RuleName("") ==> Expression(r) == Ok(NoExpr)
    ensures r.sub.NoRule? || r.sub == RuleName("") ==>
              FieldLine(key, Record(r)) == Ok(key + Marker(r) + ": undefined")
  {
    assert Expression(r) == Handle(CheckObject, r) == ObjectType(r);
    if r.sub.RuleName? && r.sub.name != "" {
      assert AsRuleSet(r.sub) == NotAnObject;
      assert Body(NotAnObject) == Err(InvalidSchema);
    }
    assert key + Marker(r) + ": " + "undefined" == key + Marker(r) + ": undefined";
  }

  /** A handler result for `T[]`: the item's body followed by '[]'. */
  function ArrayOf(item: Result<string, Error>): Result<TypeExpr, Error>
  {
    match item
    case Err(e) => Err(e)
    case Ok(b) => Ok(Expr(b + "[]"))
  }

  /** `checkArray`: 'any[]' without an item type; an unknown item type fails
      before any recursion; item type 'object' gives the body of the nested
      rule with '[]'; any other item type gives the body of
      `{type: itemType}` with '[]'. */
  lemma ArrayHandler(r: Rule)
    requires r.typeName == Some("array")
    ensures r.itemType.None? || r.itemType == Some("") ==> Expression(r) == Ok(Expr("any[]"))
    ensures r.itemType.Some? && r.itemType.value != "" && r.itemType.value !in TypeNames ==>
              Expression(r) == Err(UnknownType(r.itemType.value))
    ensures r.itemType == Some("object") ==> Expression(r) == ArrayOf(Body(Fields(FormatNested(r.sub))))
    ensures r.itemType.Some? && r.itemType.value in TypeNames && r.itemType.value != "object" ==>
              Expression(r) == ArrayOf(Body(Fields([Entry("type", Name(r.itemType.value))])))
  {
    assert Expression(r) == Handle(CheckArray, r) == ArrayType(r);
  }

  /** Arrays of objects: the nested schema's body plus '[]', and '{\n}[]'
      when the rule is missing. */
  lemma ArrayOfObjects(r: Rule)
    requires r.typeName == Some("array") && r.itemType == Some("object")
    ensures r.sub.NoRule? ==> Expression(r) == Ok(Expr("{\n}[]"))
    ensures r.sub.RuleObject? ==> Expression(r) == ArrayOf(Body(Fields(r.sub.schema)))
  {
    ArrayHandler(r);
    EmptyAndInvalid();
    assert "{\n}" + "[]" == "{\n}[]";
  }

  /** Arrays of scalars go through `transform({type: itemType})`, so the item
      type is a one-field body whose field is named `type`. */
  lemma ArrayOfScalars(r: Rule)
    requires r.typeName == Some("array") && r.itemType.Some? && r.itemType.value in ScalarText
    ensures Expression(r) == Ok(Expr("{\ntype?: " + ScalarText[r.itemType.value] + "}[]"))
    ensures Expression(r) == Ok(Expr(Wrap([Optional("type", ScalarText[r.itemType.value])]) + "[]"))
  {
    var t := r.itemType.value;
    var e := Entry("type", Name(t));
    var line := Optional("type", ScalarText[t]);
    ArrayHandler(r);
    ScalarLine(e.key, e.raw, t);
    OneLine(e, line);
    assert Expression(r) == Ok(Expr(Wrap([line]) + "[]"));
    ItemText(ScalarText[t]);
  }

  /** The text of an array whose item is the one-field body `{type: t}`. */
  lemma ItemText(text: string)
    ensures Wrap([Optional("type", text)]) + "[]" == "{\ntype?: " + text + "}[]"
  {
    var line := Optional("type", text);
    assert Join([line], "\n") == line;
    assert Wrap([line]) == "{\n" + line + "}";
    assert "{\n" + ("type?: " + text) + "}" + "[]" == "{\ntype?: " + text + "}[]";
  }

  // ---------------------------------------------------------------------
  // Building whole bodies from field lines
  // ---------------------------------------------------------------------

  /** The line of a field without `require`. */
  function Optional(key: string, text: string): string
  {
    key + "?: " + text
  }

  /** A field without `require` whose handler gives `text` has the line
      `key?: text`. */
  lemma OptionalLine(key: string, raw: RawRule, text: string)
    requires !FormatRule(raw).require && Expression(FormatRule(raw)) == Ok(Expr(text))
    ensures FieldLine(key, raw) == Ok(Optional(key, text))
  {
    var rule := FormatRule(raw);
    assert Marker(rule) == "?";
    assert FieldLine(key, raw) == Ok(key + Marker(rule) + ": " + Render(Expr(text)));
    assert key + "?" + ": " + text == key + "?: " + text;
  }

  /** The line of an optional scalar field. */
  lemma ScalarLine(key: string, raw: RawRule, t: string)
    requires FormatRule(raw).typeName == Some(t) && t in ScalarText && !FormatRule(raw).require
    ensures FieldLine(key, raw) == Ok(Optional(key, ScalarText[t]))
  {
    ScalarHandlers(FormatRule(raw));
    OptionalLine(key, raw, ScalarText[t]);
  }

  /** A schema of one good field is that field's line in braces. */
  lemma OneLine(a: Entry, x: string)
    requires FieldLine(a.key, a.raw) == Ok(x)
    ensures Body(Fields([a])) == Ok(Wrap([x]))
  {
    LinesOne(a);
  }
}
