/** The schemas of the repository's test suite (test/index.test.js:23-104)
    and the bodies `transform` gives for them.

    Expected bodies are written with `Wrap` and `Optional`, the way the
    output is built: `Wrap([l1, l2])` is "{\n" + l1 + "\n" + l2 + "}" (see
    `TwoLinesText`), and `Optional("k", t)` is "k?: " + t. */
module Suite {
  import opened Text
  import opened Rules
  import opened Registry
  import opened Errors
  import opened Engine
  import opened Properties

  /** `{type: t}` written as an object. */
  function Typed(t: string): RawRule
  {
    Record(Bare(Some(t)))
  }

  /** Two lines inside the braces, character by character. */
  lemma TwoLinesText(x: string, y: string)
    ensures Wrap([x, y]) == "{\n" + x + "\n" + y + "}"
  {
    assert [x, y][1..] == [y];
    assert Join([x, y], "\n") == x + "\n" + y;
    assert "{\n" + (x + "\n" + y) + "}" == "{\n" + x + "\n" + y + "}";
  }

  /** One more good field adds its line at the end. */
  lemma LinesSnoc(p: Schema, e: Entry, xs: seq<string>, z: string)
    requires Lines(p) == Ok(xs) && FieldLine(e.key, e.raw) == Ok(z)
    ensures Lines(p + [e]) == Ok(xs + [z])
  {
    LinesOne(e);
    LinesAppend(p, [e]);
  }

  /** A schema of two good fields. */
  lemma TwoLines(a: Entry, b: Entry, x: string, y: string)
    requires FieldLine(a.key, a.raw) == Ok(x) && FieldLine(b.key, b.raw) == Ok(y)
    ensures Lines([a, b]) == Ok([x, y])
    ensures Body(Fields([a, b])) == Ok(Wrap([x, y]))
  {
    LinesOne(a);
    LinesSnoc([a], b, [x], y);
    assert [a] + [b] == [a, b];
    assert [x] + [y] == [x, y];
  }

  /** A schema of three good fields. */
  lemma ThreeLines(a: Entry, b: Entry, c: Entry, x: string, y: string, z: string)
    requires FieldLine(a.key, a.raw) == Ok(x) && FieldLine(b.key, b.raw) == Ok(y)
    requires FieldLine(c.key, c.raw) == Ok(z)
    ensures Body(Fields([a, b, c])) == Ok(Wrap([x, y, z]))
  {
    TwoLines(a, b, x, y);
    LinesSnoc([a, b], c, [x, y], z);
    assert [a, b] + [c] == [a, b, c];
    assert [x, y] + [z] == [x, y, z];
  }

  /** The `require` case: `required: true` is not `require`, so the field
      stays optional, character for character. */
  lemma RequireCase()
    ensures Body(Fields([Entry("int", Record(Bare(Some("int")).(required := true)))]))
            == Ok("{\nint?: number;}")
  {
    var e := Entry("int", Record(Bare(Some("int")).(required := true)));
    assert ScalarText["int"] == "number;";
    ScalarLine("int", e.raw, "int");
    assert Optional("int", "number;") == "int?: number;";
    OneLine(e, "int?: number;");
    assert Join(["int?: number;"], "\n") == "int?: number;";
    assert "{\n" + "int?: number;" + "}" == "{\nint?: number;}";
  }

  /** The numeric and string cases written as records: `notrequire`,
      `int`, `number` and `string` (its `format` is not rendered). */
  lemma ScalarRecordCases()
    ensures FieldLine("int", Record(Bare(Some("int")))) == Ok(Optional("int", "number;"))
    ensures FieldLine("number", Typed("number")) == Ok(Optional("number", "number;"))
    ensures FieldLine("string", Record(Bare(Some("string")).(format := Some("^\\D+$"))))
            == Ok(Optional("string", "string;"))
  {
    ScalarLine("int", Record(Bare(Some("int"))), "int");
    ScalarLine("number", Typed("number"), "number");
    ScalarLine("string", Record(Bare(Some("string")).(format := Some("^\\D+$"))), "string");
  }

  /** The `email`, `password` and `url` cases: plain strings, no ';'. */
  lemma StringFormatCases()
    ensures FieldLine("name", Typed("email")) == Ok(Optional("name", "string"))
    ensures FieldLine("password", Typed("password")) == Ok(Optional("password", "string"))
    ensures FieldLine("name", Typed("url")) == Ok(Optional("name", "string"))
  {
    ScalarLine("name", Typed("email"), "email");
    ScalarLine("password", Typed("password"), "password");
    ScalarLine("name", Typed("url"), "url");
  }

  /** The scalar cases written as a bare type name: `id`, `date`,
      `datetime` and `boolean`. */
  lemma ScalarShorthandCases()
    ensures FieldLine("id", Name("id")) == Ok(Optional("id", "string;"))
    ensures FieldLine("date", Name("date")) == Ok(Optional("date", "string"))
    ensures FieldLine("dateTime", Name("dateTime")) == Ok(Optional("dateTime", "string"))
    ensures FieldLine("boolean", Name("boolean")) == Ok(Optional("boolean", "boolean"))
  {
    ScalarLine("id", Name("id"), "id");
    ScalarLine("date", Name("date"), "date");
    ScalarLine("dateTime", Name("dateTime"), "dateTime");
    ScalarLine("boolean", Name("boolean"), "boolean");
  }

  /** Three values: their literals joined by ' | '. */
  lemma UnionThree(a: Literal, b: Literal, c: Literal)
    ensures Union([a, b, c]) == LiteralText(a) + " | " + LiteralText(b) + " | " + LiteralText(c)
  {
    UnionAppend([a], b);
    UnionAppend([a, b], c);
    assert [a] + [b] == [a, b];
    assert [a, b] + [c] == [a, b, c];
  }

  /** The `enumNumber` case: an array shorthand is an enumeration, and
      numbers stay bare, in order. */
  lemma EnumNumberCase()
    ensures FieldLine("enum", EnumValues([IntLit(1), IntLit(2), IntLit(3)])) == Ok(Optional("enum", "1 | 2 | 3;"))
  {
    var ns := [IntLit(1), IntLit(2), IntLit(3)];
    assert LiteralText(IntLit(1)) == "1";
    assert LiteralText(IntLit(2)) == "2";
    assert LiteralText(IntLit(3)) == "3";
    UnionThree(IntLit(1), IntLit(2), IntLit(3));
    assert "1" + " | " + "2" + " | " + "3" + ";" == "1 | 2 | 3;";
    EnumHandler(FormatRule(EnumValues(ns)));
    OptionalLine("enum", EnumValues(ns), "1 | 2 | 3;");
  }

  /** The `enumStirng` case: strings are quoted, in order. */
  lemma EnumStringCase()
    ensures FieldLine("enum", EnumValues([StrLit("x"), StrLit("y"), StrLit("z")]))
            == Ok(Optional("enum", "'x' | 'y' | 'z';"))
  {
    var ss := [StrLit("x"), StrLit("y"), StrLit("z")];
    assert LiteralText(StrLit("x")) == "'x'";
    assert LiteralText(StrLit("y")) == "'y'";
    assert LiteralText(StrLit("z")) == "'z'";
    UnionThree(StrLit("x"), StrLit("y"), StrLit("z"));
    assert "'x'" + " | " + "'y'" + " | " + "'z'" + ";" == "'x' | 'y' | 'z';";
    EnumHandler(FormatRule(EnumValues(ss)));
    OptionalLine("enum", EnumValues(ss), "'x' | 'y' | 'z';");
  }

  /** The nested schema of the `object`, `array` and `arrayItemType` cases. */
  const NameAge: Schema := [Entry("name", Name("string")), Entry("age", Name("int"))]

  /** Its body: a string `name` and a numeric `age`. */
  lemma NameAgeBody()
    ensures Body(Fields(NameAge)) == Ok(Wrap([Optional("name", "string;"), Optional("age", "number;")]))
  {
    ScalarLine("name", Name("string"), "string");
    ScalarLine("age", Name("int"), "int");
    TwoLines(NameAge[0], NameAge[1], Optional("name", "string;"), Optional("age", "number;"));
    assert [NameAge[0], NameAge[1]] == NameAge;
  }

  /** The `object` case: the nested rule is rendered as a standalone body. */
  lemma ObjectCase()
    ensures Body(Fields([Entry("object", Record(Bare(Some("object")).(sub := RuleObject(NameAge))))]))
            == Ok(Wrap([Optional("object", Wrap([Optional("name", "string;"), Optional("age", "number;")]))]))
  {
    var r := Bare(Some("object")).(sub := RuleObject(NameAge));
    NameAgeBody();
    ObjectHandler("object", r);
    OptionalLine("object", Record(r), Wrap([Optional("name", "string;"), Optional("age", "number;")]));
    OneLine(Entry("object", Record(r)), Optional("object", Wrap([Optional("name", "string;"), Optional("age", "number;")])));
  }

  /** The `array` and `arrayItemType` cases: an array of objects is the
      body of the nested rule followed by '[]'. */
  lemma ArrayCase()
    ensures Body(Fields([Entry("array", Record(Bare(Some("array")).(
              itemType := Some("object"), sub := RuleObject(NameAge))))]))
            == Ok(Wrap([Optional("array", Wrap([Optional("name", "string;"), Optional("age", "number;")]) + "[]")]))
  {
    var r := Bare(Some("array")).(itemType := Some("object"), sub := RuleObject(NameAge));
    var item := Wrap([Optional("name", "string;"), Optional("age", "number;")]);
    NameAgeBody();
    ArrayOfObjects(r);
    OptionalLine("array", Record(r), item + "[]");
    OneLine(Entry("array", Record(r)), Optional("array", item + "[]"));
  }

  /** The rule of the `arrayItemType2` case. Its nested `rule` holds
      `allowEmpty: true`, a truthy non-object, read as the empty record. */
  const StringItems: Rule := Bare(Some("array")).(
    itemType := Some("string"),
    sub := RuleObject([Entry("type", Name("string")), Entry("allowEmpty", Record(Bare(None)))]))

  /** The `arrayItemType2` case: an array of strings is the body of
      `{type: 'string'}` followed by '[]'; the nested `rule` is never read
      for a scalar item type. */
  lemma ArrayOfStringsCase()
    ensures Body(Fields([Entry("array", Record(StringItems))]))
            == Ok(Wrap([Optional("array", Wrap([Optional("type", "string;")]) + "[]")]))
  {
    var r := StringItems;
    var item := Wrap([Optional("type", "string;")]) + "[]";
    assert ScalarText["string"] == "string;";
    ArrayOfScalars(r);
    OptionalLine("array", Record(r), item);
    OneLine(Entry("array", Record(r)), Optional("array", item));
  }

  /** The schema nested in the `complex` case. */
  const Child: Schema := [
    Entry("childx", Record(Bare(Some("enum")).(values := Some([StrLit("x"), StrLit("y"), StrLit("z")])))),
    Entry("childy", Record(Bare(Some("array")).(
      itemType := Some("object"),
      sub := RuleObject([Entry("foo", Name("number")), Entry("bar", Name("string"))]))))
  ]

  /** The `complex` case. */
  const Complex: Schema := [
    Entry("a", Typed("string")),
    Entry("b", Record(Bare(Some("number")).(required := false))),
    Entry("c", Record(Bare(Some("object")).(sub := RuleObject(Child))))
  ]

  /** The body of `Child`. */
  const ChildBody: string :=
    Wrap([Optional("childx", "'x' | 'y' | 'z';"),
          Optional("childy", Wrap([Optional("foo", "number;"), Optional("bar", "string;")]) + "[]")])

  lemma ChildBodyExact()
    ensures Body(Fields(Child)) == Ok(ChildBody)
  {
    var x := Child[0];
    var y := Child[1];
    // childx
    assert LiteralText(StrLit("x")) == "'x'";
    assert LiteralText(StrLit("y")) == "'y'";
    assert LiteralText(StrLit("z")) == "'z'";
    UnionThree(StrLit("x"), StrLit("y"), StrLit("z"));
    assert "'x'" + " | " + "'y'" + " | " + "'z'" + ";" == "'x' | 'y' | 'z';";
    EnumHandler(x.raw.canonical);
    OptionalLine("childx", x.raw, "'x' | 'y' | 'z';");
    // childy
    var foo := Entry("foo", Name("number"));
    var bar := Entry("bar", Name("string"));
    ScalarLine("foo", foo.raw, "number");
    ScalarLine("bar", bar.raw, "string");
    TwoLines(foo, bar, Optional("foo", "number;"), Optional("bar", "string;"));
    ArrayOfObjects(y.raw.canonical);
    OptionalLine("childy", y.raw, Wrap([Optional("foo", "number;"), Optional("bar", "string;")]) + "[]");
    TwoLines(x, y, Optional("childx", "'x' | 'y' | 'z';"),
             Optional("childy", Wrap([Optional("foo", "number;"), Optional("bar", "string;")]) + "[]"));
    assert [x, y] == Child;
  }

  /** `transform` of the `complex` case: the nested object is the
      standalone body of its schema. */
  lemma ComplexCase()
    ensures Body(Fields(Complex)) ==
            Ok(Wrap([Optional("a", "string;"), Optional("b", "number;"), Optional("c", ChildBody)]))
  {
    ScalarLine("a", Complex[0].raw, "string");
    ScalarLine("b", Complex[1].raw, "number");
    ChildBodyExact();
    ObjectHandler("c", Complex[2].raw.canonical);
    OptionalLine("c", Complex[2].raw, ChildBody);
    assert Complex[0].key == "a" && Complex[1].key == "b" && Complex[2].key == "c";
    ThreeLines(Complex[0], Complex[1], Complex[2],
               Optional("a", "string;"), Optional("b", "number;"), Optional("c", ChildBody));
    assert [Complex[0], Complex[1], Complex[2]] == Complex;
  }
}
