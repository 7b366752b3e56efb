/** `transform` exactly as index.js:15-39 is written. The loop tests an
    undeclared variable `checker` (index.js:30) where the lookup result
    `spec_transfrom` was meant, so the first key of any schema raises a
    ReferenceError before a handler is called (`obj` at index.js:35 is
    undeclared too, but is never reached). `Engine.Transform` models the
    intended loop. */
module AsWritten {
  import opened Rules
  import opened Errors
  import opened Engine
  import opened Properties

  /** What escapes `transform`: one of its TypeErrors, or a ReferenceError
      naming the undeclared identifier. */
  datatype Thrown = Raised(error: Error) | ReferenceError(identifier: string)

  /** The outcome of the code as written. */
  function TransformAsWritten(rules: RuleSet): (r: Result<string, Thrown>)
    ensures r.Ok? <==> rules == Fields([])
    ensures r.Ok? ==> r.value == "{\n}"
    ensures rules.NotAnObject? ==> r == Err(Raised(InvalidSchema))
  {
    EmptyAndInvalid();
    match rules
    case NotAnObject => Err(Raised(InvalidSchema))
    case Fields(s) =>
      if s == [] then Ok(Wrap([]))
      else Err(ReferenceError("checker"))
  }

  /** Where the code as written and the intended loop agree: a non-object
      and the empty schema. Every other schema is lost, even one whose
      every field the intended loop renders. */
  lemma AsWrittenAgreesOnlyWhenEmpty(rules: RuleSet)
    ensures rules.NotAnObject? ==> TransformAsWritten(rules) == Err(Raised(Body(rules).error))
    ensures rules == Fields([]) ==> TransformAsWritten(rules) == Ok(Body(rules).value)
    ensures rules.Fields? && rules.entries != [] ==>
              TransformAsWritten(rules) == Err(ReferenceError("checker"))
  {
    EmptyAndInvalid();
  }

  /** The smallest schema that shows it: `{a: 'string'}` renders as
      "{\na?: string;}" in the intended loop, but raises a ReferenceError
      as written. */
  lemma CheckerCounterexample()
    ensures Body(Fields([Entry("a", Name("string"))])) == Ok("{\na?: string;}")
    ensures TransformAsWritten(Fields([Entry("a", Name("string"))])) == Err(ReferenceError("checker"))
  {
    var e := Entry("a", Name("string"));
    assert ScalarText["string"] == "string;";
    ScalarLine("a", e.raw, "string");
    OneLine(e, Optional("a", "string;"));
    assert Optional("a", "string;") == "a?: string;";
    assert Wrap(["a?: string;"]) == "{\n" + "a?: string;" + "}";
    assert "{\n" + "a?: string;" + "}" == "{\na?: string;}";
  }
}
