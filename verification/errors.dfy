/** The TypeErrors the compiler throws, and their messages. */
module Errors {
  import opened Text
  import opened Registry

  datatype Result<+T, +E> = Ok(value: T) | Err(error: E)

  datatype Error =
    | InvalidSchema             // transform's argument is not an object (index.js:16-18)
    | UnknownType(passed: string) // a type or itemType the table lacks (index.js:30-33, 307-310)
    | MalformedEnum             // an enum rule whose values is not an array (index.js:214-216)

  /** The message each TypeError carries. */
  function Message(e: Error): string
  {
    match e
    case InvalidSchema => "need object type rule"
    case UnknownType(t) =>
      "rule type must be one of " + Join(TypeNames, ", ") +
      ", but the following type was passed: " + t
    case MalformedEnum => "check enum need array type values"
  }

  /** An unknown-type message names every registered type and ends with the
      rejected name. */
  lemma UnknownTypeMessageNamesAll(t: string)
    ensures forall k :: 0 <= k < |TypeNames| ==> Contains(Message(UnknownType(t)), TypeNames[k])
    ensures Contains(Message(UnknownType(t)), t)
    ensures Message(UnknownType(t))[|Message(UnknownType(t))| - |t|..] == t
  {
    var head := "rule type must be one of ";
    var names := Join(TypeNames, ", ");
    var tail := ", but the following type was passed: " + t;
    assert Message(UnknownType(t)) == head + names + tail;
    forall k | 0 <= k < |TypeNames|
      ensures Contains(Message(UnknownType(t)), TypeNames[k])
    {
      JoinContains(TypeNames, ", ", k);
      ContainsWiden(head, names, tail, TypeNames[k]);
    }
    ContainsSuffix(head + names + ", but the following type was passed: ", t);
    assert head + names + tail == (head + names + ", but the following type was passed: ") + t;
  }
}
