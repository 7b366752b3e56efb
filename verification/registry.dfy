/** `TYPE_MAP` (index.js:53-70): the fixed, ordered table from type name to
    handler. Several names are aliases for one handler. */
module Registry {
  import opened Rules

  /** The handler functions of index.js:106-318, one constructor each. */
  datatype Handler =
    | CheckNumber | CheckInt | CheckString | CheckId | CheckDate | CheckDateTime
    | CheckBoolean | CheckArray | CheckObject | CheckEnum | CheckEmail
    | CheckPassword | CheckUrl

  /** `Object.keys(TYPE_MAP)`: the sixteen names in declaration order. */
  const TypeNames: seq<string> := [
    "number", "int", "integer", "string", "id", "date", "dateTime", "datetime",
    "boolean", "bool", "array", "object", "enum", "email", "password", "url"
  ]

  /** `TYPE_MAP[name]`: the handler registered under a name, if any. */
  function HandlerFor(name: string): (h: Option<Handler>)
    ensures h.Some? <==> name in TypeNames
  {
    match name
    case "number" => Some(CheckNumber)
    case "int" => Some(CheckInt)
    case "integer" => Some(CheckInt)
    case "string" => Some(CheckString)
    case "id" => Some(CheckId)
    case "date" => Some(CheckDate)
    case "dateTime" => Some(CheckDateTime)
    case "datetime" => Some(CheckDateTime)
    case "boolean" => Some(CheckBoolean)
    case "bool" => Some(CheckBoolean)
    case "array" => Some(CheckArray)
    case "object" => Some(CheckObject)
    case "enum" => Some(CheckEnum)
    case "email" => Some(CheckEmail)
    case "password" => Some(CheckPassword)
    case "url" => Some(CheckUrl)
    case _ => None
  }

  /** `TYPE_MAP[rule.type]`; a missing `type` is looked up as the property
      name "undefined", which the table does not have. */
  function Lookup(typeName: Option<string>): (h: Option<Handler>)
    ensures h.Some? <==> typeName.Some? && typeName.value in TypeNames
  {
    match typeName
    case None => None
    case Some(t) => HandlerFor(t)
  }

  /** How `rule.type` appears when concatenated into a message. */
  function TypeText(typeName: Option<string>): string
  {
    match typeName
    case None => "undefined"
    case Some(t) => t
  }

  /** The table has sixteen distinct names. */
  lemma NamesDistinct()
    ensures |TypeNames| == 16
    ensures forall i, j :: 0 <= i < j < |TypeNames| ==> TypeNames[i] != TypeNames[j]
  {
  }

  /** The table read backwards: the names each handler is registered under.
      `int`/`integer`, `dateTime`/`datetime` and `boolean`/`bool` are
      aliases (index.js:55-56, 60-61, 62-63); every other handler has one
      name. */
  lemma NamesOfHandlers(n: string)
    ensures HandlerFor(n) == Some(CheckInt) <==> n == "int" || n == "integer"
    ensures HandlerFor(n) == Some(CheckDateTime) <==> n == "dateTime" || n == "datetime"
    ensures HandlerFor(n) == Some(CheckBoolean) <==> n == "boolean" || n == "bool"
    ensures HandlerFor(n) == Some(CheckNumber) <==> n == "number"
    ensures HandlerFor(n) == Some(CheckString) <==> n == "string"
    ensures HandlerFor(n) == Some(CheckId) <==> n == "id"
    ensures HandlerFor(n) == Some(CheckDate) <==> n == "date"
    ensures HandlerFor(n) == Some(CheckArray) <==> n == "array"
    ensures HandlerFor(n) == Some(CheckObject) <==> n == "object"
    ensures HandlerFor(n) == Some(CheckEnum) <==> n == "enum"
    ensures HandlerFor(n) == Some(CheckEmail) <==> n == "email"
    ensures HandlerFor(n) == Some(CheckPassword) <==> n == "password"
    ensures HandlerFor(n) == Some(CheckUrl) <==> n == "url"
  {
    match n
    case "number" => case "int" => case "integer" => case "string" =>
    case "id" => case "date" => case "dateTime" => case "datetime" =>
    case "boolean" => case "bool" => case "array" => case "object" =>
    case "enum" => case "email" => case "password" => case "url" =>
    case _ => assert HandlerFor(n) == None;
  }
}
