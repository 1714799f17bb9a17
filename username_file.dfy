/**
 * Reading the test input from `username.json`. Jackson's parser is not
 * modelled: the file reaches this module already parsed, or unreadable.
 */
module UsernameFile {
  import opened Wrappers

  /** A JSON value as Jackson's tree model holds it. */
  datatype JsonValue =
    | JString(text: string)
    | JNumber(literal: string)
    | JBool(b: bool)
    | JNull
    | JArray(items: seq<JsonValue>)
    | JObject(fields: map<string, JsonValue>)

  /** The outcome of `readTree`: a tree, or an exception (missing file, bad JSON). */
  datatype ConfigFile = Unreadable | Parsed(root: JsonValue)

  const UsernameKey := "username"

  /**
   * `JsonNode.asText()`: the text of a string node, the number's literal
   * (which stands in for Jackson's canonical number text), `true`/`false`,
   * `null` for a JSON null, and the empty text for arrays and objects.
   */
  function AsText(v: JsonValue): (text: string)
    ensures v.JString? ==> text == v.text
    ensures v.JNull? ==> text == "null"
    ensures v.JArray? || v.JObject? ==> text == []
  {
    match v
    case JString(s) => s
    case JNumber(lit) => lit
    case JBool(b) => if b then "true" else "false"
    case JNull => "null"
    case JArray(_) => ""
    case JObject(_) => ""
  }

  /** True when the file parsed to an object that has a `username` member. */
  predicate HasUsername(file: ConfigFile)
  {
    file.Parsed? && file.root.JObject? && UsernameKey in file.root.fields
  }

  /**
   * `readUsername`: the text of the `username` member, or `None` (Java's
   * `null`) when the file cannot be read or parsed, or has no such member.
   */
  function ReadUsername(file: ConfigFile): (username: Option<string>)
    ensures username.Some? <==> HasUsername(file)
    ensures HasUsername(file) ==> username == Some(AsText(file.root.fields[UsernameKey]))
  {
    match file
    case Unreadable => None
    case Parsed(root) =>
      if root.JObject? && UsernameKey in root.fields then Some(AsText(root.fields[UsernameKey]))
      else None
  }

  /** A string-valued `username` member is returned unchanged. */
  lemma ReadsStringMember(fields: map<string, JsonValue>, name: string)
    requires UsernameKey in fields && fields[UsernameKey] == JString(name)
    ensures ReadUsername(Parsed(JObject(fields))) == Some(name)
  {
  }

  /** An explicit JSON null is not absence: it reads as the text `null`. */
  lemma NullMemberIsText(fields: map<string, JsonValue>)
    requires UsernameKey in fields && fields[UsernameKey] == JNull
    ensures ReadUsername(Parsed(JObject(fields))) == Some("null")
  {
  }
}
