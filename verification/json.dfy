/**
 * The parsed JSON tree the refresh reads, with the navigation operations of
 * Jackson's `JsonNode` that the plugin uses: `get(String)`, `get(int)` and
 * `asText()`. Parsing itself is not modelled here; the refresh takes it as a
 * parameter.
 */
module JsonTree {
  import opened Wrappers

  /**
   * A JSON value. Object fields are keyed by name (a repeated key keeps one
   * value); a number carries the text Jackson renders it as.
   */
  datatype Json =
    | JNull
    | JBool(b: bool)
    | JNumber(text: string)
    | JString(s: string)
    | JArray(items: seq<Json>)
    | JObject(fields: map<string, Json>)

  /** `JsonNode.get(String)`: the named field of an object node, none on any other node. */
  function Field(node: Json, name: string): Option<Json> {
    if node.JObject? && name in node.fields then Some(node.fields[name]) else None
  }

  /** `JsonNode.get(int)`: an element of an array node, none out of range or on any other node. */
  function Element(node: Json, i: int): Option<Json> {
    if node.JArray? && 0 <= i < |node.items| then Some(node.items[i]) else None
  }

  /**
   * `JsonNode.asText()`: total on every node. A JSON `null` reads as the
   * four-letter text "null"; arrays and objects read as the empty text.
   */
  function AsText(node: Json): string {
    match node
    case JNull => "null"
    case JBool(b) => if b then "true" else "false"
    case JNumber(t) => t
    case JString(s) => s
    case JArray(_) => ""
    case JObject(_) => ""
  }

  /** One step of a path into a tree: an object field or an array index. */
  datatype Step = Key(name: string) | Index(i: nat)

  /** The child one step leads to, if there is one. */
  function StepInto(node: Json, step: Step): Option<Json> {
    match step
    case Key(k) => Field(node, k)
    case Index(i) => Element(node, i)
  }

  /** Follows `path` from `node`; none as soon as one step is missing. */
  function Navigate(node: Json, path: seq<Step>): Option<Json>
    decreases |path|
  {
    if path == [] then Some(node)
    else
      match StepInto(node, path[0])
      case None => None
      case Some(child) => Navigate(child, path[1..])
  }

  /** The text at the end of `path`, none when the path does not exist. */
  function TextAt(node: Json, path: seq<Step>): Option<string> {
    match Navigate(node, path)
    case None => None
    case Some(n) => Some(AsText(n))
  }
}
