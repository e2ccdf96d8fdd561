/**
 * The small part of JSON that the agents look at. Decoding itself
 * (json.loads and pydantic) is library behaviour and stays an oracle;
 * these types only describe what such an oracle hands back.
 */
module JsonValues {

  /**
   * A decoded JSON value: a string, or any other value, kept only as the
   * text Python's str() gives for it.
   */
  datatype JsonValue = JString(str: string) | JNonString(pyStr: string)

  /** A decoded JSON document: an object (a Python dict) or anything else. */
  datatype Document = Object(fields: map<string, JsonValue>) | NonObject

  /** Python's str() (and f-string formatting) of a decoded value. */
  function PyStr(v: JsonValue): string
  {
    match v
    case JString(s) => s
    case JNonString(t) => t
  }
}
