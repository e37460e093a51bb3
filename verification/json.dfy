/**
  An abstraction of the JSON documents exchanged through the queue and the
  stats store. The JSON grammar itself is not modelled: a text is described
  by what `json.loads` makes of it.
 */
module Json {

  /** A JSON value as it appears under a key of an object. */
  datatype Value =
    | Null
    | Bool(b: bool)
    | Int(i: int)
    | Real(r: real)
    | Str(s: string)
    | Nested   // an array or an object; no operation here looks inside one

  /** A decoded JSON object: a flat field map. */
  type Object = map<string, Value>

  /** A serialized payload (a queue body or a stored value), classified by its parse. */
  datatype Text =
    | Empty              // the empty text
    | Doc(fields: Object) // a text that parses to a JSON object
    | NotAnObject        // a text that parses to an array, number, string, ...
    | Unparsable         // a text that `json.loads` rejects

  /** Why reading a field out of a text fails. */
  datatype DecodeError =
    | Malformed              // `json.loads` raised
    | NoFields               // the parsed value has no keyed fields (TypeError/AttributeError)
    | MissingKey(key: string) // indexing a required key raised KeyError
    | WrongType(key: string)  // a field holds a value of an unexpected JSON kind
}
