/**
 * The values stored under the core's keys and their text encoding.
 *
 * The JSON grammar is not modelled: a stored text is either the serialisation of
 * a value (what JSON.stringify produced) or text that JSON.parse rejects.
 */
module Json {
  import opened Wrappers
  import opened Models

  /** What reading the `won` property of a parsed value yields. */
  datatype WonProperty =
    | Missing               // the property is undefined
    | Boolean(b: bool)
    | NonBoolean            // a number, string, null, array or object

  /** A parsed JSON value, as far as the core can tell values apart. */
  datatype Value =
    | RecordList(records: seq<GameRecord>)   // a GameRecord[] array
    | Snapshot(state: GameState)             // a GameState object
    | Object(won: WonProperty)               // any other object, such as the mini-game flag

  /** The text held by a browser store under one key. */
  datatype Text =
    | Serialized(value: Value)
    | Unparsable(raw: string)

  /** JSON.stringify: total on the values above, which are finite trees without cycles. */
  function Encode(v: Value): (t: Text)
    ensures Decode(t) == Some(v)
  {
    Serialized(v)
  }

  /** JSON.parse: gives back the encoded value, and fails on any other text. */
  function Decode(t: Text): (r: Option<Value>)
    ensures r.None? <==> t.Unparsable?
    ensures r.Some? ==> t == Serialized(r.value)
  {
    match t
    case Serialized(v) => Some(v)
    case Unparsable(_) => None
  }
}
