/** The values that cross the websocket, taken as already decoded: the JSON
    encoding and decoding themselves are not modelled. */
module Messages {

  datatype Option<+T> = None | Some(value: T)

  /** A decoded JSON value (numbers are modelled as integers). */
  datatype Value =
    | Null
    | Bool(b: bool)
    | Number(n: int)
    | Str(s: string)
    | Array(items: seq<Value>)
    | Object(fields: map<string, Value>)

  /** The attribute map of one entity: attribute name to value. */
  type Attrs = map<string, Value>

  /** One inbound frame as the read loop sees it after `ws.receive()`. */
  datatype Frame =
    | Empty            // a falsy frame: no text, or the empty text
    | ClearText        // exactly the text "clear"
    | Json(v: Value)   // any other text, which decodes to v
    | NotJson          // any other text, which does not decode

  /** One message put on a client's queue. */
  datatype Outbound =
    | ClearNotice          // the raw text "clear"
    | JsonText(v: Value)   // the JSON encoding of v

  /** The lookups `msg["entity"]` and `msg["data"]` on a decoded frame:
      None where the source raises (the value is not an object, or a field is
      missing) and, as a protocol error, where the entity is not a string
      or the data is not an attribute map. */
  function EntityFields(v: Value): Option<(string, Attrs)>
  {
    match v
    case Object(fields) =>
      if "entity" in fields && "data" in fields && fields["entity"].Str? && fields["data"].Object?
      then Some((fields["entity"].s, fields["data"].fields))
      else None
    case _ => None
  }

  /** The entity message a client sends, `{"entity": entity, "data": data}`;
      the read loop recovers exactly the pair it was built from. */
  function EntityMessage(entity: string, data: Attrs): (v: Value)
    ensures EntityFields(v) == Some((entity, data))
    ensures v.Object? && v.fields.Keys == {"entity", "data"}
  {
    Object(map["entity" := Str(entity), "data" := Object(data)])
  }
}
