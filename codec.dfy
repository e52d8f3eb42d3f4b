/**
  The values that cross the WebView bridge and the envelope codec.

  A message in either direction is the JSON text of an object
  `{ type, name, data }`. JSON text syntax is not modelled: a frame is the
  JavaScript value that `JSON.stringify` would serialise, and an inbound
  message is either text that parses (given as its parsed value) or text
  that does not.
 */
module Codec {

  datatype Option<+T> = None | Some(value: T)

  /** The JavaScript values the bridge handles: what JSON can carry, plus `undefined`. */
  datatype Value =
    | Undefined
    | Null
    | Bool(b: bool)
    | Num(n: int)
    | Str(s: string)
    | Arr(items: seq<Value>)
    | Obj(fields: map<string, Value>)

  /** JavaScript truthiness (`NaN` never comes out of a JSON parse). */
  predicate Truthy(v: Value) {
    match v
    case Undefined => false
    case Null => false
    case Bool(b) => b
    case Num(n) => n != 0
    case Str(s) => s != ""
    case Arr(_) => true
    case Obj(_) => true
  }

  /**
    JavaScript `a === b`. Primitives compare by value; arrays and objects
    compare by reference, and every array or object the bridge holds comes
    from its own `JSON.parse`, so no two of them are the same reference.
   */
  predicate StrictEquals(a: Value, b: Value) {
    !a.Arr? && !a.Obj? && a == b
  }

  /** The text carried by `event.nativeEvent.data`. */
  datatype Raw = Json(value: Value) | Garbage(text: string)

  /** A decoded inbound message, or the marker for one that cannot be read. */
  datatype Decoded = Malformed | Envelope(tag: Value, name: Value, data: Value)

  /** Property access `v[key]`: `undefined` when `v` is not an object or lacks the key. */
  function Field(v: Value, key: string): Value {
    if v.Obj? && key in v.fields then v.fields[key] else Undefined
  }

  /** One member of an object literal; `JSON.stringify` drops `undefined` members. */
  function Member(key: string, v: Value): map<string, Value> {
    if v.Undefined? then map[] else map[key := v]
  }

  /** `JSON.stringify({ type, name: action, data })`. */
  function Encode(tag: Value, name: Value, data: Value): (frame: Value)
    ensures frame.Obj? && frame.fields.Keys <= {"type", "name", "data"}
    ensures forall k :: k in frame.fields ==> !frame.fields[k].Undefined?
    ensures Decode(Json(frame)) == Envelope(tag, name, data)
  {
    Obj(Member("type", tag) + Member("name", name) + Member("data", data))
  }

  /** `r` is member `key` of `v` when `v` is an object holding it, and `undefined` otherwise. */
  predicate MemberOrUndefined(v: Value, key: string, r: Value) {
    && (v.Obj? && key in v.fields ==> r == v.fields[key])
    && (!v.Obj? || key !in v.fields ==> r.Undefined?)
  }

  /**
    `JSON.parse(text)` followed by reading `type`, `name` and `data`. Text that
    does not parse, and `null` (reading a property of it throws), are
    `Malformed`; any other value yields an envelope whose absent members are
    `undefined`.
   */
  function Decode(raw: Raw): (d: Decoded)
    ensures d.Malformed? <==> raw.Garbage? || raw.value.Null? || raw.value.Undefined?
    ensures d.Envelope? ==>
      && MemberOrUndefined(raw.value, "type", d.tag)
      && MemberOrUndefined(raw.value, "name", d.name)
      && MemberOrUndefined(raw.value, "data", d.data)
  {
    match raw
    case Garbage(_) => Malformed
    case Json(v) =>
      if v.Null? || v.Undefined? then Malformed
      else Envelope(Field(v, "type"), Field(v, "name"), Field(v, "data"))
  }

  /** Categories of outbound command (`actions` of the constants file). */
  datatype Action = Content | InsertImage | UpdateHeight

  /** Inbound message kinds (`messages` of the constants file). */
  datatype Message = ContentHtmlResponse | Log | SelectionChange | ContentFocused | OffsetHeight

  /**
    The wire spelling of each action. The constants file is not part of this
    model; these spellings stand for its values, and only their being
    distinct matters.
   */
  function ActionTag(a: Action): Value {
    match a
    case Content => Str("content")
    case InsertImage => Str("insertImage")
    case UpdateHeight => Str("updateHeight")
  }

  /** The wire spelling of each inbound message kind (placeholders, distinct). */
  function MessageTag(m: Message): Value {
    match m
    case ContentHtmlResponse => Str("CONTENT_HTML_RESPONSE")
    case Log => Str("LOG")
    case SelectionChange => Str("SELECTION_CHANGE")
    case ContentFocused => Str("CONTENT_FOCUSED")
    case OffsetHeight => Str("OFFSET_HEIGHT")
  }

  /** The `switch (message.type)` of the inbound dispatcher: which case, if any, matches. */
  function Classify(tag: Value): (m: Option<Message>)
    ensures m.Some? ==> tag == MessageTag(m.value)
    ensures forall k :: tag == MessageTag(k) ==> m == Some(k)
  {
    if tag == MessageTag(ContentHtmlResponse) then Some(ContentHtmlResponse)
    else if tag == MessageTag(Log) then Some(Log)
    else if tag == MessageTag(SelectionChange) then Some(SelectionChange)
    else if tag == MessageTag(ContentFocused) then Some(ContentFocused)
    else if tag == MessageTag(OffsetHeight) then Some(OffsetHeight)
    else None
  }

  /** The frame the embedded page sends for a message of kind `m` carrying `data`. */
  function InboundFrame(m: Message, data: Value): Raw {
    Json(Encode(MessageTag(m), Undefined, data))
  }
}
