/**
  Values shared by every part of the model: bytes, the JSON value tree that
  the Go code's `interface{}` payloads stand for, and the JSON encoder.

  A Go string is a sequence of bytes; here it is a `string` whose every
  character stands for one byte of the Go string.
 */
module Values {

  datatype Option<+T> = None | Some(value: T)

  /** One byte of a Go `[]byte` or of a Go string. */
  type Byte = b: int | 0 <= b < 256

  /** A value as `encoding/json` sees it. `JNull` is the nil interface. */
  datatype Json =
    | JNull
    | JBool(b: bool)
    | JNum(n: int)
    | JStr(s: string)
    | JArr(items: seq<Json>)
    | JObj(fields: seq<(string, Json)>)

  /**
    `json.Marshal` with its error dropped (`res, _ := json.Marshal(v)`): the
    bytes it produces, or none when marshalling fails. The encoder is not
    part of the model, so the parts that encode are given one.
   */
  type Encoder = Json -> seq<Byte>

  /** The value of the first member named `key` of an object, if any. */
  function Field(j: Json, key: string): (r: Option<Json>)
  {
    if j.JObj? then FieldOf(j.fields, key) else None
  }

  function FieldOf(fields: seq<(string, Json)>, key: string): (r: Option<Json>)
    ensures r.Some? <==> exists k :: 0 <= k < |fields| && fields[k].0 == key
  {
    if fields == [] then None
    else if fields[0].0 == key then Some(fields[0].1)
    else FieldOf(fields[1..], key)
  }

  /** Go's `string(b)` for a byte slice: one character per byte. */
  function BytesToString(b: seq<Byte>): (s: string)
    ensures |s| == |b|
    ensures forall i :: 0 <= i < |b| ==> s[i] as int == b[i]
  {
    seq(|b|, i requires 0 <= i < |b| => b[i] as char)
  }
}
