/** Values the record loop of main.go works on: Go strings (byte sequences),
    decoded JSON values, records (the `map[string]interface{}` each input line
    is decoded into) and the result of decoding one input line. */
module GoValues {

  /** One byte of a Go string. */
  newtype byte = x: int | 0 <= x < 256

  /** A Go `string` is an immutable sequence of bytes; `[]byte(s)` is the
      identity on those bytes. */
  type GoString = seq<byte>

  datatype Option<T> = None | Some(value: T)

  /** The bytes of a string literal whose characters are all below 256
      (used for the ASCII texts that fmt prints, such as "true" or "<nil>"). */
  function Ascii(s: string): GoString
    requires forall i :: 0 <= i < |s| ==> s[i] as int < 256
  {
    seq(|s|, i requires 0 <= i < |s| => s[i] as int as byte)
  }

  /** What `json.Unmarshal` yields inside an `interface{}`: nil, bool,
      float64 (here a real), string, []interface{} and map[string]interface{}. */
  datatype Value =
    | Null
    | Bool(b: bool)
    | Number(n: real)
    | Str(s: GoString)
    | Array(items: seq<Value>)
    | Object(fields: map<GoString, Value>)

  /** One decoded input line: the top-level JSON object. */
  type Record = map<GoString, Value>

  /** The outcome of decoding one input line (main.go:81-87). A line that is not
      a JSON object is `Undecodable`; the literal `null` decodes to the nil map,
      which behaves as the empty record. */
  datatype Line = Undecodable | Decoded(rec: Record)
}
