/** The JavaScript values and exceptions the HTLC helpers produce and consume. */
module Js {

  /** One octet of a Node `Buffer`. */
  type byte = x: int | 0 <= x < 256

  /** The contents of a Node `Buffer`. */
  type Bytes = seq<byte>

  /** The exceptions the model tells apart. */
  datatype JsError =
    | TypeError              // a property read on a missing handle, or `Buffer.from` given a value it cannot convert
    | RangeError             // `crypto.randomBytes` given a negative size
    | Error(message: string) // `new Error(message)` thrown by the code itself

  /** The values the helpers return, and that contract calls resolve with. */
  datatype Value =
    | Undefined
    | Bool(b: bool)
    | Receipt(tx: string)    // the object a contract transaction resolves with
    | Record(result: Value)  // the object literal `{ result: ... }`

  /** JavaScript truthiness: `undefined` and `false` are falsy, every object is truthy. */
  predicate Truthy(v: Value)
  {
    match v
    case Undefined => false
    case Bool(b) => b
    case Receipt(_) => true
    case Record(_) => true
  }

  /** What a hash object's `hash64` field can hold: base64 text, or a Node hasher object (`crypto.createHash(...)`) that has been fed some text. */
  datatype HashValue = Base64Text(text: string) | Hasher(algorithm: string, fed: string)
}
