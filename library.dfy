/** Library code the helpers call but whose code is not part of this model. */
module Library {
  import opened Wrappers
  import opened Js
  import AssetLocksPb

  /** The foreign functions, each assumed only to be a function: the same input always gives the same output. */
  datatype Lib = Lib(
    utf8: string -> Bytes,                   // Buffer.from(text): the UTF-8 bytes of a string
    base64: Bytes -> string,                 // buffer.toString('base64')
    sha256Base64: string -> string,          // crypto.createHash('sha256').update(text).digest('base64')
    sha512Base64: string -> string,          // crypto.createHash('sha512').update(text).digest('base64')
    utf8ToHex: string -> string,             // Web3.utf8ToHex(text)
    hexToBytes: string -> Bytes,             // Buffer.from(text, "hex")
    serialize: AssetLocksPb.Message -> Bytes) // message.serializeBinary()

  /** `Buffer.from(v)` on what a `hash64` field holds: text becomes its UTF-8 bytes; a hasher object is neither a string, a buffer nor array-like, so Node throws a TypeError. */
  function BufferFrom(lib: Lib, v: HashValue): (r: Result<Bytes, JsError>)
    ensures r.Ok? <==> v.Base64Text?
    ensures r.Err? ==> r.error == TypeError
    ensures r.Ok? ==> r.value == lib.utf8(v.text)
  {
    match v
    case Base64Text(text) => Ok(lib.utf8(text))
    case Hasher(_, _) => Err(TypeError)
  }
}
