/** The hash commitment of an HTLC: the classes `SHA`, `SHA256` and `SHA512` of the sample application. */
module HashFunction {
  import opened Wrappers
  import opened Js
  import opened AssetLocksPb
  import opened Library

  /** Which concrete JavaScript class an object was built from; both extend `SHA`. */
  datatype HashClass = SHA256Class | SHA512Class

  /** The message `getSerializedHashBase64` throws with while no hash is present. */
  const HashNotSetMessage: string := "Error: Hash or Preimage needs to be set before access"

  /** The name each class reads off `HashMechanism` for its `HASH_MECHANISM` field. */
  function MechanismName(c: HashClass): (name: string)
  {
    if c == SHA256Class then "SHA256" else "SHA512"
  }

  /**
   * `HASH_MECHANISM` as the file initialises it: `HashMechanism.SHA256` (or `.SHA512`),
   * where `HashMechanism` is bound by `require` to the whole protobuf module object,
   * whose enum constants sit one level further down. Both classes therefore get `undefined`.
   */
  function DeclaredMechanism(c: HashClass): (v: PbValue)
    ensures v == Absent
  {
    Get(Module, MechanismName(c))
  }

  /** `HASH_MECHANISM` read through the enum, `require(...).HashMechanism.SHA256`: the constant the field evidently means to hold. */
  function IntendedMechanism(c: HashClass): (v: PbValue)
    ensures v == Constant("HashMechanism", MechanismName(c))
  {
    Get(Get(Module, "HashMechanism"), MechanismName(c))
  }

  /** As written, the two classes declare the same mechanism tag, so the tag cannot tell a verifier which digest to apply. */
  lemma MechanismTagsCoincide()
    ensures DeclaredMechanism(SHA256Class) == DeclaredMechanism(SHA512Class)
  {
  }

  /** Read through the enum, the two classes carry distinct tags. */
  lemma IntendedMechanismsDistinct()
    ensures IntendedMechanism(SHA256Class) != IntendedMechanism(SHA512Class)
  {
  }

  /**
   * `computeHash()` on a given preimage. SHA256 returns the base64 SHA-256 digest;
   * SHA512 returns the hasher itself after `update(preimage)`, its `.digest('base64')` being commented out.
   */
  function ComputeHash(c: HashClass, lib: Lib, preimage: string): (h: HashValue)
    ensures h.Base64Text? <==> c == SHA256Class
    ensures h.Base64Text? ==> h.text == lib.sha256Base64(preimage)
    ensures h.Hasher? ==> h.algorithm == "sha512" && h.fed == preimage
  {
    match c
    case SHA256Class => Base64Text(lib.sha256Base64(preimage))
    case SHA512Class => Hasher("sha512", preimage)
  }

  /** `computeHash()` with the digest taken for both classes. */
  function ComputeHashIntended(c: HashClass, lib: Lib, preimage: string): (h: HashValue)
    ensures h.Base64Text?
    ensures c == SHA256Class ==> h == ComputeHash(c, lib, preimage)
    ensures c == SHA512Class ==> h.text == lib.sha512Base64(preimage)
  {
    match c
    case SHA256Class => Base64Text(lib.sha256Base64(preimage))
    case SHA512Class => Base64Text(lib.sha512Base64(preimage))
  }

  /**
   * As written, the SHA512 "hash" is no digest text: it is a hasher object fed the preimage. Hashers are
   * compared by value here, whereas each `setPreimage` creates a new hasher object with its own identity.
   */
  lemma Sha512HashHoldsPreimage(lib: Lib, preimage: string)
    ensures !ComputeHash(SHA512Class, lib, preimage).Base64Text?
    ensures ComputeHash(SHA512Class, lib, preimage).fed == preimage
  {
  }

  /** With the digest taken, both classes produce base64 text, and each produces the digest of its own algorithm. */
  lemma IntendedHashIsDigestText(c: HashClass, lib: Lib, preimage: string)
    ensures ComputeHashIntended(c, lib, preimage).Base64Text?
    ensures ComputeHashIntended(c, lib, preimage).text
            == (if c == SHA256Class then lib.sha256Base64(preimage) else lib.sha512Base64(preimage))
  {
  }

  /** The two mutable fields of a `SHA` object; `None` is `null`. */
  datatype ShaFields = ShaFields(preimage: Option<string>, hash64: Option<HashValue>)

  /** A freshly constructed object: both fields `null`. */
  const Fresh: ShaFields := ShaFields(None, None)

  /** The two ways the fields change: `setPreimage(p)` (also reached through `generateRandomPreimage`) and `setSerializedHashBase64(h)`. */
  datatype Update = PreimageSet(p: string) | HashInstalled(h: HashValue)

  /** The fields after one update. */
  function Apply(c: HashClass, lib: Lib, f: ShaFields, u: Update): (g: ShaFields)
  {
    match u
    case PreimageSet(p) => ShaFields(Some(p), Some(ComputeHash(c, lib, p)))
    case HashInstalled(h) => f.(hash64 := Some(h))
  }

  /** The fields after a sequence of updates, applied in order. */
  function Run(c: HashClass, lib: Lib, f: ShaFields, us: seq<Update>): (g: ShaFields)
    decreases |us|
  {
    if us == [] then f else Apply(c, lib, Run(c, lib, f, us[..|us| - 1]), us[|us| - 1])
  }

  /** The fields agree with each other: a preimage is present and the hash is the one computed from it. */
  predicate Committed(c: HashClass, lib: Lib, f: ShaFields)
  {
    f.preimage.Some? && f.hash64 == Some(ComputeHash(c, lib, f.preimage.value))
  }

  /** `getSerializedHashBase64()` on a `hash64` field: the hash, or the error thrown while it is `null`. */
  function SerializedHash(hash64: Option<HashValue>): (r: Result<HashValue, JsError>)
    ensures r.Ok? <==> hash64.Some?
    ensures r.Ok? ==> r.value == hash64.value
    ensures r.Err? ==> r.error == Error(HashNotSetMessage)
  {
    if hash64.Some? then Ok(hash64.value) else Err(Error(HashNotSetMessage))
  }

  /** `Buffer.from(this.preimage)` on a `preimage` field: `Buffer.from(null)` throws a TypeError. */
  function PreimageBuffer(lib: Lib, preimage: Option<string>): (r: Result<Bytes, JsError>)
    ensures r.Ok? <==> preimage.Some?
    ensures r.Ok? ==> r.value == lib.utf8(preimage.value)
    ensures r.Err? ==> r.error == TypeError
  {
    if preimage.Some? then Ok(lib.utf8(preimage.value)) else Err(TypeError)
  }

  /** A fresh object has no hash: asking for it throws. */
  lemma FreshHashNotReady()
    ensures SerializedHash(Fresh.hash64) == Err(Error(HashNotSetMessage))
  {
  }

  /** After `setPreimage(p)` the fields are committed to `p`, whatever they held before. */
  lemma SetPreimageCommits(c: HashClass, lib: Lib, f: ShaFields, p: string)
    ensures Committed(c, lib, Apply(c, lib, f, PreimageSet(p)))
    ensures Apply(c, lib, f, PreimageSet(p)).preimage == Some(p)
  {
  }

  /** Setting the same preimage twice leaves the same fields, hence the same hash, as setting it once. */
  lemma SetPreimageIdempotent(c: HashClass, lib: Lib, f: ShaFields, p: string)
    ensures Apply(c, lib, Apply(c, lib, f, PreimageSet(p)), PreimageSet(p)) == Apply(c, lib, f, PreimageSet(p))
  {
  }

  /** `setSerializedHashBase64(h)` makes `h` the hash and leaves the preimage as it was. */
  lemma InstallHashKeepsPreimage(c: HashClass, lib: Lib, f: ShaFields, h: HashValue)
    ensures Apply(c, lib, f, HashInstalled(h)).preimage == f.preimage
    ensures SerializedHash(Apply(c, lib, f, HashInstalled(h)).hash64) == Ok(h)
  {
  }

  /** A later `setPreimage(p)` overwrites every earlier update, installed hashes included: the object ends committed to `p` as if new. */
  lemma {:induction false} LastSetPreimageWins(c: HashClass, lib: Lib, f: ShaFields, us: seq<Update>, p: string)
    ensures Run(c, lib, f, us + [PreimageSet(p)]) == Apply(c, lib, Fresh, PreimageSet(p))
    ensures Committed(c, lib, Run(c, lib, f, us + [PreimageSet(p)]))
  {
    assert (us + [PreimageSet(p)])[..|us|] == us;
  }

  /** Reference definition, read front to back: the preimage of the last `PreimageSet` in a sequence of updates, if any. */
  function LastPreimage(us: seq<Update>): (p: Option<string>)
    decreases |us|
  {
    if us == [] then None
    else match LastPreimage(us[1..])
      case Some(p) => Some(p)
      case None => if us[0].PreimageSet? then Some(us[0].p) else None
  }

  /** Appending an update to a sequence: a `PreimageSet` becomes the last one, anything else leaves the last one as it was. */
  lemma {:induction false} LastPreimageAppend(us: seq<Update>, u: Update)
    ensures LastPreimage(us + [u]) == if u.PreimageSet? then Some(u.p) else LastPreimage(us)
    decreases |us|
  {
    if us != [] {
      assert (us + [u])[1..] == us[1..] + [u];
      LastPreimageAppend(us[1..], u);
    }
  }

  /** No `PreimageSet` in a sequence exactly when it has no last one. */
  lemma {:induction false} LastPreimageNone(us: seq<Update>)
    ensures LastPreimage(us).None? <==> forall i | 0 <= i < |us| :: us[i].HashInstalled?
    decreases |us|
  {
    if us != [] {
      LastPreimageNone(us[1..]);
      assert forall i | 1 <= i < |us| :: us[i] == us[1..][i - 1];
    }
  }

  /** From a fresh object, the preimage after any sequence of updates is the one the last `setPreimage` stored; `null` if there was none. */
  lemma {:induction false} RunPreimage(c: HashClass, lib: Lib, us: seq<Update>)
    ensures Run(c, lib, Fresh, us).preimage == LastPreimage(us)
    decreases |us|
  {
    if us != [] {
      var n := |us| - 1;
      RunPreimage(c, lib, us[..n]);
      assert us == us[..n] + [us[n]];
      LastPreimageAppend(us[..n], us[n]);
    }
  }

  /** From a fresh object, a hash is present exactly when some update has happened. */
  lemma RunHashReady(c: HashClass, lib: Lib, us: seq<Update>)
    ensures SerializedHash(Run(c, lib, Fresh, us).hash64).Ok? <==> us != []
  {
  }

  /**
   * From a fresh object, the half-built state (a hash with no preimage behind it)
   * is reached exactly by a non-empty sequence made only of `setSerializedHashBase64` calls.
   */
  lemma {:induction false} DigestOnlyIff(c: HashClass, lib: Lib, us: seq<Update>)
    ensures (Run(c, lib, Fresh, us).hash64.Some? && Run(c, lib, Fresh, us).preimage.None?)
            <==> (us != [] && forall i | 0 <= i < |us| :: us[i].HashInstalled?)
  {
    RunPreimage(c, lib, us);
    LastPreimageNone(us);
    RunHashReady(c, lib, us);
  }

  /** From a fresh object that never receives `setSerializedHashBase64`, the fields are always either fresh or committed. */
  lemma PreimageOnlyRunsStayConsistent(c: HashClass, lib: Lib, us: seq<Update>)
    requires forall i | 0 <= i < |us| :: us[i].PreimageSet?
    ensures Run(c, lib, Fresh, us) == Fresh || Committed(c, lib, Run(c, lib, Fresh, us))
  {
  }

  /** What the asset manager sees of a hash object: its `HASH_MECHANISM` and its `hash64`. */
  datatype HashView = HashView(mechanism: PbValue, hash64: Option<HashValue>)

  /** A `SHA256` or `SHA512` object. */
  class Sha {
    /** Which class the object was built from; it decides what `computeHash` does. */
    const hashClass: HashClass
    /** The crypto and buffer functions the object calls. */
    const lib: Lib
    /** The field `HASH_MECHANISM`. */
    const mechanism: PbValue
    var preimage: Option<string>
    var hash64: Option<HashValue>

    /** The two mutable fields as a value. */
    function Fields(): (f: ShaFields)
      reads this
    {
      ShaFields(preimage, hash64)
    }

    /**
     * The object's invariant: once a preimage is set a hash is set too, and `HASH_MECHANISM`
     * is what the class declares.
     */
    predicate Valid()
      reads this
    {
      (preimage.Some? ==> hash64.Some?) && mechanism == DeclaredMechanism(hashClass)
    }

    /** The object as the asset manager reads it. */
    function View(): (v: HashView)
      reads this
    {
      HashView(mechanism, hash64)
    }

    /** `new SHA256()`. */
    constructor SHA256(lib: Lib)
      ensures hashClass == SHA256Class && this.lib == lib
      ensures mechanism == DeclaredMechanism(SHA256Class)
      ensures Fields() == Fresh && Valid()
    {
      hashClass := SHA256Class;
      this.lib := lib;
      mechanism := DeclaredMechanism(SHA256Class);
      preimage := None;
      hash64 := None;
    }

    /** `new SHA512()`. */
    constructor SHA512(lib: Lib)
      ensures hashClass == SHA512Class && this.lib == lib
      ensures mechanism == DeclaredMechanism(SHA512Class)
      ensures Fields() == Fresh && Valid()
    {
      hashClass := SHA512Class;
      this.lib := lib;
      mechanism := DeclaredMechanism(SHA512Class);
      preimage := None;
      hash64 := None;
    }

    /** `setPreimage(p)`: stores the preimage, then recomputes the hash from it. */
    method SetPreimage(p: string)
      requires Valid()
      modifies this
      ensures Valid()
      ensures Fields() == Apply(hashClass, lib, old(Fields()), PreimageSet(p))
      ensures preimage == Some(p) && Committed(hashClass, lib, Fields())
    {
      preimage := Some(p);
      hash64 := Some(ComputeHash(hashClass, lib, preimage.value));
    }

    /**
     * `generateRandomPreimage(length)`: `entropy` stands for the bytes `crypto.randomBytes(length)` returns;
     * a negative length makes it throw before anything changes.
     */
    method GenerateRandomPreimage(length: int, entropy: Bytes) returns (r: Result<(), JsError>)
      requires length >= 0 ==> |entropy| == length
      requires Valid()
      modifies this
      ensures Valid()
      ensures length < 0 ==> r == Err(RangeError) && Fields() == old(Fields())
      ensures length >= 0 ==> r.Ok? && Fields() == Apply(hashClass, lib, old(Fields()), PreimageSet(lib.base64(entropy)))
      ensures length >= 0 ==> Committed(hashClass, lib, Fields())
    {
      if length < 0 {
        return Err(RangeError);
      }
      SetPreimage(lib.base64(entropy));
      r := Ok(());
    }

    /** `getPreimage()`. */
    method GetPreimage() returns (p: Option<string>)
      ensures p == preimage
    {
      p := preimage;
    }

    /** `getSerializedPreimageBase64()`: the preimage's bytes, or a TypeError while it is `null`. */
    method GetSerializedPreimageBase64() returns (r: Result<Bytes, JsError>)
      ensures preimage.Some? ==> r == Ok(lib.utf8(preimage.value))
      ensures preimage.None? ==> r == Err(TypeError)
    {
      r := PreimageBuffer(lib, preimage);
    }

    /** `setSerializedHashBase64(h)`: installs a hash and leaves the preimage alone. */
    method SetSerializedHashBase64(h: HashValue)
      requires Valid()
      modifies this`hash64
      ensures Valid()
      ensures Fields() == Apply(hashClass, lib, old(Fields()), HashInstalled(h))
      ensures hash64 == Some(h) && preimage == old(preimage)
    {
      hash64 := Some(h);
    }

    /** `getSerializedHashBase64()`: the hash, or the error thrown while it is `null`. */
    method GetSerializedHashBase64() returns (r: Result<HashValue, JsError>)
      ensures hash64.Some? ==> r == Ok(hash64.value)
      ensures hash64.None? ==> r == Err(Error(HashNotSetMessage))
      ensures Valid() && preimage.Some? ==> r.Ok?
    {
      r := SerializedHash(hash64);
    }
  }
}
