# HTLC client helpers: hash commitment and asset-manager drivers

This project models, in Dafny, the client side of a Hashed Time-Lock Contract (HTLC) on a Besu ledger as two files implement it:

- `samples/besu/simpleasset/app/hashFunction.js` holds the hash commitment. A `SHA256` or `SHA512` object (both extend `SHA`) has a `HASH_MECHANISM` tag and two mutable fields, `preimage` and `hash64`. `setPreimage` and `generateRandomPreimage` store a preimage and recompute the hash. `setSerializedHashBase64` installs a hash with no preimage behind it. `getSerializedHashBase64` throws while no hash is present.
- `sdks/besu/interoperation-node-sdk/src/AssetManager.ts` holds five payload builders (unique, fungible and hybrid exchange agreements, lock info, claim info). It also holds the drivers `createHTLC`, `claimAssetInHTLC`, `isAssetLockedInHTLC` and `reclaimAssetInHTLC`, which check their inputs and then call the asset-manager contract.

Modules:

- `Wrappers`: `Option` (`None` is `null`) and `Result` (a value, or the exception thrown).
- `Js`: the JavaScript values the helpers return, their truthiness, the exceptions, and the two kinds of value a `hash64` field holds (base64 text, or a Node hasher object).
- `AssetLocksPb`: the generated protobuf module. It covers the module object as JavaScript reads it (`Get`: a missing name reads as `undefined`, here `Absent`), the six messages, and their fresh instances.
- `Library`: the foreign functions, as a datatype of function values: SHA-256/SHA-512 digests in base64, base64 and UTF-8 conversion, `Web3.utf8ToHex`, hex decoding and `serializeBinary`. They are abstract. The only assumption is that each is a function, so the same input always gives the same output.
- `HashFunction`: the class `Sha` with named constructors `SHA256` and `SHA512`. Each setter's `ensures` ties the new fields to `Apply` on the old fields; the getters change nothing. Over that pure state machine (`Apply`, `Run`), lemmas state what any sequence of calls leads to.
- `Ledger`: the contract handle as an injected gateway, class `Contract`. It logs every call in `calls` and answers from `ledger`, a function of the earlier calls and the new call. Any success or failure pattern can therefore be plugged in.
- `AssetManager`: the builders as functions over the messages. `PlanLock` is the decision `createHTLC` takes before it calls the contract. The four drivers are methods over the gateway, proved against `PlanLock`, the builders and `Settle`.

The current time is the parameter `now`, in whole seconds, standing for `Math.floor(Date.now() / 1000)`. The random bytes of `crypto.randomBytes` are the parameter `entropy`. A missing contract handle is `null`, and a missing token handle is `None`.

The code, and so the model, behaves as follows where an HTLC client might be expected to do otherwise:
- the claim carries the hash, not the preimage;
- ledger errors become `undefined` instead of structured errors (for `createHTLC`, the truthy `{result: undefined}`);
- a preimage of length 0 is accepted;
- a digest-only state is reachable through `setSerializedHashBase64`;
- the drivers check neither the expiry before a claim nor the lock status before a reclaim;
- no builder rejects an empty field.

## Model

| member | source | states |
|---|---|---|
| `AssetLocksPb.Get` | sdks/besu/interoperation-node-sdk/src/AssetManager.ts:48 | reading a name off the protobuf module yields that enum for an enum name, that message class for a message name, and `undefined` for any name outside these; reading a name off an enum yields the constant of that name exactly for the enum's own constants, and `undefined` otherwise |
| `Library.BufferFrom` | sdks/besu/interoperation-node-sdk/src/AssetManager.ts:46 | `Buffer.from` succeeds exactly on text, giving its UTF-8 bytes; on a hasher object it throws a TypeError |
| `HashFunction.DeclaredMechanism` | samples/besu/simpleasset/app/hashFunction.js:8-79 | `HASH_MECHANISM` as written is `undefined` for both classes, because `HashMechanism` names the whole protobuf module |
| `HashFunction.IntendedMechanism` | samples/besu/simpleasset/app/hashFunction.js:70-79 | read through the enum, the tag is the `HashMechanism` constant named after the class |
| `HashFunction.MechanismTagsCoincide` | samples/besu/simpleasset/app/hashFunction.js:70-79 | as written, SHA256 and SHA512 objects carry the same tag |
| `HashFunction.IntendedMechanismsDistinct` | samples/besu/simpleasset/app/hashFunction.js:70-79 | the intended tags of SHA256 and SHA512 differ |
| `HashFunction.ComputeHash` | samples/besu/simpleasset/app/hashFunction.js:71-84 | SHA256 gives the base64 SHA-256 digest text of the preimage; SHA512 gives no text but the `sha512` hasher fed the preimage |
| `HashFunction.ComputeHashIntended` | samples/besu/simpleasset/app/hashFunction.js:71-84 | with the digest taken, both classes give base64 text: SHA256 exactly as written, SHA512 the base64 SHA-512 digest |
| `HashFunction.Sha512HashHoldsPreimage` | samples/besu/simpleasset/app/hashFunction.js:81-84 | SHA512's `computeHash` yields no digest text but a hasher object fed the preimage |
| `HashFunction.IntendedHashIsDigestText` | samples/besu/simpleasset/app/hashFunction.js:71-84 | with the digest taken, both classes yield base64 text, each the digest of its own algorithm |
| `HashFunction.SerializedHash` | samples/besu/simpleasset/app/hashFunction.js:58-63 | the hash is returned exactly when one is present; otherwise the "Hash or Preimage needs to be set" error is thrown |
| `HashFunction.PreimageBuffer` | samples/besu/simpleasset/app/hashFunction.js:50-53 | the preimage's bytes are returned when a preimage is present; `Buffer.from(null)` throws a TypeError |
| `HashFunction.FreshHashNotReady` | samples/besu/simpleasset/app/hashFunction.js:32-33 | a fresh object has no hash, so asking for it throws |
| `HashFunction.SetPreimageCommits` | samples/besu/simpleasset/app/hashFunction.js:43-46 | after `setPreimage(p)` the preimage is `p` and the hash is the one computed from `p`, whatever the fields held before |
| `HashFunction.SetPreimageIdempotent` | samples/besu/simpleasset/app/hashFunction.js:43-46 | setting the same preimage twice gives the same fields, hence the same hash, as setting it once |
| `HashFunction.InstallHashKeepsPreimage` | samples/besu/simpleasset/app/hashFunction.js:55-60 | `setSerializedHashBase64(h)` makes `h` the returned hash and leaves the preimage unchanged |
| `HashFunction.LastSetPreimageWins` | samples/besu/simpleasset/app/hashFunction.js:43-57 | after any history of calls, a final `setPreimage(p)` leaves the object committed to `p`, exactly as on a fresh object, overwriting installed hashes |
| `HashFunction.RunPreimage` | samples/besu/simpleasset/app/hashFunction.js:43-57 | from a fresh object, the preimage after any sequence of calls is the one the last `setPreimage` stored, or `null` when there was none |
| `HashFunction.RunHashReady` | samples/besu/simpleasset/app/hashFunction.js:32-63 | from a fresh object, `getSerializedHashBase64` succeeds exactly when at least one setter has been called |
| `HashFunction.DigestOnlyIff` | samples/besu/simpleasset/app/hashFunction.js:32-57 | from a fresh object, a hash without a preimage is reached exactly by a non-empty sequence made only of `setSerializedHashBase64` calls |
| `HashFunction.PreimageOnlyRunsStayConsistent` | samples/besu/simpleasset/app/hashFunction.js:43-46 | an object that never receives `setSerializedHashBase64` is always fresh or committed |
| `HashFunction.Sha.SHA256` | samples/besu/simpleasset/app/hashFunction.js:30-33 | a new SHA256 object has the SHA256 class, its declared tag, and `null` preimage and hash; the invariant `Valid` (a preimage implies a hash, the tag is the declared one) holds |
| `HashFunction.Sha.SHA512` | samples/besu/simpleasset/app/hashFunction.js:78-79 | a new SHA512 object has the SHA512 class, its declared tag, and `null` preimage and hash; the invariant `Valid` (a preimage implies a hash, the tag is the declared one) holds |
| `HashFunction.Sha.SetPreimage` | samples/besu/simpleasset/app/hashFunction.js:43-46 | the fields become those of `Apply(PreimageSet(p))`: preimage `p`, committed hash; `Valid` is kept |
| `HashFunction.Sha.GenerateRandomPreimage` | samples/besu/simpleasset/app/hashFunction.js:38-41 | for a non-negative length, the object ends as `setPreimage` of the base64 text of the random bytes, committed; a negative length throws a RangeError and changes nothing; `Valid` is kept |
| `HashFunction.Sha.GetPreimage` | samples/besu/simpleasset/app/hashFunction.js:47-49 | returns the stored preimage and changes nothing |
| `HashFunction.Sha.GetSerializedPreimageBase64` | samples/besu/simpleasset/app/hashFunction.js:50-53 | returns the preimage's bytes, or a TypeError while it is `null`; changes nothing |
| `HashFunction.Sha.SetSerializedHashBase64` | samples/besu/simpleasset/app/hashFunction.js:55-57 | only `hash64` changes, to `h`; the preimage stays, `null` included; `Valid` is kept |
| `HashFunction.Sha.GetSerializedHashBase64` | samples/besu/simpleasset/app/hashFunction.js:58-63 | returns the hash, or throws the "needs to be set" error while it is `null`; changes nothing; on a valid object with a preimage it never throws |
| `AssetManager.CreateAssetExchangeAgreementSerialized` | sdks/besu/interoperation-node-sdk/src/AssetManager.ts:13-20 | the unique-asset agreement carries exactly the given type, id, recipient and locker, each in its own field |
| `AssetManager.CreateFungibleAssetExchangeAgreementSerialized` | sdks/besu/interoperation-node-sdk/src/AssetManager.ts:22-29 | the fungible agreement carries type, units, recipient and locker; the asset id does not appear |
| `AssetManager.FungibleAgreementIgnoresAssetID` | sdks/besu/interoperation-node-sdk/src/AssetManager.ts:22-29 | any two asset ids give the same fungible agreement bytes |
| `AssetManager.CreateHybridAssetExchangeAgreementSerialized` | sdks/besu/interoperation-node-sdk/src/AssetManager.ts:32-40 | the hybrid agreement carries type, id, recipient, hex-decoded data and units; its locker stays the empty default |
| `AssetManager.CreateAssetLockInfoSerialized` | sdks/besu/interoperation-node-sdk/src/AssetManager.ts:43-50 | lock info carries the hash's tag, the bytes of its hash, the expiry and the epoch time basis; it throws the "needs to be set" error with no hash, and a TypeError on a hasher object |
| `AssetManager.CreateAssetClaimInfoSerialized` | sdks/besu/interoperation-node-sdk/src/AssetManager.ts:53-62 | claim info is an `AssetClaim` tagged HTLC around an HTLC claim with the hash's tag and, in the preimage field, the hash's bytes; it fails as lock info does |
| `AssetManager.ClaimInfoIntended` | sdks/besu/interoperation-node-sdk/src/AssetManager.ts:53-62 | claim info with the preimage's bytes in the preimage field; a TypeError when there is no preimage |
| `AssetManager.LockAndClaimInfoFailTogether` | sdks/besu/interoperation-node-sdk/src/AssetManager.ts:43-62 | lock info and claim info fail on the same hash objects, with the same error |
| `AssetManager.ClaimRepeatsPublishedHash` | sdks/besu/interoperation-node-sdk/src/AssetManager.ts:46-56 | the claim sends back the very bytes the lock published as the hash |
| `AssetManager.IntendedClaimOpensLock` | sdks/besu/interoperation-node-sdk/src/AssetManager.ts:43-62 | with the claim fixed and the digest taken, the claim reveals a secret whose digest is exactly the hash the lock info published for the same preimage, so the claim opens the lock |
| `AssetManager.IntendedClaimOpensSha256Lock` | sdks/besu/interoperation-node-sdk/src/AssetManager.ts:43-62 | for a committed SHA256 object as written, the fixed claim reveals a secret whose base64 SHA-256 digest is exactly the hash its lock info publishes |
| `AssetManager.Sha256LockInfo` | sdks/besu/interoperation-node-sdk/src/AssetManager.ts:43-50 | a committed SHA256 object yields lock info carrying its tag, the bytes of the base64 SHA-256 digest of its preimage, the expiry and the epoch time basis |
| `AssetManager.Sha512LockInfoThrows` | sdks/besu/interoperation-node-sdk/src/AssetManager.ts:43-50 | a committed SHA512 object cannot produce lock info: a TypeError is thrown |
| `AssetManager.IntendedHashYieldsLockInfo` | sdks/besu/interoperation-node-sdk/src/AssetManager.ts:43-50 | with the digest taken, every preimage yields lock info carrying the bytes of its digest text |
| `AssetManager.Settle` | sdks/besu/interoperation-node-sdk/src/AssetManager.ts:169-173 | a resolved contract call gives its value; a rejected one always ends falsy (`undefined`) |
| `AssetManager.SettleIntended` | sdks/besu/interoperation-node-sdk/src/AssetManager.ts:169-173 | with the handler's assignment kept, a rejected call gives the handler's fallback |
| `AssetManager.CatchFallbackIsLost` | sdks/besu/interoperation-node-sdk/src/AssetManager.ts:189-193 | a rejected call gives `undefined`, which differs from the `false` the handler stores |
| `AssetManager.SettleTruthinessAgrees` | sdks/besu/interoperation-node-sdk/src/AssetManager.ts:204-210 | with a falsy fallback, the written and the intended behaviour agree on truthiness for every response |
| `AssetManager.RejectedLockResult` | sdks/besu/interoperation-node-sdk/src/AssetManager.ts:105-147 | when a submitted lock's contract call rejects, for any reason, `createHTLC` returns `{result: undefined}`: an object, so truthy, whose `result` is falsy. With the handler's `{result: false}` kept, `result` would be that object, itself truthy |
| `AssetManager.StripPrefix` | sdks/besu/interoperation-node-sdk/src/AssetManager.ts:92-96 | `slice(2)` removes the first two characters and gives the empty string for shorter addresses |
| `AssetManager.AgreementParams` | sdks/besu/interoperation-node-sdk/src/AssetManager.ts:90-97 | agreement bytes exist exactly for ERC721, ERC20 and ERC1155, each built with an empty asset type and the stripped recipient. ERC721 puts `utf8ToHex(assetData)` in the locker slot, ERC20 an empty locker, ERC1155 the hex-decoded hex of the data |
| `AssetManager.DateInRange` | sdks/besu/interoperation-node-sdk/src/AssetManager.ts:86-87 | `new Date(t).toISOString()` succeeds exactly for a time within 100,000,000 days of the epoch |
| `AssetManager.LockCall` | sdks/besu/interoperation-node-sdk/src/AssetManager.ts:105-145 | ERC1155 calls `lockAsset`, ERC721 `lockNonFungibleAsset` and ERC20 `lockFungibleAsset`, each with the token address, the agreement, the lock info and the sender |
| `AssetManager.PlanLock` | sdks/besu/interoperation-node-sdk/src/AssetManager.ts:77-102 | `createHTLC` refuses without a ledger call exactly when the handle is missing, the recipient is empty, the expiry is not after `now` while both times can be formatted as dates, or the expiry is later and the type is unsupported. It calls the contract exactly when the handle and recipient are present, the expiry is after `now`, the type is supported, the lock info can be built and the token handle is present. Otherwise it throws: a RangeError when an expired time lies outside the date range, else the lock-info error, else a TypeError for the missing token handle |
| `AssetManager.LockDispatch` | sdks/besu/interoperation-node-sdk/src/AssetManager.ts:105-145 | a submitted lock calls `lockAsset` for ERC1155, `lockNonFungibleAsset` for ERC721 and `lockFungibleAsset` for ERC20, with the token address, the agreement, the lock info and the sender |
| `AssetManager.LockInfoIndependentOfType` | sdks/besu/interoperation-node-sdk/src/AssetManager.ts:102-145 | every supported asset type sends the same lock info |
| `AssetManager.CreateHTLC` | sdks/besu/interoperation-node-sdk/src/AssetManager.ts:64-147 | follows `PlanLock`: refusal returns `{result: false}` with the log unchanged, a throw raises `PlanLock`'s error with the log unchanged, and a submission appends exactly that call and returns `{result: <settled answer>}` |
| `AssetManager.ClaimAssetInHTLC` | sdks/besu/interoperation-node-sdk/src/AssetManager.ts:153-176 | `false` with no handle; the claim-info error with no call; otherwise exactly one `claimAsset` call with that claim info, whose answer is settled |
| `AssetManager.IsAssetLockedInHTLC` | sdks/besu/interoperation-node-sdk/src/AssetManager.ts:178-196 | `false` with no handle; otherwise exactly one `isAssetLocked` call, whose answer is settled |
| `AssetManager.ReclaimAssetInHTLC` | sdks/besu/interoperation-node-sdk/src/AssetManager.ts:199-213 | with no handle a TypeError (there is no guard); otherwise exactly one `unlockAsset` call, whose answer is settled |

## Left out

- The SHA-256 and SHA-512 digests, base64 and UTF-8 conversion, `Web3.utf8ToHex`, hex decoding and protobuf `serializeBinary` are foreign code. They are fields of `Library.Lib`, assumed only to be functions. Binding, hiding and collision resistance are therefore not modelled, and neither is a decode round trip of the wire bytes.
- `crypto.randomBytes` is the `entropy` parameter. Its size limit and its errors for non-integer sizes are not modelled; only a negative size is (it throws a RangeError).
- The contract methods and their on-ledger enforcement are external. `Ledger.Contract` answers from an arbitrary function of the call history. The lock/claim/reclaim state machine on the ledger is therefore not modelled.
- `async`/`await` scheduling, `console.log` and `Date.now()` are left out. Calls are sequential, and the time is the `now` parameter.
- Strings are sequences of Unicode scalar values, not UTF-16 code units, so `slice(2)` on an address that starts with an astral character is not modelled exactly. JavaScript numbers are unbounded integers, so the uint64 range of `numUnits` and `expiryTimeSecs` on the wire is not modelled.
- `HashFunction.SetPreimageIdempotent`: hashers are compared by value, so "the same hash" means an equal hasher state; each `setPreimage` on a SHA512 object creates a new hasher object with its own identity, which the model does not track.
- Arguments of the wrong JavaScript type are not modelled: a `null` preimage passed to `setPreimage`, a `null` passed to `setSerializedHashBase64`, a missing `hash` argument, or a contract handle that lacks the called method.
- The abstract class `Hash` (hashFunction.js:18-28) has only empty methods. It is the interface the `Sha` class fills; `HashView` is what the asset manager reads of it. The SDK's own `./HashFunctions` module is not part of this model.
- The demo script `samples/besu/simpleasset/app/tmp.ts` is orchestration (providers, token transfers, balances, delays) and is not modelled.

## Findings

| source | as written | input that shows it | evidently intended | confidence | as-written member | corrected member |
|---|---|---|---|---|---|---|
| sdks/besu/interoperation-node-sdk/src/AssetManager.ts:169-173 | `var x = await call(...).catch(function (e) { x = false })`: the handler's assignment happens first. Then the awaited value, the handler's `undefined` return, is assigned over it. The same holds at lines 113-117, 189-193 and 204-210 | any contract call that rejects | the helper returns the handler's fallback (`false`) | high, not executed | `AssetManager.Settle`, `AssetManager.CatchFallbackIsLost` | `AssetManager.SettleIntended`, `AssetManager.SettleTruthinessAgrees` |
| samples/besu/simpleasset/app/hashFunction.js:70 | `HashMechanism` is bound by `require` to the whole protobuf module (line 8), so `HashMechanism.SHA256` and `HashMechanism.SHA512` (line 79) are both `undefined` | `new SHA256()` and `new SHA512()` | the enum constants `HashMechanism.SHA256` / `.SHA512`, which differ | medium, not executed | `HashFunction.DeclaredMechanism`, `HashFunction.MechanismTagsCoincide` | `HashFunction.IntendedMechanism`, `HashFunction.IntendedMechanismsDistinct` |
| samples/besu/simpleasset/app/hashFunction.js:81-84 | SHA512's `computeHash` returns the hasher, with `.digest('base64')` commented out. `hash64` then holds a hasher object fed the preimage, and building lock info from it throws | any `setPreimage` on a SHA512 object | the base64 SHA-512 digest | high, not executed | `HashFunction.Sha512HashHoldsPreimage`, `AssetManager.Sha512LockInfoThrows` | `HashFunction.ComputeHashIntended`, `HashFunction.IntendedHashIsDigestText`, `AssetManager.IntendedHashYieldsLockInfo` |
| sdks/besu/interoperation-node-sdk/src/AssetManager.ts:56 | the field `hashpreimagebase64` is filled from `getSerializedHashBase64()`, so the claim repeats the published hash | any hash object with a hash set | the preimage, as `getSerializedPreimageBase64()` gives it | medium, not executed | `AssetManager.CreateAssetClaimInfoSerialized`, `AssetManager.ClaimRepeatsPublishedHash` | `AssetManager.ClaimInfoIntended`, `AssetManager.IntendedClaimOpensLock` |

The drivers and the `Sha` class keep the code's behaviour, because they model it. Each corrected definition sits beside the as-written one, with its intended property proved.
