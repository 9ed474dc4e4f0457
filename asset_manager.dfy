/** The client-side HTLC helpers of the SDK: payload builders and the lock, claim, query and reclaim drivers. */
module AssetManager {
  import opened Wrappers
  import opened Js
  import opened AssetLocksPb
  import opened Library
  import opened HashFunction
  import opened Ledger

  // ---------------------------------------------------------------------------
  // Payload builders: each fills a fresh message setter by setter and serializes it.
  // ---------------------------------------------------------------------------

  /** `createAssetExchangeAgreementSerialized`: the unique-asset agreement carries exactly the given type, id, recipient and locker. */
  function CreateAssetExchangeAgreementSerialized(lib: Lib, assetType: string, assetID: string, recipientECert: string, lockerECert: string): (b: Bytes)
    ensures b == lib.serialize(UniqueAgreement(AssetExchangeAgreement(assetType, assetID, lockerECert, recipientECert)))
  {
    lib.serialize(UniqueAgreement(NewAssetExchangeAgreement
      .(assetType := assetType)
      .(id := assetID)
      .(recipient := recipientECert)
      .(locker := lockerECert)))
  }

  /** `createFungibleAssetExchangeAgreementSerialized`: type, units, recipient and locker; the asset id is accepted and dropped. */
  function CreateFungibleAssetExchangeAgreementSerialized(lib: Lib, assetType: string, assetID: string, numUnits: int, locker: string, recipient: string): (b: Bytes)
    ensures b == lib.serialize(FungibleAgreement(FungibleAssetExchangeAgreement(assetType, numUnits, locker, recipient)))
  {
    lib.serialize(FungibleAgreement(NewFungibleAssetExchangeAgreement
      .(assetType := assetType)
      .(numUnits := numUnits)
      .(recipient := recipient)
      .(locker := locker)))
  }

  /** `createHybridAssetExchangeAgreementSerialized`: type, id, recipient, hex-decoded data and units; the locker is never set and keeps its default. */
  function CreateHybridAssetExchangeAgreementSerialized(lib: Lib, assetType: string, assetID: string, assetData: string, numUnits: int, recipient: string): (b: Bytes)
    ensures b == lib.serialize(HybridAgreement(HybridAssetExchangeAgreement(assetType, assetID, lib.hexToBytes(assetData), numUnits, "", recipient)))
  {
    lib.serialize(HybridAgreement(NewHybridAssetExchangeAgreement
      .(assetType := assetType)
      .(id := assetID)
      .(recipient := recipient)
      .(assetData := lib.hexToBytes(assetData))
      .(numUnits := numUnits)))
  }

  /** The fungible agreement is the same whatever asset id it is given. */
  lemma FungibleAgreementIgnoresAssetID(lib: Lib, assetType: string, id1: string, id2: string, numUnits: int, locker: string, recipient: string)
    ensures CreateFungibleAssetExchangeAgreementSerialized(lib, assetType, id1, numUnits, locker, recipient)
         == CreateFungibleAssetExchangeAgreementSerialized(lib, assetType, id2, numUnits, locker, recipient)
  {
  }

  /**
   * `createAssetLockInfoSerialized`: the hash's mechanism tag, the bytes of its serialized hash, the expiry and
   * always the epoch time basis. It throws when the hash object has no hash, and when `Buffer.from`
   * cannot convert what it holds.
   */
  function CreateAssetLockInfoSerialized(lib: Lib, hash: HashView, expiryTimeSecs: int): (r: Result<Bytes, JsError>)
    ensures hash.hash64.None? ==> r == Err(Error(HashNotSetMessage))
    ensures hash.hash64.Some? && hash.hash64.value.Hasher? ==> r == Err(TypeError)
    ensures hash.hash64.Some? && hash.hash64.value.Base64Text? ==>
              r == Ok(lib.serialize(LockHTLC(AssetLockHTLC(hash.mechanism, lib.utf8(hash.hash64.value.text), expiryTimeSecs, EPOCH))))
  {
    var lockInfoHTLC := NewAssetLockHTLC.(hashMechanism := hash.mechanism);
    match SerializedHash(hash.hash64)
    case Err(e) => Err(e)
    case Ok(h) =>
      match BufferFrom(lib, h)
      case Err(e) => Err(e)
      case Ok(hashBytes) =>
        Ok(lib.serialize(LockHTLC(lockInfoHTLC
          .(hashBase64 := hashBytes)
          .(expiryTimeSecs := expiryTimeSecs)
          .(timeSpec := EPOCH))))
  }

  /**
   * `createAssetClaimInfoSerialized`: an `AssetClaim` tagged HTLC wrapping an HTLC claim with the hash's mechanism
   * and, in the field meant for the preimage, the bytes of `getSerializedHashBase64()`. It fails exactly as the lock info does.
   */
  function CreateAssetClaimInfoSerialized(lib: Lib, hash: HashView): (r: Result<Bytes, JsError>)
    ensures hash.hash64.None? ==> r == Err(Error(HashNotSetMessage))
    ensures hash.hash64.Some? && hash.hash64.value.Hasher? ==> r == Err(TypeError)
    ensures hash.hash64.Some? && hash.hash64.value.Base64Text? ==>
              r == Ok(lib.serialize(Claim(AssetClaim(HTLC, lib.serialize(ClaimHTLC(AssetClaimHTLC(hash.mechanism, lib.utf8(hash.hash64.value.text))))))))
  {
    var claimInfoHTLC := NewAssetClaimHTLC.(hashMechanism := hash.mechanism);
    match SerializedHash(hash.hash64)
    case Err(e) => Err(e)
    case Ok(h) =>
      match BufferFrom(lib, h)
      case Err(e) => Err(e)
      case Ok(hashBytes) =>
        var claimInfoHTLCSerialized := lib.serialize(ClaimHTLC(claimInfoHTLC.(hashPreimageBase64 := hashBytes)));
        Ok(lib.serialize(Claim(NewAssetClaim
          .(lockMechanism := HTLC)
          .(claimInfo := claimInfoHTLCSerialized))))
  }

  /**
   * The claim info as the field name `hashpreimagebase64` intends it: the mechanism and the bytes of
   * `getSerializedPreimageBase64()`, failing while no preimage is set.
   */
  function ClaimInfoIntended(lib: Lib, mechanism: PbValue, preimage: Option<string>): (r: Result<Bytes, JsError>)
    ensures preimage.None? ==> r == Err(TypeError)
    ensures preimage.Some? ==>
              r == Ok(lib.serialize(Claim(AssetClaim(HTLC, lib.serialize(ClaimHTLC(AssetClaimHTLC(mechanism, lib.utf8(preimage.value))))))))
  {
    match PreimageBuffer(lib, preimage)
    case Err(e) => Err(e)
    case Ok(preimageBytes) =>
      var claimInfoHTLC := NewAssetClaimHTLC.(hashMechanism := mechanism).(hashPreimageBase64 := preimageBytes);
      Ok(lib.serialize(Claim(NewAssetClaim.(lockMechanism := HTLC).(claimInfo := lib.serialize(ClaimHTLC(claimInfoHTLC))))))
  }

  /** Lock info and claim info fail on the same hash objects, with the same error. */
  lemma LockAndClaimInfoFailTogether(lib: Lib, hash: HashView, expiryTimeSecs: int)
    ensures CreateAssetLockInfoSerialized(lib, hash, expiryTimeSecs).Err? <==> CreateAssetClaimInfoSerialized(lib, hash).Err?
    ensures CreateAssetLockInfoSerialized(lib, hash, expiryTimeSecs).Err? ==>
              CreateAssetLockInfoSerialized(lib, hash, expiryTimeSecs).error == CreateAssetClaimInfoSerialized(lib, hash).error
  {
  }

  /** As written, the claim sends back the very bytes the lock published as the hash, not the secret behind them. */
  lemma ClaimRepeatsPublishedHash(lib: Lib, hash: HashView, expiryTimeSecs: int)
    requires hash.hash64.Some? && hash.hash64.value.Base64Text?
    ensures exists published: Bytes ::
              CreateAssetLockInfoSerialized(lib, hash, expiryTimeSecs) == Ok(lib.serialize(LockHTLC(AssetLockHTLC(hash.mechanism, published, expiryTimeSecs, EPOCH))))
              && CreateAssetClaimInfoSerialized(lib, hash) == Ok(lib.serialize(Claim(AssetClaim(HTLC, lib.serialize(ClaimHTLC(AssetClaimHTLC(hash.mechanism, published)))))))
  {
    var published := lib.utf8(hash.hash64.value.text);
    assert CreateAssetLockInfoSerialized(lib, hash, expiryTimeSecs) == Ok(lib.serialize(LockHTLC(AssetLockHTLC(hash.mechanism, published, expiryTimeSecs, EPOCH))));
  }

  /**
   * With the claim fixed and the digest taken, the claim opens the lock: the claim reveals a secret whose digest,
   * recomputed by the ledger, is the very hash the lock published.
   */
  lemma IntendedClaimOpensLock(lib: Lib, c: HashClass, mechanism: PbValue, p: string, expiryTimeSecs: int)
    ensures exists revealed: string ::
              ClaimInfoIntended(lib, mechanism, Some(p))
                == Ok(lib.serialize(Claim(AssetClaim(HTLC, lib.serialize(ClaimHTLC(AssetClaimHTLC(mechanism, lib.utf8(revealed))))))))
              && CreateAssetLockInfoSerialized(lib, HashView(mechanism, Some(ComputeHashIntended(c, lib, p))), expiryTimeSecs)
                == Ok(lib.serialize(LockHTLC(AssetLockHTLC(mechanism, lib.utf8(ComputeHashIntended(c, lib, revealed).text), expiryTimeSecs, EPOCH))))
  {
    var revealed := p;
    assert ClaimInfoIntended(lib, mechanism, Some(p))
           == Ok(lib.serialize(Claim(AssetClaim(HTLC, lib.serialize(ClaimHTLC(AssetClaimHTLC(mechanism, lib.utf8(revealed))))))));
  }

  /** The same for a committed SHA256 object as written: the fixed claim reveals a secret whose SHA-256 digest the lock published. */
  lemma IntendedClaimOpensSha256Lock(lib: Lib, mechanism: PbValue, f: ShaFields, expiryTimeSecs: int)
    requires Committed(SHA256Class, lib, f)
    ensures exists revealed: string ::
              ClaimInfoIntended(lib, mechanism, f.preimage)
                == Ok(lib.serialize(Claim(AssetClaim(HTLC, lib.serialize(ClaimHTLC(AssetClaimHTLC(mechanism, lib.utf8(revealed))))))))
              && CreateAssetLockInfoSerialized(lib, HashView(mechanism, f.hash64), expiryTimeSecs)
                == Ok(lib.serialize(LockHTLC(AssetLockHTLC(mechanism, lib.utf8(lib.sha256Base64(revealed)), expiryTimeSecs, EPOCH))))
  {
    var revealed := f.preimage.value;
    assert ClaimInfoIntended(lib, mechanism, f.preimage)
           == Ok(lib.serialize(Claim(AssetClaim(HTLC, lib.serialize(ClaimHTLC(AssetClaimHTLC(mechanism, lib.utf8(revealed))))))));
    Sha256LockInfo(lib, mechanism, f, expiryTimeSecs);
  }

  /** As written, a committed SHA512 object cannot produce lock info: its hash is a hasher object and `Buffer.from` throws. */
  lemma Sha512LockInfoThrows(lib: Lib, mechanism: PbValue, f: ShaFields, expiryTimeSecs: int)
    requires Committed(SHA512Class, lib, f)
    ensures CreateAssetLockInfoSerialized(lib, HashView(mechanism, f.hash64), expiryTimeSecs) == Err(TypeError)
  {
  }

  /** As written, a committed SHA256 object yields lock info that carries the bytes of its base64 SHA-256 digest. */
  lemma Sha256LockInfo(lib: Lib, mechanism: PbValue, f: ShaFields, expiryTimeSecs: int)
    requires Committed(SHA256Class, lib, f)
    ensures CreateAssetLockInfoSerialized(lib, HashView(mechanism, f.hash64), expiryTimeSecs)
            == Ok(lib.serialize(LockHTLC(AssetLockHTLC(mechanism, lib.utf8(lib.sha256Base64(f.preimage.value)), expiryTimeSecs, EPOCH))))
  {
  }

  /** With the digest taken, every committed object yields lock info that carries the bytes of its digest text. */
  lemma IntendedHashYieldsLockInfo(lib: Lib, c: HashClass, mechanism: PbValue, p: string, expiryTimeSecs: int)
    ensures CreateAssetLockInfoSerialized(lib, HashView(mechanism, Some(ComputeHashIntended(c, lib, p))), expiryTimeSecs)
            == Ok(lib.serialize(LockHTLC(AssetLockHTLC(mechanism, lib.utf8(ComputeHashIntended(c, lib, p).text), expiryTimeSecs, EPOCH))))
  {
  }

  // ---------------------------------------------------------------------------
  // Settling a contract call's promise with `await call(...).catch(handler)`.
  // ---------------------------------------------------------------------------

  /**
   * The value of `var x = await call(...).catch(function (e) { x = fallback })`: a resolved call gives its value;
   * for a rejected one the handler stores its fallback, returns `undefined`, and the awaited `undefined`
   * is then assigned over the fallback. A failed call thus always ends falsy.
   */
  function Settle(r: Response): (v: Value)
    ensures r.Resolves? ==> v == r.value
    ensures r.Rejects? ==> !Truthy(v)
  {
    match r
    case Resolves(value) => value
    case Rejects(_) => Undefined
  }

  /** The same `await` with the handler's fallback surviving, as the handlers are evidently meant to work. */
  function SettleIntended(r: Response, fallback: Value): (v: Value)
    ensures r.Resolves? ==> v == r.value
    ensures r.Rejects? ==> v == fallback
  {
    match r
    case Resolves(value) => value
    case Rejects(_) => fallback
  }

  /** As written, the handler's `false` is lost: a rejected call gives `undefined`, not `false`. */
  lemma CatchFallbackIsLost(reason: string)
    ensures Settle(Rejects(reason)) == Undefined
    ensures Settle(Rejects(reason)) != SettleIntended(Rejects(reason), Bool(false))
  {
  }

  /** Where the fallback is falsy, the written and the intended settling agree on truthiness for every response. */
  lemma SettleTruthinessAgrees(r: Response, fallback: Value)
    requires !Truthy(fallback)
    ensures Truthy(Settle(r)) <==> Truthy(SettleIntended(r, fallback))
  {
  }

  /**
   * What `createHTLC` returns for a submitted lock whose contract call rejects, for every reason:
   * `{ result: undefined }`, an object and so truthy, whose `result` is falsy. Had the handler's
   * `{ result: false }` survived, `result` would itself be that object, and truthy.
   */
  lemma RejectedLockResult(reason: string)
    ensures Record(Settle(Rejects(reason))) == Record(Undefined)
    ensures Truthy(Record(Settle(Rejects(reason)))) && !Truthy(Record(Settle(Rejects(reason))).result)
    ensures Record(SettleIntended(Rejects(reason), Record(Bool(false)))).result == Record(Bool(false))
    ensures Truthy(Record(SettleIntended(Rejects(reason), Record(Bool(false)))).result)
  {
  }

  // ---------------------------------------------------------------------------
  // createHTLC
  // ---------------------------------------------------------------------------

  /** The asset types `createHTLC` can lock. */
  const SupportedTypes: set<string> := {"ERC721", "ERC20", "ERC1155"}

  /** `address.slice(2)`: the address without its first two characters ("0x"), empty when it is shorter. */
  function StripPrefix(address: string): (r: string)
    ensures |address| >= 2 ==> address == address[..2] + r
    ensures |address| < 2 ==> r == ""
  {
    if |address| <= 2 then "" else address[2..]
  }

  /**
   * `protobufParams` of `createHTLC`: the agreement for a supported asset type, built with an empty asset type
   * and the recipient stripped of its prefix; for any other type it stays undefined.
   */
  function AgreementParams(lib: Lib, assetType: string, assetID: string, assetData: string, assetAmount: int, recipientAddress: string): (r: Option<Bytes>)
    ensures r.Some? <==> assetType in SupportedTypes
    ensures assetType == "ERC721" ==>
              r == Some(lib.serialize(UniqueAgreement(AssetExchangeAgreement("", assetID, lib.utf8ToHex(assetData), StripPrefix(recipientAddress)))))
    ensures assetType == "ERC20" ==>
              r == Some(lib.serialize(FungibleAgreement(FungibleAssetExchangeAgreement("", assetAmount, "", StripPrefix(recipientAddress)))))
    ensures assetType == "ERC1155" ==>
              r == Some(lib.serialize(HybridAgreement(HybridAssetExchangeAgreement("", assetID, lib.hexToBytes(lib.utf8ToHex(assetData)), assetAmount, "", StripPrefix(recipientAddress)))))
  {
    if assetType == "ERC721" then
      Some(CreateAssetExchangeAgreementSerialized(lib, "", assetID, StripPrefix(recipientAddress), lib.utf8ToHex(assetData)))
    else if assetType == "ERC20" then
      Some(CreateFungibleAssetExchangeAgreementSerialized(lib, "", assetID, assetAmount, "", StripPrefix(recipientAddress)))
    else if assetType == "ERC1155" then
      Some(CreateHybridAssetExchangeAgreementSerialized(lib, "", assetID, lib.utf8ToHex(assetData), assetAmount, StripPrefix(recipientAddress)))
    else
      None
  }

  /** Milliseconds in a day. */
  const MsPerDay := 86400000

  /**
   * Whether `new Date(t).toISOString()` succeeds: a JavaScript time value lies at most 100,000,000 days
   * either side of the epoch (section 21.4.1.1 of ECMA-262), and `toISOString` throws a RangeError outside that range.
   */
  predicate DateInRange(t: int): (ok: bool)
    ensures ok <==> -100000000 * MsPerDay <= t <= 100000000 * MsPerDay
  {
    -8640000000000000 <= t <= 8640000000000000
  }

  /** The contract method `createHTLC` calls for a supported asset type. */
  function LockCall(assetType: string, tokenAddress: string, agreement: Bytes, lockInfo: Bytes, sender: string): (c: Call)
    requires assetType in SupportedTypes
    ensures assetType == "ERC1155" <==> c.LockAsset?
    ensures assetType == "ERC721" <==> c.LockNonFungibleAsset?
    ensures assetType == "ERC20" <==> c.LockFungibleAsset?
    ensures c.tokenAddress == tokenAddress && c.agreement == agreement && c.lockInfo == lockInfo && c.sender == sender
  {
    if assetType == "ERC1155" then LockAsset(tokenAddress, agreement, lockInfo, sender)
    else if assetType == "ERC721" then LockNonFungibleAsset(tokenAddress, agreement, lockInfo, sender)
    else LockFungibleAsset(tokenAddress, agreement, lockInfo, sender)
  }

  /** What `createHTLC` does before it awaits anything. */
  datatype LockStep =
    | Refuse            // returns `{ result: false }` without calling the contract
    | Throw(e: JsError) // the returned promise rejects, without calling the contract
    | Submit(call: Call) // makes exactly this contract call

  /**
   * The decision `createHTLC` takes from its inputs. It refuses, without a ledger call, when the handle is
   * missing, the recipient is empty, the expiry is not after `now` or the asset type is not supported.
   * It throws, also without a call, when the refusal's log message cannot format a time as a date, when
   * the hash cannot be serialized, or when the token handle is missing; otherwise it makes one call.
   */
  function PlanLock(lib: Lib, hasContract: bool, token: Option<string>, assetType: string, assetID: string, assetData: string,
                    assetAmount: int, senderAddress: string, recipientAddress: string, expiryTimeSecs: int, hash: HashView, now: int): (s: LockStep)
    ensures s.Refuse? <==> !hasContract || recipientAddress == ""
                           || (expiryTimeSecs <= now && DateInRange(expiryTimeSecs) && DateInRange(now))
                           || (now < expiryTimeSecs && assetType !in SupportedTypes)
    ensures s.Submit? <==> hasContract && recipientAddress != "" && now < expiryTimeSecs && assetType in SupportedTypes
                           && CreateAssetLockInfoSerialized(lib, hash, expiryTimeSecs).Ok? && token.Some?
    ensures s.Throw? ==> s.e == (if expiryTimeSecs <= now then RangeError
                                 else if CreateAssetLockInfoSerialized(lib, hash, expiryTimeSecs).Err?
                                 then CreateAssetLockInfoSerialized(lib, hash, expiryTimeSecs).error
                                 else TypeError)
  {
    if !hasContract || recipientAddress == "" then Refuse
    else if expiryTimeSecs <= now then
      // the refusal logs `new Date(expiryTimeSecs).toISOString()` and `new Date(now).toISOString()`
      if DateInRange(expiryTimeSecs) && DateInRange(now) then Refuse else Throw(RangeError)
    else
      match AgreementParams(lib, assetType, assetID, assetData, assetAmount, recipientAddress)
      case None => Refuse
      case Some(protobufParams) =>
        match CreateAssetLockInfoSerialized(lib, hash, expiryTimeSecs)
        case Err(e) => Throw(e)
        case Ok(lockInfoParams) =>
          match token
          case None => Throw(TypeError)
          case Some(tokenAddress) => Submit(LockCall(assetType, tokenAddress, protobufParams, lockInfoParams, senderAddress))
  }

  /**
   * A submitted lock goes to the method its asset type selects (ERC1155: `lockAsset`, ERC721: `lockNonFungibleAsset`,
   * ERC20: `lockFungibleAsset`), with the token's address, the agreement, the lock info and the sender.
   */
  lemma LockDispatch(lib: Lib, hasContract: bool, token: Option<string>, assetType: string, assetID: string, assetData: string,
                     assetAmount: int, senderAddress: string, recipientAddress: string, expiryTimeSecs: int, hash: HashView, now: int)
    requires PlanLock(lib, hasContract, token, assetType, assetID, assetData, assetAmount, senderAddress, recipientAddress, expiryTimeSecs, hash, now).Submit?
    ensures var c := PlanLock(lib, hasContract, token, assetType, assetID, assetData, assetAmount, senderAddress, recipientAddress, expiryTimeSecs, hash, now).call;
            && (assetType == "ERC1155" <==> c.LockAsset?)
            && (assetType == "ERC721" <==> c.LockNonFungibleAsset?)
            && (assetType == "ERC20" <==> c.LockFungibleAsset?)
            && c.tokenAddress == token.value && c.sender == senderAddress
            && Some(c.agreement) == AgreementParams(lib, assetType, assetID, assetData, assetAmount, recipientAddress)
            && Ok(c.lockInfo) == CreateAssetLockInfoSerialized(lib, hash, expiryTimeSecs)
  {
  }

  /** Whichever supported type is locked, the lock info sent is the same. */
  lemma LockInfoIndependentOfType(lib: Lib, hasContract: bool, token: Option<string>, type1: string, type2: string, assetID: string, assetData: string,
                                  assetAmount: int, senderAddress: string, recipientAddress: string, expiryTimeSecs: int, hash: HashView, now: int)
    requires PlanLock(lib, hasContract, token, type1, assetID, assetData, assetAmount, senderAddress, recipientAddress, expiryTimeSecs, hash, now).Submit?
    requires PlanLock(lib, hasContract, token, type2, assetID, assetData, assetAmount, senderAddress, recipientAddress, expiryTimeSecs, hash, now).Submit?
    ensures PlanLock(lib, hasContract, token, type1, assetID, assetData, assetAmount, senderAddress, recipientAddress, expiryTimeSecs, hash, now).call.lockInfo
         == PlanLock(lib, hasContract, token, type2, assetID, assetData, assetAmount, senderAddress, recipientAddress, expiryTimeSecs, hash, now).call.lockInfo
  {
  }

  /**
   * `createHTLC`. `now` is the current time in whole seconds (`Math.floor(Date.now() / 1000)`), and `token` the
   * token contract's address (`None` for a missing handle). The result is how the returned promise settles.
   */
  method CreateHTLC(lib: Lib, contract: Contract?, token: Option<string>, assetType: string, assetID: string, assetData: string,
                    assetAmount: int, senderAddress: string, recipientAddress: string, expiryTimeSecs: int, hash: Sha, now: int)
    returns (r: Result<Value, JsError>)
    modifies contract
    ensures match PlanLock(lib, contract != null, token, assetType, assetID, assetData, assetAmount, senderAddress, recipientAddress, expiryTimeSecs, hash.View(), now)
            case Refuse =>
              r == Ok(Record(Bool(false))) && (contract != null ==> contract.calls == old(contract.calls))
            case Throw(e) =>
              r == Err(e) && contract != null && contract.calls == old(contract.calls)
            case Submit(c) =>
              contract != null && contract.calls == old(contract.calls) + [c]
              && r == Ok(Record(Settle(contract.ledger(old(contract.calls), c))))
  {
    if contract == null {
      return Ok(Record(Bool(false)));
    }
    if recipientAddress == "" {
      return Ok(Record(Bool(false)));
    }
    var currTimeSecs := now;
    if expiryTimeSecs <= currTimeSecs {
      if !DateInRange(expiryTimeSecs) || !DateInRange(currTimeSecs) {
        // `toISOString()` on a date outside the representable range, while building the log message
        return Err(RangeError);
      }
      return Ok(Record(Bool(false)));
    }
    var protobufParams := AgreementParams(lib, assetType, assetID, assetData, assetAmount, recipientAddress);
    if protobufParams.None? {
      return Ok(Record(Bool(false)));
    }
    var lockInfoParams := CreateAssetLockInfoSerialized(lib, hash.View(), expiryTimeSecs);
    if lockInfoParams.Err? {
      return Err(lockInfoParams.error);
    }
    if token.None? {
      // `tokenContract.address` on a missing handle
      return Err(TypeError);
    }
    var lockStatus := Undefined;
    if assetType == "ERC1155" {
      var response := contract.Invoke(LockAsset(token.value, protobufParams.value, lockInfoParams.value, senderAddress));
      lockStatus := Settle(response);
    } else if assetType == "ERC721" {
      var response := contract.Invoke(LockNonFungibleAsset(token.value, protobufParams.value, lockInfoParams.value, senderAddress));
      lockStatus := Settle(response);
    } else if assetType == "ERC20" {
      var response := contract.Invoke(LockFungibleAsset(token.value, protobufParams.value, lockInfoParams.value, senderAddress));
      lockStatus := Settle(response);
    }
    return Ok(Record(lockStatus));
  }

  // ---------------------------------------------------------------------------
  // claimAssetInHTLC, isAssetLockedInHTLC, reclaimAssetInHTLC
  // ---------------------------------------------------------------------------

  /**
   * `claimAssetInHTLC`: `false` without a call when the handle is missing; a rejected promise when the claim
   * info cannot be built; otherwise one `claimAsset` call, whose rejection ends falsy.
   */
  method ClaimAssetInHTLC(lib: Lib, lockContractId: string, contract: Contract?, senderAddress: string, hash: Sha)
    returns (r: Result<Value, JsError>)
    modifies contract
    ensures contract == null ==> r == Ok(Bool(false))
    ensures contract != null && CreateAssetClaimInfoSerialized(lib, hash.View()).Err? ==>
              r == Err(CreateAssetClaimInfoSerialized(lib, hash.View()).error) && contract.calls == old(contract.calls)
    ensures contract != null && CreateAssetClaimInfoSerialized(lib, hash.View()).Ok? ==>
              var c := ClaimAsset(lockContractId, CreateAssetClaimInfoSerialized(lib, hash.View()).value, senderAddress);
              contract.calls == old(contract.calls) + [c]
              && r == Ok(Settle(contract.ledger(old(contract.calls), c)))
  {
    if contract == null {
      return Ok(Bool(false));
    }
    var claimInfoStr := CreateAssetClaimInfoSerialized(lib, hash.View());
    if claimInfoStr.Err? {
      return Err(claimInfoStr.error);
    }
    var response := contract.Invoke(ClaimAsset(lockContractId, claimInfoStr.value, senderAddress));
    var claimStatus := Settle(response);
    return Ok(claimStatus);
  }

  /** `isAssetLockedInHTLC`: `false` without a call when the handle is missing; otherwise one `isAssetLocked` call, whose rejection ends falsy. */
  method IsAssetLockedInHTLC(contract: Contract?, lockContractId: string) returns (r: Value)
    modifies contract
    ensures contract == null ==> r == Bool(false)
    ensures contract != null ==>
              contract.calls == old(contract.calls) + [IsAssetLocked(lockContractId)]
              && r == Settle(contract.ledger(old(contract.calls), IsAssetLocked(lockContractId)))
  {
    if contract == null {
      return Bool(false);
    }
    var response := contract.Invoke(IsAssetLocked(lockContractId));
    var lockStatus := Settle(response);
    return lockStatus;
  }

  /**
   * `reclaimAssetInHTLC`: it has no guard, so a missing handle makes `interopContract.unlockAsset` throw a TypeError;
   * otherwise one `unlockAsset` call, whose rejection ends falsy.
   */
  method ReclaimAssetInHTLC(contract: Contract?, lockContractId: string, sender: string) returns (r: Result<Value, JsError>)
    modifies contract
    ensures contract == null ==> r == Err(TypeError)
    ensures contract != null ==>
              contract.calls == old(contract.calls) + [UnlockAsset(lockContractId, sender)]
              && r == Ok(Settle(contract.ledger(old(contract.calls), UnlockAsset(lockContractId, sender))))
  {
    if contract == null {
      return Err(TypeError);
    }
    var response := contract.Invoke(UnlockAsset(lockContractId, sender));
    var unlockStatus := Settle(response);
    return Ok(unlockStatus);
  }
}
