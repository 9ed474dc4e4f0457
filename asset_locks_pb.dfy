/** The generated protobuf module for asset locks: its object as JavaScript sees it, and the messages the helpers build. */
module AssetLocksPb {
  import opened Js

  /** A value read off the module object: the module itself, one of its enums or message classes, or an enum constant; reading a missing name gives `undefined`. */
  datatype PbValue =
    | Module
    | Enum(enumName: string)
    | MessageClass(className: string)
    | Constant(enumName: string, constName: string)
    | Absent  // `undefined`: the object has no member of that name

  /** The enums the module exports at top level, each with the constants this code reads. */
  const Enums: map<string, set<string>> := map[
    "HashMechanism" := {"SHA256", "SHA512"},
    "LockMechanism" := {"HTLC"},
    "TimeSpec" := {"EPOCH"}]

  /** The message classes this code reads off the module. */
  const Messages: set<string> := {
    "AssetExchangeAgreement", "FungibleAssetExchangeAgreement", "HybridAssetExchangeAgreement",
    "AssetLockHTLC", "AssetClaimHTLC", "AssetClaim"}

  /** The property read `obj.name` on the module object or on one of its enums; a name the object lacks reads as `undefined`. */
  function Get(obj: PbValue, name: string): (v: PbValue)
    requires obj.Module? || obj.Enum?
    ensures obj.Module? ==> (v.Absent? <==> name !in Enums && name !in Messages)
    ensures obj.Enum? ==> (v.Constant? <==> obj.enumName in Enums && name in Enums[obj.enumName])
    ensures obj.Enum? ==> (v.Constant? || v.Absent?)
    ensures obj.Module? && name in Enums ==> v == Enum(name)
    ensures obj.Module? && name !in Enums && name in Messages ==> v == MessageClass(name)
    ensures obj.Enum? && v.Constant? ==> v == Constant(obj.enumName, name)
  {
    if obj.Module? then
      if name in Enums then Enum(name)
      else if name in Messages then MessageClass(name)
      else Absent
    else if obj.enumName in Enums && name in Enums[obj.enumName] then Constant(obj.enumName, name)
    else Absent
  }

  /** `assetLocksPb.TimeSpec.EPOCH`. */
  const EPOCH: PbValue := Get(Get(Module, "TimeSpec"), "EPOCH")

  /** `assetLocksPb.LockMechanism.HTLC`. */
  const HTLC: PbValue := Get(Get(Module, "LockMechanism"), "HTLC")

  /** `AssetExchangeAgreement`: the agreement for a unique asset. */
  datatype AssetExchangeAgreement = AssetExchangeAgreement(assetType: string, id: string, locker: string, recipient: string)

  /** `FungibleAssetExchangeAgreement`: the agreement for an amount of a fungible asset; it has no id. */
  datatype FungibleAssetExchangeAgreement = FungibleAssetExchangeAgreement(assetType: string, numUnits: int, locker: string, recipient: string)

  /** `HybridAssetExchangeAgreement`: a unique asset that also carries opaque data and a number of units. */
  datatype HybridAssetExchangeAgreement = HybridAssetExchangeAgreement(assetType: string, id: string, assetData: Bytes, numUnits: int, locker: string, recipient: string)

  /** `AssetLockHTLC`: the lock terms of an HTLC. */
  datatype AssetLockHTLC = AssetLockHTLC(hashMechanism: PbValue, hashBase64: Bytes, expiryTimeSecs: int, timeSpec: PbValue)

  /** `AssetClaimHTLC`: the claim of an HTLC. */
  datatype AssetClaimHTLC = AssetClaimHTLC(hashMechanism: PbValue, hashPreimageBase64: Bytes)

  /** `AssetClaim`: a claim tagged with its lock mechanism, wrapping that mechanism's serialized claim. */
  datatype AssetClaim = AssetClaim(lockMechanism: PbValue, claimInfo: Bytes)

  /** Any of the messages, as handed to `serializeBinary`. */
  datatype Message =
    | UniqueAgreement(unique: AssetExchangeAgreement)
    | FungibleAgreement(fungible: FungibleAssetExchangeAgreement)
    | HybridAgreement(hybrid: HybridAssetExchangeAgreement)
    | LockHTLC(lock: AssetLockHTLC)
    | ClaimHTLC(htlcClaim: AssetClaimHTLC)
    | Claim(claim: AssetClaim)

  // Fresh messages: every field holds its proto3 default, and enum fields never set hold `undefined`.

  /** `new assetLocksPb.AssetExchangeAgreement()`. */
  const NewAssetExchangeAgreement: AssetExchangeAgreement := AssetExchangeAgreement("", "", "", "")

  /** `new assetLocksPb.FungibleAssetExchangeAgreement()`. */
  const NewFungibleAssetExchangeAgreement: FungibleAssetExchangeAgreement := FungibleAssetExchangeAgreement("", 0, "", "")

  /** `new assetLocksPb.HybridAssetExchangeAgreement()`. */
  const NewHybridAssetExchangeAgreement: HybridAssetExchangeAgreement := HybridAssetExchangeAgreement("", "", [], 0, "", "")

  /** `new assetLocksPb.AssetLockHTLC()`. */
  const NewAssetLockHTLC: AssetLockHTLC := AssetLockHTLC(Absent, [], 0, Absent)

  /** `new assetLocksPb.AssetClaimHTLC()`. */
  const NewAssetClaimHTLC: AssetClaimHTLC := AssetClaimHTLC(Absent, [])

  /** `new assetLocksPb.AssetClaim()`. */
  const NewAssetClaim: AssetClaim := AssetClaim(Absent, [])
}
