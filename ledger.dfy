/** The asset-manager contract handle the helpers call, as an injected gateway that records every call. */
module Ledger {
  import opened Js

  /** A contract method call, with the arguments the helpers pass it. */
  datatype Call =
    | LockAsset(tokenAddress: string, agreement: Bytes, lockInfo: Bytes, sender: string)
    | LockNonFungibleAsset(tokenAddress: string, agreement: Bytes, lockInfo: Bytes, sender: string)
    | LockFungibleAsset(tokenAddress: string, agreement: Bytes, lockInfo: Bytes, sender: string)
    | ClaimAsset(lockContractId: string, claimInfo: Bytes, sender: string)
    | IsAssetLocked(lockContractId: string)
    | UnlockAsset(lockContractId: string, sender: string)

  /** How the promise a contract call returns settles. */
  datatype Response = Resolves(value: Value) | Rejects(reason: string)

  /**
   * A contract handle. Its answers come from `ledger`, which sees every earlier call,
   * so any ledger behaviour, success or failure, can be plugged in.
   */
  class Contract {
    /** Every call made through this handle, in order. */
    var calls: seq<Call>
    /** The ledger's answer to a call, given the calls made before it. */
    const ledger: (seq<Call>, Call) -> Response

    constructor (ledger: (seq<Call>, Call) -> Response)
      ensures calls == [] && this.ledger == ledger
    {
      calls := [];
      this.ledger := ledger;
    }

    /** Makes one call: it is logged and answered by the ledger. */
    method Invoke(c: Call) returns (r: Response)
      modifies this
      ensures calls == old(calls) + [c]
      ensures r == ledger(old(calls), c)
    {
      r := ledger(calls, c);
      calls := calls + [c];
    }
  }
}
