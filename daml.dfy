/**
 * The ledger-side values the front end reads and the choices it exercises.
 * The ledger itself is external: it is modelled only as the log of the
 * choices exercised on it, each with its arguments.
 */
module Daml {

  type Party = string
  type ContractId = string

  /** DA.Finance.Types.Id (its `label` is `assetLabel` here, `label` being a Dafny keyword); the version is compared as text, as it arrives from the JSON API. */
  datatype AssetId = AssetId(signatories: set<Party>, assetLabel: string, version: string)

  datatype Asset = Asset(id: AssetId, quantity: string)

  /**
   * An account as received from the ledger stream. `identity` stands for the
   * JavaScript object the record is held in: two records are the same object
   * exactly when their identities agree, whatever their contents.
   */
  datatype Account = Account(identity: nat, owner: Party)

  /** An AssetDeposit contract: its id and payload. */
  datatype Deposit = Deposit(contractId: ContractId, account: Account, asset: Asset)

  /** The key (exchange, operator, investor) of an ExchangeParticipant contract. */
  datatype ParticipantKey = ParticipantKey(exchange: Party, operator: Party, investor: Party)

  /** Arguments of ExchangeParticipant_PlaceBid and ExchangeParticipant_PlaceOffer. */
  datatype OrderArgs = OrderArgs(price: string, amount: string, depositCids: seq<ContractId>, pair: seq<AssetId>)

  /** The RequestCreateAuction record. */
  datatype AuctionRequest = AuctionRequest(
    auctionId: string,
    asset: Asset,
    quotedAssetId: AssetId,
    floorPrice: string,
    depositCid: ContractId)

  /** One exercised choice, with the contract or key it targets and its arguments. */
  datatype LedgerCall =
    | PlaceBid(key: ParticipantKey, args: OrderArgs)
    | PlaceOffer(key: ParticipantKey, args: OrderArgs)
    | SplitDeposit(depositCid: ContractId, quantities: seq<string>)
    | RequestCreateAuction(serviceCid: ContractId, request: AuctionRequest)

  /** The ledger connection, as the sequence of choices exercised through it. */
  class Ledger {
    var calls: seq<LedgerCall>

    constructor ()
      ensures calls == []
    {
      calls := [];
    }

    /** `exercise` / `exerciseByKey`: records the call. */
    method Exercise(call: LedgerCall)
      modifies this
      ensures calls == old(calls) + [call]
    {
      calls := calls + [call];
    }
  }
}
