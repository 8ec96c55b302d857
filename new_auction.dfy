/**
 * The New Auction page: which assets and deposits it offers, when it lets the
 * user submit, which deposit it picks for the auction, and the ledger choices it
 * exercises (an optional split, then RequestCreateAuction).
 */
module NewAuction {
  import opened Wrappers
  import opened Seqs
  import opened Numbers
  import opened Daml
  import Common

  /** An AssetDescription contract; only its asset id matters here. */
  datatype AssetDescription = AssetDescription(assetId: AssetId)

  /** A CreateAuctionRequest contract, through the deposit it locks. */
  datatype CreateAuctionRequest = CreateAuctionRequest(depositCid: ContractId)

  /** An auction Service contract. */
  datatype Service = Service(contractId: ContractId, customer: Party, allocationAccount: Account)

  /** The page's form cells. */
  datatype Form = Form(
    auctionedAssetLabel: string,
    quotedAssetLabel: string,
    quantity: string,
    floorPrice: string,
    auctionId: string)

  // ---------------------------------------------------------------------------
  // Services and assets

  /** `customerServices[0]`: the first service whose customer is the party. */
  function CustomerService(services: seq<Service>, party: Party): (r: Option<Service>)
    ensures r.None? <==> forall i :: 0 <= i < |services| ==> services[i].customer != party
    ensures r.Some? ==>
      exists i :: 0 <= i < |services| && services[i] == r.value && r.value.customer == party &&
        forall j :: 0 <= j < i ==> services[j].customer != party
  {
    var isCustomer := (s: Service) => s.customer == party;
    var customerServices := Filter(services, isCustomer);
    FilterHeadIsFind(services, isCustomer);
    if customerServices == [] then None else Some(customerServices[0])
  }

  predicate IsVersionZero(c: AssetDescription) {
    c.assetId.version == "0"
  }

  /** `assets`: the asset descriptions of version '0'. */
  function Assets(allAssets: seq<AssetDescription>): (r: seq<AssetDescription>)
    ensures forall c :: c in r <==> c in allAssets && IsVersionZero(c)
  {
    Filter(allAssets, IsVersionZero)
  }

  /** Asset `c` is a version-'0' description with the given label. */
  predicate Describes(c: AssetDescription, assetLabel: string) {
    IsVersionZero(c) && c.assetId.assetLabel == assetLabel
  }

  /**
   * `assets.find(c => c.payload.assetId.label === label)`: the first version-'0'
   * description with that label, in stream order.
   */
  function LookupAsset(allAssets: seq<AssetDescription>, assetLabel: string): (r: Option<AssetDescription>)
    ensures r.None? <==> forall i :: 0 <= i < |allAssets| ==> !Describes(allAssets[i], assetLabel)
    ensures r.Some? ==>
      exists i :: 0 <= i < |allAssets| && allAssets[i] == r.value && Describes(r.value, assetLabel) &&
        forall j :: 0 <= j < i ==> !Describes(allAssets[j], assetLabel)
  {
    var labelled := (c: AssetDescription) => c.assetId.assetLabel == assetLabel;
    FindInFilter(allAssets, IsVersionZero, labelled, c => Describes(c, assetLabel));
    Find(Assets(allAssets), labelled)
  }

  // ---------------------------------------------------------------------------
  // Held asset labels

  /** `heldAssets.map(c => c.payload.asset.id.label)`: labels of the party's deposits, repeats included. */
  function OwnedLabels(deposits: seq<Deposit>, party: Party): (r: seq<string>)
    ensures forall l :: l in r <==> exists d :: d in deposits && d.account.owner == party && d.asset.id.assetLabel == l
  {
    var held := Filter(deposits, (c: Deposit) => c.account.owner == party);
    var labels := seq(|held|, i requires 0 <= i < |held| => held[i].asset.id.assetLabel);
    assert forall l :: l in labels <==> exists d :: d in held && d.asset.id.assetLabel == l by {
      forall l | l in labels ensures exists d :: d in held && d.asset.id.assetLabel == l {
        var i :| 0 <= i < |labels| && labels[i] == l;
        assert held[i] in held;
      }
      forall l | exists d :: d in held && d.asset.id.assetLabel == l ensures l in labels {
        var d :| d in held && d.asset.id.assetLabel == l;
        var i :| 0 <= i < |held| && held[i] == d;
        assert labels[i] == l;
      }
    }
    labels
  }

  /**
   * `heldAssetLabels`: each label of the party's deposits once, in the order of
   * its first occurrence.
   */
  function HeldAssetLabels(deposits: seq<Deposit>, party: Party): (r: seq<string>)
    ensures NoDuplicates(r)
    ensures forall l :: l in r <==> exists d :: d in deposits && d.account.owner == party && d.asset.id.assetLabel == l
    ensures forall j, k :: 0 <= j < k < |r| ==>
      IndexOf(OwnedLabels(deposits, party), r[j]) < IndexOf(OwnedLabels(deposits, party), r[k])
  {
    FirstOccurrences(OwnedLabels(deposits, party))
  }

  // ---------------------------------------------------------------------------
  // The dropdowns

  /** `{ key: c, text: c, value: c }`. */
  function LabelOption(assetLabel: string): Common.DropdownItem {
    Common.DropdownItem(assetLabel, assetLabel, assetLabel)
  }

  /** `labels.map(c => ({ key: c, text: c, value: c }))`. */
  function LabelOptions(labels: seq<string>): (r: seq<Common.DropdownItem>)
    ensures |r| == |labels| && forall i :: 0 <= i < |labels| ==> r[i] == LabelOption(labels[i])
    ensures forall o :: o in r <==> exists l :: l in labels && o == LabelOption(l)
  {
    var r := seq(|labels|, i requires 0 <= i < |labels| => LabelOption(labels[i]));
    assert forall o :: o in r ==> exists l :: l in labels && o == LabelOption(l) by {
      forall o | o in r ensures exists l :: l in labels && o == LabelOption(l) {
        var i :| 0 <= i < |r| && r[i] == o;
        assert labels[i] in labels;
      }
    }
    assert forall l :: l in labels ==> LabelOption(l) in r by {
      forall l | l in labels ensures LabelOption(l) in r {
        var i :| 0 <= i < |labels| && labels[i] == l;
        assert r[i] == LabelOption(l);
      }
    }
    r
  }

  /** The Auctioned Asset options: the held labels other than the current quoted label. */
  function AuctionedAssetOptions(heldLabels: seq<string>, quotedLabel: string): (r: seq<Common.DropdownItem>)
    ensures forall o :: o in r ==> o.value != quotedLabel && o == LabelOption(o.value)
    ensures forall l :: LabelOption(l) in r <==> l in heldLabels && l != quotedLabel
  {
    LabelOptions(Filter(heldLabels, (a: string) => a != quotedLabel))
  }

  /** The Quoted Asset options: the version-'0' labels other than the current auctioned label. */
  function QuotedAssetOptions(allAssets: seq<AssetDescription>, auctionedLabel: string): (r: seq<Common.DropdownItem>)
    ensures forall o :: o in r ==> o.value != auctionedLabel && o == LabelOption(o.value)
    ensures forall l :: LabelOption(l) in r <==> l != auctionedLabel && exists c :: c in allAssets && Describes(c, l)
  {
    var offered := Filter(Assets(allAssets), (c: AssetDescription) => c.assetId.assetLabel != auctionedLabel);
    var labels := seq(|offered|, i requires 0 <= i < |offered| => offered[i].assetId.assetLabel);
    assert forall l :: l in labels <==> l != auctionedLabel && exists c :: c in allAssets && Describes(c, l) by {
      forall l | l in labels ensures l != auctionedLabel && exists c :: c in allAssets && Describes(c, l) {
        var i :| 0 <= i < |labels| && labels[i] == l;
        assert offered[i] in offered;
      }
      forall l | l != auctionedLabel && (exists c :: c in allAssets && Describes(c, l)) ensures l in labels {
        var c :| c in allAssets && Describes(c, l);
        assert c in offered;
        var i :| 0 <= i < |offered| && offered[i] == c;
        assert labels[i] == l;
      }
    }
    LabelOptions(labels)
  }

  /**
   * Choosing an option of one dropdown while the other holds a label never makes
   * the two labels equal.
   */
  lemma DropdownsExclusive(heldLabels: seq<string>, allAssets: seq<AssetDescription>, form: Form,
                           auctioned: Common.DropdownItem, quoted: Common.DropdownItem)
    requires auctioned in AuctionedAssetOptions(heldLabels, form.quotedAssetLabel)
    requires quoted in QuotedAssetOptions(allAssets, form.auctionedAssetLabel)
    ensures auctioned.value != form.quotedAssetLabel
    ensures quoted.value != form.auctionedAssetLabel
  {
  }

  // ---------------------------------------------------------------------------
  // Submitting

  /** `canRequest`: the Submit button is enabled. */
  predicate CanRequest(form: Form, allAssets: seq<AssetDescription>): (r: bool)
    ensures r ==> form.auctionId != "" && form.quantity != "" && form.floorPrice != ""
    ensures allAssets == [] ==> !r
  {
    && form.auctionedAssetLabel != ""
    && LookupAsset(allAssets, form.auctionedAssetLabel).Some?
    && form.quotedAssetLabel != ""
    && LookupAsset(allAssets, form.quotedAssetLabel).Some?
    && form.auctionId != ""
    && form.quantity != ""
    && form.floorPrice != ""
  }

  /**
   * Submit is enabled exactly when every field is filled in and both labels name a
   * version-'0' asset description.
   */
  lemma CanRequestIff(form: Form, allAssets: seq<AssetDescription>)
    ensures CanRequest(form, allAssets) <==>
      && form.auctionedAssetLabel != "" && form.quotedAssetLabel != ""
      && form.auctionId != "" && form.quantity != "" && form.floorPrice != ""
      && (exists c :: c in allAssets && Describes(c, form.auctionedAssetLabel))
      && (exists c :: c in allAssets && Describes(c, form.quotedAssetLabel))
  {
    var a := LookupAsset(allAssets, form.auctionedAssetLabel);
    var q := LookupAsset(allAssets, form.quotedAssetLabel);
    if exists c :: c in allAssets && Describes(c, form.auctionedAssetLabel) {
      var c :| c in allAssets && Describes(c, form.auctionedAssetLabel);
      var i :| 0 <= i < |allAssets| && allAssets[i] == c;
      assert Describes(allAssets[i], form.auctionedAssetLabel);
    }
    if exists c :: c in allAssets && Describes(c, form.quotedAssetLabel) {
      var c :| c in allAssets && Describes(c, form.quotedAssetLabel);
      var i :| 0 <= i < |allAssets| && allAssets[i] == c;
      assert Describes(allAssets[i], form.quotedAssetLabel);
    }
  }

  /** `auctionRequests.findIndex(a => a.payload.depositCid === c.contractId) === -1`. */
  predicate Unrequested(c: Deposit, requests: seq<CreateAuctionRequest>) {
    FindIndex(requests, (a: CreateAuctionRequest) => a.depositCid == c.contractId) == -1
  }

  /** Deposit `c` passes every filter of `requestCreateAuction`. */
  predicate Eligible(c: Deposit, requests: seq<CreateAuctionRequest>, service: Service, assetLabel: string,
                     quantity: string): (r: bool)
    ensures r ==> forall i :: 0 <= i < |requests| ==> requests[i].depositCid != c.contractId
    ensures r ==> ParseFloat(quantity).Finite? && ParseFloat(c.asset.quantity).Finite?
  {
    && Unrequested(c, requests)
    && c.account.identity != service.allocationAccount.identity
    && c.asset.id.assetLabel == assetLabel
    && AtLeast(ParseFloat(c.asset.quantity), ParseFloat(quantity))
  }

  /**
   * The deposit `requestCreateAuction` locks: the first, in stream order, that no
   * auction request references yet, that is not the service's allocation account
   * object, that holds the auctioned asset, and that holds at least the quantity.
   */
  function SelectDeposit(deposits: seq<Deposit>, requests: seq<CreateAuctionRequest>, service: Service,
                         assetLabel: string, quantity: string): (r: Option<Deposit>)
    ensures r.None? <==> forall i :: 0 <= i < |deposits| ==> !Eligible(deposits[i], requests, service, assetLabel, quantity)
    ensures r.Some? ==>
      exists i :: 0 <= i < |deposits| && deposits[i] == r.value &&
        Eligible(r.value, requests, service, assetLabel, quantity) &&
        forall j :: 0 <= j < i ==> !Eligible(deposits[j], requests, service, assetLabel, quantity)
  {
    var unrequested := (c: Deposit) => Unrequested(c, requests);
    var unallocated := (c: Deposit) => c.account.identity != service.allocationAccount.identity;
    var labelled := (c: Deposit) => c.asset.id.assetLabel == assetLabel;
    var sufficient := (c: Deposit) => AtLeast(ParseFloat(c.asset.quantity), ParseFloat(quantity));
    FindAfterFilters(deposits, unrequested, unallocated, labelled, sufficient,
      c => Eligible(c, requests, service, assetLabel, quantity));
    Find(Filter(Filter(Filter(deposits, unrequested), unallocated), labelled), sufficient)
  }

  /** The request goes ahead: both assets resolve and a deposit qualifies. */
  predicate RequestProceeds(form: Form, allAssets: seq<AssetDescription>, deposits: seq<Deposit>,
                            requests: seq<CreateAuctionRequest>, service: Service) {
    && LookupAsset(allAssets, form.auctionedAssetLabel).Some?
    && LookupAsset(allAssets, form.quotedAssetLabel).Some?
    && SelectDeposit(deposits, requests, service, form.auctionedAssetLabel, form.quantity).Some?
  }

  /**
   * Once Submit is enabled, the only thing that can still stop the request is
   * that no deposit qualifies.
   */
  lemma EnabledRequestNeedsOnlyDeposit(form: Form, allAssets: seq<AssetDescription>, deposits: seq<Deposit>,
                                       requests: seq<CreateAuctionRequest>, service: Service)
    requires CanRequest(form, allAssets)
    ensures RequestProceeds(form, allAssets, deposits, requests, service) <==>
      exists i :: 0 <= i < |deposits| && Eligible(deposits[i], requests, service, form.auctionedAssetLabel, form.quantity)
  {
  }

  const DistributionsPath: string := "/app/manage/distributions"

  /** The router history, as the paths pushed onto it. */
  class History {
    var entries: seq<string>

    constructor ()
      ensures entries == []
    {
      entries := [];
    }

    method Push(path: string)
      modifies this
      ensures entries == old(entries) + [path]
    {
      entries := entries + [path];
    }
  }

  /**
   * `rightsizeAsset(deposit, quantity)`: splits the requested quantity off a
   * larger deposit and answers the split-off contract id (`splitCid`, the ledger's
   * answer); a deposit that is not larger is used as it is.
   */
  method RightsizeAsset(ledger: Ledger, deposit: Deposit, quantity: string, splitCid: ContractId)
    returns (cid: ContractId)
    modifies ledger
    ensures Greater(ParseFloat(deposit.asset.quantity), ParseFloat(quantity)) ==>
      cid == splitCid && ledger.calls == old(ledger.calls) + [SplitDeposit(deposit.contractId, [quantity])]
    ensures !Greater(ParseFloat(deposit.asset.quantity), ParseFloat(quantity)) ==>
      cid == deposit.contractId && ledger.calls == old(ledger.calls)
  {
    if Greater(ParseFloat(deposit.asset.quantity), ParseFloat(quantity)) {
      ledger.Exercise(SplitDeposit(deposit.contractId, [quantity]));
      return splitCid;
    }
    return deposit.contractId;
  }

  /**
   * The choices a going-ahead request exercises once deposit `d` is picked: the
   * split of a larger deposit, then RequestCreateAuction carrying the requested
   * quantity of `d`'s asset, the quoted asset id, the floor price and the
   * right-sized deposit id.
   */
  function AuctionCalls(d: Deposit, quotedAssetId: AssetId, form: Form, serviceCid: ContractId,
                        splitCid: ContractId): seq<LedgerCall>
  {
    var split := Greater(ParseFloat(d.asset.quantity), ParseFloat(form.quantity));
    var request := AuctionRequest(form.auctionId, Asset(d.asset.id, form.quantity), quotedAssetId,
                                  form.floorPrice, if split then splitCid else d.contractId);
    (if split then [SplitDeposit(d.contractId, [form.quantity])] else []) + [RequestCreateAuction(serviceCid, request)]
  }

  /**
   * The steps of `requestCreateAuction` after its guard: right-size deposit `d`,
   * exercise RequestCreateAuction on the service, navigate to the distributions page.
   */
  method SubmitAuctionRequest(ledger: Ledger, history: History, d: Deposit, quotedAssetId: AssetId, form: Form,
                              serviceCid: ContractId, splitCid: ContractId)
    modifies ledger, history
    ensures ledger.calls == old(ledger.calls) + AuctionCalls(d, quotedAssetId, form, serviceCid, splitCid)
    ensures history.entries == old(history.entries) + [DistributionsPath]
  {
    ghost var split := Greater(ParseFloat(d.asset.quantity), ParseFloat(form.quantity));
    ghost var splitCalls: seq<LedgerCall> := if split then [SplitDeposit(d.contractId, [form.quantity])] else [];
    var depositCid := RightsizeAsset(ledger, d, form.quantity, splitCid);
    var request := AuctionRequest(form.auctionId, Asset(d.asset.id, form.quantity), quotedAssetId,
                                  form.floorPrice, depositCid);
    ledger.Exercise(RequestCreateAuction(serviceCid, request));
    assert ledger.calls == old(ledger.calls) + (splitCalls + [RequestCreateAuction(serviceCid, request)]);
    history.Push(DistributionsPath);
  }

  /**
   * `requestCreateAuction`: picks the deposit, and when both assets resolve and a
   * deposit qualifies, right-sizes it, exercises RequestCreateAuction on the
   * service and navigates to the distributions page; otherwise does nothing.
   */
  method RequestCreateAuctionAction(ledger: Ledger, history: History, form: Form, service: Service,
                                    allAssets: seq<AssetDescription>, deposits: seq<Deposit>,
                                    requests: seq<CreateAuctionRequest>, splitCid: ContractId)
    modifies ledger, history
    ensures !RequestProceeds(form, allAssets, deposits, requests, service) ==>
      ledger.calls == old(ledger.calls) && history.entries == old(history.entries)
    ensures RequestProceeds(form, allAssets, deposits, requests, service) ==>
      && ledger.calls == old(ledger.calls) + AuctionCalls(
           SelectDeposit(deposits, requests, service, form.auctionedAssetLabel, form.quantity).value,
           LookupAsset(allAssets, form.quotedAssetLabel).value.assetId, form, service.contractId, splitCid)
      && history.entries == old(history.entries) + [DistributionsPath]
  {
    var deposit := SelectDeposit(deposits, requests, service, form.auctionedAssetLabel, form.quantity);
    var auctioned := LookupAsset(allAssets, form.auctionedAssetLabel);
    var quoted := LookupAsset(allAssets, form.quotedAssetLabel);
    if auctioned.None? || quoted.None? || deposit.None? {
      return;
    }
    SubmitAuctionRequest(ledger, history, deposit.value, quoted.value.assetId, form, service.contractId, splitCid);
  }
}
