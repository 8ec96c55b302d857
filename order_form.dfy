/**
 * The investor's order-entry form: the precision check on typed input, the
 * sufficient-funds check over the deposits, the Bid/Offer dispatch to the
 * ledger and the rule that disables the buttons.
 */
module OrderForm {
  import opened Wrappers
  import opened Seqs
  import opened Numbers
  import opened Daml

  datatype OrderKind = Bid | Offer

  /** Which input of the form changed: 'price', 'amount' (base) or 'total' (quote). */
  datatype Field = PriceField | AmountField | TotalField

  /** An AppError: a message and the hints shown under it. */
  datatype AppError = AppError(message: string, hints: seq<string>)

  // ---------------------------------------------------------------------------
  // validateInput

  /** `value.split(".")[1]`: the text between the first and the second '.', if any '.' occurs. */
  function Fractional(value: string): (r: Option<string>)
    ensures r.Some? <==> '.' in value
    ensures r.Some? ==> '.' !in r.value
  {
    SplitHead(value, '.');
    var parts := Split(value, '.');
    if |parts| > 1 then Some(parts[1]) else None
  }

  /**
   * `s.length`: JavaScript counts UTF-16 code units, so a character beyond U+FFFF
   * (a surrogate pair) counts twice.
   */
  function Utf16Length(s: string): (r: nat)
    ensures |s| <= r <= 2 * |s|
  {
    if s == "" then 0 else (if s[0] as int < 0x1_0000 then 1 else 2) + Utf16Length(s[1..])
  }

  /** The UTF-16 length equals the character count exactly when no character lies beyond U+FFFF. */
  lemma {:induction false} Utf16LengthBasic(s: string)
    ensures Utf16Length(s) == |s| <==> forall i :: 0 <= i < |s| ==> s[i] as int < 0x1_0000
  {
    if s != "" {
      var rest := s[1..];
      Utf16LengthBasic(rest);
      if forall i :: 0 <= i < |s| ==> s[i] as int < 0x1_0000 {
        forall i | 0 <= i < |rest|
          ensures rest[i] as int < 0x1_0000
        {
          assert rest[i] == s[i + 1];
        }
      } else if s[0] as int < 0x1_0000 {
        var i :| 0 <= i < |s| && s[i] as int >= 0x1_0000;
        assert rest[i - 1] == s[i];
      }
    }
  }

  /** `validateInput`'s verdict: reject when a non-empty fractional part is longer than `precision`. */
  predicate ValidateInput(value: string, precision: int): (r: bool)
    ensures '.' !in value ==> r
  {
    var f := Fractional(value);
    !(f.Some? && f.value != "" && Utf16Length(f.value) > precision)
  }

  /** The fractional part is the text after the first '.', up to the next '.'. */
  lemma FractionalIs(value: string)
    ensures Fractional(value) ==
      if '.' in value then Some(FirstSegment(value[IndexOf(value, '.') + 1..], '.')) else None
  {
    SplitHead(value, '.');
    if '.' in value {
      SplitSecond(value, '.');
    }
  }

  /**
   * The input is accepted exactly when it has no '.', or the digits between its
   * first '.' and the next '.' (or the end) are none or at most `precision` UTF-16 units long.
   */
  lemma ValidateInputIff(value: string, precision: int)
    ensures ValidateInput(value, precision) <==>
      || '.' !in value
      || var f := FirstSegment(value[IndexOf(value, '.') + 1..], '.'); f == "" || Utf16Length(f) <= precision
  {
    FractionalIs(value);
  }

  // ---------------------------------------------------------------------------
  // validateDeposits

  /** `+d.contractData.asset.quantity`. */
  function Quantity(d: Deposit): Num {
    ToNumber(d.asset.quantity)
  }

  /** `deposits.reduce((sum, d) => sum + +d.contractData.asset.quantity, acc)`. */
  function SumFrom(acc: Num, deposits: seq<Deposit>): (r: Num)
    ensures r.Finite? <==> acc.Finite? && AllQuantitiesNumeric(deposits)
    decreases deposits
  {
    if deposits == [] then acc
    else
      var rest := deposits[1..];
      assert AllQuantitiesNumeric(deposits) <==> Quantity(deposits[0]).Finite? && AllQuantitiesNumeric(rest) by {
        assert forall i :: 1 <= i < |deposits| ==> deposits[i] == rest[i - 1];
      }
      SumFrom(Add(acc, Quantity(deposits[0])), rest)
  }

  predicate AllQuantitiesNumeric(deposits: seq<Deposit>) {
    forall i :: 0 <= i < |deposits| ==> Quantity(deposits[i]).Finite?
  }

  /** The exact total of the deposit quantities. */
  ghost function QuantitySum(deposits: seq<Deposit>): real
    requires AllQuantitiesNumeric(deposits)
  {
    if deposits == [] then 0.0 else Quantity(deposits[0]).v + QuantitySum(deposits[1..])
  }

  /** The running sum is the exact total, unless some quantity is not a number. */
  lemma {:induction false} SumFromValue(acc: Num, deposits: seq<Deposit>)
    ensures SumFrom(acc, deposits) ==
      if acc.Finite? && AllQuantitiesNumeric(deposits) then Finite(acc.v + QuantitySum(deposits)) else NaN
    decreases deposits
  {
    if deposits != [] {
      var rest := deposits[1..];
      SumFromValue(Add(acc, Quantity(deposits[0])), rest);
      assert AllQuantitiesNumeric(deposits) <==> Quantity(deposits[0]).Finite? && AllQuantitiesNumeric(rest) by {
        assert forall i :: 1 <= i < |deposits| ==> deposits[i] == rest[i - 1];
      }
    }
  }

  /** `deposits[0]?.contractData.asset.id.label` as it appears in a template string. */
  function TokenLabel(deposits: seq<Deposit>): string {
    if deposits == [] then "undefined" else deposits[0].asset.id.assetLabel
  }

  function InsufficientFunds(tokenLabel: string): AppError {
    AppError("Insufficient " + tokenLabel + " amount. Try:",
      ["Allocating funds to the exchange or", "Depositing funds to your account"])
  }

  /** `deposits.map(d => d.contractId)`. */
  function ContractIds(deposits: seq<Deposit>): (r: seq<ContractId>)
    ensures |r| == |deposits| && forall i :: 0 <= i < |deposits| ==> r[i] == deposits[i].contractId
  {
    seq(|deposits|, i requires 0 <= i < |deposits| => deposits[i].contractId)
  }

  /**
   * `validateDeposits`: throws the insufficient-funds error exactly when the amount
   * exceeds the total held; otherwise returns every deposit's contract id, in order.
   * A quantity or amount that is not a number makes the comparison false, so the
   * check then passes.
   */
  function ValidateDeposits(deposits: seq<Deposit>, amount: string): (r: Result<seq<ContractId>, AppError>)
    ensures r.Failure? <==>
      ToNumber(amount).Finite? && AllQuantitiesNumeric(deposits) && ToNumber(amount).v > QuantitySum(deposits)
    ensures r.Failure? ==> r.error == InsufficientFunds(TokenLabel(deposits))
    ensures r.Success? ==> |r.value| == |deposits| && forall i :: 0 <= i < |deposits| ==> r.value[i] == deposits[i].contractId
  {
    var total := SumFrom(Finite(0.0), deposits);
    SumFromValue(Finite(0.0), deposits);
    if Greater(ToNumber(amount), total) then Failure(InsufficientFunds(TokenLabel(deposits)))
    else Success(ContractIds(deposits))
  }

  // ---------------------------------------------------------------------------
  // disableButton

  /** `!s || +s === 0`; the empty text reads as 0, so the first test adds nothing. */
  predicate Blank(s: string): (r: bool)
    ensures r <==> ToNumber(s) == Finite(0.0)
  {
    s == "" || ToNumber(s) == Finite(0.0)
  }

  /** `disableButton`: some field is empty or reads as zero. */
  predicate DisableButton(price: string, amountBase: string, amountQuote: string): (r: bool)
    ensures price == "" || amountBase == "" || amountQuote == "" ==> r
    ensures r <==> Finite(0.0) in {ToNumber(price), ToNumber(amountBase), ToNumber(amountQuote)}
  {
    Blank(price) || Blank(amountBase) || Blank(amountQuote)
  }

  /** The empty text, or a decimal literal with no digit other than '0'. */
  ghost predicate ZeroText(s: string) {
    s == "" || (IsDecimalLiteral(s) && NoNonzeroDigit(s))
  }

  /**
   * The Bid and Offer buttons are disabled exactly when price, amount or total is
   * empty or a literal zero; text that is not a number leaves them enabled.
   */
  lemma DisableButtonIff(price: string, amountBase: string, amountQuote: string)
    ensures DisableButton(price, amountBase, amountQuote) <==> ZeroText(price) || ZeroText(amountBase) || ZeroText(amountQuote)
    ensures ToNumber(price).NaN? ==> (DisableButton(price, amountBase, amountQuote) <==> Blank(amountBase) || Blank(amountQuote))
    ensures ToNumber(amountBase).NaN? ==> (DisableButton(price, amountBase, amountQuote) <==> Blank(price) || Blank(amountQuote))
    ensures ToNumber(amountQuote).NaN? ==> (DisableButton(price, amountBase, amountQuote) <==> Blank(price) || Blank(amountBase))
  {
    ToNumberZero(price);
    ToNumberZero(amountBase);
    ToNumberZero(amountQuote);
  }

  // ---------------------------------------------------------------------------
  // The form's state and its ledger actions

  /** The ledger call `placeOrder` makes for each order kind. */
  function OrderCall(kind: OrderKind, key: ParticipantKey, args: OrderArgs): LedgerCall {
    match kind
    case Bid => LedgerCall.PlaceBid(key, args)
    case Offer => LedgerCall.PlaceOffer(key, args)
  }

  /** The OrderForm component: its three input cells and the props it was given. */
  class Form {
    var price: string
    var amountQuote: string
    var amountBase: string

    const bidDeposits: seq<Deposit>
    const offerDeposits: seq<Deposit>
    const exchange: Party
    const operator: Party
    const investor: Party
    const tokenPair: seq<AssetId>
    const basePrecision: int
    const quotePrecision: int

    constructor (deposits: (seq<Deposit>, seq<Deposit>), exchange: Party, operator: Party, investor: Party,
                 tokenPair: seq<AssetId>, assetPrecisions: (int, int))
      ensures price == "" && amountQuote == "" && amountBase == ""
      ensures bidDeposits == deposits.0 && offerDeposits == deposits.1
      ensures this.exchange == exchange && this.operator == operator && this.investor == investor
      ensures this.tokenPair == tokenPair
      ensures basePrecision == assetPrecisions.0 && quotePrecision == assetPrecisions.1
    {
      price, amountQuote, amountBase := "", "", "";
      bidDeposits, offerDeposits := deposits.0, deposits.1;
      this.exchange, this.operator, this.investor := exchange, operator, investor;
      this.tokenPair := tokenPair;
      basePrecision, quotePrecision := assetPrecisions.0, assetPrecisions.1;
    }

    /** `wrapDamlTuple([exchange, operator, investor])`. */
    function Key(): ParticipantKey {
      ParticipantKey(exchange, operator, investor)
    }

    /**
     * `computeValues(value, precision, field, setter)` as the three inputs call it:
     * a rejected value changes nothing; an accepted one is stored unchanged in the
     * edited cell, and the dependent cell receives `derived`, the formatted result
     * of the floating-point computation.
     */
    method ComputeValues(value: string, precision: int, field: Field, derived: string)
      modifies this
      ensures !ValidateInput(value, precision) ==>
        price == old(price) && amountQuote == old(amountQuote) && amountBase == old(amountBase)
      ensures ValidateInput(value, precision) ==> match field
        case PriceField => price == value && amountQuote == derived && amountBase == old(amountBase)
        case AmountField => amountBase == value && amountQuote == derived && price == old(price)
        case TotalField => amountQuote == value && amountBase == derived && price == old(price)
    {
      if !ValidateInput(value, precision) {
        return;
      }
      match field
      case PriceField =>
        price := value;
        amountQuote := derived;
      case AmountField =>
        amountBase := value;
        amountQuote := derived;
      case TotalField =>
        amountQuote := value;
        amountBase := derived;
    }

    /**
     * `placeOrder(kind, deposits, amount)`: validates the deposits first, so an
     * insufficient amount reaches no ledger call; otherwise exercises PlaceBid or
     * PlaceOffer on the participant key with the current price.
     */
    method PlaceOrder(ledger: Ledger, kind: OrderKind, deposits: seq<Deposit>, amount: string)
      returns (outcome: Outcome<AppError>)
      modifies ledger
      ensures ValidateDeposits(deposits, amount).Failure? ==>
        outcome == Fail(ValidateDeposits(deposits, amount).error) && ledger.calls == old(ledger.calls)
      ensures ValidateDeposits(deposits, amount).Success? ==>
        var args := OrderArgs(price, amount, ValidateDeposits(deposits, amount).value, tokenPair);
        outcome == Pass && ledger.calls == old(ledger.calls) + [OrderCall(kind, Key(), args)]
    {
      var check := ValidateDeposits(deposits, amount);
      if check.Failure? {
        return Fail(check.error);
      }
      var args := OrderArgs(price, amount, check.value, tokenPair);
      match kind {
        case Bid => ledger.Exercise(LedgerCall.PlaceBid(Key(), args));
        case Offer => ledger.Exercise(LedgerCall.PlaceOffer(Key(), args));
      }
      outcome := Pass;
    }

    /** `placeBid`: a bid spends the bid deposits against the quote total. */
    method PlaceBid(ledger: Ledger) returns (outcome: Outcome<AppError>)
      modifies ledger
      ensures ValidateDeposits(bidDeposits, amountQuote).Failure? ==>
        outcome == Fail(ValidateDeposits(bidDeposits, amountQuote).error) && ledger.calls == old(ledger.calls)
      ensures ValidateDeposits(bidDeposits, amountQuote).Success? ==>
        var args := OrderArgs(price, amountQuote, ValidateDeposits(bidDeposits, amountQuote).value, tokenPair);
        outcome == Pass && ledger.calls == old(ledger.calls) + [LedgerCall.PlaceBid(Key(), args)]
    {
      outcome := PlaceOrder(ledger, Bid, bidDeposits, amountQuote);
    }

    /** `placeOffer`: an offer spends the offer deposits against the base amount. */
    method PlaceOffer(ledger: Ledger) returns (outcome: Outcome<AppError>)
      modifies ledger
      ensures ValidateDeposits(offerDeposits, amountBase).Failure? ==>
        outcome == Fail(ValidateDeposits(offerDeposits, amountBase).error) && ledger.calls == old(ledger.calls)
      ensures ValidateDeposits(offerDeposits, amountBase).Success? ==>
        var args := OrderArgs(price, amountBase, ValidateDeposits(offerDeposits, amountBase).value, tokenPair);
        outcome == Pass && ledger.calls == old(ledger.calls) + [LedgerCall.PlaceOffer(Key(), args)]
    {
      outcome := PlaceOrder(ledger, Offer, offerDeposits, amountBase);
    }
  }
}
