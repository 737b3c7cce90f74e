/**
 * `HistoryItem`: one row of the transaction history list, its counterparty
 * label, and whether its fee is shown.
 */
module HistoryItem {
  import opened Wrappers

  datatype TransactionDirection = Send | Receive

  /** `AmountData`: a decimal string with its decimals and symbol. */
  datatype AmountData = AmountData(value: string, decimals: nat, symbol: string)

  /** The fields of a `TransactionHistoryItem` the row reads. */
  datatype HistoryRow = HistoryRow(
    direction: TransactionDirection,
    from: Option<string>,
    fromName: Option<string>,
    to: Option<string>,
    toName: Option<string>,
    amount: Option<AmountData>,
    fee: Option<AmountData>)

  /** A string field is truthy when present and non-empty. */
  predicate Truthy(s: Option<string>) {
    s.Some? && s.value != ""
  }

  /** `a || b` on a string field and a string. */
  function Or(a: Option<string>, b: string): string {
    if Truthy(a) then a.value else b
  }

  /**
   * `isAbleToShowFee`: the fee is shown when there is one whose value is
   * neither empty nor the string "0" (so "0.0" is shown).
   */
  function IsAbleToShowFee(item: HistoryRow): (b: bool)
    ensures b ==> item.fee.Some?
    ensures item.fee.Some? ==> (b <==> item.fee.value.value !in ["", "0"])
  {
    item.fee.Some? && Truthy(Some(item.fee.value.value)) && item.fee.value.value != "0"
  }

  /**
   * The upper text of the row: for a transfer sent, the sender's name, else
   * its address, else ''; otherwise the same for the recipient.
   */
  function CounterpartyLabel(item: HistoryRow): (r: string)
    ensures item.direction == Send ==> r in [Or(item.fromName, ""), Or(item.from, "")]
    ensures item.direction != Send ==> r in [Or(item.toName, ""), Or(item.to, "")]
    ensures r == "" <==> if item.direction == Send then !Truthy(item.fromName) && !Truthy(item.from)
                         else !Truthy(item.toName) && !Truthy(item.to)
  {
    if item.direction == Send then Or(item.fromName, Or(item.from, ""))
    else Or(item.toName, Or(item.to, ""))
  }

  /** The label of a sent transfer never reads the recipient, and the other way round. */
  lemma LabelReadsOneSide(item: HistoryRow, to: Option<string>, toName: Option<string>, from: Option<string>, fromName: Option<string>)
    ensures item.direction == Send ==> CounterpartyLabel(item.(to := to, toName := toName)) == CounterpartyLabel(item)
    ensures item.direction != Send ==> CounterpartyLabel(item.(from := from, fromName := fromName)) == CounterpartyLabel(item)
  {
  }

  /** A name, when there is one, wins over the address. */
  lemma NamePreferred(item: HistoryRow)
    ensures item.direction == Send && Truthy(item.fromName) ==> CounterpartyLabel(item) == item.fromName.value
    ensures item.direction != Send && Truthy(item.toName) ==> CounterpartyLabel(item) == item.toName.value
  {
  }

  /** What the fee line of the right-hand column shows. */
  datatype FeeSlot = FeeAmount(value: string, decimals: nat, symbol: string) | Spacer(height: nat)

  /** The right-hand column: amounts when balances are shown, a placeholder otherwise. */
  datatype RightColumn =
    | Balances(amountValue: string, amountDecimals: nat, amountSymbol: Option<string>, fee: FeeSlot)
    | HiddenBalance(showConvertedBalance: bool)

  /**
   * The right-hand part of the row: with balances shown, the amount
   * (`item.amount.value || '0'`) and either the fee or a 20-point spacer;
   * hidden, a placeholder told whether the fee is shown (`isAbleToShowFee`).
   */
  function RightPart(item: HistoryRow, isShowBalance: bool): (c: RightColumn)
    ensures isShowBalance <==> c.Balances?
    ensures c.Balances? ==> (c.fee.FeeAmount? <==> IsAbleToShowFee(item))
    ensures c.Balances? && c.fee.FeeAmount? ==> c.fee.value == item.fee.value.value && c.fee.value !in ["", "0"]
    ensures c.Balances? && !c.fee.FeeAmount? ==> c.fee == Spacer(20)
    ensures c.HiddenBalance? ==> c.showConvertedBalance == IsAbleToShowFee(item)
    ensures c.Balances? ==> c.amountValue != "" && (item.amount.None? ==> c.amountValue == "0" && c.amountDecimals == 0)
  {
    if isShowBalance then
      var amountValue := if item.amount.Some? then Or(Some(item.amount.value.value), "0") else "0";
      var amountDecimals := if item.amount.Some? then item.amount.value.decimals else 0;
      var amountSymbol := if item.amount.Some? then Some(item.amount.value.symbol) else None;
      var fee :=
        if IsAbleToShowFee(item) then
          FeeAmount(Or(Some(item.fee.value.value), "0"), item.fee.value.decimals, item.fee.value.symbol)
        else
          Spacer(20);
      Balances(amountValue, amountDecimals, amountSymbol, fee)
    else
      HiddenBalance(IsAbleToShowFee(item))
  }

  /** A fee of "0" is hidden, a fee of "0.0" is shown. */
  lemma ZeroFeeCases(item: HistoryRow, decimals: nat, symbol: string)
    ensures !IsAbleToShowFee(item.(fee := Some(AmountData("0", decimals, symbol))))
    ensures IsAbleToShowFee(item.(fee := Some(AmountData("0.0", decimals, symbol))))
  {
    assert "0.0" != "0" by { assert |"0.0"| != |"0"|; }
  }
}
