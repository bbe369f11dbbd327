/** The spot trading form (src/pages/spotTrading/components/trading-form.tsx):
    the decimal-place rule of the amount and price inputs, the order it
    submits and when submitting is disabled. */
module TradingForm {
  import opened Wrappers
  import opened Text
  import opened SpotTypes

  /** `getDecimalPlaces`: the length of the second `.`-separated part, 0
      when there is none. */
  function DecimalPlaces(s: string): (n: nat)
    ensures n <= |s|
  {
    var parts := Split(s, '.');
    if |parts| < 2 then 0
    else
      SplitLength(s, '.');
      |parts[1]|
  }

  /** The parts of a split are no longer than the text. */
  lemma {:induction false} SplitLength(s: string, c: char)
    ensures forall i :: 0 <= i < |Split(s, c)| ==> |Split(s, c)[i]| <= |s|
    decreases |s|
  {
    if s != [] {
      SplitLength(s[1..], c);
    }
  }

  /** A text without a point has no decimals. */
  lemma DecimalPlacesNoPoint(s: string)
    requires '.' !in s
    ensures DecimalPlaces(s) == 0
  {
    SplitNoSeparator(s, '.');
  }

  /** The digits between the first `.` and the next `.` or the end. */
  lemma DecimalPlacesOf(intPart: string, frac: string, rest: string)
    requires '.' !in intPart && '.' !in frac
    requires rest == [] || rest[0] == '.'
    ensures DecimalPlaces(intPart + "." + frac + rest) == |frac|
  {
    var s := intPart + "." + frac + rest;
    assert s == intPart + ['.'] + (frac + rest);
    SplitTagged(intPart, frac + rest, '.');
    if rest == [] {
      assert frac + rest == frac;
      SplitNoSeparator(frac, '.');
    } else {
      assert frac + rest == frac + ['.'] + rest[1..];
      SplitConcat(frac, rest[1..], '.');
      SplitNoSeparator(frac, '.');
    }
  }

  /** `quoteAssetPrecision || 8`: the decimals a price may have. */
  function PriceDecimals(quoteAssetPrecision: int): (n: int)
    ensures quoteAssetPrecision != 0 ==> n == quoteAssetPrecision
    ensures quoteAssetPrecision == 0 ==> n == 8
  {
    if quoteAssetPrecision != 0 then quoteAssetPrecision else 8
  }

  /** The value an input handler stores: empty input clears the field,
      input with more decimals than allowed is replaced by its `toFixed`
      truncation (computed in floating point, so an input here), and anything
      else is stored as typed. */
  function Accepted(value: string, maxDecimals: int, truncated: string): (r: string)
    ensures value == [] ==> r == []
    ensures value != [] && ('.' !in value || DecimalPlaces(value) <= maxDecimals) ==> r == value
    ensures value != [] && '.' in value && DecimalPlaces(value) > maxDecimals ==> r == truncated
  {
    SplitSeparated(value, '.');
    if value == [] then []
    else
      var parts := Split(value, '.');
      if |parts| > 1 && |parts[1]| > maxDecimals then truncated
      else value
  }

  /** An amount or price whose fraction fits is stored verbatim. */
  lemma AcceptedVerbatim(intPart: string, frac: string, maxDecimals: int, truncated: string)
    requires '.' !in intPart && '.' !in frac && |frac| <= maxDecimals
    ensures Accepted(intPart + "." + frac, maxDecimals, truncated) == intPart + "." + frac
  {
    DecimalPlacesOf(intPart, frac, []);
    assert intPart + "." + frac + [] == intPart + "." + frac;
  }

  class TradingFormState {
    var orderType: OrderType
    var orderSide: OrderSide
    var price: string
    var amount: string
    var total: string

    constructor ()
      ensures orderType == Limit && orderSide == Buy && price == "" && amount == "" && total == ""
    {
      orderType := Limit;
      orderSide := Buy;
      price := "";
      amount := "";
      total := "";
    }

    method SetOrderType(t: OrderType)
      modifies this`orderType
      ensures orderType == t
    {
      orderType := t;
    }

    method SetOrderSide(side: OrderSide)
      modifies this`orderSide
      ensures orderSide == side
    {
      orderSide := side;
    }

    /** `handleAmountChange`: the allowed decimals are those of the step
        size; `stepText` is `Number(stepSize).toString()`, computed in
        floating point. */
    method HandleAmountChange(value: string, stepText: string, truncated: string)
      modifies this`amount
      ensures amount == Accepted(value, DecimalPlaces(if stepText == [] then "0.00000001" else stepText), truncated)
    {
      if value == [] {
        amount := [];
        return;
      }
      var stepSize := if stepText == [] then "0.00000001" else stepText;
      var maxDecimals := DecimalPlaces(stepSize);
      var parts := Split(value, '.');
      if |parts| > 1 && |parts[1]| > maxDecimals {
        amount := truncated;
      } else {
        amount := value;
      }
    }

    /** `handlePriceChange`: the allowed decimals are the quote precision,
        or 8 when it is 0. */
    method HandlePriceChange(value: string, pair: MarketPair, truncated: string)
      modifies this`price
      ensures price == Accepted(value, PriceDecimals(pair.quoteAssetPrecision), truncated)
    {
      if value == [] {
        price := [];
        return;
      }
      var maxDecimals := PriceDecimals(pair.quoteAssetPrecision);
      var parts := Split(value, '.');
      if |parts| > 1 && |parts[1]| > maxDecimals {
        price := truncated;
      } else {
        price := value;
      }
    }

    /** The submit button's `disabled`. */
    predicate SubmitDisabled(isLoading: bool)
      reads this
    {
      isLoading || amount == [] || (orderType == Limit && price == [])
    }

    /** `handleSubmit`: the order goes out with a price only when it is a
        limit order, then amount, price and total are cleared. */
    method HandleSubmit(pair: MarketPair) returns (request: OrderRequest)
      modifies this`amount, this`price, this`total
      ensures request.symbol == pair.symbol && request.orderType == orderType && request.side == orderSide
      ensures request.amount == old(amount)
      ensures request.price == if orderType == Limit then Some(old(price)) else None
      ensures amount == [] && price == [] && total == []
      ensures !old(SubmitDisabled(false)) ==> request.amount != [] && (request.orderType == Limit ==> request.price.value != [])
      ensures SubmitDisabled(false)
    {
      request := OrderRequest(pair.symbol, orderType, orderSide, if orderType == Limit then Some(price) else None, amount);
      amount := [];
      price := [];
      total := [];
    }
  }
}
