/** Admission of an order's price and of a buyer's funds, shared by both submit edges.
    Prices and amounts are decimals in units of 1e-28; funds are atomic units of 1e-6. */
module OrderPolicy {
  import opened Options
  import opened FastPrices
  import opened Words
  import opened Orders
  import opened Arithmetic
  import opened Charges

  datatype OrderType = Limit | Market
  datatype OrderSide = Buy | Sell

  datatype Result<+T, +E> = Ok(value: T) | Err(error: E)

  datatype OrderPriceError =
    MarketSellUnsupported | FokSellUnsupported | MarketGtc | MarketCapNonPositive | LimitMissingPrice | LimitNonPositive

  /** 1.0 as a decimal. */
  const ONE: int := 10_000_000_000_000_000_000_000_000_000

  const MARKET_BUY_CEILING_BID: int := 1_000_000 * ONE

  /** The bid or ask an order is matched at. A limit price is required and positive; a market
      buy bids its cap or the ceiling; market sells, resting market orders and fill-or-kill
      sells are refused. */
  function ResolveOrderPrice(orderType: OrderType, side: OrderSide, timeInForce: TimeInForce, price: Option<int>)
    : (r: Result<int, OrderPriceError>)
    ensures r.Ok? ==> r.value > 0 && (price.Some? ==> r.value == price.value)
    ensures r.Ok? && side.Sell? ==> orderType.Limit? && !timeInForce.Fok?
    ensures r.Ok? && orderType.Market? ==> timeInForce.IsImmediate()
    ensures r.Ok? && price.None? ==> orderType.Market? && side.Buy? && r.value == 1_000_000 * ONE
    ensures r.Err? <==>
      || (price.Some? && price.value <= 0)
      || (side.Sell? && (timeInForce.Fok? || orderType.Market?))
      || (if orderType.Market? then timeInForce.Gtc? else price.None?)
    ensures r == Err(FokSellUnsupported) <==> side.Sell? && timeInForce.Fok?
    ensures r == Err(MarketSellUnsupported) <==> orderType.Market? && side.Sell? && !timeInForce.Fok?
    ensures r == Err(MarketGtc) <==> orderType.Market? && side.Buy? && timeInForce.Gtc?
    ensures r == Err(LimitMissingPrice) <==> orderType.Limit? && price.None? && !(side.Sell? && timeInForce.Fok?)
  {
    if side.Sell? && timeInForce.Fok? then Err(FokSellUnsupported)
    else
      match orderType
      case Market =>
        if side.Sell? then Err(MarketSellUnsupported)
        else if timeInForce.Gtc? then Err(MarketGtc)
        else if price.Some? then (if price.value <= 0 then Err(MarketCapNonPositive) else Ok(price.value))
        else Ok(MARKET_BUY_CEILING_BID)
      case Limit =>
        if price.None? then Err(LimitMissingPrice)
        else if price.value <= 0 then Err(LimitNonPositive)
        else Ok(price.value)
  }

  datatype SellPriceFloorError =
    TariffAdmitsNoPrice | BelowSettleableFloor(price: int, floor: int) | BelowMarketMinimum(price: int, minimum: int)

  /** A sell is admitted exactly at or above both the settleable floor and the market minimum; one
      that could never settle is told so first. */
  function CheckSellPriceFloor(side: OrderSide, price: int, marketMinimum: int, settleableFloor: Option<int>)
    : (r: Result<(), SellPriceFloorError>)
    ensures r.Ok? <==> side.Buy? || (settleableFloor.Some? && settleableFloor.value <= price && marketMinimum <= price)
    ensures r == Err(TariffAdmitsNoPrice) <==> side.Sell? && settleableFloor.None?
    ensures r.Err? && r.error.BelowMarketMinimum? ==> settleableFloor.Some? && settleableFloor.value <= price < marketMinimum
    ensures r.Err? && r.error.BelowSettleableFloor? ==> settleableFloor.Some? && price < settleableFloor.value
  {
    if !side.Sell? then Ok(())
    else
      match settleableFloor
      case None => Err(TariffAdmitsNoPrice)
      case Some(floor) =>
        if price < floor then Err(BelowSettleableFloor(price, floor))
        else if price < marketMinimum then Err(BelowMarketMinimum(price, marketMinimum))
        else Ok(())
  }

  /** The live floor as a decimal. */
  function SettleableFloor(rates: ChargeRates): Option<int> {
    match MinSettleablePrice(rates)
    case None => None
    case Some(micros) => Some(micros * QUANTA_PER_MICRO)
  }

  // ---------- Buyer funding ----------

  datatype BuyFundingRequirement = Nothing | NonZero | Atomic(amount: int)

  datatype BuyFundingError = InsufficientFunds(required: int, available: int)

  /** Products of two decimals are in 1e-56, so one atomic unit is this many of them. */
  const PRODUCT_PER_ATOMIC: int := 100_000_000_000_000_000_000_000_000_000_000_000_000_000_000_000_000

  function ToU64OrMax(x: int): int { if 0 <= x <= U64_MAX then x else U64_MAX }

  function RequiredBuyFunding(side: OrderSide, orderType: OrderType, explicitPrice: Option<int>, matchingPrice: int,
                              amount: int): BuyFundingRequirement
  {
    if !side.Buy? then Nothing
    else if orderType.Market? && explicitPrice.None? then NonZero
    else Atomic(ToU64OrMax(CeilDiv(matchingPrice * amount, PRODUCT_PER_ATOMIC)))
  }

  function CheckBuyFunding(requirement: BuyFundingRequirement, available: int): Result<(), BuyFundingError> {
    match requirement
    case Nothing => Ok(())
    case NonZero => if available > 0 then Ok(()) else Err(InsufficientFunds(1, available))
    case Atomic(required) => if available >= required then Ok(()) else Err(InsufficientFunds(required, available))
  }

  /** Gross values are in 1e-37: one atomic unit is this many of them. */
  const GROSS_PER_ATOMIC: int := 10_000_000_000_000_000_000_000_000_000_000

  /** A positive order's requirement covers its whole spend at its own decimal price, and is
      the least such whole number of atomic units. */
  lemma RequirementIsLeastCover(orderType: OrderType, explicitPrice: Option<int>, price: int, amount: int, enough: int)
    requires price > 0 && amount > 0 && (orderType.Limit? || explicitPrice.Some?)
    ensures var r := RequiredBuyFunding(Buy, orderType, explicitPrice, price, amount);
      && r.Atomic? && 0 < r.amount <= U64_MAX
      && (enough < U64_MAX ==> (r.amount <= enough <==> price * amount <= enough * PRODUCT_PER_ATOMIC))
  {
    assert price * amount > 0;
    var c := CeilDiv(price * amount, PRODUCT_PER_ATOMIC);
    CeilDivLeast(price * amount, PRODUCT_PER_ATOMIC, enough);
    CeilDivLeast(price * amount, PRODUCT_PER_ATOMIC, 0);
  }

  /** Whom the funding check admits: every seller, a market buyer without a cap who holds anything,
      and otherwise exactly a buyer whose balance covers price times amount. */
  lemma FundingAdmitsExactly(side: OrderSide, orderType: OrderType, explicitPrice: Option<int>, price: int, amount: int, available: int)
    requires price > 0 && amount > 0 && 0 <= available < U64_MAX
    ensures CheckBuyFunding(RequiredBuyFunding(side, orderType, explicitPrice, price, amount), available).Ok?
      <==> (if side.Sell? then true
            else if orderType.Market? && explicitPrice.None? then available > 0
            else price * amount <= available * PRODUCT_PER_ATOMIC)
  {
    if side.Buy? && !(orderType.Market? && explicitPrice.None?) {
      RequirementIsLeastCover(orderType, explicitPrice, price, amount, available);
    }
  }

  /** A negative amount of at least one atomic unit's worth is refused by saturation, not
      priced at zero: the requirement is the maximum. A smaller one asks for nothing. */
  lemma NegativeAmountDemandsEverything(orderType: OrderType, explicitPrice: Option<int>, price: int, amount: int)
    requires price > 0 && amount < 0 && (orderType.Limit? || explicitPrice.Some?)
    ensures RequiredBuyFunding(Buy, orderType, explicitPrice, price, amount)
      == Atomic(if price * amount <= -PRODUCT_PER_ATOMIC then U64_MAX else 0)
  {
    CeilDivLeast(price * amount, PRODUCT_PER_ATOMIC, -1);
    CeilDivLeast(price * amount, PRODUCT_PER_ATOMIC, 0);
    assert price * (-amount) > 0;
  }
}
