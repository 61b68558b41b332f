/** What a settled trade costs, and the lowest ask that can settle at all. Energy is counted in
    1e-28 kWh, prices in 1e-9, gross values in 1e-37, and charges in 1e-41, where every charge
    is a whole number. */
module Charges {
  import opened Options
  import opened FastPrices
  import opened Words
  import opened Arithmetic

  const BPS: int := 10_000
  const MAX_NETWORK_CHARGE_BPS: int := 2_000

  /** Fee and loss in basis points of value; wheeling in 1e-6 currency per kWh. */
  datatype ChargeRates = ChargeRates(feeBps: U16, wheelingRatePerKwh: U64, lossBps: U16)

  /** Units of 1e-28 per unit of 1e-6, and per basis point. */
  const QUANTA_PER_MICRO: int := 10_000_000_000_000_000_000_000
  const QUANTA_PER_BP: int := 1_000_000_000_000_000_000_000_000

  /** Wheeling per kWh and the loss factor 1 + bps/10000, as decimals in units of 1e-28. */
  function WheelingPerKwh(rates: ChargeRates): int { rates.wheelingRatePerKwh * QUANTA_PER_MICRO }

  function LossFactor(rates: ChargeRates): int { (BPS + rates.lossBps) * QUANTA_PER_BP }

  /** Units of 1e-41 per kWh-quantum of wheeling. */
  const WHEELING_UNITS: int := 10_000_000

  /** The lowest ask, in 1e-6 currency per kWh, that can settle; `None` when none can. */
  function MinSettleablePrice(rates: ChargeRates): Option<int> {
    if rates.wheelingRatePerKwh == 0 then Some(0)
    else
      var headroom := MAX_NETWORK_CHARGE_BPS - rates.lossBps;
      if headroom <= 0 then None else Some(CeilDiv(rates.wheelingRatePerKwh * BPS, headroom))
  }

  datatype SettlementCharges = SettlementCharges(fee: int, wheeling: int, loss: int, net: int)

  function ComputeCharges(total: int, kwh: int, rates: ChargeRates): SettlementCharges {
    var fee := total * rates.feeBps;
    var wheeling := kwh * (rates.wheelingRatePerKwh * WHEELING_UNITS);
    var loss := total * rates.lossBps;
    SettlementCharges(fee, wheeling, loss, total * BPS - fee - wheeling - loss)
  }

  /** The chain's cap: wheeling plus loss at most 20% of the trade's value. */
  predicate FitsCap(total: int, kwh: int, rates: ChargeRates) {
    var c := ComputeCharges(total, kwh, rates);
    c.wheeling + c.loss <= total * MAX_NETWORK_CHARGE_BPS
  }

  // ---------- The price floor ----------

  /** The trade's size cancels: the cap is a pure condition on the price. */
  lemma CapIsAPriceCondition(price: int, kwh: int, rates: ChargeRates)
    requires kwh > 0
    ensures FitsCap(kwh * price, kwh, rates)
      <==> rates.wheelingRatePerKwh * 10_000_000 <= price * (2_000 - rates.lossBps)
  {
    var w: int, l: int := rates.wheelingRatePerKwh * WHEELING_UNITS, rates.lossBps;
    assert kwh * price * l == kwh * (price * l) by { MulAssoc(kwh, price, l); }
    assert kwh * price * MAX_NETWORK_CHARGE_BPS == kwh * (price * MAX_NETWORK_CHARGE_BPS) by { MulAssoc(kwh, price, MAX_NETWORK_CHARGE_BPS); }
    assert kwh * w + kwh * (price * l) == kwh * (w + price * l) by { Distribute(kwh, w, price * l); }
    CancelFactor(kwh, w + price * l, price * MAX_NETWORK_CHARGE_BPS);
    assert price * (MAX_NETWORK_CHARGE_BPS - l) == price * MAX_NETWORK_CHARGE_BPS - price * l by { Distribute(price, MAX_NETWORK_CHARGE_BPS, -l); }
  }

  /** For a positive wheeling rate the floor is exact: a price with six decimals settles, for
      every size, if and only if it is at least the floor; and there is no floor only when no
      price settles. */
  lemma FloorIsLeast(micros: int, kwh: int, rates: ChargeRates)
    requires rates.wheelingRatePerKwh > 0 && kwh > 0 && micros >= 0
    ensures FitsCap(kwh * (micros * 1000), kwh, rates)
      <==> MinSettleablePrice(rates).Some? && MinSettleablePrice(rates).value <= micros
  {
    CapIsAPriceCondition(micros * 1000, kwh, rates);
    var h := MAX_NETWORK_CHARGE_BPS - rates.lossBps;
    assert micros * 1000 * h == 1000 * (micros * h);
    if h > 0 {
      CeilDivLeast(rates.wheelingRatePerKwh * BPS, h, micros);
    } else {
      assert micros * h <= 0 by { assert micros * (-h) >= 0; }
    }
  }

  /** Any nine-decimal settle price at or above the floor settles too. */
  lemma AboveFloorFits(price: int, kwh: int, rates: ChargeRates)
    requires rates.wheelingRatePerKwh > 0 && kwh > 0
    requires MinSettleablePrice(rates).Some? && MinSettleablePrice(rates).value * 1000 <= price
    ensures FitsCap(kwh * price, kwh, rates)
  {
    var floor, h := MinSettleablePrice(rates).value, MAX_NETWORK_CHARGE_BPS - rates.lossBps;
    CapIsAPriceCondition(price, kwh, rates);
    CeilDivLeast(rates.wheelingRatePerKwh * BPS, h, floor);
    assert (price - floor * 1000) * h >= 0;
    assert (price - floor * 1000) * h == price * h - 1000 * (floor * h);
  }

  /** With no wheeling the floor is always zero, yet a trade of positive value then fits the cap
      exactly when the loss rate does: above it every trade is refused and no floor says so. */
  lemma ZeroWheelingFloor(price: int, kwh: int, rates: ChargeRates)
    requires rates.wheelingRatePerKwh == 0 && kwh > 0 && price > 0
    ensures MinSettleablePrice(rates) == Some(0)
    ensures FitsCap(kwh * price, kwh, rates) <==> rates.lossBps <= 2_000
  {
    CapIsAPriceCondition(price, kwh, rates);
    var h := MAX_NETWORK_CHARGE_BPS - rates.lossBps;
    if h >= 0 {
      assert price * h >= 0;
    } else {
      assert price * (-h) > 0;
    }
  }

  // ---------- Reconciliation ----------

  datatype Discrepancy = DoesNotSumToGross(accounted: int, gross: int) | ChargeOffTariff(field: string, booked: int, expected: int)

  /** A row as the tariff has it: a fee and a loss in basis points of the gross, wheeling per kWh,
      and the rest to the seller. */
  predicate AtTariff(c: SettlementCharges, gross: int, kwh: int, rates: ChargeRates) {
    && c.fee == gross * rates.feeBps
    && c.wheeling == kwh * rates.wheelingRatePerKwh * 10_000_000
    && c.loss == gross * rates.lossBps
    && c.net == gross * 10_000 - c.fee - c.wheeling - c.loss
  }

  lemma ChargesAtTariff(gross: int, kwh: int, rates: ChargeRates)
    ensures AtTariff(ComputeCharges(gross, kwh, rates), gross, kwh, rates)
    ensures ComputeCharges(gross, kwh, rates).net
      == gross * (10_000 - rates.feeBps - rates.lossBps) - kwh * rates.wheelingRatePerKwh * 10_000_000
  {
    MulAssoc(kwh, rates.wheelingRatePerKwh, 10_000_000);
    NetAtTariff(ComputeCharges(gross, kwh, rates), gross, kwh, rates);
  }

  lemma NetAtTariff(c: SettlementCharges, gross: int, kwh: int, rates: ChargeRates)
    requires AtTariff(c, gross, kwh, rates)
    ensures c.net == gross * (10_000 - rates.feeBps - rates.lossBps) - kwh * rates.wheelingRatePerKwh * 10_000_000
  {
    var fee: int, loss: int := rates.feeBps, rates.lossBps;
    Distribute(gross, 10_000 - fee, -loss);
    Distribute(gross, 10_000, -fee);
  }

  /** A column reported when it is off. */
  function Off(field: string, booked: int, expected: int): seq<Discrepancy> {
    if booked == expected then [] else [ChargeOffTariff(field, booked, expected)]
  }

  function OffAll(rows: seq<(string, int, int)>): seq<Discrepancy> {
    if rows == [] then []
    else OffAll(rows[..|rows| - 1]) + Off(rows[|rows| - 1].0, rows[|rows| - 1].1, rows[|rows| - 1].2)
  }

  lemma OffNext(rows: seq<(string, int, int)>, i: nat)
    requires i < |rows|
    ensures OffAll(rows[..i + 1]) == OffAll(rows[..i]) + Off(rows[i].0, rows[i].1, rows[i].2)
    ensures OffAll(rows[..i + 1])
      == if rows[i].1 != rows[i].2 then OffAll(rows[..i]) + [ChargeOffTariff(rows[i].0, rows[i].1, rows[i].2)] else OffAll(rows[..i])
  {
    assert rows[..i + 1][..i] == rows[..i];
  }

  lemma OffEach(rows: seq<(string, int, int)>)
    requires |rows| == 4
    ensures OffAll(rows) == Off(rows[0].0, rows[0].1, rows[0].2) + Off(rows[1].0, rows[1].1, rows[1].2)
                            + Off(rows[2].0, rows[2].1, rows[2].2) + Off(rows[3].0, rows[3].1, rows[3].2)
  {
    hide Off;
    assert rows[..3][..2] == rows[..2] && rows[..2][..1] == rows[..1] && rows[..1][..0] == [];
    assert OffAll([]) == [];
    assert OffAll(rows[..1]) == Off(rows[0].0, rows[0].1, rows[0].2);
    assert OffAll(rows[..2]) == OffAll(rows[..1]) + Off(rows[1].0, rows[1].1, rows[1].2);
    assert OffAll(rows[..3]) == OffAll(rows[..2]) + Off(rows[2].0, rows[2].1, rows[2].2);
  }

  lemma OffNone(rows: seq<(string, int, int)>)
    ensures OffAll(rows[..0]) == []
  {
  }

  /** Everything that is off in a booked row, in the order it is looked at. */
  function AllOff(gross: int, kwh: int, booked: SettlementCharges, rates: ChargeRates): seq<Discrepancy> {
    var accounted := booked.fee + booked.wheeling + booked.loss + booked.net;
    var fee, wheeling, loss := gross * rates.feeBps, kwh * rates.wheelingRatePerKwh * 10_000_000, gross * rates.lossBps;
    (if accounted == gross * 10_000 then [] else [DoesNotSumToGross(accounted, gross * 10_000)])
    + (Off("fee_amount", booked.fee, fee) + Off("wheeling_charge", booked.wheeling, wheeling)
       + Off("loss_cost", booked.loss, loss) + Off("net_amount", booked.net, gross * 10_000 - fee - wheeling - loss))
  }

  lemma OffTheExpected(gross: int, kwh: int, booked: SettlementCharges, rates: ChargeRates)
    ensures var accounted, expected := booked.fee + booked.wheeling + booked.loss + booked.net, ComputeCharges(gross, kwh, rates);
      AllOff(gross, kwh, booked, rates)
      == (if accounted == gross * BPS then [] else [DoesNotSumToGross(accounted, gross * BPS)])
         + (Off("fee_amount", booked.fee, expected.fee) + Off("wheeling_charge", booked.wheeling, expected.wheeling)
            + Off("loss_cost", booked.loss, expected.loss) + Off("net_amount", booked.net, expected.net))
  {
    ChargesAtTariff(gross, kwh, rates);
    hide ComputeCharges, Off;
  }

  lemma NothingOff(gross: int, kwh: int, booked: SettlementCharges, rates: ChargeRates)
    ensures AllOff(gross, kwh, booked, rates) == [] <==> AtTariff(booked, gross, kwh, rates)
  {
  }

  /** Check a booked row (in 1e-41) against the accounting identity and the tariff: it passes
      exactly when it is at the tariff, and otherwise each thing that is off is reported, in order. */
  method ReconcileCharges(gross: int, kwh: int, booked: SettlementCharges, rates: ChargeRates) returns (found: seq<Discrepancy>)
    ensures found == [] <==> AtTariff(booked, gross, kwh, rates)
    ensures found == AllOff(gross, kwh, booked, rates)
  {
    NothingOff(gross, kwh, booked, rates);
    OffTheExpected(gross, kwh, booked, rates);
    hide ComputeCharges, OffAll, AllOff, AtTariff, Off;
    found := [];
    var accounted := booked.fee + booked.wheeling + booked.loss + booked.net;
    if accounted != gross * BPS {
      found := [DoesNotSumToGross(accounted, gross * BPS)];
    }
    ghost var summed := found;
    var expected := ComputeCharges(gross, kwh, rates);
    var rows := [("fee_amount", booked.fee, expected.fee), ("wheeling_charge", booked.wheeling, expected.wheeling),
                 ("loss_cost", booked.loss, expected.loss), ("net_amount", booked.net, expected.net)];
    OffNone(rows);
    for i := 0 to |rows|
      invariant found == summed + OffAll(rows[..i])
    {
      OffNext(rows, i);
      if rows[i].1 != rows[i].2 {
        found := found + [ChargeOffTariff(rows[i].0, rows[i].1, rows[i].2)];
      }
    }
    assert rows[..4] == rows;
    OffEach(rows);
  }
}
