/** Quotes of the stability module over a yield-bearing share, and the reserve's income index. */
module Gsm {
  import opened Types
  import opened Rounding

  const RAY: nat := 1_000_000_000_000_000_000_000_000_000
  const HALF_RAY: nat := 500_000_000_000_000_000_000_000_000
  const SECONDS_PER_YEAR: nat := 31_536_000
  const BPS: nat := 10_000
  const ASSET_UNITS: nat := 1_000_000
  const PRICE_RATIO: nat := 1_000_000_000_000_000_000

  datatype Quote = Quote(assetAmount: nat, totalGho: nat, grossGho: nat, fee: nat)

  // ----- The models -----

  function PriceUp(shares: nat, rate: nat): nat { Ceil(Ceil(shares * rate, RAY) * PRICE_RATIO, ASSET_UNITS) }

  function PriceDown(shares: nat, rate: nat): nat { Floor(Floor(shares * rate, RAY) * PRICE_RATIO, ASSET_UNITS) }

  function AssetUp(gho: nat, rate: nat): nat
    requires rate > 0
  {
    Ceil(Ceil(gho * ASSET_UNITS, PRICE_RATIO) * RAY, rate)
  }

  function AssetDown(gho: nat, rate: nat): nat
    requires rate > 0
  {
    Floor(Floor(gho * ASSET_UNITS, PRICE_RATIO) * RAY, rate)
  }

  function Fee(gross: nat, bps: nat): nat { Ceil(gross * bps, BPS) }

  function GrossOfBuy(total: nat, bps: nat): nat {
    if bps == 0 then total else Floor(total * BPS, BPS + bps)
  }

  function GrossOfSell(received: nat, bps: nat): nat
    requires bps < BPS
  {
    if bps == 0 then received else Ceil(received * BPS, BPS - bps)
  }

  /** What buying the shares costs. */
  function GhoForBuy(shares: nat, rate: nat, bps: nat): Quote
    requires rate > 0
  {
    var total := PriceUp(shares, rate) + Fee(PriceUp(shares, rate), bps);
    var gross := GrossOfBuy(total, bps);
    BuyGross(total, bps);
    Quote(AssetDown(gross, rate), gross + (total - gross), gross, total - gross)
  }

  /** What selling the shares yields. */
  function GhoForSell(shares: nat, rate: nat, bps: nat): Quote
    requires rate > 0 && bps < BPS
  {
    SellFee(PriceDown(shares, rate), bps);
    var received := PriceDown(shares, rate) - Fee(PriceDown(shares, rate), bps);
    var gross := GrossOfSell(received, bps);
    SellGross(received, bps);
    Quote(AssetUp(gross, rate), gross - (gross - received), gross, gross - received)
  }

  /** What can be bought for at most this much. */
  function AssetForBuy(most: nat, rate: nat, bps: nat): Quote
    requires rate > 0
  {
    var assets := AssetDown(GrossOfBuy(most, bps), rate);
    var gross := PriceUp(assets, rate);
    Quote(assets, gross + Fee(gross, bps), gross, Fee(gross, bps))
  }

  /** What must be sold for at least this much. */
  function AssetForSell(least: nat, rate: nat, bps: nat): Quote
    requires rate > 0 && bps < BPS
  {
    var assets := AssetUp(GrossOfSell(least, bps), rate);
    var gross := PriceDown(assets, rate);
    SellFee(gross, bps);
    Quote(assets, gross - Fee(gross, bps), gross, Fee(gross, bps))
  }

  // ----- Nothing goes negative -----

  lemma BuyGross(total: nat, bps: nat)
    ensures GrossOfBuy(total, bps) <= total
  {
    if bps > 0 {
      var gross := GrossOfBuy(total, bps);
      FloorAdjoint(gross, total * BPS, BPS + bps);
      Expand(gross, BPS, bps);
      Positive(gross, bps);
    }
  }

  lemma SellFee(gross: nat, bps: nat)
    requires bps < BPS
    ensures Fee(gross, bps) <= gross && gross - Fee(gross, bps) == Floor(gross * (BPS - bps), BPS)
  {
    FloorOfRest(gross, bps, BPS);
  }

  lemma SellGross(received: nat, bps: nat)
    requires bps < BPS
    ensures received <= GrossOfSell(received, bps)
  {
    if bps > 0 {
      var gross := GrossOfSell(received, bps);
      CeilAdjoint(gross, received * BPS, BPS - bps);
      Expand(gross, BPS - bps, bps);
      Positive(gross, bps);
    }
  }

  // ----- Adjoints, step by step -----

  lemma PriceUpAdjoint(s: nat, rate: nat, gho: nat)
    requires rate > 0
    ensures PriceUp(s, rate) <= gho <==> s <= AssetDown(gho, rate)
  {
    var va, v := Ceil(s * rate, RAY), Floor(gho * ASSET_UNITS, PRICE_RATIO);
    CeilAdjoint(gho, va * PRICE_RATIO, ASSET_UNITS);
    FloorAdjoint(va, gho * ASSET_UNITS, PRICE_RATIO);
    CeilAdjoint(v, s * rate, RAY);
    FloorAdjoint(s, v * RAY, rate);
  }

  lemma PriceDownAdjoint(s: nat, rate: nat, gho: nat)
    requires rate > 0
    ensures gho <= PriceDown(s, rate) <==> AssetUp(gho, rate) <= s
  {
    var va, v := Floor(s * rate, RAY), Ceil(gho * ASSET_UNITS, PRICE_RATIO);
    FloorAdjoint(gho, va * PRICE_RATIO, ASSET_UNITS);
    CeilAdjoint(va, gho * ASSET_UNITS, PRICE_RATIO);
    FloorAdjoint(v, s * rate, RAY);
    CeilAdjoint(s, v * RAY, rate);
  }

  lemma BuyTotalAdjoint(gross: nat, bps: nat, total: nat)
    ensures gross + Fee(gross, bps) <= total <==> gross <= GrossOfBuy(total, bps)
  {
    CeilOfSum(gross, bps, BPS);
    CeilAdjoint(total, gross * (BPS + bps), BPS);
    FloorAdjoint(gross, total * BPS, BPS + bps);
  }

  lemma SellTotalAdjoint(gross: nat, bps: nat, received: nat)
    requires bps < BPS
    ensures Fee(gross, bps) <= gross
    ensures received <= gross - Fee(gross, bps) <==> GrossOfSell(received, bps) <= gross
  {
    SellFee(gross, bps);
    FloorAdjoint(received, gross * (BPS - bps), BPS);
    CeilAdjoint(gross, received * BPS, BPS - bps);
  }

  // ----- Quotes -----

  /** Buying quotes are exact adjoints: shares cost no more than g exactly when they are no more than
      what g buys. */
  lemma BuyQuotesAreAdjoint(s: nat, g: nat, rate: nat, bps: nat)
    requires rate > 0
    ensures GhoForBuy(s, rate, bps).totalGho <= g <==> s <= AssetForBuy(g, rate, bps).assetAmount
  {
    hide PriceUp, AssetDown, Fee, GrossOfBuy;
    BuyTotalAdjoint(PriceUp(s, rate), bps, g);
    PriceUpAdjoint(s, rate, GrossOfBuy(g, bps));
  }

  /** Selling quotes are exact adjoints: shares yield at least g exactly when they are at least what
      must be sold for g. */
  lemma SellQuotesAreAdjoint(s: nat, g: nat, rate: nat, bps: nat)
    requires rate > 0 && bps < BPS
    ensures g <= GhoForSell(s, rate, bps).totalGho <==> AssetForSell(g, rate, bps).assetAmount <= s
  {
    hide PriceDown, AssetUp, Fee, GrossOfSell;
    SellTotalAdjoint(PriceDown(s, rate), bps, g);
    PriceDownAdjoint(s, rate, GrossOfSell(g, bps));
  }

  /** Inverting the buy fee recovers the gross price exactly; the quote conserves its total and gives
      at least the shares asked for. */
  lemma BuyFeeInverts(s: nat, rate: nat, bps: nat)
    requires rate > 0
    ensures var q := GhoForBuy(s, rate, bps);
            && q.grossGho == PriceUp(s, rate) && q.fee == Fee(q.grossGho, bps) && q.totalGho == q.grossGho + q.fee
            && s <= q.assetAmount
  {
    hide PriceUp, AssetDown;
    var gross := PriceUp(s, rate);
    CeilOfSum(gross, bps, BPS);
    CeilThenFloor(gross, BPS + bps, BPS);
    PriceUpAdjoint(s, rate, gross);
  }

  /** A sell quote never uses more shares than offered, nor a higher gross price than they have. */
  lemma SellQuoteUsesNoMore(s: nat, rate: nat, bps: nat)
    requires rate > 0 && bps < BPS
    ensures var q := GhoForSell(s, rate, bps);
            && q.assetAmount <= s && q.grossGho <= PriceDown(s, rate) && q.totalGho + q.fee == q.grossGho
            && q.totalGho == PriceDown(s, rate) - Fee(PriceDown(s, rate), bps)
  {
    hide PriceDown, AssetUp, Fee, GrossOfSell;
    var gross := PriceDown(s, rate);
    SellFee(gross, bps);
    SellTotalAdjoint(gross, bps, gross - Fee(gross, bps));
    PriceDownAdjoint(s, rate, GrossOfSell(gross - Fee(gross, bps), bps));
  }

  /** What is bought never costs more than offered, what is sold never yields less than asked. */
  lemma QuotesStayWithin(g: nat, rate: nat, bps: nat)
    requires rate > 0
    ensures var q := AssetForBuy(g, rate, bps);
            q.totalGho <= g && q.totalGho == GhoForBuy(q.assetAmount, rate, bps).totalGho
    ensures bps < BPS ==>
              var q := AssetForSell(g, rate, bps);
              g <= q.totalGho && q.totalGho == GhoForSell(q.assetAmount, rate, bps).totalGho
  {
    hide PriceUp, PriceDown, AssetUp, AssetDown, Fee, GrossOfSell, GrossOfBuy;
    BuyQuotesAreAdjoint(AssetForBuy(g, rate, bps).assetAmount, g, rate, bps);
    if bps < BPS {
      SellQuotesAreAdjoint(AssetForSell(g, rate, bps).assetAmount, g, rate, bps);
    }
  }

  // ----- What the amounts are -----

  lemma CeilBounds(a: nat, b: nat)
    requires b > 0
    ensures a <= Ceil(a, b) * b < a + b
  {
    CeilAdjoint(Ceil(a, b), a, b);
    if a > 0 {
      Quotient(a - 1, b);
      Spread((a - 1) / b, 1, b);
    }
  }

  /** The price is the asset's value at the rate in 27 decimals, carried from 6 to 18 decimals; before that it
      is rounded to a whole unit of the asset, up for a buyer and down for a seller. */
  lemma PriceIsRounded(shares: nat, rate: nat)
    ensures exists v: nat :: PriceUp(shares, rate) == v * 1_000_000_000_000
                             && shares * rate <= v * 1_000_000_000_000_000_000_000_000_000
                             < shares * rate + 1_000_000_000_000_000_000_000_000_000
    ensures exists v: nat :: PriceDown(shares, rate) == v * 1_000_000_000_000
                             && v * 1_000_000_000_000_000_000_000_000_000 <= shares * rate
                             < (v + 1) * 1_000_000_000_000_000_000_000_000_000
  {
    var up, down := Ceil(shares * rate, RAY), Floor(shares * rate, RAY);
    CeilBounds(shares * rate, RAY);
    Quotient(shares * rate, RAY);
    assert PriceUp(shares, rate) == up * 1_000_000_000_000;
    assert PriceDown(shares, rate) == down * 1_000_000_000_000;
  }

  /** The fee is the least amount that covers its share in ten thousand of the gross price. */
  lemma FeeIsLeast(gross: nat, bps: nat, f: nat)
    ensures Fee(gross, bps) <= f <==> gross * bps <= f * 10_000
  {
    CeilAdjoint(f, gross * bps, BPS);
  }

  /** Every quote is consistent: its fee is the fee on its gross price and its total is gross plus or less fee.
      A quote for an amount of the other token is at the price of the shares it names. */
  lemma QuotesAddUp(x: nat, rate: nat, bps: nat)
    requires rate > 0
    ensures var q := AssetForBuy(x, rate, bps);
            && q.grossGho == PriceUp(q.assetAmount, rate) && q.fee == Fee(q.grossGho, bps)
            && q.totalGho == q.grossGho + q.fee
    ensures bps < BPS ==>
              var q := AssetForSell(x, rate, bps);
              && q.grossGho == PriceDown(q.assetAmount, rate) && q.fee == Fee(q.grossGho, bps)
              && q.totalGho == q.grossGho - q.fee
    ensures bps < BPS ==>
              var q := GhoForSell(x, rate, bps); q.fee == Fee(q.grossGho, bps) && q.totalGho == q.grossGho - q.fee
  {
    hide PriceUp, PriceDown, AssetUp, AssetDown, Fee, GrossOfBuy, GrossOfSell;
    if bps < BPS {
      SellFeeInverts(PriceDown(x, rate), bps);
    }
  }

  /** Inverting the sell fee may lower the gross price, but to one with the same yield. */
  lemma SellFeeInverts(gross: nat, bps: nat)
    requires bps < BPS
    ensures Fee(gross, bps) <= gross
    ensures var received := gross - Fee(gross, bps);
            var least := GrossOfSell(received, bps); least - received == Fee(least, bps)
  {
    hide Fee, GrossOfSell;
    SellFee(gross, bps);
    var received := gross - Fee(gross, bps);
    var least := GrossOfSell(received, bps);
    SellTotalAdjoint(gross, bps, received);
    SellTotalAdjoint(least, bps, received);
    SellFee(least, bps);
    MulLe(least, gross, BPS - bps);
    FloorAdjoint(Floor(least * (BPS - bps), BPS), gross * (BPS - bps), BPS);
    FloorAdjoint(Floor(least * (BPS - bps), BPS), least * (BPS - bps), BPS);
  }

  // ----- Income -----

  /** The index grown linearly since its last update; nothing before it. */
  function NormalizedIncome(index: nat, rate: nat, lastUpdate: nat, timestamp: nat): Option<nat> {
    if timestamp < lastUpdate then None
    else if timestamp == lastUpdate then Some(index)
    else Some(((RAY + rate * (timestamp - lastUpdate) / SECONDS_PER_YEAR) * index + HALF_RAY) / RAY)
  }

  lemma InterestGrows(rate: nat, a: nat, b: nat)
    requires a <= b
    ensures rate * a / SECONDS_PER_YEAR <= rate * b / SECONDS_PER_YEAR
  {
    Within(rate, a, b);
  }

  lemma RoundedGrows(index: nat, x: nat, y: nat)
    requires x <= y
    ensures (x * index + HALF_RAY) / RAY <= (y * index + HALF_RAY) / RAY
  {
    MulLe(x, y, index);
  }

  lemma RoundedUnit(index: nat)
    ensures (RAY * index + HALF_RAY) / RAY == index
  {
  }

  /** Income is never below the index, meets it at the last update, and never falls with time. */
  lemma IncomeGrows(index: nat, rate: nat, lastUpdate: nat, t: nat, u: nat)
    requires lastUpdate <= t <= u
    ensures var at, later := NormalizedIncome(index, rate, lastUpdate, t), NormalizedIncome(index, rate, lastUpdate, u);
            at.Some? && later.Some? && index <= at.value <= later.value
    ensures NormalizedIncome(index, rate, lastUpdate, lastUpdate) == Some(index)
  {
    InterestGrows(rate, t - lastUpdate, u - lastUpdate);
    var x := RAY + rate * (t - lastUpdate) / SECONDS_PER_YEAR;
    var y := RAY + rate * (u - lastUpdate) / SECONDS_PER_YEAR;
    RoundedUnit(index);
    InterestGrows(rate, 0, t - lastUpdate);
    RoundedGrows(index, RAY, x);
    RoundedGrows(index, x, y);
  }

  /** Income is the index times one plus the rate for the elapsed part of a year of 365 days, in 27 decimals:
      the yearly interest is rounded down, and the product to the nearest unit with halves up. */
  lemma IncomeIsRounded(index: nat, rate: nat, lastUpdate: nat, t: nat)
    ensures NormalizedIncome(index, rate, lastUpdate, t).Some? <==> lastUpdate <= t
    ensures lastUpdate <= t ==> exists interest: nat ::
              && interest * 31_536_000 <= rate * (t - lastUpdate) < (interest + 1) * 31_536_000
              && var income := NormalizedIncome(index, rate, lastUpdate, t);
                 var exact, ray := (1_000_000_000_000_000_000_000_000_000 + interest) * index,
                                   1_000_000_000_000_000_000_000_000_000;
                 2 * exact - ray < 2 * (income.value * ray) <= 2 * exact + ray
  {
    if lastUpdate <= t {
      var elapsed := t - lastUpdate;
      var interest := rate * elapsed / SECONDS_PER_YEAR;
      Quotient(rate * elapsed, SECONDS_PER_YEAR);
      Quotient((RAY + interest) * index + HALF_RAY, RAY);
      if elapsed == 0 {
        assert rate * elapsed == 0;
        RoundedUnit(index);
      }
    }
  }
}
