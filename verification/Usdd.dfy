/** How much of a vault's debt can be drawn or repaid in whole six-decimal gems. */
module Usdd {
  import opened Rounding

  const TO_18: nat := 1_000_000_000_000
  const UINT_MAX: nat := 0xFFFF_FFFF_FFFF_FFFF_FFFF_FFFF_FFFF_FFFF_FFFF_FFFF_FFFF_FFFF_FFFF_FFFF_FFFF_FFFF

  datatype Vat = Vat(
    art: nat,
    rate: nat,
    spot: nat,
    line: nat,
    dust: nat,
    debt: nat,
    globalLine: nat,
    urnInk: nat,
    urnArt: nat)

  // ----- What the vault accepts -----

  /** Drawing d: both ceilings, the collateral check and the dust floor. */
  predicate Draws(v: Vat, d: nat) {
    && v.rate > 0
    && (v.art + d) * v.rate <= v.line
    && v.debt + d * v.rate <= v.globalLine
    && (v.urnArt + d) * v.rate <= (v.urnInk + d) * v.spot
    && v.dust <= (v.urnArt + d) * v.rate
  }

  /** Repaying d and withdrawing as much: nothing goes negative, the join holds the gems, the rest is
      safe, and it is nothing or above the dust floor. */
  predicate Repays(v: Vat, join: nat, d: nat) {
    && v.rate > 0
    && d <= v.urnInk && d <= v.urnArt && d <= v.art && d <= join * TO_18
    && (v.urnArt - d) * v.rate <= (v.urnInk - d) * v.spot
    && (d == v.urnArt || v.dust <= (v.urnArt - d) * v.rate)
  }

  predicate SellAccepts(v: Vat, g: nat) { Draws(v, g * TO_18) }

  predicate BuyAccepts(v: Vat, join: nat, g: nat) { Repays(v, join, g * TO_18) }

  /** The largest accepted amount, or 0 if there is none. */
  ghost predicate SellOptimal(v: Vat, r: nat) {
    (r > 0 ==> SellAccepts(v, r)) && forall g: nat :: SellAccepts(v, g) ==> g <= r
  }

  ghost predicate BuyOptimal(v: Vat, join: nat, r: nat) {
    (r > 0 ==> BuyAccepts(v, join, r)) && forall g: nat :: BuyAccepts(v, join, g) ==> g <= r
  }

  // ----- The models -----

  /** Bounds on the amount from the collateral check: none at all, or a least and a largest. */
  datatype Range = Never | Between(least: nat, most: nat)

  function SellRange(v: Vat, most: nat): Range {
    var value, debt := v.urnInk * v.spot, v.urnArt * v.rate;
    if v.spot < v.rate then
      if value < debt then Never else Between(0, Min(most, Floor(value - debt, v.rate - v.spot)))
    else if v.spot == v.rate then
      if value < debt then Never else Between(0, most)
    else if value < debt then Between(Ceil(debt - value, v.spot - v.rate), most)
    else Between(0, most)
  }

  function SellCapacity(v: Vat): nat {
    if v.rate == 0 || v.art * v.rate > v.line || v.debt > v.globalLine then 0
    else
      var range := SellRange(v, Min(Floor(v.line - v.art * v.rate, v.rate), Floor(v.globalLine - v.debt, v.rate)));
      if range.Never? then 0
      else
        var gems := Floor(range.most, TO_18);
        if gems * TO_18 < range.least || (v.urnArt + gems * TO_18) * v.rate < v.dust then 0 else gems
  }

  function BuyRange(v: Vat, most: nat): Range {
    var value, debt := v.urnInk * v.spot, v.urnArt * v.rate;
    if v.spot > v.rate then
      if value < debt then Never else Between(0, Min(most, Floor(value - debt, v.spot - v.rate)))
    else if v.spot == v.rate then
      if value < debt then Never else Between(0, most)
    else if value < debt then Between(Ceil(debt - value, v.rate - v.spot), most)
    else Between(0, most)
  }

  /** The join's inventory in the vault's unit, saturated. */
  function JoinDart(join: nat): nat {
    if join > Floor(UINT_MAX, TO_18) then UINT_MAX else join * TO_18
  }

  function BuyMost(v: Vat, join: nat): nat {
    Min(Min(Min(v.urnInk, v.urnArt), v.art), JoinDart(join))
  }

  /** The repayment would leave something, but less than the dust floor. */
  predicate LeavesDust(v: Vat, gems: nat) {
    gems * TO_18 < v.urnArt && (v.urnArt - gems * TO_18) * v.rate < v.dust
  }

  function BuyCapacity(v: Vat, join: nat): nat {
    if v.rate == 0 then 0
    else
      var range := BuyRange(v, BuyMost(v, join));
      if range.Never? then 0
      else
        var gems := Floor(range.most, TO_18);
        if gems * TO_18 < range.least then 0
        else if !LeavesDust(v, gems) then gems
        else
          var residual := Ceil(v.dust, v.rate);
          if residual >= v.urnArt then 0 else Min(gems, Floor(v.urnArt - residual, TO_18))
  }

  // ----- Selling -----

  lemma DrawSafe(v: Vat, most: nat, d: nat)
    requires v.rate > 0 && d <= most
    ensures var range := SellRange(v, most);
            (v.urnArt + d) * v.rate <= (v.urnInk + d) * v.spot <==> range.Between? && range.least <= d <= range.most
  {
    var value, debt := v.urnInk * v.spot, v.urnArt * v.rate;
    Spread(v.urnArt, d, v.rate);
    Spread(v.urnInk, d, v.spot);
    if v.spot < v.rate {
      Expand(d, v.spot, v.rate - v.spot);
      Positive(d, v.rate - v.spot);
      if value >= debt {
        FloorAdjoint(d, value - debt, v.rate - v.spot);
      }
    } else if v.spot > v.rate {
      Expand(d, v.rate, v.spot - v.rate);
      Positive(d, v.spot - v.rate);
      if value < debt {
        CeilAdjoint(d, debt - value, v.spot - v.rate);
      }
    }
  }

  lemma CeilingsFit(v: Vat, d: nat)
    requires v.rate > 0
    ensures (v.art + d) * v.rate <= v.line && v.debt + d * v.rate <= v.globalLine
       <==> && v.art * v.rate <= v.line && v.debt <= v.globalLine
            && d <= Min(Floor(v.line - v.art * v.rate, v.rate), Floor(v.globalLine - v.debt, v.rate))
  {
    Spread(v.art, d, v.rate);
    Positive(d, v.rate);
    if v.art * v.rate <= v.line {
      FloorAdjoint(d, v.line - v.art * v.rate, v.rate);
    }
    if v.debt <= v.globalLine {
      FloorAdjoint(d, v.globalLine - v.debt, v.rate);
    }
  }

  lemma DustGrows(v: Vat, d: nat, e: nat)
    requires d <= e
    ensures (v.urnArt + d) * v.rate <= (v.urnArt + e) * v.rate
  {
    MulLe(v.urnArt + d, v.urnArt + e, v.rate);
  }

  /** Any accepted amount is within the result, which is accepted itself. */
  lemma SellBounds(v: Vat, g: nat)
    ensures SellAccepts(v, g) ==> g <= SellCapacity(v)
    ensures SellCapacity(v) > 0 ==> SellAccepts(v, SellCapacity(v))
  {
    if v.rate > 0 && v.art * v.rate <= v.line && v.debt <= v.globalLine {
      var most := Min(Floor(v.line - v.art * v.rate, v.rate), Floor(v.globalLine - v.debt, v.rate));
      var range := SellRange(v, most);
      CeilingsFit(v, g * TO_18);
      if g * TO_18 <= most {
        DrawSafe(v, most, g * TO_18);
      }
      if range.Between? {
        var gems := Floor(range.most, TO_18);
        FloorAdjoint(g, range.most, TO_18);
        FloorAdjoint(gems, range.most, TO_18);
        CeilingsFit(v, gems * TO_18);
        DrawSafe(v, most, gems * TO_18);
        if g <= gems {
          DustGrows(v, g * TO_18, gems * TO_18);
        }
      }
    } else if v.rate > 0 {
      CeilingsFit(v, g * TO_18);
    }
  }

  /** Selling capacity is optimal: the largest amount the vault accepts, or 0 if it accepts none. */
  lemma SellCapacityIsOptimal(v: Vat)
    ensures SellOptimal(v, SellCapacity(v))
  {
    hide SellAccepts, SellCapacity;
    SellBounds(v, 0);
    forall g: nat | SellAccepts(v, g)
      ensures g <= SellCapacity(v)
    {
      SellBounds(v, g);
    }
  }

  // ----- Buying -----

  predicate IsUint(v: Vat) { v.urnInk <= UINT_MAX && v.urnArt <= UINT_MAX && v.art <= UINT_MAX }

  lemma RepaySafe(v: Vat, most: nat, d: nat)
    requires v.rate > 0 && d <= most && most <= v.urnArt && most <= v.urnInk
    ensures var range := BuyRange(v, most);
            (v.urnArt - d) * v.rate <= (v.urnInk - d) * v.spot <==> range.Between? && range.least <= d <= range.most
  {
    var value, debt := v.urnInk * v.spot, v.urnArt * v.rate;
    Spread(v.urnArt - d, d, v.rate);
    Spread(v.urnInk - d, d, v.spot);
    if v.spot < v.rate {
      Expand(d, v.spot, v.rate - v.spot);
      Positive(d, v.rate - v.spot);
      if value < debt {
        CeilAdjoint(d, debt - value, v.rate - v.spot);
      }
    } else if v.spot > v.rate {
      Expand(d, v.rate, v.spot - v.rate);
      Positive(d, v.spot - v.rate);
      if value >= debt {
        FloorAdjoint(d, value - debt, v.spot - v.rate);
      }
    }
  }

  /** Saturation does not matter to amounts that fit a word. */
  lemma MostFits(v: Vat, join: nat, d: nat)
    requires IsUint(v)
    ensures d <= BuyMost(v, join) <==> d <= v.urnInk && d <= v.urnArt && d <= v.art && d <= join * TO_18
  {
    FloorAdjoint(join, UINT_MAX, TO_18);
  }

  /** What remains is above the floor exactly when it is at least the least residual. */
  lemma ResidualFits(v: Vat, d: nat)
    requires v.rate > 0 && d <= v.urnArt
    ensures v.dust <= (v.urnArt - d) * v.rate <==> Ceil(v.dust, v.rate) <= v.urnArt - d
  {
    CeilAdjoint(v.urnArt - d, v.dust, v.rate);
  }

  // The rest is about amounts between two bounds of which all, or all but a residual, may be repaid.

  predicate Leaves(urnArt: nat, residual: nat, gems: nat) { gems * TO_18 < urnArt < gems * TO_18 + residual }

  predicate Fits(least: nat, most: nat, urnArt: nat, residual: nat, g: nat) {
    && least <= g * TO_18 <= most
    && (g * TO_18 == urnArt || g * TO_18 + residual <= urnArt)
  }

  function CutTo(most: nat, urnArt: nat, residual: nat): nat {
    if residual >= urnArt then 0 else Min(Floor(most, TO_18), Floor(urnArt - residual, TO_18))
  }

  function Fitting(least: nat, most: nat, urnArt: nat, residual: nat): nat {
    var gems := Floor(most, TO_18);
    if gems * TO_18 < least then 0
    else if !Leaves(urnArt, residual, gems) then gems
    else CutTo(most, urnArt, residual)
  }

  /** The cut that keeps the residual goes below the least amount. */
  predicate TooDeep(least: nat, most: nat, urnArt: nat, residual: nat) {
    var gems := Floor(most, TO_18);
    && least <= gems * TO_18 && Leaves(urnArt, residual, gems)
    && 0 < CutTo(most, urnArt, residual) * TO_18 < least
  }

  lemma FittingIsMost(least: nat, most: nat, urnArt: nat, residual: nat, g: nat)
    requires most <= urnArt
    ensures Fits(least, most, urnArt, residual, g) ==> g <= Fitting(least, most, urnArt, residual)
    ensures var r := Fitting(least, most, urnArt, residual);
            r > 0 ==> (Fits(least, most, urnArt, residual, r) <==> !TooDeep(least, most, urnArt, residual))
    ensures TooDeep(least, most, urnArt, residual) ==> Fitting(least, most, urnArt, residual) > 0
  {
  }

  /** The dust cut went below the least repayment that makes an unsafe vault safe. */
  predicate CutTooDeep(v: Vat, join: nat) {
    && v.rate > 0
    && var range := BuyRange(v, BuyMost(v, join));
       range.Between? && TooDeep(range.least, range.most, v.urnArt, Ceil(v.dust, v.rate))
  }

  /** Accepted amounts, in terms of the bounds the model computes. */
  lemma BuyAcceptsWithin(v: Vat, join: nat, g: nat)
    requires IsUint(v) && v.rate > 0
    ensures var range := BuyRange(v, BuyMost(v, join));
            && (range.Between? ==> range.most <= v.urnArt)
            && (BuyAccepts(v, join, g) <==>
                  range.Between? && Fits(range.least, range.most, v.urnArt, Ceil(v.dust, v.rate), g))
  {
    var d, most := g * TO_18, BuyMost(v, join);
    MostFits(v, join, d);
    MostFits(v, join, most);
    if d <= most {
      RepaySafe(v, most, d);
    }
    if d <= v.urnArt {
      ResidualFits(v, d);
    }
  }

  lemma BuyIsFitting(v: Vat, join: nat)
    requires IsUint(v) && v.rate > 0
    ensures var range := BuyRange(v, BuyMost(v, join));
            BuyCapacity(v, join) == if range.Never? then 0
                                    else Fitting(range.least, range.most, v.urnArt, Ceil(v.dust, v.rate))
  {
    var range := BuyRange(v, BuyMost(v, join));
    if range.Between? {
      var gems := Floor(range.most, TO_18);
      if gems * TO_18 <= v.urnArt {
        ResidualFits(v, gems * TO_18);
      }
    }
  }

  lemma BuyBounds(v: Vat, join: nat, g: nat)
    requires IsUint(v)
    ensures BuyAccepts(v, join, g) ==> g <= BuyCapacity(v, join)
    ensures BuyCapacity(v, join) > 0 ==> (BuyAccepts(v, join, BuyCapacity(v, join)) <==> !CutTooDeep(v, join))
    ensures CutTooDeep(v, join) ==> BuyCapacity(v, join) > 0
  {
    hide BuyMost, BuyRange, Fitting, Fits, TooDeep;
    if v.rate > 0 {
      var range := BuyRange(v, BuyMost(v, join));
      BuyAcceptsWithin(v, join, g);
      BuyAcceptsWithin(v, join, BuyCapacity(v, join));
      BuyIsFitting(v, join);
      if range.Between? {
        FittingIsMost(range.least, range.most, v.urnArt, Ceil(v.dust, v.rate), g);
      }
    }
  }

  /** Buying capacity is optimal exactly when the dust cut stays above the least safe repayment. */
  lemma BuyCapacityIsOptimal(v: Vat, join: nat)
    requires IsUint(v)
    ensures BuyOptimal(v, join, BuyCapacity(v, join)) <==> !CutTooDeep(v, join)
  {
    hide BuyAccepts, BuyCapacity, CutTooDeep;
    BuyBounds(v, join, 0);
    forall g: nat | BuyAccepts(v, join, g)
      ensures g <= BuyCapacity(v, join)
    {
      BuyBounds(v, join, g);
    }
  }

  /** In particular it is optimal for every vault that is safe to begin with. */
  lemma BuyCapacityOfSafeVault(v: Vat, join: nat)
    requires IsUint(v) && v.urnArt * v.rate <= v.urnInk * v.spot
    ensures BuyOptimal(v, join, BuyCapacity(v, join))
  {
    hide BuyOptimal, BuyCapacity, BuyMost;
    BuyCapacityIsOptimal(v, join);
  }

  /** A vault for which it is not: seven gems are reported, but repaying seven leaves it unsafe. */
  lemma BuyCapacityCutTooDeep()
    ensures var v := Vat(10 * TO_18, 2, 1, 0, 6 * TO_18, 0, 0, 12 * TO_18, 10 * TO_18);
            && BuyCapacity(v, 9) == 7 && !BuyAccepts(v, 9, 7)
            && v.urnArt * v.rate > v.urnInk * v.spot
  {
    var v := Vat(10 * TO_18, 2, 1, 0, 6 * TO_18, 0, 0, 12 * TO_18, 10 * TO_18);
    assert BuyMost(v, 9) == 9 * TO_18;
    assert BuyRange(v, 9 * TO_18) == Between(8 * TO_18, 9 * TO_18);
    assert Ceil(v.dust, v.rate) == 3 * TO_18;
  }
}
