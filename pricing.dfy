/** The price of a print order: material by weight, machine time by the hour,
    optional post-processing per piece and a surcharge for express delivery,
    all in Czech crowns (Kč), with the display formatting of prices and
    durations. */
module Pricing {
  import opened Common
  import opened Text

  datatype MaterialPricing = MaterialPricing(pricePerGram: real, name: string)

  /** Price per gram of each material. */
  const MaterialPrices: map<string, MaterialPricing> := map[
    "pla" := MaterialPricing(0.5, "PLA"),
    "abs" := MaterialPricing(0.6, "ABS"),
    "petg" := MaterialPricing(0.7, "PETG"),
    "tpu" := MaterialPricing(1.2, "TPU"),
    "wood" := MaterialPricing(0.8, "Wood Fill"),
    "carbon" := MaterialPricing(1.5, "Carbon Fiber")
  ]

  /** Price of one hour of printing. */
  const PricePerHour: real := 100.0

  /** Price per piece of each post-processing option. */
  const PostProcessingPrices: map<string, real> := map[
    "sanding" := 50.0,
    "painting" := 120.0,
    "assembly" := 200.0,
    "drilling" := 80.0
  ]

  const MaterialLabel := "Materiál"
  const TimeLabel := "Čas tisku"
  const PostProcessingLabel := "Dodatečné služby"
  const ExpressLabel := "Expresní tisk (+50%)"

  datatype PricingConfig = PricingConfig(
    material: string,
    materialGrams: real,
    printTimeSeconds: real,
    quantity: real,
    expressDelivery: bool,
    postProcessing: seq<string>)

  /** What one piece costs in material, machine time and post-processing. */
  datatype PieceCost = PieceCost(material: real, time: real, postProcessing: real)

  datatype BreakdownItem = BreakdownItem(title: string, amount: real)

  datatype PricingResult = PricingResult(
    materialCost: real,
    timeCost: real,
    postProcessingCost: real,
    expressCost: real,
    subtotal: real,
    total: real,
    breakdown: seq<BreakdownItem>)

  /** The pricing entry of a material; a key missing from the table is
      priced as PLA. */
  function PricingOf(material: string): MaterialPricing
  {
    if material in MaterialPrices then MaterialPrices[material] else MaterialPrices["pla"]
  }

  /** The price of one post-processing option; an unknown option costs 0. */
  function OptionPrice(id: string): real
  {
    if id in PostProcessingPrices then PostProcessingPrices[id] else 0.0
  }

  /** The sum of the prices of the selected options, added up from the left
      as `reduce` does. */
  function OptionsSum(ids: seq<string>): (r: real)
    ensures 0.0 <= r <= 200.0 * |ids| as real
  {
    if ids == [] then 0.0 else OptionsSum(ids[..|ids| - 1]) + OptionPrice(ids[|ids| - 1])
  }

  /** The options of two selections together cost what the two selections
      cost apart. */
  lemma {:induction false} OptionsSumAppend(a: seq<string>, b: seq<string>)
    ensures OptionsSum(a + b) == OptionsSum(a) + OptionsSum(b)
    decreases |b|
  {
    if b == [] {
      assert a + b == a;
    } else {
      assert (a + b)[..|a + b| - 1] == a + b[..|b| - 1];
      OptionsSumAppend(a, b[..|b| - 1]);
    }
  }

  /** `calculatePrice`: every cost component is the per-piece cost times the
      quantity, the subtotal adds them, express delivery adds half of it,
      and the breakdown opens with material and time. */
  function CalculatePrice(c: PricingConfig): (r: PricingResult)
    ensures r.subtotal == r.materialCost + r.timeCost + r.postProcessingCost
    ensures r.expressCost == (if c.expressDelivery then r.subtotal * 0.5 else 0.0)
    ensures r.total == r.subtotal + r.expressCost
  {
    OrderPrice(PieceCosts(c), c.quantity, c.expressDelivery)
  }

  /** Material, time and post-processing cost of a single piece. */
  function PieceCosts(c: PricingConfig): (r: PieceCost)
    ensures 0.0 <= r.postProcessing <= 200.0 * |c.postProcessing| as real
  {
    PieceCost(c.materialGrams * PricingOf(c.material).pricePerGram,
              c.printTimeSeconds / 3600.0 * PricePerHour,
              OptionsSum(c.postProcessing))
  }

  /** The price of `quantity` pieces costing `unit` each: every cost
      component is multiplied by the quantity before the subtotal is formed. */
  function OrderPrice(unit: PieceCost, quantity: real, express: bool): (r: PricingResult)
    ensures r.subtotal == r.materialCost + r.timeCost + r.postProcessingCost
    ensures express ==> r.total == r.subtotal * 1.5
    ensures !express ==> r.total == r.subtotal
  {
    Assemble(unit.material * quantity, unit.time * quantity, unit.postProcessing * quantity, express)
  }

  /** The subtotal, the express surcharge, the total and the breakdown built
      from the three cost components. */
  function Assemble(materialCost: real, timeCost: real, postProcessingCost: real, express: bool): PricingResult
  {
    var subtotal := materialCost + timeCost + postProcessingCost;
    var expressCost := if express then subtotal * 0.5 else 0.0;
    var total := subtotal + expressCost;
    var breakdown := [BreakdownItem(MaterialLabel, materialCost), BreakdownItem(TimeLabel, timeCost)]
      + (if postProcessingCost > 0.0 then [BreakdownItem(PostProcessingLabel, postProcessingCost)] else [])
      + (if expressCost > 0.0 then [BreakdownItem(ExpressLabel, expressCost)] else []);
    PricingResult(materialCost, timeCost, postProcessingCost, expressCost, subtotal, total, breakdown)
  }

  /** A material missing from the table is charged at PLA's 0.5 per gram. */
  lemma UnknownMaterialPricedAsPla(c: PricingConfig)
    requires c.material !in MaterialPrices
    ensures CalculatePrice(c).materialCost == c.materialGrams * 0.5 * c.quantity
  {
  }

  /** Express delivery makes the same order exactly one and a half times as
      expensive. */
  lemma ExpressSurcharge(c: PricingConfig)
    ensures CalculatePrice(c.(expressDelivery := true)).total
         == 1.5 * CalculatePrice(c.(expressDelivery := false)).total
    ensures CalculatePrice(c.(expressDelivery := true)).expressCost
         == 0.5 * CalculatePrice(c.(expressDelivery := false)).subtotal
  {
    PieceCostsIgnoreOrderTerms(c, c.quantity, true);
    PieceCostsIgnoreOrderTerms(c, c.quantity, false);
    assert c.(expressDelivery := true) == c.(quantity := c.quantity, expressDelivery := true);
    assert c.(expressDelivery := false) == c.(quantity := c.quantity, expressDelivery := false);
  }

  predicate NonNegativeInputs(c: PricingConfig)
  {
    c.materialGrams >= 0.0 && c.printTimeSeconds >= 0.0 && c.quantity >= 0.0
  }

  /** For non-negative weight, time and quantity no part of the price is
      negative and the total is at least the subtotal. */
  lemma NonNegativeCosts(c: PricingConfig)
    requires NonNegativeInputs(c)
    ensures var r := CalculatePrice(c);
      && r.materialCost >= 0.0 && r.timeCost >= 0.0 && r.postProcessingCost >= 0.0
      && r.expressCost >= 0.0 && r.subtotal >= 0.0 && r.total >= r.subtotal
  {
    var price := PricingOf(c.material).pricePerGram;
    var gp := c.materialGrams * price;
    MulLe(0.0, c.materialGrams, price);
    MulLe(0.0, gp, c.quantity);
    var hours := c.printTimeSeconds / 3600.0;
    MulLe(0.0, hours * PricePerHour, c.quantity);
    MulLe(0.0, OptionsSum(c.postProcessing), c.quantity);
  }

  /** The cost of one piece depends neither on the quantity nor on the
      delivery speed. */
  lemma PieceCostsIgnoreOrderTerms(c: PricingConfig, q: real, e: bool)
    ensures PieceCosts(c.(quantity := q, expressDelivery := e)) == PieceCosts(c)
  {
    var c1 := c.(quantity := q, expressDelivery := e);
    assert PieceCosts(c1).material == PieceCosts(c).material;
    assert PieceCosts(c1).time == PieceCosts(c).time;
    assert PieceCosts(c1).postProcessing == PieceCosts(c).postProcessing;
  }

  function Labels(b: seq<BreakdownItem>): seq<string>
  {
    seq(|b|, k requires 0 <= k < |b| => b[k].title)
  }

  function AmountSum(b: seq<BreakdownItem>): real
  {
    if b == [] then 0.0 else AmountSum(b[..|b| - 1]) + b[|b| - 1].amount
  }

  /** The breakdown lists material and time, then post-processing and express
      delivery in that order, each only when it costs something. */
  lemma BreakdownOrder(c: PricingConfig)
    ensures var r := CalculatePrice(c);
      Labels(r.breakdown) == [MaterialLabel, TimeLabel]
        + (if r.postProcessingCost > 0.0 then [PostProcessingLabel] else [])
        + (if r.expressCost > 0.0 then [ExpressLabel] else [])
    ensures CalculatePrice(c).breakdown[0].amount == CalculatePrice(c).materialCost
    ensures CalculatePrice(c).breakdown[1].amount == CalculatePrice(c).timeCost
  {
    OrderLabels(PieceCosts(c), c.quantity, c.expressDelivery);
  }

  /** The same order and amounts for any piece costs and quantity. */
  lemma OrderLabels(unit: PieceCost, quantity: real, express: bool)
    ensures var r := OrderPrice(unit, quantity, express);
      Labels(r.breakdown) == [MaterialLabel, TimeLabel]
        + (if r.postProcessingCost > 0.0 then [PostProcessingLabel] else [])
        + (if r.expressCost > 0.0 then [ExpressLabel] else [])
    ensures OrderPrice(unit, quantity, express).breakdown[0].amount == OrderPrice(unit, quantity, express).materialCost
    ensures OrderPrice(unit, quantity, express).breakdown[1].amount == OrderPrice(unit, quantity, express).timeCost
  {
    var r := OrderPrice(unit, quantity, express);
    var b2 := [BreakdownItem(MaterialLabel, r.materialCost), BreakdownItem(TimeLabel, r.timeCost)];
    var pp := if r.postProcessingCost > 0.0 then [BreakdownItem(PostProcessingLabel, r.postProcessingCost)] else [];
    var ex := if r.expressCost > 0.0 then [BreakdownItem(ExpressLabel, r.expressCost)] else [];
    assert r.breakdown == b2 + pp + ex;
    LabelsAppend(b2, pp);
    LabelsAppend(b2 + pp, ex);
  }

  lemma LabelsAppend(a: seq<BreakdownItem>, b: seq<BreakdownItem>)
    ensures Labels(a + b) == Labels(a) + Labels(b)
  {
  }

  /** For non-negative inputs the breakdown adds up to the total: the lines it
      leaves out are exactly the ones worth nothing. */
  lemma BreakdownAddsUpToTotal(c: PricingConfig)
    requires NonNegativeInputs(c)
    ensures AmountSum(CalculatePrice(c).breakdown) == CalculatePrice(c).total
  {
    NonNegativeCosts(c);
    var r := CalculatePrice(c);
    AssembledBreakdownSum(r.materialCost, r.timeCost, r.postProcessingCost, c.expressDelivery);
  }

  /** The whole order costs its quantity times what one piece costs, with
      or without express delivery. */
  lemma QuantityLinear(c: PricingConfig)
    ensures CalculatePrice(c).total == c.quantity * CalculatePrice(c.(quantity := 1.0)).total
  {
    var c1, u := c.(quantity := 1.0), PieceCosts(c);
    PieceCostsIgnoreOrderTerms(c, 1.0, c.expressDelivery);
    assert c1 == c.(quantity := 1.0, expressDelivery := c.expressDelivery);
    OrderPriceScales(u, c.quantity, c.expressDelivery);
    calc {
      CalculatePrice(c).total;
      OrderPrice(u, c.quantity, c.expressDelivery).total;
      c.quantity * OrderPrice(u, 1.0, c.expressDelivery).total;
      { assert PieceCosts(c1) == u; }
      c.quantity * CalculatePrice(c1).total;
    }
  }

  /** `quantity` pieces cost `quantity` times one piece. */
  lemma OrderPriceScales(unit: PieceCost, quantity: real, express: bool)
    ensures OrderPrice(unit, quantity, express).total == quantity * OrderPrice(unit, 1.0, express).total
  {
    var s1 := unit.material + unit.time + unit.postProcessing;
    assert unit.material * 1.0 + unit.time * 1.0 + unit.postProcessing * 1.0 == s1;
    assert unit.material * quantity + unit.time * quantity + unit.postProcessing * quantity == quantity * s1;
    assert (quantity * s1) * 0.5 == quantity * (s1 * 0.5);
  }

  /** For non-negative weight and time, ordering more pieces never costs
      less. */
  lemma QuantityMonotone(c: PricingConfig, q: real)
    requires NonNegativeInputs(c) && c.quantity <= q
    ensures CalculatePrice(c).total <= CalculatePrice(c.(quantity := q)).total
  {
    PieceCostsIgnoreOrderTerms(c, q, c.expressDelivery);
    assert c.(quantity := q) == c.(quantity := q, expressDelivery := c.expressDelivery);
    MulLe(0.0, c.materialGrams, PricingOf(c.material).pricePerGram);
    OrderPriceMonotone(PieceCosts(c), c.quantity, q, c.expressDelivery);
  }

  /** With no negative cost component, more pieces never cost less. */
  lemma OrderPriceMonotone(unit: PieceCost, q1: real, q2: real, express: bool)
    requires unit.material >= 0.0 && unit.time >= 0.0 && unit.postProcessing >= 0.0 && q1 <= q2
    ensures OrderPrice(unit, q1, express).total <= OrderPrice(unit, q2, express).total
  {
    OrderPriceScales(unit, q1, express);
    OrderPriceScales(unit, q2, express);
    MulLe(q1, q2, OrderPrice(unit, 1.0, express).total);
  }

  lemma AssembledBreakdownSum(m: real, t: real, p: real, express: bool)
    requires p >= 0.0 && m + t + p >= 0.0
    ensures AmountSum(Assemble(m, t, p, express).breakdown) == Assemble(m, t, p, express).total
  {
    var r := Assemble(m, t, p, express);
    var b2 := [BreakdownItem(MaterialLabel, m), BreakdownItem(TimeLabel, t)];
    assert b2[..1] == [b2[0]] && b2[..1][..0] == [];
    assert AmountSum(b2[..1]) == m;
    assert AmountSum(b2) == m + t;
    var pp := if p > 0.0 then [BreakdownItem(PostProcessingLabel, p)] else [];
    var ex := if r.expressCost > 0.0 then [BreakdownItem(ExpressLabel, r.expressCost)] else [];
    assert r.breakdown == b2 + pp + ex;
    var b3 := b2 + pp;
    if pp != [] {
      assert b3[..|b3| - 1] == b2;
    }
    assert AmountSum(b3) == m + t + p;
    if ex != [] {
      assert (b3 + ex)[..|b3 + ex| - 1] == b3;
    } else {
      assert b3 + ex == b3;
    }
  }

  // ---------------------------------------------------------------------
  // Display

  /** `${Math.round(amount)} Kč` */
  function FormatPrice(amount: real): (r: string)
    ensures EndsWith(r, " Kč")
    ensures exists n: int :: r == IntToString(n) + " Kč" && amount - 0.5 < n as real <= amount + 0.5
  {
    IntToString(Round(amount)) + " Kč"
  }

  /** The amount shown is the whole number within half a crown of the price,
      halves going up: any such number is the one displayed. */
  lemma FormatPriceRounds(amount: real, n: int)
    requires amount - 0.5 < n as real <= amount + 0.5
    ensures FormatPrice(amount) == IntToString(n) + " Kč"
  {
    var r := Round(amount);
    assert r as real - n as real < 1.0 && n as real - r as real < 1.0;
    assert r == n;
  }

  /** A whole amount is shown as it is. */
  lemma FormatWholePrice(n: nat)
    ensures FormatPrice(n as real) == NatToString(n) + " Kč"
  {
    FormatPriceRounds(n as real, n);
  }

  /** Whole hours and the remaining whole minutes of a duration in seconds. */
  function ClockParts(seconds: real): (hm: (int, int))
    ensures 0.0 <= seconds ==> 0 <= hm.0 && 0 <= hm.1 < 60
    ensures 0.0 <= seconds ==>
      hm.0 as real * 3600.0 + hm.1 as real * 60.0 <= seconds < hm.0 as real * 3600.0 + hm.1 as real * 60.0 + 60.0
  {
    var hours := Floor(seconds / 3600.0);
    var rest := JsRem(seconds, 3600.0);
    var minutes := Floor(rest / 60.0);
    if 0.0 <= seconds then
      assert rest == seconds - hours as real * 3600.0;
      assert 0.0 <= rest / 60.0 < 60.0;
      Bracket(rest, 60.0, minutes as real);
      (hours, minutes)
    else (hours, minutes)
  }

  /** `formatTime`: "<m> min" below an hour, "<h>h <m>min" from an hour on. */
  function FormatTime(seconds: real): (r: string)
    ensures ClockParts(seconds).0 == 0 <==> 'h' !in r
  {
    var (hours, minutes) := ClockParts(seconds);
    if hours == 0 then IntToString(minutes) + " min"
    else IntToString(hours) + "h " + IntToString(minutes) + "min"
  }

  /** Below one hour only the minutes are shown. */
  lemma FormatShortTime(seconds: real)
    requires 0.0 <= seconds < 3600.0
    ensures FormatTime(seconds) == NatToString(ClockParts(seconds).1) + " min"
  {
  }
}
