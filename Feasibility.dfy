/** The development feasibility waterfall (src/lib/services/feasibility.ts): construction, soft
    costs, contingency, land, peak debt, finance, sales and GST, totals, and a three-band
    bankability classification of the margin on cost. */
module Feasibility {
  import opened Types

  // ---- Finance ----

  /** Peak debt: each facility drawn at its loan-to-value ratio against its own cost base. */
  function EstimatePeakDebt(landCost: real, constructionCost: real, finance: FinanceInputs): (debt: real)
    ensures finance.landLvrPercent == 100.0 && finance.constructionLvrPercent == 100.0 ==> debt == landCost + constructionCost
    ensures finance.landLvrPercent == 0.0 ==> debt == constructionCost * finance.constructionLvrPercent / 100.0
    ensures finance.constructionLvrPercent == 0.0 ==> debt == landCost * finance.landLvrPercent / 100.0
  {
    var landLoan := landCost * (finance.landLvrPercent / 100.0);
    var constructionLoan := constructionCost * (finance.constructionLvrPercent / 100.0);
    landLoan + constructionLoan
  }

  /** Loans at ratios between 0% and 100% against non-negative costs are non-negative and never
      exceed the costs they fund. */
  lemma PeakDebtBounds(landCost: real, constructionCost: real, finance: FinanceInputs)
    requires landCost >= 0.0 && constructionCost >= 0.0
    requires 0.0 <= finance.landLvrPercent <= 100.0 && 0.0 <= finance.constructionLvrPercent <= 100.0
    ensures 0.0 <= EstimatePeakDebt(landCost, constructionCost, finance) <= landCost + constructionCost
  {
    var landLoan := landCost * (finance.landLvrPercent / 100.0);
    var constructionLoan := constructionCost * (finance.constructionLvrPercent / 100.0);
    PercentOfBounds(landCost, finance.landLvrPercent);
    PercentOfBounds(constructionCost, finance.constructionLvrPercent);
    assert 0.0 <= landLoan <= landCost;
    assert 0.0 <= constructionLoan <= constructionCost;
    assert EstimatePeakDebt(landCost, constructionCost, finance) == landLoan + constructionLoan;
  }

  /** `pct` per cent of a non-negative amount lies between zero and the amount when 0 <= pct <= 100. */
  lemma PercentOfBounds(amount: real, pct: real)
    requires amount >= 0.0 && 0.0 <= pct <= 100.0
    ensures 0.0 <= amount * (pct / 100.0) <= amount
  {
    ProductNonNegative(amount, pct / 100.0);
    ProductNonNegative(amount, 1.0 - pct / 100.0);
  }

  lemma ProductNonNegative(a: real, b: real)
    requires a >= 0.0 && b >= 0.0
    ensures a * b >= 0.0
  {
  }

  /** The fixed ratio of average drawn debt to peak debt over the life of the project. */
  const UTILISATION_FACTOR: real := 0.65

  /** Interest on the utilised share of the peak debt, at the annual rate, over the project's months. */
  function EstimateFinanceCost(peakDebt: real, ratePercent: real, durationMonths: real): (cost: real)
    ensures ratePercent == 0.0 || durationMonths == 0.0 || peakDebt == 0.0 ==> cost == 0.0
    ensures durationMonths == 12.0 ==> cost == peakDebt * 65.0 / 100.0 * ratePercent / 100.0
  {
    var annualRate := ratePercent / 100.0;
    var years := durationMonths / 12.0;
    peakDebt * UTILISATION_FACTOR * annualRate * years
  }

  /** For a non-negative rate and duration, interest is never negative and grows with the debt. */
  lemma FinanceCostMonotone(peakDebt: real, ratePercent: real, durationMonths: real, moreDebt: real)
    requires 0.0 <= peakDebt <= moreDebt && ratePercent >= 0.0 && durationMonths >= 0.0
    ensures 0.0 <= EstimateFinanceCost(peakDebt, ratePercent, durationMonths)
                <= EstimateFinanceCost(moreDebt, ratePercent, durationMonths)
  {
    var k := UTILISATION_FACTOR * (ratePercent / 100.0) * (durationMonths / 12.0);
    ProductNonNegative(ratePercent / 100.0, durationMonths / 12.0);
    ProductNonNegative(UTILISATION_FACTOR, (ratePercent / 100.0) * (durationMonths / 12.0));
    ProductNonNegative(peakDebt, k);
    ProductNonNegative(moreDebt - peakDebt, k);
    assert EstimateFinanceCost(peakDebt, ratePercent, durationMonths) == peakDebt * k;
    assert EstimateFinanceCost(moreDebt, ratePercent, durationMonths) == moreDebt * k;
  }

  // ---- GST ----

  /** GST included in a price: one eleventh of it, i.e. ten per cent of the GST-exclusive part.
      Under the margin scheme only the margin over the land cost is taxed, and never below zero. */
  function EstimateGst(grossSales: real, landCost: real, marginScheme: bool): (gst: real)
    ensures !marginScheme ==> 11.0 * gst == grossSales && gst == (grossSales - gst) / 10.0
    ensures marginScheme ==> gst >= 0.0
    ensures marginScheme && landCost >= grossSales ==> gst == 0.0
    ensures marginScheme && landCost < grossSales ==> 11.0 * gst == grossSales - landCost
  {
    if marginScheme then
      var onMargin := (grossSales - landCost) / 11.0;
      if onMargin > 0.0 then onMargin else 0.0
    else
      grossSales / 11.0
  }

  /** On non-negative sales and land, the margin scheme never costs more GST than full GST. */
  lemma MarginSchemeNeverDearer(grossSales: real, landCost: real)
    requires grossSales >= 0.0 && landCost >= 0.0
    ensures EstimateGst(grossSales, landCost, true) <= EstimateGst(grossSales, landCost, false)
  {
  }

  // ---- Margin and bankability ----

  /** `profit / cost * 100` as JavaScript computes it: finite when the cost is not zero; otherwise
      an infinity of the profit's sign, or NaN for 0 / 0. */
  function MarginOnCost(profit: real, cost: real): (m: Margin)
    ensures cost != 0.0 ==> m.Finite? && m.percent * cost == profit * 100.0
    ensures cost == 0.0 ==> (m == PlusInfinity <==> profit > 0.0) && (m == MinusInfinity <==> profit < 0.0)
                            && (m == NotANumber <==> profit == 0.0)
  {
    if cost != 0.0 then Finite(profit / cost * 100.0)
    else if profit > 0.0 then PlusInfinity
    else if profit < 0.0 then MinusInfinity
    else NotANumber
  }

  /** JavaScript's `m < bound`: every comparison with NaN is false. */
  predicate Below(m: Margin, bound: real) {
    match m
    case Finite(v) => v < bound
    case MinusInfinity => true
    case PlusInfinity => false
    case NotANumber => false
  }

  /** Red below 15%, Amber from 15% up to 18%, Green from 18%. */
  function ClassifyBankability(m: Margin): (flag: BankabilityFlag)
    ensures m.Finite? ==> (flag == Red <==> m.percent < 15.0)
    ensures m.Finite? ==> (flag == Amber <==> 15.0 <= m.percent < 18.0)
    ensures m.Finite? ==> (flag == Green <==> 18.0 <= m.percent)
  {
    if Below(m, 15.0) then Red
    else if Below(m, 18.0) then Amber
    else Green
  }

  function BandRank(flag: BankabilityFlag): int {
    match flag
    case Red => 0
    case Amber => 1
    case Green => 2
  }

  /** A better margin never gets a worse band; the boundaries belong to the upper band; the
      undefined margins of a zero cost fall where JavaScript's comparisons put them. */
  lemma BankabilityBands(a: real, b: real)
    ensures a <= b ==> BandRank(ClassifyBankability(Finite(a))) <= BandRank(ClassifyBankability(Finite(b)))
    ensures ClassifyBankability(Finite(15.0)) == Amber && ClassifyBankability(Finite(18.0)) == Green
    ensures ClassifyBankability(MinusInfinity) == Red
    ensures ClassifyBankability(PlusInfinity) == Green && ClassifyBankability(NotANumber) == Green
  {
  }

  const NOTE_RED := "Margin is below 15% - High Risk / Unbankable."
  const NOTE_AMBER := "Margin is tight (15-18%)."
  const NOTE_GREEN := "Healthy margin (>18%)."

  /** The note that goes with each band. */
  function BandNote(flag: BankabilityFlag): string {
    match flag
    case Red => NOTE_RED
    case Amber => NOTE_AMBER
    case Green => NOTE_GREEN
  }

  // ---- The waterfall ----

  /** Every amount, area, rate, percentage and count the waterfall reads is non-negative. */
  predicate NonNegativeInputs(s: Scenario) {
    var c := s.costInputs;
    && s.dwellings >= 0.0 && s.grossFloorAreaPerDwelling >= 0.0 && s.basementAreaSqm.GetOr(0.0) >= 0.0
    && c.landPrice >= 0.0 && c.stampDuty >= 0.0 && c.legalAndDD >= 0.0
    && c.buildRatePerSqm >= 0.0 && c.builderMarginPercent >= 0.0 && c.softCostsPercent >= 0.0
    && c.contingencyPercent >= 0.0 && c.basementRatePerSqm.GetOr(0.0) >= 0.0
    && (c.softCostsOverrides.Some? ==>
          var o := c.softCostsOverrides.value;
          o.architect >= 0.0 && o.townPlanning >= 0.0 && o.openSpaceContribution >= 0.0
          && o.servicesContributions >= 0.0 && o.lslLevy >= 0.0 && o.other >= 0.0)
    && s.financeInputs.landLvrPercent >= 0.0 && s.financeInputs.constructionLvrPercent >= 0.0
    && s.financeInputs.interestRatePercent >= 0.0 && s.financeInputs.projectDurationMonths >= 0.0
    && s.salesInputs.dwellings >= 0.0 && s.salesInputs.avgSalePricePerDwelling >= 0.0
    && s.salesInputs.sellingCostPercent >= 0.0
  }

  /** Stages 1 to 4 of the waterfall: construction, soft costs, contingency, land. */
  predicate BuildCosts(scenario: Scenario, b: CostBreakdown) {
    var c := scenario.costInputs;
    // Construction: built area at the build rate plus any basement at its rate (a missing area or
    // rate counting as zero), plus the builder's margin on that.
    && (var basement := if scenario.includesBasement then scenario.basementAreaSqm.GetOr(0.0) else 0.0;
        var baseBuildCost := scenario.grossFloorAreaPerDwelling * scenario.dwellings * c.buildRatePerSqm
                             + basement * c.basementRatePerSqm.GetOr(0.0);
        b.construction == baseBuildCost + baseBuildCost * (c.builderMarginPercent / 100.0))
    // Soft costs: the six itemised overrides when given, else a percentage of construction.
    && b.softCosts == (match c.softCostsOverrides
                       case Some(o) => o.architect + o.townPlanning + o.openSpaceContribution
                                       + o.servicesContributions + o.lslLevy + o.other
                       case None => (b.construction * c.softCostsPercent) / 100.0)
    && b.contingency == (b.construction + b.softCosts) * (c.contingencyPercent / 100.0)
    && b.landAndAcquisition == c.landPrice + c.stampDuty + c.legalAndDD
  }

  /** Stage 5: interest on the peak debt of land plus gross construction. */
  predicate FinanceCosts(scenario: Scenario, r: FeasibilityResult) {
    var b := r.breakdown;
    && r.peakDebtEstimate == EstimatePeakDebt(b.landAndAcquisition, b.construction + b.softCosts + b.contingency,
                                              scenario.financeInputs)
    && b.finance == EstimateFinanceCost(r.peakDebtEstimate, scenario.financeInputs.interestRatePercent,
                                        scenario.financeInputs.projectDurationMonths)
  }

  /** Stage 6: sales, which count the sales inputs' dwellings rather than the scenario's, less
      selling costs and GST. */
  predicate SalesProceeds(scenario: Scenario, r: FeasibilityResult) {
    var b := r.breakdown;
    && r.grossRealisation == scenario.salesInputs.dwellings * scenario.salesInputs.avgSalePricePerDwelling
    && b.sellingCosts == (r.grossRealisation * scenario.salesInputs.sellingCostPercent) / 100.0
    && b.gstEstimate == EstimateGst(r.grossRealisation, scenario.costInputs.landPrice, scenario.taxInputs.gstMarginScheme)
    && r.netSalesValue == r.grossRealisation - b.sellingCosts - b.gstEstimate
  }

  /** Stage 7: the total development cost and the profit. */
  predicate Totals(r: FeasibilityResult) {
    var b := r.breakdown;
    && r.totalDevelopmentCost == b.landAndAcquisition + b.construction + b.softCosts + b.contingency + b.finance
    && r.profit == r.netSalesValue - r.totalDevelopmentCost
  }

  /** The amounts of the waterfall, stages 1 to 7. */
  predicate Ledger(scenario: Scenario, r: FeasibilityResult) {
    && r.scenarioId == scenario.id
    && BuildCosts(scenario, r.breakdown) && FinanceCosts(scenario, r) && SalesProceeds(scenario, r) && Totals(r)
  }

  /** The verdict: the margin on cost, its band, and the one note naming the band. */
  predicate Verdict(r: FeasibilityResult) {
    && r.marginOnCostPercent == MarginOnCost(r.profit, r.totalDevelopmentCost)
    && r.bankabilityFlag == ClassifyBankability(r.marginOnCostPercent)
    && r.notes == [BandNote(r.bankabilityFlag)]
  }

  /** The waterfall: the relation between a scenario and its feasibility result. */
  predicate Waterfall(scenario: Scenario, r: FeasibilityResult) {
    Ledger(scenario, r) && Verdict(r)
  }

  /** The build costs are fixed by the scenario. */
  lemma BuildCostsDetermined(scenario: Scenario, b1: CostBreakdown, b2: CostBreakdown)
    requires BuildCosts(scenario, b1) && BuildCosts(scenario, b2)
    ensures b1.construction == b2.construction && b1.softCosts == b2.softCosts
    ensures b1.contingency == b2.contingency && b1.landAndAcquisition == b2.landAndAcquisition
  {
    assert b1.construction == b2.construction;
    assert b1.softCosts == b2.softCosts;
  }

  /** The waterfall fixes every field of the result: a scenario has exactly one feasibility. */
  lemma WaterfallDetermines(scenario: Scenario, r1: FeasibilityResult, r2: FeasibilityResult)
    requires Waterfall(scenario, r1) && Waterfall(scenario, r2)
    ensures r1 == r2
  {
    BuildCostsDetermined(scenario, r1.breakdown, r2.breakdown);
    assert r1.peakDebtEstimate == r2.peakDebtEstimate;
    assert r1.breakdown.finance == r2.breakdown.finance;
    assert r1.grossRealisation == r2.grossRealisation;
    assert r1.breakdown == r2.breakdown;
  }

  /** On well-formed data every cost of the waterfall is non-negative, the costs total at least the
      land, and neither the net sales nor the profit exceeds the gross realisation. */
  lemma WaterfallBounds(scenario: Scenario, r: FeasibilityResult)
    requires Ledger(scenario, r) && NonNegativeInputs(scenario)
    ensures var b := r.breakdown;
            && b.landAndAcquisition >= 0.0 && b.construction >= 0.0 && b.softCosts >= 0.0
            && b.contingency >= 0.0 && b.finance >= 0.0 && b.gstEstimate >= 0.0 && b.sellingCosts >= 0.0
            && r.peakDebtEstimate >= 0.0 && r.grossRealisation >= 0.0
            && r.totalDevelopmentCost >= b.landAndAcquisition
            && r.netSalesValue <= r.grossRealisation
            && r.profit <= r.grossRealisation
  {
    var c := scenario.costInputs;
    var b := r.breakdown;
    BuildCostsNonNegative(scenario, r.breakdown);
    assert b.landAndAcquisition >= 0.0;
    var gross := b.construction + b.softCosts + b.contingency;
    ProductNonNegative(b.landAndAcquisition, scenario.financeInputs.landLvrPercent / 100.0);
    ProductNonNegative(gross, scenario.financeInputs.constructionLvrPercent / 100.0);
    assert r.peakDebtEstimate >= 0.0;
    FinanceCostMonotone(r.peakDebtEstimate, scenario.financeInputs.interestRatePercent,
                        scenario.financeInputs.projectDurationMonths, r.peakDebtEstimate);
    ProductNonNegative(scenario.salesInputs.dwellings, scenario.salesInputs.avgSalePricePerDwelling);
    ProductNonNegative(r.grossRealisation, scenario.salesInputs.sellingCostPercent);
  }

  /** On well-formed data construction, soft costs and contingency are non-negative. */
  lemma BuildCostsNonNegative(scenario: Scenario, b: CostBreakdown)
    requires BuildCosts(scenario, b) && NonNegativeInputs(scenario)
    ensures b.construction >= 0.0 && b.softCosts >= 0.0 && b.contingency >= 0.0
  {
    var c := scenario.costInputs;
    var basement := if scenario.includesBasement then scenario.basementAreaSqm.GetOr(0.0) else 0.0;
    var gfa := scenario.grossFloorAreaPerDwelling * scenario.dwellings;
    ProductNonNegative(scenario.grossFloorAreaPerDwelling, scenario.dwellings);
    ProductNonNegative(gfa, c.buildRatePerSqm);
    ProductNonNegative(basement, c.basementRatePerSqm.GetOr(0.0));
    var base := gfa * c.buildRatePerSqm + basement * c.basementRatePerSqm.GetOr(0.0);
    ProductNonNegative(base, c.builderMarginPercent / 100.0);
    assert b.construction >= 0.0;
    ProductNonNegative(b.construction, c.softCostsPercent);
    assert b.softCosts >= 0.0;
    ProductNonNegative(b.construction + b.softCosts, c.contingencyPercent / 100.0);
  }

  /** The notes of the feasibility result: one line naming the band of the margin. */
  method MarginNotes(marginOnCostPercent: Margin) returns (notes: seq<string>)
    ensures notes == [BandNote(ClassifyBankability(marginOnCostPercent))]
  {
    notes := [];
    if Below(marginOnCostPercent, 15.0) {
      notes := notes + [NOTE_RED];
    } else if Below(marginOnCostPercent, 18.0) {
      notes := notes + [NOTE_AMBER];
    } else {
      notes := notes + [NOTE_GREEN];
    }
  }

  /** `calculateFeasibility`: the result is the waterfall of the scenario. The site argument of the
      program is never read and is left out. */
  method CalculateFeasibility(scenario: Scenario) returns (r: FeasibilityResult)
    ensures Waterfall(scenario, r)
  {
    var costInputs, financeInputs, salesInputs, taxInputs :=
      scenario.costInputs, scenario.financeInputs, scenario.salesInputs, scenario.taxInputs;

    // 1. Construction
    var totalGfa := scenario.grossFloorAreaPerDwelling * scenario.dwellings;
    var basementArea := if scenario.includesBasement then scenario.basementAreaSqm.GetOr(0.0) else 0.0;
    var baseBuildCost := totalGfa * costInputs.buildRatePerSqm + basementArea * costInputs.basementRatePerSqm.GetOr(0.0);
    var builderMargin := baseBuildCost * (costInputs.builderMarginPercent / 100.0);
    var constructionBase := baseBuildCost + builderMargin;

    // 2. Soft costs
    var softCosts := 0.0;
    if costInputs.softCostsOverrides.Some? {
      var o := costInputs.softCostsOverrides.value;
      softCosts := o.architect + o.townPlanning + o.openSpaceContribution + o.servicesContributions + o.lslLevy + o.other;
    } else {
      softCosts := (constructionBase * costInputs.softCostsPercent) / 100.0;
    }

    // 3. Contingency
    var contingency := (constructionBase + softCosts) * (costInputs.contingencyPercent / 100.0);

    // 4. Land and acquisition
    var landAndAcquisition := costInputs.landPrice + costInputs.stampDuty + costInputs.legalAndDD;
    var grossConstruction := constructionBase + softCosts + contingency;

    // 5. Finance
    var peakDebtEstimate := EstimatePeakDebt(landAndAcquisition, grossConstruction, financeInputs);
    var financeCost := EstimateFinanceCost(peakDebtEstimate, financeInputs.interestRatePercent,
                                           financeInputs.projectDurationMonths);

    // 6. Sales and GST
    var grossSales := salesInputs.dwellings * salesInputs.avgSalePricePerDwelling;
    var sellingCosts := (grossSales * salesInputs.sellingCostPercent) / 100.0;
    var gstEstimate := EstimateGst(grossSales, costInputs.landPrice, taxInputs.gstMarginScheme);
    var netSalesValue := grossSales - sellingCosts - gstEstimate;

    // 7. Totals
    var totalDevelopmentCost := landAndAcquisition + grossConstruction + financeCost;
    var profit := netSalesValue - totalDevelopmentCost;
    var marginOnCostPercent := MarginOnCost(profit, totalDevelopmentCost);
    var bankabilityFlag := ClassifyBankability(marginOnCostPercent);

    var breakdown := CostBreakdown(landAndAcquisition, constructionBase, softCosts, contingency,
                                   financeCost, gstEstimate, sellingCosts);
    var notes := MarginNotes(marginOnCostPercent);

    r := FeasibilityResult(scenario.id, grossSales, totalDevelopmentCost, netSalesValue, profit,
                           marginOnCostPercent, peakDebtEstimate, bankabilityFlag, breakdown, notes);
    assert BuildCosts(scenario, breakdown);
    assert FinanceCosts(scenario, r);
    assert SalesProceeds(scenario, r);
    assert Totals(r);
    assert Verdict(r);
  }

  /** The scenario of the program's tests: three 150 m² dwellings at $3,500/m² with a 20% builder
      margin on $2m land, sold at $1.5m each under the margin scheme. */
  const TEST_SCENARIO := Scenario(
    "scenario-1", 3.0, 150.0, false, Some(0.0),
    CostInputs(2000000.0, 110000.0, 5000.0, 3500.0, 20.0, 15.0, None, 5.0, None),
    FinanceInputs(65.0, 100.0, 7.5, 18.0),
    SalesInputs(3.0, 1500000.0, 2.5),
    TaxInputs(true))

  /** The examples of the program's tests, and the band that scenario lands in. */
  method TestExample() returns (r: FeasibilityResult)
    ensures r.grossRealisation == 4500000.0
    ensures r.breakdown.construction == 1890000.0
    ensures r.profit < r.grossRealisation
    ensures r.bankabilityFlag == Red && r.notes == [NOTE_RED]
  {
    r := CalculateFeasibility(TEST_SCENARIO);
    WaterfallBounds(TEST_SCENARIO, r);
    assert r.profit < 0.0;
  }
}
