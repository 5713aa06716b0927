/** The record shapes shared by the calculators (src/lib/domain/types.ts). Money, areas, lengths,
    percentages, counts and months are JavaScript numbers in the program; they are `real` here.
    Only the fields some calculator reads are kept. */
module Types {

  /** An optional field (`x?: T` in the program). */
  datatype Option<+T> = None | Some(value: T) {
    /** `x || d` for a number field that is present, or `d` when it is absent. */
    function GetOr(default: T): T {
      match this
      case Some(v) => v
      case None => default
    }
  }

  /** A development site as the calculators see it. */
  datatype Site = Site(
    id: string,
    council: string,
    zone: string,
    areaSqm: real,
    frontageM: real,
    depthM: real,
    isCorner: bool)

  datatype CouncilCategory = Facilitator | Neutral | Protector

  /** Static reference data about one council's attitude to development. */
  datatype CouncilProfile = CouncilProfile(council: string, category: CouncilCategory, notes: string)

  datatype ProductType = Duplex | Triplex | Quadplex

  /** The suitability of a site for one product type. */
  datatype YieldScore = YieldScore(siteId: string, productType: ProductType, score: int, notes: string)

  /** The compliance-relevant dimensions of a proposed built form. */
  datatype PlanningInputs = PlanningInputs(
    siteCoveragePercent: real,
    permeabilityPercent: real,
    gardenAreaPercent: real,
    posPerDwellingSqm: real,
    secludedPosSqm: real,
    secludedPosMinWidthM: real)

  /** Soft costs itemised instead of taken as a percentage. */
  datatype SoftCostsBreakdown = SoftCostsBreakdown(
    architect: real,
    townPlanning: real,
    openSpaceContribution: real,
    servicesContributions: real,
    lslLevy: real,
    other: real)

  datatype CostInputs = CostInputs(
    landPrice: real,
    stampDuty: real,
    legalAndDD: real,
    buildRatePerSqm: real,
    builderMarginPercent: real,
    softCostsPercent: real,
    softCostsOverrides: Option<SoftCostsBreakdown>,
    contingencyPercent: real,
    basementRatePerSqm: Option<real>)

  datatype FinanceInputs = FinanceInputs(
    landLvrPercent: real,
    constructionLvrPercent: real,
    interestRatePercent: real,
    projectDurationMonths: real)

  datatype SalesInputs = SalesInputs(
    dwellings: real,
    avgSalePricePerDwelling: real,
    sellingCostPercent: real)

  datatype TaxInputs = TaxInputs(gstMarginScheme: bool)

  /** A proposed development of a site. */
  datatype Scenario = Scenario(
    id: string,
    dwellings: real,
    grossFloorAreaPerDwelling: real,
    includesBasement: bool,
    basementAreaSqm: Option<real>,
    costInputs: CostInputs,
    financeInputs: FinanceInputs,
    salesInputs: SalesInputs,
    taxInputs: TaxInputs)

  datatype ResCodeCheckResult = ResCodeCheckResult(
    compliant: bool,
    deemedToComply: bool,
    issues: seq<string>,
    suggestions: seq<string>)

  datatype BankabilityFlag = Red | Amber | Green

  /** The value `profit / totalDevelopmentCost * 100` takes in JavaScript: a finite number, or,
      when the cost is zero, an infinity carrying the profit's sign, or NaN when the profit is zero too. */
  datatype Margin = Finite(percent: real) | PlusInfinity | MinusInfinity | NotANumber

  datatype CostBreakdown = CostBreakdown(
    landAndAcquisition: real,
    construction: real,
    softCosts: real,
    contingency: real,
    finance: real,
    gstEstimate: real,
    sellingCosts: real)

  datatype FeasibilityResult = FeasibilityResult(
    scenarioId: string,
    grossRealisation: real,
    totalDevelopmentCost: real,
    netSalesValue: real,
    profit: real,
    marginOnCostPercent: Margin,
    peakDebtEstimate: real,
    bankabilityFlag: BankabilityFlag,
    breakdown: CostBreakdown,
    notes: seq<string>)
}
