# Development site calculators, modelled in Dafny

This project models the calculation core of a residential development-site appraisal tool for
Melbourne. It has four parts:

- **Yield scoring** (`YieldScoring.dfy`) scores a site from 0 to 100 for each of three product
  types: Duplex, Triplex and Quadplex. Each score starts from a base, and threshold rules on
  frontage, area, depth, corner position and zone adjust it. The score is then clamped to
  [0, 100], and the rationale fragments are joined with single spaces.
- **ResCode compliance** (`ResCode.dfy`) checks a site's planning inputs against six numeric
  standards:
  - site coverage of at most 60%, with a "high" suggestion above 58%;
  - permeability of at least 20%;
  - the mandatory 35% garden area for lots over 650 m² in a zone whose name contains "GRZ" in
    any letter case (the zone is upper-cased before the search);
  - private open space of at least 40 m² per dwelling;
  - secluded private open space of at least 25 m²;
  - secluded private open space at least 3 m wide.

  It collects issues and suggestions in rule order. A site is compliant, and deemed to comply,
  exactly when there are no issues.
- **Feasibility** (`Feasibility.dfy`) runs the development feasibility waterfall:
  1. construction, with a builder's margin;
  2. soft costs, either itemised or as a percentage;
  3. contingency;
  4. land and acquisition;
  5. peak debt from the two loan-to-value ratios;
  6. interest on 65% of the peak debt;
  7. gross sales, selling costs and GST (the 1/11 GST-inclusive rule, or the margin scheme of
     Division 75 of the A New Tax System (Goods and Services Tax) Act 1999);
  8. the development cost, profit and margin on cost.

  Finally it classifies the margin as Red (below 15%), Amber (15% up to 18%) or Green (18% and
  above), with one note naming the band.
- **Council profiles** (`CouncilProfiles.dfy`) is the static table of nine councils and their
  planning temperament (Facilitator, Neutral or Protector). Lookup is case-insensitive and
  returns the first match.

Two support modules fill out the project:

- `Types.dfy` holds the records the calculators exchange.
- `Strings.dfy` holds the JavaScript string operations they rely on: `includes`, ASCII
  `toLowerCase` / `toUpperCase`, and `Array.prototype.join`.

The scorers, the compliance check and the waterfall change local variables step by step:

- a score that is added to;
- note, issue and suggestion lists that are pushed onto;
- a soft-cost figure assigned in an if/else.

They are therefore methods with the same steps, each proved equal to a specification:

- the rule tables `DuplexScore`, `TriplexScore` and `QuadplexScore`;
- the rule-by-rule `Check`;
- the `Waterfall` relation.

The properties are then proved about those specifications.

Numbers are modelled as unbounded `real` (scores are `int`), so rounding is absent. The one
place where JavaScript's floating point changes the control flow is modelled explicitly. That
place is the margin on cost when the development cost is zero:

- `MarginOnCost` yields `PlusInfinity` when the profit is positive, `MinusInfinity` when it is
  negative, and `NotANumber` for 0 / 0.
- `ClassifyBankability` then follows JavaScript's comparisons. NaN fails both `< 15` and `< 18`,
  so it is Green; −∞ is Red; +∞ is Green.

## Model

| member | source | states |
|---|---|---|
| `YieldScoring.ClampScore` | src/lib/services/yieldScoring.ts:119-121 | The result lies in [0, 100]. A score already in range is unchanged; a negative one becomes 0; one above 100 becomes 100. |
| `YieldScoring.ClampScoreIdempotentAndMonotone` | src/lib/services/yieldScoring.ts:119-121 | Clamping twice is clamping once, and clamping preserves order. |
| `YieldScoring.ScoreDuplex` | src/lib/services/yieldScoring.ts:13-49 | Accumulating 50 ± the frontage, area and zone rules, with their notes, gives the Duplex rule table's result. The result carries the site's id and the type Duplex, and its score is in [0, 100]. |
| `YieldScoring.ScoreTriplex` | src/lib/services/yieldScoring.ts:51-87 | Accumulating 40 ± the frontage, area and depth rules gives the Triplex rule table's result. The result carries the site id and the type Triplex, with a score in [0, 100]. |
| `YieldScoring.ScoreQuadplex` | src/lib/services/yieldScoring.ts:89-117 | Accumulating 30 ± the frontage-or-corner and area rules gives the Quadplex rule table's result. The result carries the site id and the type Quadplex, with a score in [0, 100]. |
| `YieldScoring.CalculateYieldScores` | src/lib/services/yieldScoring.ts:3-11 | Exactly three scores, Duplex, Triplex and Quadplex in that order. Each is that product's rule-table score for this site, with the site's id and a score in [0, 100]. |
| `YieldScoring.DuplexMonotoneInFrontage` | src/lib/services/yieldScoring.ts:17-27 | A wider frontage, all else equal, never lowers the Duplex score. |
| `YieldScoring.DuplexZoneAddsNoNote` | src/lib/services/yieldScoring.ts:38-41 | The zone never changes the Duplex rationale. Moving a site from a zone containing neither "GRZ" nor "NRZ" (case-sensitive) to one containing either raises the raw Duplex total by exactly 10. |
| `YieldScoring.DuplexNotesCount` | src/lib/services/yieldScoring.ts:17-36 | The Duplex rationale has two fragments, or one when the area exceeds 750 m². |
| `YieldScoring.TriplexMonotone` | src/lib/services/yieldScoring.ts:55-79 | A wider frontage and a greater depth never lower the Triplex score. |
| `YieldScoring.TriplexNotesCount` | src/lib/services/yieldScoring.ts:55-79 | The Triplex rationale has 2 or 3 fragments. It has 2 exactly when the frontage is in [15, 16), where the frontage rule adds no note. |
| `YieldScoring.QuadplexScoreValues` | src/lib/services/yieldScoring.ts:89-117 | The Quadplex score is one of 0, 20, 40 and 100. It is 100 iff the frontage is at least 20 m or the site is a corner, and the area is at least 900 m². It is 20 iff the frontage condition fails and the area is at least 900 m². It is 0 iff both conditions fail. |
| `YieldScoring.QuadplexCornerIgnoresFrontage` | src/lib/services/yieldScoring.ts:94-100 | On a corner site the frontage does not affect the Quadplex result, and the score is 40 or 100. |
| `YieldScoring.QuadplexMonotone` | src/lib/services/yieldScoring.ts:89-117 | More frontage, more area and becoming a corner never lower the Quadplex score. |
| `YieldScoring.TestExamples` | src/lib/services/yieldScoring.test.ts:20-39 | A large corner site scores above 80 for Quadplex. A small narrow site scores below 40 for Quadplex. A standard 650 m², 15 m GRZ1 site scores above 60 for Duplex. |
| `Strings.ContainsIffOccurs` | src/lib/services/yieldScoring.ts:39 | The left-to-right `includes` search succeeds exactly when the substring occurs at some index. |
| `Strings.ToUpper` | src/lib/services/rescode.ts:26 | Upper-casing keeps the length, leaves no small ASCII letter in the result, and leaves every other character unchanged. |
| `Strings.UpperOfLower` | src/lib/services/rescode.ts:26 | Upper-casing a lower-cased string gives the same result as upper-casing the original, so strings differing only in ASCII letter case upper-case alike. |
| `Strings.ToLowerIdempotent` | src/lib/domain/councilProfiles.ts:52 | Lower-casing twice is lower-casing once. |
| `Strings.JoinLength` | src/lib/services/yieldScoring.ts:47 | A join's length is the total of the parts plus one separator between each pair of neighbours. |
| `Strings.JoinStartsWithFirst` | src/lib/services/yieldScoring.ts:47 | A join begins with its first part. |
| `ResCode.CheckResCodeCompliance` | src/lib/services/rescode.ts:3-54 | Pushing each rule's issue and suggestion in turn gives the rule-by-rule result. `compliant` holds iff there are no issues, and `deemedToComply` equals `compliant`. |
| `ResCode.IssueOfSomeRule` | src/lib/services/rescode.ts:10-47 | A message is an issue of the check exactly when one of the six rules raises it; no rule removes another's issue. |
| `ResCode.IssueIffThresholdBroken` | src/lib/services/rescode.ts:10-47 | Each of the six issue messages is present iff its own threshold is broken, whatever the other inputs. |
| `ResCode.CompliantIffAllThresholdsMet` | src/lib/services/rescode.ts:10-51 | Compliant, and deemed to comply, iff all six thresholds are met. The garden threshold applies only where the garden requirement binds. |
| `ResCode.SuggestionIffThresholdBroken` | src/lib/services/rescode.ts:10-47 | Each of the six rules' suggestions is present iff that rule's threshold is broken, and the "compliant but high" suggestion iff the coverage is in (58, 60]. |
| `ResCode.IssuesPairedWithSuggestions` | src/lib/services/rescode.ts:10-47 | The lists run in parallel: each issue is present iff its own rule's suggestion is present. |
| `ResCode.IssueAndSuggestionCounts` | src/lib/services/rescode.ts:10-47 | There are at most six issues, and at least as many suggestions as issues but at most one more. There is exactly one extra suggestion iff the coverage is in (58, 60]. |
| `ResCode.CoverageBoundary` | src/lib/services/rescode.ts:10-16 | Exactly 60% coverage gives no coverage issue. For coverage in (58, 60], the check has no coverage issue, has the "compliant but high" suggestion and lacks the reduce-coverage suggestion. |
| `ResCode.GardenRuleScope` | src/lib/services/rescode.ts:24-31 | A lot of at most 650 m², or one whose upper-cased zone lacks "GRZ", never gets the garden-area issue. |
| `ResCode.GardenRuleIgnoresCase` | src/lib/services/rescode.ts:24-31 | For every site and every set of inputs, lower-casing the zone name leaves the whole check result unchanged. |
| `ResCode.LowerCaseZoneBinds` | src/lib/services/rescode.ts:26 | Any zone that lower-cases to "grz1", on a lot over 650 m², binds the garden requirement. |
| `ResCode.TestExamples` | src/lib/services/rescode.test.ts:29-55 | The compliant test inputs give no issues. Coverage 70, permeability 10 and garden area 20 each make the check fail with the expected message. |
| `CouncilProfiles.FindIndex` | src/lib/domain/councilProfiles.ts:52 | `find` with the case-insensitive predicate. It returns the index of the first matching entry, and None iff no entry matches. |
| `CouncilProfiles.GetCouncilProfile` | src/lib/domain/councilProfiles.ts:51-53 | A result is a table entry whose lowered name equals the lowered query, with no earlier entry matching. None iff no entry matches. |
| `CouncilProfiles.CouncilNamesDistinct` | src/lib/domain/councilProfiles.ts:3-49 | No two of the nine council names coincide after lower-casing. |
| `CouncilProfiles.AtMostOneMatch` | src/lib/domain/councilProfiles.ts:3-53 | A query matches at most one entry of the table. |
| `CouncilProfiles.LookupFindsMatch` | src/lib/domain/councilProfiles.ts:51-53 | A query that matches entry i finds exactly entry i. |
| `CouncilProfiles.LookupIgnoresCase` | src/lib/domain/councilProfiles.ts:52 | Queries that agree after lower-casing find the same profile. |
| `CouncilProfiles.LookupOfLowered` | src/lib/domain/councilProfiles.ts:52 | A query and its lower-cased form find the same profile. |
| `CouncilProfiles.BaysideIsProtector` | src/lib/domain/councilProfiles.ts:29-33 | Any spelling of "bayside" finds a Protector. |
| `CouncilProfiles.GlenEiraIsNeutral` | src/lib/domain/councilProfiles.ts:44-48 | Any spelling of "glen eira" finds a Neutral council. |
| `CouncilProfiles.MonashIsFacilitator` | src/lib/domain/councilProfiles.ts:4-8 | Any spelling of "monash" finds a Facilitator. |
| `CouncilProfiles.UnknownCouncil` | src/lib/domain/councilProfiles.ts:51-53 | A council outside the table ("melbourne", in any case) finds nothing. |
| `Feasibility.EstimatePeakDebt` | src/lib/services/feasibility.ts:118-132 | At 100% on both loan-to-value ratios the peak debt is land plus construction. With one ratio at zero, it is the other loan alone. |
| `Feasibility.PeakDebtBounds` | src/lib/services/feasibility.ts:118-132 | With ratios in [0, 100] and non-negative costs, the peak debt is between 0 and land plus construction. |
| `Feasibility.EstimateFinanceCost` | src/lib/services/feasibility.ts:134-149 | No interest accrues at a zero rate, a zero duration or zero debt. Twelve months cost one year's interest on 65% of the peak debt. |
| `Feasibility.FinanceCostMonotone` | src/lib/services/feasibility.ts:134-149 | Interest is non-negative, and more debt never costs less interest. |
| `Feasibility.EstimateGst` | src/lib/services/feasibility.ts:151-163 | Without the margin scheme, GST is one eleventh of gross sales, i.e. 10% of the GST-exclusive price. With the scheme, GST is never negative, is zero when land costs at least the sales, and is otherwise one eleventh of the margin. |
| `Feasibility.MarginSchemeNeverDearer` | src/lib/services/feasibility.ts:151-163 | For non-negative sales and land, the margin scheme never costs more GST than full GST. |
| `Feasibility.MarginOnCost` | src/lib/services/feasibility.ts:81 | For a non-zero cost, margin × cost = profit × 100. For a zero cost it is +∞, −∞ or NaN as the profit is positive, negative or zero. |
| `Feasibility.ClassifyBankability` | src/lib/services/feasibility.ts:165-169 | For a finite margin: Red iff below 15, Amber iff in [15, 18), Green iff 18 or more. |
| `Feasibility.BankabilityBands` | src/lib/services/feasibility.ts:165-169 | A larger margin never gets a worse band. 15 is Amber and 18 is Green. −∞ is Red; +∞ and NaN are Green. |
| `Feasibility.MarginNotes` | src/lib/services/feasibility.ts:95-102 | The notes are one line, the one naming the band the classifier gives the same margin. |
| `Feasibility.CalculateFeasibility` | src/lib/services/feasibility.ts:10-116 | The result satisfies the waterfall, stage by stage (see below). |
| `Feasibility.WaterfallDetermines` | src/lib/services/feasibility.ts:10-116 | The waterfall fixes every field of the result. |
| `Feasibility.WaterfallBounds` | src/lib/services/feasibility.ts:16-80 | With all inputs non-negative: every cost, the peak debt and the gross realisation are non-negative; the total cost is at least the land cost; neither the net sales value nor the profit exceeds the gross realisation. |
| `Feasibility.TestExample` | src/lib/services/feasibility.test.ts:20-77 | The test scenario gives gross realisation 4,500,000, construction 1,890,000, profit below gross realisation, and a Red flag with the Red note. |

The `Waterfall` relation that `CalculateFeasibility` meets states each stage:

- **Construction** is gfa × scenario dwellings × build rate, plus basement area × basement rate,
  plus the builder's margin on that sum. The basement term is 0 without a basement, and a
  missing area or rate counts as 0.
- **Soft costs** are the sum of the six overrides when present, else construction × soft-cost
  percentage / 100.
- **Contingency** is (construction + soft costs) × contingency percentage / 100.
- **Land and acquisition** is price + stamp duty + legal.
- **Peak debt and finance** are `EstimatePeakDebt` and `EstimateFinanceCost` of these.
- **Gross realisation** is `salesInputs.dwellings` × average price. It does not depend on the
  scenario's dwelling count.
- **Selling costs** are a percentage of the gross realisation.
- **GST** is `EstimateGst` against the land price.
- **The totals** are as their names say. The margin is `MarginOnCost`, the flag is
  `ClassifyBankability` of the margin, and the notes are exactly one line naming the flag's band.

## Left out

- User interface, persistence and HTTP routes: React components, API routes and database access
  are outside the calculation core.
- IEEE-754 doubles: numbers are exact reals, so rounding, overflow and negative zero are not
  modelled. The only float behaviour kept is the margin for a zero development cost: infinities
  and NaN, handled by the `Margin` datatype.
- Unicode case mapping: `toLowerCase` / `toUpperCase` are modelled on ASCII letters only. Other
  characters are left unchanged.
- Fields the calculators never read are dropped from the records:
  - on the site: `name`, `address`, `overlays`, `easementsNotes` and the timestamps;
  - on the scenario: `siteId`, `name`, `productType`, `storeys`, `specLevel`, `planningInputs`
    and the timestamps;
  - `internalBuildRatePerSqm`, `drawdownProfile` and `neighbourFrontSetbacksM`.
- Unused parameter: `calculateFeasibility` is modelled without its `site` parameter, which the
  program never reads.
- Feasibility.MarginNotes: the program builds the note list inline in `calculateFeasibility`;
  here it is a separate method with the same branches, called at the same point.
- Feasibility.WaterfallBounds: non-negativity is proved for non-negative inputs only. For other
  inputs the program does not promise it.
