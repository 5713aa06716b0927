/** The quantitative subset of Victoria's ResCode (Clause 55 of the Victoria Planning Provisions)
    and the mandatory garden area of the General Residential Zone (Clause 32.08-4), as checked by
    src/lib/services/rescode.ts. Six rules are evaluated, each unconditionally and in a fixed
    order; each may add an issue and a paired suggestion. */
module ResCode {
  import opened Types
  import opened Strings

  const COVERAGE_ISSUE := "Site coverage exceeds 60% maximum."
  const COVERAGE_SUGGESTION := "Reduce built form to < 60% coverage (target ≤ 58%)."
  const COVERAGE_HIGH_SUGGESTION := "Site coverage is compliant but high (>58%). Consider reducing."
  const PERMEABILITY_ISSUE := "Permeability below 20% minimum."
  const PERMEABILITY_SUGGESTION := "Increase permeable surfaces (garden, permeable paving)."
  const GARDEN_ISSUE := "Garden area below mandatory 35% for GRZ lots > 650m²."
  const GARDEN_SUGGESTION := "Increase garden area to ≥ 35%. This is non-negotiable."
  const POS_ISSUE := "Private open space per dwelling below 40m²."
  const POS_SUGGESTION := "Increase total POS per dwelling."
  const SPOS_AREA_ISSUE := "Secluded POS below 25m²."
  const SPOS_AREA_SUGGESTION := "Ensure at least 25m² of secluded POS."
  const SPOS_WIDTH_ISSUE := "Secluded POS minimum width is less than 3m."
  const SPOS_WIDTH_SUGGESTION := "Widen secluded POS area."

  /** What one rule contributes to the two lists. */
  datatype RuleOutcome = RuleOutcome(issues: seq<string>, suggestions: seq<string>)

  /** Site coverage, Standard B8: above 60% fails; above 58% only earns a suggestion. */
  function CoverageRule(p: PlanningInputs): RuleOutcome {
    if p.siteCoveragePercent > 60.0 then RuleOutcome([COVERAGE_ISSUE], [COVERAGE_SUGGESTION])
    else if p.siteCoveragePercent > 58.0 then RuleOutcome([], [COVERAGE_HIGH_SUGGESTION])
    else RuleOutcome([], [])
  }

  /** Permeability, Standard B9: at least 20%. */
  function PermeabilityRule(p: PlanningInputs): RuleOutcome {
    if p.permeabilityPercent < 20.0 then RuleOutcome([PERMEABILITY_ISSUE], [PERMEABILITY_SUGGESTION])
    else RuleOutcome([], [])
  }

  /** The garden-area requirement binds lots in a zone whose upper-cased name contains "GRZ"
      and whose area exceeds 650 m². */
  predicate GardenAreaApplies(site: Site) {
    Contains(ToUpper(site.zone), "GRZ") && site.areaSqm > 650.0
  }

  /** Garden area: at least 35% where the requirement binds. */
  function GardenRule(site: Site, p: PlanningInputs): RuleOutcome {
    if GardenAreaApplies(site) && p.gardenAreaPercent < 35.0 then RuleOutcome([GARDEN_ISSUE], [GARDEN_SUGGESTION])
    else RuleOutcome([], [])
  }

  /** Private open space, Standard B28: at least 40 m² per dwelling. */
  function PosRule(p: PlanningInputs): RuleOutcome {
    if p.posPerDwellingSqm < 40.0 then RuleOutcome([POS_ISSUE], [POS_SUGGESTION])
    else RuleOutcome([], [])
  }

  /** Secluded private open space, Standard B28: at least 25 m². */
  function SecludedPosAreaRule(p: PlanningInputs): RuleOutcome {
    if p.secludedPosSqm < 25.0 then RuleOutcome([SPOS_AREA_ISSUE], [SPOS_AREA_SUGGESTION])
    else RuleOutcome([], [])
  }

  /** Secluded private open space, Standard B28: at least 3 m wide. */
  function SecludedPosWidthRule(p: PlanningInputs): RuleOutcome {
    if p.secludedPosMinWidthM < 3.0 then RuleOutcome([SPOS_WIDTH_ISSUE], [SPOS_WIDTH_SUGGESTION])
    else RuleOutcome([], [])
  }

  /** The result the check returns: the six rules' issues, and separately their suggestions,
      concatenated in the order coverage, permeability, garden area, private open space, secluded
      private open space area and width; compliant when there is no issue, and deemed to comply
      exactly when compliant. */
  function Check(site: Site, p: PlanningInputs): ResCodeCheckResult {
    var issues := CoverageRule(p).issues + PermeabilityRule(p).issues + GardenRule(site, p).issues
                  + PosRule(p).issues + SecludedPosAreaRule(p).issues + SecludedPosWidthRule(p).issues;
    var suggestions := CoverageRule(p).suggestions + PermeabilityRule(p).suggestions + GardenRule(site, p).suggestions
                       + PosRule(p).suggestions + SecludedPosAreaRule(p).suggestions + SecludedPosWidthRule(p).suggestions;
    ResCodeCheckResult(|issues| == 0, |issues| == 0, issues, suggestions)
  }

  /** `checkResCodeCompliance`: runs the six rules in order, pushing onto local issue and
      suggestion lists, then derives both flags from the number of issues. */
  method CheckResCodeCompliance(site: Site, planning: PlanningInputs) returns (r: ResCodeCheckResult)
    ensures r == Check(site, planning)
    ensures r.compliant <==> r.issues == []
    ensures r.deemedToComply == r.compliant
  {
    var issues: seq<string> := [];
    var suggestions: seq<string> := [];

    if planning.siteCoveragePercent > 60.0 {
      issues := issues + [COVERAGE_ISSUE];
      suggestions := suggestions + [COVERAGE_SUGGESTION];
    } else if planning.siteCoveragePercent > 58.0 {
      suggestions := suggestions + [COVERAGE_HIGH_SUGGESTION];
    }
    assert issues == CoverageRule(planning).issues;
    assert suggestions == CoverageRule(planning).suggestions;

    ghost var issuesBefore, suggestionsBefore := issues, suggestions;
    if planning.permeabilityPercent < 20.0 {
      issues := issues + [PERMEABILITY_ISSUE];
      suggestions := suggestions + [PERMEABILITY_SUGGESTION];
    }
    assert issues == issuesBefore + PermeabilityRule(planning).issues;
    assert suggestions == suggestionsBefore + PermeabilityRule(planning).suggestions;

    issuesBefore, suggestionsBefore := issues, suggestions;
    if Contains(ToUpper(site.zone), "GRZ") && site.areaSqm > 650.0 {
      if planning.gardenAreaPercent < 35.0 {
        issues := issues + [GARDEN_ISSUE];
        suggestions := suggestions + [GARDEN_SUGGESTION];
      }
    }
    assert issues == issuesBefore + GardenRule(site, planning).issues;
    assert suggestions == suggestionsBefore + GardenRule(site, planning).suggestions;

    issuesBefore, suggestionsBefore := issues, suggestions;
    if planning.posPerDwellingSqm < 40.0 {
      issues := issues + [POS_ISSUE];
      suggestions := suggestions + [POS_SUGGESTION];
    }
    assert issues == issuesBefore + PosRule(planning).issues;
    assert suggestions == suggestionsBefore + PosRule(planning).suggestions;

    issuesBefore, suggestionsBefore := issues, suggestions;
    if planning.secludedPosSqm < 25.0 {
      issues := issues + [SPOS_AREA_ISSUE];
      suggestions := suggestions + [SPOS_AREA_SUGGESTION];
    }
    assert issues == issuesBefore + SecludedPosAreaRule(planning).issues;
    assert suggestions == suggestionsBefore + SecludedPosAreaRule(planning).suggestions;

    issuesBefore, suggestionsBefore := issues, suggestions;
    if planning.secludedPosMinWidthM < 3.0 {
      issues := issues + [SPOS_WIDTH_ISSUE];
      suggestions := suggestions + [SPOS_WIDTH_SUGGESTION];
    }
    assert issues == issuesBefore + SecludedPosWidthRule(planning).issues;
    assert suggestions == suggestionsBefore + SecludedPosWidthRule(planning).suggestions;

    var compliant := |issues| == 0;
    var deemedToComply := compliant;
    r := ResCodeCheckResult(compliant, deemedToComply, issues, suggestions);
  }

  // ---- Properties of the check ----

  /** A message is an issue of the check exactly when it is an issue of one of the six rules. */
  lemma IssueOfSomeRule(site: Site, p: PlanningInputs, message: string)
    ensures message in Check(site, p).issues
        <==> message in CoverageRule(p).issues || message in PermeabilityRule(p).issues
             || message in GardenRule(site, p).issues || message in PosRule(p).issues
             || message in SecludedPosAreaRule(p).issues || message in SecludedPosWidthRule(p).issues
  {
  }

  /** The six issue messages are pairwise different. */
  lemma IssueMessagesDistinct()
    ensures COVERAGE_ISSUE !in [PERMEABILITY_ISSUE, GARDEN_ISSUE, POS_ISSUE, SPOS_AREA_ISSUE, SPOS_WIDTH_ISSUE]
    ensures PERMEABILITY_ISSUE !in [GARDEN_ISSUE, POS_ISSUE, SPOS_AREA_ISSUE, SPOS_WIDTH_ISSUE]
    ensures GARDEN_ISSUE !in [POS_ISSUE, SPOS_AREA_ISSUE, SPOS_WIDTH_ISSUE]
    ensures POS_ISSUE !in [SPOS_AREA_ISSUE, SPOS_WIDTH_ISSUE]
    ensures SPOS_AREA_ISSUE != SPOS_WIDTH_ISSUE
  {
    assert |COVERAGE_ISSUE| == 34 && |PERMEABILITY_ISSUE| == 31 && |GARDEN_ISSUE| == 53;
    assert |POS_ISSUE| == 43 && |SPOS_AREA_ISSUE| == 24 && |SPOS_WIDTH_ISSUE| == 43;
    assert POS_ISSUE[0] != SPOS_WIDTH_ISSUE[0];
  }

  /** Each issue is present exactly when its own threshold is broken, whatever the other inputs:
      no rule suppresses another. */
  lemma IssueIffThresholdBroken(site: Site, p: PlanningInputs)
    ensures COVERAGE_ISSUE in Check(site, p).issues <==> p.siteCoveragePercent > 60.0
    ensures PERMEABILITY_ISSUE in Check(site, p).issues <==> p.permeabilityPercent < 20.0
    ensures GARDEN_ISSUE in Check(site, p).issues <==> GardenAreaApplies(site) && p.gardenAreaPercent < 35.0
    ensures POS_ISSUE in Check(site, p).issues <==> p.posPerDwellingSqm < 40.0
    ensures SPOS_AREA_ISSUE in Check(site, p).issues <==> p.secludedPosSqm < 25.0
    ensures SPOS_WIDTH_ISSUE in Check(site, p).issues <==> p.secludedPosMinWidthM < 3.0
  {
    IssueMessagesDistinct();
    IssueOfSomeRule(site, p, COVERAGE_ISSUE);
    IssueOfSomeRule(site, p, PERMEABILITY_ISSUE);
    IssueOfSomeRule(site, p, GARDEN_ISSUE);
    IssueOfSomeRule(site, p, POS_ISSUE);
    IssueOfSomeRule(site, p, SPOS_AREA_ISSUE);
    IssueOfSomeRule(site, p, SPOS_WIDTH_ISSUE);
  }

  /** A message is a suggestion of the check exactly when it is a suggestion of one of the six
      rules. */
  lemma SuggestionOfSomeRule(site: Site, p: PlanningInputs, message: string)
    ensures message in Check(site, p).suggestions
        <==> message in CoverageRule(p).suggestions || message in PermeabilityRule(p).suggestions
             || message in GardenRule(site, p).suggestions || message in PosRule(p).suggestions
             || message in SecludedPosAreaRule(p).suggestions || message in SecludedPosWidthRule(p).suggestions
  {
  }

  /** The seven suggestion messages are pairwise different. */
  lemma SuggestionMessagesDistinct()
    ensures COVERAGE_SUGGESTION !in [COVERAGE_HIGH_SUGGESTION, PERMEABILITY_SUGGESTION, GARDEN_SUGGESTION,
                                     POS_SUGGESTION, SPOS_AREA_SUGGESTION, SPOS_WIDTH_SUGGESTION]
    ensures COVERAGE_HIGH_SUGGESTION !in [PERMEABILITY_SUGGESTION, GARDEN_SUGGESTION, POS_SUGGESTION,
                                          SPOS_AREA_SUGGESTION, SPOS_WIDTH_SUGGESTION]
    ensures PERMEABILITY_SUGGESTION !in [GARDEN_SUGGESTION, POS_SUGGESTION, SPOS_AREA_SUGGESTION, SPOS_WIDTH_SUGGESTION]
    ensures GARDEN_SUGGESTION !in [POS_SUGGESTION, SPOS_AREA_SUGGESTION, SPOS_WIDTH_SUGGESTION]
    ensures POS_SUGGESTION !in [SPOS_AREA_SUGGESTION, SPOS_WIDTH_SUGGESTION]
    ensures SPOS_AREA_SUGGESTION != SPOS_WIDTH_SUGGESTION
  {
    assert |COVERAGE_SUGGESTION| == 51 && |COVERAGE_HIGH_SUGGESTION| == 62 && |PERMEABILITY_SUGGESTION| == 55;
    assert |GARDEN_SUGGESTION| == 54 && |POS_SUGGESTION| == 32 && |SPOS_AREA_SUGGESTION| == 37;
    assert |SPOS_WIDTH_SUGGESTION| == 24;
  }

  /** Each suggestion is present exactly when the threshold of the rule that makes it is broken,
      and the "compliant but high" suggestion exactly when coverage is in (58, 60]. */
  lemma SuggestionIffThresholdBroken(site: Site, p: PlanningInputs)
    ensures COVERAGE_SUGGESTION in Check(site, p).suggestions <==> p.siteCoveragePercent > 60.0
    ensures COVERAGE_HIGH_SUGGESTION in Check(site, p).suggestions <==> 58.0 < p.siteCoveragePercent <= 60.0
    ensures PERMEABILITY_SUGGESTION in Check(site, p).suggestions <==> p.permeabilityPercent < 20.0
    ensures GARDEN_SUGGESTION in Check(site, p).suggestions <==> GardenAreaApplies(site) && p.gardenAreaPercent < 35.0
    ensures POS_SUGGESTION in Check(site, p).suggestions <==> p.posPerDwellingSqm < 40.0
    ensures SPOS_AREA_SUGGESTION in Check(site, p).suggestions <==> p.secludedPosSqm < 25.0
    ensures SPOS_WIDTH_SUGGESTION in Check(site, p).suggestions <==> p.secludedPosMinWidthM < 3.0
  {
    SuggestionMessagesDistinct();
    SuggestionOfSomeRule(site, p, COVERAGE_SUGGESTION);
    SuggestionOfSomeRule(site, p, COVERAGE_HIGH_SUGGESTION);
    SuggestionOfSomeRule(site, p, PERMEABILITY_SUGGESTION);
    SuggestionOfSomeRule(site, p, GARDEN_SUGGESTION);
    SuggestionOfSomeRule(site, p, POS_SUGGESTION);
    SuggestionOfSomeRule(site, p, SPOS_AREA_SUGGESTION);
    SuggestionOfSomeRule(site, p, SPOS_WIDTH_SUGGESTION);
  }

  /** The two lists run in parallel: every issue is accompanied by its own rule's suggestion,
      and every such suggestion by its issue. */
  lemma IssuesPairedWithSuggestions(site: Site, p: PlanningInputs)
    ensures COVERAGE_ISSUE in Check(site, p).issues <==> COVERAGE_SUGGESTION in Check(site, p).suggestions
    ensures PERMEABILITY_ISSUE in Check(site, p).issues <==> PERMEABILITY_SUGGESTION in Check(site, p).suggestions
    ensures GARDEN_ISSUE in Check(site, p).issues <==> GARDEN_SUGGESTION in Check(site, p).suggestions
    ensures POS_ISSUE in Check(site, p).issues <==> POS_SUGGESTION in Check(site, p).suggestions
    ensures SPOS_AREA_ISSUE in Check(site, p).issues <==> SPOS_AREA_SUGGESTION in Check(site, p).suggestions
    ensures SPOS_WIDTH_ISSUE in Check(site, p).issues <==> SPOS_WIDTH_SUGGESTION in Check(site, p).suggestions
  {
    IssueIffThresholdBroken(site, p);
    SuggestionIffThresholdBroken(site, p);
  }

  /** Compliant exactly when all six thresholds are met. */
  lemma CompliantIffAllThresholdsMet(site: Site, p: PlanningInputs)
    ensures Check(site, p).compliant <==>
              && p.siteCoveragePercent <= 60.0
              && p.permeabilityPercent >= 20.0
              && (GardenAreaApplies(site) ==> p.gardenAreaPercent >= 35.0)
              && p.posPerDwellingSqm >= 40.0
              && p.secludedPosSqm >= 25.0
              && p.secludedPosMinWidthM >= 3.0
    ensures Check(site, p).deemedToComply == Check(site, p).compliant
  {
  }

  /** Counting: each rule adds as many suggestions as issues, except that the coverage rule can
      make a suggestion on its own. Hence there are at most six issues and at most one more
      suggestion than issues. */
  lemma IssueAndSuggestionCounts(site: Site, p: PlanningInputs)
    ensures |Check(site, p).issues| <= |Check(site, p).suggestions| <= |Check(site, p).issues| + 1
    ensures |Check(site, p).issues| <= 6
    ensures |Check(site, p).suggestions| == |Check(site, p).issues| + 1 <==> 58.0 < p.siteCoveragePercent <= 60.0
  {
  }

  /** Coverage of exactly 60% is no issue; coverage in (58, 60] yields only the "compliant but
      high" suggestion. */
  lemma CoverageBoundary(site: Site, p: PlanningInputs)
    ensures p.siteCoveragePercent == 60.0 ==> COVERAGE_ISSUE !in Check(site, p).issues
    ensures 58.0 < p.siteCoveragePercent <= 60.0 ==>
              && COVERAGE_ISSUE !in Check(site, p).issues
              && COVERAGE_HIGH_SUGGESTION in Check(site, p).suggestions
              && COVERAGE_SUGGESTION !in Check(site, p).suggestions
  {
    IssueIffThresholdBroken(site, p);
    SuggestionIffThresholdBroken(site, p);
  }

  /** A lot of at most 650 m², or whose zone does not contain "GRZ" in upper case, never gets the
      garden-area issue. */
  lemma GardenRuleScope(site: Site, p: PlanningInputs)
    requires site.areaSqm <= 650.0 || !Contains(ToUpper(site.zone), "GRZ")
    ensures GARDEN_ISSUE !in Check(site, p).issues
  {
    IssueIffThresholdBroken(site, p);
  }

  /** The zone is upper-cased before the search, so the letter case of the zone name never
      changes the check: a lower-cased zone gives exactly the same result. */
  lemma GardenRuleIgnoresCase(site: Site, p: PlanningInputs)
    ensures Check(site.(zone := ToLower(site.zone)), p) == Check(site, p)
  {
    UpperOfLower(site.zone);
    assert GardenAreaApplies(site.(zone := ToLower(site.zone))) == GardenAreaApplies(site);
    assert GardenRule(site.(zone := ToLower(site.zone)), p) == GardenRule(site, p);
  }

  /** For instance a lower-case "grz1" on a lot over 650 m² binds the garden-area requirement. */
  lemma LowerCaseZoneBinds(site: Site)
    requires ToLower(site.zone) == "grz1" && site.areaSqm > 650.0
    ensures GardenAreaApplies(site)
  {
    UpperOfLower(site.zone);
    assert IsPrefix("GRZ", ToUpper(ToLower(site.zone)));
  }

  /** The inputs of the program's tests: all thresholds met on an 800 m² GRZ1 lot. */
  const TEST_SITE := Site("site-1", "Bayside", "GRZ1", 800.0, 20.0, 40.0, false)
  const TEST_INPUTS := PlanningInputs(50.0, 30.0, 40.0, 50.0, 30.0, 4.0)

  /** The examples of the program's tests. */
  lemma TestExamples()
    ensures Check(TEST_SITE, TEST_INPUTS).compliant && Check(TEST_SITE, TEST_INPUTS).issues == []
    ensures !Check(TEST_SITE, TEST_INPUTS.(siteCoveragePercent := 70.0)).compliant
    ensures COVERAGE_ISSUE in Check(TEST_SITE, TEST_INPUTS.(siteCoveragePercent := 70.0)).issues
    ensures !Check(TEST_SITE, TEST_INPUTS.(permeabilityPercent := 10.0)).compliant
    ensures PERMEABILITY_ISSUE in Check(TEST_SITE, TEST_INPUTS.(permeabilityPercent := 10.0)).issues
    ensures !Check(TEST_SITE, TEST_INPUTS.(gardenAreaPercent := 20.0)).compliant
    ensures GARDEN_ISSUE in Check(TEST_SITE, TEST_INPUTS.(gardenAreaPercent := 20.0)).issues
  {
    assert IsPrefix("GRZ", ToUpper(TEST_SITE.zone));
    CompliantIffAllThresholdsMet(TEST_SITE, TEST_INPUTS);
    IssueIffThresholdBroken(TEST_SITE, TEST_INPUTS.(siteCoveragePercent := 70.0));
    IssueIffThresholdBroken(TEST_SITE, TEST_INPUTS.(permeabilityPercent := 10.0));
    IssueIffThresholdBroken(TEST_SITE, TEST_INPUTS.(gardenAreaPercent := 20.0));
  }
}
