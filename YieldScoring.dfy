/** Scores how well a site suits each of the three product types (src/lib/services/yieldScoring.ts).
    Each product has a base score and a short list of threshold rules; a rule changes the score and
    may contribute a rationale fragment. The scorers of the program accumulate both in local
    variables; the methods below do the same and are proved equal to the rule tables. */
module YieldScoring {
  import opened Types
  import opened Strings

  /** The effect of one threshold rule: a change to the score and, possibly, a rationale fragment. */
  datatype Adjustment = Adjustment(delta: int, note: Option<string>)

  /** The sum of the rules' score changes. */
  function TotalDelta(adjustments: seq<Adjustment>): int {
    if adjustments == [] then 0 else adjustments[0].delta + TotalDelta(adjustments[1..])
  }

  /** The fragment a rule contributes, if any. */
  function FragmentOf(adjustment: Adjustment): seq<string> {
    match adjustment.note
    case Some(n) => [n]
    case None => []
  }

  /** The rules' rationale fragments, in rule order. */
  function NotesOf(adjustments: seq<Adjustment>): seq<string> {
    if adjustments == [] then [] else FragmentOf(adjustments[0]) + NotesOf(adjustments[1..])
  }

  /** `Math.max(0, Math.min(100, score))`. */
  function ClampScore(score: int): (r: int)
    ensures 0 <= r <= 100
    ensures 0 <= score <= 100 ==> r == score
    ensures score < 0 ==> r == 0
    ensures score > 100 ==> r == 100
  {
    var capped := if score < 100 then score else 100;
    if capped > 0 then capped else 0
  }

  /** Clamping a clamped score changes nothing, and clamping preserves order. */
  lemma ClampScoreIdempotentAndMonotone(a: int, b: int)
    ensures ClampScore(ClampScore(a)) == ClampScore(a)
    ensures a <= b ==> ClampScore(a) <= ClampScore(b)
  {
  }

  /** The score a product gets from its base and its rules. */
  function Rated(site: Site, product: ProductType, base: int, adjustments: seq<Adjustment>): YieldScore {
    YieldScore(site.id, product, ClampScore(base + TotalDelta(adjustments)), Join(NotesOf(adjustments), " "))
  }

  /** Three rules, unfolded. */
  lemma ThreeRules(a: Adjustment, b: Adjustment, c: Adjustment)
    ensures TotalDelta([a, b, c]) == a.delta + b.delta + c.delta
    ensures NotesOf([a, b, c]) == FragmentOf(a) + FragmentOf(b) + FragmentOf(c)
  {
    TwoRules(b, c);
    assert [a, b, c][1..] == [b, c];
  }

  /** Two rules, unfolded. */
  lemma TwoRules(a: Adjustment, b: Adjustment)
    ensures TotalDelta([a, b]) == a.delta + b.delta
    ensures NotesOf([a, b]) == FragmentOf(a) + FragmentOf(b)
  {
    assert [b][1..] == [];
    assert TotalDelta([b]) == b.delta && NotesOf([b]) == FragmentOf(b);
    assert [a, b][1..] == [b];
  }

  // ---- Duplex ----

  const DUPLEX_BASE := 50
  const DUPLEX_FRONTAGE_EXCELLENT := "Excellent frontage (14m+) for side-by-side."
  const DUPLEX_FRONTAGE_ADEQUATE := "Adequate frontage."
  const DUPLEX_FRONTAGE_NARROW := "Frontage narrow for side-by-side (<12.5m)."
  const DUPLEX_AREA_IDEAL := "Ideal site area."
  const DUPLEX_AREA_SMALL := "Site area small."

  function DuplexFrontage(frontageM: real): Adjustment {
    if frontageM >= 14.0 then Adjustment(30, Some(DUPLEX_FRONTAGE_EXCELLENT))
    else if frontageM >= 12.5 then Adjustment(10, Some(DUPLEX_FRONTAGE_ADEQUATE))
    else Adjustment(-30, Some(DUPLEX_FRONTAGE_NARROW))
  }

  function DuplexArea(areaSqm: real): Adjustment {
    if 600.0 <= areaSqm <= 750.0 then Adjustment(20, Some(DUPLEX_AREA_IDEAL))
    else if areaSqm < 600.0 then Adjustment(-20, Some(DUPLEX_AREA_SMALL))
    else Adjustment(0, None)
  }

  /** The zone test is a case-sensitive substring test and adds no fragment. */
  function DuplexZone(zone: string): Adjustment {
    if Contains(zone, "GRZ") || Contains(zone, "NRZ") then Adjustment(10, None) else Adjustment(0, None)
  }

  function DuplexRules(site: Site): seq<Adjustment> {
    [DuplexFrontage(site.frontageM), DuplexArea(site.areaSqm), DuplexZone(site.zone)]
  }

  function DuplexScore(site: Site): YieldScore {
    Rated(site, Duplex, DUPLEX_BASE, DuplexRules(site))
  }

  method ScoreDuplex(site: Site) returns (r: YieldScore)
    ensures r == DuplexScore(site)
    ensures r.siteId == site.id && r.productType == Duplex && 0 <= r.score <= 100
  {
    var score := 50;
    var notes: seq<string> := [];

    if site.frontageM >= 14.0 {
      score := score + 30;
      notes := notes + [DUPLEX_FRONTAGE_EXCELLENT];
    } else if site.frontageM >= 12.5 {
      score := score + 10;
      notes := notes + [DUPLEX_FRONTAGE_ADEQUATE];
    } else {
      score := score - 30;
      notes := notes + [DUPLEX_FRONTAGE_NARROW];
    }

    if site.areaSqm >= 600.0 && site.areaSqm <= 750.0 {
      score := score + 20;
      notes := notes + [DUPLEX_AREA_IDEAL];
    } else if site.areaSqm < 600.0 {
      score := score - 20;
      notes := notes + [DUPLEX_AREA_SMALL];
    }

    if Contains(site.zone, "GRZ") || Contains(site.zone, "NRZ") {
      score := score + 10;
    }

    ThreeRules(DuplexFrontage(site.frontageM), DuplexArea(site.areaSqm), DuplexZone(site.zone));
    assert score == DUPLEX_BASE + TotalDelta(DuplexRules(site));
    assert notes == NotesOf(DuplexRules(site));
    r := YieldScore(site.id, Duplex, ClampScore(score), Join(notes, " "));
  }

  // ---- Triplex ----

  const TRIPLEX_BASE := 40
  const TRIPLEX_FRONTAGE_STRONG := "Strong frontage for driveway + front dwelling."
  const TRIPLEX_FRONTAGE_NARROW := "Frontage likely too narrow for triplex."
  const TRIPLEX_AREA_GOOD := "Good site area."
  const TRIPLEX_AREA_TIGHT := "Area tight for 3 dwellings."
  const TRIPLEX_DEPTH_GOOD := "Good depth."
  const TRIPLEX_DEPTH_LIMITING := "Depth may be limiting."

  /** Frontage in [15, 16) changes nothing and says nothing. */
  function TriplexFrontage(frontageM: real): Adjustment {
    if frontageM >= 16.0 then Adjustment(30, Some(TRIPLEX_FRONTAGE_STRONG))
    else if frontageM < 15.0 then Adjustment(-30, Some(TRIPLEX_FRONTAGE_NARROW))
    else Adjustment(0, None)
  }

  function TriplexArea(areaSqm: real): Adjustment {
    if areaSqm >= 750.0 then Adjustment(20, Some(TRIPLEX_AREA_GOOD))
    else Adjustment(-20, Some(TRIPLEX_AREA_TIGHT))
  }

  function TriplexDepth(depthM: real): Adjustment {
    if depthM >= 45.0 then Adjustment(10, Some(TRIPLEX_DEPTH_GOOD))
    else Adjustment(0, Some(TRIPLEX_DEPTH_LIMITING))
  }

  function TriplexRules(site: Site): seq<Adjustment> {
    [TriplexFrontage(site.frontageM), TriplexArea(site.areaSqm), TriplexDepth(site.depthM)]
  }

  function TriplexScore(site: Site): YieldScore {
    Rated(site, Triplex, TRIPLEX_BASE, TriplexRules(site))
  }

  method ScoreTriplex(site: Site) returns (r: YieldScore)
    ensures r == TriplexScore(site)
    ensures r.siteId == site.id && r.productType == Triplex && 0 <= r.score <= 100
  {
    var score := 40;
    var notes: seq<string> := [];

    if site.frontageM >= 16.0 {
      score := score + 30;
      notes := notes + [TRIPLEX_FRONTAGE_STRONG];
    } else if site.frontageM < 15.0 {
      score := score - 30;
      notes := notes + [TRIPLEX_FRONTAGE_NARROW];
    }

    if site.areaSqm >= 750.0 {
      score := score + 20;
      notes := notes + [TRIPLEX_AREA_GOOD];
    } else {
      score := score - 20;
      notes := notes + [TRIPLEX_AREA_TIGHT];
    }

    if site.depthM >= 45.0 {
      score := score + 10;
      notes := notes + [TRIPLEX_DEPTH_GOOD];
    } else {
      notes := notes + [TRIPLEX_DEPTH_LIMITING];
    }

    ThreeRules(TriplexFrontage(site.frontageM), TriplexArea(site.areaSqm), TriplexDepth(site.depthM));
    assert score == TRIPLEX_BASE + TotalDelta(TriplexRules(site));
    assert notes == NotesOf(TriplexRules(site));
    r := YieldScore(site.id, Triplex, ClampScore(score), Join(notes, " "));
  }

  // ---- Quadplex ----

  const QUADPLEX_BASE := 30
  const QUADPLEX_FRONTAGE_EXCELLENT := "Excellent frontage/corner for 4 dwellings."
  const QUADPLEX_FRONTAGE_INSUFFICIENT := "Frontage insufficient for quadplex."
  const QUADPLEX_AREA_SUPPORTS := "Area supports density."
  const QUADPLEX_AREA_SMALL := "Area too small."

  /** A corner counts as wide frontage. */
  function QuadplexFrontage(frontageM: real, isCorner: bool): Adjustment {
    if frontageM >= 20.0 || isCorner then Adjustment(40, Some(QUADPLEX_FRONTAGE_EXCELLENT))
    else Adjustment(-40, Some(QUADPLEX_FRONTAGE_INSUFFICIENT))
  }

  function QuadplexArea(areaSqm: real): Adjustment {
    if areaSqm >= 900.0 then Adjustment(30, Some(QUADPLEX_AREA_SUPPORTS))
    else Adjustment(-30, Some(QUADPLEX_AREA_SMALL))
  }

  function QuadplexRules(site: Site): seq<Adjustment> {
    [QuadplexFrontage(site.frontageM, site.isCorner), QuadplexArea(site.areaSqm)]
  }

  function QuadplexScore(site: Site): YieldScore {
    Rated(site, Quadplex, QUADPLEX_BASE, QuadplexRules(site))
  }

  method ScoreQuadplex(site: Site) returns (r: YieldScore)
    ensures r == QuadplexScore(site)
    ensures r.siteId == site.id && r.productType == Quadplex && 0 <= r.score <= 100
  {
    var score := 30;
    var notes: seq<string> := [];

    if site.frontageM >= 20.0 || site.isCorner {
      score := score + 40;
      notes := notes + [QUADPLEX_FRONTAGE_EXCELLENT];
    } else {
      score := score - 40;
      notes := notes + [QUADPLEX_FRONTAGE_INSUFFICIENT];
    }

    if site.areaSqm >= 900.0 {
      score := score + 30;
      notes := notes + [QUADPLEX_AREA_SUPPORTS];
    } else {
      score := score - 30;
      notes := notes + [QUADPLEX_AREA_SMALL];
    }

    TwoRules(QuadplexFrontage(site.frontageM, site.isCorner), QuadplexArea(site.areaSqm));
    r := YieldScore(site.id, Quadplex, ClampScore(score), Join(notes, " "));
  }

  // ---- All three ----

  /** One score per product type, in the order Duplex, Triplex, Quadplex, all for this site. */
  method CalculateYieldScores(site: Site) returns (scores: seq<YieldScore>)
    ensures scores == [DuplexScore(site), TriplexScore(site), QuadplexScore(site)]
    ensures |scores| == 3
    ensures scores[0].productType == Duplex && scores[1].productType == Triplex && scores[2].productType == Quadplex
    ensures forall i :: 0 <= i < |scores| ==> scores[i].siteId == site.id && 0 <= scores[i].score <= 100
  {
    scores := [];
    var duplex := ScoreDuplex(site);
    scores := scores + [duplex];
    var triplex := ScoreTriplex(site);
    scores := scores + [triplex];
    var quadplex := ScoreQuadplex(site);
    scores := scores + [quadplex];
  }

  // ---- Properties of the rule tables ----

  /** Wider frontage never lowers the Duplex score. */
  lemma DuplexMonotoneInFrontage(site: Site, wider: real)
    requires site.frontageM <= wider
    ensures DuplexScore(site).score <= DuplexScore(site.(frontageM := wider)).score
  {
    var other := site.(frontageM := wider);
    ThreeRules(DuplexFrontage(site.frontageM), DuplexArea(site.areaSqm), DuplexZone(site.zone));
    ThreeRules(DuplexFrontage(wider), DuplexArea(site.areaSqm), DuplexZone(site.zone));
    ClampScoreIdempotentAndMonotone(DUPLEX_BASE + TotalDelta(DuplexRules(site)), DUPLEX_BASE + TotalDelta(DuplexRules(other)));
  }

  /** The zone only moves the Duplex score: the rationale never depends on it, and moving to a
      zone containing "GRZ" or "NRZ" from one containing neither raises the raw total by 10. */
  lemma DuplexZoneAddsNoNote(site: Site, zone: string)
    ensures DuplexScore(site.(zone := zone)).notes == DuplexScore(site).notes
    ensures var gains := Contains(zone, "GRZ") || Contains(zone, "NRZ");
            var had := Contains(site.zone, "GRZ") || Contains(site.zone, "NRZ");
            gains && !had ==> TotalDelta(DuplexRules(site.(zone := zone))) == TotalDelta(DuplexRules(site)) + 10
  {
    ThreeRules(DuplexFrontage(site.frontageM), DuplexArea(site.areaSqm), DuplexZone(site.zone));
    ThreeRules(DuplexFrontage(site.frontageM), DuplexArea(site.areaSqm), DuplexZone(zone));
  }

  /** A Duplex rationale has one or two fragments: frontage always, area unless it exceeds 750 m². */
  lemma DuplexNotesCount(site: Site)
    ensures |NotesOf(DuplexRules(site))| == (if site.areaSqm > 750.0 then 1 else 2)
  {
    ThreeRules(DuplexFrontage(site.frontageM), DuplexArea(site.areaSqm), DuplexZone(site.zone));
  }

  /** Wider frontage and greater depth never lower the Triplex score. */
  lemma TriplexMonotone(site: Site, wider: real, deeper: real)
    requires site.frontageM <= wider && site.depthM <= deeper
    ensures TriplexScore(site).score <= TriplexScore(site.(frontageM := wider, depthM := deeper)).score
  {
    var other := site.(frontageM := wider, depthM := deeper);
    ThreeRules(TriplexFrontage(site.frontageM), TriplexArea(site.areaSqm), TriplexDepth(site.depthM));
    ThreeRules(TriplexFrontage(wider), TriplexArea(site.areaSqm), TriplexDepth(deeper));
    ClampScoreIdempotentAndMonotone(TRIPLEX_BASE + TotalDelta(TriplexRules(site)), TRIPLEX_BASE + TotalDelta(TriplexRules(other)));
  }

  /** The area and depth rules always speak, the frontage rule is silent exactly on [15, 16):
      a Triplex rationale has two or three fragments. */
  lemma TriplexNotesCount(site: Site)
    ensures 2 <= |NotesOf(TriplexRules(site))| <= 3
    ensures |NotesOf(TriplexRules(site))| == 2 <==> 15.0 <= site.frontageM < 16.0
  {
    ThreeRules(TriplexFrontage(site.frontageM), TriplexArea(site.areaSqm), TriplexDepth(site.depthM));
  }

  /** The Quadplex raw score is 30 ± 40 ± 30, so after clamping it is one of 100, 40, 20 and 0. */
  lemma QuadplexScoreValues(site: Site)
    ensures QuadplexScore(site).score in {0, 20, 40, 100}
    ensures QuadplexScore(site).score == 100 <==> (site.frontageM >= 20.0 || site.isCorner) && site.areaSqm >= 900.0
    ensures QuadplexScore(site).score == 20 <==> !(site.frontageM >= 20.0 || site.isCorner) && site.areaSqm >= 900.0
    ensures QuadplexScore(site).score == 0 <==> !(site.frontageM >= 20.0 || site.isCorner) && site.areaSqm < 900.0
  {
    TwoRules(QuadplexFrontage(site.frontageM, site.isCorner), QuadplexArea(site.areaSqm));
  }

  /** A corner site gets the frontage bonus whatever its frontage: its score is 40 or 100 and
      does not change with the frontage. */
  lemma QuadplexCornerIgnoresFrontage(site: Site, frontageM: real)
    requires site.isCorner
    ensures QuadplexScore(site.(frontageM := frontageM)) == QuadplexScore(site)
    ensures QuadplexScore(site).score in {40, 100}
  {
    QuadplexScoreValues(site);
  }

  /** Wider frontage, more area and becoming a corner never lower the Quadplex score. */
  lemma QuadplexMonotone(site: Site, wider: real, larger: real, corner: bool)
    requires site.frontageM <= wider && site.areaSqm <= larger && (site.isCorner ==> corner)
    ensures QuadplexScore(site).score <= QuadplexScore(site.(frontageM := wider, areaSqm := larger, isCorner := corner)).score
  {
    QuadplexScoreValues(site);
    QuadplexScoreValues(site.(frontageM := wider, areaSqm := larger, isCorner := corner));
  }

  /** The three examples of the program's tests. */
  lemma TestExamples(base: Site)
    ensures QuadplexScore(base.(areaSqm := 1000.0, frontageM := 25.0, isCorner := true)).score > 80
    ensures QuadplexScore(base.(areaSqm := 500.0, frontageM := 10.0, isCorner := false)).score < 40
    ensures DuplexScore(base.(areaSqm := 650.0, frontageM := 15.0, zone := "GRZ1")).score > 60
  {
    QuadplexScoreValues(base.(areaSqm := 1000.0, frontageM := 25.0, isCorner := true));
    QuadplexScoreValues(base.(areaSqm := 500.0, frontageM := 10.0, isCorner := false));
    var standard := base.(areaSqm := 650.0, frontageM := 15.0, zone := "GRZ1");
    assert IsPrefix("GRZ", "GRZ1");
    ThreeRules(DuplexFrontage(15.0), DuplexArea(650.0), DuplexZone("GRZ1"));
  }
}
