/** The static table of council risk profiles and its case-insensitive lookup
    (src/lib/domain/councilProfiles.ts). */
module CouncilProfiles {
  import opened Types
  import opened Strings

  /** The nine councils, in the program's order. */
  const COUNCIL_PROFILES: seq<CouncilProfile> := [
    CouncilProfile("Monash", Facilitator, "Generally growth-focused. Good for townhouses in GRZ."),
    CouncilProfile("Kingston", Facilitator, "Supportive of development near transport hubs."),
    CouncilProfile("Manningham", Facilitator, "Accepting of density, but watch for steep topography overlays."),
    CouncilProfile("Darebin", Facilitator, "Pro-development but very strict on ESD and accessibility."),
    CouncilProfile("Merri-bek", Facilitator, "Formerly Moreland. High density support, strict ESD."),
    CouncilProfile("Bayside", Protector, "High scrutiny. Neighbourhood character is paramount. Expect objections."),
    CouncilProfile("Boroondara", Protector, "Very protective of heritage and character. Difficult for aggressive density."),
    CouncilProfile("Stonnington", Protector, "High land values, high scrutiny on design quality and setbacks."),
    CouncilProfile("Glen Eira", Neutral, "Balanced approach. Strict on transition zones.")
  ]

  /** The lookup's predicate: council names equal after lower-casing both. */
  predicate Matches(profile: CouncilProfile, councilName: string) {
    ToLower(profile.council) == ToLower(councilName)
  }

  /** `Array.prototype.find` over `profiles` with Matches: the index of the first match, if any. */
  function FindIndex(profiles: seq<CouncilProfile>, councilName: string): (r: Option<nat>)
    ensures r.Some? ==> r.value < |profiles| && Matches(profiles[r.value], councilName)
    ensures r.Some? ==> forall j :: 0 <= j < r.value ==> !Matches(profiles[j], councilName)
    ensures r.None? <==> forall j :: 0 <= j < |profiles| ==> !Matches(profiles[j], councilName)
    decreases |profiles|
  {
    if |profiles| == 0 then None
    else if Matches(profiles[0], councilName) then Some(0)
    else match FindIndex(profiles[1..], councilName)
      case None => None
      case Some(i) => Some(i + 1)
  }

  /** The profile of the first table entry whose name equals `councilName` ignoring case, or None. */
  function GetCouncilProfile(councilName: string): (r: Option<CouncilProfile>)
    ensures r.Some? ==> r.value in COUNCIL_PROFILES && ToLower(r.value.council) == ToLower(councilName)
    ensures r.None? <==> forall j :: 0 <= j < |COUNCIL_PROFILES| ==> !Matches(COUNCIL_PROFILES[j], councilName)
    ensures r.Some? ==> exists i :: 0 <= i < |COUNCIL_PROFILES| && COUNCIL_PROFILES[i] == r.value
                                   && forall j :: 0 <= j < i ==> !Matches(COUNCIL_PROFILES[j], councilName)
  {
    match FindIndex(COUNCIL_PROFILES, councilName)
    case None => None
    case Some(i) => Some(COUNCIL_PROFILES[i])
  }

  /** No two table names are equal once lower-cased. */
  lemma CouncilNamesDistinct()
    ensures forall i, j :: 0 <= i < j < |COUNCIL_PROFILES| ==>
              ToLower(COUNCIL_PROFILES[i].council) != ToLower(COUNCIL_PROFILES[j].council)
  {
    forall i, j | 0 <= i < j < |COUNCIL_PROFILES|
      ensures ToLower(COUNCIL_PROFILES[i].council) != ToLower(COUNCIL_PROFILES[j].council)
    {
      LowerDiffers(COUNCIL_PROFILES[i].council, COUNCIL_PROFILES[j].council);
    }
  }

  /** Hence a name matches at most one entry of the table. */
  lemma AtMostOneMatch(councilName: string, i: int, j: int)
    requires 0 <= i < |COUNCIL_PROFILES| && 0 <= j < |COUNCIL_PROFILES|
    requires Matches(COUNCIL_PROFILES[i], councilName) && Matches(COUNCIL_PROFILES[j], councilName)
    ensures i == j
  {
    CouncilNamesDistinct();
  }

  /** A name finds the entry it matches. */
  lemma LookupFindsMatch(councilName: string, i: int)
    requires 0 <= i < |COUNCIL_PROFILES| && Matches(COUNCIL_PROFILES[i], councilName)
    ensures GetCouncilProfile(councilName) == Some(COUNCIL_PROFILES[i])
  {
    var r := GetCouncilProfile(councilName);
    assert COUNCIL_PROFILES[i] in COUNCIL_PROFILES;
    var k :| 0 <= k < |COUNCIL_PROFILES| && COUNCIL_PROFILES[k] == r.value;
    AtMostOneMatch(councilName, i, k);
  }

  /** Names that differ only in ASCII letter case look up the same profile. */
  lemma LookupIgnoresCase(a: string, b: string)
    requires ToLower(a) == ToLower(b)
    ensures GetCouncilProfile(a) == GetCouncilProfile(b)
  {
  }

  /** In particular a name and its lower-cased form look up the same profile. */
  lemma LookupOfLowered(councilName: string)
    ensures GetCouncilProfile(ToLower(councilName)) == GetCouncilProfile(councilName)
  {
    ToLowerIdempotent(councilName);
    LookupIgnoresCase(ToLower(councilName), councilName);
  }

  /** Any spelling of Bayside finds a Protector council. */
  lemma BaysideIsProtector(councilName: string)
    requires ToLower(councilName) == "bayside"
    ensures GetCouncilProfile(councilName).Some?
    ensures GetCouncilProfile(councilName).value.category == Protector
  {
    SameLetters(COUNCIL_PROFILES[5].council, "bayside");
    LookupFindsMatch(councilName, 5);
  }

  /** Any spelling of Glen Eira finds a Neutral council. */
  lemma GlenEiraIsNeutral(councilName: string)
    requires ToLower(councilName) == "glen eira"
    ensures GetCouncilProfile(councilName).Some?
    ensures GetCouncilProfile(councilName).value.category == Neutral
  {
    SameLetters(COUNCIL_PROFILES[8].council, "glen eira");
    LookupFindsMatch(councilName, 8);
  }

  /** Any spelling of Monash finds a Facilitator council. */
  lemma MonashIsFacilitator(councilName: string)
    requires ToLower(councilName) == "monash"
    ensures GetCouncilProfile(councilName).Some?
    ensures GetCouncilProfile(councilName).value.category == Facilitator
  {
    SameLetters(COUNCIL_PROFILES[0].council, "monash");
    LookupFindsMatch(councilName, 0);
  }

  /** A council outside the table, however spelt, finds nothing. */
  lemma UnknownCouncil(councilName: string)
    requires ToLower(councilName) == "melbourne"
    ensures GetCouncilProfile(councilName) == None
  {
    forall i | 0 <= i < |COUNCIL_PROFILES| ensures !Matches(COUNCIL_PROFILES[i], councilName) {
      MelbourneMatchesNoEntry(councilName, i);
    }
  }

  /** No single entry of the table is a spelling of Melbourne. */
  lemma MelbourneMatchesNoEntry(councilName: string, i: int)
    requires ToLower(councilName) == "melbourne"
    requires 0 <= i < |COUNCIL_PROFILES|
    ensures !Matches(COUNCIL_PROFILES[i], councilName)
  {
    var lowered := ToLower(COUNCIL_PROFILES[i].council);
    if i == 4 {
      assert lowered[2] == 'r';
    } else if i == 8 {
      assert lowered[0] == 'g';
    } else {
      assert |lowered| != 9;
    }
  }
}
