/** src/scrapers/tech_knowledge_scraper.rs: how the tech knowledge base voices an opinion. It covers
  * the confidence labels of `format_confidence`, the sponsorship test of
  * `SponsorshipTracker::check_sponsorship`, and `express_opinion` with the `format_opinion` and
  * `get_factor_explanation` it relies on. Scores are `f32`; they are reals here, and each threshold
  * is the `f32` value the source's literal denotes. */
module TechKnowledgeScraper {
  import opened Wrappers
  import opened Strings
  import opened Collections

  datatype FactorType =
    TechnicalMerit | UserExperience | ValueProposition | Innovation | Reliability | Practicality | SecurityImplications

  datatype OpinionFactor = OpinionFactor(
    factorType: FactorType,
    weight: real,
    evidence: seq<string>,
    sourceReliability: real)

  datatype FormedOpinion = FormedOpinion(
    productName: string,
    opinionBasis: seq<OpinionFactor>,
    confidenceScore: real,
    keyPoints: seq<string>,
    lastUpdated: int,
    isSponsored: bool)

  datatype SponsorshipDetails = SponsorshipDetails(
    sponsor: string,
    startDate: int,
    endDate: Option<int>,
    terms: seq<string>,
    disclosureText: string)

  // ---------------------------------------------------------------- confidence labels

  /** `0.9_f32`, `0.7_f32`, `0.5_f32` and `0.3_f32`, exactly. */
  const VeryHighConfidence: real := 0.89999997615814208984375
  const HighConfidence: real := 0.699999988079071044921875
  const ModerateConfidence: real := 0.5
  const DevelopingConfidence: real := 0.300000011920928955078125

  /** The labels from the lowest level to the highest. */
  const ConfidenceLabels: seq<string> := ["preliminary", "developing", "moderate", "high", "very high"]

  /** The level of a score: the number of thresholds it reaches. */
  function ConfidenceLevel(score: real): (level: nat)
    ensures level < |ConfidenceLabels|
    ensures level == 4 <==> VeryHighConfidence <= score
    ensures level == 3 <==> HighConfidence <= score < VeryHighConfidence
    ensures level == 2 <==> ModerateConfidence <= score < HighConfidence
    ensures level == 1 <==> DevelopingConfidence <= score < ModerateConfidence
    ensures level == 0 <==> score < DevelopingConfidence
  {
    if score >= VeryHighConfidence then 4
    else if score >= HighConfidence then 3
    else if score >= ModerateConfidence then 2
    else if score >= DevelopingConfidence then 1
    else 0
  }

  /** `format_confidence`: the label of the highest threshold the score reaches. */
  function FormatConfidence(score: real): (name: string)
    ensures VeryHighConfidence <= score ==> name == "very high"
    ensures HighConfidence <= score < VeryHighConfidence ==> name == "high"
    ensures ModerateConfidence <= score < HighConfidence ==> name == "moderate"
    ensures DevelopingConfidence <= score < ModerateConfidence ==> name == "developing"
    ensures score < DevelopingConfidence ==> name == "preliminary"
  {
    ConfidenceLabels[ConfidenceLevel(score)]
  }

  /** A higher score never gets a lower label. */
  lemma ConfidenceMonotone(a: real, b: real)
    requires a <= b
    ensures ConfidenceLevel(a) <= ConfidenceLevel(b)
  {
  }

  /** Each label names one level, so the label tells the level. */
  lemma LabelsDistinct(a: real, b: real)
    ensures FormatConfidence(a) == FormatConfidence(b) <==> ConfidenceLevel(a) == ConfidenceLevel(b)
  {
    var i, j := ConfidenceLevel(a), ConfidenceLevel(b);
    if i != j {
      assert ConfidenceLabels[i] != ConfidenceLabels[j] by {
        assert ConfidenceLabels[i][0] != ConfidenceLabels[j][0] || |ConfidenceLabels[i]| != |ConfidenceLabels[j]|;
      }
    }
  }

  // ---------------------------------------------------------------- sponsorship

  /** A topic is sponsored when its lowercase form contains the lowercase name of an actively
    * sponsored product. */
  ghost predicate Sponsored(active: map<string, SponsorshipDetails>, topic: string) {
    exists product :: product in active && Contains(Lower(topic), Lower(product))
  }

  /** `check_sponsorship`: the active sponsorships are visited in the map's iteration order `order`,
    * stopping at the first product the topic names. It never fails. */
  method CheckSponsorship(active: map<string, SponsorshipDetails>, topic: string, order: seq<string>)
    returns (r: Result<bool>)
    requires VisitOrder(order, active)
    ensures r.Ok? && (r.value <==> Sponsored(active, topic))
  {
    for k := 0 to |order|
      invariant forall j :: 0 <= j < k ==> !Contains(Lower(topic), Lower(order[j]))
    {
      if Contains(Lower(topic), Lower(order[k])) {
        return Ok(true);
      }
    }
    return Ok(false);
  }

  /** Only the letters of the topic matter, not their case. */
  lemma SponsorshipIgnoresCase(active: map<string, SponsorshipDetails>, topic: string)
    ensures Sponsored(active, topic) <==> Sponsored(active, Lower(topic))
  {
    LowerIdempotent(topic);
  }

  /** With no active sponsorship no topic is sponsored. */
  lemma NothingSponsoredWithoutSponsorships(topic: string)
    ensures !Sponsored(map[], topic)
  {
  }

  // ---------------------------------------------------------------- formatting an opinion

  /** `get_factor_explanation`. */
  function FactorExplanation(f: FactorType): string {
    match f
    case TechnicalMerit => "from a technical perspective"
    case UserExperience => "considering user experience"
    case ValueProposition => "analyzing value for money"
    case Innovation => "looking at innovation"
    case Reliability => "considering reliability"
    case Practicality => "from a practical standpoint"
    case SecurityImplications => "considering security implications"
  }

  /** The `find` in `format_opinion`: the index of the first factor, from `i` on, whose evidence
    * lists the point. */
  function FindFactor(basis: seq<OpinionFactor>, point: string, i: nat): (r: Option<nat>)
    requires i <= |basis|
    ensures r.Some? ==> i <= r.value < |basis| && point in basis[r.value].evidence
    ensures r.Some? ==> forall j :: i <= j < r.value ==> point !in basis[j].evidence
    ensures r.None? ==> forall j :: i <= j < |basis| ==> point !in basis[j].evidence
    decreases |basis| - i
  {
    if i == |basis| then None
    else if point in basis[i].evidence then Some(i)
    else FindFactor(basis, point, i + 1)
  }

  /** The line written for a key point backed by factor `f`. */
  function PointLine(point: string, f: OpinionFactor): string {
    "\n- " + point + ": " + FactorExplanation(f.factorType) + " (based on " + Join(f.evidence, ", ") + ")"
  }

  /** What a key point contributes: its line when some factor backs it, nothing otherwise. */
  function LineFor(point: string, basis: seq<OpinionFactor>): string {
    match FindFactor(basis, point, 0)
    case Some(i) => PointLine(point, basis[i])
    case None => ""
  }

  /** The text `format_opinion` builds from the first key points. */
  function OpinionText(points: seq<string>, basis: seq<OpinionFactor>): string {
    if points == [] then ""
    else OpinionText(points[..|points| - 1], basis) + LineFor(points[|points| - 1], basis)
  }

  /** One more key point adds its line. */
  lemma OpinionTextStep(points: seq<string>, basis: seq<OpinionFactor>, k: nat)
    requires k < |points|
    ensures OpinionText(points[..k + 1], basis) == OpinionText(points[..k], basis) + LineFor(points[k], basis)
  {
    assert points[..k + 1][..k] == points[..k];
  }

  /** `format_opinion`: a line per backed key point, in order. */
  method FormatOpinion(opinion: FormedOpinion) returns (formatted: string)
    ensures formatted == OpinionText(opinion.keyPoints, opinion.opinionBasis)
  {
    var points := opinion.keyPoints;
    formatted := "";
    for k := 0 to |points|
      invariant formatted == OpinionText(points[..k], opinion.opinionBasis)
    {
      var found := FindFactor(opinion.opinionBasis, points[k], 0);
      if found.Some? {
        formatted := formatted + PointLine(points[k], opinion.opinionBasis[found.value]);
      }
      OpinionTextStep(points, opinion.opinionBasis, k);
    }
    assert points[..|points|] == points;
  }

  /** Every backed key point has its line, naming the first factor that backs it. */
  lemma {:induction false} BackedPointListed(points: seq<string>, basis: seq<OpinionFactor>, k: nat, i: nat)
    requires k < |points| && FindFactor(basis, points[k], 0) == Some(i)
    ensures Contains(OpinionText(points, basis), PointLine(points[k], basis[i]))
  {
    var n := |points| - 1;
    var front := OpinionText(points[..n], basis);
    var line := PointLine(points[k], basis[i]);
    if k == n {
      ContainsPrefix(line, line);
    } else {
      BackedPointListed(points[..n], basis, k, i);
    }
    ContainsConcat(front, LineFor(points[n], basis), line);
  }

  /** When no key point is backed by a factor, the text is empty. */
  lemma {:induction false} UnbackedPointsSilent(points: seq<string>, basis: seq<OpinionFactor>)
    requires forall k :: 0 <= k < |points| ==> FindFactor(basis, points[k], 0).None?
    ensures OpinionText(points, basis) == ""
  {
    if points != [] {
      UnbackedPointsSilent(points[..|points| - 1], basis);
    }
  }

  /** A text holding a point's line names the point. */
  lemma ContainsLine(s: string, point: string, f: OpinionFactor)
    requires Contains(s, PointLine(point, f))
    ensures Contains(s, point)
  {
    var line := PointLine(point, f);
    assert |line| >= 3 + |point| && line[3..3 + |point|] == point;
    ContainsAt(line, point, 3);
    ContainsTransitive(s, line, point);
  }

  // ---------------------------------------------------------------- expressing an opinion

  const SponsoredPrefix: string := "Sponsored Opinion on "
  const SponsoredNote: string := ". [This is a sponsored opinion]"
  const GenuinePrefix: string := "My thoughts on "
  const ConfidenceSuffix: string := " confidence level."

  /** What `express_opinion` says about `topic`, given the formatted opinion on it. */
  function Expressed(opinions: map<string, FormedOpinion>, topic: string): (s: string)
    ensures topic !in opinions ==> s == "I haven't formed a complete opinion on " + topic + " yet."
    ensures topic in opinions && opinions[topic].isSponsored ==>
      StartsWith(s, SponsoredPrefix + topic) && EndsWith(s, SponsoredNote)
    ensures topic in opinions && !opinions[topic].isSponsored ==>
      StartsWith(s, GenuinePrefix + topic)
      && EndsWith(s, FormatConfidence(opinions[topic].confidenceScore) + ConfidenceSuffix)
  {
    if topic in opinions then
      var o := opinions[topic];
      var text := OpinionText(o.keyPoints, o.opinionBasis);
      if o.isSponsored then
        var s := SponsoredPrefix + topic + ": " + text + SponsoredNote;
        StartsWithExtended(SponsoredPrefix + topic, ": ", SponsoredPrefix + topic);
        StartsWithExtended(SponsoredPrefix + topic + ": ", text, SponsoredPrefix + topic);
        StartsWithExtended(SponsoredPrefix + topic + ": " + text, SponsoredNote, SponsoredPrefix + topic);
        ConcatAffixes(SponsoredPrefix + topic + ": " + text, SponsoredNote);
        s
      else
        var tail := FormatConfidence(o.confidenceScore) + ConfidenceSuffix;
        var front := GenuinePrefix + topic + ": " + text + ". Based on technical analysis and ";
        StartsWithExtended(GenuinePrefix + topic, ": ", GenuinePrefix + topic);
        StartsWithExtended(GenuinePrefix + topic + ": ", text, GenuinePrefix + topic);
        StartsWithExtended(GenuinePrefix + topic + ": " + text, ". Based on technical analysis and ", GenuinePrefix + topic);
        StartsWithExtended(front, tail, GenuinePrefix + topic);
        ConcatAffixes(front, tail);
        front + tail
    else
      "I haven't formed a complete opinion on " + topic + " yet."
  }

  /** `express_opinion`: it never fails; a known topic is formatted with `format_opinion`. */
  method ExpressOpinion(opinions: map<string, FormedOpinion>, topic: string) returns (r: Result<string>)
    ensures r == Ok(Expressed(opinions, topic))
  {
    if topic in opinions {
      var opinion := opinions[topic];
      var formatted := FormatOpinion(opinion);
      if opinion.isSponsored {
        return Ok(SponsoredPrefix + topic + ": " + formatted + SponsoredNote);
      }
      var confidence := FormatConfidence(opinion.confidenceScore);
      return Ok(GenuinePrefix + topic + ": " + formatted + ". Based on technical analysis and "
                + (confidence + ConfidenceSuffix));
    } else {
      return Ok("I haven't formed a complete opinion on " + topic + " yet.");
    }
  }
}
