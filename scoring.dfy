/** The investor scoring engine (apps/api/src/lib/scoring.ts): seven
    sub-scores, a weighted total rounded to an integer, and a tier.

    Every constant of the engine is an integer, so the weighted total is
    computed exactly on integers, with the weights in percent; check sizes and
    deal amounts are exact reals. */
module Scoring {
  import opened Text

  // ─── Types ─────────────────────────────────────────────────────

  datatype AccreditedStatus = ThirdPartyVerified | Institutional | SelfCertified | Unverified | NotAccredited

  datatype HospitalityExp = Developer | Operator | ActiveLp | PassiveLp | NoExperience

  datatype Tier = APlus | A | B | C | D

  /** A snapshot of one investor, the deal, 30 days of engagement and the
      urgency signals. A missing check-size bound or deadline is `None`. */
  datatype ScoreInput = ScoreInput(
    accreditedStatus: AccreditedStatus,
    checkSizeMin: Option<real>,
    checkSizeMax: Option<real>,
    dealMinimum: real,
    dealTarget: real,
    assetClassPrefs: seq<string>,
    priorHotelInvestments: int,
    hospitalityExperience: HospitalityExp,
    emailOpens30d: int,
    emailClicks30d: int,
    emailReplies30d: int,
    voiceCallsCompleted30d: int,
    websiteVisits30d: int,
    docDownloads30d: int,
    isPriorInvestor: bool,
    isReferral: bool,
    has1031Exchange: bool,
    deploymentDeadlineDays: Option<int>)

  datatype ScoreBreakdown = ScoreBreakdown(
    total: int,
    accreditation: int,
    checkSizeFit: int,
    assetAlignment: int,
    engagement: int,
    behavioral: int,
    relationship: int,
    urgency: int,
    tier: Tier)

  /** The engagement and behavioural counters are counts, hence never negative. */
  predicate NonNegativeCounts(input: ScoreInput) {
    input.emailOpens30d >= 0 && input.emailClicks30d >= 0 && input.emailReplies30d >= 0 &&
    input.voiceCallsCompleted30d >= 0 && input.websiteVisits30d >= 0 && input.docDownloads30d >= 0
  }

  // ─── Weights, in percent ───────────────────────────────────────

  const ACCREDITATION_WEIGHT := 20
  const CHECK_SIZE_FIT_WEIGHT := 25
  const ASSET_ALIGNMENT_WEIGHT := 15
  const ENGAGEMENT_WEIGHT := 15
  const BEHAVIORAL_WEIGHT := 10
  const RELATIONSHIP_WEIGHT := 10
  const URGENCY_WEIGHT := 5

  // ─── Sub-scorers ───────────────────────────────────────────────

  function Min(a: int, b: int): int {
    if a <= b then a else b
  }

  /** Verified and institutional investors score full marks, non-accredited ones nothing. */
  function ScoreAccreditation(status: AccreditedStatus): (score: int)
    ensures 0 <= score <= 100
    ensures score == 100 <==> status == ThirdPartyVerified || status == Institutional
    ensures score == 70 <==> status == SelfCertified
    ensures score == 30 <==> status == Unverified
    ensures score == 0 <==> status == NotAccredited
  {
    match status
    case ThirdPartyVerified => 100
    case Institutional => 100
    case SelfCertified => 70
    case Unverified => 30
    case NotAccredited => 0
  }

  /** A nullable number is falsy when it is null or zero. */
  predicate Truthy(x: Option<real>) {
    x.Some? && x.value != 0.0
  }

  /** `x || fallback` for a nullable number. */
  function OrElse(x: Option<real>, fallback: real): real {
    if Truthy(x) then x.value else fallback
  }

  /** The midpoint of the investor's check size: the average of two given
      bounds; a lone minimum stands for itself, but a lone maximum is
      averaged with zero. */
  function CheckSizeMid(checkMin: Option<real>, checkMax: Option<real>): (mid: real)
    ensures Truthy(checkMin) && Truthy(checkMax) ==> mid == (checkMin.value + checkMax.value) / 2.0
    ensures Truthy(checkMin) && !Truthy(checkMax) ==> mid == checkMin.value
    ensures !Truthy(checkMin) && Truthy(checkMax) ==> mid == checkMax.value / 2.0
  {
    (OrElse(checkMin, 0.0) + OrElse(checkMax, OrElse(checkMin, 0.0))) / 2.0
  }

  /** The fit of a known midpoint: the first threshold it reaches among the
      target allocation, twice the deal minimum, the minimum and half of it. */
  function FitForMid(mid: real, dealMin: real, dealTarget: real): (score: int)
    ensures score == 100 || score == 85 || score == 65 || score == 35 || score == 10
    ensures score == 100 <==> mid >= dealTarget
    ensures score == 85 <==> mid < dealTarget && mid >= dealMin * 2.0
    ensures score == 65 <==> mid < dealTarget && mid < dealMin * 2.0 && mid >= dealMin
    ensures score == 35 <==> mid < dealTarget && mid < dealMin * 2.0 && mid < dealMin && mid >= dealMin * 0.5
    ensures score == 10 <==> mid < dealTarget && mid < dealMin * 2.0 && mid < dealMin && mid < dealMin * 0.5
  {
    if mid >= dealTarget then 100
    else if mid >= dealMin * 2.0 then 85
    else if mid >= dealMin then 65
    else if mid >= dealMin * 0.5 then 35
    else 10
  }

  /** Unknown check sizes score 20, a score no known check size can get. */
  function ScoreCheckSizeFit(checkMin: Option<real>, checkMax: Option<real>, dealMin: real, dealTarget: real): (score: int)
    ensures 10 <= score <= 100
    ensures score == 20 <==> !Truthy(checkMin) && !Truthy(checkMax)
    ensures Truthy(checkMin) || Truthy(checkMax) ==>
      score == FitForMid(CheckSizeMid(checkMin, checkMax), dealMin, dealTarget)
  {
    if !Truthy(checkMin) && !Truthy(checkMax) then 20
    else FitForMid(CheckSizeMid(checkMin, checkMax), dealMin, dealTarget)
  }

  /** Whether some preference mentions hotels or hospitality, in any letter case. */
  predicate HasHotelPreference(prefs: seq<string>): (has: bool)
    ensures has ==> |prefs| > 0
  {
    exists p :: p in prefs && (Includes(Lower(p), "hotel") || Includes(Lower(p), "hospitality"))
  }

  /** Letter case never matters: preferences that agree once lower-cased
      agree on whether they name hotels. */
  lemma HotelPreferenceIgnoresCase(prefs1: seq<string>, prefs2: seq<string>)
    requires |prefs1| == |prefs2|
    requires forall i :: 0 <= i < |prefs1| ==> Lower(prefs1[i]) == Lower(prefs2[i])
    ensures HasHotelPreference(prefs1) <==> HasHotelPreference(prefs2)
  {
    if HasHotelPreference(prefs1) {
      var p :| p in prefs1 && (Includes(Lower(p), "hotel") || Includes(Lower(p), "hospitality"));
      var i :| 0 <= i < |prefs1| && prefs1[i] == p;
      assert prefs2[i] in prefs2;
    }
    if HasHotelPreference(prefs2) {
      var p :| p in prefs2 && (Includes(Lower(p), "hotel") || Includes(Lower(p), "hospitality"));
      var i :| 0 <= i < |prefs2| && prefs2[i] == p;
      assert prefs1[i] in prefs1;
    }
  }

  /** 40 for a hotel preference, 15 for no preference at all, 5 otherwise. */
  function PreferencePoints(prefs: seq<string>): (points: int)
    ensures points == 40 <==> HasHotelPreference(prefs)
    ensures points == 15 <==> |prefs| == 0
    ensures points == 5 || points == 15 || points == 40
  {
    if HasHotelPreference(prefs) then 40
    else if |prefs| == 0 then 15
    else 5
  }

  /** 0 to 30 points, at the thresholds of 1, 2 and 5 prior hotel deals. */
  function PriorDealPoints(priorHotel: int): (points: int)
    ensures 0 <= points <= 30
    ensures points == 0 <==> priorHotel < 1
    ensures points == 15 <==> priorHotel == 1
    ensures points == 25 <==> 2 <= priorHotel < 5
    ensures points == 30 <==> priorHotel >= 5
  {
    if priorHotel >= 5 then 30
    else if priorHotel >= 2 then 25
    else if priorHotel >= 1 then 15
    else 0
  }

  /** 5 to 30 points: the most for developers, the least without experience. */
  function ExperiencePoints(experience: HospitalityExp): (points: int)
    ensures 5 <= points <= 30
    ensures points == 30 <==> experience == Developer
    ensures points == 28 <==> experience == Operator
    ensures points == 25 <==> experience == ActiveLp
    ensures points == 20 <==> experience == PassiveLp
    ensures points == 5 <==> experience == NoExperience
  {
    match experience
    case Developer => 30
    case Operator => 28
    case ActiveLp => 25
    case PassiveLp => 20
    case NoExperience => 5
  }

  /** The three parts add up to at most 100, so the cap never changes the
      sum; the full 100 needs a hotel preference, five prior deals and a
      developer background. */
  function ScoreAssetAlignment(prefs: seq<string>, priorHotel: int, experience: HospitalityExp): (score: int)
    ensures 10 <= score <= 100
    ensures score == PreferencePoints(prefs) + PriorDealPoints(priorHotel) + ExperiencePoints(experience)
    ensures score == 100 <==> HasHotelPreference(prefs) && priorHotel >= 5 && experience == Developer
  {
    Min(PreferencePoints(prefs) + PriorDealPoints(priorHotel) + ExperiencePoints(experience), 100)
  }

  /** Replies, clicks, opens and calls, each term capped before summing; the
      caps add up to 100, so for counts the overall cap never binds. */
  function ScoreEngagement(input: ScoreInput): (score: int)
    ensures score <= 100
    ensures NonNegativeCounts(input) ==>
      score == Min(input.emailReplies30d * 30, 40) + Min(input.emailClicks30d * 10, 25)
        + Min(input.emailOpens30d * 3, 15) + Min(input.voiceCallsCompleted30d * 15, 20)
    ensures NonNegativeCounts(input) ==> 0 <= score
    ensures (input.emailReplies30d == 0 && input.emailClicks30d == 0 &&
             input.emailOpens30d == 0 && input.voiceCallsCompleted30d == 0) ==> score == 0
  {
    var score := Min(input.emailReplies30d * 30, 40)
      + Min(input.emailClicks30d * 10, 25)
      + Min(input.emailOpens30d * 3, 15)
      + Min(input.voiceCallsCompleted30d * 15, 20);
    Min(score, 100)
  }

  /** Website visits and document downloads, each term capped; the caps add
      up to 100, so for counts the overall cap never binds. */
  function ScoreBehavioral(input: ScoreInput): (score: int)
    ensures score <= 100
    ensures NonNegativeCounts(input) ==>
      score == Min(input.websiteVisits30d * 8, 40) + Min(input.docDownloads30d * 20, 60)
    ensures NonNegativeCounts(input) ==> 0 <= score
    ensures input.websiteVisits30d == 0 && input.docDownloads30d == 0 ==> score == 0
  {
    var score := Min(input.websiteVisits30d * 8, 40) + Min(input.docDownloads30d * 20, 60);
    Min(score, 100)
  }

  /** A prior investor scores at least 90, a referral at least 75, anyone else 15. */
  function ScoreRelationship(isPrior: bool, isReferral: bool): (score: int)
    ensures 15 <= score <= 100
    ensures score == 100 <==> isPrior && isReferral
    ensures isPrior ==> score >= 90
    ensures score >= 75 <==> isPrior || isReferral
    ensures isPrior && !isReferral ==> score == 90
    ensures !isPrior && isReferral ==> score == 75
    ensures score == 15 <==> !isPrior && !isReferral
  {
    if isPrior && isReferral then 100
    else if isPrior then 90
    else if isReferral then 75
    else 15
  }

  /** The bonus for a deployment deadline; none without a deadline or for a
      deadline beyond 180 days, the full 40 within 30 days. */
  function DeadlineBonus(deadlineDays: Option<int>): (bonus: int)
    ensures 0 <= bonus <= 40
    ensures bonus == 40 <==> deadlineDays.Some? && deadlineDays.value <= 30
    ensures bonus == 25 <==> deadlineDays.Some? && 30 < deadlineDays.value <= 90
    ensures bonus == 10 <==> deadlineDays.Some? && 90 < deadlineDays.value <= 180
    ensures bonus == 0 <==> deadlineDays.None? || deadlineDays.value > 180
  {
    match deadlineDays
    case None => 0
    case Some(days) =>
      if days <= 30 then 40
      else if days <= 90 then 25
      else if days <= 180 then 10
      else 0
  }

  /** A 1031 exchange and a near deadline; the two together reach exactly 100. */
  function ScoreUrgency(has1031: bool, deadlineDays: Option<int>): (score: int)
    ensures 0 <= score <= 100
    ensures score == 100 <==> has1031 && deadlineDays.Some? && deadlineDays.value <= 30
    ensures deadlineDays.None? ==> score == (if has1031 then 60 else 0)
    ensures score == (if has1031 then 60 else 0) + DeadlineBonus(deadlineDays)
  {
    var score := (if has1031 then 60 else 0) + DeadlineBonus(deadlineDays);
    Min(score, 100)
  }

  /** The tier of a total, as the interval it falls in. */
  function GetTier(score: int): (tier: Tier)
    ensures tier == APlus <==> score >= 85
    ensures tier == A <==> 70 <= score < 85
    ensures tier == B <==> 50 <= score < 70
    ensures tier == C <==> 30 <= score < 50
    ensures tier == D <==> score < 30
  {
    if score >= 85 then APlus
    else if score >= 70 then A
    else if score >= 50 then B
    else if score >= 30 then C
    else D
  }

  // ─── Total ─────────────────────────────────────────────────────

  /** `Math.round`: the nearest integer, halves rounded up. */
  function RoundHalfUp(x: real): (n: int)
    ensures x - 0.5 < n as real <= x + 0.5
  {
    (x + 0.5).Floor
  }

  /** The weighted sum with the weights as fractions, as the source writes it. */
  function WeightedSum(acc: int, fit: int, align: int, engage: int, behave: int, relate: int, urgent: int): (sum: real)
    ensures (0 <= acc <= 100 && 0 <= fit <= 100 && 0 <= align <= 100 && 0 <= engage <= 100 &&
             0 <= behave <= 100 && 0 <= relate <= 100 && 0 <= urgent <= 100) ==> 0.0 <= sum <= 100.0
  {
    acc as real * 0.20 + fit as real * 0.25 + align as real * 0.15 + engage as real * 0.15
    + behave as real * 0.10 + relate as real * 0.10 + urgent as real * 0.05
  }

  /** The weighted total, computed on integers: the sum of the sub-scores
      weighted in percent, plus 50, divided by 100. */
  function WeightedTotal(acc: int, fit: int, align: int, engage: int, behave: int, relate: int, urgent: int): (total: int)
    ensures total == RoundHalfUp(WeightedSum(acc, fit, align, engage, behave, relate, urgent))
    ensures (0 <= acc <= 100 && 0 <= fit <= 100 && 0 <= align <= 100 && 0 <= engage <= 100 &&
             0 <= behave <= 100 && 0 <= relate <= 100 && 0 <= urgent <= 100) ==> 0 <= total <= 100
  {
    var scaled := ACCREDITATION_WEIGHT * acc + CHECK_SIZE_FIT_WEIGHT * fit + ASSET_ALIGNMENT_WEIGHT * align
      + ENGAGEMENT_WEIGHT * engage + BEHAVIORAL_WEIGHT * behave + RELATIONSHIP_WEIGHT * relate
      + URGENCY_WEIGHT * urgent;
    assert WeightedSum(acc, fit, align, engage, behave, relate, urgent) == scaled as real / 100.0;
    RoundedHundredths(scaled);
    (scaled + 50) / 100
  }

  /** Rounding `scaled / 100` half up is adding 50 and dividing by 100. */
  lemma RoundedHundredths(scaled: int)
    ensures RoundHalfUp(scaled as real / 100.0) == (scaled + 50) / 100
  {
    var q := (scaled + 50) / 100;
    var r := (scaled + 50) % 100;
    assert scaled + 50 == 100 * q + r && 0 <= r < 100;
    var x := scaled as real / 100.0 + 0.5;
    assert x == q as real + r as real / 100.0;
    assert q as real <= x < q as real + 1.0;
  }

  /** Scores one investor: the seven sub-scores, the rounded weighted total
      and its tier. */
  function CalculateInvestorScore(input: ScoreInput): (b: ScoreBreakdown)
    ensures b.accreditation == ScoreAccreditation(input.accreditedStatus)
    ensures b.checkSizeFit == ScoreCheckSizeFit(input.checkSizeMin, input.checkSizeMax, input.dealMinimum, input.dealTarget)
    ensures b.assetAlignment == ScoreAssetAlignment(input.assetClassPrefs, input.priorHotelInvestments, input.hospitalityExperience)
    ensures b.engagement == ScoreEngagement(input) && b.behavioral == ScoreBehavioral(input)
    ensures b.relationship == ScoreRelationship(input.isPriorInvestor, input.isReferral)
    ensures b.urgency == ScoreUrgency(input.has1031Exchange, input.deploymentDeadlineDays)
    ensures b.tier == GetTier(b.total)
    ensures b.total == RoundHalfUp(WeightedSum(b.accreditation, b.checkSizeFit, b.assetAlignment,
      b.engagement, b.behavioral, b.relationship, b.urgency))
    ensures NonNegativeCounts(input) ==>
      0 <= b.accreditation <= 100 && 0 <= b.checkSizeFit <= 100 && 0 <= b.assetAlignment <= 100 &&
      0 <= b.engagement <= 100 && 0 <= b.behavioral <= 100 && 0 <= b.relationship <= 100 &&
      0 <= b.urgency <= 100 && 0 <= b.total <= 100
  {
    var accreditation := ScoreAccreditation(input.accreditedStatus);
    var checkSizeFit := ScoreCheckSizeFit(input.checkSizeMin, input.checkSizeMax, input.dealMinimum, input.dealTarget);
    var assetAlignment := ScoreAssetAlignment(input.assetClassPrefs, input.priorHotelInvestments, input.hospitalityExperience);
    var engagement := ScoreEngagement(input);
    var behavioral := ScoreBehavioral(input);
    var relationship := ScoreRelationship(input.isPriorInvestor, input.isReferral);
    var urgency := ScoreUrgency(input.has1031Exchange, input.deploymentDeadlineDays);
    var total := WeightedTotal(accreditation, checkSizeFit, assetAlignment, engagement, behavioral, relationship, urgency);
    ScoreBreakdown(total, accreditation, checkSizeFit, assetAlignment, engagement, behavioral, relationship, urgency, GetTier(total))
  }

  // ─── Properties ────────────────────────────────────────────────

  /** The weights add up to the whole, so equal sub-scores weigh exactly
      their common value. */
  lemma WeightsSumToWhole(x: int)
    ensures ACCREDITATION_WEIGHT + CHECK_SIZE_FIT_WEIGHT + ASSET_ALIGNMENT_WEIGHT + ENGAGEMENT_WEIGHT
      + BEHAVIORAL_WEIGHT + RELATIONSHIP_WEIGHT + URGENCY_WEIGHT == 100
    ensures WeightedSum(x, x, x, x, x, x, x) == x as real
  {
  }

  /** Tiers ordered from D (0) to A+ (4). */
  function TierRank(tier: Tier): nat {
    match tier
    case D => 0
    case C => 1
    case B => 2
    case A => 3
    case APlus => 4
  }

  /** A higher total never gets a lower tier. */
  lemma TierMonotone(s1: int, s2: int)
    requires s1 <= s2
    ensures TierRank(GetTier(s1)) <= TierRank(GetTier(s2))
  {
  }

  /** The tier boundaries are exact at 85, 70, 50 and 30. */
  lemma TierBoundaries()
    ensures GetTier(85) == APlus && GetTier(84) == A
    ensures GetTier(70) == A && GetTier(69) == B
    ensures GetTier(50) == B && GetTier(49) == C
    ensures GetTier(30) == C && GetTier(29) == D
  {
  }

  /** A larger midpoint never lowers the fit, whatever the deal figures. */
  lemma FitMonotone(mid1: real, mid2: real, dealMin: real, dealTarget: real)
    requires mid1 <= mid2
    ensures FitForMid(mid1, dealMin, dealTarget) <= FitForMid(mid2, dealMin, dealTarget)
  {
  }

  /** A midpoint exactly at the target scores 100; one dollar below it, but
      at least twice the minimum, scores 85. */
  lemma CheckSizeFitAtTarget(size: real, dealMin: real)
    requires size != 0.0
    ensures ScoreCheckSizeFit(Some(size), Some(size), dealMin, size) == 100
    ensures size >= dealMin * 2.0 ==> ScoreCheckSizeFit(Some(size), Some(size), dealMin, size + 1.0) == 85
  {
  }

  /** Each engagement term is capped on its own: two replies and nothing
      else give 40, not 60. */
  lemma EngagementRepliesCapped(input: ScoreInput)
    requires input.emailReplies30d == 2 && input.emailClicks30d == 0
    requires input.emailOpens30d == 0 && input.voiceCallsCompleted30d == 0
    ensures ScoreEngagement(input) == 40
  {
  }

  /** More engagement of any kind never lowers the engagement score. */
  lemma EngagementMonotone(i1: ScoreInput, i2: ScoreInput)
    requires i1.emailReplies30d <= i2.emailReplies30d && i1.emailClicks30d <= i2.emailClicks30d
    requires i1.emailOpens30d <= i2.emailOpens30d && i1.voiceCallsCompleted30d <= i2.voiceCallsCompleted30d
    ensures ScoreEngagement(i1) <= ScoreEngagement(i2)
  {
  }

  /** More prior hotel deals never lower the prior-deal points, nor the
      asset alignment. */
  lemma PriorDealsMonotone(prefs: seq<string>, p1: int, p2: int, experience: HospitalityExp)
    requires p1 <= p2
    ensures PriorDealPoints(p1) <= PriorDealPoints(p2)
    ensures ScoreAssetAlignment(prefs, p1, experience) <= ScoreAssetAlignment(prefs, p2, experience)
  {
  }

  /** More visits or downloads never lower the behavioural score. */
  lemma BehavioralMonotone(i1: ScoreInput, i2: ScoreInput)
    requires i1.websiteVisits30d <= i2.websiteVisits30d && i1.docDownloads30d <= i2.docDownloads30d
    ensures ScoreBehavioral(i1) <= ScoreBehavioral(i2)
  {
  }

  /** A nearer deadline never lowers urgency, and any deadline is worth at
      least as much as none. */
  lemma UrgencyMonotone(has1031: bool, d1: int, d2: int)
    requires d1 <= d2
    ensures ScoreUrgency(has1031, Some(d2)) <= ScoreUrgency(has1031, Some(d1))
    ensures ScoreUrgency(has1031, None) <= ScoreUrgency(has1031, Some(d2))
  {
  }

  /** Raising any sub-score never lowers the total. */
  lemma TotalMonotone(acc1: int, fit1: int, align1: int, engage1: int, behave1: int, relate1: int, urgent1: int,
                      acc2: int, fit2: int, align2: int, engage2: int, behave2: int, relate2: int, urgent2: int)
    requires acc1 <= acc2 && fit1 <= fit2 && align1 <= align2 && engage1 <= engage2
    requires behave1 <= behave2 && relate1 <= relate2 && urgent1 <= urgent2
    ensures WeightedTotal(acc1, fit1, align1, engage1, behave1, relate1, urgent1) <=
      WeightedTotal(acc2, fit2, align2, engage2, behave2, relate2, urgent2)
  {
  }

  /** An investor who differs from another only by more engagement never
      gets a lower total or a lower tier. */
  lemma MoreEngagementNeverLowersScore(i1: ScoreInput, i2: ScoreInput)
    requires i2 == i1.(emailReplies30d := i2.emailReplies30d, emailClicks30d := i2.emailClicks30d,
                       emailOpens30d := i2.emailOpens30d, voiceCallsCompleted30d := i2.voiceCallsCompleted30d)
    requires i1.emailReplies30d <= i2.emailReplies30d && i1.emailClicks30d <= i2.emailClicks30d
    requires i1.emailOpens30d <= i2.emailOpens30d && i1.voiceCallsCompleted30d <= i2.voiceCallsCompleted30d
    ensures CalculateInvestorScore(i1).total <= CalculateInvestorScore(i2).total
    ensures TierRank(CalculateInvestorScore(i1).tier) <= TierRank(CalculateInvestorScore(i2).tier)
  {
    var b1 := CalculateInvestorScore(i1);
    var b2 := CalculateInvestorScore(i2);
    EngagementMonotone(i1, i2);
    TotalMonotone(b1.accreditation, b1.checkSizeFit, b1.assetAlignment, b1.engagement, b1.behavioral, b1.relationship, b1.urgency,
                  b2.accreditation, b2.checkSizeFit, b2.assetAlignment, b2.engagement, b2.behavioral, b2.relationship, b2.urgency);
    TierMonotone(b1.total, b2.total);
  }
}
