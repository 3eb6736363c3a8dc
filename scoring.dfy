/**
 * Lead scoring and the templated qualification result.
 *
 * The score is a sum of per-answer points looked up in fixed tables (an unknown or
 * absent answer counts 0), a bonus for a bad previous outsourcing experience and two
 * industry-only volume bonuses, clamped at 0. The category follows from the score by
 * the thresholds, except that two answers force a redirect whatever the score is.
 */
module Scoring {
  import opened Types
  import opened ListOps
  import Constants

  // ---------------------------------------------------------------- score tables

  const BusinessTypeScores: map<string, int> := map[
    "healthcare" := 30, "ecommerce" := 25, "accounting" := 20, "marketing" := 25,
    "trades" := 10, "financial" := -50, "other" := 10]

  const TeamSizeScores: map<string, int> := map[
    "solo" := 5, "small" := 10, "growing" := 15, "established" := 10, "corporate" := -15]

  const TimelineScores: map<string, int> := map[
    "yesterday" := 10, "month" := 5, "quarter" := 0, "research" := -5]

  const PhilosophyScores: map<string, int> := map[
    "family" := 20, "partners" := 15, "resources" := 5, "cheap" := -20]

  const BudgetScores: map<string, int> := map[
    "aligned" := 15, "higher-but-worth" := 10, "under-1000" := -5, "need-education" := 0]

  const ImpactScores: map<string, int> := map[
    "matters" := 10, "curious" := 5, "not-concerned" := -25]

  const PatientVolumeScores: map<string, int> := map[
    "150-300 (established)" := 10, "300+ (multi-practitioner)" := 15]

  const OrderVolumeScores: map<string, int> := map[
    "Scaling (500-2000/month)" := 10, "Established (2000+/month)" := 15]

  /** `table[v] || 0`: the entry for `v`, or 0 for a value the table does not list. */
  function Lookup(table: map<string, int>, v: string): (r: int)
    ensures v in table ==> r == table[v]
    ensures v !in table ==> r == 0
  {
    if v in table then table[v] else 0
  }

  /** The six answers scored by a table of their own, each with that table. */
  function TableOf(f: TextField): Option<map<string, int>> {
    match f
    case BusinessType => Some(BusinessTypeScores)
    case TeamSize => Some(TeamSizeScores)
    case Timeline => Some(TimelineScores)
    case TeamPhilosophy => Some(PhilosophyScores)
    case BudgetReality => Some(BudgetScores)
    case CommunityImpact => Some(ImpactScores)
    case _ => None
  }

  /** The points an answer earns from its table: nothing when the answer is absent or empty. */
  function Points(fd: FormData, f: TextField, table: map<string, int>): (r: int)
    ensures !Filled(fd, f) ==> r == 0
    ensures Filled(fd, f) && fd.text[f] !in table ==> r == 0
    ensures Filled(fd, f) && fd.text[f] in table ==> r == table[fd.text[f]]
  {
    if Filled(fd, f) then Lookup(table, fd.text[f]) else 0
  }

  /** The previous experience mentions disappointment or a lack. */
  predicate BadExperience(v: string) {
    Contains(v, "disappointed") || Contains(v, "lacked")
  }

  /** 10 points exactly when the previous experience mentions disappointment or a lack. */
  function ExperienceBonus(fd: FormData): (r: int)
    ensures r == 10 <==> Filled(fd, PreviousExperience) && BadExperience(fd.text[PreviousExperience])
    ensures r == 0 || r == 10
  {
    if Filled(fd, PreviousExperience) && BadExperience(fd.text[PreviousExperience]) then 10 else 0
  }

  /** The patient-volume bonus, given only to healthcare practices. */
  function PatientVolumeBonus(fd: FormData): (r: int)
    ensures !TextIs(fd, BusinessType, "healthcare") ==> r == 0
    ensures TextIs(fd, BusinessType, "healthcare") && Filled(fd, PatientVolume) ==>
              r == Lookup(PatientVolumeScores, fd.text[PatientVolume])
    ensures TextIs(fd, BusinessType, "healthcare") && !Filled(fd, PatientVolume) ==> r == 0
    ensures 0 <= r <= 15
  {
    if TextIs(fd, BusinessType, "healthcare") && Filled(fd, PatientVolume)
    then Lookup(PatientVolumeScores, fd.text[PatientVolume]) else 0
  }

  /** The order-volume bonus, given only to e-commerce businesses. */
  function OrderVolumeBonus(fd: FormData): (r: int)
    ensures !TextIs(fd, BusinessType, "ecommerce") ==> r == 0
    ensures TextIs(fd, BusinessType, "ecommerce") && Filled(fd, OrderVolume) ==>
              r == Lookup(OrderVolumeScores, fd.text[OrderVolume])
    ensures TextIs(fd, BusinessType, "ecommerce") && !Filled(fd, OrderVolume) ==> r == 0
    ensures 0 <= r <= 15
  {
    if TextIs(fd, BusinessType, "ecommerce") && Filled(fd, OrderVolume)
    then Lookup(OrderVolumeScores, fd.text[OrderVolume]) else 0
  }

  /** The running total of `calculateQualificationScore` before the final clamp. */
  function RawScore(fd: FormData): int {
    Points(fd, BusinessType, BusinessTypeScores)
    + Points(fd, TeamSize, TeamSizeScores)
    + Points(fd, Timeline, TimelineScores)
    + Points(fd, TeamPhilosophy, PhilosophyScores)
    + Points(fd, BudgetReality, BudgetScores)
    + Points(fd, CommunityImpact, ImpactScores)
    + ExperienceBonus(fd)
    + PatientVolumeBonus(fd)
    + OrderVolumeBonus(fd)
  }

  /** `calculateQualificationScore`: the total clamped at 0. */
  function Score(fd: FormData): (r: int)
    ensures r >= 0
    ensures RawScore(fd) >= 0 ==> r == RawScore(fd)
    ensures RawScore(fd) < 0 ==> r == 0
  {
    if RawScore(fd) < 0 then 0 else RawScore(fd)
  }

  // ---------------------------------------------------------------- score lemmas

  /** No answer set scores more than 125: the two volume bonuses never both apply. */
  lemma ScoreAtMost125(fd: FormData)
    ensures 0 <= Score(fd) <= 125
  {
    TableMaxima();
    PointsAtMost(fd, BusinessType, BusinessTypeScores, 30);
    PointsAtMost(fd, TeamSize, TeamSizeScores, 15);
    PointsAtMost(fd, Timeline, TimelineScores, 10);
    PointsAtMost(fd, TeamPhilosophy, PhilosophyScores, 20);
    PointsAtMost(fd, BudgetReality, BudgetScores, 15);
    PointsAtMost(fd, CommunityImpact, ImpactScores, 10);
    if TextIs(fd, BusinessType, "ecommerce") {
      assert Points(fd, BusinessType, BusinessTypeScores) == 25;
    }
  }

  /** The largest entry of each table. */
  lemma TableMaxima()
    ensures forall k :: k in BusinessTypeScores ==> BusinessTypeScores[k] <= 30
    ensures forall k :: k in TeamSizeScores ==> TeamSizeScores[k] <= 15
    ensures forall k :: k in TimelineScores ==> TimelineScores[k] <= 10
    ensures forall k :: k in PhilosophyScores ==> PhilosophyScores[k] <= 20
    ensures forall k :: k in BudgetScores ==> BudgetScores[k] <= 15
    ensures forall k :: k in ImpactScores ==> ImpactScores[k] <= 10
  {
  }

  lemma PointsAtMost(fd: FormData, f: TextField, table: map<string, int>, hi: int)
    requires 0 <= hi && forall k :: k in table ==> table[k] <= hi
    ensures Points(fd, f, table) <= hi
  {
  }

  /** A session with no answers scores 0. */
  lemma EmptyFormScoresZero()
    ensures RawScore(EmptyForm) == 0 && Score(EmptyForm) == 0
  {
  }

  /** The record with text field `f` removed. */
  function Forget(fd: FormData, f: TextField): (r: FormData)
    ensures f !in r.text && r.lists == fd.lists
    ensures forall g :: g != f ==> (g in r.text <==> g in fd.text)
    ensures forall g :: g != f && g in fd.text ==> r.text[g] == fd.text[g]
  {
    FormData(fd.text - {f}, fd.lists)
  }

  /**
   * Setting text field `f` to `v` and removing `f` give the same points on every other
   * field, and on `f` itself when its table does not list `v`.
   */
  lemma PointsAfterSet(fd: FormData, f: TextField, v: string, g: TextField, table: map<string, int>)
    ensures g != f ==> Points(Merge(fd, SetText(f, v)), g, table) == Points(Forget(fd, f), g, table)
    ensures g == f && v !in table ==> Points(Merge(fd, SetText(f, v)), g, table) == 0 == Points(Forget(fd, f), g, table)
  {
  }

  /** Setting or removing a field other than the previous experience leaves its bonus alone. */
  lemma ExperienceBonusAfterSet(fd: FormData, f: TextField, v: string)
    requires f != PreviousExperience
    ensures ExperienceBonus(Merge(fd, SetText(f, v))) == ExperienceBonus(Forget(fd, f))
  {
    SameField(fd, f, v, PreviousExperience);
  }

  /** Setting or removing a field the patient-volume bonus does not read leaves it alone. */
  lemma PatientVolumeBonusAfterSet(fd: FormData, f: TextField, v: string)
    requires f != BusinessType && f != PatientVolume
    ensures PatientVolumeBonus(Merge(fd, SetText(f, v))) == PatientVolumeBonus(Forget(fd, f))
  {
    SameField(fd, f, v, BusinessType);
    SameField(fd, f, v, PatientVolume);
  }

  /** Setting or removing a field the order-volume bonus does not read leaves it alone. */
  lemma OrderVolumeBonusAfterSet(fd: FormData, f: TextField, v: string)
    requires f != BusinessType && f != OrderVolume
    ensures OrderVolumeBonus(Merge(fd, SetText(f, v))) == OrderVolumeBonus(Forget(fd, f))
  {
    SameField(fd, f, v, BusinessType);
    SameField(fd, f, v, OrderVolume);
  }

  /** Setting and removing `f` agree on every other field. */
  lemma SameField(fd: FormData, f: TextField, v: string, g: TextField)
    requires g != f
    ensures g in Merge(fd, SetText(f, v)).text <==> g in Forget(fd, f).text
    ensures g in fd.text ==> Merge(fd, SetText(f, v)).text[g] == Forget(fd, f).text[g] == fd.text[g]
  {
  }

  /** Two forms whose nine score components agree have the same raw score. */
  lemma RawScoreFromParts(a: FormData, b: FormData)
    requires Points(a, BusinessType, BusinessTypeScores) == Points(b, BusinessType, BusinessTypeScores)
    requires Points(a, TeamSize, TeamSizeScores) == Points(b, TeamSize, TeamSizeScores)
    requires Points(a, Timeline, TimelineScores) == Points(b, Timeline, TimelineScores)
    requires Points(a, TeamPhilosophy, PhilosophyScores) == Points(b, TeamPhilosophy, PhilosophyScores)
    requires Points(a, BudgetReality, BudgetScores) == Points(b, BudgetReality, BudgetScores)
    requires Points(a, CommunityImpact, ImpactScores) == Points(b, CommunityImpact, ImpactScores)
    requires ExperienceBonus(a) == ExperienceBonus(b)
    requires PatientVolumeBonus(a) == PatientVolumeBonus(b) && OrderVolumeBonus(a) == OrderVolumeBonus(b)
    ensures RawScore(a) == RawScore(b)
  {
  }

  /** Setting a field to an answer its own table does not list leaves each table's points as removing it would. */
  lemma UnlistedPoints(fd: FormData, f: TextField, v: string, g: TextField, table: map<string, int>)
    requires TableOf(f).Some? && v !in TableOf(f).value && TableOf(g) == Some(table)
    ensures Points(Merge(fd, SetText(f, v)), g, table) == Points(Forget(fd, f), g, table)
  {
    assert g == f ==> v !in table;
    PointsAfterSet(fd, f, v, g, table);
  }

  /** The business-type, team-size and timeline points agree after setting a field to an unlisted answer or removing it. */
  lemma UnlistedProfilePoints(fd: FormData, f: TextField, v: string)
    requires TableOf(f).Some? && v !in TableOf(f).value
    ensures var a, b := Merge(fd, SetText(f, v)), Forget(fd, f);
            Points(a, BusinessType, BusinessTypeScores) == Points(b, BusinessType, BusinessTypeScores) &&
            Points(a, TeamSize, TeamSizeScores) == Points(b, TeamSize, TeamSizeScores) &&
            Points(a, Timeline, TimelineScores) == Points(b, Timeline, TimelineScores)
  {
    UnlistedPoints(fd, f, v, BusinessType, BusinessTypeScores);
    UnlistedPoints(fd, f, v, TeamSize, TeamSizeScores);
    UnlistedPoints(fd, f, v, Timeline, TimelineScores);
  }

  /** The philosophy, budget and impact points agree after setting a field to an unlisted answer or removing it. */
  lemma UnlistedCulturePoints(fd: FormData, f: TextField, v: string)
    requires TableOf(f).Some? && v !in TableOf(f).value
    ensures var a, b := Merge(fd, SetText(f, v)), Forget(fd, f);
            Points(a, TeamPhilosophy, PhilosophyScores) == Points(b, TeamPhilosophy, PhilosophyScores) &&
            Points(a, BudgetReality, BudgetScores) == Points(b, BudgetReality, BudgetScores) &&
            Points(a, CommunityImpact, ImpactScores) == Points(b, CommunityImpact, ImpactScores)
  {
    UnlistedPoints(fd, f, v, TeamPhilosophy, PhilosophyScores);
    UnlistedPoints(fd, f, v, BudgetReality, BudgetScores);
    UnlistedPoints(fd, f, v, CommunityImpact, ImpactScores);
  }

  /** The three bonuses agree after setting a table-scored field to an unlisted answer or removing it. */
  lemma UnlistedBonuses(fd: FormData, f: TextField, v: string)
    requires TableOf(f).Some? && v !in TableOf(f).value
    ensures var a, b := Merge(fd, SetText(f, v)), Forget(fd, f);
            ExperienceBonus(a) == ExperienceBonus(b) &&
            PatientVolumeBonus(a) == PatientVolumeBonus(b) && OrderVolumeBonus(a) == OrderVolumeBonus(b)
  {
    ExperienceBonusAfterSet(fd, f, v);
    if f == BusinessType {
      assert v !in BusinessTypeScores;
      assert v != "healthcare" && v != "ecommerce";
    } else {
      PatientVolumeBonusAfterSet(fd, f, v);
      OrderVolumeBonusAfterSet(fd, f, v);
    }
  }

  /**
   * An answer the field's table does not list scores exactly as if the field were
   * absent, for each of the six table-scored fields.
   */
  lemma UnlistedValueScoresAsAbsent(fd: FormData, f: TextField, v: string)
    requires TableOf(f).Some? && v !in TableOf(f).value
    ensures RawScore(Merge(fd, SetText(f, v))) == RawScore(Forget(fd, f))
  {
    UnlistedProfilePoints(fd, f, v);
    UnlistedCulturePoints(fd, f, v);
    UnlistedBonuses(fd, f, v);
    RawScoreFromParts(Merge(fd, SetText(f, v)), Forget(fd, f));
  }

  /** Outside healthcare the patient volume has no effect on the score. */
  lemma PatientVolumeOnlyForHealthcare(fd: FormData, v: string)
    requires !TextIs(fd, BusinessType, "healthcare")
    ensures RawScore(Merge(fd, SetText(PatientVolume, v))) == RawScore(Forget(fd, PatientVolume))
  {
    PointsAfterSet(fd, PatientVolume, v, BusinessType, BusinessTypeScores);
    PointsAfterSet(fd, PatientVolume, v, TeamSize, TeamSizeScores);
    PointsAfterSet(fd, PatientVolume, v, Timeline, TimelineScores);
    PointsAfterSet(fd, PatientVolume, v, TeamPhilosophy, PhilosophyScores);
    PointsAfterSet(fd, PatientVolume, v, BudgetReality, BudgetScores);
    PointsAfterSet(fd, PatientVolume, v, CommunityImpact, ImpactScores);
    ExperienceBonusAfterSet(fd, PatientVolume, v);
    OrderVolumeBonusAfterSet(fd, PatientVolume, v);
    SameField(fd, PatientVolume, v, BusinessType);
  }

  /** Outside e-commerce the order volume has no effect on the score. */
  lemma OrderVolumeOnlyForEcommerce(fd: FormData, v: string)
    requires !TextIs(fd, BusinessType, "ecommerce")
    ensures RawScore(Merge(fd, SetText(OrderVolume, v))) == RawScore(Forget(fd, OrderVolume))
  {
    PointsAfterSet(fd, OrderVolume, v, BusinessType, BusinessTypeScores);
    PointsAfterSet(fd, OrderVolume, v, TeamSize, TeamSizeScores);
    PointsAfterSet(fd, OrderVolume, v, Timeline, TimelineScores);
    PointsAfterSet(fd, OrderVolume, v, TeamPhilosophy, PhilosophyScores);
    PointsAfterSet(fd, OrderVolume, v, BudgetReality, BudgetScores);
    PointsAfterSet(fd, OrderVolume, v, CommunityImpact, ImpactScores);
    ExperienceBonusAfterSet(fd, OrderVolume, v);
    PatientVolumeBonusAfterSet(fd, OrderVolume, v);
    SameField(fd, OrderVolume, v, BusinessType);
  }

  // ---------------------------------------------------------------- categories

  /** `getQualificationCategory`: the first threshold, from hot down, the score reaches. */
  function CategoryOf(score: int): (r: Category)
    ensures r == Hot <==> score >= Constants.ScoringThresholds.hot
    ensures r == Warm <==> Constants.ScoringThresholds.warm <= score < Constants.ScoringThresholds.hot
    ensures r == Nurture <==> Constants.ScoringThresholds.nurture <= score < Constants.ScoringThresholds.warm
    ensures r == Redirect <==> score < Constants.ScoringThresholds.nurture
  {
    Constants.ThresholdsStrictlyDecreasing();
    if score >= Constants.ScoringThresholds.hot then Hot
    else if score >= Constants.ScoringThresholds.warm then Warm
    else if score >= Constants.ScoringThresholds.nurture then Nurture
    else Redirect
  }

  /** The categories from worst to best. */
  function Rank(c: Category): nat {
    match c
    case Redirect => 0
    case Nurture => 1
    case Warm => 2
    case Hot => 3
  }

  /** The thresholds are exact: one point below a boundary falls into the tier below. */
  lemma CategoryBoundaries()
    ensures CategoryOf(70) == Hot && CategoryOf(69) == Warm
    ensures CategoryOf(50) == Warm && CategoryOf(49) == Nurture
    ensures CategoryOf(30) == Nurture && CategoryOf(29) == Redirect
    ensures CategoryOf(0) == Redirect
  {
  }

  /** A higher score never gives a lower category. */
  lemma CategoryMonotone(a: int, b: int)
    requires a <= b
    ensures Rank(CategoryOf(a)) <= Rank(CategoryOf(b))
  {
  }

  // ---------------------------------------------------------------- results

  const MismatchHeadline: string := "We might not be the right fit, and that's okay"
  const HotHeadline: string := "Perfect! You're exactly who we built Yoonet for"
  const WarmHeadline: string := "Great match! Let's explore how we can help"
  const NurtureHeadline: string := "Let's make sure you choose the right partner"

  /** The industry word of the hot-lead template. */
  function Industry(fd: FormData): (r: string)
    ensures TextIs(fd, BusinessType, "healthcare") ==> r == "Healthcare"
    ensures TextIs(fd, BusinessType, "ecommerce") ==> r == "E-commerce"
    ensures TextIs(fd, BusinessType, "accounting") ==> r == "Accounting"
    ensures (!TextIs(fd, BusinessType, "healthcare") && !TextIs(fd, BusinessType, "ecommerce") &&
             !TextIs(fd, BusinessType, "accounting")) ==> r == "Business"
  {
    if TextIs(fd, BusinessType, "healthcare") then "Healthcare"
    else if TextIs(fd, BusinessType, "ecommerce") then "E-commerce"
    else if TextIs(fd, BusinessType, "accounting") then "Accounting"
    else "Business"
  }

  function LowerChar(c: char): char {
    if 'A' <= c <= 'Z' then (c as int + 32) as char else c
  }

  /** `toLowerCase` on text whose letters are all ASCII. */
  function LowerAscii(s: string): (r: string)
    ensures |r| == |s|
    ensures forall i :: 0 <= i < |s| ==> r[i] == LowerChar(s[i])
  {
    if s == [] then [] else [LowerChar(s[0])] + LowerAscii(s[1..])
  }

  function HotBody(industry: string): string {
    var lower := LowerAscii(industry);
    HotIntro + lower + HotAfterLower + industry + HotMiddle + lower + HotClosing
  }

  const HotIntro: string := "Based on your answers, here's why we're confident we can transform your "
  const HotAfterLower: string := " business:\n\n✅ Your "
  const HotMiddle: string :=
    " Expertise Need: Our Balanga team has deep experience with the specific tools and processes you use.\n"
    + "✅ Your Team Philosophy: Like you, we believe offshore staff are partners, not just resources. Our 90% retention rate proves this works.\n"
    + "✅ Your Growth Stage: At your size, you need a partner who can scale with you. Our University partnership ensures quality talent as you grow.\n\n"
    + "Your dedicated Client Success Manager can show you:\n"
    + "• How similar "
  const HotClosing: string :=
    " businesses reduced admin time by 60%\n"
    + "• Our unique Balanga advantage (better lifestyle = better performance)\n"
    + "• Exactly how we'll handle your specific pain points"

  const WarmBody: string :=
    "You're exactly the type of business we love working with. Based on your needs, we can create a customised solution that:\n\n"
    + "• Addresses your immediate pain points\n"
    + "• Scales with your growth plans\n"
    + "• Integrates seamlessly with your existing team\n"
    + "• Delivers measurable ROI within 60 days\n\n"
    + "Our approach is different because we invest in our team's success, which translates directly to your success."

  const NurtureBody: string :=
    "Outsourcing is a big decision, and we want to make sure you have all the information you need.\n\n"
    + "Here's what sets professional BPOs apart from freelancer marketplaces:\n\n"
    + "The Hidden Costs of Cheap:\n"
    + "• Unincorporated operators = your legal liability\n"
    + "• No backup when someone's sick\n"
    + "• Constant retraining from turnover\n"
    + "• No data security guarantees\n\n"
    + "The Yoonet Difference:\n"
    + "• Incorporated and insured for your protection\n"
    + "• University partnership for continuous talent pipeline\n"
    + "• 90% staff retention vs 30% industry average\n"
    + "• Direct investment in the Balanga community"

  const RedirectBody: string :=
    "Based on your priorities, these providers might better match your needs:\n\n"
    + "• For lowest price: Try Upwork or Onlinejobs.ph\n"
    + "• For financial services: Consider specialised providers\n"
    + "• For corporate scale: Look at Cloudstaff or Acquire BPO\n\n"
    + "We believe in finding the right match for everyone. Good luck with your search!"

  const HotRecommendations: seq<string> := [
    "Prepare a list of your most time-consuming tasks",
    "Think about your ideal team structure",
    "Consider which processes you want to delegate first"]
  const WarmRecommendations: seq<string> := [
    "Review our case studies for similar businesses",
    "Calculate your potential time savings",
    "Consider starting with a pilot program"]
  const NurtureRecommendations: seq<string> := [
    "Download: \"Why Paying $500/month More Saves You $50,000/year\"",
    "Read our Balanga community impact report",
    "Schedule a no-pressure consultation when ready"]
  const RedirectRecommendations: seq<string> := [
    "Define your non-negotiable requirements",
    "Research provider track records",
    "Always check incorporation and insurance status"]
  const FinancialRecommendations: seq<string> := [
    "Consider specialised financial services BPOs",
    "Look for providers with specific compliance expertise"]
  const CheapRecommendations: seq<string> := [
    "Try Upwork or Onlinejobs.ph for budget options",
    "Consider freelancer marketplaces"]

  /** `generateHotLeadResult`: the strategy-call offer, worded for the lead's industry. */
  function HotLeadResult(fd: FormData, score: int): (r: QualificationResult)
    ensures r.score == score && r.category == Hot
    ensures r.ctaAction == Some("calendar") && r.ctaText == Some("Book Your Strategy Call")
    ensures r.body == HotBody(Industry(fd)) && |r.recommendations| == 3
  {
    QualificationResult(score, Hot, HotHeadline,
      HotBody(Industry(fd)), Some("Book Your Strategy Call"), Some("calendar"),
HotRecommendations)
  }

  /** `generateWarmLeadResult`: the custom-proposal offer. */
  function WarmLeadResult(score: int): (r: QualificationResult)
    ensures r.score == score && r.category == Warm
    ensures r.ctaAction == Some("proposal") && r.ctaText == Some("Get Your Custom Proposal")
    ensures r.body == WarmBody && |r.recommendations| == 3
  {
    QualificationResult(score, Warm, WarmHeadline,
      WarmBody, Some("Get Your Custom Proposal"), Some("proposal"),
WarmRecommendations)
  }

  /** `generateNurtureLeadResult`: the free-guide offer. */
  function NurtureLeadResult(score: int): (r: QualificationResult)
    ensures r.score == score && r.category == Nurture
    ensures r.ctaAction == Some("download") && r.ctaText == Some("Download Our Free Guide")
    ensures r.body == NurtureBody && |r.recommendations| == 3
  {
    QualificationResult(score, Nurture, NurtureHeadline,
      NurtureBody, Some("Download Our Free Guide"), Some("download"),
NurtureRecommendations)
  }

  /** `generateRedirectResult`: a list of better-matched providers and no call to action. */
  function RedirectResult(score: int): (r: QualificationResult)
    ensures r.score == score && r.category == Redirect
    ensures r.ctaAction == None && r.ctaText == None
    ensures r.headline == MismatchHeadline && r.body == RedirectBody && |r.recommendations| == 3
  {
    QualificationResult(score, Redirect, MismatchHeadline, RedirectBody, None, None,
RedirectRecommendations)
  }

  /** The answers that force a redirect for a budget-only mindset. */
  predicate CheapMindset(fd: FormData) {
    TextIs(fd, TeamPhilosophy, "cheap") || TextIs(fd, CommunityImpact, "not-concerned")
  }

  /**
   * `generateQualificationResult`: a financial-services lead is redirected first, then a
   * budget-only mindset, whatever the score; any other lead gets the template of the
   * category its score reaches.
   */
  function GenerateQualificationResult(fd: FormData): (r: QualificationResult)
    ensures r.score == Score(fd)
    ensures TextIs(fd, BusinessType, "financial") ==>
              r.category == Redirect && r.body == Constants.RedirectMessage.financial && r.ctaAction == None &&
              r.recommendations == FinancialRecommendations
    ensures !TextIs(fd, BusinessType, "financial") && CheapMindset(fd) ==>
              r.category == Redirect && r.body == Constants.RedirectMessage.cheap && r.ctaAction == None &&
              r.recommendations == CheapRecommendations
    ensures !TextIs(fd, BusinessType, "financial") && !CheapMindset(fd) ==>
              r.category == CategoryOf(Score(fd))
    ensures !TextIs(fd, BusinessType, "financial") && !CheapMindset(fd) ==>
              r == match CategoryOf(Score(fd))
                   case Hot => HotLeadResult(fd, Score(fd))
                   case Warm => WarmLeadResult(Score(fd))
                   case Nurture => NurtureLeadResult(Score(fd))
                   case Redirect => RedirectResult(Score(fd))
    ensures r.category == Redirect ==> r.headline == MismatchHeadline && r.ctaAction == None && r.ctaText == None
    ensures r.category == Hot ==> r.ctaAction == Some("calendar")
    ensures r.category == Warm ==> r.ctaAction == Some("proposal")
    ensures r.category == Nurture ==> r.ctaAction == Some("download")
  {
    var score := Score(fd);
    if TextIs(fd, BusinessType, "financial") then
      QualificationResult(score, Redirect, MismatchHeadline, Constants.RedirectMessage.financial,
                          None, None, FinancialRecommendations)
    else if CheapMindset(fd) then
      QualificationResult(score, Redirect, MismatchHeadline, Constants.RedirectMessage.cheap,
                          None, None, CheapRecommendations)
    else
      match CategoryOf(score)
      case Hot => HotLeadResult(fd, score)
      case Warm => WarmLeadResult(score)
      case Nurture => NurtureLeadResult(score)
      case Redirect => RedirectResult(score)
  }

  /** A lead is redirected exactly when it is financial, budget-only, or scores under 30. */
  lemma RedirectExactly(fd: FormData)
    ensures GenerateQualificationResult(fd).category == Redirect <==>
              TextIs(fd, BusinessType, "financial") || CheapMindset(fd) || Score(fd) < 30
  {
  }

  // ---------------------------------------------------------------- catalog agreement

  /** Every catalog option's value is a key of `table`, with the catalog's modifier as its points. */
  predicate CatalogMatches(opts: seq<Constants.QuestionOption>, table: map<string, int>) {
    forall i :: 0 <= i < |opts| ==> opts[i].value in table && opts[i].scoreModifier == Some(table[opts[i].value])
  }

  /** The business-type table agrees with the catalog's modifiers, one entry per option. */
  lemma BusinessTypeTableAgreesWithCatalog()
    ensures CatalogMatches(Constants.BusinessTypeOptions, BusinessTypeScores)
    ensures |Constants.BusinessTypeOptions| == |BusinessTypeScores|
  {
  }

  /** The team-size and timeline tables agree with the catalog's modifiers. */
  lemma TeamSizeAndTimelineTablesAgreeWithCatalog()
    ensures CatalogMatches(Constants.TeamSizeOptions, TeamSizeScores)
    ensures CatalogMatches(Constants.TimelineOptions, TimelineScores)
  {
  }

  /** The budget table agrees with the catalog's modifiers. */
  lemma BudgetTableAgreesWithCatalog()
    ensures CatalogMatches(Constants.BudgetRealityOptions, BudgetScores)
  {
  }

  /**
   * The team-philosophy and community-impact tables do not follow the catalog: every
   * philosophy and the "not-concerned" impact score differently from their modifiers.
   */
  lemma CultureTablesDisagreeWithCatalog()
    ensures forall i :: 0 <= i < |Constants.TeamPhilosophyOptions| ==>
              Constants.TeamPhilosophyOptions[i].value in PhilosophyScores &&
              Constants.TeamPhilosophyOptions[i].scoreModifier != Some(PhilosophyScores[Constants.TeamPhilosophyOptions[i].value])
    ensures Constants.CommunityImpactOptions[2].value == "not-concerned"
    ensures Constants.CommunityImpactOptions[2].scoreModifier == Some(-10) && ImpactScores["not-concerned"] == -25
    ensures !CatalogMatches(Constants.TeamPhilosophyOptions, PhilosophyScores)
    ensures !CatalogMatches(Constants.CommunityImpactOptions, ImpactScores)
  {
    forall i | 0 <= i < |Constants.TeamPhilosophyOptions|
      ensures Constants.TeamPhilosophyOptions[i].value in PhilosophyScores
      ensures Constants.TeamPhilosophyOptions[i].scoreModifier != Some(PhilosophyScores[Constants.TeamPhilosophyOptions[i].value])
    {
      Constants.TeamPhilosophyValuesDistinct();
      assert Constants.TeamPhilosophyOptions[i].value == Constants.Values(Constants.TeamPhilosophyOptions)[i];
    }
    assert Constants.TeamPhilosophyOptions[0].scoreModifier != Some(PhilosophyScores[Constants.TeamPhilosophyOptions[0].value]);
    assert Constants.CommunityImpactOptions[2].scoreModifier != Some(ImpactScores[Constants.CommunityImpactOptions[2].value]);
  }

  /** The volume answers that earn a bonus are options the stages actually offer. */
  lemma VolumeBonusesAreCatalogOptions()
    ensures forall v :: v in PatientVolumeScores ==> v in Constants.PatientVolumeOptions
    ensures forall v :: v in OrderVolumeScores ==> v in Constants.OrderVolumeOptions
  {
    assert Constants.PatientVolumeOptions[2] == "150-300 (established)";
    assert Constants.PatientVolumeOptions[3] == "300+ (multi-practitioner)";
    assert Constants.OrderVolumeOptions[2] == "Scaling (500-2000/month)";
    assert Constants.OrderVolumeOptions[3] == "Established (2000+/month)";
  }

  /** Exactly the first two previous-experience options earn the bonus. */
  lemma ExperienceOptionsWithBonus()
    ensures BadExperience(Constants.PreviousExperienceOptions[0])
    ensures BadExperience(Constants.PreviousExperienceOptions[1])
    ensures !BadExperience(Constants.PreviousExperienceOptions[2])
    ensures !BadExperience(Constants.PreviousExperienceOptions[3])
    ensures !BadExperience(Constants.PreviousExperienceOptions[4])
  {
    FirstExperienceHasBonus();
    SecondExperienceHasBonus();
    NoBonusForFirstTime();
    NoBonusForFreelancers();
    NoBonusForOtherBPO();
  }

  lemma FirstExperienceHasBonus()
    ensures Contains(Constants.PreviousExperienceOptions[0], "disappointed")
    ensures BadExperience(Constants.PreviousExperienceOptions[0])
  {
    FirstExperienceSplits();
    ContainsMiddle("Yes, but ", "disappointed", " with high turnover");
  }

  lemma FirstExperienceSplits()
    ensures Constants.PreviousExperienceOptions[0] == "Yes, but " + "disappointed" + " with high turnover"
  {
  }

  lemma SecondExperienceHasBonus()
    ensures Contains(Constants.PreviousExperienceOptions[1], "lacked")
    ensures BadExperience(Constants.PreviousExperienceOptions[1])
  {
    SecondExperienceSplits();
    ContainsMiddle("Yes, but ", "lacked", " personal connection");
  }

  lemma SecondExperienceSplits()
    ensures Constants.PreviousExperienceOptions[1] == "Yes, but " + "lacked" + " personal connection"
  {
  }

  /** An answer lacking a letter of each trigger word earns no bonus. */
  lemma NoBonusWithout(s: string, c1: char, c2: char)
    requires c1 in "disappointed" && c1 !in s && c2 in "lacked" && c2 !in s
    ensures !BadExperience(s)
  {
    MissingCharRefutesContains(s, "disappointed", c1);
    MissingCharRefutesContains(s, "lacked", c2);
  }

  lemma NoBonusForFirstTime()
    ensures !BadExperience(Constants.PreviousExperienceOptions[2])
  {
    FirstTimeLacksPAndK();
    NoBonusWithout(Constants.PreviousExperienceOptions[2], 'p', 'k');
  }

  lemma FirstTimeLacksPAndK()
    ensures 'p' !in Constants.PreviousExperienceOptions[2] && 'k' !in Constants.PreviousExperienceOptions[2]
  {
    assert Constants.PreviousExperienceOptions[2] == "No, this would be our first time";
  }

  lemma NoBonusForFreelancers()
    ensures !BadExperience(Constants.PreviousExperienceOptions[3])
  {
    FreelancersLacksD();
    NoBonusWithout(Constants.PreviousExperienceOptions[3], 'd', 'd');
  }

  lemma FreelancersLacksD()
    ensures 'd' !in Constants.PreviousExperienceOptions[3]
  {
    assert Constants.PreviousExperienceOptions[3] == "Currently using freelancers (Upwork/Fiverr)";
  }

  lemma NoBonusForOtherBPO()
    ensures !BadExperience(Constants.PreviousExperienceOptions[4])
  {
    OtherBPOLacksD();
    NoBonusWithout(Constants.PreviousExperienceOptions[4], 'd', 'd');
  }

  lemma OtherBPOLacksD()
    ensures 'd' !in Constants.PreviousExperienceOptions[4]
  {
    assert Constants.PreviousExperienceOptions[4] == "Currently with another BPO";
  }

  // ---------------------------------------------------------------- worked examples

  /** The table entries the hot example uses. */
  lemma BestAnswerEntries()
    ensures BusinessTypeScores["healthcare"] == 30 && TeamSizeScores["growing"] == 15
    ensures TimelineScores["yesterday"] == 10 && PhilosophyScores["family"] == 20
    ensures BudgetScores["aligned"] == 15 && ImpactScores["matters"] == 10
    ensures PatientVolumeScores["300+ (multi-practitioner)"] == 15
  {
  }

  /**
   * A growing healthcare practice with every best answer: 115 points, in the hot range,
   * and neither redirect applies; `HotHealthcareResult` draws the whole result from this.
   */
  lemma HotHealthcareExample()
    ensures var fd := FormData(map[BusinessType := "healthcare", TeamSize := "growing",
                                   Timeline := "yesterday", TeamPhilosophy := "family",
                                   BudgetReality := "aligned", CommunityImpact := "matters",
                                   PatientVolume := "300+ (multi-practitioner)"], map[]);
            Score(fd) == 115 && CategoryOf(Score(fd)) == Hot &&
            !TextIs(fd, BusinessType, "financial") && !CheapMindset(fd)
  {
    var fd := FormData(map[BusinessType := "healthcare", TeamSize := "growing",
                           Timeline := "yesterday", TeamPhilosophy := "family",
                           BudgetReality := "aligned", CommunityImpact := "matters",
                           PatientVolume := "300+ (multi-practitioner)"], map[]);
    BestAnswerEntries();
    assert Points(fd, BusinessType, BusinessTypeScores) == 30;
    assert Points(fd, TeamSize, TeamSizeScores) == 15;
    assert Points(fd, Timeline, TimelineScores) == 10;
    assert Points(fd, TeamPhilosophy, PhilosophyScores) == 20;
    assert Points(fd, BudgetReality, BudgetScores) == 15;
    assert Points(fd, CommunityImpact, ImpactScores) == 10;
    assert ExperienceBonus(fd) == 0 && OrderVolumeBonus(fd) == 0;
    assert PatientVolumeBonus(fd) == 15;
  }

  /** The best-answer healthcare lead gets the hot template, worded for healthcare. */
  lemma HotHealthcareResult()
    ensures var fd := FormData(map[BusinessType := "healthcare", TeamSize := "growing",
                                   Timeline := "yesterday", TeamPhilosophy := "family",
                                   BudgetReality := "aligned", CommunityImpact := "matters",
                                   PatientVolume := "300+ (multi-practitioner)"], map[]);
            GenerateQualificationResult(fd) == HotLeadResult(fd, 115)
  {
    HotHealthcareExample();
  }

  /** The table entries the trades example uses. */
  lemma ResearchingTradesEntries()
    ensures BusinessTypeScores["trades"] == 10 && TeamSizeScores["corporate"] == -15
    ensures TimelineScores["research"] == -5 && PhilosophyScores["resources"] == 5
    ensures BudgetScores["under-1000"] == -5 && ImpactScores["curious"] == 5
  {
  }

  /**
   * A corporate trades business that is only researching: the parts sum to -5, which
   * clamps to 0, and neither redirect applies; `ClampedTradesExample` draws the result.
   */
  lemma ClampedTradesScore()
    ensures var fd := FormData(map[BusinessType := "trades", TeamSize := "corporate",
                                   Timeline := "research", TeamPhilosophy := "resources",
                                   BudgetReality := "under-1000", CommunityImpact := "curious"], map[]);
            RawScore(fd) == -5 && Score(fd) == 0 && CategoryOf(Score(fd)) == Redirect &&
            !TextIs(fd, BusinessType, "financial") && !CheapMindset(fd)
  {
    var fd := FormData(map[BusinessType := "trades", TeamSize := "corporate",
                           Timeline := "research", TeamPhilosophy := "resources",
                           BudgetReality := "under-1000", CommunityImpact := "curious"], map[]);
    ResearchingTradesEntries();
    assert Points(fd, BusinessType, BusinessTypeScores) == 10;
    assert Points(fd, TeamSize, TeamSizeScores) == -15;
    assert Points(fd, Timeline, TimelineScores) == -5;
    assert Points(fd, TeamPhilosophy, PhilosophyScores) == 5;
    assert Points(fd, BudgetReality, BudgetScores) == -5;
    assert Points(fd, CommunityImpact, ImpactScores) == 5;
    assert ExperienceBonus(fd) == 0 && OrderVolumeBonus(fd) == 0 && PatientVolumeBonus(fd) == 0;
  }

  /** The clamped trades lead gets the generic redirect with score 0. */
  lemma ClampedTradesExample()
    ensures var fd := FormData(map[BusinessType := "trades", TeamSize := "corporate",
                                   Timeline := "research", TeamPhilosophy := "resources",
                                   BudgetReality := "under-1000", CommunityImpact := "curious"], map[]);
            RawScore(fd) == -5 && Score(fd) == 0 &&
            GenerateQualificationResult(fd) == RedirectResult(0)
  {
    ClampedTradesScore();
  }

  /** A financial-services lead is redirected with the financial message even when also budget-only. */
  lemma FinancialExample()
    ensures var fd := FormData(map[BusinessType := "financial", TeamPhilosophy := "cheap"], map[]);
            GenerateQualificationResult(fd).category == Redirect &&
            GenerateQualificationResult(fd).body == Constants.RedirectMessage.financial
  {
  }

  /**
   * A budget-only mindset is redirected even with a score in the hot range: the same
   * practice answering "cheap" scores 75, but the cheap-mindset check comes first.
   */
  lemma CheapOverridesHotScore()
    ensures var fd := FormData(map[BusinessType := "healthcare", TeamSize := "growing",
                                   Timeline := "yesterday", TeamPhilosophy := "cheap",
                                   BudgetReality := "aligned", CommunityImpact := "matters",
                                   PatientVolume := "300+ (multi-practitioner)"], map[]);
            Score(fd) == 75 && CategoryOf(Score(fd)) == Hot &&
            !TextIs(fd, BusinessType, "financial") && CheapMindset(fd)
  {
    var fd := FormData(map[BusinessType := "healthcare", TeamSize := "growing",
                           Timeline := "yesterday", TeamPhilosophy := "cheap",
                           BudgetReality := "aligned", CommunityImpact := "matters",
                           PatientVolume := "300+ (multi-practitioner)"], map[]);
    BestAnswerEntries();
    assert PhilosophyScores["cheap"] == -20;
    assert Points(fd, BusinessType, BusinessTypeScores) == 30;
    assert Points(fd, TeamSize, TeamSizeScores) == 15;
    assert Points(fd, Timeline, TimelineScores) == 10;
    assert Points(fd, TeamPhilosophy, PhilosophyScores) == -20;
    assert Points(fd, BudgetReality, BudgetScores) == 15;
    assert Points(fd, CommunityImpact, ImpactScores) == 10;
    assert ExperienceBonus(fd) == 0 && OrderVolumeBonus(fd) == 0;
    assert PatientVolumeBonus(fd) == 15;
  }

  /** The price-first practice gets exactly the cheap redirect, keeping its score of 75. */
  lemma CheapOverridesHotResult()
    ensures var fd := FormData(map[BusinessType := "healthcare", TeamSize := "growing",
                                   Timeline := "yesterday", TeamPhilosophy := "cheap",
                                   BudgetReality := "aligned", CommunityImpact := "matters",
                                   PatientVolume := "300+ (multi-practitioner)"], map[]);
            GenerateQualificationResult(fd) ==
              QualificationResult(75, Redirect, MismatchHeadline, Constants.RedirectMessage.cheap,
                                  None, None, CheapRecommendations)
  {
    CheapOverridesHotScore();
  }
}
