/**
 * The static option catalog: every question's closed vocabulary with its display
 * label, icon, internal routing note and score modifier, the fixed lists shown by the
 * stages, the category thresholds and the redirect messages. Nothing here is mutated.
 */
module Constants {
  import opened Types
  import opened ListOps

  /** `QuestionOption`: `routeTo` is never set by any catalog entry and is left out. */
  datatype QuestionOption = QuestionOption(
    value: string,
    display: string,  // the option's `label`
    icon: Option<string>,
    internalNote: Option<string>,
    scoreModifier: Option<int>)

  function Values(opts: seq<QuestionOption>): (r: seq<string>)
    ensures |r| == |opts|
    ensures forall i :: 0 <= i < |opts| ==> r[i] == opts[i].value
  {
    if opts == [] then [] else [opts[0].value] + Values(opts[1..])
  }

  const BusinessTypeOptions: seq<QuestionOption> := [
    QuestionOption("healthcare", "Healthcare & Allied Health Practice", Some("🏥"),
      Some("HIGH PRIORITY - Route to specialized track"), Some(30)),
    QuestionOption("ecommerce", "E-commerce or Digital Agency", Some("📱"),
      Some("HIGH PRIORITY - Route to digital track"), Some(25)),
    QuestionOption("accounting", "Accounting or Bookkeeping Firm", Some("📊"),
      Some("MEDIUM PRIORITY - Check for Xero/MYOB"), Some(20)),
    QuestionOption("marketing", "Marketing or Creative Agency", Some("🎯"),
      Some("HIGH PRIORITY - Route to creative track"), Some(25)),
    QuestionOption("trades", "Trades & Construction", Some("🏗️"),
      Some("MEDIUM PRIORITY - Basic admin support"), Some(10)),
    QuestionOption("financial", "Financial Advisory or Legal Services", Some("💼"),
      Some("REDIRECT to alternative solution"), Some(-50)),
    QuestionOption("other", "Other Professional Services", Some("🏢"),
      Some("QUALIFY FURTHER"), Some(10))
  ]

  const TeamSizeOptions: seq<QuestionOption> := [
    QuestionOption("solo", "Solo founder wearing too many hats", Some("👤"),
      Some("High touch, needs hand-holding"), Some(5)),
    QuestionOption("small", "Small team drowning in admin (2-5 people)", Some("👥"),
      Some("Sweet spot - urgent need"), Some(10)),
    QuestionOption("growing", "Growing fast, need to scale smart (6-15 people)", Some("🚀"),
      Some("Best lifetime value"), Some(15)),
    QuestionOption("established", "Established, looking to optimise (16-50 people)", Some("🏢"),
      Some("Needs ROI focus"), Some(10)),
    QuestionOption("corporate", "Corporate team (50+ people)", Some("🏛️"),
      Some("Check for owner involvement"), Some(-15))
  ]

  const TimelineOptions: seq<QuestionOption> := [
    QuestionOption("yesterday", "Yesterday! We're overwhelmed", Some("🔥"),
      Some("HIGH URGENCY - Fast track"), Some(10)),
    QuestionOption("month", "Within the next month", Some("📅"),
      Some("NORMAL PROCESS"), Some(5)),
    QuestionOption("quarter", "Exploring options for next quarter", Some("🔍"),
      Some("NURTURE TRACK"), Some(0)),
    QuestionOption("research", "Just researching", Some("💭"),
      Some("EDUCATION TRACK"), Some(-5))
  ]

  /** `PAIN_POINTS`: the per-industry lists and the default list. */
  const PainPointsHealthcare: seq<string> := [
    "Patient admin is stealing time from patient care",
    "Drowning in appointment scheduling and follow-ups",
    "Medicare/insurance claims are a nightmare",
    "Practice management software needs constant attention"
  ]
  const PainPointsEcommerce: seq<string> := [
    "Customer service across multiple channels",
    "Social media engagement and content creation",
    "Order processing and inventory management",
    "Campaign reporting and analytics"
  ]
  const PainPointsAccounting: seq<string> := [
    "Data entry and reconciliations in Xero/MYOB",
    "BAS and compliance documentation",
    "Client communication and follow-ups",
    "Tax season is breaking our team"
  ]
  const PainPointsDefault: seq<string> := [
    "Administrative tasks taking too much time",
    "Customer service and support",
    "Data entry and management",
    "Process optimization needed"
  ]

  const PracticeSystems: seq<string> := [
    "Best Practice", "Medical Director", "Cliniko", "Halaxy",
    "SimplePractice", "Power Diary", "Other/Custom system", "We use paper... help!"
  ]

  const ComplianceConcerns: seq<string> := [
    "AHPRA requirements", "Patient privacy (Privacy Act)", "Medicare compliance",
    "Clinical documentation standards", "All of the above!"
  ]

  const PatientVolumeOptions: seq<string> := [
    "Under 50 (small practice)", "50-150 (growing practice)",
    "150-300 (established)", "300+ (multi-practitioner)"
  ]

  const PlatformOptions: seq<string> := [
    "Shopify only", "WooCommerce", "Amazon + own store",
    "Multiple marketplaces (3+)", "Custom platform", "It's complicated..."
  ]

  const OrderVolumeOptions: seq<string> := [
    "Startup (under 100/month)", "Growing (100-500/month)",
    "Scaling (500-2000/month)", "Established (2000+/month)"
  ]

  const BottleneckOptions: seq<string> := [
    "Response time to inquiries", "Order status updates", "Returns/refunds process",
    "Product questions", "Technical support"
  ]

  const SoftwareOptions: seq<string> := [
    "Xero", "MYOB", "QuickBooks", "ATO Portal", "Excel/Google Sheets", "Other"
  ]

  const ServiceTypes: seq<string> := [
    "Bookkeeping", "BAS Agent services", "Tax returns", "Payroll", "Advisory/CFO services"
  ]

  const PeakSeasonOptions: seq<string> := [
    "Work 80-hour weeks", "Turn away clients", "Hire expensive temps",
    "Miss deadlines", "We don't handle it well"
  ]

  const TeamPhilosophyOptions: seq<QuestionOption> := [
    QuestionOption("family", "Extension of our family - their success is our success", None, None, Some(10)),
    QuestionOption("partners", "Professional partners who happen to be remote", None, None, Some(7)),
    QuestionOption("resources", "Cost-effective resources to get work done", None, None, Some(3)),
    QuestionOption("cheap", "Cheap labour to save money", None, None, Some(-10))
  ]

  const LowestPrice: string := "Lowest possible price"

  const InvestmentPriorities: seq<string> := [
    "Long-term staff who know our business",
    LowestPrice,
    "Cultural fit with our team",
    "Investment in staff development",
    "Quick scaling up/down"
  ]

  const CommunityImpactOptions: seq<QuestionOption> := [
    QuestionOption("matters", "Yes, and it matters to me where and how they work", None, None, Some(10)),
    QuestionOption("curious", "I hadn't thought about it, tell me more", None, None, Some(5)),
    QuestionOption("not-concerned", "Not really my concern if the work gets done", None, None, Some(-10))
  ]

  const PreviousExperienceOptions: seq<string> := [
    "Yes, but disappointed with high turnover",
    "Yes, but lacked personal connection",
    "No, this would be our first time",
    "Currently using freelancers (Upwork/Fiverr)",
    "Currently with another BPO"
  ]

  const WorkingHoursOptions: seq<string> := [
    "Australian business hours only", "Some overlap with ANZ hours",
    "24/7 coverage needed", "Flexible/project-based"
  ]

  const StartingTeamOptions: seq<string> := [
    "Just 1 dedicated person to start", "2-3 person team", "4-6 person team",
    "Build as we go", "Not sure yet"
  ]

  const BudgetRealityOptions: seq<QuestionOption> := [
    QuestionOption("aligned", "That's what we budgeted", None, None, Some(15)),
    QuestionOption("higher-but-worth", "Higher than expected but worth it for quality", None, None, Some(10)),
    QuestionOption("under-1000", "We were hoping for under $1,000/month", None, None, Some(-5)),
    QuestionOption("need-education", "Need to understand the value better", None, None, Some(0))
  ]

  /** `SKILL_PRIORITIES`: five skills per industry and a default list. */
  const SkillPrioritiesHealthcare: seq<string> := [
    "Medical terminology knowledge", "Appointment scheduling", "Patient communication",
    "Insurance/Medicare processing", "Practice software expertise"
  ]
  const SkillPrioritiesEcommerce: seq<string> := [
    "E-commerce platform expertise", "Customer service excellence", "Social media management",
    "Order processing", "Content creation"
  ]
  const SkillPrioritiesAccounting: seq<string> := [
    "Xero/MYOB proficiency", "Data entry accuracy", "Tax knowledge",
    "Client communication", "Compliance documentation"
  ]
  const SkillPrioritiesDefault: seq<string> := [
    "Customer service excellence", "Data entry accuracy", "Email management",
    "Phone communication", "Administrative support"
  ]

  datatype Thresholds = Thresholds(hot: int, warm: int, nurture: int, redirect: int)

  const ScoringThresholds: Thresholds := Thresholds(70, 50, 30, 0)

  datatype RedirectMessages = RedirectMessages(financial: string, cheap: string, corporate: string)

  const RedirectMessage: RedirectMessages := RedirectMessages(
    "We specialise in healthcare, digital, and creative businesses. For financial services support, we recommend exploring specialised providers.",
    "Based on your priorities, you might find better matches with platforms like Upwork or Onlinejobs.ph for lowest-price options.",
    "For corporate-scale operations, consider providers like Cloudstaff or Acquire BPO who specialise in large teams.")

  /** The thresholds are strictly decreasing from hot down to redirect. */
  lemma ThresholdsStrictlyDecreasing()
    ensures ScoringThresholds.hot > ScoringThresholds.warm > ScoringThresholds.nurture > ScoringThresholds.redirect
    ensures ScoringThresholds == Thresholds(70, 50, 30, 0)
  {
  }

  /** The seven business types, in catalog order. */
  const BusinessTypeValues: seq<string> := ["healthcare", "ecommerce", "accounting", "marketing", "trades", "financial", "other"]

  /** The seven business types are the catalog's values and pairwise distinct. */
  lemma BusinessTypeValuesDistinct()
    ensures Values(BusinessTypeOptions) == BusinessTypeValues
    ensures Distinct(BusinessTypeValues)
  {
    var vs := Values(BusinessTypeOptions);
    forall i | 0 <= i < |vs| ensures vs[i] == BusinessTypeValues[i] {
    }
    BusinessTypeValuesAreDistinct();
  }

  lemma BusinessTypeValuesAreDistinct()
    ensures Distinct(BusinessTypeValues)
  {
  }

  /** The five team sizes, in catalog order. */
  const TeamSizeValues: seq<string> := ["solo", "small", "growing", "established", "corporate"]

  /** The five team sizes are the catalog's values and pairwise distinct. */
  lemma TeamSizeValuesDistinct()
    ensures Values(TeamSizeOptions) == TeamSizeValues
    ensures Distinct(TeamSizeValues)
  {
    var vs := Values(TeamSizeOptions);
    forall i | 0 <= i < |vs| ensures vs[i] == TeamSizeValues[i] {
    }
  }

  /** The four timelines, in catalog order. */
  const TimelineValues: seq<string> := ["yesterday", "month", "quarter", "research"]

  /** The four timelines are the catalog's values and pairwise distinct. */
  lemma TimelineValuesDistinct()
    ensures Values(TimelineOptions) == TimelineValues
    ensures Distinct(TimelineValues)
  {
    var vs := Values(TimelineOptions);
    forall i | 0 <= i < |vs| ensures vs[i] == TimelineValues[i] {
    }
  }

  /** The four team philosophies, in catalog order. */
  const TeamPhilosophyValues: seq<string> := ["family", "partners", "resources", "cheap"]

  /** The four team philosophies are the catalog's values and pairwise distinct. */
  lemma TeamPhilosophyValuesDistinct()
    ensures Values(TeamPhilosophyOptions) == TeamPhilosophyValues
    ensures Distinct(TeamPhilosophyValues)
  {
    var vs := Values(TeamPhilosophyOptions);
    forall i | 0 <= i < |vs| ensures vs[i] == TeamPhilosophyValues[i] {
    }
  }

  /** The three community-impact answers, in catalog order. */
  const CommunityImpactValues: seq<string> := ["matters", "curious", "not-concerned"]

  /** The three community-impact answers are the catalog's values and pairwise distinct. */
  lemma CommunityImpactValuesDistinct()
    ensures Values(CommunityImpactOptions) == CommunityImpactValues
    ensures Distinct(CommunityImpactValues)
  {
    var vs := Values(CommunityImpactOptions);
    forall i | 0 <= i < |vs| ensures vs[i] == CommunityImpactValues[i] {
    }
  }

  /** The four budget tiers, in catalog order. */
  const BudgetRealityValues: seq<string> := ["aligned", "higher-but-worth", "under-1000", "need-education"]

  /** The four budget tiers are the catalog's values and pairwise distinct. */
  lemma BudgetRealityValuesDistinct()
    ensures Values(BudgetRealityOptions) == BudgetRealityValues
    ensures Distinct(BudgetRealityValues)
  {
    var vs := Values(BudgetRealityOptions);
    forall i | 0 <= i < |vs| ensures vs[i] == BudgetRealityValues[i] {
    }
  }

  /** The five investment priorities are distinct and exactly one of them is the lowest price. */
  lemma InvestmentPrioritiesShape()
    ensures |InvestmentPriorities| == 5 && Distinct(InvestmentPriorities)
    ensures forall i :: 0 <= i < 5 ==> (InvestmentPriorities[i] == LowestPrice <==> i == 1)
  {
  }
}
