/**
 * The small helpers of the wizard: the per-industry pain-point and skill lists with
 * their fallbacks, the stage titles, the time-remaining estimate and the email and
 * Australian phone-number shape checks.
 */
module Utils {
  import opened ListOps
  import Constants

  /** `getDynamicPainPoints`: the industry's list, or the four generic items for any other key. */
  function DynamicPainPoints(businessType: string): (r: seq<string>)
    ensures |r| == 4 && Distinct(r)
    ensures businessType !in {"healthcare", "ecommerce", "accounting", "marketing", "trades"} ==>
              r == GenericPainPoints
  {
    match businessType
    case "healthcare" => HealthcarePainPoints
    case "ecommerce" => EcommercePainPoints
    case "accounting" => AccountingPainPoints
    case "marketing" => MarketingPainPoints
    case "trades" => TradesPainPoints
    case _ => GenericPainPoints
  }

  /** The per-industry lists of `getDynamicPainPoints`. */
  const HealthcarePainPoints: seq<string> := [
    "Patient admin is stealing time from patient care",
    "Drowning in appointment scheduling and follow-ups",
    "Medicare/insurance claims are a nightmare",
    "Practice management software needs constant attention"]
  const EcommercePainPoints: seq<string> := [
    "Customer service across multiple channels",
    "Social media engagement and content creation",
    "Order processing and inventory management",
    "Campaign reporting and analytics"]
  const AccountingPainPoints: seq<string> := [
    "Data entry and reconciliations in Xero/MYOB",
    "BAS and compliance documentation",
    "Client communication and follow-ups",
    "Tax season is breaking our team"]
  const MarketingPainPoints: seq<string> := [
    "Content creation and scheduling",
    "Campaign management across platforms",
    "Client reporting and analytics",
    "Creative asset management"]
  const TradesPainPoints: seq<string> := [
    "Quote and invoice management",
    "Scheduling and dispatch",
    "Supplier coordination",
    "Compliance documentation"]

  /** The inline fallback of `getDynamicPainPoints` (its table has no `default` entry). */
  const GenericPainPoints: seq<string> := [
    "Administrative tasks taking too much time",
    "Customer service and support",
    "Data entry and management",
    "Process optimization needed"
  ]

  /** The helper's own table agrees with the catalog's `PAIN_POINTS` where both have an entry. */
  lemma DynamicPainPointsAgreeWithCatalog()
    ensures DynamicPainPoints("healthcare") == Constants.PainPointsHealthcare
    ensures DynamicPainPoints("ecommerce") == Constants.PainPointsEcommerce
    ensures DynamicPainPoints("accounting") == Constants.PainPointsAccounting
    ensures GenericPainPoints == Constants.PainPointsDefault
    ensures DynamicPainPoints("financial") == DynamicPainPoints("other") == Constants.PainPointsDefault
  {
  }

  /** `getSkillPriorities`: always eight distinct skills, the default eight for unknown keys. */
  function SkillPriorities(businessType: string): (r: seq<string>)
    ensures |r| == 8 && Distinct(r)
    ensures businessType !in {"healthcare", "ecommerce", "accounting", "marketing"} ==> r == DefaultSkills
  {
    match businessType
    case "healthcare" => [
      "Medical terminology knowledge", "Appointment scheduling", "Patient communication",
      "Insurance/Medicare processing", "Practice software expertise", "Clinical documentation",
      "Telehealth support", "Prescription management"]
    case "ecommerce" => [
      "E-commerce platform expertise", "Customer service excellence", "Social media management",
      "Order processing", "Content creation", "Inventory management", "Email marketing",
      "Product listing optimization"]
    case "accounting" => [
      "Xero/MYOB proficiency", "Data entry accuracy", "Tax knowledge", "Client communication",
      "Compliance documentation", "Financial reporting", "Payroll processing", "BAS preparation"]
    case "marketing" => [
      "Social media management", "Content creation", "Graphic design basics",
      "Campaign management", "Analytics and reporting", "Email marketing", "SEO/SEM knowledge",
      "Client communication"]
    case _ => DefaultSkills
  }

  const DefaultSkills: seq<string> := [
    "Customer service excellence", "Data entry accuracy", "Email management",
    "Phone communication", "Administrative support", "Document management",
    "Calendar management", "Basic reporting"
  ]

  /** Each eight-item list starts with the five skills the catalog's `SKILL_PRIORITIES` lists. */
  lemma SkillPrioritiesExtendCatalog()
    ensures SkillPriorities("healthcare")[..5] == Constants.SkillPrioritiesHealthcare
    ensures SkillPriorities("ecommerce")[..5] == Constants.SkillPrioritiesEcommerce
    ensures SkillPriorities("accounting")[..5] == Constants.SkillPrioritiesAccounting
    ensures SkillPriorities("default")[..5] == Constants.SkillPrioritiesDefault
  {
  }

  /** `getStageTitle`: the four stages have their own titles, anything else is "Qualification". */
  function StageTitle(stage: int): (r: string)
    ensures 1 <= stage <= 4 <==> r != "Qualification"
    ensures stage == 1 ==> r == "Initial Qualification"
    ensures stage == 2 ==> r == "Understanding Your Needs"
    ensures stage == 3 ==> r == "Finding Your Fit"
    ensures stage == 4 ==> r == "Final Details"
  {
    match stage
    case 1 => "Initial Qualification"
    case 2 => "Understanding Your Needs"
    case 3 => "Finding Your Fit"
    case 4 => "Final Details"
    case _ => "Qualification"
  }

  function DigitChar(d: int): char
    requires 0 <= d <= 9
  {
    ('0' as int + d) as char
  }

  /** The decimal form of a natural number, as a template literal prints it. */
  function NatToString(n: nat): (r: string)
    ensures |r| >= 1
    ensures forall i :: 0 <= i < |r| ==> '0' <= r[i] <= '9'
    ensures n > 0 ==> r[0] != '0'
  {
    if n < 10 then [DigitChar(n)] else NatToString(n / 10) + [DigitChar(n % 10)]
  }

  /** The number a string of decimal digits denotes, read from the most significant digit. */
  function DigitsValue(s: string): nat
    requires forall i :: 0 <= i < |s| ==> '0' <= s[i] <= '9'
  {
    if s == [] then 0
    else DigitsValue(s[..|s| - 1]) * 10 + (s[|s| - 1] as int - '0' as int)
  }

  /** Reading the decimal form back gives the number itself. */
  lemma {:induction false} NatToStringReadsBack(n: nat)
    ensures DigitsValue(NatToString(n)) == n
  {
    if n >= 10 {
      var r := NatToString(n);
      assert r[..|r| - 1] == NatToString(n / 10);
      NatToStringReadsBack(n / 10);
    }
  }

  /** `Math.ceil(seconds / 60)` for a non-negative number of seconds. */
  function CeilMinutes(seconds: nat): (m: nat)
    ensures 60 * m - 60 < seconds <= 60 * m
  {
    (seconds + 59) / 60
  }

  /**
   * `getTimeToComplete`: 15 questions at 15 seconds each; under a minute left from the
   * twelfth response on, about one minute from the eighth, otherwise the whole number
   * of minutes rounded up, which is then at least two.
   */
  function TimeToComplete(responses: int): (r: string)
    ensures r == "Less than 1 minute" <==> responses >= 12
    ensures r == "About 1 minute" <==> 8 <= responses <= 11
    ensures responses < 8 ==>
              var m := CeilMinutes((15 - responses) * 15);
              m >= 2 && 4 * m - 4 < 15 - responses <= 4 * m &&
              r == "About " + NatToString(m) + " minutes"
  {
    var remainingSeconds := (15 - responses) * 15;
    if remainingSeconds < 60 then "Less than 1 minute"
    else if remainingSeconds < 120 then "About 1 minute"
    else
      var s := "About " + NatToString(CeilMinutes(remainingSeconds)) + " minutes";
      assert s[0] == 'A' && |s| > 14;
      s
  }

  /** JavaScript's `\s`: the white-space and line-terminator characters. */
  predicate IsSpace(c: char) {
    c == '\t' || c == '\n' || c == '\U{000B}' || c == '\U{000C}' || c == '\r' || c == ' ' ||
    c == '\U{00A0}' || c == '\U{1680}' || ('\U{2000}' <= c <= '\U{200A}') ||
    c == '\U{2028}' || c == '\U{2029}' || c == '\U{202F}' || c == '\U{205F}' ||
    c == '\U{3000}' || c == '\U{FEFF}'
  }

  /** The class `[^\s@]`. */
  predicate EmailChar(c: char) {
    !IsSpace(c) && c != '@'
  }

  predicate AllEmailChars(s: string) {
    forall i :: 0 <= i < |s| ==> EmailChar(s[i])
  }

  /**
   * The pattern `^[^\s@]+@[^\s@]+\.[^\s@]+$`, read as a split of the string: a non-empty
   * local part, '@', a non-empty host part, '.', a non-empty top-level part, none of
   * them holding white space or '@'.
   */
  ghost predicate MatchesEmailPattern(s: string) {
    exists k, j :: EmailSplit(s, k, j)
  }

  /** `s` splits at '@' (index `k`) and '.' (index `j`) into three non-empty valid parts. */
  predicate EmailSplit(s: string, k: int, j: int) {
    0 < k && k + 1 < j && j + 1 < |s| && s[k] == '@' && s[j] == '.' &&
    AllEmailChars(s[..k]) && AllEmailChars(s[k + 1..j]) && AllEmailChars(s[j + 1..])
  }

  /** `validateEmail`, computed by locating the '@' and then a '.' strictly inside the domain. */
  function ValidateEmail(s: string): bool {
    var k := IndexOf(s, '@');
    0 < k && AllEmailChars(s[..k]) && DomainOk(s[k + 1..])
  }

  predicate DomainOk(d: string) {
    AllEmailChars(d) && |d| >= 3 && '.' in d[1..|d| - 1]
  }

  /** The computed check accepts exactly the strings the regular expression matches. */
  lemma ValidateEmailMatchesPattern(s: string)
    ensures ValidateEmail(s) <==> MatchesEmailPattern(s)
  {
    if ValidateEmail(s) {
      EmailCheckSound(s);
    }
    if MatchesEmailPattern(s) {
      EmailCheckComplete(s);
    }
  }

  lemma EmailCheckSound(s: string)
    requires ValidateEmail(s)
    ensures MatchesEmailPattern(s)
  {
    var k := IndexOf(s, '@');
    var d := s[k + 1..];
    var p := IndexOf(d[1..|d| - 1], '.');
    var j := k + 2 + p;
    assert s[j] == d[p + 1] == '.';
    assert s[k + 1..j] == d[..p + 1];
    assert s[j + 1..] == d[p + 2..];
    assert EmailSplit(s, k, j);
  }

  lemma EmailCheckComplete(s: string)
    requires MatchesEmailPattern(s)
    ensures ValidateEmail(s)
  {
    var k, j :| EmailSplit(s, k, j);
    var local, host, top := s[..k], s[k + 1..j], s[j + 1..];
    NoAtInEmailChars(local);
    IndexOfFirst(s, '@', k);
    assert s[k + 1..] == host + "." + top;
    DomainFromParts(host, top);
    AcceptedAt(s, k);
  }

  /** The check accepts once the first '@' is known and both sides pass. */
  lemma AcceptedAt(s: string, k: int)
    requires 0 < k < |s| && IndexOf(s, '@') == k && AllEmailChars(s[..k]) && DomainOk(s[k + 1..])
    ensures ValidateEmail(s)
  {
  }

  /** A run of email characters holds no '@'. */
  lemma NoAtInEmailChars(t: string)
    requires AllEmailChars(t)
    ensures '@' !in t
  {
    forall m | 0 <= m < |t| ensures t[m] != '@' {
      assert EmailChar(t[m]);
    }
  }

  /** A host part and a top-level part joined by '.' form a domain the check accepts. */
  lemma DomainFromParts(host: string, top: string)
    requires |host| > 0 && |top| > 0 && AllEmailChars(host) && AllEmailChars(top)
    ensures DomainOk(host + "." + top)
  {
    var d := host + "." + top;
    assert d[1..|d| - 1][|host| - 1] == '.';
    forall m | 0 <= m < |d| ensures EmailChar(d[m]) {
      if m > |host| { assert d[m] == top[m - |host| - 1]; }
    }
  }

  /** The characters `phone.replace(/[\s()-]/g, '')` removes. */
  predicate PhoneSeparator(c: char) {
    IsSpace(c) || c == '(' || c == ')' || c == '-'
  }

  /** The phone number with every separator removed and the other characters kept in order. */
  function CleanPhone(s: string): (r: string)
    ensures forall i :: 0 <= i < |r| ==> !PhoneSeparator(r[i])
    ensures |r| <= |s|
  {
    if s == [] then []
    else if PhoneSeparator(s[0]) then CleanPhone(s[1..])
    else [s[0]] + CleanPhone(s[1..])
  }

  /** Every character other than a separator survives cleaning as often as it occurs. */
  lemma {:induction false} CleanPhoneKeepsOthers(s: string)
    ensures forall c :: !PhoneSeparator(c) ==> multiset(CleanPhone(s))[c] == multiset(s)[c]
  {
    if s != [] {
      CleanPhoneKeepsOthers(s[1..]);
      assert s == [s[0]] + s[1..];
    }
  }

  /** One character: a separator disappears, any other character stays. */
  lemma CleanPhoneChar(c: char)
    ensures CleanPhone([c]) == if PhoneSeparator(c) then [] else [c]
  {
    assert [c][1..] == [];
  }

  /** Cleaning distributes over concatenation. */
  lemma {:induction false} CleanPhoneAppend(a: string, b: string)
    ensures CleanPhone(a + b) == CleanPhone(a) + CleanPhone(b)
  {
    if a != [] {
      assert (a + b)[1..] == a[1..] + b;
      CleanPhoneAppend(a[1..], b);
    } else {
      assert a + b == b;
    }
  }

  /** Cleaning an already clean number changes nothing. */
  lemma {:induction false} CleanPhoneIdempotent(s: string)
    ensures CleanPhone(CleanPhone(s)) == CleanPhone(s)
  {
    if s != [] {
      CleanPhoneIdempotent(s[1..]);
      if !PhoneSeparator(s[0]) {
        var t := CleanPhone(s[1..]);
        assert ([s[0]] + t)[1..] == t;
      }
    }
  }

  predicate IsDigit(c: char) {
    '0' <= c <= '9'
  }

  predicate AllDigits(s: string) {
    forall i :: 0 <= i < |s| ==> IsDigit(s[i])
  }

  /** The class `[2-478]`: the first digit of the number after the prefix. */
  predicate AreaDigit(c: char) {
    c == '2' || c == '3' || c == '4' || c == '7' || c == '8'
  }

  /** `t` is `prefix`, an area digit and exactly eight more digits. */
  predicate NumberAfter(t: string, prefix: string) {
    |t| == |prefix| + 9 && t[..|prefix|] == prefix && AreaDigit(t[|prefix|]) && AllDigits(t[|prefix| + 1..])
  }

  /** The pattern `^(\+?61|0)[2-478][\d]{8}$`. */
  ghost predicate MatchesPhonePattern(t: string) {
    NumberAfter(t, "+61") || NumberAfter(t, "61") || NumberAfter(t, "0")
  }

  /** `validatePhone`: the number is cleaned, then checked. */
  function ValidatePhone(phone: string): bool {
    CleanNumberOk(CleanPhone(phone))
  }

  /** The test on the cleaned number: its length decides which prefix it must carry. */
  predicate CleanNumberOk(t: string) {
    if |t| == 12 then t[..3] == "+61" && LocalNumber(t[3..])
    else if |t| == 11 then t[..2] == "61" && LocalNumber(t[2..])
    else if |t| == 10 then t[0] == '0' && LocalNumber(t[1..])
    else false
  }

  predicate LocalNumber(u: string) {
    |u| == 9 && AreaDigit(u[0]) && AllDigits(u[1..])
  }

  /** The computed check accepts exactly the numbers whose cleaned form the pattern matches. */
  lemma ValidatePhoneMatchesPattern(phone: string)
    ensures ValidatePhone(phone) <==> MatchesPhonePattern(CleanPhone(phone))
  {
    CleanNumberMatchesPattern(CleanPhone(phone));
  }

  lemma CleanNumberMatchesPattern(t: string)
    ensures CleanNumberOk(t) <==> MatchesPhonePattern(t)
  {
    if |t| == 12 {
      assert t[3..][1..] == t[4..];
    } else if |t| == 11 {
      assert t[2..][1..] == t[3..];
    } else if |t| == 10 {
      assert t[1..][1..] == t[2..];
      assert t[..1] == "0" <==> t[0] == '0';
    }
  }
}
