/**
 * Stage 4, final details: working hours, starting team size and budget, up to three
 * priority skills, and the contact details. Every answer except the phone number is
 * required and the email must have the shape of an address.
 */
module Stage4 {
  import opened Types
  import opened ListOps
  import Utils
  import opened Store

  /** The most skills a lead may pick. */
  const MaxSkills: nat := 3

  /** The keys of the stage's error record. */
  datatype ErrorKey = NameKey | EmailKey | CompanyKey | SkillsKey | WorkingHoursKey | TeamSizeKey | BudgetKey

  /** The contact form's local state. */
  datatype ContactInfo = ContactInfo(name: string, email: string, phone: string, company: string)

  /** The contact form starts from the stored details, or empty fields. */
  function InitialContact(fd: FormData): (c: ContactInfo)
    ensures c.name == TextOr(fd, Name, "") && c.email == TextOr(fd, Email, "")
    ensures c.phone == TextOr(fd, Phone, "") && c.company == TextOr(fd, Company, "")
  {
    ContactInfo(TextOr(fd, Name, ""), TextOr(fd, Email, ""), TextOr(fd, Phone, ""), TextOr(fd, Company, ""))
  }

  /** The skills offered: eight, chosen by the business type or the default list. */
  function SkillOptions(fd: FormData): (r: seq<string>)
    ensures |r| == 8 && Distinct(r)
    ensures !Filled(fd, BusinessType) ==> r == Utils.DefaultSkills
    ensures Filled(fd, BusinessType) ==> r == Utils.SkillPriorities(fd.text[BusinessType])
  {
    Utils.SkillPriorities(TextOr(fd, BusinessType, "default"))
  }

  /**
   * `handleSkillToggle`: a selected skill is removed; an unselected one is added at the
   * end while fewer than three are selected, and ignored otherwise.
   */
  function ToggledSkills(selected: seq<string>, skill: string): (r: seq<string>)
    ensures skill in selected ==> skill !in r && |r| < |selected|
    ensures skill in selected ==> forall y :: y != skill ==> multiset(r)[y] == multiset(selected)[y]
    ensures skill !in selected && |selected| < MaxSkills ==> r == selected + [skill]
    ensures skill !in selected && |selected| >= MaxSkills ==> r == selected
  {
    if skill in selected then
      WithoutShrinks(selected, skill, IndexOf(selected, skill));
      Without(selected, skill)
    else if |selected| < MaxSkills then selected + [skill]
    else selected
  }

  /** Dropping an element that occurs makes the list shorter. */
  lemma {:induction false} WithoutShrinks(xs: seq<string>, x: string, i: int)
    requires 0 <= i < |xs| && xs[i] == x
    ensures |Without(xs, x)| < |xs|
    decreases |xs|
  {
    if i > 0 {
      WithoutShrinks(xs[1..], x, i - 1);
    }
  }

  /** Toggling never takes a selection of at most three above three, and keeps it free of duplicates. */
  lemma ToggleKeepsSelectionValid(selected: seq<string>, skill: string)
    requires |selected| <= MaxSkills && Distinct(selected)
    ensures |ToggledSkills(selected, skill)| <= MaxSkills
    ensures Distinct(ToggledSkills(selected, skill))
  {
    if skill in selected {
      WithoutDistinct(selected, skill);
    } else if |selected| < MaxSkills {
      AppendDistinct(selected, skill);
    }
  }

  /** Removing a selected skill keeps the others in their order. */
  lemma ToggleRemovesInPlace(before: seq<string>, skill: string, after: seq<string>)
    requires skill !in before && skill !in after
    ensures ToggledSkills(before + [skill] + after, skill) == before + after
  {
    WithoutAroundOccurrence(before, skill, after);
    WithoutAbsent(before, skill);
    WithoutAbsent(after, skill);
  }

  /** Toggling a skill that could be added twice restores the selection. */
  lemma ToggleTwiceRestores(selected: seq<string>, skill: string)
    requires skill !in selected && |selected| < MaxSkills
    ensures ToggledSkills(ToggledSkills(selected, skill), skill) == selected
  {
    AppendThenWithout(selected, skill);
  }

  /** Whatever the clicks, a valid selection (such as the empty one) stays within three distinct skills. */
  lemma {:induction false} ClicksKeepSelectionValid(selected: seq<string>, clicks: seq<string>)
    requires |selected| <= MaxSkills && Distinct(selected)
    ensures |ApplyToggles(selected, clicks)| <= MaxSkills && Distinct(ApplyToggles(selected, clicks))
    decreases |clicks|
  {
    if clicks != [] {
      ToggleKeepsSelectionValid(selected, clicks[0]);
      ClicksKeepSelectionValid(ToggledSkills(selected, clicks[0]), clicks[1..]);
    }
  }

  /** The selection after a run of skill clicks. */
  function ApplyToggles(selected: seq<string>, clicks: seq<string>): seq<string>
    decreases |clicks|
  {
    if clicks == [] then selected else ApplyToggles(ToggledSkills(selected, clicks[0]), clicks[1..])
  }

  const NameMissing := "Please enter your name"
  const EmailMissing := "Please enter your email"
  const EmailInvalid := "Please enter a valid email"
  const CompanyMissing := "Please enter your company name"
  const SkillsMissing := "Please select at least one skill priority"
  const WorkingHoursMissing := "Please select your working hours preference"
  const TeamSizeMissing := "Please select your initial team size"
  const BudgetMissing := "Please select your budget expectation"

  /** `errors` with `message` recorded under `key` when the check failed, unchanged otherwise. */
  function AddError(errors: map<ErrorKey, string>, failed: bool, key: ErrorKey, message: string): map<ErrorKey, string> {
    if failed then errors[key := message] else errors
  }

  /** The email is missing or not shaped like an address. */
  predicate EmailRejected(email: string) {
    email == "" || !Utils.ValidateEmail(email)
  }

  /** The message for a rejected email: missing, or malformed. */
  function EmailMessage(email: string): string {
    if email == "" then EmailMissing else EmailInvalid
  }

  /** The errors about the contact details and the skill choice. */
  function ContactErrors(c: ContactInfo, skills: seq<string>): (r: map<ErrorKey, string>)
    ensures NameKey in r <==> c.name == ""
    ensures EmailKey in r <==> EmailRejected(c.email)
    ensures EmailRejected(c.email) ==> r[EmailKey] == EmailMessage(c.email)
    ensures CompanyKey in r <==> c.company == ""
    ensures SkillsKey in r <==> |skills| == 0
    ensures r.Keys <= {NameKey, EmailKey, CompanyKey, SkillsKey}
    ensures NameKey in r ==> r[NameKey] == NameMissing
    ensures CompanyKey in r ==> r[CompanyKey] == CompanyMissing
    ensures SkillsKey in r ==> r[SkillsKey] == SkillsMissing
  {
    var e1 := AddError(map[], c.name == "", NameKey, NameMissing);
    var e2 := AddError(e1, EmailRejected(c.email), EmailKey, EmailMessage(c.email));
    var e3 := AddError(e2, c.company == "", CompanyKey, CompanyMissing);
    AddError(e3, |skills| == 0, SkillsKey, SkillsMissing)
  }

  /** `errors` with the errors about the three stored answers added. */
  function AnswerErrors(errors: map<ErrorKey, string>, fd: FormData): (r: map<ErrorKey, string>)
    ensures WorkingHoursKey in r <==> WorkingHoursKey in errors || !Filled(fd, WorkingHours)
    ensures TeamSizeKey in r <==> TeamSizeKey in errors || !Filled(fd, TeamSizeNeeded)
    ensures BudgetKey in r <==> BudgetKey in errors || !Filled(fd, BudgetReality)
    ensures errors.Keys <= r.Keys <= errors.Keys + {WorkingHoursKey, TeamSizeKey, BudgetKey}
    ensures forall k :: k in errors && k != WorkingHoursKey && k != TeamSizeKey && k != BudgetKey ==> r[k] == errors[k]
    ensures !Filled(fd, WorkingHours) ==> r[WorkingHoursKey] == WorkingHoursMissing
    ensures !Filled(fd, TeamSizeNeeded) ==> r[TeamSizeKey] == TeamSizeMissing
    ensures !Filled(fd, BudgetReality) ==> r[BudgetKey] == BudgetMissing
  {
    var e5 := AddError(errors, !Filled(fd, WorkingHours), WorkingHoursKey, WorkingHoursMissing);
    var e6 := AddError(e5, !Filled(fd, TeamSizeNeeded), TeamSizeKey, TeamSizeMissing);
    AddError(e6, !Filled(fd, BudgetReality), BudgetKey, BudgetMissing)
  }

  /**
   * The errors `validateAndProceed` reports: name, email (missing, or not shaped like an
   * address), company, skills, and the three stored answers.
   */
  function Stage4Errors(c: ContactInfo, skills: seq<string>, fd: FormData): (r: map<ErrorKey, string>)
    ensures NameKey in r <==> c.name == ""
    ensures EmailKey in r <==> c.email == "" || !Utils.ValidateEmail(c.email)
    ensures c.email == "" ==> r[EmailKey] == EmailMissing
    ensures c.email != "" && !Utils.ValidateEmail(c.email) ==> r[EmailKey] == EmailInvalid
    ensures CompanyKey in r <==> c.company == ""
    ensures SkillsKey in r <==> |skills| == 0
    ensures WorkingHoursKey in r <==> !Filled(fd, WorkingHours)
    ensures TeamSizeKey in r <==> !Filled(fd, TeamSizeNeeded)
    ensures BudgetKey in r <==> !Filled(fd, BudgetReality)
    ensures r.Keys <= {NameKey, EmailKey, CompanyKey, SkillsKey, WorkingHoursKey, TeamSizeKey, BudgetKey}
    ensures c.name == "" ==> r[NameKey] == NameMissing
    ensures c.company == "" ==> r[CompanyKey] == CompanyMissing
    ensures |skills| == 0 ==> r[SkillsKey] == SkillsMissing
    ensures !Filled(fd, WorkingHours) ==> r[WorkingHoursKey] == WorkingHoursMissing
    ensures !Filled(fd, TeamSizeNeeded) ==> r[TeamSizeKey] == TeamSizeMissing
    ensures !Filled(fd, BudgetReality) ==> r[BudgetKey] == BudgetMissing
  {
    AnswerErrors(ContactErrors(c, skills), fd)
  }

  /** The phone number is optional and never checked. */
  lemma PhoneNeverChecked(c: ContactInfo, phone: string, skills: seq<string>, fd: FormData)
    ensures Stage4Errors(c.(phone := phone), skills, fd) == Stage4Errors(c, skills, fd)
  {
  }

  /** The stage passes exactly when every required answer is present and the email is well formed. */
  lemma PassesExactly(c: ContactInfo, skills: seq<string>, fd: FormData)
    ensures Stage4Errors(c, skills, fd) == map[] <==>
              c.name != "" && c.company != "" && Utils.ValidateEmail(c.email) && |skills| > 0 &&
              Filled(fd, WorkingHours) && Filled(fd, TeamSizeNeeded) && Filled(fd, BudgetReality)
  {
    var r := Stage4Errors(c, skills, fd);
    if c.email == "" {
      assert !Utils.ValidateEmail(c.email);
    }
    if r != map[] {
      var k :| k in r;
    }
  }

  /** The patch a successful submission merges: the four contact fields and the skills. */
  function ContactPatch(c: ContactInfo, skills: seq<string>): (p: FormData)
    ensures p.text.Keys == {Name, Email, Phone, Company} && p.lists.Keys == {SkillPriority}
    ensures p.text[Name] == c.name && p.text[Email] == c.email
    ensures p.text[Phone] == c.phone && p.text[Company] == c.company
    ensures p.lists[SkillPriority] == skills
  {
    FormData(map[Name := c.name, Email := c.email, Phone := c.phone, Company := c.company],
             map[SkillPriority := skills])
  }

  /** The error key each stored select clears. */
  function SelectErrorKey(f: TextField): ErrorKey {
    match f
    case WorkingHours => WorkingHoursKey
    case TeamSizeNeeded => TeamSizeKey
    case _ => BudgetKey
  }

  /** The contact field an edit writes. */
  function WithContact(c: ContactInfo, f: TextField, v: string): (r: ContactInfo)
    requires f == Name || f == Email || f == Phone || f == Company
  {
    match f
    case Name => c.(name := v)
    case Email => c.(email := v)
    case Phone => c.(phone := v)
    case Company => c.(company := v)
  }

  /** The first four checks of `validateAndProceed`: name, email, company and skills, in that order. */
  method CheckContact(c: ContactInfo, skills: seq<string>) returns (newErrors: map<ErrorKey, string>)
    ensures newErrors == ContactErrors(c, skills)
  {
    newErrors := map[];
    if c.name == "" {
      newErrors := newErrors[NameKey := NameMissing];
    }
    ghost var e1 := newErrors;
    if c.email == "" {
      newErrors := newErrors[EmailKey := EmailMissing];
    } else if !Utils.ValidateEmail(c.email) {
      newErrors := newErrors[EmailKey := EmailInvalid];
    }
    assert newErrors == AddError(e1, EmailRejected(c.email), EmailKey, EmailMessage(c.email));
    ghost var e2 := newErrors;
    if c.company == "" {
      newErrors := newErrors[CompanyKey := CompanyMissing];
    }
    ghost var e3 := newErrors;
    if |skills| == 0 {
      newErrors := newErrors[SkillsKey := SkillsMissing];
    }
    assert e1 == AddError(map[], c.name == "", NameKey, NameMissing);
    assert e3 == AddError(e2, c.company == "", CompanyKey, CompanyMissing);
    assert newErrors == AddError(e3, |skills| == 0, SkillsKey, SkillsMissing);
  }

  /** The last three checks of `validateAndProceed`: the stored working hours, team size and budget. */
  method CheckAnswers(errors: map<ErrorKey, string>, fd: FormData) returns (newErrors: map<ErrorKey, string>)
    ensures newErrors == AnswerErrors(errors, fd)
  {
    newErrors := errors;
    if !Filled(fd, WorkingHours) {
      newErrors := newErrors[WorkingHoursKey := WorkingHoursMissing];
    }
    ghost var e5 := newErrors;
    if !Filled(fd, TeamSizeNeeded) {
      newErrors := newErrors[TeamSizeKey := TeamSizeMissing];
    }
    ghost var e6 := newErrors;
    if !Filled(fd, BudgetReality) {
      newErrors := newErrors[BudgetKey := BudgetMissing];
    }
    assert e5 == AddError(errors, !Filled(fd, WorkingHours), WorkingHoursKey, WorkingHoursMissing);
    assert e6 == AddError(e5, !Filled(fd, TeamSizeNeeded), TeamSizeKey, TeamSizeMissing);
  }

  class Component {
    const store: QualificationStore
    var selectedSkills: seq<string>
    var contactInfo: ContactInfo
    var errors: map<ErrorKey, string>

    constructor(store: QualificationStore)
      ensures this.store == store
      ensures selectedSkills == ListOr(store.formData, SkillPriority, [])
      ensures contactInfo == InitialContact(store.formData) && errors == map[]
    {
      this.store := store;
      selectedSkills := ListOr(store.formData, SkillPriority, []);
      contactInfo := InitialContact(store.formData);
      errors := map[];
    }

    /** `handleSkillToggle`: updates the selection and, when it changed, the stored skills. */
    method HandleSkillToggle(skill: string)
      modifies this, store
      ensures selectedSkills == ToggledSkills(old(selectedSkills), skill)
      ensures skill in old(selectedSkills) || |old(selectedSkills)| < MaxSkills ==>
                store.formData == Merge(old(store.formData), SetList(SkillPriority, selectedSkills))
      ensures skill !in old(selectedSkills) && |old(selectedSkills)| >= MaxSkills ==>
                store.formData == old(store.formData)
      ensures contactInfo == old(contactInfo) && errors == old(errors)
      ensures store.currentStage == old(store.currentStage) && store.responses == old(store.responses)
    {
      if skill in selectedSkills {
        var updated := Without(selectedSkills, skill);
        selectedSkills := updated;
        store.UpdateFormData(SetList(SkillPriority, updated));
      } else if |selectedSkills| < MaxSkills {
        var updated := selectedSkills + [skill];
        selectedSkills := updated;
        store.UpdateFormData(SetList(SkillPriority, updated));
      }
    }

    /** The working-hours, team-size and budget buttons: store the answer and clear its error. */
    method Select(f: TextField, value: string)
      requires f == WorkingHours || f == TeamSizeNeeded || f == BudgetReality
      modifies this, store
      ensures store.formData == Merge(old(store.formData), SetText(f, value))
      ensures errors == old(errors)[SelectErrorKey(f) := ""]
      ensures selectedSkills == old(selectedSkills) && contactInfo == old(contactInfo)
      ensures store.currentStage == old(store.currentStage) && store.responses == old(store.responses)
    {
      store.UpdateFormData(SetText(f, value));
      errors := errors[SelectErrorKey(f) := ""];
    }

    /** A contact field edit: kept locally; every field but the phone clears its error. */
    method EditContact(f: TextField, value: string)
      requires f == Name || f == Email || f == Phone || f == Company
      modifies this
      ensures contactInfo == WithContact(old(contactInfo), f, value)
      ensures f == Phone ==> errors == old(errors)
      ensures f == Name ==> errors == old(errors)[NameKey := ""]
      ensures f == Email ==> errors == old(errors)[EmailKey := ""]
      ensures f == Company ==> errors == old(errors)[CompanyKey := ""]
      ensures selectedSkills == old(selectedSkills)
    {
      contactInfo := WithContact(contactInfo, f, value);
      if f == Name {
        errors := errors[NameKey := ""];
      } else if f == Email {
        errors := errors[EmailKey := ""];
      } else if f == Company {
        errors := errors[CompanyKey := ""];
      }
    }

    /**
     * `validateAndProceed`: with any error the errors are shown and neither the answers
     * nor the stage change; otherwise the contact details and skills are merged into
     * the answers and the store advances once.
     */
    method ValidateAndProceed()
      modifies this, store
      ensures var expected := Stage4Errors(old(contactInfo), old(selectedSkills), old(store.formData));
              if expected != map[] then
                errors == expected && store.formData == old(store.formData) &&
                store.currentStage == old(store.currentStage)
              else
                errors == old(errors) &&
                store.formData == Merge(old(store.formData), ContactPatch(old(contactInfo), old(selectedSkills))) &&
                store.currentStage == NextStageOf(old(store.currentStage))
      ensures selectedSkills == old(selectedSkills) && contactInfo == old(contactInfo)
      ensures store.responses == old(store.responses)
    {
      var newErrors := CheckContact(contactInfo, selectedSkills);
      newErrors := CheckAnswers(newErrors, store.formData);
      if |newErrors| > 0 {
        errors := newErrors;
        return;
      }
      store.UpdateFormData(ContactPatch(contactInfo, selectedSkills));
      store.NextStage();
    }

    /** The Back button. */
    method Back()
      modifies store
      ensures store.currentStage == PreviousStageOf(old(store.currentStage))
      ensures store.formData == old(store.formData) && store.responses == old(store.responses)
    {
      store.PreviousStage();
    }
  }
}
