/**
 * Stage 2, industry deep-dive: a question group chosen by the business type, with
 * checkbox lists that grow by appending and shrink by filtering, and single-choice
 * buttons. Continue always advances.
 */
module Stage2 {
  import opened Types
  import opened ListOps
  import opened Store

  /** The question groups `renderQuestions` chooses between. */
  datatype QuestionGroup = HealthcareQuestions | EcommerceQuestions | AccountingQuestions | GenericQuestions

  /** `renderQuestions`: healthcare, e-commerce and accounting have their own group, any other type the generic one. */
  function GroupFor(fd: FormData): (g: QuestionGroup)
    ensures g == HealthcareQuestions <==> TextIs(fd, BusinessType, "healthcare")
    ensures g == EcommerceQuestions <==> TextIs(fd, BusinessType, "ecommerce")
    ensures g == AccountingQuestions <==> TextIs(fd, BusinessType, "accounting")
  {
    if TextIs(fd, BusinessType, "healthcare") then HealthcareQuestions
    else if TextIs(fd, BusinessType, "ecommerce") then EcommerceQuestions
    else if TextIs(fd, BusinessType, "accounting") then AccountingQuestions
    else GenericQuestions
  }

  /** The checkbox lists each group shows. */
  function ListsOf(g: QuestionGroup): set<ListField> {
    match g
    case HealthcareQuestions => {PracticeSystem, ComplianceConcerns}
    case AccountingQuestions => {Software, ServiceTypes}
    case _ => {}
  }

  /** The single-choice questions each group shows. */
  function ChoicesOf(g: QuestionGroup): set<TextField> {
    match g
    case HealthcareQuestions => {PatientVolume}
    case EcommerceQuestions => {Platform, OrderVolume, Bottleneck}
    case AccountingQuestions => {PeakSeasonPain}
    case GenericQuestions => {}
  }

  /** The groups ask about disjoint answers, and the generic group asks nothing. */
  lemma GroupsAreDisjoint(g: QuestionGroup, h: QuestionGroup)
    requires g != h
    ensures ListsOf(g) !! ListsOf(h) && ChoicesOf(g) !! ChoicesOf(h)
    ensures ListsOf(GenericQuestions) == {} && ChoicesOf(GenericQuestions) == {}
  {
  }

  /** The checkbox lists of this stage. */
  predicate CheckboxList(f: ListField) {
    f == PracticeSystem || f == ComplianceConcerns || f == Software || f == ServiceTypes
  }

  /** The single-choice answers of this stage. */
  predicate SingleChoice(f: TextField) {
    f == PatientVolume || f == Platform || f == OrderVolume || f == Bottleneck || f == PeakSeasonPain
  }

  /** Every field a group asks about is one this stage's handlers write. */
  lemma GroupFieldsAreHandled(g: QuestionGroup)
    ensures forall f :: f in ListsOf(g) ==> CheckboxList(f)
    ensures forall f :: f in ChoicesOf(g) ==> SingleChoice(f)
  {
  }

  /**
   * The list after a checkbox change: checking appends the item at the end, unchecking
   * drops every occurrence of it.
   */
  function AfterCheck(current: seq<string>, item: string, checked: bool): (r: seq<string>)
    ensures checked ==> r == current + [item]
    ensures !checked ==> item !in r && forall y :: y != item ==> multiset(r)[y] == multiset(current)[y]
  {
    if checked then current + [item] else Without(current, item)
  }

  /** Checking an unchecked item and unchecking it again restores the list. */
  lemma CheckThenUncheck(current: seq<string>, item: string)
    requires item !in current
    ensures AfterCheck(AfterCheck(current, item, true), item, false) == current
  {
    AppendThenWithout(current, item);
  }

  /**
   * A checkbox shows `checked` exactly when its item is in the list, and a click flips
   * it, so clicking keeps the list free of duplicates.
   */
  lemma ClickKeepsDistinct(current: seq<string>, item: string, checked: bool)
    requires Distinct(current) && checked == (item !in current)
    ensures Distinct(AfterCheck(current, item, checked))
  {
    if item in current {
      WithoutDistinct(current, item);
    } else {
      AppendDistinct(current, item);
    }
  }

  /** Unchecking keeps the other items in their order: filtering distributes over concatenation. */
  lemma UncheckKeepsOrder(before: seq<string>, after: seq<string>, item: string)
    ensures AfterCheck(before + [item] + after, item, false) == AfterCheck(before, item, false) + AfterCheck(after, item, false)
  {
    WithoutAroundOccurrence(before, item, after);
  }

  class Component {
    const store: QualificationStore

    constructor(store: QualificationStore)
      ensures this.store == store
    {
      this.store := store;
    }

    /** A checkbox change: the list, or an empty one when absent, rebuilt and written back. */
    method Check(f: ListField, item: string, checked: bool)
      requires CheckboxList(f)
      modifies store
      ensures store.formData == Merge(old(store.formData), SetList(f, AfterCheck(ListOr(old(store.formData), f, []), item, checked)))
      ensures store.currentStage == old(store.currentStage) && store.responses == old(store.responses)
    {
      var current := ListOr(store.formData, f, []);
      var updated: seq<string>;
      if checked {
        updated := current + [item];
      } else {
        updated := Without(current, item);
      }
      store.UpdateFormData(SetList(f, updated));
    }

    /** A single-choice button: sets exactly its answer. */
    method Choose(f: TextField, option: string)
      requires SingleChoice(f)
      modifies store
      ensures store.formData == Merge(old(store.formData), SetText(f, option))
      ensures store.currentStage == old(store.currentStage) && store.responses == old(store.responses)
    {
      store.UpdateFormData(SetText(f, option));
    }

    /** `validateAndProceed`: no checks, always one stage on. */
    method ValidateAndProceed()
      modifies store
      ensures store.currentStage == NextStageOf(old(store.currentStage))
      ensures store.formData == old(store.formData) && store.responses == old(store.responses)
    {
      store.NextStage();
    }

    /** The Back button. */
    method Back()
      modifies store
      ensures store.currentStage == PreviousStageOf(old(store.currentStage))
      ensures store.formData == old(store.formData) && store.responses == old(store.responses)
    {
      store.PreviousStage();
    }
  }
}
