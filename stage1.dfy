/**
 * Stage 1, initial qualification: business type, team size, main pain point and
 * timeline, each required, and a hard block for financial-services businesses.
 */
module Stage1 {
  import opened Types
  import opened ListOps
  import Constants
  import Utils
  import opened Store

  /** The error key the stage uses for each of its fields. */
  function ErrorKey(f: TextField): string {
    match f
    case BusinessType => "businessType"
    case TeamSize => "teamSize"
    case PainPoint => "painPoint"
    case _ => "timeline"
  }

  /** The four fields this stage asks for. */
  predicate Asked(f: TextField) {
    f == BusinessType || f == TeamSize || f == PainPoint || f == Timeline
  }

  /**
   * The errors `validateAndProceed` reports: one message for each of the four
   * answers that is absent or empty, and nothing else.
   */
  function RequiredErrors(fd: FormData): (r: map<string, string>)
    ensures "businessType" in r <==> !Filled(fd, BusinessType)
    ensures "teamSize" in r <==> !Filled(fd, TeamSize)
    ensures "painPoint" in r <==> !Filled(fd, PainPoint)
    ensures "timeline" in r <==> !Filled(fd, Timeline)
    ensures r.Keys <= {"businessType", "teamSize", "painPoint", "timeline"}
    ensures forall k :: k in r ==> r[k] != ""
    ensures r == map[] <==> Filled(fd, BusinessType) && Filled(fd, TeamSize) && Filled(fd, PainPoint) && Filled(fd, Timeline)
  {
    var e0: map<string, string> := map[];
    var e1 := if !Filled(fd, BusinessType) then e0["businessType" := "Please select your business type"] else e0;
    var e2 := if !Filled(fd, TeamSize) then e1["teamSize" := "Please select your team size"] else e1;
    var e3 := if !Filled(fd, PainPoint) then e2["painPoint" := "Please select your main pain point"] else e2;
    var e4 := if !Filled(fd, Timeline) then e3["timeline" := "Please select your timeline"] else e3;
    assert "businessType" in e4 ==> "businessType" in e1;
    e4
  }

  /** The pain points offered: the industry's list once a business type is chosen, else the default list. */
  function PainPointChoices(fd: FormData): (r: seq<string>)
    ensures Filled(fd, BusinessType) ==> r == Utils.DynamicPainPoints(fd.text[BusinessType])
    ensures !Filled(fd, BusinessType) ==> r == Constants.PainPointsDefault
    ensures |r| == 4 && Distinct(r)
  {
    Utils.DynamicPainPointsAgreeWithCatalog();
    if Filled(fd, BusinessType) then Utils.DynamicPainPoints(fd.text[BusinessType]) else Constants.PainPointsDefault
  }

  /** Whatever the business type, financial and unknown types see the default list. */
  lemma PainPointChoicesDefaultForOtherTypes(fd: FormData)
    requires !TextIs(fd, BusinessType, "healthcare") && !TextIs(fd, BusinessType, "ecommerce")
    requires !TextIs(fd, BusinessType, "accounting") && !TextIs(fd, BusinessType, "marketing")
    requires !TextIs(fd, BusinessType, "trades")
    ensures PainPointChoices(fd) == Constants.PainPointsDefault
  {
    Utils.DynamicPainPointsAgreeWithCatalog();
  }

  class Component {
    const store: QualificationStore
    var showRedirect: bool
    var errors: map<string, string>

    constructor(store: QualificationStore)
      ensures this.store == store && !showRedirect && errors == map[]
    {
      this.store := store;
      showRedirect := false;
      errors := map[];
    }

    /** Stores the answer to one of the selects and clears that answer's error only. */
    method Select(f: TextField, value: string)
      requires Asked(f)
      modifies this, store
      ensures store.formData == Merge(old(store.formData), SetText(f, value))
      ensures errors == old(errors)[ErrorKey(f) := ""]
      ensures f == BusinessType ==> showRedirect == (value == "financial")
      ensures f != BusinessType ==> showRedirect == old(showRedirect)
      ensures store.currentStage == old(store.currentStage) && store.responses == old(store.responses)
    {
      store.UpdateFormData(SetText(f, value));
      errors := errors[ErrorKey(f) := ""];
      if f == BusinessType {
        showRedirect := value == "financial";
      }
    }

    /**
     * `validateAndProceed`: collects an error for each missing answer; with any error
     * the errors are shown and the stage stays, otherwise the store advances once.
     */
    method ValidateAndProceed()
      modifies this, store
      ensures var expected := RequiredErrors(old(store.formData));
              if expected != map[] then
                errors == expected && store.currentStage == old(store.currentStage)
              else
                errors == old(errors) && store.currentStage == NextStageOf(old(store.currentStage))
      ensures showRedirect == old(showRedirect)
      ensures store.formData == old(store.formData) && store.responses == old(store.responses)
    {
      var fd := store.formData;
      var newErrors: map<string, string> := map[];
      if !Filled(fd, BusinessType) {
        newErrors := newErrors["businessType" := "Please select your business type"];
      }
      if !Filled(fd, TeamSize) {
        newErrors := newErrors["teamSize" := "Please select your team size"];
      }
      if !Filled(fd, PainPoint) {
        newErrors := newErrors["painPoint" := "Please select your main pain point"];
      }
      if !Filled(fd, Timeline) {
        newErrors := newErrors["timeline" := "Please select your timeline"];
      }
      assert newErrors == RequiredErrors(fd);
      if |newErrors| > 0 {
        errors := newErrors;
        return;
      }
      store.NextStage();
    }

    /** The Continue button: disabled while the financial redirect is shown. */
    method Continue()
      modifies this, store
      ensures old(showRedirect) ==> errors == old(errors) && store.currentStage == old(store.currentStage)
      ensures !old(showRedirect) && RequiredErrors(old(store.formData)) == map[] ==>
                store.currentStage == NextStageOf(old(store.currentStage))
      ensures !old(showRedirect) && RequiredErrors(old(store.formData)) != map[] ==>
                store.currentStage == old(store.currentStage) && errors == RequiredErrors(old(store.formData))
      ensures showRedirect == old(showRedirect)
      ensures store.formData == old(store.formData) && store.responses == old(store.responses)
    {
      if !showRedirect {
        ValidateAndProceed();
      }
    }
  }
}
