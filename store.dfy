/**
 * The session store: the current wizard stage, the accumulated answers and the
 * response log, replaced piecewise by its actions. Stages 1 to 4 are the question
 * stages; the results view is stage 5.
 */
module Store {
  import opened Types

  const FirstStage: int := 1
  const LastQuestionStage: int := 4

  /** The stage `nextStage` moves to: one further, but never past the last question stage. */
  function NextStageOf(stage: int): (r: int)
    ensures r <= LastQuestionStage
    ensures stage < LastQuestionStage ==> r == stage + 1
    ensures stage >= LastQuestionStage ==> r == LastQuestionStage
  {
    if stage + 1 < LastQuestionStage then stage + 1 else LastQuestionStage
  }

  /** The stage `previousStage` moves to: one back, but never before the first stage. */
  function PreviousStageOf(stage: int): (r: int)
    ensures r >= FirstStage
    ensures stage > FirstStage ==> r == stage - 1
    ensures stage <= FirstStage ==> r == FirstStage
  {
    if stage - 1 > FirstStage then stage - 1 else FirstStage
  }

  /** Moving forward and then back from a question stage before the last returns to it. */
  lemma NextThenPrevious(stage: int)
    requires FirstStage <= stage < LastQuestionStage
    ensures PreviousStageOf(NextStageOf(stage)) == stage
  {
  }

  /** Moving back and then forward from a question stage after the first returns to it. */
  lemma PreviousThenNext(stage: int)
    requires FirstStage < stage <= LastQuestionStage
    ensures NextStageOf(PreviousStageOf(stage)) == stage
  {
  }

  /** The actions the wizard's buttons dispatch; `setStage` is not among them. */
  datatype Navigation = Forward | Back

  /** The stage reached from `stage` by a run of button presses. */
  function Navigate(stage: int, presses: seq<Navigation>): int
    decreases |presses|
  {
    if presses == [] then stage
    else
      var s := if presses[0] == Forward then NextStageOf(stage) else PreviousStageOf(stage);
      Navigate(s, presses[1..])
  }

  /**
   * However the buttons are pressed, the stage stays among the question stages, so
   * the results stage 5 is never reached by navigation.
   */
  lemma {:induction false} NavigationStaysInQuestions(stage: int, presses: seq<Navigation>)
    requires FirstStage <= stage <= LastQuestionStage
    ensures FirstStage <= Navigate(stage, presses) <= LastQuestionStage
    ensures Navigate(stage, presses) != 5
    decreases |presses|
  {
    if presses != [] {
      var s := if presses[0] == Forward then NextStageOf(stage) else PreviousStageOf(stage);
      NavigationStaysInQuestions(s, presses[1..]);
    }
  }

  /** Pressing Continue often enough reaches the last question stage and stays there. */
  lemma {:induction false} ForwardReachesLastStage(stage: int, n: nat)
    requires FirstStage <= stage <= LastQuestionStage && n >= LastQuestionStage - stage
    ensures Navigate(stage, seq(n, _ => Forward)) == LastQuestionStage
    decreases n
  {
    if n > 0 {
      var presses := seq(n, _ => Forward);
      assert presses[0] == Forward;
      assert presses[1..] == seq(n - 1, _ => Forward);
      ForwardReachesLastStage(NextStageOf(stage), n - 1);
    }
  }

  class QualificationStore {
    var currentStage: int
    var formData: FormData
    var responses: seq<QualificationResponse>

    /** A fresh session: stage 1, no answers, no responses. */
    constructor()
      ensures currentStage == FirstStage && formData == EmptyForm && responses == []
    {
      currentStage := FirstStage;
      formData := EmptyForm;
      responses := [];
    }

    /** `updateFormData`: shallow-merges the supplied keys over the current answers. */
    method UpdateFormData(patch: FormData)
      modifies this
      ensures formData == Merge(old(formData), patch)
      ensures currentStage == old(currentStage) && responses == old(responses)
    {
      formData := Merge(formData, patch);
    }

    /** `addResponse`: appends to the log, keeping the earlier responses in order. */
    method AddResponse(response: QualificationResponse)
      modifies this
      ensures responses == old(responses) + [response]
      ensures currentStage == old(currentStage) && formData == old(formData)
    {
      responses := responses + [response];
    }

    /** `nextStage`. */
    method NextStage()
      modifies this
      ensures currentStage == NextStageOf(old(currentStage))
      ensures formData == old(formData) && responses == old(responses)
    {
      currentStage := if currentStage + 1 < LastQuestionStage then currentStage + 1 else LastQuestionStage;
    }

    /** `previousStage`. */
    method PreviousStage()
      modifies this
      ensures currentStage == PreviousStageOf(old(currentStage))
      ensures formData == old(formData) && responses == old(responses)
    {
      currentStage := if currentStage - 1 > FirstStage then currentStage - 1 else FirstStage;
    }

    /** `setStage`: any stage, unchecked; the only way to the results stage. */
    method SetStage(stage: int)
      modifies this
      ensures currentStage == stage
      ensures formData == old(formData) && responses == old(responses)
    {
      currentStage := stage;
    }

    /** `resetQualification`: back to the state of a fresh session. */
    method ResetQualification()
      modifies this
      ensures currentStage == FirstStage && formData == EmptyForm && responses == []
    {
      currentStage := FirstStage;
      formData := EmptyForm;
      responses := [];
    }
  }
}
