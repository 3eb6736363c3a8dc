# Lead qualification funnel — a Dafny model

This project models the logic of a four-stage lead-qualification questionnaire for an
offshore staffing provider. A prospect answers questions about their business (stage 1),
industry specifics (stage 2), culture and investment mindset (stage 3), and team and
contact details (stage 4). The answers are kept in one shared store. A score and a
category (hot, warm, nurture, redirect) are computed from them and turned into a
tailored result.

Modules follow the source files:

- `Types` (`types.dfy`): the form data, categories, results and recorded responses.
  Form data is two maps: single-answer fields to strings, multi-answer fields to string
  lists. A text answer counts as given when it is present and non-empty, which is what
  JavaScript's truthiness test means for a string. `Merge` is the `{...old, ...patch}`
  spread that the store uses.
- `Constants` (`constants.dfy`): the option catalogs, the investment priorities, the
  volume and experience lists, the thresholds and the redirect messages.
- `Utils` (`utils.dfy`): pain points and skill lists per business type, stage titles,
  the remaining-time estimate, and the e-mail and phone checks. Each regular expression
  is given an independent declarative reading (`MatchesEmailPattern`,
  `MatchesPhonePattern`), and the executable check is proved equivalent to it.
- `Scoring` (`scoring.dfy`): the score as a sum of table lookups and bonuses clamped at
  zero, the category, the four result templates, and the financial and price-first
  overrides.
- `Store` (`store.dfy`): the shared store as a class whose methods replace
  `currentStage`, `formData` and `responses`. The clamped stage arithmetic lives in the
  pure functions `NextStageOf` and `PreviousStageOf`.
- `Stage1` … `Stage4` (`stage1.dfy` … `stage4.dfy`): each stage component is a class
  `Component`. It holds a reference to the store and the component's local state (the
  errors map, the redirect flag, the ranking being dragged, the selected skills, the
  contact fields). Its handlers are methods, and each is specified against a pure
  function (`RequiredErrors`, `AfterCheck`, `Moved`, `ToggledSkills`, `Stage4Errors`).
- `ListOps` (`listops.dfy`): sequence helpers. These are `indexOf`, `filter(x => x !== y)`
  as `Without`, JavaScript's `splice` (with its negative-start rule) as `Splice`, and
  substring search as `Contains`.

Some facts about the code as written are proved rather than assumed:

- The team-philosophy and community-impact catalogs carry score modifiers that differ
  from the scoring tables. The tables decide the score (`CultureTablesDisagreeWithCatalog`).
- `nextStage` never goes past stage 4, so repeated Continue presses stay on the last
  question stage (`NavigationStaysInQuestions`, `ForwardReachesLastStage`).
- The phone number is never validated or required at stage 4 (`PhoneNeverChecked`).

## Model

| member | source | states |
|---|---|---|
| Types.TextOr | components/qualification/Stage4.tsx:20-23 | `field \|\| default` yields the stored answer when it is non-empty and the default otherwise |
| Types.ListOr | components/qualification/Stage2.tsx:41 | `list \|\| default` yields the stored list when present (an empty array is truthy) and the default otherwise |
| Types.Merge | store/qualification-store.ts:32-36 | the merged form has the union of the keys; a patched key takes the patch's value and every other key keeps its old value |
| Types.MergeIdentity | store/qualification-store.ts:32-36 | merging an empty patch, or into an empty form, leaves the form unchanged |
| Types.MergeCommutesOnDisjointKeys | store/qualification-store.ts:32-36 | two updates that touch disjoint fields can be applied in either order |
| Constants.ThresholdsStrictlyDecreasing | lib/constants.ts:352-357 | the thresholds are 70, 50, 30, 0, strictly decreasing |
| Constants.BusinessTypeValuesDistinct | lib/constants.ts:3-53 | the business-type catalog lists seven pairwise distinct values, in this order |
| Constants.TeamSizeValuesDistinct | lib/constants.ts:55-91 | the team-size catalog lists five pairwise distinct values |
| Constants.TimelineValuesDistinct | lib/constants.ts:93-122 | the timeline catalog lists four pairwise distinct values |
| Constants.TeamPhilosophyValuesDistinct | lib/constants.ts:226-247 | the team-philosophy catalog lists four pairwise distinct values |
| Constants.CommunityImpactValuesDistinct | lib/constants.ts:257-273 | the community-impact catalog lists three pairwise distinct values |
| Constants.BudgetRealityValuesDistinct | lib/constants.ts:298-319 | the budget catalog lists four pairwise distinct values |
| Constants.InvestmentPrioritiesShape | lib/constants.ts:249-255 | five distinct priorities, of which exactly one (the second) is "Lowest possible price" |
| Utils.DynamicPainPoints | lib/utils.ts:26-66 | always four distinct pain points; any business type outside the five listed gets the generic list |
| Utils.DynamicPainPointsAgreeWithCatalog | lib/constants.ts:124-149 | the healthcare, e-commerce and accounting lists and the generic list equal the catalog's; financial and other get the catalog default |
| Utils.SkillPriorities | lib/utils.ts:68-122 | always exactly eight distinct skills; any type outside the four listed gets the default eight |
| Utils.SkillPrioritiesExtendCatalog | lib/constants.ts:321-350 | each of the four skill lists begins with the catalog's five skills for that type |
| Utils.StageTitle | lib/utils.ts:128-136 | stages 1 to 4 have their own titles, and exactly the other numbers get "Qualification" |
| Utils.CeilMinutes | lib/utils.ts:149 | the result is the ceiling of seconds / 60 |
| Utils.NatToString | lib/utils.ts:149 | the decimal rendering of the minutes is a non-empty string of digits with no leading zero |
| Utils.NatToStringReadsBack | lib/utils.ts:149 | reading the rendered digits back as a decimal number gives the number itself |
| Utils.TimeToComplete | lib/utils.ts:138-151 | "Less than 1 minute" iff responses >= 12, "About 1 minute" iff 8..11, otherwise "About m minutes" with m = ceil((15 - responses) * 15 / 60) >= 2 |
| Utils.ValidateEmailMatchesPattern | lib/utils.ts:153-156 | the check accepts exactly the strings of the form local@host.top with all three parts non-empty and free of whitespace and '@' |
| Utils.EmailCheckSound | lib/utils.ts:153-156 | every accepted address matches that pattern |
| Utils.EmailCheckComplete | lib/utils.ts:153-156 | every address matching that pattern is accepted |
| Utils.CleanPhone | lib/utils.ts:161 | removing white space, parentheses and hyphens leaves none of them and never lengthens the string |
| Utils.CleanPhoneChar | lib/utils.ts:161 | a single separator character is removed and any other single character is kept |
| Utils.CleanPhoneKeepsOthers | lib/utils.ts:161 | every character other than a separator occurs in the cleaned number as often as in the input |
| Utils.CleanPhoneAppend | lib/utils.ts:161 | the clean-up works character by character: cleaning a concatenation concatenates the cleaned parts |
| Utils.CleanPhoneIdempotent | lib/utils.ts:161 | cleaning twice is the same as cleaning once |
| Utils.CleanNumberMatchesPattern | lib/utils.ts:160 | the length-driven test on a cleaned number accepts exactly the strings the pattern matches |
| Utils.ValidatePhoneMatchesPattern | lib/utils.ts:158-163 | accepted iff the cleaned number is "+61", "61" or "0", then one of 2, 3, 4, 7, 8, then exactly eight digits |
| Scoring.Lookup | lib/scoring.ts:18-20 | a listed value scores its table entry and an unlisted value scores 0 |
| Scoring.Points | lib/scoring.ts:18-77 | a missing or empty answer scores 0, an unlisted answer scores 0, and a listed one scores its table entry |
| Scoring.ExperienceBonus | lib/scoring.ts:80-85 | the bonus is 10 exactly when the experience contains "disappointed" or "lacked", and 0 otherwise |
| Scoring.PatientVolumeBonus | lib/scoring.ts:88-94 | a healthcare lead with a patient volume earns that volume's table entry (0 when unlisted); every other lead earns 0; always between 0 and 15 |
| Scoring.OrderVolumeBonus | lib/scoring.ts:96-102 | an e-commerce lead with an order volume earns that volume's table entry (0 when unlisted); every other lead earns 0; always between 0 and 15 |
| Scoring.Score | lib/scoring.ts:104 | the score is the raw sum when that is non-negative, and 0 otherwise |
| Scoring.ScoreAtMost125 | lib/scoring.ts:4-105 | every score lies between 0 and 125 |
| Scoring.TableMaxima | lib/scoring.ts:8-76 | the largest entry of each scoring table (30, 15, 10, 20, 15, 10) |
| Scoring.EmptyFormScoresZero | lib/scoring.ts:4-105 | an empty form has raw score and score 0 |
| Scoring.UnlistedValueScoresAsAbsent | lib/scoring.ts:18-77 | an answer outside its table scores the same as no answer at all |
| Scoring.PatientVolumeOnlyForHealthcare | lib/scoring.ts:88-94 | outside healthcare, any patient-volume answer scores the same as none |
| Scoring.OrderVolumeOnlyForEcommerce | lib/scoring.ts:96-102 | outside e-commerce, any order-volume answer scores the same as none |
| Scoring.CategoryOf | lib/scoring.ts:107-112 | hot iff score >= 70, warm iff 50 <= score < 70, nurture iff 30 <= score < 50, redirect iff score < 30 |
| Scoring.CategoryBoundaries | lib/scoring.ts:107-112 | 70 is hot and 69 warm, 50 is warm and 49 nurture, 30 is nurture and 29 redirect, 0 is redirect |
| Scoring.CategoryMonotone | lib/scoring.ts:107-112 | a higher score never gets a lower category |
| Scoring.Industry | lib/scoring.ts:159-161 | the industry label is Healthcare, E-commerce or Accounting for those types, and Business otherwise |
| Scoring.LowerAscii | lib/scoring.ts:167 | lower-casing keeps the length and maps each character on its own |
| Scoring.HotLeadResult | lib/scoring.ts:158-185 | hot result: the given score, category hot, the calendar call to action, a body naming the industry, three recommendations |
| Scoring.WarmLeadResult | lib/scoring.ts:187-208 | warm result: the given score, category warm, the proposal call to action, three recommendations |
| Scoring.NurtureLeadResult | lib/scoring.ts:210-238 | nurture result: the given score, category nurture, the download call to action, three recommendations |
| Scoring.RedirectResult | lib/scoring.ts:240-257 | redirect result: the given score, the mismatch headline, no call to action, three recommendations |
| Scoring.GenerateQualificationResult | lib/scoring.ts:114-156 | the score is always the computed one; financial wins over everything and redirects with the financial message and its two recommendations; otherwise a cheap or not-concerned answer redirects with the cheap message and its two recommendations whatever the score; otherwise the result is exactly the template of the score's category; each category has its call to action |
| Scoring.RedirectExactly | lib/scoring.ts:114-156 | a result is a redirect iff the type is financial, or the mindset is price-first, or the score is below 30 |
| Scoring.BusinessTypeTableAgreesWithCatalog | lib/constants.ts:3-53 | every business-type option's modifier equals its scoring-table entry, for all seven values |
| Scoring.TeamSizeAndTimelineTablesAgreeWithCatalog | lib/constants.ts:55-122 | the team-size and timeline modifiers equal their scoring tables |
| Scoring.BudgetTableAgreesWithCatalog | lib/constants.ts:298-319 | the budget modifiers equal the budget scoring table |
| Scoring.CultureTablesDisagreeWithCatalog | lib/constants.ts:226-273 | every team-philosophy modifier differs from its scoring entry, and "not-concerned" is -10 in the catalog but -25 in scoring |
| Scoring.VolumeBonusesAreCatalogOptions | lib/constants.ts:170-191 | every scored patient volume and order volume is one of the catalog's options |
| Scoring.ExperienceOptionsWithBonus | lib/constants.ts:275-281 | exactly the first two experience options earn the bonus |
| Scoring.FirstExperienceHasBonus | lib/constants.ts:276 | the first option contains "disappointed" |
| Scoring.SecondExperienceHasBonus | lib/constants.ts:277 | the second option contains "lacked" |
| Scoring.NoBonusForFirstTime | lib/constants.ts:278 | the first-time option earns no bonus |
| Scoring.NoBonusForFreelancers | lib/constants.ts:279 | the freelancer option earns no bonus |
| Scoring.NoBonusForOtherBPO | lib/constants.ts:280 | the option for leads already with another provider earns no bonus |
| Scoring.BestAnswerEntries | lib/scoring.ts:8-91 | the table entries of the best answers (healthcare 30, growing 15, yesterday 10, family 20, aligned 15, matters 10, 300+ patients 15) |
| Scoring.HotHealthcareExample | lib/scoring.ts:4-112 | a healthcare lead with the best answers scores 115 and falls in the hot category, with no override |
| Scoring.HotHealthcareResult | lib/scoring.ts:114-185 | the best-answer healthcare lead gets exactly the hot template with score 115 |
| Scoring.ClampedTradesScore | lib/scoring.ts:4-112 | a weak trades lead's parts sum to -5, which clamps to 0 in the redirect range, with no override |
| Scoring.ClampedTradesExample | lib/scoring.ts:104 | a weak trades lead has raw score -5, scores 0, and gets the plain redirect result |
| Scoring.FinancialExample | lib/scoring.ts:119-130 | a financial lead is redirected with the financial message, even with a price-first mindset |
| Scoring.CheapOverridesHotScore | lib/scoring.ts:132-143 | a price-first lead can score 75 (hot range) and still fall under the cheap override |
| Scoring.CheapOverridesHotResult | lib/scoring.ts:132-143 | that lead's result is exactly the cheap redirect: score 75, mismatch headline, cheap message and recommendations, no call to action |
| Store.NextStageOf | store/qualification-store.ts:44-48 | stage + 1 below stage 4, otherwise 4; never above 4 |
| Store.PreviousStageOf | store/qualification-store.ts:50-54 | stage - 1 above stage 1, otherwise 1; never below 1 |
| Store.NextThenPrevious | store/qualification-store.ts:44-54 | from stages 1 to 3, Continue then Back returns to the same stage |
| Store.PreviousThenNext | store/qualification-store.ts:44-54 | from stages 2 to 4, Back then Continue returns to the same stage |
| Store.NavigationStaysInQuestions | store/qualification-store.ts:44-54 | any sequence of Continue and Back presses from a question stage stays within stages 1 to 4 and never reaches 5 |
| Store.ForwardReachesLastStage | store/qualification-store.ts:44-48 | enough Continue presses reach stage 4 and stay there |
| Store.QualificationStore.constructor | store/qualification-store.ts:25-27 | initial state: stage 1, empty form, no responses |
| Store.QualificationStore.UpdateFormData | store/qualification-store.ts:32-36 | the form becomes old form merged with the patch; stage and responses unchanged |
| Store.QualificationStore.AddResponse | store/qualification-store.ts:38-42 | the response is appended after the earlier ones; stage and form unchanged |
| Store.QualificationStore.NextStage | store/qualification-store.ts:44-48 | the stage becomes NextStageOf(old stage); form and responses unchanged |
| Store.QualificationStore.PreviousStage | store/qualification-store.ts:50-54 | the stage becomes PreviousStageOf(old stage); form and responses unchanged |
| Store.QualificationStore.SetStage | store/qualification-store.ts:56-60 | the stage is set as given, without clamping; form and responses unchanged |
| Store.QualificationStore.ResetQualification | store/qualification-store.ts:62-70 | back to stage 1, empty form, no responses |
| Stage1.RequiredErrors | components/qualification/Stage1.tsx:46-60 | one non-empty message for each of the four questions left unanswered, and none otherwise |
| Stage1.PainPointChoices | components/qualification/Stage1.tsx:70-72 | the dynamic list for the chosen business type, or the catalog default when none is chosen; always four distinct items |
| Stage1.PainPointChoicesDefaultForOtherTypes | components/qualification/Stage1.tsx:70-72 | a business type with no list of its own (financial, other) gets the catalog default |
| Stage1.Component.constructor | components/qualification/Stage1.tsx:16-18 | no redirect notice and no errors at first |
| Stage1.Component.Select | components/qualification/Stage1.tsx:20-44 | stores exactly the chosen field, clears only that field's error, and shows the redirect notice iff the business type chosen is financial |
| Stage1.Component.ValidateAndProceed | components/qualification/Stage1.tsx:46-68 | with errors, shows them and stays; without, advances exactly one stage; the form is never changed |
| Stage1.Component.Continue | components/qualification/Stage1.tsx:217-221 | while the redirect notice shows, the button does nothing; otherwise it validates and proceeds |
| Stage2.GroupFor | components/qualification/Stage2.tsx:300-311 | healthcare, e-commerce and accounting get their own question group, and every other or missing type the generic one |
| Stage2.GroupsAreDisjoint | components/qualification/Stage2.tsx:24-298 | different groups ask about different fields, and the generic group asks nothing |
| Stage2.GroupFieldsAreHandled | components/qualification/Stage2.tsx:24-298 | every field a group shows is a checkbox list or single-choice field that this stage handles |
| Stage2.AfterCheck | components/qualification/Stage2.tsx:40-49 | checking appends the item at the end; unchecking removes every occurrence and keeps the count of every other item |
| Stage2.CheckThenUncheck | components/qualification/Stage2.tsx:40-49 | checking then unchecking an item that was not listed restores the list |
| Stage2.ClickKeepsDistinct | components/qualification/Stage2.tsx:39-49 | clicks as the checkbox offers them (check when unlisted, uncheck when listed) keep the list free of duplicates |
| Stage2.UncheckKeepsOrder | components/qualification/Stage2.tsx:44-47 | unchecking keeps the remaining items in their original order |
| Stage2.Component.constructor | components/qualification/Stage2.tsx:21 | the component reads the shared store |
| Stage2.Component.Check | components/qualification/Stage2.tsx:40-49 | the field's list (missing treated as empty) is replaced by AfterCheck of it; stage and responses unchanged |
| Stage2.Component.Choose | components/qualification/Stage2.tsx:101 | a single-choice button sets exactly its field |
| Stage2.Component.ValidateAndProceed | components/qualification/Stage2.tsx:313-315 | Continue always advances, without validation, and leaves the form unchanged |
| Stage2.Component.Back | components/qualification/Stage2.tsx:337 | Back moves to the previous stage and leaves the form unchanged |
| Stage3.InitialRanking | components/qualification/Stage3.tsx:17-19 | the stored investment mindset if there is one, otherwise the catalog order |
| Stage3.MoveIsPermutation | components/qualification/Stage3.tsx:34-39 | a drop yields a permutation of the ranking with the dragged item at the target's old index, and the other items in their old order |
| Stage3.MoveKeepsDistinct | components/qualification/Stage3.tsx:34-39 | a ranking without duplicates keeps none after a drop |
| Stage3.LowestPriceWarningExample | components/qualification/Stage3.tsx:111 | the catalog order shows no price warning; dragging the price onto the first item makes it show |
| Stage3.Component.constructor | components/qualification/Stage3.tsx:16-20 | the ranking starts as InitialRanking of the stored form, with nothing being dragged |
| Stage3.Component.DragStart | components/qualification/Stage3.tsx:22-24 | remembers the dragged item and leaves the ranking alone |
| Stage3.Component.HandleDrop | components/qualification/Stage3.tsx:30-44 | with no dragged item, or a drop onto itself, nothing changes; otherwise the ranking becomes Moved(...), is stored as the investment mindset, and the dragged item is cleared |
| Stage3.Component.Answer | components/qualification/Stage3.tsx:181-194 | a philosophy, impact, experience or switching-reason answer sets exactly its field; the switching reason can only be typed while the lead is with another provider |
| Stage3.Component.ValidateAndProceed | components/qualification/Stage3.tsx:46-48 | Continue always advances; the price warning never blocks |
| Stage3.Component.Back | components/qualification/Stage3.tsx:205 | Back moves to the previous stage and leaves the form unchanged |
| Stage4.InitialContact | components/qualification/Stage4.tsx:19-24 | each contact field starts from the stored answer, or empty |
| Stage4.SkillOptions | components/qualification/Stage4.tsx:27 | the skill list for the chosen business type, or the default list when none is chosen; eight distinct skills |
| Stage4.ToggledSkills | components/qualification/Stage4.tsx:29-39 | a selected skill is removed and every other skill keeps its count; an unselected one is appended only while fewer than three are selected, and otherwise nothing changes |
| Stage4.ToggleRemovesInPlace | components/qualification/Stage4.tsx:30-33 | removing a skill that occurs once keeps the other skills in their order |
| Stage4.ToggleKeepsSelectionValid | components/qualification/Stage4.tsx:29-39 | from at most three distinct skills, a toggle keeps at most three distinct skills |
| Stage4.ToggleTwiceRestores | components/qualification/Stage4.tsx:29-39 | adding then removing a skill restores the selection |
| Stage4.ClicksKeepSelectionValid | components/qualification/Stage4.tsx:29-39 | any sequence of toggles keeps at most three distinct skills |
| Stage4.ContactErrors | components/qualification/Stage4.tsx:44-57 | one error each for an empty name, an empty or malformed e-mail, an empty company and no skills, each with its own message |
| Stage4.AnswerErrors | components/qualification/Stage4.tsx:58-66 | adds one error each for a missing working-hours, team-size or budget answer, with its own message, keeping the earlier errors |
| Stage4.Stage4Errors | components/qualification/Stage4.tsx:41-66 | exactly one error per failing check, each with its own message; the e-mail gets the "enter" message when empty and the "valid" message when malformed |
| Stage4.PhoneNeverChecked | components/qualification/Stage4.tsx:41-66 | the phone number has no influence on the errors |
| Stage4.PassesExactly | components/qualification/Stage4.tsx:41-68 | there are no errors iff name and company are given, the e-mail is valid, a skill is chosen and the three answers are given |
| Stage4.ContactPatch | components/qualification/Stage4.tsx:73-76 | the patch holds exactly the four contact fields and the skill selection |
| Stage4.CheckContact | components/qualification/Stage4.tsx:42-57 | the error map built check by check equals ContactErrors |
| Stage4.CheckAnswers | components/qualification/Stage4.tsx:58-66 | the error map extended check by check equals AnswerErrors |
| Stage4.Component.constructor | components/qualification/Stage4.tsx:15-25 | the selection starts from the stored skills or empty, the contact fields from InitialContact, and there are no errors |
| Stage4.Component.HandleSkillToggle | components/qualification/Stage4.tsx:29-39 | the selection becomes ToggledSkills of the old one and is stored when it changed; a refused fourth skill changes nothing |
| Stage4.Component.Select | components/qualification/Stage4.tsx:93-96 | a working-hours, team-size or budget choice sets exactly its field and clears its error |
| Stage4.Component.EditContact | components/qualification/Stage4.tsx:244-303 | typing changes exactly one contact field and clears its error (the phone has none) |
| Stage4.Component.ValidateAndProceed | components/qualification/Stage4.tsx:41-78 | with errors, shows exactly Stage4Errors and changes neither form nor stage; without, merges contact and skills into the form and advances |
| Stage4.Component.Back | components/qualification/Stage4.tsx:316 | Back moves to the previous stage and leaves the form unchanged |

## Left out

- Persistence of the store to local storage, the session id, the start and last-active timestamps, and response timestamps: these are I/O, clocks and randomness. A reset's "new session" is therefore not modelled.
- The results page, the progress bar, the landing pages and the stage-to-component switch: rendering only. The results page's call-to-action handler opens windows and alerts.
- `cn`, `formatDate`, `formatTime`, `formatCurrency` and `getProgressPercentage`: library formatting or floating-point arithmetic.
- Animation, markup, DOM drag events and `handleDragOver`: only the state they change is modelled.
- Scoring.Lookup: JavaScript lookups in a plain object also find inherited keys such as "constructor". The model treats such keys as unlisted.
- Types.Merge: a patch key explicitly holding `undefined` is not modelled. Every patch the stages send holds defined values.
- Stage2.Component: the unused `errors` state is not modelled.
- React renders with stale closures, where two handlers run on the same snapshot of state, are not modelled. Each handler sees the state left by the one before.
- Scoring.LowerAscii: only ASCII letters are lower-cased. This is exact for the four industry labels it is applied to.
- Working hours are kept as the stored label strings rather than the declared union type, because the handler stores the labels.
- Utils.DynamicPainPoints: a plain-object lookup in JavaScript also finds inherited keys such as "constructor". The model gives such keys the generic list. Every caller passes a catalog business type.
- Utils.SkillPriorities: a plain-object lookup in JavaScript also finds inherited keys such as "constructor". The model gives such keys the default eight skills. Every caller passes a catalog business type.
- Utils.DynamicPainPoints: the contract fixes the generic case. The marketing and trades lists exist only in that function and have no catalog to compare with.
- Stage3.Component.HandleDrop: the ranking is copied and spliced as a sequence value rather than as an array mutated in place. The copy in the source makes the two the same.
