/**
 * The session record of the lead-qualification wizard and the values derived from it.
 *
 * FormData keeps its optional fields in two maps, one for the free-text and
 * single-choice answers and one for the multi-select and ranked answers. A field is
 * absent exactly when its key is not in the map, so the store's shallow merge is map
 * union and "every field is optional" needs no encoding of its own.
 */
module Types {

  datatype Option<+T> = None | Some(value: T)

  /** The answers stored as one string (single choices, free text and contact details). */
  datatype TextField =
    | BusinessType | TeamSize | PainPoint | Timeline
    | PatientVolume | Platform | OrderVolume | Bottleneck | PeakSeasonPain
    | TeamPhilosophy | CommunityImpact | PreviousExperience | SwitchReason
    | WorkingHours | TeamSizeNeeded | BudgetReality
    | Name | Email | Phone | Company

  /** The answers stored as a list of strings (multi-selects and the ranked priorities). */
  datatype ListField =
    | PracticeSystem | ComplianceConcerns | Software | ServiceTypes
    | InvestmentMindset | SkillPriority

  datatype FormData = FormData(text: map<TextField, string>, lists: map<ListField, seq<string>>)

  const EmptyForm: FormData := FormData(map[], map[])

  /** A text field is truthy in the source when it is set to a non-empty string. */
  predicate Filled(fd: FormData, f: TextField) {
    f in fd.text && fd.text[f] != ""
  }

  /** The value of a text field, or `default` when it is absent (`fd.f || default` for strings). */
  function TextOr(fd: FormData, f: TextField, default: string): (r: string)
    ensures Filled(fd, f) ==> r == fd.text[f]
    ensures !Filled(fd, f) ==> r == default
  {
    if Filled(fd, f) then fd.text[f] else default
  }

  /** Strict equality `fd.f === v` against a non-empty literal. */
  predicate TextIs(fd: FormData, f: TextField, v: string) {
    f in fd.text && fd.text[f] == v
  }

  /**
   * The value of a list field, or `default` when it is absent. An empty list is truthy
   * in the source, so a stored empty list is returned as it is.
   */
  function ListOr(fd: FormData, f: ListField, default: seq<string>): (r: seq<string>)
    ensures f in fd.lists ==> r == fd.lists[f]
    ensures f !in fd.lists ==> r == default
  {
    if f in fd.lists then fd.lists[f] else default
  }

  /**
   * The shallow merge `{ ...base, ...patch }`: every key the patch supplies takes the
   * patch's value, every other key keeps the base's value, and no key is dropped.
   */
  function Merge(base: FormData, patch: FormData): (r: FormData)
    ensures r.text.Keys == base.text.Keys + patch.text.Keys
    ensures r.lists.Keys == base.lists.Keys + patch.lists.Keys
    ensures forall f :: f in patch.text ==> r.text[f] == patch.text[f]
    ensures forall f :: f in base.text && f !in patch.text ==> r.text[f] == base.text[f]
    ensures forall f :: f in patch.lists ==> r.lists[f] == patch.lists[f]
    ensures forall f :: f in base.lists && f !in patch.lists ==> r.lists[f] == base.lists[f]
  {
    FormData(base.text + patch.text, base.lists + patch.lists)
  }

  /** A patch that supplies one text field. */
  function SetText(f: TextField, v: string): FormData {
    FormData(map[f := v], map[])
  }

  /** A patch that supplies one list field. */
  function SetList(f: ListField, xs: seq<string>): FormData {
    FormData(map[], map[f := xs])
  }

  /** Merging the empty patch changes nothing; merging into the empty record gives the patch. */
  lemma MergeIdentity(fd: FormData)
    ensures Merge(fd, EmptyForm) == fd
    ensures Merge(EmptyForm, fd) == fd
  {
    assert fd.text + map[] == fd.text;
    assert map[] + fd.text == fd.text;
    assert fd.lists + map[] == fd.lists;
    assert map[] + fd.lists == fd.lists;
  }

  /** Two patches with disjoint keys may be merged in either order with the same outcome. */
  lemma MergeCommutesOnDisjointKeys(fd: FormData, a: FormData, b: FormData)
    requires a.text.Keys !! b.text.Keys && a.lists.Keys !! b.lists.Keys
    ensures Merge(Merge(fd, a), b) == Merge(Merge(fd, b), a)
  {
    UnionCommutesOnDisjointKeys(fd.text, a.text, b.text);
    UnionCommutesOnDisjointKeys(fd.lists, a.lists, b.lists);
  }

  lemma UnionCommutesOnDisjointKeys<K, V>(m: map<K, V>, a: map<K, V>, b: map<K, V>)
    requires a.Keys !! b.Keys
    ensures m + a + b == m + b + a
  {
    var l, r := m + a + b, m + b + a;
    forall k | k in l ensures k in r && l[k] == r[k] {
      if k in a { assert k !in b; }
    }
    assert l.Keys == r.Keys;
  }

  /** Qualification outcome tiers. */
  datatype Category = Hot | Warm | Nurture | Redirect

  /** `QualificationResult` of lib/types.ts; `ctaText`/`ctaAction` are optional. */
  datatype QualificationResult = QualificationResult(
    score: int,
    category: Category,
    headline: string,
    body: string,
    ctaText: Option<string>,
    ctaAction: Option<string>,
    recommendations: seq<string>)

  /** An answer is a single string or a list of strings. */
  datatype Answer = Single(s: string) | Multiple(xs: seq<string>)

  /** `QualificationResponse` without its timestamp. */
  datatype QualificationResponse = QualificationResponse(questionId: string, answer: Answer, scoreImpact: int)
}
