/**
 * Stage 3, cultural fit: three single-choice questions, a drag-and-drop ranking of
 * the investment priorities and a free-text reason to switch for leads already with
 * another provider. Continue always advances.
 */
module Stage3 {
  import opened Types
  import opened ListOps
  import Constants
  import opened Store

  /** The ranking the stage starts from: the stored one if any (even an empty one), else the catalog order. */
  function InitialRanking(fd: FormData): (r: seq<string>)
    ensures InvestmentMindset in fd.lists ==> r == fd.lists[InvestmentMindset]
    ensures InvestmentMindset !in fd.lists ==> r == Constants.InvestmentPriorities
  {
    ListOr(fd, InvestmentMindset, Constants.InvestmentPriorities)
  }

  /**
   * The ranking after dropping `dragged` on `target`: both positions are looked up in
   * the ranking as it was, the dragged item is cut out, then put back at the target's
   * old position.
   */
  function Moved(ranking: seq<string>, dragged: string, target: string): (r: seq<string>) {
    var without := Splice(ranking, IndexOf(ranking, dragged), 1, []);
    Splice(without, IndexOf(ranking, target), 0, [dragged])
  }

  /**
   * A drop of one listed item on another is a permutation that puts the dragged item
   * at the target's old position; taking it out again leaves the others in their
   * old order.
   */
  lemma MoveIsPermutation(ranking: seq<string>, dragged: string, target: string)
    requires dragged in ranking && target in ranking && dragged != target
    ensures var r := Moved(ranking, dragged, target);
            var from := IndexOf(ranking, dragged);
            var to := IndexOf(ranking, target);
            |r| == |ranking| && multiset(r) == multiset(ranking) &&
            r[to] == dragged &&
            r[..to] + r[to + 1..] == ranking[..from] + ranking[from + 1..]
  {
    MovedCutsAndInserts(ranking, dragged, target);
    CutAndInsert(ranking, IndexOf(ranking, dragged), IndexOf(ranking, target));
  }

  /** The two splices cut the dragged item out and insert it before the target's old index. */
  lemma MovedCutsAndInserts(ranking: seq<string>, dragged: string, target: string)
    requires dragged in ranking && target in ranking
    ensures var from := IndexOf(ranking, dragged);
            var without := ranking[..from] + ranking[from + 1..];
            var to := IndexOf(ranking, target);
            ranking[from] == dragged && to <= |without| &&
            Moved(ranking, dragged, target) == without[..to] + [dragged] + without[to..]
  {
    var from := IndexOf(ranking, dragged);
    var to := IndexOf(ranking, target);
    var without := ranking[..from] + ranking[from + 1..];
    SpliceRemoves(ranking, from);
    SpliceInserts(without, to, dragged);
  }

  lemma SpliceRemoves(xs: seq<string>, i: int)
    requires 0 <= i < |xs|
    ensures Splice(xs, i, 1, []) == xs[..i] + xs[i + 1..]
  {
  }

  lemma SpliceInserts(xs: seq<string>, i: int, x: string)
    requires 0 <= i <= |xs|
    ensures Splice(xs, i, 0, [x]) == xs[..i] + [x] + xs[i..]
  {
  }

  /** Cutting the element at `from` out and inserting it at `to` only moves that element. */
  lemma CutAndInsert(xs: seq<string>, from: int, to: int)
    requires 0 <= from < |xs| && 0 <= to < |xs|
    ensures var without := xs[..from] + xs[from + 1..];
            var r := without[..to] + [xs[from]] + without[to..];
            |r| == |xs| && multiset(r) == multiset(xs) && r[to] == xs[from] &&
            r[..to] + r[to + 1..] == without
  {
    var without := xs[..from] + xs[from + 1..];
    var r := without[..to] + [xs[from]] + without[to..];
    assert xs == xs[..from] + [xs[from]] + xs[from + 1..];
    assert multiset(xs) == multiset(without) + multiset{xs[from]};
    assert without == without[..to] + without[to..];
    assert multiset(r) == multiset(without) + multiset{xs[from]};
    assert r[..to] == without[..to];
    assert r[to + 1..] == without[to..];
  }

  /** Dropping a duplicate-free ranking's item keeps it duplicate-free. */
  lemma MoveKeepsDistinct(ranking: seq<string>, dragged: string, target: string)
    requires Distinct(ranking) && dragged in ranking && target in ranking && dragged != target
    ensures Distinct(Moved(ranking, dragged, target))
  {
    MoveIsPermutation(ranking, dragged, target);
    var r := Moved(ranking, dragged, target);
    forall i, j | 0 <= i < j < |r| ensures r[i] != r[j] {
      if r[i] == r[j] {
        MultisetCountAtLeastTwo(r, i, j);
        DistinctCountAtMostOne(ranking, r[i]);
        assert false;
      }
    }
  }

  lemma MultisetCountAtLeastTwo(s: seq<string>, i: int, j: int)
    requires 0 <= i < j < |s| && s[i] == s[j]
    ensures multiset(s)[s[i]] >= 2
  {
    assert s == s[..i] + [s[i]] + s[i + 1..j] + [s[j]] + s[j + 1..];
  }

  lemma {:induction false} DistinctCountAtMostOne(s: seq<string>, x: string)
    requires Distinct(s)
    ensures multiset(s)[x] <= 1
  {
    if s != [] {
      assert s == [s[0]] + s[1..];
      assert Distinct(s[1..]);
      DistinctCountAtMostOne(s[1..], x);
      if s[0] == x {
        assert x !in s[1..];
      }
    }
  }

  /** A drop does nothing without a (non-empty) dragged item, or onto the dragged item itself. */
  predicate NoDrop(dragged: Option<string>, target: string) {
    dragged.None? || dragged.value == "" || dragged.value == target
  }

  /** The warning about a price-first mindset shows when that priority is ranked first. */
  predicate LowestPriceWarning(ranking: seq<string>) {
    |ranking| > 0 && ranking[0] == Constants.LowestPrice
  }

  /** The catalog order does not start with the price; dragging the price onto the first item does. */
  lemma LowestPriceWarningExample()
    ensures !LowestPriceWarning(Constants.InvestmentPriorities)
    ensures LowestPriceWarning(Moved(Constants.InvestmentPriorities, Constants.LowestPrice, Constants.InvestmentPriorities[0]))
  {
    Constants.InvestmentPrioritiesShape();
    var xs := Constants.InvestmentPriorities;
    IndexOfFirst(xs, Constants.LowestPrice, 1);
    IndexOfFirst(xs, xs[0], 0);
    MoveIsPermutation(xs, Constants.LowestPrice, xs[0]);
  }

  /** The switching question appears only for leads already with another provider. */
  predicate AsksSwitchReason(fd: FormData) {
    TextIs(fd, PreviousExperience, "Currently with another BPO")
  }

  /** The single-choice and free-text answers this stage writes. */
  predicate StageAnswer(f: TextField) {
    f == TeamPhilosophy || f == CommunityImpact || f == PreviousExperience || f == SwitchReason
  }

  class Component {
    const store: QualificationStore
    var priorityRanking: seq<string>
    var draggedItem: Option<string>

    constructor(store: QualificationStore)
      ensures this.store == store
      ensures priorityRanking == InitialRanking(store.formData) && draggedItem == None
    {
      this.store := store;
      priorityRanking := ListOr(store.formData, InvestmentMindset, Constants.InvestmentPriorities);
      draggedItem := None;
    }

    /** `handleDragStart`: remembers the item being dragged. */
    method DragStart(item: string)
      modifies this
      ensures draggedItem == Some(item) && priorityRanking == old(priorityRanking)
    {
      draggedItem := Some(item);
    }

    /**
     * `handleDrop`: with no dragged item, or a drop onto the dragged item itself,
     * nothing changes; otherwise the ranking is reordered, stored as the investment
     * mindset, and the dragged item is cleared.
     */
    method HandleDrop(targetItem: string)
      modifies this, store
      ensures NoDrop(old(draggedItem), targetItem) ==>
                priorityRanking == old(priorityRanking) && draggedItem == old(draggedItem) &&
                store.formData == old(store.formData)
      ensures !NoDrop(old(draggedItem), targetItem) ==>
                priorityRanking == Moved(old(priorityRanking), old(draggedItem).value, targetItem) &&
                store.formData == Merge(old(store.formData), SetList(InvestmentMindset, priorityRanking)) &&
                draggedItem == None
      ensures store.currentStage == old(store.currentStage) && store.responses == old(store.responses)
    {
      if draggedItem.None? || draggedItem.value == "" || draggedItem.value == targetItem {
        return;
      }
      var dragged := draggedItem.value;
      var newRanking := priorityRanking;
      var draggedIndex := IndexOf(newRanking, dragged);
      var targetIndex := IndexOf(newRanking, targetItem);
      newRanking := Splice(newRanking, draggedIndex, 1, []);
      newRanking := Splice(newRanking, targetIndex, 0, [dragged]);
      priorityRanking := newRanking;
      store.UpdateFormData(SetList(InvestmentMindset, newRanking));
      draggedItem := None;
    }

    /**
     * A single-choice button or the switching text box: sets exactly its answer. The
     * text box is only on screen for leads already with another provider.
     */
    method Answer(f: TextField, value: string)
      requires StageAnswer(f)
      requires f == SwitchReason ==> AsksSwitchReason(store.formData)
      modifies store
      ensures store.formData == Merge(old(store.formData), SetText(f, value))
      ensures store.currentStage == old(store.currentStage) && store.responses == old(store.responses)
    {
      store.UpdateFormData(SetText(f, value));
    }

    /** `validateAndProceed`: the price warning is advisory, so Continue always advances. */
    method ValidateAndProceed()
      modifies store
      ensures store.currentStage == NextStageOf(old(store.currentStage))
      ensures store.formData == old(store.formData) && store.responses == old(store.responses)
    {
      store.NextStage();
    }

    /** The Back button. */
    method Back()
      modifies store
      ensures store.currentStage == PreviousStageOf(old(store.currentStage))
      ensures store.formData == old(store.formData) && store.responses == old(store.responses)
    {
      store.PreviousStage();
    }
  }
}
