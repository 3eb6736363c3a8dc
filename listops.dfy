/**
 * The JavaScript array and string built-ins the wizard relies on, as functions on
 * sequences: `indexOf`, `filter(y => y !== x)`, `splice` and `String.prototype.includes`.
 */
module ListOps {

  /** No element occurs twice. */
  predicate Distinct<T(==)>(xs: seq<T>) {
    forall i, j :: 0 <= i < j < |xs| ==> xs[i] != xs[j]
  }

  /** `xs.indexOf(x)`: the first index holding `x`, or -1 when there is none. */
  function IndexOf<T(==)>(xs: seq<T>, x: T): (r: int)
    ensures -1 <= r < |xs|
    ensures r == -1 <==> x !in xs
    ensures 0 <= r ==> xs[r] == x && x !in xs[..r]
  {
    if xs == [] then -1
    else if xs[0] == x then 0
    else
      var k := IndexOf(xs[1..], x);
      assert xs[1..][..k + 1] == xs[1..k + 2] by { if k >= 0 { assert xs[1..][..k+1] == xs[1..k+2]; } }
      if k == -1 then -1 else k + 1
  }

  /** An occurrence with none before it is the one `indexOf` finds. */
  lemma IndexOfFirst<T>(xs: seq<T>, x: T, k: int)
    requires 0 <= k < |xs| && xs[k] == x && x !in xs[..k]
    ensures IndexOf(xs, x) == k
  {
    assert xs[k] in xs;
    var i := IndexOf(xs, x);
    assert forall m :: 0 <= m < k ==> xs[m] == xs[..k][m] != x;
    assert forall m :: 0 <= m < i ==> xs[m] == xs[..i][m] != x;
  }

  /** `xs.filter(y => y !== x)`: every `x` is dropped, every other element keeps its count. */
  function Without<T(==,!new)>(xs: seq<T>, x: T): (r: seq<T>)
    ensures x !in r
    ensures |r| <= |xs|
    ensures forall y :: y != x ==> multiset(r)[y] == multiset(xs)[y]
    ensures forall y :: y in r ==> y in xs
  {
    if xs == [] then []
    else
      assert xs == [xs[0]] + xs[1..];
      if xs[0] == x then Without(xs[1..], x) else [xs[0]] + Without(xs[1..], x)
  }

  /** Filtering distributes over concatenation, so the survivors keep their relative order. */
  lemma {:induction false} WithoutAppend<T(!new)>(xs: seq<T>, ys: seq<T>, x: T)
    ensures Without(xs + ys, x) == Without(xs, x) + Without(ys, x)
  {
    if xs == [] {
      assert xs + ys == ys;
    } else {
      assert (xs + ys)[1..] == xs[1..] + ys;
      WithoutAppend(xs[1..], ys, x);
    }
  }

  /** Filtering removes an occurrence in the middle and keeps both sides in order. */
  lemma WithoutAroundOccurrence<T(!new)>(before: seq<T>, x: T, after: seq<T>)
    ensures Without(before + [x] + after, x) == Without(before, x) + Without(after, x)
  {
    WithoutAppend(before + [x], after, x);
    WithoutAppend(before, [x], x);
    assert Without([x], x) == Without([x][1..], x);
    assert [x][1..] == [];
  }

  /** Filtering out an element that does not occur changes nothing. */
  lemma {:induction false} WithoutAbsent<T(!new)>(xs: seq<T>, x: T)
    requires x !in xs
    ensures Without(xs, x) == xs
  {
    if xs != [] {
      WithoutAbsent(xs[1..], x);
      assert xs == [xs[0]] + xs[1..];
    }
  }

  /** Appending a new element and then filtering it out gives back the original list. */
  lemma AppendThenWithout<T(!new)>(xs: seq<T>, x: T)
    requires x !in xs
    ensures Without(xs + [x], x) == xs
  {
    WithoutAppend(xs, [x], x);
    WithoutAbsent(xs, x);
    assert Without([x], x) == Without([x][1..], x);
    assert [x][1..] == [];
  }

  /** Filtering keeps a duplicate-free list duplicate-free. */
  lemma {:induction false} WithoutDistinct<T(!new)>(xs: seq<T>, x: T)
    requires Distinct(xs)
    ensures Distinct(Without(xs, x))
  {
    if xs != [] {
      assert Distinct(xs[1..]);
      WithoutDistinct(xs[1..], x);
      if xs[0] != x {
        assert xs[0] !in xs[1..];
        var w := Without(xs[1..], x);
        assert xs[0] !in w;
        assert [xs[0]] + w == Without(xs, x);
        forall i, j | 0 <= i < j < |[xs[0]] + w| ensures ([xs[0]] + w)[i] != ([xs[0]] + w)[j] {
          if i == 0 { assert ([xs[0]] + w)[j] == w[j - 1]; }
        }
      }
    }
  }

  /** Appending an element that is not yet present keeps the list duplicate-free. */
  lemma AppendDistinct<T>(xs: seq<T>, x: T)
    requires Distinct(xs) && x !in xs
    ensures Distinct(xs + [x])
  {
  }

  /** The position `splice` starts at: a negative `start` counts from the end. */
  function SpliceStart(len: nat, start: int): (r: nat)
    ensures r <= len
    ensures 0 <= start <= len ==> r == start
    ensures start < 0 ==> r == if len + start < 0 then 0 else len + start
  {
    if start < 0 then (if len + start < 0 then 0 else len + start)
    else if start > len then len
    else start
  }

  /**
   * The array `xs` after `xs.splice(start, deleteCount, ...items)`: `deleteCount`
   * elements (at most those left) are taken out at the start position and `items`
   * are put in their place.
   */
  function Splice<T>(xs: seq<T>, start: int, deleteCount: nat, items: seq<T>): (r: seq<T>)
    ensures var s := SpliceStart(|xs|, start);
            var d := if deleteCount <= |xs| - s then deleteCount else |xs| - s;
            |r| == |xs| - d + |items| && r[..s] == xs[..s] && r[s..s + |items|] == items && r[s + |items|..] == xs[s + d..]
  {
    var s := SpliceStart(|xs|, start);
    var d := if deleteCount <= |xs| - s then deleteCount else |xs| - s;
    xs[..s] + items + xs[s + d..]
  }

  /** `s.includes(t)`. */
  predicate Contains(s: string, t: string)
    decreases |s|
  {
    if |t| > |s| then false
    else if s[..|t|] == t then true
    else Contains(s[1..], t)
  }

  /** `t` occurs in `s` starting at position `i`. */
  predicate OccursAt(s: string, t: string, i: int) {
    0 <= i && i + |t| <= |s| && s[i..i + |t|] == t
  }

  /** A string contains whatever it has between a prefix and a suffix. */
  lemma ContainsMiddle(before: string, t: string, after: string)
    ensures Contains(before + t + after, t)
  {
    var s := before + t + after;
    assert s[|before|..|before| + |t|] == t;
    assert OccursAt(s, t, |before|);
    ContainsAt(s, t);
  }

  /** `includes` holds exactly when `t` occurs at some position of `s`. */
  lemma {:induction false} ContainsAt(s: string, t: string)
    ensures Contains(s, t) <==> exists i :: OccursAt(s, t, i)
    decreases |s|
  {
    if |t| <= |s| && s[..|t|] != t {
      ContainsAt(s[1..], t);
      if Contains(s, t) {
        var i :| OccursAt(s[1..], t, i);
        assert s[i + 1..i + 1 + |t|] == s[1..][i..i + |t|];
        assert OccursAt(s, t, i + 1);
      }
      if exists i :: OccursAt(s, t, i) {
        var i :| OccursAt(s, t, i);
        assert i != 0;
        assert s[1..][i - 1..i - 1 + |t|] == s[i..i + |t|];
        assert OccursAt(s[1..], t, i - 1);
      }
    } else if |t| <= |s| {
      assert OccursAt(s, t, 0);
    }
  }

  /** A string that lacks one of the characters of `t` cannot include `t`. */
  lemma {:induction false} MissingCharRefutesContains(s: string, t: string, c: char)
    requires c in t && c !in s
    ensures !Contains(s, t)
    decreases |s|
  {
    if |t| <= |s| {
      assert c !in s[..|t|] by {
        assert forall x :: x in s[..|t|] ==> x in s;
      }
      MissingCharRefutesContains(s[1..], t, c);
    }
  }
}
