/**
 * Sequence operations behind the statement registry: a `LinkedHashSet` is an
 * insertion-ordered sequence without duplicates, iteration is a scan from the
 * front, and `remove` deletes one position.
 */
module Registry {
  import opened Wrappers

  /** No element occurs twice: the defining property of a set kept as a sequence. */
  predicate Distinct<T(==)>(s: seq<T>) {
    forall i, j :: 0 <= i < j < |s| ==> s[i] != s[j]
  }

  /**
   * The position of the first element, in iteration order, that satisfies `p`,
   * or `None` when no element does: a loop over the set with an early return.
   */
  function Find<T>(s: seq<T>, p: T -> bool): (r: Option<nat>)
    ensures r.Some? ==> r.value < |s| && p(s[r.value])
    ensures r.Some? ==> forall j :: 0 <= j < r.value ==> !p(s[j])
    ensures r.None? <==> forall j :: 0 <= j < |s| ==> !p(s[j])
  {
    if s == [] then None
    else if p(s[0]) then Some(0)
    else match Find(s[1..], p)
      case None => None
      case Some(k) => Some(k + 1)
  }

  /** The sequence with position `k` deleted. */
  function RemoveAt<T>(s: seq<T>, k: nat): (r: seq<T>)
    requires k < |s|
  {
    s[..k] + s[k + 1..]
  }

  /** Removing one position keeps every other element, in the same order. */
  lemma RemoveAtKeepsOrder<T>(s: seq<T>, k: nat)
    requires k < |s|
    ensures |RemoveAt(s, k)| == |s| - 1
    ensures forall j :: 0 <= j < k ==> RemoveAt(s, k)[j] == s[j]
    ensures forall j :: k <= j < |s| - 1 ==> RemoveAt(s, k)[j] == s[j + 1]
    ensures multiset(RemoveAt(s, k)) + multiset{s[k]} == multiset(s)
  {
    var r := RemoveAt(s, k);
    assert s == s[..k] + [s[k]] + s[k + 1..];
    calc {
      multiset(s);
      multiset(s[..k] + [s[k]] + s[k + 1..]);
      multiset(s[..k]) + multiset{s[k]} + multiset(s[k + 1..]);
      multiset(r) + multiset{s[k]};
    }
  }

  /** Removing an element from a sequence without duplicates leaves it without duplicates and without that element. */
  lemma RemoveAtDistinct<T>(s: seq<T>, k: nat)
    requires k < |s| && Distinct(s)
    ensures Distinct(RemoveAt(s, k))
    ensures s[k] !in RemoveAt(s, k)
    ensures forall x :: x in s && x != s[k] ==> x in RemoveAt(s, k)
  {
    RemoveAtKeepsOrder(s, k);
    var r := RemoveAt(s, k);
    forall i, j | 0 <= i < j < |r| ensures r[i] != r[j] {
      var i' := if i < k then i else i + 1;
      var j' := if j < k then j else j + 1;
      assert r[i] == s[i'] && r[j] == s[j'];
    }
    forall x | x in s && x != s[k] ensures x in r {
      var i :| 0 <= i < |s| && s[i] == x;
      if i < k { assert r[i] == x; } else { assert r[i - 1] == x; }
    }
  }

  /**
   * A lookup after removing position `k` finds the same element as before, unless
   * the element found before was the one removed; when the removed element was the
   * only one satisfying `p`, the lookup then fails.
   */
  lemma {:induction false} FindAfterRemove<T>(s: seq<T>, k: nat, p: T -> bool)
    requires k < |s|
    ensures Find(s, p).Some? && Find(s, p).value != k ==>
      Find(RemoveAt(s, k), p).Some? &&
      RemoveAt(s, k)[Find(RemoveAt(s, k), p).value] == s[Find(s, p).value]
    ensures (forall j :: 0 <= j < |s| && j != k ==> !p(s[j])) ==> Find(RemoveAt(s, k), p).None?
  {
    RemoveAtKeepsOrder(s, k);
    var r := RemoveAt(s, k);
    match Find(s, p)
    case None =>
    case Some(m) =>
      if m < k {
        assert r[m] == s[m] && p(r[m]);
        assert forall j :: 0 <= j < m ==> !p(r[j]);
      } else if m > k {
        assert r[m - 1] == s[m] && p(r[m - 1]);
        assert forall j :: 0 <= j < m - 1 ==> (j < k ==> r[j] == s[j]) && (j >= k ==> r[j] == s[j + 1]);
      }
  }
}
