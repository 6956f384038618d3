/**
 * The array operations the back-ends perform on their in-memory tables:
 * `findIndex`/`find` (the first element satisfying a test) and
 * `splice(i, 1)` (removing one element, the others keeping their order).
 */
module Tables {
  import opened Wrappers

  /** `xs.findIndex(p)`, with `None` for -1: the first position whose element satisfies `p`. */
  function FindIndex<T>(xs: seq<T>, p: T -> bool): (r: Option<nat>)
    ensures r.Some? ==> r.value < |xs| && p(xs[r.value]) && forall j :: 0 <= j < r.value ==> !p(xs[j])
    ensures r.None? <==> forall j :: 0 <= j < |xs| ==> !p(xs[j])
  {
    if xs == [] then None
    else if p(xs[0]) then Some(0)
    else
      match FindIndex(xs[1..], p)
      case None => None
      case Some(i) => Some(i + 1)
  }

  /** Any position that satisfies `p` with no earlier one doing so is the one `FindIndex` reports. */
  lemma FindIndexUnique<T>(xs: seq<T>, p: T -> bool, i: nat)
    requires i < |xs| && p(xs[i])
    requires forall j :: 0 <= j < i ==> !p(xs[j])
    ensures FindIndex(xs, p) == Some(i)
  {
  }

  /** Appending an element never changes an existing hit, and is found only when nothing before it is. */
  lemma FindIndexAppend<T>(xs: seq<T>, x: T, p: T -> bool)
    ensures FindIndex(xs + [x], p) ==
      if FindIndex(xs, p).Some? then FindIndex(xs, p)
      else if p(x) then Some(|xs|)
      else None
  {
    var ys := xs + [x];
    assert forall j :: 0 <= j < |xs| ==> ys[j] == xs[j];
    match FindIndex(xs, p)
    case Some(i) =>
      FindIndexUnique(ys, p, i);
    case None =>
      if p(x) {
        FindIndexUnique(ys, p, |xs|);
      } else {
        assert forall j :: 0 <= j < |ys| ==> !p(ys[j]);
      }
  }

  /** An element appended after a run of misses is the first hit. */
  lemma FindIndexAfterMisses<T>(xs: seq<T>, x: T, p: T -> bool)
    requires forall j :: 0 <= j < |xs| ==> !p(xs[j])
    requires p(x)
    ensures FindIndex(xs + [x], p) == Some(|xs|)
  {
    FindIndexAppend(xs, x, p);
  }

  /** `xs.splice(i, 1)`: the element at `i` is removed and the rest keep their order. */
  function RemoveAt<T>(xs: seq<T>, i: nat): (r: seq<T>)
    requires i < |xs|
    ensures |r| == |xs| - 1
    ensures forall k :: 0 <= k < i ==> r[k] == xs[k]
    ensures forall k :: i <= k < |r| ==> r[k] == xs[k + 1]
    ensures multiset(r) + multiset{xs[i]} == multiset(xs)
  {
    assert xs == xs[..i] + [xs[i]] + xs[i + 1..];
    xs[..i] + xs[i + 1..]
  }

  /** Removing what was just appended restores the table. */
  lemma RemoveAppended<T>(xs: seq<T>, x: T)
    ensures RemoveAt(xs + [x], |xs|) == xs
  {
  }
}
