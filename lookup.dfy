/** The list primitives the entities share.  Entities compare by id, so
    `stream().filter(...).findFirst()` and `List.remove(Object)` both act on the
    first element carrying an id: `IndexOf` finds it in the list of ids and
    `RemoveAt` takes it out. */
module Lookup {

  import opened Outcomes

  /** Index of the first occurrence of `x` in `xs`, or None when there is none. */
  function IndexOf<T(==)>(xs: seq<T>, x: T): (r: Option<nat>)
    ensures r.Some? ==> r.value < |xs| && xs[r.value] == x
  {
    if |xs| == 0 then None
    else if xs[0] == x then Some(0)
    else match IndexOf(xs[1..], x)
      case None => None
      case Some(i) => Some(i + 1)
  }

  /** The index found is the first one, and there is none exactly when `x`
      does not occur. */
  lemma {:induction false} IndexOfFirst<T>(xs: seq<T>, x: T)
    ensures IndexOf(xs, x).None? <==> forall j :: 0 <= j < |xs| ==> xs[j] != x
    ensures IndexOf(xs, x).Some? ==> forall j :: 0 <= j < IndexOf(xs, x).value ==> xs[j] != x
  {
    if |xs| > 0 && xs[0] != x {
      IndexOfFirst(xs[1..], x);
      forall j | 0 <= j < |xs| && (IndexOf(xs, x).None? || j < IndexOf(xs, x).value)
        ensures xs[j] != x
      {
        if j > 0 {
          assert xs[j] == xs[1..][j - 1];
        }
      }
    }
  }

  /** Appending never changes where an element already occurring is found; an
      absent one is found at the new last index exactly when it is the new
      element. */
  lemma {:induction false} IndexOfAppend<T>(xs: seq<T>, y: T, x: T)
    ensures IndexOf(xs, x).Some? ==> IndexOf(xs + [y], x) == IndexOf(xs, x)
    ensures IndexOf(xs, x).None? ==> IndexOf(xs + [y], x) == if y == x then Some(|xs|) else None
  {
    if |xs| > 0 {
      assert (xs + [y])[1..] == xs[1..] + [y];
      IndexOfAppend(xs[1..], y, x);
    }
  }

  /** `s` without its element at index `i`; the others keep their relative order. */
  function RemoveAt<T>(s: seq<T>, i: nat): (r: seq<T>)
    requires i < |s|
    ensures |r| == |s| - 1
    ensures forall j :: 0 <= j < i ==> r[j] == s[j]
    ensures forall j :: i <= j < |r| ==> r[j] == s[j + 1]
    ensures multiset(r) + multiset{s[i]} == multiset(s)
  {
    assert s == s[..i] + [s[i]] + s[i + 1..];
    s[..i] + s[i + 1..]
  }
}
