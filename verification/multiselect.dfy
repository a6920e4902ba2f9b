/**
 The multi-select toggle: a value already in the list is filtered out (every
 occurrence), otherwise it is appended at the end. The list is an ordered
 array in the source, not a set, so toggling a present value twice moves it
 to the end.
 */
module MultiSelect {

  /** No value occurs twice. */
  predicate NoDup(xs: seq<string>)
  {
    forall i, j :: 0 <= i < j < |xs| ==> xs[i] != xs[j]
  }

  /** Drops every occurrence of `v`, keeping the other values in order. */
  function RemoveAll(xs: seq<string>, v: string): (r: seq<string>)
    ensures v !in r
    ensures forall x :: x != v ==> (x in r <==> x in xs)
    ensures multiset(r) == multiset(xs)[v := 0]
    ensures |r| <= |xs|
    ensures v !in xs ==> r == xs
    ensures NoDup(xs) ==> NoDup(r)
  {
    if xs == [] then []
    else
      var rest := RemoveAll(xs[1..], v);
      assert xs == [xs[0]] + xs[1..];
      assert NoDup(xs) ==> xs[0] !in xs[1..];
      if xs[0] == v then rest else [xs[0]] + rest
  }

  /** Filtering distributes over concatenation, so it keeps the relative
      order of the values it does not remove. */
  lemma {:induction false} RemoveAllAppend(a: seq<string>, b: seq<string>, v: string)
    ensures RemoveAll(a + b, v) == RemoveAll(a, v) + RemoveAll(b, v)
  {
    if a == [] {
      assert a + b == b;
    } else {
      assert (a + b)[1..] == a[1..] + b;
      RemoveAllAppend(a[1..], b, v);
    }
  }

  /** In a duplicate-free list a present value occurs exactly once. */
  lemma {:induction false} NoDupCountsOne(xs: seq<string>, v: string)
    requires NoDup(xs) && v in xs
    ensures multiset(xs)[v] == 1
    decreases |xs|
  {
    assert xs == [xs[0]] + xs[1..];
    if xs[0] == v {
      assert v !in xs[1..];
      assert multiset(xs[1..])[v] == 0;
    } else {
      assert NoDup(xs[1..]) by {
        forall i, j | 0 <= i < j < |xs[1..]|
          ensures xs[1..][i] != xs[1..][j]
        {
          assert xs[1..][i] == xs[i + 1] && xs[1..][j] == xs[j + 1];
        }
      }
      NoDupCountsOne(xs[1..], v);
    }
  }

  /** Drops every occurrence of `v` if it is present, else appends it. */
  function Toggle(xs: seq<string>, v: string): (r: seq<string>)
    ensures v in r <==> v !in xs
    ensures forall x :: x != v ==> (x in r <==> x in xs)
    ensures v !in xs ==> r == xs + [v]
    ensures v in xs ==> multiset(r) == multiset(xs)[v := 0]
    ensures NoDup(xs) ==> NoDup(r)
  {
    if v in xs then RemoveAll(xs, v)
    else
      xs + [v]
  }

  /** Toggling an absent value twice restores the exact original list. */
  lemma ToggleAbsentTwice(xs: seq<string>, v: string)
    requires v !in xs
    ensures Toggle(Toggle(xs, v), v) == xs
  {
    RemoveAllAppend(xs, [v], v);
  }

  /** Toggling a present value twice restores the same values, with the
      toggled one moved to the end. */
  lemma TogglePresentTwice(xs: seq<string>, v: string)
    requires v in xs
    ensures Toggle(Toggle(xs, v), v) == RemoveAll(xs, v) + [v]
    ensures (set x | x in Toggle(Toggle(xs, v), v)) == (set x | x in xs)
  {
  }

  /** On a duplicate-free list, toggling a present value twice rearranges it:
      the result is duplicate-free, as long, and holds the same values. */
  lemma {:induction false} TogglePresentTwicePermutes(xs: seq<string>, v: string)
    requires v in xs && NoDup(xs)
    ensures var r := Toggle(Toggle(xs, v), v);
            NoDup(r) && |r| == |xs| && (set x | x in r) == (set x | x in xs)
  {
    TogglePresentTwice(xs, v);
    NoDupCountsOne(xs, v);
    var r1 := RemoveAll(xs, v);
    assert multiset(xs) == multiset(xs)[v := 0] + multiset{v};
    assert |multiset(r1)| == |xs| - 1;
  }
}
