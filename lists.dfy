/** The list comprehensions the scripts use, `[x for x in xs if keep(x)]`
    and `[g(x) for x in xs]`, stated once for any element type. */
module Lists {

  /** The elements of `xs` that pass `keep`, in their order. */
  function Filter<T>(xs: seq<T>, keep: T -> bool): (r: seq<T>)
    ensures |r| <= |xs|
    ensures forall i :: 0 <= i < |r| ==> r[i] in xs && keep(r[i])
    ensures forall i :: 0 <= i < |xs| && keep(xs[i]) ==> xs[i] in r
    ensures r == [] <==> forall i :: 0 <= i < |xs| ==> !keep(xs[i])
  {
    if xs == [] then []
    else
      var init := xs[..|xs| - 1];
      assert forall i :: 0 <= i < |init| ==> init[i] == xs[i];
      assert xs == init + [xs[|xs| - 1]];
      Filter(init, keep) + (if keep(xs[|xs| - 1]) then [xs[|xs| - 1]] else [])
  }

  /** One more element at the end is kept, or not, at the end. */
  lemma FilterSnoc<T>(xs: seq<T>, x: T, keep: T -> bool)
    ensures Filter(xs + [x], keep) == Filter(xs, keep) + (if keep(x) then [x] else [])
  {
    assert (xs + [x])[..|xs + [x]| - 1] == xs;
  }

  /** Filtering keeps the order: the kept elements of two consecutive
      stretches are those of the first followed by those of the second. */
  lemma {:induction false} FilterAppend<T>(a: seq<T>, b: seq<T>, keep: T -> bool)
    ensures Filter(a + b, keep) == Filter(a, keep) + Filter(b, keep)
    decreases |b|
  {
    if b == [] {
      assert a + b == a;
    } else {
      var init := b[..|b| - 1];
      assert a + b == (a + init) + [b[|b| - 1]];
      assert b == init + [b[|b| - 1]];
      FilterAppend(a, init, keep);
      FilterSnoc(a + init, b[|b| - 1], keep);
      FilterSnoc(init, b[|b| - 1], keep);
    }
  }

  /** `g` applied to every element, in order. */
  function Map<T, U>(xs: seq<T>, g: T --> U): (r: seq<U>)
    requires forall i :: 0 <= i < |xs| ==> g.requires(xs[i])
    ensures |r| == |xs|
  {
    seq(|xs|, i requires 0 <= i < |xs| => g(xs[i]))
  }

  lemma MapAppend<T, U>(a: seq<T>, b: seq<T>, g: T --> U)
    requires forall i :: 0 <= i < |a| ==> g.requires(a[i])
    requires forall i :: 0 <= i < |b| ==> g.requires(b[i])
    ensures forall i :: 0 <= i < |a + b| ==> g.requires((a + b)[i])
    ensures Map(a + b, g) == Map(a, g) + Map(b, g)
  {
    assert forall i :: 0 <= i < |a + b| ==> (a + b)[i] == if i < |a| then a[i] else b[i - |a|];
  }

  lemma MapSingle<T, U>(x: T, g: T --> U)
    requires g.requires(x)
    ensures Map([x], g) == [g(x)]
  {
  }

  lemma MapSnoc<T, U>(xs: seq<T>, x: T, g: T -> U)
    ensures Map(xs + [x], g) == Map(xs, g) + [g(x)]
  {
    MapAppend(xs, [x], g);
    MapSingle(x, g);
  }

  lemma AppendAssoc<T>(a: seq<T>, b: seq<T>, c: seq<T>)
    ensures a + (b + c) == (a + b) + c
  {
  }

  lemma TakeDrop<T>(xs: seq<T>, i: nat)
    requires i <= |xs|
    ensures xs[..i] + xs[i..] == xs
  {
  }

  lemma TakeSnoc<T>(xs: seq<T>, i: nat)
    requires i < |xs|
    ensures xs[..i + 1] == xs[..i] + [xs[i]]
  {
  }

  /** The concatenation of a sequence of sequences, left to right. */
  function Concat<T>(xss: seq<seq<T>>): seq<T> {
    if xss == [] then [] else Concat(xss[..|xss| - 1]) + xss[|xss| - 1]
  }

  lemma ConcatSnoc<T>(xss: seq<seq<T>>, xs: seq<T>)
    ensures Concat(xss + [xs]) == Concat(xss) + xs
  {
    assert (xss + [xs])[..|xss|] == xss;
  }

  lemma ConcatMapSnoc<T>(xs: seq<T>, x: T, g: T -> seq<char>)
    ensures Concat(Map(xs + [x], g)) == Concat(Map(xs, g)) + g(x)
  {
    MapSnoc(xs, x, g);
    ConcatSnoc(Map(xs, g), g(x));
  }
}
