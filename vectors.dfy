/**
  The ordered-append mixin shared by every composite AST node.

  An owner keeps its children in `elements` and its derived aggregate state
  in `flags`. The owner-specific post-append hook is the state transition
  `adjust`: it is given the owner's current state and the element just
  appended, and returns the new state. Pushing appends, then runs the hook;
  appending another collection pushes its elements one at a time.
 */
module Vectors {

  /** The state reached from `s` by running the hook once per element of `xs`, in order. */
  function Replay<T, S>(adjust: (S, T) -> S, s: S, xs: seq<T>): S
    decreases |xs|
  {
    if xs == [] then s else Replay(adjust, adjust(s, xs[0]), xs[1..])
  }

  /**
    A hook that ignores the element (the mixin's default, which does nothing)
    leaves the state where it started, however many elements are appended.
   */
  lemma {:induction false} ReplayInert<T, S>(adjust: (S, T) -> S, s: S, xs: seq<T>)
    requires forall f, x :: adjust(f, x) == f
    ensures Replay(adjust, s, xs) == s
    decreases |xs|
  {
    if xs != [] {
      ReplayInert(adjust, adjust(s, xs[0]), xs[1..]);
    }
  }

  /** Running the hook over one more element is one more hook call at the end. */
  lemma {:induction false} ReplaySnoc<T, S>(adjust: (S, T) -> S, s: S, xs: seq<T>, x: T)
    ensures Replay(adjust, s, xs + [x]) == adjust(Replay(adjust, s, xs), x)
    decreases |xs|
  {
    if xs == [] {
      assert xs + [x] == [x];
      assert [x][1..] == [];
    } else {
      assert (xs + [x])[1..] == xs[1..] + [x];
      ReplaySnoc(adjust, adjust(s, xs[0]), xs[1..], x);
    }
  }

  /** Running the hook over `xs + ys` is running it over `xs`, then over `ys`. */
  lemma {:induction false} ReplayConcat<T, S>(adjust: (S, T) -> S, s: S, xs: seq<T>, ys: seq<T>)
    ensures Replay(adjust, s, xs + ys) == Replay(adjust, Replay(adjust, s, xs), ys)
    decreases |xs|
  {
    if xs == [] {
      assert xs + ys == ys;
    } else {
      assert (xs + ys)[0] == xs[0];
      assert (xs + ys)[1..] == xs[1..] + ys;
      ReplayConcat(adjust, adjust(s, xs[0]), xs[1..], ys);
    }
  }

  /**
    Two hooks that agree once each element is mapped through `view` reach the
    same state over corresponding sequences. This is how an owner's hook is
    related to a hook stated on a coarser description of its elements.
   */
  lemma {:induction false} ReplayView<T, U, S>(adjust: (S, T) -> S, step: (S, U) -> S, view: T -> U,
                                              s: S, xs: seq<T>, us: seq<U>)
    requires |xs| == |us|
    requires forall i :: 0 <= i < |xs| ==> us[i] == view(xs[i])
    requires forall f, x :: adjust(f, x) == step(f, view(x))
    ensures Replay(adjust, s, xs) == Replay(step, s, us)
    decreases |xs|
  {
    if xs != [] {
      ReplayView(adjust, step, view, adjust(s, xs[0]), xs[1..], us[1..]);
    }
  }

  class Vectorized<T, S> {
    var elements: seq<T>
    var flags: S
    /** The owner's post-append hook. */
    const adjust: (S, T) -> S
    /** The owner's derived state when it has no elements. */
    const initial: S

    /** The derived state is exactly what the hook computed over the elements appended so far. */
    ghost predicate Valid()
      reads this
    {
      flags == Replay(adjust, initial, elements)
    }

    constructor (adjust: (S, T) -> S, initial: S)
      ensures Valid()
      ensures elements == [] && flags == initial
      ensures this.adjust == adjust && this.initial == initial
    {
      elements := [];
      flags := initial;
      this.adjust := adjust;
      this.initial := initial;
    }

    /** The number of elements appended so far. */
    function Length(): (n: nat)
      reads this
      ensures n == |elements|
    {
      |elements|
    }

    function Empty(): (r: bool)
      reads this
      ensures r <==> Length() == 0
    {
      elements == []
    }

    /** Indexed access; reading past the end is a programming error, so it is excluded. */
    function At(i: nat): (x: T)
      reads this
      requires i < Length()
      ensures x == elements[i] && x in elements
    {
      elements[i]
    }

    /** Appends `x` at the end, then runs the hook on it. */
    method Push(x: T)
      modifies this
      ensures elements == old(elements) + [x]
      ensures flags == adjust(old(flags), x)
      ensures old(Valid()) ==> Valid()
    {
      elements := elements + [x];
      flags := adjust(flags, x);
      ReplaySnoc(adjust, initial, old(elements), x);
    }

    /**
      Pushes every element of `v`, in order. The length of `v` is read once
      before the loop, so appending a collection to itself appends exactly
      its original elements.
     */
    method Append<U>(v: Vectorized<T, U>)
      modifies this
      ensures elements == old(elements) + old(v.elements)
      ensures flags == Replay(adjust, old(flags), old(v.elements))
      ensures old(Valid()) ==> Valid()
    {
      var i, n := 0, |v.elements|;
      while i < n
        invariant 0 <= i <= n == |old(v.elements)|
        invariant old(v.elements) <= v.elements
        invariant elements == old(elements) + old(v.elements)[..i]
        invariant flags == Replay(adjust, old(flags), old(v.elements)[..i])
      {
        var x := v.elements[i];
        assert old(v.elements)[..i + 1] == old(v.elements)[..i] + [x];
        ReplaySnoc(adjust, old(flags), old(v.elements)[..i], x);
        Push(x);
        i := i + 1;
      }
      assert old(v.elements)[..n] == old(v.elements);
      ReplayConcat(adjust, initial, old(elements), old(v.elements));
    }
  }
}
