/**
  Small end-to-end constructions, the way a parser builds nodes: bottom up,
  appending children one at a time through the mixin.
 */
module Scenarios {
  import opened Wrappers
  import opened Vectors
  import opened Ordering
  import opened Expressions
  import opened Selectors
  import opened Statements

  /** Appending a collection to itself doubles it, because the length is read before the loop. */
  method AppendToItself<T, S>(v: Vectorized<T, S>)
    modifies v
    ensures v.elements == old(v.elements) + old(v.elements)
    ensures v.flags == Replay(v.adjust, old(v.flags), old(v.elements))
  {
    v.Append(v);
  }

  /** Appending an empty collection changes nothing. */
  method AppendEmpty<T, S, U>(v: Vectorized<T, S>, w: Vectorized<T, U>)
    requires w.elements == []
    modifies v
    ensures v.elements == old(v.elements) && v.flags == old(v.flags)
  {
    v.Append(w);
  }

  /**
    A block holding a declaration, a ruleset and a declaration has a
    hoistable statement and, under the corrected hook, a non-hoistable one.
   */
  method BuildBlock(d: Statement, r: Statement) returns (b: Block)
    requires d.Declaration? && r.Ruleset?
    ensures b.elements == [d, r, d]
    ensures b.flags.hasHoistable && b.flags.hasNonHoistable && !b.flags.isRoot
  {
    b := NewBlock(false);
    b.Push(d);
    assert !b.flags.hasHoistable;
    b.Push(r);
    b.Push(d);
  }

  /**
    `($a, $b: 1, $rest...)`: both flags end up set, but the hook marks the
    rest parameter, because it follows an optional one.
   */
  lemma OptionalThenRest(a: Parameter, b: Parameter, rest: Parameter)
    requires a.defaultValue.None? && !a.isRest
    requires b.defaultValue.Some? && !b.isRest
    requires rest.defaultValue.None? && rest.isRest
    ensures Replay(AdjustParameters, NoneSeen, [a, b, rest]) == OrderFlags(true, true)
    ensures Check(Replay(AdjustParameters, NoneSeen, [a, b]), ParameterSlot(rest)) == Some(RestAfterKeyed)
    ensures !ParametersAccepted([a, b, rest])
  {
    var ps := [a, b, rest];
    ParametersFlags(NoneSeen, ps);
    assert ps[1].defaultValue.Some? && ps[2].defaultValue.None? && ps[2].isRest;
    ParametersFlags(NoneSeen, [a, b]);
    ParametersAcceptedIffWellOrdered([a, b, rest]);
    assert ParameterSlots([a, b, rest])[1] == Keyed;
  }

  /** `($a: 1, $b)`: the hook marks the required parameter that follows an optional one. */
  lemma RequiredAfterOptional(a: Parameter, b: Parameter)
    requires a.defaultValue.Some? && b.defaultValue.None? && !b.isRest
    ensures Check(Replay(AdjustParameters, NoneSeen, [a]), ParameterSlot(b)) == Some(PlainAfterKeyed)
    ensures !ParametersAccepted([a, b])
  {
    ParametersFlags(NoneSeen, [a]);
    assert [a, b][..1] == [a];
  }

  /**
    `($r: 1..., $x: 2)`: the rest parameter has a default, so the hook counts
    it as optional, and an optional parameter may follow it unmarked.
   */
  lemma DefaultedRestThenOptional(r: Parameter, x: Parameter)
    requires r.DefaultedRest() && x.defaultValue.Some?
    ensures ParametersAccepted([r, x])
    ensures Replay(AdjustParameters, NoneSeen, [r, x]) == OrderFlags(true, false)
  {
    ParametersAcceptedIffWellOrdered([r, x]);
    ParametersFlags(NoneSeen, [r, x]);
  }

  /** A positional argument after a named one, and a second rest argument, are both marked. */
  lemma ArgumentMarks(named: Argument, positional: Argument, rest: Argument)
    requires named.name != "" && positional.name == "" && !positional.isRest
    requires rest.name == "" && rest.isRest
    ensures Check(Replay(AdjustArguments, NoneSeen, [named]), ArgumentSlot(positional)) == Some(PlainAfterKeyed)
    ensures Check(Replay(AdjustArguments, NoneSeen, [rest]), ArgumentSlot(rest)) == Some(DuplicateRest)
  {
    ArgumentsFlags(NoneSeen, [named]);
    ArgumentsFlags(NoneSeen, [rest]);
  }

  /**
    A group of two chains, one holding a placeholder in its head and one
    without any flagged selector, contains a placeholder.
   */
  method BuildGroup(name: string, other: SimpleSelector) returns (g: SelectorGroup)
    requires !other.Reference? && !other.Placeholder?
    ensures |g.elements| == 2
    ensures g.flags.hasPlaceholder && !g.flags.hasReference
  {
    var first := Combination(AncestorOf, Some([other, Placeholder(name)]), None);
    var second := Combination(ParentOf, Some([other]), Some(Combination(AncestorOf, Some([other]), None)));
    g := NewSelectorGroup();
    g.Push(first);
    g.Push(second);
    CombinationFlagsIff(first);
    CombinationFlagsIff(second);
    assert Leaves(first)[1].Placeholder?;
    assert Leaves(second) == [other, other];
    GroupPlaceholderIff(g);
    GroupReferenceIff(g);
  }
}
