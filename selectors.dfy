/**
  CSS selectors and their two bottom-up flags: whether a selector contains a
  parent reference (`&`) and whether it contains a placeholder (`%name`).

  Simple selectors set the flags at construction; a simple selector sequence
  (a compound selector) and a comma-separated selector group OR them in as
  members are appended; a combinator chain takes the OR of its head and tail.
 */
module Selectors {
  import opened Wrappers
  import opened Vectors
  import opened Expressions

  datatype SelectorFlags = SelectorFlags(hasReference: bool, hasPlaceholder: bool)

  const Unflagged := SelectorFlags(false, false)

  function Or(f: SelectorFlags, g: SelectorFlags): SelectorFlags
  {
    SelectorFlags(f.hasReference || g.hasReference, f.hasPlaceholder || g.hasPlaceholder)
  }

  datatype SimpleSelector =
    | Reference                                   // `&`
    | Placeholder(name: string)                   // `%name`
    | TypeSelector(name: string)                  // `div`, `*`
    | Qualifier(name: string)                     // `.class`, `#id`
    | Attribute(name: string, matcher: string, attributeValue: string)
    | Pseudo(name: string, argument: Option<Expression>)
    | Negated(negated: SimpleSelector)            // `:not(...)`

  /**
    The flags a simple selector is constructed with. Only the parent reference
    and the placeholder set one; a negation does not look at the selector it
    wraps.
   */
  function LeafFlags(s: SimpleSelector): (f: SelectorFlags)
    ensures f.hasReference <==> s.Reference?
    ensures f.hasPlaceholder <==> s.Placeholder?
  {
    match s
    case Reference => SelectorFlags(true, false)
    case Placeholder(_) => SelectorFlags(false, true)
    case _ => Unflagged
  }

  // ---------------------------------------------------------------------------
  // Simple selector sequences

  /** The hook of a simple selector sequence: OR the appended selector's flags in. */
  function AdjustSequence(f: SelectorFlags, s: SimpleSelector): (r: SelectorFlags)
    ensures r.hasReference <==> f.hasReference || s.Reference?
    ensures r.hasPlaceholder <==> f.hasPlaceholder || s.Placeholder?
  {
    Or(f, LeafFlags(s))
  }

  type SimpleSelectorSequence = Vectorized<SimpleSelector, SelectorFlags>

  method NewSimpleSelectorSequence() returns (q: SimpleSelectorSequence)
    ensures fresh(q) && q.Valid()
    ensures q.elements == [] && q.flags == Unflagged
    ensures q.adjust == AdjustSequence && q.initial == Unflagged
  {
    q := new Vectorized(AdjustSequence, Unflagged);
  }

  /** The flags of a sequence whose members are `xs`. */
  function SequenceFlags(xs: seq<SimpleSelector>): SelectorFlags
  {
    Replay(AdjustSequence, Unflagged, xs)
  }

  /** A sequence's flags are the OR of its members' flags, accumulated onto `f`. */
  lemma {:induction false} AdjustSequenceFlags(f: SelectorFlags, xs: seq<SimpleSelector>)
    ensures Replay(AdjustSequence, f, xs).hasReference <==>
              f.hasReference || exists i :: 0 <= i < |xs| && xs[i].Reference?
    ensures Replay(AdjustSequence, f, xs).hasPlaceholder <==>
              f.hasPlaceholder || exists i :: 0 <= i < |xs| && xs[i].Placeholder?
    decreases |xs|
  {
    if xs != [] {
      AdjustSequenceFlags(AdjustSequence(f, xs[0]), xs[1..]);
      assert forall i :: 1 <= i < |xs| ==> xs[i] == xs[1..][i - 1];
    }
  }

  // ---------------------------------------------------------------------------
  // Combinator chains

  /** The four CSS combinators: descendant (whitespace), child `>`, general sibling `~`, adjacent sibling `+`. */
  datatype Combinator = AncestorOf | ParentOf | Precedes | AdjacentTo

  /**
    A chain of compound selectors joined by combinators, read left to right:
    the head compound (the members of a simple selector sequence, or none),
    the combinator that joins it to the rest, and the rest of the chain.
   */
  datatype Combination = Combination(combinator: Combinator,
                                     head: Option<seq<SimpleSelector>>,
                                     tail: Option<Combination>)

  /**
    The flags of a chain: those of its head OR those of its tail, a missing
    part giving none. However long the chain, they are exactly those of one
    sequence holding all of its simple selectors.
   */
  function CombinationFlags(c: Combination): (r: SelectorFlags)
    ensures r == SequenceFlags(Leaves(c))
    decreases c
  {
    var h := if c.head.Some? then c.head.value else [];
    SequenceFlagsConcat(h, if c.tail.Some? then Leaves(c.tail.value) else []);
    Or(if c.head.Some? then SequenceFlags(c.head.value) else Unflagged,
       if c.tail.Some? then CombinationFlags(c.tail.value) else Unflagged)
  }

  /** Every simple selector of a chain, head compound by head compound, left to right. */
  function Leaves(c: Combination): seq<SimpleSelector>
    decreases c
  {
    (if c.head.Some? then c.head.value else []) + (if c.tail.Some? then Leaves(c.tail.value) else [])
  }

  /** The flags of two sequences laid end to end are the OR of their flags. */
  lemma SequenceFlagsConcat(h: seq<SimpleSelector>, t: seq<SimpleSelector>)
    ensures SequenceFlags(h + t) == Or(SequenceFlags(h), SequenceFlags(t))
  {
    AdjustSequenceFlags(Unflagged, h);
    AdjustSequenceFlags(Unflagged, t);
    AdjustSequenceFlags(Unflagged, h + t);
    assert forall i :: 0 <= i < |h| ==> (h + t)[i] == h[i];
    assert forall i :: 0 <= i < |t| ==> (h + t)[|h| + i] == t[i];
  }

  /** Whether any simple selector anywhere along the chain is a parent reference, or a placeholder. */
  lemma CombinationFlagsIff(c: Combination)
    ensures CombinationFlags(c).hasReference <==> exists i :: 0 <= i < |Leaves(c)| && Leaves(c)[i].Reference?
    ensures CombinationFlags(c).hasPlaceholder <==> exists i :: 0 <= i < |Leaves(c)| && Leaves(c)[i].Placeholder?
  {
    var xs := Leaves(c);
    assert CombinationFlags(c) == SequenceFlags(xs) == Replay(AdjustSequence, Unflagged, xs);
    AdjustSequenceFlags(Unflagged, xs);
  }

  // ---------------------------------------------------------------------------
  // Selector groups

  /** The hook of a comma-separated group: OR the appended chain's flags in. */
  function AdjustGroup(f: SelectorFlags, c: Combination): (r: SelectorFlags)
    ensures r.hasReference <==> f.hasReference || exists i :: 0 <= i < |Leaves(c)| && Leaves(c)[i].Reference?
    ensures r.hasPlaceholder <==> f.hasPlaceholder || exists i :: 0 <= i < |Leaves(c)| && Leaves(c)[i].Placeholder?
  {
    CombinationFlagsIff(c);
    Or(f, CombinationFlags(c))
  }

  type SelectorGroup = Vectorized<Combination, SelectorFlags>

  method NewSelectorGroup() returns (g: SelectorGroup)
    ensures fresh(g) && g.Valid()
    ensures g.elements == [] && g.flags == Unflagged
    ensures g.adjust == AdjustGroup && g.initial == Unflagged
  {
    g := new Vectorized(AdjustGroup, Unflagged);
  }

  /** A group's flags are the OR of its members' flags, accumulated onto `f`. */
  lemma {:induction false} AdjustGroupFlags(f: SelectorFlags, cs: seq<Combination>)
    ensures Replay(AdjustGroup, f, cs).hasReference <==>
              f.hasReference || exists i :: 0 <= i < |cs| && CombinationFlags(cs[i]).hasReference
    ensures Replay(AdjustGroup, f, cs).hasPlaceholder <==>
              f.hasPlaceholder || exists i :: 0 <= i < |cs| && CombinationFlags(cs[i]).hasPlaceholder
    decreases |cs|
  {
    if cs != [] {
      AdjustGroupFlags(AdjustGroup(f, cs[0]), cs[1..]);
      assert forall i :: 1 <= i < |cs| ==> cs[i] == cs[1..][i - 1];
    }
  }

  /** A group built from scratch contains a placeholder exactly when some simple selector of some member chain is one. */
  lemma GroupPlaceholderIff(g: SelectorGroup)
    requires g.Valid() && g.adjust == AdjustGroup && g.initial == Unflagged
    ensures g.flags.hasPlaceholder <==>
              exists i, j :: 0 <= i < |g.elements| && 0 <= j < |Leaves(g.elements[i])| && Leaves(g.elements[i])[j].Placeholder?
  {
    AdjustGroupFlags(Unflagged, g.elements);
    if g.flags.hasPlaceholder {
      var i :| 0 <= i < |g.elements| && CombinationFlags(g.elements[i]).hasPlaceholder;
      CombinationFlagsIff(g.elements[i]);
      var j :| 0 <= j < |Leaves(g.elements[i])| && Leaves(g.elements[i])[j].Placeholder?;
    }
    if exists i, j :: 0 <= i < |g.elements| && 0 <= j < |Leaves(g.elements[i])| && Leaves(g.elements[i])[j].Placeholder? {
      var i, j :| 0 <= i < |g.elements| && 0 <= j < |Leaves(g.elements[i])| && Leaves(g.elements[i])[j].Placeholder?;
      var c := g.elements[i];
      var xs := Leaves(c);
      assert 0 <= j < |xs| && xs[j].Placeholder?;
      AdjustSequenceFlags(Unflagged, xs);
      assert CombinationFlags(c) == Replay(AdjustSequence, Unflagged, xs);
      assert CombinationFlags(g.elements[i]).hasPlaceholder;
    }
  }

  /** A group built from scratch contains a parent reference exactly when some simple selector of some member chain is one. */
  lemma GroupReferenceIff(g: SelectorGroup)
    requires g.Valid() && g.adjust == AdjustGroup && g.initial == Unflagged
    ensures g.flags.hasReference <==>
              exists i, j :: 0 <= i < |g.elements| && 0 <= j < |Leaves(g.elements[i])| && Leaves(g.elements[i])[j].Reference?
  {
    AdjustGroupFlags(Unflagged, g.elements);
    if g.flags.hasReference {
      var i :| 0 <= i < |g.elements| && CombinationFlags(g.elements[i]).hasReference;
      CombinationFlagsIff(g.elements[i]);
      var j :| 0 <= j < |Leaves(g.elements[i])| && Leaves(g.elements[i])[j].Reference?;
    }
    if exists i, j :: 0 <= i < |g.elements| && 0 <= j < |Leaves(g.elements[i])| && Leaves(g.elements[i])[j].Reference? {
      var i, j :| 0 <= i < |g.elements| && 0 <= j < |Leaves(g.elements[i])| && Leaves(g.elements[i])[j].Reference?;
      var c := g.elements[i];
      var xs := Leaves(c);
      assert 0 <= j < |xs| && xs[j].Reference?;
      AdjustSequenceFlags(Unflagged, xs);
      assert CombinationFlags(c) == Replay(AdjustSequence, Unflagged, xs);
      assert CombinationFlags(g.elements[i]).hasReference;
    }
  }

  /** Any selector a statement can hold. */
  datatype Selector =
    | SchemaSelector(contents: Expression)        // an interpolated selector, re-parsed after evaluation
    | SimpleSel(simple: SimpleSelector)
    | SequenceSel(sequence: SimpleSelectorSequence)
    | CombinationSel(combination: Combination)
    | GroupSel(group: SelectorGroup)
}
