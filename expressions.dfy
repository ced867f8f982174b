/**
  The value side of the AST: expressions, and the parameter and argument
  lists of mixin and function definitions and calls.

  Parameters and arguments live here because a function call expression owns
  an argument list whose arguments are expressions again.
 */
module Expressions {
  import opened Wrappers
  import opened Vectors
  import opened Ordering

  /** An IEEE-754 double, kept as its bit pattern: this layer does no arithmetic on it. */
  datatype Double = Double(bits: bv64)

  datatype Separator = Space | Comma

  datatype BinaryOp =
    | And | Or
    | Eq | Neq | Gt | Gte | Lt | Lte
    | Add | Sub | Mul | Div | Mod

  datatype UnaryOp = Plus | Minus

  /** The lexical class of an unevaluated numeric literal. */
  datatype TextualKind = NumberText | PercentageText | DimensionText | HexText

  /** An expression node with the two evaluation-control flags every expression carries. */
  datatype Expression = Expression(kind: ExpressionKind, isDelayed: bool, isParenthesized: bool)

  datatype ExpressionKind =
    | List(items: ExpressionList, separator: Separator, isArglist: bool)
    | BinaryExpression(binaryOp: BinaryOp, left: Expression, right: Expression)
    | UnaryExpression(unaryOp: UnaryOp, operand: Expression)
    | FunctionCall(callee: string, arguments: Arguments)
    | Variable(variableName: string)
    | Textual(textualKind: TextualKind, lexeme: string)
    | Number(number: Double)
    | Percentage(number: Double)
    | Dimension(number: Double, numeratorUnits: seq<string>, denominatorUnits: seq<string>)
    | Color(r: Double, g: Double, b: Double, a: Double)
    | Boolean(truth: bool)
    | StringSchema(fragments: ExpressionList)
    | StringConstant(text: string)
    | MediaQueryExpression(feature: Expression, featureValue: Option<Expression>)

  /** A list or interpolated string: an ordered collection whose hook does nothing. */
  type ExpressionList = Vectorized<Expression, ()>

  /** The mixin's default hook, which does nothing; see `ReplayInert`. */
  function KeepState(s: (), e: Expression): ()
  {
    s
  }

  method NewExpressionList() returns (l: ExpressionList)
    ensures fresh(l) && l.Valid()
    ensures l.elements == [] && l.adjust == KeepState
  {
    l := new Vectorized(KeepState, ());
  }

  /** A freshly constructed expression is neither delayed nor parenthesized. */
  function NewExpression(kind: ExpressionKind): (e: Expression)
    ensures e.kind == kind && !e.isDelayed && !e.isParenthesized
  {
    Expression(kind, false, false)
  }

  /** A dimension starts with its one unit as the only numerator unit and no denominator units. */
  function NewDimension(number: Double, unit: string): (e: Expression)
    ensures e.kind.Dimension? && e.kind.number == number
    ensures e.kind.numeratorUnits == [unit] && e.kind.denominatorUnits == []
    ensures !e.isDelayed && !e.isParenthesized
  {
    NewExpression(Dimension(number, [unit], []))
  }

  // ---------------------------------------------------------------------------
  // Parameters of mixin and function definitions

  datatype Parameter = Parameter(name: string, defaultValue: Option<Expression>, isRest: bool)
  {
    /**
      A parameter that has a default value and is also a rest parameter; the
      constructor marks it as an error. It is exactly the rest parameter that
      the list hook does not count as one, because it counts it as optional.
     */
    predicate DefaultedRest(): (r: bool)
      ensures r <==> isRest && ParameterSlot(this) != Rest
      ensures r ==> ParameterSlot(this) == Keyed
    {
      defaultValue.Some? && isRest
    }
  }

  /**
    How the parameter-list hook classifies a parameter: the default value is
    tested first, so a rest parameter with a default counts as optional.
   */
  function ParameterSlot(p: Parameter): (s: Slot)
    ensures s == Keyed <==> p.defaultValue.Some?
    ensures s == Rest <==> p.isRest && p.defaultValue.None?
  {
    if p.defaultValue.Some? then Keyed
    else if p.isRest then Rest
    else Plain
  }

  function ParameterSlots(ps: seq<Parameter>): (r: seq<Slot>)
    ensures |r| == |ps|
    ensures forall i :: 0 <= i < |ps| ==> r[i] == ParameterSlot(ps[i])
  {
    seq(|ps|, i requires 0 <= i < |ps| => ParameterSlot(ps[i]))
  }

  /**
    The parameter-list hook. `hasKeyed` is the list's has-optional-parameters
    flag and `hasRest` its has-rest-parameter flag.
   */
  function AdjustParameters(f: OrderFlags, p: Parameter): (r: OrderFlags)
    ensures r.hasKeyed <==> f.hasKeyed || p.defaultValue.Some?
    ensures r.hasRest <==> f.hasRest || (p.defaultValue.None? && p.isRest)
  {
    Step(f, ParameterSlot(p))
  }

  type Parameters = Vectorized<Parameter, OrderFlags>

  method NewParameters() returns (ps: Parameters)
    ensures fresh(ps) && ps.Valid()
    ensures ps.elements == [] && ps.flags == NoneSeen
    ensures ps.adjust == AdjustParameters && ps.initial == NoneSeen
  {
    ps := new Vectorized(AdjustParameters, NoneSeen);
  }

  /** The error the hook marks for appending `p` to `ps` in its current state, if any. */
  function ParameterViolation(ps: Parameters, p: Parameter): (r: Option<Violation>)
    reads ps
    ensures r == None <==> !ps.flags.hasRest && (ps.flags.hasKeyed ==> p.defaultValue.Some?)
  {
    Check(ps.flags, ParameterSlot(p))
  }

  /**
    On a list built from scratch that no earlier append marked, appending `p`
    is unmarked exactly when the longer list is still accepted.
   */
  lemma ParameterViolationIffAccepted(ps: Parameters, p: Parameter)
    requires ps.Valid() && ps.adjust == AdjustParameters && ps.initial == NoneSeen
    requires ParametersAccepted(ps.elements)
    ensures ParameterViolation(ps, p) == None <==> ParametersAccepted(ps.elements + [p])
  {
    var slots := ParameterSlots(ps.elements);
    ParametersReplay(NoneSeen, ps.elements);
    ParametersAcceptedIffWellOrdered(ps.elements);
    ParametersAcceptedIffWellOrdered(ps.elements + [p]);
    assert ParameterSlots(ps.elements + [p]) == slots + [ParameterSlot(p)];
    CheckIffExtends(slots, ParameterSlot(p));
  }

  /** Replaying the parameter hook is replaying the ordering automaton on the slots. */
  lemma ParametersReplay(f: OrderFlags, ps: seq<Parameter>)
    ensures Replay(AdjustParameters, f, ps) == Replay(Step, f, ParameterSlots(ps))
  {
    ReplayView(AdjustParameters, Step, ParameterSlot, f, ps, ParameterSlots(ps));
  }

  /**
    Starting from `f`, the has-optional flag ends up set exactly when it was
    set or some appended parameter has a default value, and the has-rest flag
    exactly when it was set or some appended parameter is a rest parameter
    without a default. In particular neither flag ever reverts.
   */
  lemma ParametersFlags(f: OrderFlags, ps: seq<Parameter>)
    ensures Replay(AdjustParameters, f, ps).hasKeyed <==>
              f.hasKeyed || exists i :: 0 <= i < |ps| && ps[i].defaultValue.Some?
    ensures Replay(AdjustParameters, f, ps).hasRest <==>
              f.hasRest || exists i :: 0 <= i < |ps| && ps[i].defaultValue.None? && ps[i].isRest
  {
    ParametersReplay(f, ps);
    StepFlags(f, ParameterSlots(ps));
    var slots := ParameterSlots(ps);
    if Keyed in slots {
      var i :| 0 <= i < |slots| && slots[i] == Keyed;
      assert ps[i].defaultValue.Some?;
    }
    if Rest in slots {
      var i :| 0 <= i < |slots| && slots[i] == Rest;
      assert ps[i].defaultValue.None? && ps[i].isRest;
    }
  }

  /** No append of `ps`, made one at a time to a fresh parameter list, reaches an error mark of the hook. */
  predicate ParametersAccepted(ps: seq<Parameter>)
  {
    forall i :: 0 <= i < |ps| ==> Check(Replay(AdjustParameters, NoneSeen, ps[..i]), ParameterSlot(ps[i])) == None
  }

  /**
    A parameter list passes the hook's marks exactly when no parameter follows
    a rest parameter without a default, and every parameter after one with a
    default has a default too (so a rest parameter without a default cannot
    follow an optional one). A rest parameter with a default counts as
    optional here, as the hook tests the default first.
   */
  lemma ParametersAcceptedIffWellOrdered(ps: seq<Parameter>)
    ensures ParametersAccepted(ps) <==> WellOrdered(ParameterSlots(ps))
  {
    var slots := ParameterSlots(ps);
    forall i | 0 <= i < |ps|
      ensures Replay(AdjustParameters, NoneSeen, ps[..i]) == Flags(slots[..i])
    {
      ParametersReplay(NoneSeen, ps[..i]);
      assert ParameterSlots(ps[..i]) == slots[..i];
    }
    AcceptedIffWellOrdered(slots);
  }

  // ---------------------------------------------------------------------------
  // Arguments of mixin and function calls

  /** An argument; the empty name stands for a positional argument. */
  datatype Argument = Argument(value: Expression, name: string, isRest: bool)
  {
    /**
      A named rest argument; the constructor marks it as an error. It is
      exactly the rest argument that the list hook does not count as one,
      because it counts it as named.
     */
    predicate NamedRest(): (r: bool)
      ensures r <==> isRest && ArgumentSlot(this) != Rest
      ensures r ==> ArgumentSlot(this) == Keyed
    {
      name != "" && isRest
    }
  }

  /** How the argument-list hook classifies an argument: the name is tested first. */
  function ArgumentSlot(a: Argument): (s: Slot)
    ensures s == Keyed <==> a.name != ""
    ensures s == Rest <==> a.isRest && a.name == ""
  {
    if a.name != "" then Keyed
    else if a.isRest then Rest
    else Plain
  }

  function ArgumentSlots(args: seq<Argument>): (r: seq<Slot>)
    ensures |r| == |args|
    ensures forall i :: 0 <= i < |args| ==> r[i] == ArgumentSlot(args[i])
  {
    seq(|args|, i requires 0 <= i < |args| => ArgumentSlot(args[i]))
  }

  /**
    The argument-list hook. `hasKeyed` is the list's has-named-arguments flag
    and `hasRest` its has-rest-argument flag.
   */
  function AdjustArguments(f: OrderFlags, a: Argument): (r: OrderFlags)
    ensures r.hasKeyed <==> f.hasKeyed || a.name != ""
    ensures r.hasRest <==> f.hasRest || (a.name == "" && a.isRest)
  {
    Step(f, ArgumentSlot(a))
  }

  type Arguments = Vectorized<Argument, OrderFlags>

  method NewArguments() returns (args: Arguments)
    ensures fresh(args) && args.Valid()
    ensures args.elements == [] && args.flags == NoneSeen
    ensures args.adjust == AdjustArguments && args.initial == NoneSeen
  {
    args := new Vectorized(AdjustArguments, NoneSeen);
  }

  /** The error the hook marks for appending `a` to `args` in its current state, if any. */
  function ArgumentViolation(args: Arguments, a: Argument): (r: Option<Violation>)
    reads args
    ensures r == None <==> !args.flags.hasRest && (args.flags.hasKeyed ==> a.name != "")
  {
    Check(args.flags, ArgumentSlot(a))
  }

  /**
    On a list built from scratch that no earlier append marked, appending `a`
    is unmarked exactly when the longer list is still accepted.
   */
  lemma ArgumentViolationIffAccepted(args: Arguments, a: Argument)
    requires args.Valid() && args.adjust == AdjustArguments && args.initial == NoneSeen
    requires ArgumentsAccepted(args.elements)
    ensures ArgumentViolation(args, a) == None <==> ArgumentsAccepted(args.elements + [a])
  {
    var slots := ArgumentSlots(args.elements);
    ArgumentsReplay(NoneSeen, args.elements);
    ArgumentsAcceptedIffWellOrdered(args.elements);
    ArgumentsAcceptedIffWellOrdered(args.elements + [a]);
    assert ArgumentSlots(args.elements + [a]) == slots + [ArgumentSlot(a)];
    CheckIffExtends(slots, ArgumentSlot(a));
  }

  /** Replaying the argument hook is replaying the ordering automaton on the slots. */
  lemma ArgumentsReplay(f: OrderFlags, args: seq<Argument>)
    ensures Replay(AdjustArguments, f, args) == Replay(Step, f, ArgumentSlots(args))
  {
    ReplayView(AdjustArguments, Step, ArgumentSlot, f, args, ArgumentSlots(args));
  }

  /**
    Starting from `f`, the has-named flag ends up set exactly when it was set
    or some appended argument is named, and the has-rest flag exactly when it
    was set or some appended argument is an unnamed rest argument.
   */
  lemma ArgumentsFlags(f: OrderFlags, args: seq<Argument>)
    ensures Replay(AdjustArguments, f, args).hasKeyed <==>
              f.hasKeyed || exists i :: 0 <= i < |args| && args[i].name != ""
    ensures Replay(AdjustArguments, f, args).hasRest <==>
              f.hasRest || exists i :: 0 <= i < |args| && args[i].name == "" && args[i].isRest
  {
    ArgumentsReplay(f, args);
    StepFlags(f, ArgumentSlots(args));
    var slots := ArgumentSlots(args);
    if Keyed in slots {
      var i :| 0 <= i < |slots| && slots[i] == Keyed;
      assert args[i].name != "";
    }
    if Rest in slots {
      var i :| 0 <= i < |slots| && slots[i] == Rest;
      assert args[i].name == "" && args[i].isRest;
    }
  }

  /** No append of `args`, made one at a time to a fresh argument list, reaches an error mark of the hook. */
  predicate ArgumentsAccepted(args: seq<Argument>)
  {
    forall i :: 0 <= i < |args| ==> Check(Replay(AdjustArguments, NoneSeen, args[..i]), ArgumentSlot(args[i])) == None
  }

  /**
    An argument list passes the hook's marks exactly when no argument follows
    an unnamed rest argument, and every argument after a named one is named
    too. A named rest argument counts as named here, as the hook tests the
    name first.
   */
  lemma ArgumentsAcceptedIffWellOrdered(args: seq<Argument>)
    ensures ArgumentsAccepted(args) <==> WellOrdered(ArgumentSlots(args))
  {
    var slots := ArgumentSlots(args);
    forall i | 0 <= i < |args|
      ensures Replay(AdjustArguments, NoneSeen, args[..i]) == Flags(slots[..i])
    {
      ArgumentsReplay(NoneSeen, args[..i]);
      assert ArgumentSlots(args[..i]) == slots[..i];
    }
    AcceptedIffWellOrdered(slots);
  }
}
