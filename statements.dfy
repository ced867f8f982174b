/**
  The statement side of the AST and the blocks that hold statements.

  A block keeps two aggregate flags up to date as statements are appended:
  whether it holds a hoistable statement (a nested ruleset, which has to be
  floated out to the top level when CSS is emitted) and whether it holds a
  statement that is not hoistable.
 */
module Statements {
  import opened Wrappers
  import opened Vectors
  import opened Expressions
  import opened Selectors

  datatype DefinitionKind = MixinDefinition | FunctionDefinition

  datatype Statement =
    | Nested(block: Block)
    | Ruleset(selector: Selector, block: Block)
    | Propset(propertyFragment: Expression, block: Block)
    | MediaBlock(mediaQueries: Expression, block: Block)
    | AtRule(keyword: string, atSelector: Option<Selector>, optionalBlock: Option<Block>)
    | Declaration(property: Expression, value: Expression, isImportant: bool)
    | Assignment(variable: string, value: Expression, isGuarded: bool)
    | Import(files: seq<string>, urls: seq<Expression>)
    | ImportStub(fileName: string)
    | Warning(message: Expression)
    | Comment(text: Expression)
    | If(condition: Expression, consequent: Block, alternative: Option<Block>)
    | For(variable: string, lowerBound: Expression, upperBound: Expression, block: Block, isInclusive: bool)
    | Each(variable: string, list: Expression, block: Block)
    | While(condition: Expression, block: Block)
    | Return(returned: Option<Expression>)
    | Content
    | Extend(selector: Selector)
    | Definition(name: string, parameters: Parameters, block: Block, definitionKind: DefinitionKind)
    | MixinCall(name: string, arguments: Arguments, optionalBlock: Option<Block>)

  /** Only a ruleset is hoistable; every other statement keeps the default, false. */
  function IsHoistable(s: Statement): (r: bool)
    ensures r <==> s.Ruleset?
  {
    match s
    case Ruleset(_, _) => true
    case _ => false
  }

  datatype BlockFlags = BlockFlags(isRoot: bool, hasHoistable: bool, hasNonHoistable: bool)

  type Block = Vectorized<Statement, BlockFlags>

  /**
    The block hook as the source writes it: a hoistable statement sets
    has-hoistable, and a non-hoistable one assigns false to
    has-non-hoistable.
   */
  function AdjustBlockAsWritten(f: BlockFlags, s: Statement): (r: BlockFlags)
    ensures r.hasHoistable <==> f.hasHoistable || IsHoistable(s)
    ensures r.hasNonHoistable <==> f.hasNonHoistable && IsHoistable(s)
    ensures r.isRoot == f.isRoot
  {
    if IsHoistable(s) then f.(hasHoistable := true) else f.(hasNonHoistable := false)
  }

  /** The block hook as intended: a non-hoistable statement sets has-non-hoistable. */
  function AdjustBlock(f: BlockFlags, s: Statement): (r: BlockFlags)
    ensures r.hasHoistable <==> f.hasHoistable || IsHoistable(s)
    ensures r.hasNonHoistable <==> f.hasNonHoistable || !IsHoistable(s)
    ensures r.isRoot == f.isRoot
  {
    if IsHoistable(s) then f.(hasHoistable := true) else f.(hasNonHoistable := true)
  }

  /** A new block: empty, flagged as root or not, with both aggregate flags false. */
  method NewBlock(isRoot: bool) returns (b: Block)
    ensures fresh(b) && b.Valid()
    ensures b.elements == [] && b.flags == BlockFlags(isRoot, false, false)
    ensures b.adjust == AdjustBlock && b.initial == b.flags
  {
    b := new Vectorized(AdjustBlock, BlockFlags(isRoot, false, false));
  }

  /**
    Starting from `f`, has-hoistable ends up set exactly when it was set or
    some appended statement is hoistable, so once set it never reverts; the
    root flag is never touched. Both hooks agree on these.
   */
  lemma {:induction false} HoistableFlag(f: BlockFlags, ss: seq<Statement>)
    ensures Replay(AdjustBlock, f, ss).hasHoistable <==>
              f.hasHoistable || exists i :: 0 <= i < |ss| && IsHoistable(ss[i])
    ensures Replay(AdjustBlockAsWritten, f, ss).hasHoistable <==>
              f.hasHoistable || exists i :: 0 <= i < |ss| && IsHoistable(ss[i])
    ensures Replay(AdjustBlock, f, ss).isRoot == f.isRoot
    ensures Replay(AdjustBlockAsWritten, f, ss).isRoot == f.isRoot
    decreases |ss|
  {
    if ss != [] {
      HoistableFlag(AdjustBlock(f, ss[0]), ss[1..]);
      HoistableFlag(AdjustBlockAsWritten(f, ss[0]), ss[1..]);
      assert forall i :: 1 <= i < |ss| ==> ss[i] == ss[1..][i - 1];
    }
  }

  /**
    As written, has-non-hoistable is only ever assigned false: it ends up set
    only when it was already set and every appended statement is hoistable,
    so on a new block it stays false whatever is appended.
   */
  lemma {:induction false} NonHoistableAsWritten(f: BlockFlags, ss: seq<Statement>)
    ensures Replay(AdjustBlockAsWritten, f, ss).hasNonHoistable <==>
              f.hasNonHoistable && forall i :: 0 <= i < |ss| ==> IsHoistable(ss[i])
    decreases |ss|
  {
    if ss != [] {
      NonHoistableAsWritten(AdjustBlockAsWritten(f, ss[0]), ss[1..]);
      assert forall i :: 1 <= i < |ss| ==> ss[i] == ss[1..][i - 1];
    }
  }

  /** A concrete witness: appending one declaration to a new block leaves has-non-hoistable false as written. */
  lemma NonHoistableAsWrittenMissesDeclaration(isRoot: bool, d: Statement)
    requires d.Declaration?
    ensures !Replay(AdjustBlockAsWritten, BlockFlags(isRoot, false, false), [d]).hasNonHoistable
    ensures Replay(AdjustBlock, BlockFlags(isRoot, false, false), [d]).hasNonHoistable
  {
    NonHoistableAsWritten(BlockFlags(isRoot, false, false), [d]);
    assert [d][1..] == [];
  }

  /**
    With the intended hook, has-non-hoistable ends up set exactly when it was
    set or some appended statement is not hoistable, and never reverts.
   */
  lemma {:induction false} NonHoistableFlag(f: BlockFlags, ss: seq<Statement>)
    ensures Replay(AdjustBlock, f, ss).hasNonHoistable <==>
              f.hasNonHoistable || exists i :: 0 <= i < |ss| && !IsHoistable(ss[i])
    decreases |ss|
  {
    if ss != [] {
      NonHoistableFlag(AdjustBlock(f, ss[0]), ss[1..]);
      assert forall i :: 1 <= i < |ss| ==> ss[i] == ss[1..][i - 1];
    }
  }

  /**
    Under the corrected hook, a block built from scratch holds a hoistable
    statement exactly when its flag says so, and likewise for a non-hoistable
    one.
   */
  lemma BlockFlagsIff(b: Block)
    requires b.Valid() && b.adjust == AdjustBlock
    requires !b.initial.hasHoistable && !b.initial.hasNonHoistable
    ensures b.flags.hasHoistable <==> exists i :: 0 <= i < |b.elements| && b.elements[i].Ruleset?
    ensures b.flags.hasNonHoistable <==> exists i :: 0 <= i < |b.elements| && !b.elements[i].Ruleset?
    ensures b.flags.isRoot == b.initial.isRoot
  {
    HoistableFlag(b.initial, b.elements);
    NonHoistableFlag(b.initial, b.elements);
  }
}
