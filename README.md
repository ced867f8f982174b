# Sass AST layer: append hooks and derived flags

This project models the abstract-syntax-tree layer of the libsass compiler
(`src/ast.hpp`). That layer is mostly plain record nodes. Its logic is the
ordered-append mixin `Vectorized<T>` and the derived flags that composite
nodes keep up to date as children are appended:

- `Vectorized<T>` is an append-only sequence. `<<` pushes one element and
  then calls the owner's overridable `adjust_after_pushing` hook. `+=` pushes
  every element of another collection, so the hook runs once per element.
- `Block` keeps `has_hoistable` and `has_non_hoistable`. Only a `Ruleset` is
  hoistable.
- `Parameters` keeps `has_optional_parameters` and `has_rest_parameter`.
  `Arguments` keeps `has_named_arguments` and `has_rest_argument`. Their hooks
  mark the illegal appends in comments only.
- Selectors carry `has_reference` (contains `&`) and `has_placeholder`
  (contains `%name`). Simple selector sequences and selector groups OR them
  in on every append. A combinator chain ORs those of its head and tail.

Modules, in dependency order:

- `Vectors` (vectors.dfy): the mixin as one generic class
  `Vectorized<T, S>`. It holds `elements`, the owner's derived state `flags`,
  and the owner's hook `adjust: (S, T) -> S`. `Replay` folds a hook over a
  sequence. `Valid()` says the flags are the fold of the hook over the
  elements appended so far. Every owner is an instance with its own flag
  datatype and hook, composed rather than inherited.
- `Ordering` (ordering.dfy): the ordering state machine that parameter lists
  and argument lists share. An element is `Keyed` (an optional parameter or a
  named argument), `Rest` or `Plain`. It gives the literal flag update
  (`Step`), the error marks (`Check`), and the ordering rule on whole lists
  (`WellOrdered`).
- `Expressions` (expressions.dfy): the expression datatypes, parameters and
  arguments, and their list hooks.
- `Selectors` (selectors.dfy): simple selectors, sequences, combinator
  chains, groups and their flags.
- `Statements` (statements.dfy): statements, `is_hoistable` and the block
  hook.
- `Scenarios` (scenarios.dfy): small constructions made the way a parser
  builds nodes.

Where the model follows the code as written:

- The `Parameters` hook's comments mark "a rest parameter after an optional
  parameter" as an error (src/ast.hpp:647-648), for a rest parameter without
  a default. The model marks it too
  (`Scenarios.OptionalThenRest`), although the Sass language itself accepts
  `@mixin m($a, $b: 1, $rest...)`. The `Arguments` hook marks an unnamed rest
  argument after a named one in the same way (src/ast.hpp:701-702).
- The hooks only mark illegal appends in comments; `<<` (src/ast.hpp:37-42)
  appends and runs the hook whatever the element, so `Push` never fails.
  Legality is a separate predicate (`ParametersAccepted`,
  `ArgumentsAccepted`), and `ParameterViolation` / `ArgumentViolation` name
  the mark a single append would reach.

Where the model corrects the code:

- The `Block` hook assigns `false` to `has_non_hoistable` (see Findings).
  `NewBlock` installs the corrected hook `AdjustBlock`. The hook as written
  is kept as `AdjustBlockAsWritten`, with its own lemmas.

## Model

| member | source | states |
|---|---|---|
| Vectors.ReplayInert | src/ast.hpp:29 | A hook that ignores its element, as the mixin's default `adjust_after_pushing` does, leaves the state where it started however many elements are appended; the list hook `Expressions.KeepState` is one. |
| Vectors.ReplaySnoc | src/ast.hpp:37-42 | Running the hook over one more element equals one more hook call, made after all the earlier ones. |
| Vectors.ReplayConcat | src/ast.hpp:43-47 | Running the hook over `xs + ys` equals running it over `xs` and then over `ys`: one call per element, in order. |
| Vectors.Vectorized.constructor | src/ast.hpp:31-32 | A new collection is empty and its flags are the owner's initial flags. |
| Vectors.Vectorized.Length | src/ast.hpp:34 | `length()` is the number of elements appended so far. |
| Vectors.Vectorized.At | src/ast.hpp:36 | `[i]`, for `i` below the length, is the `i`-th element appended, so it is one of the elements. |
| Vectors.Vectorized.Empty | src/ast.hpp:34-35 | `empty()` holds exactly when `length()` is 0. |
| Vectors.Vectorized.Push | src/ast.hpp:37-42 | `<<` appends `x` at the end and leaves the earlier elements as they were. The new flags are the hook applied to the old flags and `x`. The flags stay equal to the hook folded over all elements. |
| Vectors.Vectorized.Append | src/ast.hpp:43-47 | `+=` appends the elements that `v` had before the call, in order, even when `v` is the collection itself. The flags are the hook run once per appended element. |
| Ordering.Step | src/ast.hpp:637-657 | One append sets the keyed flag exactly when it was set or the element is keyed, and the rest flag exactly when it was set or the element is a rest element. |
| Ordering.Check | src/ast.hpp:639-656 | An append is unmarked exactly when no rest element is present and, if a keyed one is, the element is keyed. Once a rest element is present, a second rest element is a duplicate and any other element comes after the rest one; otherwise, after a keyed element, a rest element and a plain element each get their own mark. |
| Ordering.StepFlags | src/ast.hpp:637-657 | The keyed flag ends up set exactly when it was set or a keyed element was appended. The same holds for the rest flag, so neither flag ever reverts. |
| Ordering.FlagsRecordSlots | src/ast.hpp:659-664 | For a list built from scratch, each flag is set exactly when its kind of element occurs in the list. |
| Ordering.CheckIffExtends | src/ast.hpp:639-656 | Given a well-ordered list, an append gets no error mark exactly when the extended list is still well ordered. |
| Ordering.AcceptedIffWellOrdered | src/ast.hpp:637-657 | A list gets no error mark on any of its appends exactly when it is well ordered: nothing follows a rest element, and only keyed elements follow a keyed one. |
| Expressions.NewExpressionList | src/ast.hpp:403-408 | A new list or interpolated string is empty, and its hook does nothing. |
| Expressions.NewExpression | src/ast.hpp:384-386 | A new expression is neither delayed nor parenthesized. |
| Expressions.NewDimension | src/ast.hpp:518-522 | A new dimension has its unit as the only numerator unit and no denominator units. |
| Expressions.Parameter.DefaultedRest | src/ast.hpp:621-624 | The combination the constructor leaves a to-do error for, a rest parameter with a default, is exactly the rest parameter that the list hook does not count as rest; the hook counts it as optional. |
| Expressions.ParameterSlot | src/ast.hpp:639-651 | A parameter counts as optional exactly when it has a default value. It counts as rest exactly when it is a rest parameter without a default, because the default is tested first. |
| Expressions.AdjustParameters | src/ast.hpp:637-657 | One append sets `has_optional_parameters` exactly when it was set or the parameter has a default value, and `has_rest_parameter` exactly when it was set or the parameter is a rest parameter without a default. |
| Expressions.NewParameters | src/ast.hpp:659-664 | A new parameter list is empty and both of its flags are false. |
| Expressions.ParameterViolation | src/ast.hpp:639-656 | Appending `p` to a list is unmarked exactly when the list's `has_rest_parameter` flag is unset and, if its `has_optional_parameters` flag is set, `p` has a default value. On a list built from scratch the flags record its elements (`ParametersFlags`). |
| Expressions.ParameterViolationIffAccepted | src/ast.hpp:637-657 | On a list built from scratch with no marked append, appending `p` is unmarked exactly when the longer list is still accepted. |
| Expressions.ParametersReplay | src/ast.hpp:637-657 | The parameter hook, run over a list, gives the same flags as the ordering state machine run over the parameters' kinds. |
| Expressions.ParametersFlags | src/ast.hpp:637-664 | `has_optional_parameters` becomes set exactly when a parameter with a default value is appended. `has_rest_parameter` becomes set exactly when a rest parameter without a default is appended. Neither flag reverts. |
| Expressions.ParametersAcceptedIffWellOrdered | src/ast.hpp:637-657 | No parameter append is marked as an error exactly when no parameter follows a rest parameter without a default, and only parameters with a default follow one with a default. A rest parameter with a default counts as optional, as the hook tests the default first. |
| Expressions.Argument.NamedRest | src/ast.hpp:676-678 | The combination the constructor marks as an error, a named rest argument, is exactly the rest argument that the list hook does not count as rest; the hook counts it as named. |
| Expressions.ArgumentSlot | src/ast.hpp:693-704 | An argument counts as named exactly when its name is non-empty. It counts as rest exactly when it is an unnamed rest argument, because the name is tested first. |
| Expressions.AdjustArguments | src/ast.hpp:691-711 | One append sets `has_named_arguments` exactly when it was set or the argument is named, and `has_rest_argument` exactly when it was set or the argument is an unnamed rest argument. |
| Expressions.NewArguments | src/ast.hpp:713-718 | A new argument list is empty and both of its flags are false. |
| Expressions.ArgumentViolation | src/ast.hpp:693-710 | Appending `a` to a list is unmarked exactly when the list's `has_rest_argument` flag is unset and, if its `has_named_arguments` flag is set, `a` is named. On a list built from scratch the flags record its elements (`ArgumentsFlags`). |
| Expressions.ArgumentViolationIffAccepted | src/ast.hpp:691-711 | On a list built from scratch with no marked append, appending `a` is unmarked exactly when the longer list is still accepted. |
| Expressions.ArgumentsReplay | src/ast.hpp:691-711 | The argument hook, run over a list, gives the same flags as the ordering state machine run over the arguments' kinds. |
| Expressions.ArgumentsFlags | src/ast.hpp:691-718 | `has_named_arguments` becomes set exactly when a named argument is appended. `has_rest_argument` becomes set exactly when an unnamed rest argument is appended. Neither flag reverts. |
| Expressions.ArgumentsAcceptedIffWellOrdered | src/ast.hpp:691-711 | No argument append is marked as an error exactly when no argument follows an unnamed rest argument, and only named arguments follow a named one. A named rest argument counts as named, as the hook tests the name first. |
| Selectors.LeafFlags | src/ast.hpp:764-846 | A simple selector has the reference flag exactly when it is `&`, and the placeholder flag exactly when it is `%name`. Every other simple selector, a negation included, has neither. |
| Selectors.AdjustSequence | src/ast.hpp:854-858 | One append sets a sequence's reference flag exactly when it was set or the selector is `&`, and its placeholder flag exactly when it was set or the selector is `%name`. |
| Selectors.NewSimpleSelectorSequence | src/ast.hpp:860-863 | A new simple selector sequence is empty and unflagged. |
| Selectors.AdjustSequenceFlags | src/ast.hpp:854-858 | A sequence's flag is set exactly when it was set or some appended simple selector carries that flag. |
| Selectors.CombinationFlags | src/ast.hpp:880-893 | A combinator chain of any length, whose flags are the OR of its head's and its tail's, has the same flags as one sequence holding all the simple selectors of its head compounds. |
| Selectors.SequenceFlagsConcat | src/ast.hpp:854-858 | The flags of two sequences laid end to end are the OR of their flags. |
| Selectors.CombinationFlagsIff | src/ast.hpp:886-889 | A chain has the reference flag (placeholder flag) exactly when some simple selector along the chain is `&` (`%name`). A missing head or tail contributes nothing. |
| Selectors.AdjustGroup | src/ast.hpp:905-909 | One append sets a group's reference flag (placeholder flag) exactly when it was set or some simple selector along the appended chain is `&` (`%name`). |
| Selectors.NewSelectorGroup | src/ast.hpp:911-916 | A new selector group is empty and unflagged. |
| Selectors.AdjustGroupFlags | src/ast.hpp:905-909 | A group's flag is set exactly when it was set or some appended chain carries that flag. |
| Selectors.GroupPlaceholderIff | src/ast.hpp:900-918 | A group built from scratch has the placeholder flag exactly when some simple selector of some member chain is a placeholder. |
| Selectors.GroupReferenceIff | src/ast.hpp:900-918 | A group built from scratch has the reference flag exactly when some simple selector of some member chain is a parent reference. |
| Statements.IsHoistable | src/ast.hpp:70-129 | A statement is hoistable exactly when it is a ruleset. |
| Statements.AdjustBlockAsWritten | src/ast.hpp:88-92 | The hook as written: one append sets `has_hoistable` exactly when it was set or the statement is hoistable, but leaves `has_non_hoistable` set only when it was set and the statement is hoistable; `is_root` is untouched. |
| Statements.AdjustBlock | src/ast.hpp:88-92 | The corrected hook: one append sets `has_hoistable` as written, and sets `has_non_hoistable` exactly when it was set or the statement is not hoistable; `is_root` is untouched. |
| Statements.NewBlock | src/ast.hpp:94-98 | A new block is empty, carries the requested root flag, and has both aggregate flags false. Its hook is the corrected one (see Findings). |
| Statements.HoistableFlag | src/ast.hpp:88-92 | Under either hook, `has_hoistable` ends up set exactly when it was set or a hoistable statement was appended, so it never reverts. `is_root` is never changed. |
| Statements.NonHoistableAsWritten | src/ast.hpp:88-92 | Under the hook as written, `has_non_hoistable` ends up set only if it was already set and every appended statement was hoistable. So it stays false on every block. |
| Statements.NonHoistableAsWrittenMissesDeclaration | src/ast.hpp:91 | After one declaration is appended to a new block, `has_non_hoistable` is false under the hook as written and true under the corrected hook. |
| Statements.NonHoistableFlag | src/ast.hpp:88-92 | Under the corrected hook, `has_non_hoistable` ends up set exactly when it was set or a non-hoistable statement was appended. |
| Statements.BlockFlagsIff | src/ast.hpp:82-100 | Under the corrected hook, in a block built from scratch, `has_hoistable` holds exactly when some statement is a ruleset, and `has_non_hoistable` holds exactly when some statement is not. `is_root` keeps its initial value. |
| Scenarios.AppendToItself | src/ast.hpp:43-47 | `x += x` appends exactly the original elements once more. |
| Scenarios.AppendEmpty | src/ast.hpp:43-47 | Appending an empty collection changes neither the elements nor the flags. |
| Scenarios.BuildBlock | src/ast.hpp:88-98 | A block built from a declaration, a ruleset and a declaration has `has_hoistable` set and, under the corrected hook, `has_non_hoistable` set; `is_root` stays false. |
| Scenarios.OptionalThenRest | src/ast.hpp:644-650 | Building `($a, $b: 1, $rest...)` sets both flags. The rest parameter is marked as an error because it follows an optional one. |
| Scenarios.RequiredAfterOptional | src/ast.hpp:651-656 | Building `($a: 1, $b)` marks the required parameter as an error. |
| Scenarios.DefaultedRestThenOptional | src/ast.hpp:639-643 | Building `($r: 1..., $x: 2)` gets no mark: the rest parameter with a default counts as optional, so an optional parameter may follow it. |
| Scenarios.ArgumentMarks | src/ast.hpp:698-710 | A positional argument after a named one is marked as an error, and so is a second rest argument. |
| Scenarios.BuildGroup | src/ast.hpp:882-909 | A group of two chains has `has_placeholder` set and `has_reference` unset when one chain holds a placeholder and neither holds a parent reference. |

## Left out

- Source locations: the path and line that every node carries (src/ast.hpp:55-62) hold no logic, so they are not modelled.
- Visitor dispatch (`ATTACH_OPERATIONS`): ast_def_macros.hpp and operation.hpp are not part of this model.
- Property setters generated by `ADD_PROPERTY`: that macro is not part of this model. Its uses with logic are modelled as the values they store: a leaf selector setting its own flag (`LeafFlags`), and the sequence hook reading and setting its flags through the getters and setters (src/ast.hpp:856-857, `AdjustSequence`).
- Writes through the reference returned by `operator[]`: they bypass the hook. Only indexed reads (`At`) are modelled.
- The `type()` name strings, and the `String_Constant` constructors over `const char*` ranges and tokens: these are constants and pointer arithmetic over token.hpp, which is not part of this model.
- Floating point: numeric values and colour channels are opaque bit patterns, with no arithmetic. A colour's default alpha of 1 is not modelled.
- Raw pointers, ownership, destructors and `reserve` capacity hints have no observable behaviour here.
- Owners of an append hook are objects. The other children are values, so aliasing between nodes is not modelled.
- A combinator chain keeps its head compound as a snapshot of that sequence's elements, taken at construction. In the code the chain keeps a live pointer to the head while its flags are a snapshot.
- `Selector_Combination` and `Selector_Group` redeclare the two flag properties. The chain's constructor fills the base-class fields, but every read through the chain's own type goes to the redeclared fields, which are never initialised: the constructor's own reads of the tail's flags (src/ast.hpp:887, 889) and the group hook's reads (src/ast.hpp:907-908) alike. The model gives every selector one flag pair and gives a chain the OR of its head's and tail's flags that the constructor intends (`CombinationFlags`).
- The `selector` property of `Selector_Reference` is never set in this file and is not modelled.
- Illegal parameter and argument appends are not rejected, because the code does not reject them. The error marks are modelled by `Check`, and the two constructor errors (a rest parameter with a default, a named rest argument) by `Parameter.DefaultedRest` and `Argument.NamedRest`.
- The unit vectors of a `Dimension`, and the file and URL vectors of an `Import`, are values. Their in-place mutation through returned references is not modelled.

## Findings

| source | as written | input that shows it | evidently intended | confidence | as-written member | corrected member |
|---|---|---|---|---|---|---|
| src/ast.hpp:91 | appending a non-hoistable statement assigns `false` to `has_non_hoistable` | a new block; append one declaration; `has_non_hoistable` is still false | appending a non-hoistable statement sets `has_non_hoistable` to true | high; not executed | Statements.NonHoistableAsWrittenMissesDeclaration | Statements.NonHoistableFlag |
