# voc back end: the scope assembler

This project models the assembler at the heart of the voc back end. voc compiles Python into Java class files, and its assembler turns a scope's instruction stream into a Java code object. The model covers `CodeParts` and `Block` in `voc/python/blocks.py`.

- **Forward references.** `CodeParts.add_opcodes` appends instructions. Every (holder, attribute) pair waiting in `next_resolve_list` is pointed at the first appended instruction. That pair is also recorded on the instruction's back-reference list.
- **Stack depth.** `CodeParts.stack_depth` is the running maximum of the summed stack effects.
- **Finished-list checks.** `Block.ignore_empty` is the empty-body check: it rewrites nothing, and only decides whether the scope is emitted at all. `Block.void_return` is a rewrite, tail normalisation: it replaces a trailing `ACONST_NULL; ARETURN` with one void `RETURN`. Every holder recorded on either removed instruction is pointed at the new `RETURN`; the new `RETURN`'s own back-reference list stays empty.
- **The end of `Block.transpile`.** After the commands are converted, it does five things:
  1. appends an implicit `RETURN`, only when the list does not already end in `RETURN` or `ARETURN`;
  2. runs the tweak hook;
  3. runs the layout pass, which gives every instruction its index and byte offset;
  4. builds the exception table and aims each try statement's skip jump at the end of the statement;
  5. aims every branch jump of every if statement at its join point, then builds the code object.

The model has four modules.

- `Opcodes` (`opcodes.dfy`) holds the entities.
  - An instruction is a class. Its opcode kind, byte length and stack effect are constants. The byte length is positive (type `Length`), since every instruction encodes at least its opcode byte; so a set jump attribute always tests true in the source's `if jump_op:`. The layout and patch passes write three fields: `codeIndex`, `codeOffset` and `offset`. Its back-reference list is a `seq` field.
  - Try statements, handlers, if statements and `elif`/`else` branches are classes with instruction-valued attributes.
  - A (holder, attribute) pair is the datatype `Ref`. `getattr` and `setattr` become `Ref.Target` and `SetAttr`.
  - The opcode kind tells apart `RETURN`, `ARETURN` and `ACONST_NULL`, the classes the core tests with `isinstance`. Every other opcode is `Other`, whose mnemonic is never one of those three.
- `Frames` (`frames.dfy`) holds a field-level snapshot of the attributes of a set of holders (`Holding`, `Snapshot`). It lets the tail of `transpile` state that the queued pairs' holders keep their other attributes through the patch pass.
- `Assembly` (`assembly.dfy`) holds the layout and patch passes as loops over the instruction list. It also holds the functions that state what the loops compute:
  - `Offset`/`OffsetOf` give byte offsets as sums of lengths;
  - `ExceptionTable` gives the table row by row;
  - `Written`/`PatchAims` give which jump is aimed at which instruction.
  The lemmas prove what these mean: table layout, landing points, and which offsets stay untouched.
- `Blocks` (`blocks.dfy`) holds the scope classes `CodeParts` and `Block`. `CodeParts` is a class whose methods update its own fields. `Block` holds the local variable slots, which its methods only read; its methods update the `CodeParts` they are given, the instructions, and the attributes of the try and if statements.

The patch pass reads the records' instruction attributes and writes only instruction fields. The model therefore reads each try or if statement into a value once, before layout (`Try`, `Shape`, via `Tries`/`Shapes`). `Assemble` then proves that the records still hold those values afterwards (`TriesRead`, `IfsRead`).

Integers are unbounded. Jump distances and offsets are plain integers, and the 16-bit limits of the class-file format are not modelled.

## Model

| member | source | states |
|---|---|---|
| Opcodes.Ref.Target | voc/python/blocks.py:29-31 | defines `getattr(obj, attr)` for a pair: the instruction its holder's named attribute currently holds |
| Frames.Holding | voc/python/blocks.py:29-31 | defines a snapshot of attributes: every pair of the map names an attribute of one of the given holders, and that attribute holds the instruction the map gives it |
| Frames.SnapshotHolding | voc/python/blocks.py:29-31 | the snapshot of the queued pairs' holders holds for them, and it covers every attribute of those holders with its current value |
| Blocks.Block.constructor | voc/python/blocks.py:51-54 | a new scope starts with no local variable slots |
| Blocks.CodeParts.constructor | voc/python/blocks.py:19-25 | a new `CodeParts` keeps its scope and starts with an empty instruction list, no try statements, no if statements and an empty queue |
| Opcodes.Holders | voc/python/blocks.py:29-31 | the set of holders is exactly the holders named by the pairs: every pair's holder is in it, and everything in it is some pair's holder |
| Opcodes.IsReturn | voc/python/blocks.py:163 | defines the return test of `isinstance(..., (RETURN, ARETURN))`: the kind is `RETURN` or `ARETURN` |
| Opcodes.SetAttr | voc/python/blocks.py:31 | `setattr(obj, attr, op)`: the named attribute now holds `op`, and every other attribute of the same holder is unchanged |
| Opcodes.NewReturn | voc/python/blocks.py:164 | a new void `RETURN`: one byte, stack effect 0, no back-references |
| Blocks.Redirect | voc/python/blocks.py:29-31 | after `setattr` on every queued pair, every pair's attribute holds `op`, and every other attribute of those holders keeps its value |
| Blocks.CodeParts.AddOpcodes | voc/python/blocks.py:27-33 | appends `ops`; every queued pair now targets `ops[0]` and is recorded, in order, on `ops[0]`'s back-references; the queue empties; no other attribute and no other back-reference list changes; with no instructions and a non-empty queue (`opcodes[0]` raises `IndexError`) it fails and nothing changes |
| Blocks.CodeParts.Tweak | voc/python/blocks.py:35-36 | the list becomes the scope hook's result on the old list |
| Blocks.CodeParts.StackDepth | voc/python/blocks.py:38-47 | the result is `MaxDepth`: at least 0, at least the depth after every prefix, and either 0 or reached by some non-empty prefix |
| Assembly.Depth | voc/python/blocks.py:40-45 | defines the depth after a straight-line run: the sum of the stack effects of the instructions |
| Assembly.MaxDepth | voc/python/blocks.py:38-47 | defines the running maximum of `Depth` over every prefix, starting from 0 |
| Assembly.MaxDepthIsMaxPrefix | voc/python/blocks.py:38-47 | `MaxDepth` is the maximum of 0 and the depth after every non-empty prefix |
| Assembly.AllPushesDepth | voc/python/blocks.py:38-47 | N instructions of stack effect +1 need depth N |
| Assembly.PushPopDepth | voc/python/blocks.py:38-47 | alternating +1/-1, N >= 1 times, needs depth 1 and ends at depth 0 |
| Blocks.Block.Tweak | voc/python/blocks.py:115-117 | the base scope's hook returns the list unchanged |
| Blocks.EmptyAsWritten | voc/python/blocks.py:120-123 | defines the two tests as written: a lone `RETURN`, or two instructions whose second is `ARETURN` |
| Blocks.EmptyBody | voc/python/blocks.py:119-124 | defines the corrected test: a lone `RETURN`, or exactly `ACONST_NULL; ARETURN` |
| Blocks.Block.IgnoreEmpty | voc/python/blocks.py:119-124 | the check as written: the scope is ignored if and only if the list is a lone `RETURN` or two instructions whose second is `ARETURN`; otherwise the list is emitted as it is |
| Blocks.Block.IgnoreEmptyIntended | voc/python/blocks.py:119-124 | the corrected check: ignored if and only if the list is a lone `RETURN` or exactly `ACONST_NULL; ARETURN`; otherwise emitted as it is |
| Blocks.Block.IgnoreEmptySkipsValueReturn | voc/python/blocks.py:122-123 | the check as written ignores `ICONST_1; ARETURN`, which the corrected check emits |
| Blocks.Block.IgnoreEmptyAgrees | voc/python/blocks.py:119-124 | the two checks agree on every list except two instructions ending in `ARETURN` whose first is not `ACONST_NULL` |
| Blocks.NullReturnTail | voc/python/blocks.py:133 | defines the tail `void_return` rewrites: at least two instructions, the second-to-last `ACONST_NULL` and the last `ARETURN` |
| Blocks.TailRefs | voc/python/blocks.py:139-142 | defines the pairs `void_return` redirects: the back-references of the second-to-last instruction, then those of the last |
| Blocks.Block.VoidReturn | voc/python/blocks.py:126-144 | for a trailing `ACONST_NULL; ARETURN` only, the two are replaced by one new `RETURN` and the rest of the list is kept; every pair recorded on either removed instruction now targets the new `RETURN`; the other attributes of those holders are unchanged; the new `RETURN` is one byte long with stack effect 0; any other list is returned unchanged |
| Blocks.Queued | voc/python/blocks.py:163-164 | defines the pairs the implicit `RETURN` receives through `add_opcodes`: the queue when the list does not end in `RETURN`/`ARETURN`, and none otherwise |
| Blocks.TryReadyIn | voc/python/blocks.py:29-33 | a try statement whose attributes each held an instruction of the list or were queued names only instructions of the grown list once the queue has been handed to an appended instruction |
| Blocks.IfReadyIn | voc/python/blocks.py:29-33 | the same for an if statement, whose optional jumps may also stay unset |
| Blocks.AllReadyIn | voc/python/blocks.py:29-33 | the same for every try and if statement of the scope |
| Blocks.Block.ImplicitReturn | voc/python/blocks.py:161-164 | a list already ending in `RETURN`/`ARETURN` is unchanged, so the step is idempotent; otherwise one new `RETURN`, one byte long with stack effect 0, is appended, every queued pair now targets it and it records the queue as its back-references; afterwards the list ends in a return, the existing instructions keep their offsets, every attribute not queued keeps its value, and every attribute the patch pass reads names an instruction of the list; it also returns a snapshot of every attribute of the queued pairs' holders, which those attributes hold (`Holding`) |
| Blocks.Block.Finish | voc/python/blocks.py:166-217 | after the tweak hook and both passes, the code object holds the laid-out list, the exception table of the try statements as read from the records, and `MaxDepth` and the number of local slots; every jump is aimed as `PatchAims` says and every other offset is unchanged; every attribute of the given holders keeps the value the snapshot gives it |
| Blocks.Block.Transpile | voc/python/blocks.py:161-217 | the whole tail of `transpile`: the scope's try and if statement lists are unchanged; the code ends in a return and is the input list, plus one new `RETURN`, one byte long with stack effect 0, when the input did not end in one, in which case every queued pair targets that `RETURN` at the end, it records them as its back-references, and the queue is empty; when the input already ended in a return the queue is left as it was; every other attribute of the queued pairs' holders holds at the end what it held on entry; it is laid out; the exception table is `ExceptionTable` of the try statements as the records hold them at the end; the jumps are aimed by `PatchAims` and every other instruction of the input holds the offset it had on entry; `max_stack` is `MaxDepth` and `max_locals` the number of local slots |
| Assembly.Offset | voc/python/blocks.py:172-176 | defines the byte offset of instruction `n`: the total length of the instructions before it |
| Assembly.OffsetOf | voc/python/blocks.py:187-210 | defines the byte offset that an instruction's `code_offset` holds after layout: `Offset` of its first position in the list |
| Assembly.LaidOut | voc/python/blocks.py:172-176 | defines the state the layout pass leaves: every instruction's `codeIndex` is its index and its `codeOffset` is `Offset` of that index |
| Assembly.Layout | voc/python/blocks.py:172-176 | every instruction gets its index in the list and the total length of the instructions before it |
| Assembly.OffsetsIncrease | voc/python/blocks.py:172-176 | lengths are positive, so the byte offsets strictly increase along the list |
| Assembly.CodeOffsetOf | voc/python/blocks.py:172-176 | after layout, the `codeOffset` of any instruction of the list is its byte offset |
| Assembly.TryOf | voc/python/blocks.py:185-193 | the value holds exactly the try statement's start, end, skip jump, and the handlers' starts and descriptors, in order |
| Assembly.Tries | voc/python/blocks.py:182 | one such value per try statement, in order |
| Assembly.ShapeOf | voc/python/blocks.py:200-210 | the value holds exactly the if statement's first branch, optional jump and join point, and the `elif`/`else` branches, in order |
| Assembly.Shapes | voc/python/blocks.py:196 | one such value per if statement, in order |
| Assembly.TriesReadIn | voc/python/blocks.py:187-193 | try statements whose attributes name instructions of the list are set, and what the pass reads from them names instructions of the list |
| Assembly.IfsReadIn | voc/python/blocks.py:201-210 | the same for if statements |
| Assembly.Entry | voc/python/blocks.py:185-190 | defines one row: the guarded range from the statement start's offset up to its skip jump's offset, the handler start's offset and the caught type |
| Assembly.ExceptionTable | voc/python/blocks.py:181-191 | defines the table: the rows of each try statement, one group per statement in order, concatenated |
| Assembly.HandlerEntries | voc/python/blocks.py:185-191 | one row per handler, in handler order: guarded range from the statement start to its skip jump, handler start, caught type |
| Assembly.TableGroups | voc/python/blocks.py:182-191 | the rows of each try statement, one group per statement, in order |
| Assembly.ExceptionTableAt | voc/python/blocks.py:181-191 | the table has one row per handler; row `k` of statement `i` follows the rows of all earlier statements and describes handler `k` of statement `i` |
| Assembly.EntryRangeNonEmpty | voc/python/blocks.py:187-188 | a statement whose start comes before its skip jump has a non-empty guarded range |
| Assembly.Distance | voc/python/blocks.py:193-210 | defines the jump distance `end.code_offset - op.code_offset`: the target's byte offset minus the jump's own |
| Assembly.Written | voc/python/blocks.py:193-210 | defines the state the patch pass reaches: an aimed instruction's `offset` is its target's `codeOffset` minus its own, every other instruction's `offset` is its old one |
| Assembly.JumpAims | voc/python/blocks.py:182-193 | defines the aims after the skip jumps of the first `n` try statements, each aimed at its statement's end, a later write of the same jump overriding an earlier one |
| Assembly.WrittenDistance | voc/python/blocks.py:193 | after the patch pass an aimed instruction's `codeOffset + offset` is its target's `codeOffset`, that is, the target offset minus its own |
| Assembly.Aim | voc/python/blocks.py:193 | one `offset` write: the instruction is aimed at the target, and all other offsets are unchanged |
| Assembly.JumpAimsLast | voc/python/blocks.py:182-193 | a skip jump that no later try statement shares is aimed at the end of its own statement |
| Assembly.JumpAimsOutside | voc/python/blocks.py:182-193 | an instruction that is no skip jump keeps its aim |
| Assembly.TryRows | voc/python/blocks.py:185-191 | the rows read off the `codeOffset` fields are `HandlerEntries` of the statement |
| Assembly.PatchTry | voc/python/blocks.py:185-193 | one statement: its rows, then its skip jump aimed at its end |
| Assembly.BuildExceptionTable | voc/python/blocks.py:181-193 | the table built is `ExceptionTable`, and the skip jumps are aimed in statement order |
| Assembly.BranchAims | voc/python/blocks.py:201-203 | defines one branch's aims: its conditional jump is aimed at the join point, and its unconditional jump too when it is set (the source's `if jump_op:` test) |
| Assembly.ElifAims | voc/python/blocks.py:206-210 | defines the aims after the first `n` `elif`/`else` branches, in order |
| Assembly.BlockAims | voc/python/blocks.py:200-210 | defines the aims after one if statement: its first branch, then its `elif`/`else` branches |
| Assembly.IfAims | voc/python/blocks.py:196-210 | defines the aims after the first `n` if statements, in order |
| Assembly.PatchAims | voc/python/blocks.py:182-210 | defines where the whole patch pass aims every jump: the try statements' skip jumps first, then the if statements' jumps, a later write overriding an earlier one |
| Assembly.ElifAimsAim | voc/python/blocks.py:206-210 | after the `elif`/`else` branches, exactly their jumps are aimed at the join point and every other aim is kept |
| Assembly.BlockAimsAim | voc/python/blocks.py:200-210 | after one if statement, exactly its jumps, first branch and others, are aimed at its join point and every other aim is kept |
| Assembly.IfAimsLast | voc/python/blocks.py:196-210 | a jump of if statement `i` that no later statement shares is aimed at statement `i`'s join point |
| Assembly.IfAimsOutside | voc/python/blocks.py:196-210 | an instruction that is no jump of any if statement keeps its aim |
| Assembly.AimBranch | voc/python/blocks.py:201-203 | a branch's conditional jump, and its unconditional jump only when set, are aimed at the join point |
| Assembly.PatchIfBlock | voc/python/blocks.py:200-210 | the offsets reached are `BlockAims` of the statement |
| Assembly.PatchIfBlocks | voc/python/blocks.py:196-210 | the offsets reached are `IfAims` over all statements in order |
| Assembly.Passes | voc/python/blocks.py:172-210 | layout, then the exception table, then the if jumps: the list is laid out, the table is `ExceptionTable`, the offsets are `PatchAims`, and `before` holds the old offsets |
| Assembly.Assembled | voc/python/blocks.py:172-210 | defines what the passes leave: the list is laid out, the try and if statements as their records hold them name instructions of the list, the table is their `ExceptionTable`, and the offsets are as `Written` says for `PatchAims` |
| Assembly.Assemble | voc/python/blocks.py:172-210 | the same over the records; the records still hold what the passes read from them, and every attribute of the given holders keeps the value the snapshot gives it (`Holding`) |
| Assembly.TryJumpLands | voc/python/blocks.py:193 | after the passes, a skip jump that no later try statement and no if statement rewrites lands on the end of its statement |
| Assembly.IfBranchLands | voc/python/blocks.py:201-210 | after the passes, a jump of if statement `i` that no later if statement rewrites lands on statement `i`'s join point |
| Assembly.UnpatchedKeeps | voc/python/blocks.py:193-210 | after the passes, an instruction that is no skip jump and no if jump keeps the offset it had before |

## Left out

- The command conversion loop (`voc/python/blocks.py:156-159`) is not part of this model. Each command's `convert` and each instruction's `process` live in other modules. `Transpile` starts from the `CodeParts` that loop leaves behind.
- `Blocks.Block.Transpile` has three requirements the source leaves to its callers:
  - The list is non-empty. With an empty list, `parts.code[-1]` raises `IndexError`.
  - Every attribute the patch pass reads holds an instruction of the list, or is queued while the list does not end in a return (then the appended `RETURN` receives it). Otherwise the source fails with an `AttributeError` on `None`, or it computes offsets from instructions outside the list. Neither failure is modelled.
  - No instruction object occurs twice. Otherwise the layout pass overwrites an instruction's index and offset.
- `Blocks.Block.Transpile` states attribute by attribute only that the queued pairs' holders keep their other attributes. Every other record is left unchanged through its `modifies` clause, which names only the scope's parts, the queued pairs' holders and the three laid-out fields of the instructions.
- `Assembly.Layout`, `Assembly.Passes` and `Assembly.Assemble` also require that no instruction object occurs twice, for the same reason.
- `Assembly.TryJumpLands` and `Assembly.IfBranchLands` state the landing point only for a jump that no later record rewrites. With a shared jump, the last write wins. That case is stated by `PatchAims`, not as a landing point.
- `Assembly.Assemble` reads each record's attributes once, before the layout pass. The source reads them as it goes. The two agree because the passes write only instruction fields, and `Assemble` proves that the records still hold the values read.
- `Blocks.Block.Tweak` models only the base scope's hook, which is the identity. The overrides in module, class and method scopes are not part of this model.
- `Blocks.Block.IgnoreEmpty` reports the signal as a value (`IgnoreBlock`) rather than raising an exception.
- `Blocks.CodeParts.AddOpcodes` models the `IndexError` raised with no instructions and a non-empty queue as `ok == false`, with nothing changed.
- `Block.extract`, `Block.store_name` and `Block.load_name` are not part of this model. They disassemble Python bytecode, print, or build instruction lists for the conversion.
- `Block.is_module` (`voc/python/blocks.py:87-89`) is not part of this model. It is a property that returns `False`, and the modelled code never reads it.
- `Blocks.Block.constructor` keeps only `localvars`. The scope's `parent` and `commands` are not modelled: the modelled code never reads `parent`, and `commands` is filled by `extract` and read only by the conversion loop, neither of which is part of this model.
- The encoding of the code object and of the exception table rows into class-file bytes is not part of this model. Instruction byte lengths and stack effects are constants of each instruction.

## Findings

| source | as written | input that shows it | evidently intended | confidence | as-written member | corrected member |
|---|---|---|---|---|---|---|
| voc/python/blocks.py:122-123 | the second case ignores any two-instruction body whose second instruction is `ARETURN` | `ICONST_1; ARETURN`, the body of `return 1`, is reported ignorable | ignore only a lone `RETURN` or exactly `ACONST_NULL; ARETURN`, a body with no effect beyond returning | not executed | Blocks.Block.IgnoreEmpty, Blocks.Block.IgnoreEmptySkipsValueReturn | Blocks.Block.IgnoreEmptyIntended |
