/** The scope object of the back end (`Block`) and its instruction
    accumulator (`CodeParts`): appending instructions while resolving forward
    references, the maximum stack depth, the two structural rewrites of a
    finished instruction list, and the end of `Block.transpile`, which puts
    the layout and patch passes of `Assembly` together. */
module Blocks {
  import opened Opcodes
  import opened Frames
  import opened Assembly

  /** What the empty-body check decides: the scope is skipped
      (`raise IgnoreBlock()`), or its instructions are emitted. */
  datatype Outcome<T> = IgnoreBlock | Emit(value: T)

  /** The code object `transpile` returns. */
  datatype JavaCode = JavaCode(maxStack: int, maxLocals: nat, code: seq<Instr>, exceptions: seq<ExceptionInfo>)

  /* ------------------------------------------------------------------ */
  /* Forward references                                                   */
  /* ------------------------------------------------------------------ */

  /** `setattr(obj, attr, op)` for every pair of `refs`, in order. */
  method Redirect(refs: seq<Ref>, op: Instr)
    modifies Holders(refs)
    ensures forall r :: r in refs ==> r.Target() == op
    ensures forall s: Ref :: s.Holder() in Holders(refs) && s !in refs ==> s.Target() == old(s.Target())
  {
    var k := 0;
    while k < |refs|
      invariant 0 <= k <= |refs|
      invariant forall j :: 0 <= j < k ==> refs[j].Target() == op
      invariant forall s: Ref :: s.Holder() in Holders(refs) && s !in refs[..k] ==> s.Target() == old(s.Target())
    {
      SetAttr(refs[k], op);
      k := k + 1;
    }
  }

  /** `r` names an attribute that holds an instruction of `code`, or that is
      queued in `pending` for the next instruction to be appended. */
  predicate Settled(r: Ref, code: seq<Instr>, pending: seq<Ref>)
    reads r.Holder()
  {
    In(r.Target(), code) || r in pending
  }

  /** As `Settled`, for an optional attribute, which may also stay unset. */
  predicate MaybeSettled(r: Ref, code: seq<Instr>, pending: seq<Ref>)
    reads r.Holder()
  {
    InOrNull(r.Target(), code) || r in pending
  }

  /** Every attribute of `t` that the patch pass reads is settled. */
  predicate TryReady(t: TryCatch, code: seq<Instr>, pending: seq<Ref>)
    reads t, t.handlers
  {
    Settled(TryStart(t), code, pending) && Settled(TryEnd(t), code, pending) && Settled(TryJump(t), code, pending)
    && forall k :: 0 <= k < |t.handlers| ==> Settled(HandlerStart(t.handlers[k]), code, pending)
  }

  /** Every attribute of `b` that the patch pass reads is settled. */
  predicate IfReady(b: IfBlock, code: seq<Instr>, pending: seq<Ref>)
    reads b, b.elifs
  {
    Settled(IfOp(b), code, pending) && MaybeSettled(IfJump(b), code, pending) && Settled(IfEnd(b), code, pending)
    && forall k :: 0 <= k < |b.elifs| ==> Settled(ElifOp(b.elifs[k]), code, pending) && MaybeSettled(ElifJump(b.elifs[k]), code, pending)
  }

  /** A try statement that was ready before the queue was handed to `op`
      names instructions of the grown list afterwards. */
  twostate lemma TryReadyIn(t: TryCatch, new code: seq<Instr>, new code': seq<Instr>, new pending: seq<Ref>, new op: Instr)
    requires old(allocated(code)) && old(allocated(pending)) && old(TryReady(t, code, pending))
    requires forall s: Ref :: old(allocated(s)) && s !in pending ==> s.Target() == old(s.Target())
    requires forall s :: s in pending ==> s.Target() == op
    requires forall x :: x in code ==> x in code'
    requires pending != [] ==> op in code'
    ensures TryCatchIn(t, code')
  {
    assert old(TryReady(t, code, pending));
    forall k | 0 <= k < |t.handlers|
      ensures In(t.handlers[k].startOp, code')
    {
      var r := HandlerStart(t.handlers[k]);
      assert old(Settled(r, code, pending));
    }
  }

  /** The same for an if statement. */
  twostate lemma IfReadyIn(b: IfBlock, new code: seq<Instr>, new code': seq<Instr>, new pending: seq<Ref>, new op: Instr)
    requires old(allocated(code)) && old(allocated(pending)) && old(IfReady(b, code, pending))
    requires forall s: Ref :: old(allocated(s)) && s !in pending ==> s.Target() == old(s.Target())
    requires forall s :: s in pending ==> s.Target() == op
    requires forall x :: x in code ==> x in code'
    requires pending != [] ==> op in code'
    ensures IfBlockIn(b, code')
  {
    assert old(IfReady(b, code, pending));
    forall k | 0 <= k < |b.elifs|
      ensures In(b.elifs[k].ifOp, code') && InOrNull(b.elifs[k].jumpOp, code')
    {
      var e := b.elifs[k];
      assert old(Settled(ElifOp(e), code, pending)) && old(MaybeSettled(ElifJump(e), code, pending));
    }
  }

  /** Every try and if statement that was ready before the queue was handed
      to `op` names instructions of the grown list afterwards. */
  twostate lemma AllReadyIn(new tcs: seq<TryCatch>, new ifs: seq<IfBlock>, new code: seq<Instr>, new code': seq<Instr>, new pending: seq<Ref>, new op: Instr)
    requires old(allocated(tcs)) && old(allocated(ifs)) && old(allocated(code)) && old(allocated(pending))
    requires old(forall i :: 0 <= i < |tcs| ==> TryReady(tcs[i], code, pending))
    requires old(forall i :: 0 <= i < |ifs| ==> IfReady(ifs[i], code, pending))
    requires forall s: Ref :: old(allocated(s)) && s !in pending ==> s.Target() == old(s.Target())
    requires forall s :: s in pending ==> s.Target() == op
    requires forall x :: x in code ==> x in code'
    requires pending != [] ==> op in code'
    ensures TryCatchesIn(tcs, code') && IfBlocksIn(ifs, code')
  {
    forall i | 0 <= i < |tcs|
      ensures TryCatchIn(tcs[i], code')
    {
      TryReadyIn(tcs[i], code, code', pending, op);
    }
    forall i | 0 <= i < |ifs|
      ensures IfBlockIn(ifs[i], code')
    {
      IfReadyIn(ifs[i], code, code', pending, op);
    }
  }

  /* ------------------------------------------------------------------ */
  /* Scopes                                                               */
  /* ------------------------------------------------------------------ */

  class Block {
    /** The local variable slots of the scope, by name. */
    var localvars: map<string, nat>

    constructor ()
      ensures localvars == map[]
    {
      localvars := map[];
    }

    /** The scope-specific adjustment hook. The base scope returns the list
        as it is; module and method bodies override it. */
    function Tweak(code: seq<Instr>): (r: seq<Instr>)
      ensures r == code
    {
      code
    }

    /** The empty-body check as written: a lone void `RETURN`, or any two
        instructions whose second is `ARETURN`. */
    function IgnoreEmpty(code: seq<Instr>): (r: Outcome<seq<Instr>>)
      ensures r == IgnoreBlock <==> EmptyAsWritten(code)
      ensures r != IgnoreBlock ==> r == Emit(code)
    {
      if |code| == 1 && code[0].kind == Return then IgnoreBlock
      else if |code| == 2 && code[1].kind == AReturn then IgnoreBlock
      else Emit(code)
    }

    /** The empty-body check as intended: a lone void `RETURN`, or exactly
        `ACONST_NULL; ARETURN`. */
    function IgnoreEmptyIntended(code: seq<Instr>): (r: Outcome<seq<Instr>>)
      ensures r == IgnoreBlock <==> EmptyBody(code)
      ensures r != IgnoreBlock ==> r == Emit(code)
    {
      if |code| == 1 && code[0].kind == Return then IgnoreBlock
      else if |code| == 2 && code[0].kind == AConstNull && code[1].kind == AReturn then IgnoreBlock
      else Emit(code)
    }

    /** The check as written skips a body that returns a value, such as
        `ICONST_1; ARETURN` (`return 1`), which the intended check emits. */
    lemma IgnoreEmptySkipsValueReturn(push: Instr, ret: Instr)
      requires push.kind == Other("ICONST_1") && ret.kind == AReturn
      ensures IgnoreEmpty([push, ret]) == IgnoreBlock
      ensures IgnoreEmptyIntended([push, ret]) == Emit([push, ret])
    {
    }

    /** The two checks differ on nothing else: they agree unless the list is
        two instructions ending in `ARETURN` whose first is not `ACONST_NULL`. */
    lemma IgnoreEmptyAgrees(code: seq<Instr>)
      requires !(|code| == 2 && code[1].kind == AReturn && code[0].kind != AConstNull)
      ensures IgnoreEmpty(code) == IgnoreEmptyIntended(code)
    {
    }

    /** Tail normalisation: a trailing `ACONST_NULL; ARETURN` becomes one new
        void `RETURN`, and every (holder, field) pair recorded on either
        removed instruction is pointed at it first. The new `RETURN` records
        no back-references of its own. */
    method VoidReturn(code: seq<Instr>) returns (r: seq<Instr>)
      modifies if NullReturnTail(code) then Holders(TailRefs(code)) else {}
      ensures !NullReturnTail(code) ==> r == code
      ensures NullReturnTail(code) ==> |r| == |code| - 1 && r[..|code| - 2] == code[..|code| - 2]
      ensures NullReturnTail(code) ==> fresh(Last(r)) && Last(r).kind == Return && Last(r).references == []
      ensures NullReturnTail(code) ==> Last(r).size == 1 && Last(r).stackEffect == 0
      ensures NullReturnTail(code) ==> forall x :: x in TailRefs(code) ==> x.Target() == Last(r)
      ensures NullReturnTail(code) ==> forall s: Ref :: s.Holder() in Holders(TailRefs(code)) && s !in TailRefs(code) ==> s.Target() == old(s.Target())
    {
      if NullReturnTail(code) {
        var ret := NewReturn();
        var first, second := code[|code| - 2].references, code[|code| - 1].references;
        Redirect(first, ret);
        Redirect(second, ret);
        r := code[..|code| - 2] + [ret];
      } else {
        r := code;
      }
    }

    /** Lines 161 to 164 of `transpile`: a list that does not end in a return
        gets a void `RETURN` appended through `add_opcodes`, which hands it
        every queued forward reference. Afterwards every attribute the patch
        pass reads names an instruction of the list. */
    method ImplicitReturn(parts: CodeParts)
      returns (ghost m: map<Ref, Instr?>, ghost ts: set<TryCatch>, ghost hs: set<Handler>, ghost bs: set<IfBlock>, ghost es: set<ElseIf>)
      requires parts.code != [] && Distinct(parts.code)
      requires forall i :: 0 <= i < |parts.tryCatches| ==> TryReady(parts.tryCatches[i], parts.code, Queued(parts))
      requires forall i :: 0 <= i < |parts.ifBlocks| ==> IfReady(parts.ifBlocks[i], parts.code, Queued(parts))
      modifies parts, Holders(parts.nextResolveList)
      ensures IsReturn(old(Last(parts.code)).kind) ==> parts.code == old(parts.code) && parts.nextResolveList == old(parts.nextResolveList)
      ensures !IsReturn(old(Last(parts.code)).kind) ==>
        |parts.code| == |old(parts.code)| + 1 && parts.code[..|old(parts.code)|] == old(parts.code)
        && fresh(Last(parts.code)) && Last(parts.code).kind == Return && parts.nextResolveList == []
        && Last(parts.code).size == 1 && Last(parts.code).stackEffect == 0
      ensures !IsReturn(old(Last(parts.code)).kind) ==> forall r :: r in old(parts.nextResolveList) ==> r.Target() == Last(parts.code)
      ensures !IsReturn(old(Last(parts.code)).kind) ==> Last(parts.code).references == old(parts.nextResolveList)
      ensures forall s: Ref :: old(allocated(s)) && s !in old(Queued(parts)) ==> s.Target() == old(s.Target())
      ensures parts.code != [] && IsReturn(Last(parts.code).kind) && Distinct(parts.code)
      ensures parts.tryCatches == old(parts.tryCatches) && parts.ifBlocks == old(parts.ifBlocks)
      ensures forall j :: 0 <= j < |old(parts.code)| ==> parts.code[j].offset == old(parts.code[j].offset)
      ensures TryCatchesIn(parts.tryCatches, parts.code) && IfBlocksIn(parts.ifBlocks, parts.code)
      ensures Holding(m, ts, hs, bs, es)
      ensures !IsReturn(old(Last(parts.code)).kind) ==> forall r :: r in old(parts.nextResolveList) ==> r in m && m[r] == Last(parts.code)
      ensures forall s: Ref :: old(allocated(s)) && s.Holder() in old(Holders(parts.nextResolveList)) && s !in old(Queued(parts)) ==>
        s in m && m[s] == old(s.Target())
    {
      ghost var rs := parts.nextResolveList;
      ghost var pending := Queued(parts);
      ghost var code0 := parts.code;
      var ret: Instr := Last(parts.code);
      if !IsReturn(Last(parts.code).kind) {
        ret := NewReturn();
        var resolved := parts.AddOpcodes([ret]);
      }
      assert forall x :: x in code0 ==> x in parts.code;
      AllReadyIn(parts.tryCatches, parts.ifBlocks, code0, parts.code, pending, ret);
      m, ts, hs, bs, es := Snapshot(rs), TryHolders(rs), HandlerHolders(rs), IfHolders(rs), ElifHolders(rs);
      SnapshotHolding(rs);
    }

    /** Lines 166 to 217 of `transpile`: the tweak hook, the try and if
        statements read as the patch pass reads them, the layout and patch
        passes, and the code object with the stack depth and the number of
        local slots. `before` holds the jump offsets as they were before the
        patch pass. Every attribute of the holders `ts`, `hs`, `bs` and `es`
        keeps the value `m` gives it. */
    method Finish(parts: CodeParts, ghost m: map<Ref, Instr?>, ghost ts: set<TryCatch>, ghost hs: set<Handler>, ghost bs: set<IfBlock>, ghost es: set<ElseIf>) returns (result: JavaCode, ghost tries: seq<Try>, ghost shapes: seq<Shape>, ghost before: seq<int>)
      requires parts.context == this
      requires Distinct(parts.code)
      requires TryCatchesIn(parts.tryCatches, parts.code) && IfBlocksIn(parts.ifBlocks, parts.code)
      requires Holding(m, ts, hs, bs, es)
      modifies parts`code, parts.code`codeIndex, parts.code`codeOffset, parts.code`offset
      ensures result.code == parts.code == Tweak(old(parts.code))
      ensures Assembled(result.code, parts.tryCatches, parts.ifBlocks, result.exceptions, tries, shapes, before)
      ensures |before| == |parts.code| && forall j :: 0 <= j < |parts.code| ==> before[j] == old(parts.code[j].offset)
      ensures result.maxStack == MaxDepth(result.code) && result.maxLocals == |localvars|
      ensures Holding(m, ts, hs, bs, es)
    {
      parts.Tweak();
      var maxStack := parts.StackDepth();
      var exceptions;
      exceptions, tries, shapes, before := Assemble(parts.code, parts.tryCatches, parts.ifBlocks, m, ts, hs, bs, es);
      result := JavaCode(maxStack, |localvars|, parts.code, exceptions);
    }

    /** The end of `transpile`, once the commands are converted into `parts`:
        the implicit return, then the tweak hook, the layout and patch passes
        and the code object. `tries` and `shapes` are the try and if
        statements as the patch pass reads them; `before` holds the jump
        offsets as they were before the patch pass. */
    method Transpile(parts: CodeParts) returns (result: JavaCode, ghost tries: seq<Try>, ghost shapes: seq<Shape>, ghost before: seq<int>)
      requires parts.context == this
      requires parts.code != [] && Distinct(parts.code)
      requires forall i :: 0 <= i < |parts.tryCatches| ==> TryReady(parts.tryCatches[i], parts.code, Queued(parts))
      requires forall i :: 0 <= i < |parts.ifBlocks| ==> IfReady(parts.ifBlocks[i], parts.code, Queued(parts))
      modifies parts, Holders(parts.nextResolveList), parts.code`codeIndex, parts.code`codeOffset, parts.code`offset
      ensures parts.tryCatches == old(parts.tryCatches) && parts.ifBlocks == old(parts.ifBlocks)
      ensures result.code == parts.code && result.code != [] && IsReturn(Last(result.code).kind)
      ensures IsReturn(old(Last(parts.code)).kind) ==> result.code == old(parts.code)
      ensures !IsReturn(old(Last(parts.code)).kind) ==>
        |result.code| == |old(parts.code)| + 1 && result.code[..|old(parts.code)|] == old(parts.code)
        && fresh(Last(result.code)) && Last(result.code).kind == Return
        && Last(result.code).size == 1 && Last(result.code).stackEffect == 0
      ensures !IsReturn(old(Last(parts.code)).kind) ==> Last(result.code).references == old(parts.nextResolveList)
      ensures !IsReturn(old(Last(parts.code)).kind) ==> forall r :: r in old(parts.nextResolveList) ==> r.Target() == Last(result.code)
      ensures parts.nextResolveList == if IsReturn(old(Last(parts.code)).kind) then old(parts.nextResolveList) else []
      ensures forall s: Ref :: old(allocated(s)) && s.Holder() in old(Holders(parts.nextResolveList)) && s !in old(Queued(parts)) ==>
        s.Target() == old(s.Target())
      ensures Assembled(result.code, parts.tryCatches, parts.ifBlocks, result.exceptions, tries, shapes, before)
      ensures forall j :: 0 <= j < |old(parts.code)| ==> before[j] == old(parts.code[j].offset)
      ensures result.maxStack == MaxDepth(result.code) && result.maxLocals == |localvars|
    {
      ghost var m, ts, hs, bs, es := ImplicitReturn(parts);
      result, tries, shapes, before := Finish(parts, m, ts, hs, bs, es);
      HoldingTargets(m, ts, hs, bs, es);
    }
  }

  /** The two-instruction tail that `void_return` rewrites. */
  predicate NullReturnTail(code: seq<Instr>) {
    |code| >= 2 && code[|code| - 2].kind == AConstNull && code[|code| - 1].kind == AReturn
  }

  /** The back-references of the two instructions `void_return` removes. */
  function TailRefs(code: seq<Instr>): seq<Ref>
    requires |code| >= 2
    reads code[|code| - 2], code[|code| - 1]
  {
    code[|code| - 2].references + code[|code| - 1].references
  }

  /** The check as written: a lone `RETURN`, or two instructions ending in `ARETURN`. */
  predicate EmptyAsWritten(code: seq<Instr>) {
    (|code| == 1 && code[0].kind == Return) || (|code| == 2 && code[1].kind == AReturn)
  }

  /** A body with no effect beyond returning: a lone void `RETURN`, or
      `ACONST_NULL; ARETURN`. */
  predicate EmptyBody(code: seq<Instr>) {
    (|code| == 1 && code[0].kind == Return) || (|code| == 2 && code[0].kind == AConstNull && code[1].kind == AReturn)
  }

  /** The forward references that the implicit `RETURN` of `transpile` will
      receive: the queue, when the list does not already end in a return. */
  function Queued(parts: CodeParts): seq<Ref>
    requires parts.code != []
    reads parts
  {
    if IsReturn(Last(parts.code).kind) then [] else parts.nextResolveList
  }

  /* ------------------------------------------------------------------ */
  /* The instruction accumulator                                          */
  /* ------------------------------------------------------------------ */

  class CodeParts {
    /** The scope the instructions belong to. */
    const context: Block
    var code: seq<Instr>
    var tryCatches: seq<TryCatch>
    var ifBlocks: seq<IfBlock>
    /** The (holder, field) pairs waiting for the next instruction appended. */
    var nextResolveList: seq<Ref>

    constructor (context: Block)
      ensures this.context == context
      ensures code == [] && tryCatches == [] && ifBlocks == [] && nextResolveList == []
    {
      this.context := context;
      code, tryCatches, ifBlocks, nextResolveList := [], [], [], [];
    }

    /** `add_opcodes(*ops)`: append `ops`, then point every queued pair at
        the first of them, record the pair on it, and empty the queue. With
        no instructions and a non-empty queue, `opcodes[0]` raises
        `IndexError` before anything changes; `ok` is then false. */
    method AddOpcodes(ops: seq<Instr>) returns (ok: bool)
      modifies this, Holders(nextResolveList), ops`references
      ensures ok <==> ops != [] || old(nextResolveList) == []
      ensures !ok ==> code == old(code) && nextResolveList == old(nextResolveList)
      ensures !ok ==> forall r :: r in old(nextResolveList) ==> r.Target() == old(r.Target())
      ensures ok ==> code == old(code) + ops && nextResolveList == []
      ensures ok && ops != [] ==> forall r :: r in old(nextResolveList) ==> r.Target() == ops[0]
      ensures ok && ops != [] ==> ops[0].references == old(ops[0].references) + old(nextResolveList)
      ensures forall o :: o in ops && (ops == [] || o != ops[0]) ==> o.references == old(o.references)
      ensures forall s: Ref :: old(allocated(s)) && s !in old(nextResolveList) ==> s.Target() == old(s.Target())
      ensures tryCatches == old(tryCatches) && ifBlocks == old(ifBlocks)
    {
      if ops == [] && nextResolveList != [] {
        return false;
      }
      code := code + ops;
      if ops != [] {
        var pending := nextResolveList;
        Redirect(pending, ops[0]);
        ops[0].references := ops[0].references + pending;
      }
      nextResolveList := [];
      ok := true;
    }

    /** `self.code = self.context.tweak(self.code)` */
    method Tweak()
      modifies this`code
      ensures code == context.Tweak(old(code))
    {
      code := context.Tweak(code);
    }

    /** `stack_depth`: the running sum of the stack effects and its running
        maximum, which starts at 0. */
    method StackDepth() returns (maxDepth: int)
      ensures maxDepth == MaxDepth(code)
      ensures maxDepth >= 0 && forall k :: 0 <= k <= |code| ==> Depth(code[..k]) <= maxDepth
      ensures maxDepth == 0 || exists k :: 0 < k <= |code| && Depth(code[..k]) == maxDepth
    {
      var depth := 0;
      maxDepth := 0;
      var i := 0;
      while i < |code|
        invariant 0 <= i <= |code|
        invariant depth == Depth(code[..i]) && maxDepth == MaxDepth(code[..i])
      {
        assert code[..i + 1][..i] == code[..i];
        depth := depth + code[i].stackEffect;
        if depth > maxDepth {
          maxDepth := depth;
        }
        i := i + 1;
      }
      assert code[..i] == code;
      MaxDepthIsMaxPrefix(code);
    }
  }
}
