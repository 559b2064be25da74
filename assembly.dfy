/** What the layout and patch passes at the end of `Block.transpile` compute,
    stated over the final instruction list, and the loops that compute it.

    Byte offsets are stated through the list itself: the offset of an
    instruction is the total length of the instructions before it
    (`OffsetOf`). The layout pass stores that value in every instruction's
    `codeOffset` field (`LaidOut`); the patch passes read those fields. */
module Assembly {
  import opened Opcodes
  import opened Frames

  /* ------------------------------------------------------------------ */
  /* Instruction lists                                                    */
  /* ------------------------------------------------------------------ */

  /** No instruction object occurs twice in the list. */
  predicate Distinct(code: seq<Instr>) {
    forall i, j :: 0 <= i < j < |code| ==> code[i] != code[j]
  }

  /** Total byte length of the first `n` instructions of `code`: the byte
      offset at which instruction `n` starts. */
  function Offset(code: seq<Instr>, n: nat): nat
    requires n <= |code|
  {
    if n == 0 then 0 else Offset(code, n - 1) + code[n - 1].size
  }

  /** Operand-stack depth after running `s` in a straight line from an empty stack. */
  function Depth(s: seq<Instr>): int {
    if s == [] then 0 else Depth(s[..|s| - 1]) + s[|s| - 1].stackEffect
  }

  /** The largest depth seen at any prefix of `s`, the empty prefix included. */
  function MaxDepth(s: seq<Instr>): int {
    if s == [] then 0
    else var m := MaxDepth(s[..|s| - 1]); if Depth(s) > m then Depth(s) else m
  }

  function Last(code: seq<Instr>): Instr
    requires code != []
  {
    code[|code| - 1]
  }

  /** Position of the first occurrence of `op`. */
  function IndexOf(code: seq<Instr>, op: Instr): (i: nat)
    requires op in code
    ensures i < |code| && code[i] == op
    ensures forall j :: 0 <= j < i ==> code[j] != op
  {
    if code[0] == op then 0 else 1 + IndexOf(code[1..], op)
  }

  /** Byte offset of `op` in the laid-out list. */
  function OffsetOf(code: seq<Instr>, op: Instr): nat
    requires op in code
  {
    Offset(code, IndexOf(code, op))
  }

  /** The state the layout pass leaves: instruction i knows its position and
      its byte offset. */
  predicate LaidOut(code: seq<Instr>)
    reads code`codeIndex, code`codeOffset
  {
    && (forall i {:trigger code[i].codeIndex} :: 0 <= i < |code| ==> code[i].codeIndex == i)
    && (forall i {:trigger code[i].codeOffset} :: 0 <= i < |code| ==> code[i].codeOffset == Offset(code, i))
  }

  /** `MaxDepth` is max(0, max prefix depth): at least zero, at least every
      prefix depth, and either zero or equal to one of them. */
  lemma {:induction false} MaxDepthIsMaxPrefix(s: seq<Instr>)
    ensures MaxDepth(s) >= 0
    ensures forall k :: 0 <= k <= |s| ==> Depth(s[..k]) <= MaxDepth(s)
    ensures MaxDepth(s) == 0 || exists k :: 0 < k <= |s| && Depth(s[..k]) == MaxDepth(s)
  {
    if s != [] {
      var p := s[..|s| - 1];
      MaxDepthIsMaxPrefix(p);
      assert s[..|s|] == s;
      forall k | 0 <= k < |s|
        ensures Depth(s[..k]) <= MaxDepth(s)
      {
        assert s[..k] == p[..k];
      }
      if MaxDepth(s) != 0 && MaxDepth(s) != Depth(s) {
        var k :| 0 < k <= |p| && Depth(p[..k]) == MaxDepth(p);
        assert s[..k] == p[..k];
      }
    }
  }

  /** A straight line of N pushes needs a stack of depth N. */
  lemma {:induction false} AllPushesDepth(s: seq<Instr>)
    requires forall i :: 0 <= i < |s| ==> s[i].stackEffect == 1
    ensures Depth(s) == |s| && MaxDepth(s) == |s|
  {
    if s != [] {
      AllPushesDepth(s[..|s| - 1]);
    }
  }

  /** Alternating push / pop, N >= 1 times, needs a stack of depth 1. */
  lemma {:induction false} PushPopDepth(s: seq<Instr>)
    requires |s| % 2 == 0 && |s| >= 2
    requires forall i :: 0 <= i < |s| ==> s[i].stackEffect == if i % 2 == 0 then 1 else -1
    ensures Depth(s) == 0 && MaxDepth(s) == 1
  {
    var p := s[..|s| - 1];
    var q := p[..|p| - 1];
    assert q == s[..|s| - 2];
    assert s[|s| - 2].stackEffect == 1 && s[|s| - 1].stackEffect == -1;
    if |s| == 2 {
      assert q == [];
    } else {
      PushPopDepth(q);
    }
    assert Depth(p) == 1 && MaxDepth(p) == 1;
  }

  /** Lengths are positive, so the offsets of a list strictly increase. */
  lemma {:induction false} OffsetsIncrease(code: seq<Instr>, i: nat, j: nat)
    requires i < j <= |code|
    ensures Offset(code, i) < Offset(code, j)
  {
    if i < j - 1 {
      OffsetsIncrease(code, i, j - 1);
    }
  }

  /** After layout, the `codeOffset` field of an instruction of the list is
      its byte offset. */
  lemma CodeOffsetOf(code: seq<Instr>, op: Instr)
    requires LaidOut(code) && op in code
    ensures op.codeOffset == OffsetOf(code, op)
  {
    var k := IndexOf(code, op);
    assert code[k].codeOffset == Offset(code, k);
  }

  /* ------------------------------------------------------------------ */
  /* Layout                                                               */
  /* ------------------------------------------------------------------ */

  /** The layout loop of `transpile`: number the instructions and give each
      the running total of the lengths before it. */
  method Layout(code: seq<Instr>)
    requires Distinct(code)
    modifies code`codeIndex, code`codeOffset
    ensures LaidOut(code)
  {
    var offset := 0;
    var index := 0;
    while index < |code|
      invariant 0 <= index <= |code|
      invariant offset == Offset(code, index)
      invariant forall i {:trigger code[i].codeIndex} :: 0 <= i < index ==> code[i].codeIndex == i
      invariant forall i {:trigger code[i].codeOffset} :: 0 <= i < index ==> code[i].codeOffset == Offset(code, i)
    {
      var op := code[index];
      op.codeIndex, op.codeOffset := index, offset;
      offset := offset + code[index].size;
      index := index + 1;
    }
  }

  /* ------------------------------------------------------------------ */
  /* The records as the patch pass reads them                             */
  /* ------------------------------------------------------------------ */

  /** One `except` clause as the patch pass reads it: the first instruction
      of the handler and the type it catches. */
  datatype Catch = Catch(start: Instr, descriptor: Option<string>)

  /** A try statement as the patch pass reads it: the first guarded
      instruction, the instruction the statement ends on, the jump that
      skips the handlers, and the handlers in order. */
  datatype Try = Try(start: Instr, end: Instr, jump: Instr, catches: seq<Catch>)

  /** A conditional jump the patch pass writes, and the unconditional jump
      that may follow its branch body; both land on the join point. */
  datatype Branch = Branch(op: Instr, jump: Instr?)

  /** An if statement as the patch pass reads it: the first branch, the join
      point and the `elif`/`else` branches. */
  datatype Shape = Shape(head: Branch, end: Instr, elifs: seq<Branch>)

  /** `op` is set and is one of the instructions of `code`. */
  predicate In(op: Instr?, code: seq<Instr>) {
    op != null && op in code
  }

  /** `op` is unset or is one of the instructions of `code`. */
  predicate InOrNull(op: Instr?, code: seq<Instr>) {
    op != null ==> op in code
  }

  function AllHandlers(tcs: seq<TryCatch>): (hs: set<Handler>)
    ensures forall i, k :: 0 <= i < |tcs| && 0 <= k < |tcs[i].handlers| ==> tcs[i].handlers[k] in hs
  {
    set i, k | 0 <= i < |tcs| && 0 <= k < |tcs[i].handlers| :: tcs[i].handlers[k]
  }

  function AllElifs(ifs: seq<IfBlock>): (es: set<ElseIf>)
    ensures forall i, k :: 0 <= i < |ifs| && 0 <= k < |ifs[i].elifs| ==> ifs[i].elifs[k] in es
  {
    set i, k | 0 <= i < |ifs| && 0 <= k < |ifs[i].elifs| :: ifs[i].elifs[k]
  }

  /** The attributes of `t` that the patch pass reads are set. */
  predicate TrySet(t: TryCatch)
    reads t`startOp, t`endOp, t`jumpOp, t.handlers`startOp
  {
    t.startOp != null && t.endOp != null && t.jumpOp != null
    && forall k :: 0 <= k < |t.handlers| ==> t.handlers[k].startOp != null
  }

  predicate TriesSet(tcs: seq<TryCatch>)
    reads tcs`startOp, tcs`endOp, tcs`jumpOp, AllHandlers(tcs)`startOp
  {
    forall i :: 0 <= i < |tcs| ==> TrySet(tcs[i])
  }

  /** `r` is what the patch pass reads from `t`. */
  predicate TryRead(r: Try, t: TryCatch)
    reads t`startOp, t`endOp, t`jumpOp, t.handlers`startOp
  {
    r.start == t.startOp && r.end == t.endOp && r.jump == t.jumpOp && |r.catches| == |t.handlers|
    && forall k :: 0 <= k < |t.handlers| ==>
         r.catches[k].start == t.handlers[k].startOp && r.catches[k].descriptor == t.handlers[k].descriptor
  }

  /** `ts` is what the patch pass reads from `tcs`, statement by statement. */
  predicate TriesRead(ts: seq<Try>, tcs: seq<TryCatch>)
    reads tcs`startOp, tcs`endOp, tcs`jumpOp, AllHandlers(tcs)`startOp
  {
    |ts| == |tcs| && forall i :: 0 <= i < |tcs| ==> TryRead(ts[i], tcs[i])
  }

  /** The attributes of `t` that the patch pass reads, as one value. */
  function TryOf(t: TryCatch): (r: Try)
    requires TrySet(t)
    reads t, t.handlers
    ensures TryRead(r, t)
  {
    Try(t.startOp, t.endOp, t.jumpOp,
        seq(|t.handlers|, k requires 0 <= k < |t.handlers| && TrySet(t) reads t, t.handlers =>
              Catch(t.handlers[k].startOp, t.handlers[k].descriptor)))
  }

  /** Every try statement of `tcs` as the patch pass reads it, in order. */
  function Tries(tcs: seq<TryCatch>): (ts: seq<Try>)
    requires TriesSet(tcs)
    reads tcs, AllHandlers(tcs)
    ensures TriesRead(ts, tcs)
  {
    seq(|tcs|, i requires 0 <= i < |tcs| && TriesSet(tcs) reads tcs, AllHandlers(tcs) => TryOf(tcs[i]))
  }

  /** The attributes of `b` that the patch pass reads unconditionally are set. */
  predicate IfSet(b: IfBlock)
    reads b`ifOp, b`endOp, b.elifs`ifOp
  {
    b.ifOp != null && b.endOp != null && forall k :: 0 <= k < |b.elifs| ==> b.elifs[k].ifOp != null
  }

  predicate IfsSet(ifs: seq<IfBlock>)
    reads ifs`ifOp, ifs`endOp, AllElifs(ifs)`ifOp
  {
    forall i :: 0 <= i < |ifs| ==> IfSet(ifs[i])
  }

  /** `s` is what the patch pass reads from `b`. */
  predicate IfRead(s: Shape, b: IfBlock)
    reads b`ifOp, b`jumpOp, b`endOp, b.elifs`ifOp, b.elifs`jumpOp
  {
    s.head.op == b.ifOp && s.head.jump == b.jumpOp && s.end == b.endOp && |s.elifs| == |b.elifs|
    && forall k :: 0 <= k < |b.elifs| ==> s.elifs[k].op == b.elifs[k].ifOp && s.elifs[k].jump == b.elifs[k].jumpOp
  }

  /** `ss` is what the patch pass reads from `ifs`, statement by statement. */
  predicate IfsRead(ss: seq<Shape>, ifs: seq<IfBlock>)
    reads ifs`ifOp, ifs`jumpOp, ifs`endOp, AllElifs(ifs)`ifOp, AllElifs(ifs)`jumpOp
  {
    |ss| == |ifs| && forall i :: 0 <= i < |ifs| ==> IfRead(ss[i], ifs[i])
  }

  /** The attributes of `b` that the patch pass reads, as one value. */
  function ShapeOf(b: IfBlock): (s: Shape)
    requires IfSet(b)
    reads b, b.elifs
    ensures IfRead(s, b)
  {
    Shape(Branch(b.ifOp, b.jumpOp), b.endOp,
          seq(|b.elifs|, k requires 0 <= k < |b.elifs| && IfSet(b) reads b, b.elifs => Branch(b.elifs[k].ifOp, b.elifs[k].jumpOp)))
  }

  /** Every if statement of `ifs` as the patch pass reads it, in order. */
  function Shapes(ifs: seq<IfBlock>): (ss: seq<Shape>)
    requires IfsSet(ifs)
    reads ifs, AllElifs(ifs)
    ensures IfsRead(ss, ifs)
  {
    seq(|ifs|, i requires 0 <= i < |ifs| && IfsSet(ifs) reads ifs, AllElifs(ifs) => ShapeOf(ifs[i]))
  }

  /** Every instruction `t` names is one of the instructions of `code`. */
  predicate TryIn(t: Try, code: seq<Instr>) {
    t.start in code && t.end in code && t.jump in code
    && forall k :: 0 <= k < |t.catches| ==> t.catches[k].start in code
  }

  predicate TriesIn(ts: seq<Try>, code: seq<Instr>) {
    forall i :: 0 <= i < |ts| ==> TryIn(ts[i], code)
  }

  predicate BranchIn(br: Branch, code: seq<Instr>) {
    br.op in code && InOrNull(br.jump, code)
  }

  /** Every instruction `s` names is one of the instructions of `code`. */
  predicate ShapeIn(s: Shape, code: seq<Instr>) {
    BranchIn(s.head, code) && s.end in code && forall k :: 0 <= k < |s.elifs| ==> BranchIn(s.elifs[k], code)
  }

  predicate ShapesIn(ss: seq<Shape>, code: seq<Instr>) {
    forall i :: 0 <= i < |ss| ==> ShapeIn(ss[i], code)
  }

  /** Every attribute of `t` that the patch pass reads names an instruction of `code`. */
  predicate TryCatchIn(t: TryCatch, code: seq<Instr>)
    reads t`startOp, t`endOp, t`jumpOp, t.handlers`startOp
  {
    In(t.startOp, code) && In(t.endOp, code) && In(t.jumpOp, code)
    && forall k :: 0 <= k < |t.handlers| ==> In(t.handlers[k].startOp, code)
  }

  predicate TryCatchesIn(tcs: seq<TryCatch>, code: seq<Instr>)
    reads tcs`startOp, tcs`endOp, tcs`jumpOp, AllHandlers(tcs)`startOp
  {
    forall i :: 0 <= i < |tcs| ==> TryCatchIn(tcs[i], code)
  }

  /** Every attribute of `b` that the patch pass reads names an instruction
      of `code`; the optional jumps may also be unset. */
  predicate IfBlockIn(b: IfBlock, code: seq<Instr>)
    reads b`ifOp, b`jumpOp, b`endOp, b.elifs`ifOp, b.elifs`jumpOp
  {
    In(b.ifOp, code) && InOrNull(b.jumpOp, code) && In(b.endOp, code)
    && forall k :: 0 <= k < |b.elifs| ==> In(b.elifs[k].ifOp, code) && InOrNull(b.elifs[k].jumpOp, code)
  }

  predicate IfBlocksIn(ifs: seq<IfBlock>, code: seq<Instr>)
    reads ifs`ifOp, ifs`jumpOp, ifs`endOp, AllElifs(ifs)`ifOp, AllElifs(ifs)`jumpOp
  {
    forall i :: 0 <= i < |ifs| ==> IfBlockIn(ifs[i], code)
  }

  /** Records that name instructions of `code` are set, and whatever the
      patch pass reads from them names instructions of `code`. */
  lemma TriesReadIn(tcs: seq<TryCatch>, code: seq<Instr>)
    requires TryCatchesIn(tcs, code)
    ensures TriesSet(tcs)
    ensures forall ts :: TriesRead(ts, tcs) ==> TriesIn(ts, code)
  {
    forall ts, i | TriesRead(ts, tcs) && 0 <= i < |tcs|
      ensures TrySet(tcs[i]) && TryIn(ts[i], code)
    {
      assert TryCatchIn(tcs[i], code) && TryRead(ts[i], tcs[i]);
    }
  }

  lemma IfsReadIn(ifs: seq<IfBlock>, code: seq<Instr>)
    requires IfBlocksIn(ifs, code)
    ensures IfsSet(ifs)
    ensures forall ss :: IfsRead(ss, ifs) ==> ShapesIn(ss, code)
  {
    forall ss, i | IfsRead(ss, ifs) && 0 <= i < |ifs|
      ensures IfSet(ifs[i]) && ShapeIn(ss[i], code)
    {
      assert IfBlockIn(ifs[i], code) && IfRead(ss[i], ifs[i]);
    }
  }

  /* ------------------------------------------------------------------ */
  /* Exception table                                                      */
  /* ------------------------------------------------------------------ */

  /** One row of the exception table: guarded range [startPc, endPc), handler
      start, caught type. */
  datatype ExceptionInfo = ExceptionInfo(startPc: int, endPc: int, handlerPc: int, catchType: Option<string>)

  /** The row for handler `h` of try statement `t`: the guarded range runs from
      the first guarded instruction up to (not including) the skip jump. */
  function Entry(code: seq<Instr>, t: Try, h: Catch): ExceptionInfo
    requires t.start in code && t.jump in code && h.start in code
  {
    ExceptionInfo(OffsetOf(code, t.start), OffsetOf(code, t.jump), OffsetOf(code, h.start), h.descriptor)
  }

  /** The rows of try statement `t`: one per handler, in handler order. */
  function HandlerEntries(code: seq<Instr>, t: Try): (rows: seq<ExceptionInfo>)
    requires TryIn(t, code)
    ensures |rows| == |t.catches|
    ensures forall k :: 0 <= k < |t.catches| ==> rows[k] == Entry(code, t, t.catches[k])
  {
    seq(|t.catches|, k requires 0 <= k < |t.catches| => Entry(code, t, t.catches[k]))
  }

  /** The rows of every try statement, grouped per statement. */
  function TableGroups(code: seq<Instr>, ts: seq<Try>): (groups: seq<seq<ExceptionInfo>>)
    requires TriesIn(ts, code)
    ensures |groups| == |ts|
    ensures forall i :: 0 <= i < |ts| ==> groups[i] == HandlerEntries(code, ts[i])
  {
    seq(|ts|, i requires 0 <= i < |ts| => HandlerEntries(code, ts[i]))
  }

  /** Concatenation of a list of lists. */
  function Flatten<T>(s: seq<seq<T>>): seq<T> {
    if s == [] then [] else Flatten(s[..|s| - 1]) + s[|s| - 1]
  }

  /** Total length of a list of lists. */
  function TotalLength<T>(s: seq<seq<T>>): nat {
    if s == [] then 0 else TotalLength(s[..|s| - 1]) + |s[|s| - 1]|
  }

  /** The exception table: per try statement, one row per handler. */
  function ExceptionTable(code: seq<Instr>, ts: seq<Try>): seq<ExceptionInfo>
    requires TriesIn(ts, code)
  {
    Flatten(TableGroups(code, ts))
  }

  lemma FlattenSnoc<T>(s: seq<seq<T>>, i: nat)
    requires i < |s|
    ensures Flatten(s[..i + 1]) == Flatten(s[..i]) + s[i]
  {
    assert s[..i + 1][..i] == s[..i];
  }

  /** Element `k` of list `i` sits at position `TotalLength(s[..i]) + k` of the
      concatenation. */
  lemma {:induction false} FlattenAt<T>(s: seq<seq<T>>, i: nat, k: nat)
    requires i < |s| && k < |s[i]|
    ensures |Flatten(s)| == TotalLength(s)
    ensures TotalLength(s[..i]) + k < |Flatten(s)|
    ensures Flatten(s)[TotalLength(s[..i]) + k] == s[i][k]
  {
    var p := s[..|s| - 1];
    FlattenLength(p);
    if i < |s| - 1 {
      FlattenAt(p, i, k);
      assert p[..i] == s[..i];
    } else {
      assert s[..i] == p;
    }
  }

  lemma {:induction false} FlattenLength<T>(s: seq<seq<T>>)
    ensures |Flatten(s)| == TotalLength(s)
  {
    if s != [] {
      FlattenLength(s[..|s| - 1]);
    }
  }

  /** The table has exactly one row per handler, in statement order and then
      handler order: the rows of statement i start after the handlers of the
      statements before it, and row k of them describes handler k. */
  lemma ExceptionTableAt(code: seq<Instr>, ts: seq<Try>, i: nat, k: nat)
    requires TriesIn(ts, code)
    requires i < |ts| && k < |ts[i].catches|
    ensures |ExceptionTable(code, ts)| == TotalLength(TableGroups(code, ts))
    ensures TotalLength(TableGroups(code, ts)[..i]) + k < |ExceptionTable(code, ts)|
    ensures ExceptionTable(code, ts)[TotalLength(TableGroups(code, ts)[..i]) + k] == Entry(code, ts[i], ts[i].catches[k])
  {
    FlattenAt(TableGroups(code, ts), i, k);
  }

  /** A guarded range is never empty when the first guarded instruction comes
      before the skip jump. */
  lemma EntryRangeNonEmpty(code: seq<Instr>, t: Try, h: Catch)
    requires t.start in code && t.jump in code && h.start in code
    requires IndexOf(code, t.start) < IndexOf(code, t.jump)
    ensures Entry(code, t, h).startPc < Entry(code, t, h).endPc
  {
    OffsetsIncrease(code, IndexOf(code, t.start), IndexOf(code, t.jump));
  }

  /* ------------------------------------------------------------------ */
  /* Jump distances                                                       */
  /* ------------------------------------------------------------------ */

  /** The relative distance that makes `op` jump onto `target`: target
      offset minus own offset. */
  function Distance(code: seq<Instr>, op: Instr, target: Instr): int
    requires op in code && target in code
  {
    OffsetOf(code, target) - OffsetOf(code, op)
  }

  /** The `offset` fields of the instructions, in list order. */
  function Offsets(code: seq<Instr>): (s: seq<int>)
    reads code
    ensures |s| == |code| && forall j :: 0 <= j < |code| ==> s[j] == code[j].offset
  {
    seq(|code|, j requires 0 <= j < |code| reads code => code[j].offset)
  }

  /** Every jump of `aims` is aimed at an instruction of `code`. */
  predicate AimsIn(aims: map<Instr, Instr>, code: seq<Instr>) {
    forall op :: op in aims ==> aims[op] in code
  }

  /** `aims` with `op` aimed at `target`. */
  function Aimed(aims: map<Instr, Instr>, op: Instr, target: Instr): map<Instr, Instr> {
    aims[op := target]
  }

  /** The state the patch pass has reached: an instruction aimed by `aims`
      holds the distance from its own `codeOffset` to its target's, every
      other one its offset from `before`. */
  predicate Written(code: seq<Instr>, aims: map<Instr, Instr>, before: seq<int>)
    reads code`offset, code`codeOffset
  {
    |before| == |code| && AimsIn(aims, code)
    && forall j {:trigger code[j].offset} :: 0 <= j < |code| ==>
         code[j].offset == (if code[j] in aims then aims[code[j]].codeOffset - code[j].codeOffset else before[j])
  }

  /** After layout, an aimed instruction jumps exactly onto its target. */
  lemma WrittenDistance(code: seq<Instr>, aims: map<Instr, Instr>, before: seq<int>, op: Instr)
    requires LaidOut(code) && Written(code, aims, before) && op in code && op in aims
    ensures aims[op] in code && op.codeOffset + op.offset == aims[op].codeOffset
    ensures op.offset == Distance(code, op, aims[op])
  {
    var k := IndexOf(code, op);
    assert code[k].offset == aims[op].codeOffset - op.codeOffset;
    CodeOffsetOf(code, op);
    CodeOffsetOf(code, aims[op]);
  }

  /** `setattr(op, 'offset', end.code_offset - op.code_offset)`: aim `op` at `end`. */
  method Aim(code: seq<Instr>, op: Instr, end: Instr, ghost aims: map<Instr, Instr>, ghost before: seq<int>)
    requires op in code && end in code && Written(code, aims, before)
    modifies op`offset
    ensures Written(code, Aimed(aims, op, end), before)
  {
    op.offset := end.codeOffset - op.codeOffset;
  }

  /* ------------------------------------------------------------------ */
  /* Try/catch jumps                                                      */
  /* ------------------------------------------------------------------ */

  /** `aims` after the skip jumps of the first `n` try statements, each aimed
      at the end of its statement in turn, so that a later statement that
      shares the jump instruction overrides an earlier one. */
  function JumpAims(aims: map<Instr, Instr>, ts: seq<Try>, n: nat): map<Instr, Instr>
    requires n <= |ts|
  {
    if n == 0 then aims else Aimed(JumpAims(aims, ts, n - 1), ts[n - 1].jump, ts[n - 1].end)
  }

  /** A skip jump that no later statement shares lands on the end of its own
      statement. */
  lemma {:induction false} JumpAimsLast(aims: map<Instr, Instr>, ts: seq<Try>, n: nat, i: nat)
    requires i < n <= |ts|
    requires forall j :: i < j < n ==> ts[j].jump != ts[i].jump
    ensures ts[i].jump in JumpAims(aims, ts, n)
    ensures JumpAims(aims, ts, n)[ts[i].jump] == ts[i].end
  {
    if i < n - 1 {
      JumpAimsLast(aims, ts, n - 1, i);
    }
  }

  /** An instruction that is none of the skip jumps keeps its aim, or stays
      unaimed. */
  lemma {:induction false} JumpAimsOutside(aims: map<Instr, Instr>, ts: seq<Try>, n: nat, op: Instr)
    requires n <= |ts|
    requires forall j :: 0 <= j < n ==> ts[j].jump != op
    ensures op in JumpAims(aims, ts, n) <==> op in aims
    ensures op in aims ==> JumpAims(aims, ts, n)[op] == aims[op]
  {
    if n > 0 {
      JumpAimsOutside(aims, ts, n - 1, op);
    }
  }

  /** The rows of one try statement, read off the `codeOffset` fields the
      layout pass wrote. */
  method TryRows(code: seq<Instr>, t: Try) returns (rows: seq<ExceptionInfo>)
    requires LaidOut(code) && TryIn(t, code)
    ensures rows == HandlerEntries(code, t)
  {
    CodeOffsetOf(code, t.start);
    CodeOffsetOf(code, t.jump);
    rows := [];
    var n := 0;
    while n < |t.catches|
      invariant 0 <= n <= |t.catches|
      invariant rows == HandlerEntries(code, t)[..n]
    {
      var h := t.catches[n];
      CodeOffsetOf(code, h.start);
      rows := rows + [ExceptionInfo(t.start.codeOffset, t.jump.codeOffset, h.start.codeOffset, h.descriptor)];
      n := n + 1;
    }
  }

  /** Try statement `k` of the try/catch pass (counting from 1): its rows of
      the exception table, then its skip jump aimed at the end of the
      statement, one more step of `JumpAims`. */
  method PatchTry(code: seq<Instr>, t: Try, ghost aims: map<Instr, Instr>, ghost ts: seq<Try>, ghost k: nat, ghost before: seq<int>)
    returns (rows: seq<ExceptionInfo>)
    requires LaidOut(code) && TryIn(t, code)
    requires 0 < k <= |ts| && ts[k - 1] == t
    requires Written(code, JumpAims(aims, ts, k - 1), before)
    modifies t.jump`offset
    ensures LaidOut(code)
    ensures rows == HandlerEntries(code, t)
    ensures Written(code, JumpAims(aims, ts, k), before)
  {
    rows := TryRows(code, t);
    Aim(code, t.jump, t.end, JumpAims(aims, ts, k - 1), before);
  }

  /** The try/catch half of the patch pass: the exception table, and every
      skip jump aimed at the end of its statement, in statement order. */
  method BuildExceptionTable(code: seq<Instr>, ts: seq<Try>, ghost aims: map<Instr, Instr>, ghost before: seq<int>)
    returns (exceptions: seq<ExceptionInfo>)
    requires LaidOut(code) && TriesIn(ts, code) && Written(code, aims, before)
    modifies code`offset
    ensures LaidOut(code)
    ensures exceptions == ExceptionTable(code, ts)
    ensures Written(code, JumpAims(aims, ts, |ts|), before)
  {
    ghost var groups := TableGroups(code, ts);
    exceptions := [];
    var i := 0;
    while i < |ts|
      invariant 0 <= i <= |ts|
      invariant LaidOut(code)
      invariant exceptions == Flatten(groups[..i])
      invariant Written(code, JumpAims(aims, ts, i), before)
    {
      var rows := PatchTry(code, ts[i], aims, ts, i + 1, before);
      FlattenSnoc(groups, i);
      exceptions := exceptions + rows;
      i := i + 1;
    }
    assert groups[..i] == groups;
  }

  /* ------------------------------------------------------------------ */
  /* If-block jumps                                                       */
  /* ------------------------------------------------------------------ */

  /** `op` is one of the jumps of the branch. */
  predicate OfBranch(br: Branch, op: Instr) {
    br.op == op || br.jump == op
  }

  /** `op` is one of the jumps of the first `n` branches. */
  predicate OfElifs(es: seq<Branch>, n: nat, op: Instr)
    requires n <= |es|
  {
    exists k :: 0 <= k < n && OfBranch(es[k], op)
  }

  /** `op` is one of the jumps of the if statement. */
  predicate OfShape(s: Shape, op: Instr) {
    OfBranch(s.head, op) || OfElifs(s.elifs, |s.elifs|, op)
  }

  /** `aims` with both jumps of a branch aimed at `end`. */
  function BranchAims(aims: map<Instr, Instr>, br: Branch, end: Instr): map<Instr, Instr> {
    var w := Aimed(aims, br.op, end);
    if br.jump != null then Aimed(w, br.jump, end) else w
  }

  /** `aims` after the first `n` branches, in order. */
  function ElifAims(aims: map<Instr, Instr>, es: seq<Branch>, end: Instr, n: nat): map<Instr, Instr>
    requires n <= |es|
  {
    if n == 0 then aims else BranchAims(ElifAims(aims, es, end, n - 1), es[n - 1], end)
  }

  /** `aims` after every branch of the if statement: the first branch, then
      the `elif`/`else` branches in order. */
  function BlockAims(aims: map<Instr, Instr>, s: Shape): map<Instr, Instr> {
    ElifAims(BranchAims(aims, s.head, s.end), s.elifs, s.end, |s.elifs|)
  }

  /** `aims` after the first `n` if statements. */
  function IfAims(aims: map<Instr, Instr>, ss: seq<Shape>, n: nat): map<Instr, Instr>
    requires n <= |ss|
  {
    if n == 0 then aims else BlockAims(IfAims(aims, ss, n - 1), ss[n - 1])
  }

  /** The first `n` branches are aimed at `end`, and no other aim changes. */
  lemma {:induction false} ElifAimsAim(aims: map<Instr, Instr>, es: seq<Branch>, end: Instr, n: nat)
    requires n <= |es|
    ensures forall op :: op in ElifAims(aims, es, end, n) <==> op in aims || OfElifs(es, n, op)
    ensures forall op :: OfElifs(es, n, op) ==> ElifAims(aims, es, end, n)[op] == end
    ensures forall op :: op in aims && !OfElifs(es, n, op) ==> ElifAims(aims, es, end, n)[op] == aims[op]
  {
    if n > 0 {
      ElifAimsAim(aims, es, end, n - 1);
      assert forall op :: OfElifs(es, n, op) <==> OfElifs(es, n - 1, op) || OfBranch(es[n - 1], op);
    }
  }

  /** Every jump of the if statement is aimed at its join point, and no other
      aim changes. */
  lemma BlockAimsAim(aims: map<Instr, Instr>, s: Shape)
    ensures forall op :: op in BlockAims(aims, s) <==> op in aims || OfShape(s, op)
    ensures forall op :: OfShape(s, op) ==> BlockAims(aims, s)[op] == s.end
    ensures forall op :: op in aims && !OfShape(s, op) ==> BlockAims(aims, s)[op] == aims[op]
  {
    ElifAimsAim(BranchAims(aims, s.head, s.end), s.elifs, s.end, |s.elifs|);
  }

  /** A jump of statement `i` that no later statement shares is aimed at the
      join point of statement `i`. */
  lemma {:induction false} IfAimsLast(aims: map<Instr, Instr>, ss: seq<Shape>, n: nat, i: nat, op: Instr)
    requires i < n <= |ss| && OfShape(ss[i], op)
    requires forall j :: i < j < n ==> !OfShape(ss[j], op)
    ensures op in IfAims(aims, ss, n) && IfAims(aims, ss, n)[op] == ss[i].end
  {
    BlockAimsAim(IfAims(aims, ss, n - 1), ss[n - 1]);
    if i < n - 1 {
      IfAimsLast(aims, ss, n - 1, i, op);
    }
  }

  /** An instruction that is no jump of the first `n` statements keeps its
      aim, or stays unaimed. */
  lemma {:induction false} IfAimsOutside(aims: map<Instr, Instr>, ss: seq<Shape>, n: nat, op: Instr)
    requires n <= |ss|
    requires forall j :: 0 <= j < n ==> !OfShape(ss[j], op)
    ensures op in IfAims(aims, ss, n) <==> op in aims
    ensures op in aims ==> IfAims(aims, ss, n)[op] == aims[op]
  {
    if n > 0 {
      BlockAimsAim(IfAims(aims, ss, n - 1), ss[n - 1]);
      IfAimsOutside(aims, ss, n - 1, op);
    }
  }

  /** One branch of an if statement: its conditional jump, and its
      unconditional jump when there is one, aimed at the join point. */
  method AimBranch(code: seq<Instr>, br: Branch, end: Instr, ghost aims: map<Instr, Instr>, ghost before: seq<int>)
    requires BranchIn(br, code) && end in code && Written(code, aims, before)
    modifies code`offset
    ensures Written(code, BranchAims(aims, br, end), before)
  {
    Aim(code, br.op, end, aims, before);
    if br.jump != null {
      Aim(code, br.jump, end, Aimed(aims, br.op, end), before);
    }
  }

  /** One if statement of the if-block pass: every branch aimed at the join
      point, the first branch and then the others in order. */
  method PatchIfBlock(code: seq<Instr>, s: Shape, ghost aims: map<Instr, Instr>, ghost before: seq<int>)
    requires ShapeIn(s, code) && Written(code, aims, before)
    modifies code`offset
    ensures Written(code, BlockAims(aims, s), before)
  {
    AimBranch(code, s.head, s.end, aims, before);
    ghost var head := BranchAims(aims, s.head, s.end);
    var k := 0;
    while k < |s.elifs|
      invariant 0 <= k <= |s.elifs|
      invariant Written(code, ElifAims(head, s.elifs, s.end, k), before)
    {
      AimBranch(code, s.elifs[k], s.end, ElifAims(head, s.elifs, s.end, k), before);
      k := k + 1;
    }
  }

  /** The if-block half of the patch pass: every if statement in order. */
  method PatchIfBlocks(code: seq<Instr>, ss: seq<Shape>, ghost aims: map<Instr, Instr>, ghost before: seq<int>)
    requires ShapesIn(ss, code) && Written(code, aims, before)
    modifies code`offset
    ensures Written(code, IfAims(aims, ss, |ss|), before)
  {
    var i := 0;
    while i < |ss|
      invariant 0 <= i <= |ss|
      invariant Written(code, IfAims(aims, ss, i), before)
    {
      PatchIfBlock(code, ss[i], IfAims(aims, ss, i), before);
      i := i + 1;
    }
  }

  /* ------------------------------------------------------------------ */
  /* The whole patch pass                                                 */
  /* ------------------------------------------------------------------ */

  /** Where the patch pass aims every jump: first the skip jump of every try
      statement, then every branch of every if statement, a later write of
      the same instruction overriding an earlier one. */
  function PatchAims(ts: seq<Try>, ss: seq<Shape>): map<Instr, Instr> {
    IfAims(JumpAims(map[], ts, |ts|), ss, |ss|)
  }

  /** The layout pass, then the exception table with the try/catch jumps,
      then the if-block jumps, over the try and if statements as the pass
      reads them. `before` holds the offsets as they were before the patch
      pass. */
  method Passes(code: seq<Instr>, ts: seq<Try>, ss: seq<Shape>) returns (exceptions: seq<ExceptionInfo>, ghost before: seq<int>)
    requires Distinct(code) && TriesIn(ts, code) && ShapesIn(ss, code)
    modifies code`codeIndex, code`codeOffset, code`offset
    ensures LaidOut(code)
    ensures exceptions == ExceptionTable(code, ts)
    ensures Written(code, PatchAims(ts, ss), before)
    ensures |before| == |code| && forall j :: 0 <= j < |code| ==> before[j] == old(code[j].offset)
  {
    before := Offsets(code);
    Layout(code);
    exceptions := BuildExceptionTable(code, ts, map[], before);
    PatchIfBlocks(code, ss, JumpAims(map[], ts, |ts|), before);
  }

  /** What the layout and patch passes leave behind: `code` is laid out;
      `ts` and `ss` are the try statements `tcs` and the if statements `ifs`
      as their records hold them, and name instructions of `code`;
      `exceptions` is their exception table; and every jump is aimed as
      `PatchAims` says, every other instruction keeping the offset `before`
      gives it. */
  predicate Assembled(code: seq<Instr>, tcs: seq<TryCatch>, ifs: seq<IfBlock>,
                      exceptions: seq<ExceptionInfo>, ts: seq<Try>, ss: seq<Shape>, before: seq<int>)
    reads code`codeIndex, code`codeOffset, code`offset
    reads tcs`startOp, tcs`endOp, tcs`jumpOp, AllHandlers(tcs)`startOp
    reads ifs`ifOp, ifs`jumpOp, ifs`endOp, AllElifs(ifs)`ifOp, AllElifs(ifs)`jumpOp
  {
    && LaidOut(code)
    && TriesRead(ts, tcs) && TriesIn(ts, code)
    && IfsRead(ss, ifs) && ShapesIn(ss, code)
    && exceptions == ExceptionTable(code, ts)
    && Written(code, PatchAims(ts, ss), before)
  }

  /** Lines 170 to 210 of `transpile`: the layout and patch passes over the
      try statements `tcs` and the if statements `ifs`. The passes read the
      records' attributes (`ts`, `ss`) and write instruction fields only, so
      the records hold the same values afterwards: in particular every
      attribute of the holders `rts`, `rhs`, `rbs` and `res` keeps the value
      `m` gives it. */
  method Assemble(code: seq<Instr>, tcs: seq<TryCatch>, ifs: seq<IfBlock>,
                  ghost m: map<Ref, Instr?>, ghost rts: set<TryCatch>, ghost rhs: set<Handler>, ghost rbs: set<IfBlock>, ghost res: set<ElseIf>)
    returns (exceptions: seq<ExceptionInfo>, ghost ts: seq<Try>, ghost ss: seq<Shape>, ghost before: seq<int>)
    requires Distinct(code) && TryCatchesIn(tcs, code) && IfBlocksIn(ifs, code)
    requires Holding(m, rts, rhs, rbs, res)
    modifies code`codeIndex, code`codeOffset, code`offset
    ensures TriesRead(ts, tcs) && TriesIn(ts, code)
    ensures IfsRead(ss, ifs) && ShapesIn(ss, code)
    ensures LaidOut(code)
    ensures exceptions == ExceptionTable(code, ts)
    ensures Written(code, PatchAims(ts, ss), before)
    ensures |before| == |code| && forall j :: 0 <= j < |code| ==> before[j] == old(code[j].offset)
    ensures Holding(m, rts, rhs, rbs, res)
  {
    TriesReadIn(tcs, code);
    IfsReadIn(ifs, code);
    var tries := Tries(tcs);
    var shapes := Shapes(ifs);
    exceptions, before := Passes(code, tries, shapes);
    ts, ss := tries, shapes;
  }

  /** A jump of an if statement that names instructions of `code` is one of them. */
  lemma ShapeOpIn(s: Shape, code: seq<Instr>, op: Instr)
    requires ShapeIn(s, code) && OfShape(s, op)
    ensures op in code
  {
    if !OfBranch(s.head, op) {
      var k :| 0 <= k < |s.elifs| && OfBranch(s.elifs[k], op);
      assert BranchIn(s.elifs[k], code);
    }
  }

  /** After the patch pass, the skip jump of try statement `i` lands on the
      end of the statement, unless a later try statement or an if statement
      rewrites the same instruction. */
  lemma TryJumpLands(code: seq<Instr>, ts: seq<Try>, ss: seq<Shape>, before: seq<int>, i: nat)
    requires LaidOut(code) && TriesIn(ts, code)
    requires Written(code, PatchAims(ts, ss), before)
    requires i < |ts|
    requires forall j :: i < j < |ts| ==> ts[j].jump != ts[i].jump
    requires forall j :: 0 <= j < |ss| ==> !OfShape(ss[j], ts[i].jump)
    ensures ts[i].jump.codeOffset + ts[i].jump.offset == ts[i].end.codeOffset
    ensures ts[i].jump.offset == Distance(code, ts[i].jump, ts[i].end)
  {
    var op := ts[i].jump;
    assert TryIn(ts[i], code);
    JumpAimsLast(map[], ts, |ts|, i);
    IfAimsOutside(JumpAims(map[], ts, |ts|), ss, |ss|, op);
    WrittenDistance(code, PatchAims(ts, ss), before, op);
  }

  /** After the patch pass, every jump of if statement `i` lands on the join
      point of the statement, unless a later if statement rewrites the same
      instruction. */
  lemma IfBranchLands(code: seq<Instr>, ts: seq<Try>, ss: seq<Shape>, before: seq<int>, i: nat, op: Instr)
    requires LaidOut(code) && ShapesIn(ss, code)
    requires Written(code, PatchAims(ts, ss), before)
    requires i < |ss| && OfShape(ss[i], op)
    requires forall j :: i < j < |ss| ==> !OfShape(ss[j], op)
    ensures op in code && ss[i].end in code
    ensures op.codeOffset + op.offset == ss[i].end.codeOffset
    ensures op.offset == Distance(code, op, ss[i].end)
  {
    assert ShapeIn(ss[i], code);
    ShapeOpIn(ss[i], code, op);
    IfAimsLast(JumpAims(map[], ts, |ts|), ss, |ss|, i, op);
    WrittenDistance(code, PatchAims(ts, ss), before, op);
  }

  /** After the patch pass, an instruction that is neither a skip jump nor a
      jump of an if statement keeps the offset it had before. */
  lemma UnpatchedKeeps(code: seq<Instr>, ts: seq<Try>, ss: seq<Shape>, before: seq<int>, k: nat)
    requires Written(code, PatchAims(ts, ss), before)
    requires k < |code|
    requires forall j :: 0 <= j < |ts| ==> ts[j].jump != code[k]
    requires forall j :: 0 <= j < |ss| ==> !OfShape(ss[j], code[k])
    ensures code[k].offset == before[k]
  {
    JumpAimsOutside(map[], ts, |ts|, code[k]);
    IfAimsOutside(JumpAims(map[], ts, |ts|), ss, |ss|, code[k]);
  }
}
