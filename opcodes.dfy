/** Instructions of the target (Java) machine as the assembler sees them, and
    the control-structure records that point at instructions.

    The assembler treats an instruction as opaque apart from its opcode kind,
    its stack effect, its byte length, three fields that the layout and patch
    passes write (`codeIndex`, `codeOffset`, `offset`) and the list of
    back-references: the (holder, field) pairs that were resolved to it. */
module Opcodes {

  datatype Option<T> = None | Some(value: T)

  /** The mnemonic of an opcode the assembler does not tell apart: never one
      of the three it does. */
  type Mnemonic = s: string | s != "RETURN" && s != "ARETURN" && s != "ACONST_NULL" witness "NOP"

  /** The opcode kinds the assembler tells apart; every other opcode is `Other`. */
  datatype Kind = Return | AReturn | AConstNull | Other(mnemonic: Mnemonic)

  predicate IsReturn(k: Kind) {
    k == Return || k == AReturn
  }

  /** A byte length. Every JVM instruction encodes to at least its opcode
      byte, so no instruction is empty (and none tests false as an operand
      of `if`). */
  type Length = n: nat | n > 0 witness 1

  class Instr {
    const kind: Kind
    /** Byte length of the encoded instruction (`len(instruction)`). */
    const size: Length
    /** Net change of the operand-stack depth when the instruction runs. */
    const stackEffect: int
    var codeIndex: int
    var codeOffset: int
    /** Relative jump distance, written by the patch pass. */
    var offset: int
    /** Back-references: every (holder, field) that was resolved to this instruction. */
    var references: seq<Ref>

    constructor (kind: Kind, size: Length, stackEffect: int)
      ensures this.kind == kind && this.size == size && this.stackEffect == stackEffect
      ensures references == []
    {
      this.kind := kind;
      this.size := size;
      this.stackEffect := stackEffect;
      references := [];
    }
  }

  /** A fresh void `RETURN`: one byte long, leaves the operand stack unchanged
      (section 6.5 of the Java Virtual Machine Specification). */
  method NewReturn() returns (op: Instr)
    ensures fresh(op)
    ensures op.kind == Return && op.size == 1 && op.stackEffect == 0
    ensures op.references == []
  {
    op := new Instr(Return, 1, 0);
  }

  /** One `except` clause of a try statement. */
  class Handler {
    var startOp: Instr?
    /** The caught exception's type descriptor; `None` for a catch-all. */
    const descriptor: Option<string>

    constructor (descriptor: Option<string>)
      ensures this.descriptor == descriptor && startOp == null
    {
      this.descriptor := descriptor;
      startOp := null;
    }
  }

  /** A try statement: the guarded range runs from `startOp` up to the jump
      `jumpOp` that skips the handlers and lands on `endOp`. */
  class TryCatch {
    var startOp: Instr?
    var endOp: Instr?
    var jumpOp: Instr?
    const handlers: seq<Handler>

    constructor (handlers: seq<Handler>)
      ensures this.handlers == handlers
      ensures startOp == null && endOp == null && jumpOp == null
    {
      this.handlers := handlers;
      startOp, endOp, jumpOp := null, null, null;
    }
  }

  /** One `elif`/`else` branch of an if statement. */
  class ElseIf {
    var ifOp: Instr?
    var jumpOp: Instr?

    constructor ()
      ensures ifOp == null && jumpOp == null
    {
      ifOp, jumpOp := null, null;
    }
  }

  /** An if statement: every branch jump lands on the join point `endOp`. */
  class IfBlock {
    var ifOp: Instr?
    var jumpOp: Instr?
    var endOp: Instr?
    const elifs: seq<ElseIf>

    constructor (elifs: seq<ElseIf>)
      ensures this.elifs == elifs
      ensures ifOp == null && jumpOp == null && endOp == null
    {
      this.elifs := elifs;
      ifOp, jumpOp, endOp := null, null, null;
    }
  }

  /** A (holder, field name) pair: one constructor per record class and
      instruction-valued attribute of that class. */
  datatype Ref =
    | TryStart(t: TryCatch)
    | TryEnd(t: TryCatch)
    | TryJump(t: TryCatch)
    | HandlerStart(h: Handler)
    | IfOp(b: IfBlock)
    | IfJump(b: IfBlock)
    | IfEnd(b: IfBlock)
    | ElifOp(e: ElseIf)
    | ElifJump(e: ElseIf)
  {
    /** The object whose attribute this pair names. */
    function Holder(): (o: object)
      ensures o is TryCatch || o is Handler || o is IfBlock || o is ElseIf
      ensures !(o is Instr)
    {
      match this
      case TryStart(t) => t
      case TryEnd(t) => t
      case TryJump(t) => t
      case HandlerStart(h) => h
      case IfOp(b) => b
      case IfJump(b) => b
      case IfEnd(b) => b
      case ElifOp(e) => e
      case ElifJump(e) => e
    }

    /** `getattr(obj, attr)` */
    function Target(): Instr?
      reads Holder()
    {
      match this
      case TryStart(t) => t.startOp
      case TryEnd(t) => t.endOp
      case TryJump(t) => t.jumpOp
      case HandlerStart(h) => h.startOp
      case IfOp(b) => b.ifOp
      case IfJump(b) => b.jumpOp
      case IfEnd(b) => b.endOp
      case ElifOp(e) => e.ifOp
      case ElifJump(e) => e.jumpOp
    }
  }

  /** The holder objects named by a list of pairs. */
  function Holders(rs: seq<Ref>): (hs: set<object>)
    ensures forall r :: r in rs ==> r.Holder() in hs
    ensures forall o :: o in hs ==> exists r :: r in rs && r.Holder() == o
  {
    set r | r in rs :: r.Holder()
  }

  /** `setattr(obj, attr, op)`: the named attribute now holds `op`; every other
      attribute of the same holder keeps its value. */
  method SetAttr(r: Ref, op: Instr?)
    modifies r.Holder()
    ensures r.Target() == op
    ensures forall s: Ref :: s.Holder() == r.Holder() && s != r ==> s.Target() == old(s.Target())
  {
    match r
    case TryStart(t) => t.startOp := op;
    case TryEnd(t) => t.endOp := op;
    case TryJump(t) => t.jumpOp := op;
    case HandlerStart(h) => h.startOp := op;
    case IfOp(b) => b.ifOp := op;
    case IfJump(b) => b.jumpOp := op;
    case IfEnd(b) => b.endOp := op;
    case ElifOp(e) => e.ifOp := op;
    case ElifJump(e) => e.jumpOp := op;
  }
}
