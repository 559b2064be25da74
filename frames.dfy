/** Field-level snapshots of the attributes of record holders. The patch
    pass writes only instruction fields; these definitions let a caller state
    that every attribute of a given set of holders keeps its value across it,
    with a frame that names the holders' fields directly. */
module Frames {
  import opened Opcodes

  /** The try statements among the holders of `rs`. */
  function TryHolders(rs: seq<Ref>): set<TryCatch> {
    set r | r in rs && (r.TryStart? || r.TryEnd? || r.TryJump?) :: r.t
  }

  /** The handlers among the holders of `rs`. */
  function HandlerHolders(rs: seq<Ref>): set<Handler> {
    set r | r in rs && r.HandlerStart? :: r.h
  }

  /** The if statements among the holders of `rs`. */
  function IfHolders(rs: seq<Ref>): set<IfBlock> {
    set r | r in rs && (r.IfOp? || r.IfJump? || r.IfEnd?) :: r.b
  }

  /** The `elif`/`else` branches among the holders of `rs`. */
  function ElifHolders(rs: seq<Ref>): set<ElseIf> {
    set r | r in rs && (r.ElifOp? || r.ElifJump?) :: r.e
  }

  /** The holder of `r` is among `ts`, `hs`, `bs` and `es`. */
  predicate HeldIn(r: Ref, ts: set<TryCatch>, hs: set<Handler>, bs: set<IfBlock>, es: set<ElseIf>) {
    if r.TryStart? || r.TryEnd? || r.TryJump? then r.t in ts
    else if r.HandlerStart? then r.h in hs
    else if r.IfOp? || r.IfJump? || r.IfEnd? then r.b in bs
    else r.e in es
  }

  /** The pairs naming attributes of the try statements `ts`. */
  function TryRefs(ts: set<TryCatch>): (all: set<Ref>)
    ensures forall r :: r in all ==> (r.TryStart? || r.TryEnd? || r.TryJump?) && r.t in ts
  {
    (set t | t in ts :: TryStart(t)) + (set t | t in ts :: TryEnd(t)) + (set t | t in ts :: TryJump(t))
  }

  /** The pairs naming attributes of the handlers `hs`. */
  function HandlerRefs(hs: set<Handler>): (all: set<Ref>)
    ensures forall r :: r in all ==> r.HandlerStart? && r.h in hs
  {
    set h | h in hs :: HandlerStart(h)
  }

  /** The pairs naming attributes of the if statements `bs`. */
  function IfRefs(bs: set<IfBlock>): (all: set<Ref>)
    ensures forall r :: r in all ==> (r.IfOp? || r.IfJump? || r.IfEnd?) && r.b in bs
  {
    (set b | b in bs :: IfOp(b)) + (set b | b in bs :: IfJump(b)) + (set b | b in bs :: IfEnd(b))
  }

  /** The pairs naming attributes of the `elif`/`else` branches `es`. */
  function ElifRefs(es: set<ElseIf>): (all: set<Ref>)
    ensures forall r :: r in all ==> (r.ElifOp? || r.ElifJump?) && r.e in es
  {
    (set e | e in es :: ElifOp(e)) + (set e | e in es :: ElifJump(e))
  }

  /** Every pair naming an attribute of a holder in `ts`, `hs`, `bs` or `es`. */
  function AllRefs(ts: set<TryCatch>, hs: set<Handler>, bs: set<IfBlock>, es: set<ElseIf>): (all: set<Ref>)
    ensures forall r :: r in all ==> HeldIn(r, ts, hs, bs, es)
  {
    TryRefs(ts) + HandlerRefs(hs) + IfRefs(bs) + ElifRefs(es)
  }

  /** Every pair whose holder is among `ts`, `hs`, `bs` and `es` is in `AllRefs`. */
  lemma HeldInAllRefs(ts: set<TryCatch>, hs: set<Handler>, bs: set<IfBlock>, es: set<ElseIf>)
    ensures forall r: Ref :: HeldIn(r, ts, hs, bs, es) ==> r in AllRefs(ts, hs, bs, es)
  {
    forall r: Ref | HeldIn(r, ts, hs, bs, es)
      ensures r in AllRefs(ts, hs, bs, es)
    {
      match r
      case TryStart(t) => assert r in TryRefs(ts);
      case TryEnd(t) => assert r in TryRefs(ts);
      case TryJump(t) => assert r in TryRefs(ts);
      case HandlerStart(h) => assert r in HandlerRefs(hs);
      case IfOp(b) => assert r in IfRefs(bs);
      case IfJump(b) => assert r in IfRefs(bs);
      case IfEnd(b) => assert r in IfRefs(bs);
      case ElifOp(e) => assert r in ElifRefs(es);
      case ElifJump(e) => assert r in ElifRefs(es);
    }
  }

  /** Every pair whose holder is a holder of `rs` has that holder among
      `TryHolders(rs)`, `HandlerHolders(rs)`, `IfHolders(rs)` and `ElifHolders(rs)`. */
  lemma HoldersCover(rs: seq<Ref>)
    ensures forall s: Ref :: s.Holder() in Holders(rs) ==>
      HeldIn(s, TryHolders(rs), HandlerHolders(rs), IfHolders(rs), ElifHolders(rs))
  {
    forall s: Ref | s.Holder() in Holders(rs)
      ensures HeldIn(s, TryHolders(rs), HandlerHolders(rs), IfHolders(rs), ElifHolders(rs))
    {
      var r :| r in rs && r.Holder() == s.Holder();
    }
  }

  /** Every pair `r` of `m` names an attribute that holds `m[r]`, where `ts`,
      `hs`, `bs` and `es` hold the pairs' holders. It reads only the
      instruction-valued attributes of those holders, so a step that writes
      nothing but instruction fields keeps it. */
  ghost predicate Holding(m: map<Ref, Instr?>, ts: set<TryCatch>, hs: set<Handler>, bs: set<IfBlock>, es: set<ElseIf>)
    reads ts`startOp, ts`endOp, ts`jumpOp, hs`startOp, bs`ifOp, bs`jumpOp, bs`endOp, es`ifOp, es`jumpOp
  {
    forall r :: r in m ==>
      match r
      case TryStart(t) => t in ts && t.startOp == m[r]
      case TryEnd(t) => t in ts && t.endOp == m[r]
      case TryJump(t) => t in ts && t.jumpOp == m[r]
      case HandlerStart(h) => h in hs && h.startOp == m[r]
      case IfOp(b) => b in bs && b.ifOp == m[r]
      case IfJump(b) => b in bs && b.jumpOp == m[r]
      case IfEnd(b) => b in bs && b.endOp == m[r]
      case ElifOp(e) => e in es && e.ifOp == m[r]
      case ElifJump(e) => e in es && e.jumpOp == m[r]
  }

  /** A map of the pairs of some holders to what `getattr` gives for them is
      `Holding` of those holders. */
  lemma TargetsHolding(m: map<Ref, Instr?>, ts: set<TryCatch>, hs: set<Handler>, bs: set<IfBlock>, es: set<ElseIf>)
    requires forall r :: r in m ==> HeldIn(r, ts, hs, bs, es) && r.Target() == m[r]
    ensures Holding(m, ts, hs, bs, es)
  {
  }

  /** When `Holding` holds, `getattr` gives `m[r]` for every pair `r` of `m`. */
  lemma HoldingTargets(m: map<Ref, Instr?>, ts: set<TryCatch>, hs: set<Handler>, bs: set<IfBlock>, es: set<ElseIf>)
    requires Holding(m, ts, hs, bs, es)
    ensures forall r :: r in m ==> r.Target() == m[r]
  {
  }

  /** The holders sorted by class are holders of `rs`. */
  lemma SortedHolders(rs: seq<Ref>)
    ensures forall t :: t in TryHolders(rs) ==> t in Holders(rs)
    ensures forall h :: h in HandlerHolders(rs) ==> h in Holders(rs)
    ensures forall b :: b in IfHolders(rs) ==> b in Holders(rs)
    ensures forall e :: e in ElifHolders(rs) ==> e in Holders(rs)
  {
    forall t | t in TryHolders(rs) ensures t in Holders(rs) {
      var q :| q in rs && (q.TryStart? || q.TryEnd? || q.TryJump?) && q.t == t;
      assert q.Holder() == t;
    }
    forall h | h in HandlerHolders(rs) ensures h in Holders(rs) {
      var q :| q in rs && q.HandlerStart? && q.h == h;
      assert q.Holder() == h;
    }
    forall b | b in IfHolders(rs) ensures b in Holders(rs) {
      var q :| q in rs && (q.IfOp? || q.IfJump? || q.IfEnd?) && q.b == b;
      assert q.Holder() == b;
    }
    forall e | e in ElifHolders(rs) ensures e in Holders(rs) {
      var q :| q in rs && (q.ElifOp? || q.ElifJump?) && q.e == e;
      assert q.Holder() == e;
    }
  }

  /** What every attribute of the holders of `rs` holds. */
  ghost function Snapshot(rs: seq<Ref>): map<Ref, Instr?>
    reads Holders(rs)
  {
    SortedHolders(rs);
    map r | r in AllRefs(TryHolders(rs), HandlerHolders(rs), IfHolders(rs), ElifHolders(rs)) :: r.Target()
  }

  /** `Snapshot(rs)` covers every attribute of the holders of `rs`, and
      `Holding` keeps it through steps that leave those attributes alone. */
  lemma SnapshotHolding(rs: seq<Ref>)
    ensures Holding(Snapshot(rs), TryHolders(rs), HandlerHolders(rs), IfHolders(rs), ElifHolders(rs))
    ensures forall s: Ref :: s.Holder() in Holders(rs) ==> s in Snapshot(rs) && Snapshot(rs)[s] == s.Target()
  {
    TargetsHolding(Snapshot(rs), TryHolders(rs), HandlerHolders(rs), IfHolders(rs), ElifHolders(rs));
    HoldersCover(rs);
    HeldInAllRefs(TryHolders(rs), HandlerHolders(rs), IfHolders(rs), ElifHolders(rs));
  }
}
