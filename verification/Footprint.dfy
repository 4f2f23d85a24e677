/** What compiling any tree, with errors or without, does to the instructions that are already there and
    where the new ones can lead. */
module Footprint {
  import opened Words
  import opened Machine
  import opened Source
  import opened Reference
  import opened Simulation
  import opened Patching
  import opened Emit
  import opened Generation

  // ----- instructions -----

  /** Calls and jumps of `op` lead to one of the addresses up to `n`. */
  predicate Led(op: Op, n: nat) {
    match op
    case Jmp(t) => t <= n
    case IfTrue(_, t) => t <= n
    case IfFalse(_, t) => t <= n
    case FCall(t, _) => t <= n
    case _ => true
  }

  predicate SameKind(x: Op, y: Op) {
    x.Halt? == y.Halt? && x.FuncCreate? == y.FuncCreate? && x.FuncEnd? == y.FuncEnd?
  }

  predicate Plain(op: Op) {
    !op.Halt? && !op.FuncCreate? && !op.FuncEnd?
  }

  /** The instructions whose first operand byte is part of a target. */
  predicate Leaps(op: Op) {
    op.Jmp? || op.FCall?
  }

  // ----- what the properties are about -----

  datatype Tape = Tape(ops: seq<Op>, ret: Ret, breaks: seq<nat>, continues: seq<nat>, ft: Funcs, err: bool)

  function T(g: GenState): Tape {
    Tape(g.ops, g.ret, g.breaks, g.continues, g.ft, g.err)
  }

  predicate Recorded(t: Tape, i: nat) {
    i in t.breaks || i in t.continues
  }

  /** The last instruction cannot be taken for the result of an expression that was not compiled: the
      generator returns register 0 or 255 for one. */
  predicate Firm(t: Tape) {
    t.ret == RegRet && t.ops != [] ==> Operand0(Last(t.ops)) != 0 && Operand0(Last(t.ops)) != NO_REG
  }

  /** From `a` to `b` no instruction is lost, none changes its kind, no HALT is added; none that was there
      is changed at all unless it is a recorded jump, or the last one and there was an error. */
  ghost predicate Over(a: Tape, b: Tape) {
    && |a.ops| <= |b.ops| && (a.err ==> b.err)
    && (forall i :: |a.ops| <= i < |b.ops| ==> !b.ops[i].Halt?)
    && (forall i :: 0 <= i < |a.ops| ==> SameKind(a.ops[i], b.ops[i]))
    && (forall i :: 0 <= i < |a.ops| && !Recorded(a, i) && (i + 1 < |a.ops| || Firm(a) || !b.err)
          ==> b.ops[i] == a.ops[i])
    && (forall i :: Recorded(b, i) ==> Recorded(a, i) || |a.ops| <= i)
    && (|b.ops| == |a.ops| && (Firm(a) || !b.err) ==> b.ops == a.ops && b.ret == a.ret)
  }

  /** No instruction leads behind the end, and none will. */
  ghost predicate Bound(t: Tape) {
    && (forall i :: 0 <= i < |t.ops| ==> Led(t.ops[i], |t.ops|))
    && (forall f :: f in t.ft ==> t.ft[f].addr <= |t.ops|)
    && (t.ret == RegRet && t.ops != [] ==> !Leaps(Last(t.ops)))
  }

  ghost predicate Lasting(a: Tape, b: Tape) {
    Over(a, b) && (Bound(a) ==> Bound(b))
  }

  /** Inside a function, or outside all. */
  ghost predicate Inner(a: Tape, b: Tape) {
    Lasting(a, b) && forall i :: |a.ops| <= i < |b.ops| ==> Plain(b.ops[i])
  }

  // ----- steps -----

  lemma OverTrans(a: Tape, b: Tape, c: Tape)
    requires Over(a, b) && Over(b, c)
    ensures Over(a, c)
  {
  }

  lemma LastingTrans(a: Tape, b: Tape, c: Tape)
    requires Lasting(a, b) && Lasting(b, c)
    ensures Lasting(a, c)
  {
    hide Over, Bound;
    OverTrans(a, b, c);
  }

  lemma InnerTrans(a: Tape, b: Tape, c: Tape)
    requires Inner(a, b) && Inner(b, c)
    ensures Inner(a, c)
  {
    LastingTrans(a, b, c);
    hide Lasting;
    forall i | |a.ops| <= i < |c.ops|
      ensures Plain(c.ops[i])
    {
      if i < |b.ops| {
        KindKept(b, c, i);
      }
    }
  }

  lemma KindKept(a: Tape, b: Tape, i: nat)
    requires Lasting(a, b) && i < |a.ops|
    ensures i < |b.ops| && SameKind(a.ops[i], b.ops[i])
  {
  }

  lemma InnerRefl(a: Tape)
    ensures Inner(a, a)
  {
  }

  /** An instruction emitted. */
  lemma EmitStep(a: Tape, g: GenState, op: Op)
    requires Inner(a, T(g)) && Plain(op) && (Bound(T(g)) ==> Led(op, |g.ops| + 1))
    ensures Inner(a, T(Emitted(g, op)))
  {
    hide RetAfter, Inner;
    EmitOver(g, op);
    EmitBound(g, op);
    assert Inner(T(g), T(Emitted(g, op))) by {
      JoinInner(T(g), T(Emitted(g, op)));
    }
    InnerTrans(a, T(g), T(Emitted(g, op)));
  }

  lemma JoinInner(a: Tape, b: Tape)
    requires Over(a, b) && (Bound(a) ==> Bound(b)) && forall i :: |a.ops| <= i < |b.ops| ==> Plain(b.ops[i])
    ensures Inner(a, b)
  {
    hide Over, Bound;
  }

  lemma EmitOver(g: GenState, op: Op)
    requires Plain(op)
    ensures Over(T(g), T(Emitted(g, op)))
  {
    hide RetAfter;
  }

  lemma EmitBound(g: GenState, op: Op)
    requires Bound(T(g)) ==> Led(op, |g.ops| + 1)
    ensures Bound(T(g)) ==> Bound(T(Emitted(g, op)))
  {
    var t := T(Emitted(g, op));
    if Bound(T(g)) {
      forall i | 0 <= i < |t.ops|
        ensures Led(t.ops[i], |t.ops|)
      {
        assert i < |g.ops| ==> t.ops[i] == g.ops[i];
      }
    }
  }

  /** A result moved: since `a` something was compiled, or the register stands for an error. */
  lemma MoveStep(a: Tape, g: GenState, d: nat, r: nat)
    requires Inner(a, T(g)) && (|g.ops| == |a.ops| ==> g.err && (r == 0 || r == NO_REG))
    ensures Inner(a, T(Moved(g, d, r)))
  {
    var b := T(Moved(g, d, r));
    if d == r {
    } else if g.ret == RegRet && g.ops != [] && Operand0(Last(g.ops)) == r {
      FoldStep(a, g, d, r);
    } else {
      hide Inner;
      EmitStep(a, g, MovRR(d, r));
      assert b == T(Emitted(g, MovRR(d, r)));
    }
  }

  lemma FoldStep(a: Tape, g: GenState, d: nat, r: nat)
    requires Inner(a, T(g)) && (|g.ops| == |a.ops| ==> g.err && (r == 0 || r == NO_REG))
    requires d != r && g.ret == RegRet && g.ops != [] && Operand0(Last(g.ops)) == r
    ensures Inner(a, T(Moved(g, d, r)))
  {
    hide Operand0, WithLowByte;
    var b, last := T(Moved(g, d, r)), Last(g.ops);
    assert b.ops == g.ops[|g.ops| - 1 := WithOperand0(last, d)];
    assert SameKind(last, WithOperand0(last, d));
    assert !Leaps(last) ==> forall n :: Led(last, n) ==> Led(WithOperand0(last, d), n);
    assert |g.ops| == |a.ops| ==> !Firm(a);
  }

  /** A FRET, unless one is there. */
  lemma RetStep(a: Tape, g: GenState)
    requires Inner(a, T(g))
    ensures Inner(a, T(Retted(g)))
  {
    hide Inner, Bound;
    if !(g.ops != [] && Last(g.ops) == FRet) {
      EmitStep(a, g, FRet);
    }
  }

  lemma FailStep(g: GenState)
    ensures Inner(T(g), T(Failed(g)))
  {
  }

  /** An instruction since `a` redirected. */
  lemma PatchStep(a: Tape, g: GenState, at: nat, target: nat)
    requires Inner(a, T(g)) && |a.ops| <= at < |g.ops| && target <= |g.ops|
    ensures Inner(a, T(Redirected(g, at, target)))
  {
  }

  lemma PatchIfStep(a: Tape, g: GenState, at: nat, target: nat)
    requires Inner(a, T(g)) && |a.ops| <= at < |g.ops| && target <= |g.ops|
    ensures Inner(a, T(RedirectedIf(g, at, target)))
  {
  }

  // ----- expressions -----

  /** Inner, and without instructions only an error's register. */
  ghost predicate Valued(a: Tape, to: (GenState, nat)) {
    Inner(a, T(to.0)) && (|to.0.ops| == |a.ops| ==> to.0.err && (to.1 == 0 || to.1 == NO_REG))
  }

  lemma {:induction false} ExprFoot(e: Expr, g: GenState)
    ensures Valued(T(g), ExprGen(e, g))
    decreases e, 1
  {
    hide Inner, IntoGen, RightGen, ArgsGen, Lookup, Alloc, RetAfter;
    InnerRefl(T(g));
    match e
    case Num(n) => EmitStep(T(g), Took(g, Alloc(g.held)).(release := true), MovRI(Alloc(g.held), n));
    case Bool(b) => EmitStep(T(g), Took(g, Alloc(g.held)).(release := true), MovRI(Alloc(g.held), BoolByte(b)));
    case Var(x) =>
      var l, r := Lookup(g.frames, x), Alloc(g.held);
      if l.Some? {
        EmitStep(T(g), Took(g, r).(release := true), LocalGet(r, l.value.depth, l.value.slot.idx));
      } else {
        FailStep(g);
      }
    case Neg(e1) => NegFoot(e1, g);
    case Bin(op, x, y) => BinaryFoot(op, x, y, g);
    case Call(f, args) => CallFoot(f, args, g);
  }

  lemma {:induction false} NegFoot(e1: Expr, g: GenState)
    ensures Valued(T(g), ExprGen(Neg(e1), g))
    decreases e1, 2
  {
    hide Inner, Alloc, RetAfter;
    ExprFoot(e1, g);
    var (g1, x) := ExprGen(e1, g);
    var tmp := Alloc(g1.held);
    EmitStep(T(g), Took(g1, tmp), MovRI(tmp, 0));
    var g2 := Freed(Emitted(Took(g1, tmp), MovRI(tmp, 0)), tmp);
    var r := Alloc(g2.held);
    EmitStep(T(g), Took(g2, r), Alu(Sub, r, tmp, x));
  }

  lemma {:induction false} BinaryFoot(op: Oper, x: Expr, y: Expr, g: GenState)
    ensures Valued(T(g), ExprGen(Bin(op, x, y), g))
    decreases Bin(op, x, y), 0
  {
    hide Inner, Alloc, RetAfter, IntoGen, RightGen;
    var lr := Alloc(g.held);
    var g1 := IntoGen(x, lr, Took(g, lr));
    var (g2, rr) := RightGen(y, g1);
    IntoFoot(x, lr, Took(g, lr));
    RightFoot(y, g1);
    InnerTrans(T(g), T(g1), T(g2));
    var r := Alloc(g2.held);
    EmitStep(T(g), Took(g2, r), Alu(op, r, lr, rr));
  }

  lemma {:induction false} RightFoot(y: Expr, g: GenState)
    ensures Inner(T(g), T(RightGen(y, g).0))
    decreases y, 2
  {
    hide Inner, ExprGen, Moved, Alloc;
    ExprFoot(y, g);
    var (g1, rr) := ExprGen(y, g);
    var tmp := Alloc(g1.held);
    MoveStep(T(g), Took(g1, tmp), tmp, rr);
  }

  lemma {:induction false} IntoFoot(e: Expr, d: nat, g: GenState)
    ensures Inner(T(g), T(IntoGen(e, d, g)))
    decreases e, 2
  {
    hide Inner, ExprGen, Moved;
    ExprFoot(e, g);
    var (g1, r) := ExprGen(e, g);
    MoveStep(T(g), g1, d, r);
  }

  lemma {:induction false} CallFoot(f: string, args: List<Expr>, g: GenState)
    ensures Valued(T(g), ExprGen(Call(f, args), g))
    decreases args, 2
  {
    hide Inner, ArgsGen;
    if f in g.ft && Length(args) == g.ft[f].arity {
      ArgsFoot(args, 0, g);
      var g1 := ArgsGen(args, 0, g);
      EmitStep(T(g), g1, FCall(g.ft[f].addr, g.ft[f].arity));
    } else {
      FailStep(g);
    }
  }

  lemma {:induction false} ArgsFoot(args: List<Expr>, i: nat, g: GenState)
    ensures Inner(T(g), T(ArgsGen(args, i, g)))
    decreases args, 1
  {
    hide Inner, IntoGen;
    match args
    case Nil => InnerRefl(T(g));
    case Cons(a, rest) =>
      var g1 := IntoGen(a, ArgReg(i), g);
      IntoFoot(a, ArgReg(i), g);
      ArgsFoot(rest, i + 1, g1);
      InnerTrans(T(g), T(g1), T(ArgsGen(args, i, g)));
  }

  // ----- statements -----

  lemma {:induction false} StmtFoot(s: Stmt, g: GenState)
    ensures Inner(T(g), T(StmtGen(s, g).0))
    decreases s, 1
  {
    hide Inner, ExprGen, SetGen, ReturnGen, BlockGen, IfGen, LoopGen, RetAfter;
    match s
    case ExprS(e) => ExprFoot(e, g);
    case Set(x, e, mut) => SetFoot(x, e, mut, g);
    case Block(body) => BlockFoot(body, g);
    case If(c, thn, els) => IfFoot(c, thn, els, g);
    case Loop(count, body) => LoopFoot(count, body, g);
    case Break => RecordStep(g);
    case Continue => RecordStep(g);
    case Return(e) => ReturnFoot(e, g);
  }

  lemma RecordStep(g: GenState)
    ensures Inner(T(g), T(Emitted(g.(breaks := g.breaks + [|g.ops|]), Jmp(0))))
    ensures Inner(T(g), T(Emitted(g.(continues := g.continues + [|g.ops|]), Jmp(0))))
  {
    hide Inner, RetAfter;
    var b, c := g.(breaks := g.breaks + [|g.ops|]), g.(continues := g.continues + [|g.ops|]);
    assert Inner(T(g), T(b)) && Inner(T(g), T(c)) by {
      RecordInner(g);
    }
    EmitStep(T(g), b, Jmp(0));
    EmitStep(T(g), c, Jmp(0));
  }

  lemma RecordInner(g: GenState)
    ensures Inner(T(g), T(g.(breaks := g.breaks + [|g.ops|])))
    ensures Inner(T(g), T(g.(continues := g.continues + [|g.ops|])))
  {
  }

  lemma SetFoot(x: string, e: Expr, mut: bool, g: GenState)
    ensures Inner(T(g), T(SetGen(x, e, mut, g)))
  {
    hide Inner, ExprGen, FindVar, RetAfter;
    ExprFoot(e, g);
    var (g1, r) := ExprGen(e, g);
    var l := Lookup(g.frames, x);
    FailStep(g);
    if l.Some? {
      if l.value.slot.mut {
        var fst := l.value.depth;
        var frames := if x in g1.frames[fst].locals then g1.frames
                      else g1.frames[fst := g1.frames[fst].(locals := g1.frames[fst].locals[x := Slot(false, 0)])];
        EmitStep(T(g), g1.(frames := frames), LocalSet(fst, frames[fst].locals[x].idx, r));
      }
    } else {
      var top := Last(g1.frames);
      var g2 := if x in top.locals then Failed(g1) else g1;
      FailStep(g1);
      InnerRefl(T(g1));
      InnerTrans(T(g), T(g1), T(g2));
      EmitStep(T(g), g2.(frames := TopFrame(g1.frames, NewVar(top, x, mut))), LocalSet(0, top.used, r));
    }
  }

  lemma ReturnFoot(e: Expr, g: GenState)
    ensures Inner(T(g), T(ReturnGen(e, g)))
  {
    hide Inner, ExprGen, Moved, Retted;
    ExprFoot(e, g);
    var (g1, r) := ExprGen(e, g);
    MoveStep(T(g), g1, 0, r);
    RetStep(T(g), Moved(g1, 0, r));
  }

  lemma {:induction false} ListFoot(body: List<Stmt>, r: nat, g: GenState)
    ensures Inner(T(g), T(ListGen(body, r, g).0))
    decreases body, 1
  {
    hide Inner, StmtGen;
    match body
    case Nil => InnerRefl(T(g));
    case Cons(s, rest) =>
      var (g1, r1) := StmtGen(s, g);
      StmtFoot(s, g);
      ListFoot(rest, r1, g1);
      InnerTrans(T(g), T(g1), T(ListGen(rest, r1, g1).0));
  }

  lemma {:induction false} BlockFoot(body: List<Stmt>, g: GenState)
    ensures Inner(T(g), T(BlockGen(body, g).0))
    decreases body, 2
  {
    hide Inner, ListGen;
    ListFoot(body, 0, g);
  }

  lemma {:induction false} IfFoot(c: Expr, thn: List<Stmt>, els: List<Stmt>, g: GenState)
    ensures Inner(T(g), T(IfGen(c, thn, els, g)))
    decreases If(c, thn, els), 0
  {
    hide Inner, ExprGen, BlockGen;
    var (g1, r) := ExprGen(c, g);
    ExprFoot(c, g);
    OpenFoot(T(g), r, g1);
    var g2 := IfOpen(r, g1);
    BlockFoot(thn, g2);
    var g3 := BlockGen(thn, g2).0;
    InnerTrans(T(g), T(g2), T(g3));
    ElseFoot(T(g), |g1.ops| + 1, g3);
    var g4 := IfElse(|g1.ops| + 1, g3);
    BlockFoot(els, g4);
    var g5 := BlockGen(els, g4).0;
    InnerTrans(T(g), T(g4), T(g5));
    PatchStep(T(g), g5, |g3.ops|, |g5.ops|);
  }

  lemma OpenFoot(a: Tape, r: nat, g: GenState)
    requires Inner(a, T(g)) && |a.ops| <= |g.ops|
    ensures Inner(a, T(IfOpen(r, g)))
  {
    hide Inner, RetAfter, SetIfTarget;
    EmitStep(a, g, IfTrue(r, 0));
    EmitStep(a, Emitted(g, IfTrue(r, 0)), Jmp(0));
    PatchIfStep(a, Emitted(Emitted(g, IfTrue(r, 0)), Jmp(0)), |g.ops|, |g.ops| + 2);
  }

  lemma ElseFoot(a: Tape, at: nat, g: GenState)
    requires Inner(a, T(g)) && |a.ops| <= at < |g.ops|
    ensures Inner(a, T(IfElse(at, g)))
  {
    hide Inner, RetAfter;
    EmitStep(a, g, Jmp(0));
    PatchStep(a, Emitted(g, Jmp(0)), at, |g.ops| + 1);
  }

  lemma {:induction false} LoopFoot(count: Option<Expr>, body: List<Stmt>, g: GenState)
    ensures Inner(T(g), T(LoopGen(count, body, g)))
    decreases Loop(count, body), 0
  {
    hide Inner, ExprGen, BlockGen, LoopClose;
    var (g1, r) := CountGen(count, g);
    InnerRefl(T(g));
    if count.Some? {
      ExprFoot(count.value, g);
    }
    if r != NO_REG {
      EmitStep(T(g), g1, IfFalse(r, 0));
    }
    var g2 := TestGen(r, g1);
    BlockFoot(body, g2);
    var g3 := BlockGen(body, g2).0;
    InnerTrans(T(g), T(g2), T(g3));
    CloseFoot(T(g), r, |g1.ops|, g3);
  }

  lemma CloseFoot(a: Tape, r: nat, start: nat, g: GenState)
    requires Inner(a, T(g)) && |a.ops| <= start <= |g.ops| && (r != NO_REG ==> start < |g.ops|)
    ensures Inner(a, T(LoopClose(r, start, g)))
  {
    hide Inner, RetAfter;
    var g0 := if r != NO_REG then Emitted(g, Dec(r)) else g;
    if r != NO_REG {
      EmitStep(a, g, Dec(r));
    }
    EmitStep(a, g0, Jmp(start));
    var g1 := Emitted(g0, Jmp(start));
    PatchedStep(a, g1, g.breaks, |g1.ops|);
    var g2 := g1.(ops := Patched(g1.ops, 0, g.breaks, |g1.ops|, [], 0));
    PatchedStep(a, g2, g.continues, |g.ops|);
    var g3 := g2.(ops := Patched(g2.ops, 0, g.continues, |g.ops|, [], 0));
    if r != NO_REG {
      PatchIfStep(a, g3, start, |g1.ops|);
    }
    var g4 := if r != NO_REG then RedirectedIf(g3, start, |g1.ops|) else g3;
    ClearStep(a, g4);
    assert T(LoopClose(r, start, g)) == T(g4.(breaks := [], continues := []));
  }

  /** Recorded jumps redirected. */
  lemma PatchedStep(a: Tape, g: GenState, points: seq<nat>, target: nat)
    requires Inner(a, T(g)) && target <= |g.ops| && |a.ops| < |g.ops|
    requires points == g.breaks || points == g.continues
    ensures Inner(a, T(g.(ops := Patched(g.ops, 0, points, target, [], 0))))
  {
    var ops := Patched(g.ops, 0, points, target, [], 0);
    assert forall i :: i in points ==> Recorded(T(g), i);
    forall i | 0 <= i < |g.ops|
      ensures ops[i] == if i in points then PatchJmp(g.ops[i], target) else g.ops[i]
    {
    }
    assert Leaps(Last(ops)) == Leaps(Last(g.ops));
  }

  lemma ClearStep(a: Tape, g: GenState)
    requires Inner(a, T(g))
    ensures Inner(a, T(g.(breaks := [], continues := [])))
  {
  }

  // ----- declarations -----

  predicate EndAfter(ops: seq<Op>, i: nat) {
    exists j :: i < j < |ops| && ops[j].FuncEnd?
  }

  /** Every FUNC_CREATE has a FUNC_END behind it. */
  ghost predicate Skips(ops: seq<Op>) {
    forall i :: 0 <= i < |ops| && ops[i].FuncCreate? ==> EndAfter(ops, i)
  }

  lemma OpenDefFoot(f: string, params: seq<string>, g: GenState)
    ensures Lasting(T(g), T(OpenGen(f, params, g)))
  {
    hide Distinct;
    var to := OpenGen(f, params, g);
    if Bound(T(g)) {
      forall i | 0 <= i < |to.ops|
        ensures Led(to.ops[i], |to.ops|)
      {
        assert i < |g.ops| ==> to.ops[i] == g.ops[i];
      }
      assert params != [] ==> to.ret != RegRet;
    }
  }

  lemma EndFoot(a: Tape, g: GenState)
    requires Lasting(a, T(g)) && |g.frames| > 1
    ensures Lasting(a, T(CloseGen(g)))
  {
    hide Over, Bound, Retted, RetAfter;
    InnerRefl(T(g));
    RetStep(T(g), g);
    var g1 := Retted(g);
    LastingTrans(a, T(g), T(g1));
    assert Over(T(g1), T(Emitted(g1, FuncEnd))) by {
      EndOver(g1);
    }
    EmitBound(g1, FuncEnd);
    LastingTrans(a, T(g1), T(Emitted(g1, FuncEnd)));
  }

  lemma EndOver(g: GenState)
    ensures Over(T(g), T(Emitted(g, FuncEnd)))
  {
  }

  /** A declaration or a statement at the top level. */
  lemma ItemFoot(item: Item, g: GenState)
    requires |g.frames| == 1
    ensures Lasting(T(g), T(ItemGen(item, g).0))
    ensures Skips(g.ops) ==> Skips(ItemGen(item, g).0.ops)
  {
    hide Lasting, StmtGen, ListGen, OpenGen, CloseGen, Skips;
    match item
    case Def(f, params, body) =>
      var g1 := OpenGen(f, params, g);
      OpenDefFoot(f, params, g);
      ListFoot(body, 0, g1);
      var g2 := ListGen(body, 0, g1).0;
      LastingTrans(T(g), T(g1), T(g2));
      EndFoot(T(g), g2);
      DefSkips(f, params, body, g);
    case Do(s) =>
      StmtFoot(s, g);
      InnerSkips(T(g), T(StmtGen(s, g).0));
  }

  lemma InnerSkips(a: Tape, b: Tape)
    requires Inner(a, b)
    ensures Skips(a.ops) ==> Skips(b.ops)
  {
    hide Lasting, Skips;
    if Skips(a.ops) {
      assert Skips(b.ops) by {
        forall i | 0 <= i < |b.ops| && b.ops[i].FuncCreate?
          ensures EndAfter(b.ops, i)
        {
          if i < |a.ops| {
            KindKept(a, b, i);
            EndKept(a, b, i);
          }
        }
        MakeSkips(b.ops);
      }
    }
  }

  lemma MakeSkips(ops: seq<Op>)
    requires forall i :: 0 <= i < |ops| && ops[i].FuncCreate? ==> EndAfter(ops, i)
    ensures Skips(ops)
  {
  }

  lemma EndKept(a: Tape, b: Tape, i: nat)
    requires Lasting(a, b) && Skips(a.ops) && i < |a.ops| && a.ops[i].FuncCreate?
    ensures EndAfter(b.ops, i)
  {
    hide Lasting;
    assert EndAfter(a.ops, i);
    var j :| i < j < |a.ops| && a.ops[j].FuncEnd?;
    KindKept(a, b, j);
  }

  lemma DefSkips(f: string, params: seq<string>, body: List<Stmt>, g: GenState)
    requires |g.frames| == 1
    ensures Skips(g.ops) ==> Skips(ItemGen(Def(f, params, body), g).0.ops)
  {
    hide Lasting, ListGen, Skips, Distinct;
    var to := ItemGen(Def(f, params, body), g).0;
    var g1 := OpenGen(f, params, g);
    var g2 := ListGen(body, 0, g1).0;
    OpenDefFoot(f, params, g);
    ListFoot(body, 0, g1);
    EndFoot(T(g2), g2) by {
      InnerRefl(T(g2));
    }
    LastingTrans(T(g), T(g1), T(g2));
    LastingTrans(T(g), T(g2), T(to));
    assert Last(to.ops).FuncEnd?;
    if Skips(g.ops) {
      forall i | 0 <= i < |to.ops| && to.ops[i].FuncCreate?
        ensures EndAfter(to.ops, i)
      {
        if i < |g.ops| {
          KindKept(T(g), T(to), i);
          EndKept(T(g), T(to), i);
        } else {
          assert i < |to.ops| - 1;
        }
      }
      MakeSkips(to.ops);
    }
  }

  // ----- pending jumps -----

  /** The lists as they were, or empty. */
  predicate Settled(g: GenState, to: GenState) {
    to.breaks == to.continues == [] || (to.breaks == g.breaks && to.continues == g.continues)
  }

  /** A statement whose breaks and continues stand in loops of its own records nothing that stays, not
      even where it has errors. */
  lemma {:induction false} StmtSettles(s: Stmt, g: GenState)
    requires !Pends(s)
    ensures Settled(g, StmtGen(s, g).0)
    decreases s, 1
  {
    hide ExprGen, BlockGen;
    match s
    case Block(body) => BlockSettles(body, g);
    case If(c, thn, els) =>
      var (g1, r) := ExprGen(c, g);
      BlockSettles(thn, IfOpen(r, g1));
      BlockSettles(els, IfElse(|g1.ops| + 1, BlockGen(thn, IfOpen(r, g1)).0));
    case _ =>
  }

  lemma {:induction false} BlockSettles(body: List<Stmt>, g: GenState)
    requires !ListPends(body)
    ensures Settled(g, BlockGen(body, g).0)
    decreases body, 1
  {
    ListSettles(body, 0, g);
  }

  lemma {:induction false} ListSettles(body: List<Stmt>, r: nat, g: GenState)
    requires !ListPends(body)
    ensures Settled(g, ListGen(body, r, g).0)
    decreases body, 0
  {
    hide StmtGen;
    match body
    case Nil =>
    case Cons(s, rest) =>
      StmtSettles(s, g);
      ListSettles(rest, StmtGen(s, g).1, StmtGen(s, g).0);
  }
}
