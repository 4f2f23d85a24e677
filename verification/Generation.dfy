/** The generator as a function of its whole state, for every tree, with errors or without: what is
    appended, rewritten, taken, released and recorded at each step. */
module Generation {
  import opened Words
  import opened Machine
  import opened Source
  import opened Reference
  import opened Simulation
  import opened Patching
  import opened Programs
  import opened Emit
  import opened Emission

  datatype GenState = GenState(ops: seq<Op>, ret: Ret, held: Held, frames: Frames, ft: Funcs, breaks: seq<nat>,
                     continues: seq<nat>, release: bool, err: bool)

  const BLANK: GenState := GenState([], NoRet, {0}, [CFrame(map[], 0)], map[], [], [], false, false)

  // ----- pieces -----

  function Emitted(g: GenState, op: Op): GenState {
    g.(ops := g.ops + [op], ret := RetAfter(op, g.ret))
  }

  function Moved(g: GenState, d: nat, r: nat): (to: GenState)
    ensures |to.ops| >= |g.ops|
  {
    g.(ops := MoveOps(g.ops, g.ret, d, r), ret := if d == r then g.ret else RegRet)
  }

  function Retted(g: GenState): GenState {
    if g.ops != [] && Last(g.ops) == FRet then g else Emitted(g, FRet)
  }

  function Took(g: GenState, r: nat): GenState {
    g.(held := Hold(g.held, r))
  }

  function Freed(g: GenState, r: nat): GenState {
    g.(held := Release(g.held, r))
  }

  /** A result register is released unless the last literal or operator forbids it. */
  function Done(g: GenState, r: nat): GenState {
    if g.release then Freed(g, r) else g
  }

  function Failed(g: GenState): GenState {
    g.(err := true)
  }

  function Redirected(g: GenState, at: nat, target: nat): GenState
    requires at < |g.ops|
  {
    g.(ops := g.ops[at := PatchJmp(g.ops[at], target)])
  }

  function RedirectedIf(g: GenState, at: nat, target: nat): GenState
    requires at < |g.ops|
  {
    g.(ops := g.ops[at := SetIfTarget(g.ops[at], target)])
  }

  /** An expression leaves these alone. */
  predicate Beside(g: GenState, to: GenState) {
    && |to.ops| >= |g.ops|
    && to.frames == g.frames && to.ft == g.ft && to.breaks == g.breaks && to.continues == g.continues
  }

  // ----- expressions -----

  /** The state after an expression, and the register of its result. */
  function ExprGen(e: Expr, g: GenState): (to: (GenState, nat))
    ensures Beside(g, to.0)
    decreases e, 1
  {
    match e
    case Num(n) =>
      var r := Alloc(g.held);
      (Emitted(Took(g, r).(release := true), MovRI(r, n)), r)
    case Bool(b) =>
      var r := Alloc(g.held);
      (Emitted(Took(g, r).(release := true), MovRI(r, BoolByte(b))), r)
    case Var(x) =>
      var r := Alloc(g.held);
      var l := Lookup(g.frames, x);
      if l.Some?
      then (Emitted(Took(g, r).(release := true), LocalGet(r, l.value.depth, l.value.slot.idx)), r)
      else (Failed(Freed(Took(g, r), r).(release := true)), NO_REG)
    case Neg(e1) =>
      var (g1, x) := ExprGen(e1, g);
      var tmp := Alloc(g1.held);
      var g2 := Freed(Emitted(Took(g1, tmp), MovRI(tmp, 0)), tmp);
      var r := Alloc(g2.held);
      (Done(Emitted(Took(g2, r), Alu(Sub, r, tmp, x)), x).(release := true), r)
    case Bin(op, x, y) =>
      var lr := Alloc(g.held);
      var (g2, rr) := RightGen(y, IntoGen(x, lr, Took(g, lr)));
      var r := Alloc(g2.held);
      (Freed(Freed(Emitted(Took(g2, r), Alu(op, r, lr, rr)), lr), rr).(release := true), r)
    case Call(f, args) =>
      if f !in g.ft then (Failed(g), 0)
      else if Length(args) != g.ft[f].arity then (Failed(g), NO_REG)
      else (Emitted(ArgsGen(args, 0, g), FCall(g.ft[f].addr, g.ft[f].arity)), 0)
  }

  /** The right operand goes to a register taken after it was evaluated. */
  function RightGen(y: Expr, g: GenState): (to: (GenState, nat))
    ensures Beside(g, to.0)
    decreases y, 2
  {
    var (g1, rr) := ExprGen(y, g);
    var tmp := Alloc(g1.held);
    (Done(Moved(Took(g1, tmp), tmp, rr), rr), tmp)
  }

  /** Evaluate, move the result to register `d`, release where it was. */
  function IntoGen(e: Expr, d: nat, g: GenState): (to: GenState)
    ensures Beside(g, to)
    decreases e, 2
  {
    var (g1, r) := ExprGen(e, g);
    Done(Moved(g1, d, r), r)
  }

  function ArgsGen(args: List<Expr>, i: nat, g: GenState): (to: GenState)
    ensures Beside(g, to)
    decreases args, 1
  {
    match args
    case Nil => g
    case Cons(a, rest) => ArgsGen(rest, i + 1, IntoGen(a, ArgReg(i), g))
  }

  // ----- statements -----

  function SetGen(x: string, e: Expr, mut: bool, g: GenState): (to: GenState)
    ensures |to.ops| >= |g.ops| && |to.frames| == |g.frames|
    ensures to.ft == g.ft && to.breaks == g.breaks && to.continues == g.continues
  {
    var l := Lookup(g.frames, x);
    if l.Some? && !l.value.slot.mut then Failed(g)
    else
      var (g1, r) := ExprGen(e, g);
      if l.Some? then
        var fst := l.value.depth;
        var frames := if x in g1.frames[fst].locals then g1.frames
                      else g1.frames[fst := g1.frames[fst].(locals := g1.frames[fst].locals[x := Slot(false, 0)])];
        Freed(Emitted(g1.(frames := frames), LocalSet(fst, frames[fst].locals[x].idx, r)), r)
      else
        var top := Last(g1.frames);
        var g2 := if x in top.locals then Failed(g1) else g1;
        Freed(Emitted(g2.(frames := TopFrame(g1.frames, NewVar(top, x, mut))), LocalSet(0, top.used, r)), r)
  }

  function ReturnGen(e: Expr, g: GenState): (to: GenState)
    ensures Beside(g, to)
  {
    var (g1, r) := ExprGen(e, g);
    Done(Retted(Moved(g1, 0, r)), r)
  }

  /** A statement leaves these alone; what it recorded are addresses of instructions. */
  predicate Around(g: GenState, to: GenState) {
    && |to.ops| >= |g.ops| && |to.frames| == |g.frames| && to.ft == g.ft
  }

  /** The state after a statement, and the register that `sub_gen` returns for it; 255 for none. */
  function StmtGen(s: Stmt, g: GenState): (to: (GenState, nat))
    ensures Around(g, to.0)
    decreases s, 1
  {
    match s
    case ExprS(e) => ExprGen(e, g)
    case Set(x, e, mut) => (SetGen(x, e, mut, g), NO_REG)
    case Block(body) => BlockGen(body, g)
    case If(c, thn, els) => (IfGen(c, thn, els, g), NO_REG)
    case Loop(count, body) => (LoopGen(count, body, g), NO_REG)
    case Break => (Emitted(g.(breaks := g.breaks + [|g.ops|]), Jmp(0)), NO_REG)
    case Continue => (Emitted(g.(continues := g.continues + [|g.ops|]), Jmp(0)), NO_REG)
    case Return(e) => (ReturnGen(e, g), 0)
  }

  function ListGen(body: List<Stmt>, r: nat, g: GenState): (to: (GenState, nat))
    ensures Around(g, to.0)
    decreases body, 0
  {
    match body
    case Nil => (g, r)
    case Cons(s, rest) =>
      var (g1, r1) := StmtGen(s, g);
      ListGen(rest, r1, g1)
  }

  /** The names of the innermost frame are put back. */
  function BlockGen(body: List<Stmt>, g: GenState): (to: (GenState, nat))
    ensures Around(g, to.0)
    decreases body, 1
  {
    var (g1, r) := ListGen(body, 0, g);
    (g1.(frames := TopFrame(g1.frames, Last(g1.frames).(locals := Last(g.frames).locals))), r)
  }

  function IfOpen(r: nat, g: GenState): (to: GenState)
    ensures Around(g, to) && |to.ops| == |g.ops| + 2
  {
    var g1 := Emitted(Emitted(g, IfTrue(r, 0)), Jmp(0));
    RedirectedIf(g1, |g.ops|, |g1.ops|)
  }

  function IfElse(at: nat, g: GenState): (to: GenState)
    requires at < |g.ops|
    ensures Around(g, to) && |to.ops| == |g.ops| + 1
  {
    var g1 := Emitted(g, Jmp(0));
    Redirected(g1, at, |g1.ops|)
  }

  function IfGen(c: Expr, thn: List<Stmt>, els: List<Stmt>, g: GenState): (to: GenState)
    ensures Around(g, to)
    decreases If(c, thn, els), 0
  {
    var (g1, r) := ExprGen(c, g);
    var g3 := BlockGen(thn, IfOpen(r, g1)).0;
    var g5 := BlockGen(els, IfElse(|g1.ops| + 1, g3)).0;
    Freed(Redirected(g5, |g3.ops|, |g5.ops|), r)
  }

  /** The count, if there is one, and its register. */
  function CountGen(count: Option<Expr>, g: GenState): (to: (GenState, nat))
    ensures Beside(g, to.0)
  {
    if count.Some? then ExprGen(count.value, g) else (g, NO_REG)
  }

  function TestGen(r: nat, g: GenState): (to: GenState)
    ensures Beside(g, to) && (r != NO_REG ==> |to.ops| > |g.ops|)
  {
    if r != NO_REG then Emitted(g, IfFalse(r, 0)) else g
  }

  function LoopGen(count: Option<Expr>, body: List<Stmt>, g: GenState): (to: GenState)
    ensures Around(g, to)
    decreases Loop(count, body), 0
  {
    var (g1, r) := CountGen(count, g);
    LoopClose(r, |g1.ops|, BlockGen(body, TestGen(r, g1)).0)
  }

  /** The end of a loop: decrement, jump back, and every recorded jump patched, whichever loop it
      belongs to. */
  function LoopClose(r: nat, start: nat, g: GenState): (to: GenState)
    requires r != NO_REG ==> start < |g.ops|
    ensures Around(g, to)
  {
    var g1 := Emitted(if r != NO_REG then Emitted(g, Dec(r)) else g, Jmp(start));
    var end := |g1.ops|;
    var ops := Patched(Patched(g1.ops, 0, g.breaks, end, [], 0), 0, g.continues, |g.ops|, [], 0);
    Freed(g1.(ops := if r != NO_REG then ops[start := SetIfTarget(ops[start], end)] else ops,
              breaks := [], continues := []), r)
  }

  // ----- declarations and programs -----

  /** FUNC_CREATE, a frame for the function, its table entry, its parameters. */
  function OpenGen(f: string, params: seq<string>, g: GenState): (to: GenState)
    ensures |to.ops| == |g.ops| + 1 + |params| && |to.frames| == |g.frames| + 1
  {
    var clash := f in g.ft || !Distinct(params) || exists i :: 0 <= i < |params| && params[i] in g.frames[0].locals;
    g.(ops := g.ops + [FuncCreate] + ParamCode(|params|),
       ret := if params == [] then NoRet else AddrRet,
       frames := g.frames + [ParamFrame(params)],
       ft := Declare(g.ft, f, params, |g.ops| + 1),
       err := g.err || clash)
  }

  function CloseGen(g: GenState): GenState
    requires |g.frames| > 1
  {
    Emitted(Retted(g), FuncEnd).(frames := Front(g.frames))
  }

  function ItemGen(item: Item, g: GenState): (to: (GenState, nat))
    requires |g.frames| == 1
    ensures |to.0.frames| == 1
  {
    match item
    case Def(f, params, body) => (CloseGen(ListGen(body, 0, OpenGen(f, params, g)).0), NO_REG)
    case Do(s) => StmtGen(s, g)
  }

  function ItemsGen(items: List<Item>, r: nat, g: GenState): (to: (GenState, nat))
    requires |g.frames| == 1
    ensures |to.0.frames| == 1
    decreases items
  {
    match items
    case Nil => (g, r)
    case Cons(item, rest) =>
      var (g1, r1) := ItemGen(item, g);
      ItemsGen(rest, r1, g1)
  }

  /** `gen` appends a HALT. */
  function Halting(to: (GenState, nat)): (GenState, nat) {
    (to.0.(ops := to.0.ops + [Halt]), to.1)
  }

  // ----- without errors: the code of module Emission -----

  function Made(g: GenState): Output {
    Output(g.ops, g.held, g.breaks, g.continues)
  }

  predicate Compiled(e: Expr, r: nat, g: GenState, to: GenState) {
    && r == Res(g.held, e)
    && to.ops == g.ops + ExprCode(g.ft, g.frames, g.held, e, r)
    && to.held == Hold(g.held, r)
    && to.ret == RetOf(e)
    && (!e.Call? ==> to.release)
  }

  /** An error is reported exactly when the expression has one; otherwise the code appended is the
      reference code. */
  lemma {:induction false} ExprAgrees(e: Expr, g: GenState)
    ensures ExprGen(e, g).0.err == (g.err || ExprErr(g.ft, g.frames, e))
    ensures !ExprErr(g.ft, g.frames, e) ==> Compiled(e, ExprGen(e, g).1, g, ExprGen(e, g).0)
    decreases e, 1
  {
    hide FindVar, Lookup, FirstFree, Alloc;
    match e
    case Neg(e1) => NegAgrees(e1, g);
    case Bin(op, x, y) => BinaryAgrees(op, x, y, g);
    case Call(f, args) =>
      hide ExprGen, ExprErr, ExprCode;
      CallAgrees(f, args, g);
    case _ =>
  }

  lemma {:induction false} NegAgrees(e1: Expr, g: GenState)
    ensures var e := Neg(e1);
            && ExprGen(e, g).0.err == (g.err || ExprErr(g.ft, g.frames, e))
            && (!ExprErr(g.ft, g.frames, e) ==> Compiled(e, ExprGen(e, g).1, g, ExprGen(e, g).0))
    decreases e1, 2
  {
    hide FindVar, Lookup, FirstFree, Alloc, Hold, Release;
    ExprAgrees(e1, g);
    TakeRelease(ExprGen(e1, g).0.held);
    RightHeld(g.held, e1);
    if !ExprErr(g.ft, g.frames, e1) {
      var code, r := ExprCode(g.ft, g.frames, g.held, e1, Res(g.held, e1)), Res(g.held, Neg(e1));
      assert g.ops + code + [MovRI(r, 0)] + [Alu(Sub, r, r, Res(g.held, e1))]
             == g.ops + (code + [MovRI(r, 0), Alu(Sub, r, r, Res(g.held, e1))]);
    }
  }

  lemma TakeRelease(h: Held)
    ensures Release(Hold(h, Alloc(h)), Alloc(h)) == h
  {
    hide FirstFree, Alloc;
  }

  lemma {:induction false} CallAgrees(f: string, args: List<Expr>, g: GenState)
    ensures var e := Call(f, args);
            && ExprGen(e, g).0.err == (g.err || ExprErr(g.ft, g.frames, e))
            && (!ExprErr(g.ft, g.frames, e) ==> Compiled(e, ExprGen(e, g).1, g, ExprGen(e, g).0))
    decreases args, 2
  {
    hide FindVar, Lookup, FirstFree, Alloc, ArgsGen, ArgsCode, ArgsErr;
    if f in g.ft && Length(args) == g.ft[f].arity {
      ArgsAgrees(args, 0, g);
    }
  }

  lemma {:induction false} BinaryAgrees(op: Oper, x: Expr, y: Expr, g: GenState)
    ensures var e := Bin(op, x, y);
            && ExprGen(e, g).0.err == (g.err || ExprErr(g.ft, g.frames, e))
            && (!ExprErr(g.ft, g.frames, e) ==> Compiled(e, ExprGen(e, g).1, g, ExprGen(e, g).0))
    decreases Bin(op, x, y), 0
  {
    hide IntoGen, RightGen, FirstFree, Alloc;
    var lr := Alloc(g.held);
    var g1 := IntoGen(x, lr, Took(g, lr));
    var (g2, rr) := RightGen(y, g1);
    IntoAgrees(x, lr, Took(g, lr));
    RightAgrees(y, g1);
    if !ExprErr(g.ft, g.frames, Bin(op, x, y)) {
      BinHeld(g.held, x, y);
      BinCode(g.ops, g.ft, g.frames, g.held, op, x, y, Alloc(g2.held));
    }
  }

  lemma {:induction false} RightAgrees(y: Expr, g: GenState)
    ensures var (to, tmp) := RightGen(y, g);
            && to.err == (g.err || ExprErr(g.ft, g.frames, y))
            && (!ExprErr(g.ft, g.frames, y) ==>
                  && tmp == Alloc(Hold(g.held, Res(g.held, y)))
                  && to.ops == g.ops + ExprCode(g.ft, g.frames, g.held, y, tmp)
                  && to.held == Hold(g.held, tmp))
    decreases y, 2
  {
    hide ExprCode, ExprErr, FirstFree, Alloc, Res, MoveOps, ExprGen;
    ExprAgrees(y, g);
    if !ExprErr(g.ft, g.frames, y) {
      MoveFolds(g.ops, g.ft, g.frames, g.held, y, Alloc(ExprGen(y, g).0.held));
      RightHeld(g.held, y);
    }
  }

  lemma {:induction false} IntoAgrees(e: Expr, d: nat, g: GenState)
    ensures IntoGen(e, d, g).err == (g.err || ExprErr(g.ft, g.frames, e))
    ensures !ExprErr(g.ft, g.frames, e) ==>
              && IntoGen(e, d, g).ops == g.ops + ExprCode(g.ft, g.frames, g.held, e, d)
              && IntoGen(e, d, g).held == g.held
    decreases e, 2
  {
    hide ExprCode, ExprErr, FirstFree, Alloc, Res, MoveOps, ExprGen;
    ExprAgrees(e, g);
    if !ExprErr(g.ft, g.frames, e) {
      MoveFolds(g.ops, g.ft, g.frames, g.held, e, d);
      HoldRelease(g.held, e);
    }
  }

  lemma {:induction false} ArgsAgrees(args: List<Expr>, i: nat, g: GenState)
    ensures ArgsGen(args, i, g).err == (g.err || ArgsErr(g.ft, g.frames, args))
    ensures !ArgsErr(g.ft, g.frames, args) ==>
              && ArgsGen(args, i, g).ops == g.ops + ArgsCode(g.ft, g.frames, g.held, args, i)
              && ArgsGen(args, i, g).held == g.held
    decreases args, 1
  {
    hide ExprCode, ExprErr, IntoGen;
    match args
    case Nil =>
    case Cons(a, rest) =>
      IntoAgrees(a, ArgReg(i), g);
      ArgsAgrees(rest, i + 1, IntoGen(a, ArgReg(i), g));
  }

  /** The frames a statement leaves, its errors, and without errors its whole output. */
  predicate SameStmt(s: Stmt, g: GenState, to: GenState) {
    && to.frames == FramesAfter(g.frames, s)
    && to.err == (g.err || StmtErr(g.ft, g.frames, s))
    && (StmtOk(g.ft, g.frames, Made(g), s) ==> Emits(g.ft, g.frames, s, Made(g), Made(to)))
  }

  predicate SameList(body: List<Stmt>, frames: Frames, g: GenState, to: GenState) {
    && to.frames == frames
    && to.err == (g.err || ListErr(g.ft, g.frames, body))
    && (ListOk(g.ft, g.frames, Made(g), body) ==> ListEmits(g.ft, g.frames, body, Made(g), Made(to)))
  }

  lemma {:induction false} StmtAgrees(s: Stmt, g: GenState)
    ensures SameStmt(s, g, StmtGen(s, g).0)
    decreases s, 1
  {
    hide SameList, BlockGen, ListGen, IfGen, LoopGen, ExprGen, SetGen, ReturnGen, ExprErr, ListErr, ExprCode, Res,
         FramesAfterBlock, ListOk, ListEmits;
    match s
    case ExprS(e) => ExprAgrees(e, g);
    case Set(x, e, mut) => SetAgrees(x, e, mut, g);
    case Block(body) =>
      BlockAgrees(body, g);
      BlockAlike(body, g, BlockGen(body, g).0);
    case If(c, thn, els) => IfAgrees(c, thn, els, g);
    case Loop(count, body) => LoopAgrees(count, body, g);
    case Return(e) => ReturnAgrees(e, g);
    case _ =>
  }

  lemma BlockAlike(body: List<Stmt>, g: GenState, to: GenState)
    requires SameList(body, FramesAfterBlock(g.frames, body), g, to)
    ensures SameStmt(Block(body), g, to)
  {
    hide FramesAfterBlock;
  }

  lemma SetAgrees(x: string, e: Expr, mut: bool, g: GenState)
    ensures SameStmt(Set(x, e, mut), g, SetGen(x, e, mut, g))
  {
    hide Emits, ExprCode, FirstFree, Alloc, ExprErr, FindVar, Res, ExprGen;
    ExprAgrees(e, g);
    var (g1, r) := ExprGen(e, g);
    if StmtOk(g.ft, g.frames, Made(g), Set(x, e, mut)) {
      SetEmits(g.ft, g.frames, x, e, mut, Made(g), Made(g1), Made(SetGen(x, e, mut, g)));
    }
  }

  lemma ReturnAgrees(e: Expr, g: GenState)
    ensures SameStmt(Return(e), g, ReturnGen(e, g))
  {
    hide Emits, ExprCode, Res, FirstFree, Alloc, ExprErr, MoveOps, ExprGen;
    ExprAgrees(e, g);
    var (g1, r) := ExprGen(e, g);
    if !ExprErr(g.ft, g.frames, e) {
      ReturnEmits(g.ft, g.frames, e, Made(g), Made(g1), Made(ReturnGen(e, g)));
    }
  }

  lemma {:induction false} ListAgrees(body: List<Stmt>, r: nat, g: GenState)
    ensures SameList(body, FramesAfterList(g.frames, body), g, ListGen(body, r, g).0)
    decreases body, 1
  {
    hide StmtGen, Emits, ListEmits, StmtOk, ListOk;
    match body
    case Nil => NilEmits(g.ft, g.frames, Made(g));
    case Cons(s, rest) =>
      var (g1, r1) := StmtGen(s, g);
      var to := ListGen(rest, r1, g1).0;
      ConsOk(g.ft, g.frames, s, rest, Made(g));
      StmtAgrees(s, g);
      ListAgrees(rest, r1, g1);
      if ListOk(g.ft, g.frames, Made(g), body) {
        RestOk(g.ft, g.frames, s, rest, Made(g), Made(g1));
        ConsEmits(g.ft, g.frames, s, rest, Made(g), Made(g1), Made(to));
      }
  }

  lemma {:induction false} BlockAgrees(body: List<Stmt>, g: GenState)
    ensures SameList(body, FramesAfterBlock(g.frames, body), g, BlockGen(body, g).0)
    decreases body, 2
  {
    hide ListEmits, ListOk, ListGen, ListErr, FramesAfterList;
    ListAgrees(body, 0, g);
  }

  lemma {:induction false} IfAgrees(c: Expr, thn: List<Stmt>, els: List<Stmt>, g: GenState)
    ensures SameStmt(If(c, thn, els), g, IfGen(c, thn, els, g))
    decreases If(c, thn, els), 0
  {
    hide StmtErr, ListErr, StmtOk, ListOk, Emits, ListEmits, ExprCode, ExprErr, FramesAfterList, FirstFree, Alloc, Res,
         RetAfter, Hold, Release, ExprGen, BlockGen;
    var o, f := Made(g), g.frames;
    var (g1, r) := ExprGen(c, g);
    var g3 := BlockGen(thn, IfOpen(r, g1)).0;
    var g5 := BlockGen(els, IfElse(|g1.ops| + 1, g3)).0;
    IfOk(g.ft, f, o, c, thn, els);
    ExprAgrees(c, g);
    OpenOut(r, g1);
    BlockAgrees(thn, IfOpen(r, g1));
    ElseOut(|g1.ops| + 1, g3);
    BlockAgrees(els, IfElse(|g1.ops| + 1, g3));
    if StmtOk(g.ft, f, o, If(c, thn, els)) {
      ThenOk(g.ft, f, c, thn, els, r, o, Made(g1));
      ElseOk(g.ft, f, c, thn, els, r, o, Made(g1), Made(g3));
      IfEmits(g.ft, f, c, thn, els, r, o, Made(g1), Made(g3), Made(g5));
    }
  }

  lemma OpenOut(r: nat, g: GenState)
    ensures Made(IfOpen(r, g)) == Branch(Made(g), r)
  {
  }

  lemma ElseOut(at: nat, g: GenState)
    requires at < |g.ops|
    ensures Made(IfElse(at, g)) == OpenElse(Made(g), at)
  {
  }

  lemma {:induction false} LoopAgrees(count: Option<Expr>, body: List<Stmt>, g: GenState)
    ensures SameStmt(Loop(count, body), g, LoopGen(count, body, g))
    decreases Loop(count, body), 0
  {
    hide StmtErr, ListErr, StmtOk, ListOk, Emits, ListEmits, ExprCode, ExprErr, FramesAfterList, FirstFree, Alloc, Res,
         RetAfter, LoopClose, BlockGen, CloseLoop;
    var o, f := Made(g), g.frames;
    var (g1, r) := CountGen(count, g);
    LoopOk(g.ft, f, o, count, body);
    CountAgrees(count, g);
    BlockAgrees(body, TestGen(r, g1));
    var g3 := BlockGen(body, TestGen(r, g1)).0;
    if StmtOk(g.ft, f, o, Loop(count, body)) {
      LoopEmits(g.ft, f, count, body, o, Made(g3));
    }
    CloseOut(r, |g1.ops|, g3);
    assert FramesAfter(f, Loop(count, body)) == FramesAfterBlock(f, body);
    assert StmtOk(g.ft, f, o, Loop(count, body)) ==> Emits(g.ft, f, Loop(count, body), o,
           Made(LoopGen(count, body, g)));
  }

  lemma CountAgrees(count: Option<Expr>, g: GenState)
    ensures var (to, r) := CountGen(count, g);
            && to.err == (g.err || (count.Some? && ExprErr(g.ft, g.frames, count.value)))
            && (count.Some? && !ExprErr(g.ft, g.frames, count.value) && Res(g.held, count.value) < NO_REG ==>
                  Some(r) == Counter(g.held, count))
            && (count.None? ==> r == NO_REG)
            && ((count.Some? ==> !ExprErr(g.ft, g.frames, count.value) && Res(g.held, count.value) < NO_REG) ==>
                  && Made(TestGen(r, to)) == LoopTest(g.ft, g.frames, count, Made(g))
                  && |to.ops| == |g.ops + CountCode(g.ft, g.frames, g.held, count)|)
  {
    hide ExprCode, ExprErr, ExprGen, Res;
    if count.Some? {
      ExprAgrees(count.value, g);
    }
  }

  lemma CloseOut(r: nat, start: nat, g: GenState)
    requires r != NO_REG ==> start < |g.ops|
    ensures Made(LoopClose(r, start, g)) == CloseLoop(Made(g), if r == NO_REG then None else Some(r), start)
    ensures LoopClose(r, start, g).frames == g.frames && LoopClose(r, start, g).err == g.err
  {
    hide Patched, RetAfter;
    var tail := LoopTail(if r == NO_REG then None else Some(r), start);
    assert g.ops + tail == if r == NO_REG then g.ops + [Jmp(start)] else g.ops + [Dec(r)] + [Jmp(start)];
  }

  // ----- whole programs -----

  function Top(g: GenState): Scope {
    Scope(true, g.held, g.frames[0], g.ft)
  }

  /** What a declaration or statement leaves at the top level, its errors, and its output without errors. */
  predicate SameItem(item: Item, g: GenState, to: GenState) {
    && to.err == (g.err || ItemErr(Top(g), item, |g.ops|))
    && SameSigs(to.ft, AfterItem(Top(g), item, |g.ops|).ft)
    && to.frames[0] == AfterItem(Top(g), item, |g.ops|).glob
    && (ItemOk(Top(g), item, Made(g)) ==> ItemEmits(item, Top(g), Made(g), Top(to), Made(to)))
  }

  lemma {:induction false} ItemAgrees(item: Item, g: GenState)
    requires |g.frames| == 1
    ensures SameItem(item, g, ItemGen(item, g).0)
  {
    hide ListGen, StmtGen, ListErr, StmtErr, FramesAfter, FramesAfterList, HeldAfter, HeldAfterList, ParamFrame,
        Distinct,
         ParamCode, CloseGen, OutList, OutStmt;
    var u, o := Top(g), Made(g);
    assert g.frames == [g.frames[0]];
    match item
    case Def(f, params, body) => FunctionAgrees(f, params, body, g);
    case Do(s) =>
      StmtAgrees(s, g);
  }

  lemma FunctionAgrees(f: string, params: seq<string>, body: List<Stmt>, g: GenState)
    requires |g.frames| == 1
    ensures var to, u, item := ItemGen(Def(f, params, body), g).0, Top(g), Def(f, params, body);
            && to.err == (g.err || ItemErr(u, item, |g.ops|))
            && to.ft == AfterItem(u, item, |g.ops|).ft
            && to.frames[0] == AfterItem(u, item, |g.ops|).glob
            && (ItemOk(u, item, Made(g)) ==> ItemEmits(item, u, Made(g), Top(to), Made(to)))
  {
    hide ListEmits, ListOk, ListGen, ListErr, FramesAfterList, HeldAfterList, ParamFrame, Distinct, ParamCode, ItemOk,
         OutItem, RetAfter;
    var u, o, g1 := Top(g), Made(g), OpenGen(f, params, g);
    var g2 := ListGen(body, 0, g1).0;
    ListAgrees(body, 0, g1);
    assert g1.frames == [g.frames[0], ParamFrame(params)];
    assert Made(g1) == OpenDef(|params|, o);
    if ItemOk(u, Def(f, params, body), o) {
      BodyOk(u, f, params, body, o);
      FunctionEmits(u, f, params, body, o, Made(g2), Top(CloseGen(g2)));
      CloseDefOut(g2);
    }
  }

  lemma CloseDefOut(g: GenState)
    requires |g.frames| > 1
    ensures Made(CloseGen(g)) == CloseDef(Made(g))
  {
  }

  /** Programs: errors exactly where the items have them, and without errors the output of module Emission. */
  lemma {:induction false} ItemsAgrees(items: List<Item>, r: nat, g: GenState)
    requires |g.frames| == 1
    ensures var to, u := ItemsGen(items, r, g).0, Top(g);
            && to.err == (g.err || ItemsErr(u, items, |g.ops|))
            && (ItemsOk(u, items, Made(g)) ==> (Top(to), Made(to)) == OutItems(u, items, Made(g)))
    decreases items
  {
    hide ItemErr, ItemOk, ItemCode, AfterItem, OutItem, ItemGen, SameSigs;
    match items
    case Nil =>
    case Cons(item, rest) =>
      var u, o := Top(g), Made(g);
      var (g1, r1) := ItemGen(item, g);
      ItemAgrees(item, g);
      if ItemsOk(u, items, o) {
        NextItem(u, item, rest, o, Top(g1), Made(g1));
      }
      ItemsErrSame(Top(g1), AfterItem(u, item, |g.ops|), rest, |g1.ops|, |g.ops| + |ItemCode(u, item, |g.ops|)|);
      ItemsAgrees(rest, r1, g1);
  }
}
