/** What the code generator does to its output, as functions: instructions appended, targets patched,
    registers taken, jumps recorded. No condition is imposed on where loops stand. */
module Emission {
  import opened Words
  import opened Machine
  import opened Source
  import opened Reference
  import opened Simulation
  import opened Patching
  import opened Programs
  import opened Emit
  import opened Safety

  /** The instructions, the registers taken, and the jumps waiting for the end of a loop. */
  datatype Output = Output(ops: seq<Op>, held: Held, breaks: seq<nat>, continues: seq<nat>)

  predicate Pending(o: Output) {
    o.breaks != [] || o.continues != []
  }

  // ----- the pieces -----

  function AfterExpr(ft: Funcs, frames: Frames, e: Expr, o: Output): Output {
    o.(ops := o.ops + ExprCode(ft, frames, o.held, e, Res(o.held, e)), held := Hold(o.held, Res(o.held, e)))
  }

  /** The test of an `if`: to the then-branch just behind it, or to a jump not yet directed. */
  function Branch(o: Output, r: nat): Output {
    o.(ops := o.ops + [IfTrue(r, |o.ops| + 2), Jmp(0)])
  }

  /** The end of the then-branch: another open jump, and the one at `at` now leads behind it. */
  function OpenElse(o: Output, at: nat): Output
    requires at < |o.ops|
  {
    var open := o.ops + [Jmp(0)];
    o.(ops := open[at := PatchJmp(open[at], |open|)])
  }

  /** The end of the `if`: the jump at `at` leads here. */
  function CloseIf(o: Output, at: nat, r: nat): Output
    requires at < |o.ops|
  {
    o.(ops := o.ops[at := PatchJmp(o.ops[at], |o.ops|)], held := Release(o.held, r))
  }

  function CounterHeld(h: Held, count: Option<Expr>): Held {
    if count.Some? then Hold(h, Res(h, count.value)) else h
  }

  function Counter(h: Held, count: Option<Expr>): Option<nat> {
    if count.Some? then Some(Res(h, count.value)) else None
  }

  function CountCode(ft: Funcs, frames: Frames, h: Held, count: Option<Expr>): seq<Op> {
    if count.Some? then ExprCode(ft, frames, h, count.value, Res(h, count.value)) else []
  }

  function TestCode(r: Option<nat>, target: nat): seq<Op> {
    if r.Some? then [IfFalse(r.value, target)] else []
  }

  function LoopTest(ft: Funcs, frames: Frames, count: Option<Expr>, o: Output): Output {
    o.(ops := o.ops + CountCode(ft, frames, o.held, count) + TestCode(Counter(o.held, count), 0),
       held := CounterHeld(o.held, count))
  }

  /** The end of a loop: decrement, jump back, and all recorded jumps patched, whichever loop they
      belong to; both lists are emptied. */
  function CloseLoop(o: Output, r: Option<nat>, start: nat): Output
    requires start < |o.ops| || r.None?
  {
    var ops := o.ops + LoopTail(r, start);
    var patched := Patched(Patched(ops, 0, o.breaks, |ops|, [], 0), 0, o.continues, |o.ops|, [], 0);
    Output(if r.Some? then patched[start := SetIfTarget(patched[start], |ops|)] else patched,
           if r.Some? then Release(o.held, r.value) else o.held, [], [])
  }

  // ----- statements -----

  function OutStmt(ft: Funcs, frames: Frames, s: Stmt, o: Output): (r: Output)
    ensures |r.ops| == |o.ops| + StmtLen(true, s) && r.held == HeldAfter(o.held, s)
    decreases s, 1
  {
    match s
    case Block(body) => OutList(ft, frames, body, o)
    case If(c, thn, els) => OutIf(ft, frames, c, thn, els, o)
    case Loop(count, body) => OutLoop(ft, frames, count, body, o)
    case Break => o.(ops := o.ops + [Jmp(0)], breaks := o.breaks + [|o.ops|])
    case Continue => o.(ops := o.ops + [Jmp(0)], continues := o.continues + [|o.ops|])
    case _ => o.(ops := o.ops + StmtCode(true, ft, frames, o.held, s, |o.ops|, 0, 0), held := HeldAfter(o.held, s))
  }

  function OutIf(ft: Funcs, frames: Frames, c: Expr, thn: List<Stmt>, els: List<Stmt>, o: Output): (r: Output)
    ensures |r.ops| == |o.ops| + StmtLen(true, If(c, thn, els)) && r.held == HeldAfter(o.held, If(c, thn, els))
    decreases If(c, thn, els), 0
  {
    ResLen(o.held, c);
    var o1 := AfterExpr(ft, frames, c, o);
    var o3 := OutList(ft, frames, thn, Branch(o1, Res(o.held, c)));
    var o5 := OutList(ft, FramesAfterBlock(frames, thn), els, OpenElse(o3, |o1.ops| + 1));
    CloseIf(o5, |o3.ops|, Res(o.held, c))
  }

  function OutLoop(ft: Funcs, frames: Frames, count: Option<Expr>, body: List<Stmt>, o: Output): (r: Output)
    ensures |r.ops| == |o.ops| + StmtLen(true, Loop(count, body)) && r.held == HeldAfter(o.held, Loop(count, body))
    decreases Loop(count, body), 0
  {
    var start := |o.ops + CountCode(ft, frames, o.held, count)|;
    assert count.Some? ==> start == |o.ops| + ExprLen(count.value, count.value.Call?) by {
      if count.Some? {
        ResLen(o.held, count.value);
      }
    }
    CloseLoop(OutList(ft, frames, body, LoopTest(ft, frames, count, o)), Counter(o.held, count), start)
  }

  function OutList(ft: Funcs, frames: Frames, body: List<Stmt>, o: Output): (r: Output)
    ensures |r.ops| == |o.ops| + ListLen(true, body) && r.held == HeldAfterList(o.held, body)
    decreases body, 0
  {
    match body
    case Nil => o
    case Cons(s, rest) => OutList(ft, FramesAfter(frames, s), rest, OutStmt(ft, frames, s, o))
  }

  // ----- one step of the generator at a time -----

  /** No error, and every counted loop gets a register for its counter. */
  predicate StmtOk(ft: Funcs, frames: Frames, o: Output, s: Stmt) {
    !StmtErr(ft, frames, s) && CountersFit(o.held, s)
  }

  predicate ListOk(ft: Funcs, frames: Frames, o: Output, body: List<Stmt>) {
    !ListErr(ft, frames, body) && ListCountersFit(o.held, body)
  }

  predicate ExprEmits(ft: Funcs, frames: Frames, e: Expr, r: nat, from: Output, to: Output) {
    r == Res(from.held, e) && to == AfterExpr(ft, frames, e, from)
  }

  predicate Emits(ft: Funcs, frames: Frames, s: Stmt, from: Output, to: Output) {
    to == OutStmt(ft, frames, s, from)
  }

  predicate ListEmits(ft: Funcs, frames: Frames, body: List<Stmt>, from: Output, to: Output) {
    to == OutList(ft, frames, body, from)
  }

  lemma ReturnEmits(ft: Funcs, frames: Frames, e: Expr, o: Output, o1: Output, o2: Output)
    requires ExprEmits(ft, frames, e, Res(o.held, e), o, o1)
    requires var moved := MoveOps(o1.ops, RetOf(e), 0, Res(o.held, e));
             o2.ops == if moved != [] && Last(moved) == FRet then moved else moved + [FRet]
    requires o2.held == (if e.Call? then o1.held else Release(o1.held, Res(o.held, e)))
             || o2.held == Release(o1.held, Res(o.held, e))
    requires o2.breaks == o.breaks && o2.continues == o.continues
    ensures Emits(ft, frames, Return(e), o, o2)
  {
    hide ExprCode, Res, FirstFree, Alloc, MoveOps, Hold, Release;
    MoveFolds(o.ops, ft, frames, o.held, e, 0);
    HoldRelease(o.held, e);
    NotRet(ft, frames, o.held, e, 0);
    var code := ExprCode(ft, frames, o.held, e, 0);
    assert Last(o.ops + code) == Last(code);
    assert o.ops + code + [FRet] == o.ops + (code + [FRet]);
  }

  lemma SetEmits(ft: Funcs, frames: Frames, x: string, e: Expr, mut: bool, o: Output, o1: Output, o2: Output)
    requires ExprEmits(ft, frames, e, Res(o.held, e), o, o1)
    requires o2 == o1.(ops := o1.ops + [LocalSet(SetDepth(frames, x), SetSlot(frames, x), Res(o.held, e))],
                       held := Release(o1.held, Res(o.held, e)))
    ensures Emits(ft, frames, Set(x, e, mut), o, o2)
  {
    hide ExprCode, Res, FirstFree, Alloc, FindVar, Lookup;
    HoldRelease(o.held, e);
    Regroup3(o.ops, ExprCode(ft, frames, o.held, e, Res(o.held, e)),
             [LocalSet(SetDepth(frames, x), SetSlot(frames, x), Res(o.held, e))]);
  }

  lemma NilEmits(ft: Funcs, frames: Frames, o: Output)
    ensures ListEmits(ft, frames, Nil, o, o)
  {
  }

  lemma ConsOk(ft: Funcs, frames: Frames, s: Stmt, rest: List<Stmt>, o: Output)
    ensures ListOk(ft, frames, o, Cons(s, rest)) ==> StmtOk(ft, frames, o, s)
  {
  }

  lemma RestOk(ft: Funcs, frames: Frames, s: Stmt, rest: List<Stmt>, o: Output, o1: Output)
    requires ListOk(ft, frames, o, Cons(s, rest)) && Emits(ft, frames, s, o, o1)
    ensures ListOk(ft, FramesAfter(frames, s), o1, rest)
  {
  }

  lemma ConsEmits(ft: Funcs, frames: Frames, s: Stmt, rest: List<Stmt>, o: Output, o1: Output, o2: Output)
    requires Emits(ft, frames, s, o, o1) && ListEmits(ft, FramesAfter(frames, s), rest, o1, o2)
    ensures ListEmits(ft, frames, Cons(s, rest), o, o2)
  {
  }

  lemma IfOk(ft: Funcs, frames: Frames, o: Output, c: Expr, thn: List<Stmt>, els: List<Stmt>)
    ensures StmtErr(ft, frames, If(c, thn, els))
            == (ExprErr(ft, frames, c) || ListErr(ft, frames, thn) || ListErr(ft, FramesAfterBlock(frames, thn), els))
    ensures StmtOk(ft, frames, o, If(c, thn, els)) ==> !ExprErr(ft, frames, c)
  {
  }

  lemma ThenOk(ft: Funcs, frames: Frames, c: Expr, thn: List<Stmt>, els: List<Stmt>, r: nat, o: Output, o1: Output)
    requires StmtOk(ft, frames, o, If(c, thn, els)) && ExprEmits(ft, frames, c, r, o, o1)
    ensures ListOk(ft, frames, Branch(o1, r), thn)
  {
  }

  lemma ElseOk(ft: Funcs, frames: Frames, c: Expr, thn: List<Stmt>, els: List<Stmt>, r: nat, o: Output, o1: Output,
               o3: Output)
    requires StmtOk(ft, frames, o, If(c, thn, els)) && ExprEmits(ft, frames, c, r, o, o1)
    requires ListEmits(ft, frames, thn, Branch(o1, r), o3)
    ensures |o1.ops| + 1 < |o3.ops| && ListOk(ft, FramesAfterBlock(frames, thn), OpenElse(o3, |o1.ops| + 1), els)
  {
  }

  lemma IfEmits(ft: Funcs, frames: Frames, c: Expr, thn: List<Stmt>, els: List<Stmt>, r: nat, o: Output, o1: Output,
                o3: Output, o5: Output)
    requires ExprEmits(ft, frames, c, r, o, o1)
    requires ListEmits(ft, frames, thn, Branch(o1, r), o3) && |o1.ops| + 1 < |o3.ops| < |o5.ops|
    requires ListEmits(ft, FramesAfterBlock(frames, thn), els, OpenElse(o3, |o1.ops| + 1), o5)
    ensures Emits(ft, frames, If(c, thn, els), o, CloseIf(o5, |o3.ops|, r))
  {
    assert OutStmt(ft, frames, If(c, thn, els), o) == OutIf(ft, frames, c, thn, els, o);
  }

  lemma PatchOneMore(code: seq<Op>, points: seq<nat>, i: nat, target: nat)
    requires i < |points| && points[i] < |code|
    ensures var was := Patched(code, 0, points[..i], target, [], 0);
            was[points[i] := PatchJmp(was[points[i]], target)] == Patched(code, 0, points[..i + 1], target, [], 0)
  {
    assert points[..i + 1] == points[..i] + [points[i]];
  }

  lemma LoopOk(ft: Funcs, frames: Frames, o: Output, count: Option<Expr>, body: List<Stmt>)
    ensures StmtErr(ft, frames, Loop(count, body)) == ((count.Some? && ExprErr(ft, frames, count.value))
            || ListErr(ft, frames, body))
    ensures StmtOk(ft, frames, o, Loop(count, body)) ==>
              && (count.Some? ==> !ExprErr(ft, frames, count.value) && Res(o.held, count.value) < NO_REG)
              && ListOk(ft, frames, LoopTest(ft, frames, count, o), body)
  {
  }

  lemma LoopEmits(ft: Funcs, frames: Frames, count: Option<Expr>, body: List<Stmt>, o: Output, o3: Output)
    requires ListEmits(ft, frames, body, LoopTest(ft, frames, count, o), o3)
    ensures var start := |o.ops + CountCode(ft, frames, o.held, count)|;
            (start < |o3.ops| || count.None?) && Emits(ft, frames, Loop(count, body), o,
                CloseLoop(o3, Counter(o.held, count), start))
  {
    assert OutStmt(ft, frames, Loop(count, body), o) == OutLoop(ft, frames, count, body, o);
  }

  // ----- registers and moves -----

  /** Taking the result register of an expression and releasing it is no change. */
  lemma HoldRelease(h: Held, e: Expr)
    ensures Release(Hold(h, Res(h, e)), Res(h, e)) == h
    ensures e.Call? ==> Hold(h, Res(h, e)) == h
  {
    if Res(h, e) < NO_REG {
      ResFresh(h, e);
    }
  }

  /** An expression never ends in FRET. */
  lemma NotRet(ft: Funcs, frames: Frames, h: Held, e: Expr, d: nat)
    ensures ExprCode(ft, frames, h, e, d) != [] && Last(ExprCode(ft, frames, h, e, d)) != FRet
  {
    hide LowByte, WithLowByte;
    if e.Call? {
      assert Last(ArgsCode(ft, frames, h, e.args, 0) + [CallCode(ft, e.f)]) == CallCode(ft, e.f);
    } else {
      var parts := Parts(ft, frames, h, e, d);
    }
  }

  lemma RightHeld(h: Held, y: Expr)
    ensures var rr, tmp := Res(h, y), Alloc(Hold(h, Res(h, y)));
            && Release(Hold(Hold(h, rr), tmp), rr) == Hold(h, tmp)
            && (y.Call? ==> Hold(Hold(h, rr), tmp) == Hold(h, tmp))
  {
    hide FirstFree, Alloc, Res;
    if Res(h, y) < NO_REG {
      ResFresh(h, y);
    }
    ResLen(h, y);
  }

  lemma BinHeld(h: Held, x: Expr, y: Expr)
    ensures var r, rr := Alloc(Hold(Left(h), Right(h, y))), Right(h, y);
            Release(Release(Hold(Hold(Left(h), rr), r), Alloc(h)), rr) == Hold(h, r)
  {
    hide FirstFree, Alloc;
  }

  lemma BinCode(ops: seq<Op>, ft: Funcs, frames: Frames, h: Held, op: Oper, x: Expr, y: Expr, r: nat)
    ensures ops + ExprCode(ft, frames, Left(h), x, Alloc(h)) + ExprCode(ft, frames, Left(h), y, Right(h, y))
            + [Alu(op, r, Alloc(h), Right(h, y))]
            == ops + ExprCode(ft, frames, h, Bin(op, x, y), r)
  {
  }

  lemma Regroup3(a: seq<Op>, b: seq<Op>, c: seq<Op>)
    ensures a + b + c == a + (b + c)
  {
  }

  // ----- declarations and programs -----

  function OpenDef(k: nat, o: Output): Output {
    o.(ops := o.ops + [FuncCreate] + ParamCode(k))
  }

  /** The closing FRET is left out behind another one. */
  function CloseDef(o: Output): Output {
    o.(ops := o.ops + (if o.ops != [] && Last(o.ops) == FRet then [] else [FRet]) + [FuncEnd])
  }

  function OutItem(u: Scope, item: Item, o: Output): Output {
    match item
    case Def(f, params, body) =>
      CloseDef(OutList(Declare(u.ft, f, params, |o.ops| + 1), [u.glob, ParamFrame(params)], body, OpenDef(|params|, o)))
    case Do(s) => OutStmt(u.ft, [u.glob], s, o)
  }

  function OutItems(u: Scope, items: List<Item>, o: Output): (Scope, Output)
    decreases items
  {
    match items
    case Nil => (u, o)
    case Cons(item, rest) => OutItems(AfterItem(u, item, |o.ops|), rest, OutItem(u, item, o))
  }

  /** No error, and every counted loop gets a register for its counter. */
  predicate ItemOk(u: Scope, item: Item, o: Output) {
    && !ItemErr(u, item, |o.ops|) && u.held == o.held && u.fold
    && match item
       case Def(_, _, body) => ListCountersFit(u.held, body)
       case Do(s) => CountersFit(u.held, s)
  }

  predicate ItemEmits(item: Item, u: Scope, o: Output, u1: Scope, o1: Output) {
    o1 == OutItem(u, item, o) && u1 == AfterItem(u, item, |o.ops|)
  }

  predicate ItemsOk(u: Scope, items: List<Item>, o: Output)
    decreases items
  {
    match items
    case Nil => true
    case Cons(item, rest) => ItemOk(u, item, o) && ItemsOk(AfterItem(u, item, |o.ops|), rest, OutItem(u, item, o))
  }

  predicate ItemsErr(u: Scope, items: List<Item>, n: nat)
    decreases items
  {
    match items
    case Nil => false
    case Cons(item, rest) => ItemErr(u, item, n) || ItemsErr(AfterItem(u, item, n), rest, n + |ItemCode(u, item, n)|)
  }

  lemma NextItem(u: Scope, item: Item, rest: List<Item>, o: Output, u1: Scope, o1: Output)
    requires ItemsOk(u, Cons(item, rest), o) && ItemEmits(item, u, o, u1, o1)
    ensures ItemsOk(u1, rest, o1) && OutItems(u1, rest, o1) == OutItems(u, Cons(item, rest), o)
  {
    hide OutItem, AfterItem, ItemOk;
  }

  lemma TwoFrames(glob: CFrame, x: string)
    ensures FindVar([glob, CFrame(map[], 0)], x).Some? == (x in glob.locals)
  {
    assert Front([glob, CFrame(map[], 0)]) == [glob];
    assert Front([glob]) == [];
  }

  lemma {:induction false} ParamNames(params: seq<string>)
    ensures ParamFrame(params).locals.Keys == set x | x in params
  {
    if params != [] {
      ParamNames(Front(params));
      assert params == Front(params) + [Last(params)];
    }
  }

  lemma OneMoreParam(params: seq<string>, i: nat)
    requires i < |params|
    ensures (params[i] in ParamFrame(params[..i]).locals) == (params[i] in params[..i])
    ensures Distinct(params[..i + 1]) == (Distinct(params[..i]) && params[i] !in params[..i])
    ensures ParamFrame(params[..i + 1]) == AddParam(ParamFrame(params[..i]), params[i], i)
    ensures ParamCode(i + 1) == ParamCode(i) + [LocalSet(0, i % 65536, ArgReg(i))]
  {
    ParamNames(params[..i]);
    assert Front(params[..i + 1]) == params[..i];
    var longer, shorter := params[..i + 1], params[..i];
    forall j, k | 0 <= j < k < |longer| && Distinct(shorter) && params[i] !in shorter
      ensures longer[j] != longer[k]
    {
      if k < i {
        assert shorter[j] == longer[j] && shorter[k] == longer[k];
      } else {
        assert shorter[j] == longer[j];
      }
    }
    if Distinct(longer) {
      forall j, k | 0 <= j < k < i
        ensures shorter[j] != shorter[k]
      {
        assert shorter[j] == longer[j] && shorter[k] == longer[k];
      }
    }
  }

  lemma BodyOk(u: Scope, f: string, params: seq<string>, body: List<Stmt>, o: Output)
    requires ItemOk(u, Def(f, params, body), o)
    ensures ListOk(Declare(u.ft, f, params, |o.ops| + 1), [u.glob, ParamFrame(params)], OpenDef(|params|, o), body)
  {
    hide ListErr, ListCountersFit, ParamFrame, Distinct;
  }

  lemma FunctionEmits(u: Scope, f: string, params: seq<string>, body: List<Stmt>, o: Output, o2: Output, u1: Scope)
    requires ItemOk(u, Def(f, params, body), o)
    requires ListEmits(Declare(u.ft, f, params, |o.ops| + 1), [u.glob, ParamFrame(params)], body, OpenDef(|params|, o),
                       o2)
    requires u1 == Scope(true, o2.held, FramesAfterList([u.glob, ParamFrame(params)], body)[0],
                         Declare(u.ft, f, params, |o.ops| + 1))
    ensures ItemEmits(Def(f, params, body), u, o, u1, CloseDef(o2))
  {
    hide ParamFrame, ItemErr, FramesAfterList, Distinct, ParamCode, CloseDef;
  }

  // ----- errors do not depend on addresses -----

  predicate SameSigs(a: Funcs, b: Funcs) {
    a.Keys == b.Keys && forall f :: f in a ==> a[f].arity == b[f].arity
  }

  lemma {:induction false} ExprErrSame(a: Funcs, b: Funcs, frames: Frames, e: Expr)
    requires SameSigs(a, b)
    ensures ExprErr(a, frames, e) == ExprErr(b, frames, e)
    decreases e
  {
    match e
    case Neg(e1) => ExprErrSame(a, b, frames, e1);
    case Bin(_, l, r) =>
      ExprErrSame(a, b, frames, l);
      ExprErrSame(a, b, frames, r);
    case Call(_, args) => ArgsErrSame(a, b, frames, args);
    case _ =>
  }

  lemma {:induction false} ArgsErrSame(a: Funcs, b: Funcs, frames: Frames, args: List<Expr>)
    requires SameSigs(a, b)
    ensures ArgsErr(a, frames, args) == ArgsErr(b, frames, args)
    decreases args
  {
    match args
    case Nil =>
    case Cons(e, rest) =>
      ExprErrSame(a, b, frames, e);
      ArgsErrSame(a, b, frames, rest);
  }

  lemma {:induction false} StmtErrSame(a: Funcs, b: Funcs, frames: Frames, s: Stmt)
    requires SameSigs(a, b)
    ensures StmtErr(a, frames, s) == StmtErr(b, frames, s)
    decreases s, 0
  {
    match s
    case ExprS(e) => ExprErrSame(a, b, frames, e);
    case Set(_, e, _) => ExprErrSame(a, b, frames, e);
    case Return(e) => ExprErrSame(a, b, frames, e);
    case Block(body) => ListErrSame(a, b, frames, body);
    case If(c, thn, els) =>
      ExprErrSame(a, b, frames, c);
      ListErrSame(a, b, frames, thn);
      ListErrSame(a, b, FramesAfterBlock(frames, thn), els);
    case Loop(count, body) =>
      if count.Some? {
        ExprErrSame(a, b, frames, count.value);
      }
      ListErrSame(a, b, frames, body);
    case _ =>
  }

  lemma {:induction false} ListErrSame(a: Funcs, b: Funcs, frames: Frames, body: List<Stmt>)
    requires SameSigs(a, b)
    ensures ListErr(a, frames, body) == ListErr(b, frames, body)
    decreases body, 0
  {
    match body
    case Nil =>
    case Cons(s, rest) =>
      StmtErrSame(a, b, frames, s);
      ListErrSame(a, b, FramesAfter(frames, s), rest);
  }

  lemma ItemErrSame(u: Scope, v: Scope, item: Item, n: nat, m: nat)
    requires u.glob == v.glob && SameSigs(u.ft, v.ft)
    ensures ItemErr(u, item, n) == ItemErr(v, item, m)
    ensures SameSigs(AfterItem(u, item, n).ft, AfterItem(v, item, m).ft)
    ensures AfterItem(u, item, n).glob == AfterItem(v, item, m).glob
  {
    hide ListErr, StmtErr, FramesAfter, FramesAfterList, HeldAfter, HeldAfterList;
    match item
    case Def(f, params, body) =>
      ListErrSame(Declare(u.ft, f, params, n + 1), Declare(v.ft, f, params, m + 1), [u.glob, ParamFrame(params)], body);
    case Do(s) => StmtErrSame(u.ft, v.ft, [u.glob], s);
  }

  lemma {:induction false} ItemsErrSame(u: Scope, v: Scope, items: List<Item>, n: nat, m: nat)
    requires u.glob == v.glob && SameSigs(u.ft, v.ft)
    ensures ItemsErr(u, items, n) == ItemsErr(v, items, m)
    decreases items
  {
    hide ItemErr, AfterItem, ItemCode;
    match items
    case Nil =>
    case Cons(item, rest) =>
      ItemErrSame(u, v, item, n, m);
      ItemsErrSame(AfterItem(u, item, n), AfterItem(v, item, m), rest, n + |ItemCode(u, item, n)|,
                   m + |ItemCode(v, item, m)|);
  }
}
