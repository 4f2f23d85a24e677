/** Functions that read global variables: called from the top level they compute what the source says, for
    every expression without calls. */
module Globals {
  import opened Words
  import opened Machine
  import opened Source
  import opened Reference
  import opened Safety
  import opened Simulation

  /** Every variable in sight has its value in the frame and slot that its name resolves to. */
  ghost predicate View(frames: Frames, env: Env, s: State) {
    forall x :: Lookup(frames, x).Some? && x in env ==> Sees(Lookup(frames, x).value, env[x].val, s)
  }

  ghost predicate Sees(l: Loc, v: Value, s: State) {
    LocalExists(s, l.depth, l.slot.idx) && Rep(v, ReadLocal(s, l.depth, l.slot.idx))
  }

  /** Code of an expression without calls, wherever its variables live. */
  lemma {:induction false} ExprSeen(p: seq<Op>, ft: Funcs, frames: Frames, h: Held, k: set<nat>, e: Expr, d: nat,
                                    defs: Defs, fuel: nat, env: Env, s: State)
    returns (t: State)
    requires CodeAt(p, s.pc, ExprCode(ft, frames, h, e, d)) && RegsFit(h, REG_COUNT, e) && Live(k, h, REG_COUNT)
    requires !HasCall(e) && !ExprErr(ft, frames, e) && d < REG_COUNT && d !in k && View(frames, env, s)
    requires Eval(defs, fuel, env, e).Some?
    ensures Reaches(p, s, t) && Evaluated(k, s, t, s.pc + ExprLen(e, d == 0), d, Eval(defs, fuel, env, e).value)
    decreases e, 1
  {
    hide Step, Reaches, RegsFit, Evaluated, View, Live, CodeAt, FirstFree, Alloc, ExprCode, ReadLocal, AluWord;
    match e
    case Neg(e1) => t := NegSeen(p, ft, frames, h, k, e1, d, defs, fuel, env, s);
    case Bin(op, l, r) => t := BinSeen(p, ft, frames, h, k, op, l, r, d, defs, fuel, env, s);
    case _ => t := LeafSeen(p, ft, frames, h, k, e, d, defs, fuel, env, s);
  }

  lemma LeafSeen(p: seq<Op>, ft: Funcs, frames: Frames, h: Held, k: set<nat>, e: Expr, d: nat, defs: Defs, fuel: nat,
                 env: Env, s: State)
    returns (t: State)
    requires e.Num? || e.Bool? || e.Var?
    requires CodeAt(p, s.pc, ExprCode(ft, frames, h, e, d)) && !ExprErr(ft, frames, e)
    requires d < REG_COUNT && d !in k && View(frames, env, s) && Eval(defs, fuel, env, e).Some?
    ensures Reaches(p, s, t) && Evaluated(k, s, t, s.pc + 1, d, Eval(defs, fuel, env, e).value)
  {
    hide Reaches, FindVar, Lookup;
    CodeAtOp(p, s.pc, ExprCode(ft, frames, h, e, d), 0);
    if e.Var? {
      assert Sees(Lookup(frames, e.x).value, env[e.x].val, s);
    }
    ReachStep(p, s);
    t := Step(p, s).state;
  }

  lemma {:induction false} NegSeen(p: seq<Op>, ft: Funcs, frames: Frames, h: Held, k: set<nat>, e1: Expr, d: nat,
                                   defs: Defs, fuel: nat, env: Env, s: State)
    returns (u: State)
    requires CodeAt(p, s.pc, ExprCode(ft, frames, h, Neg(e1), d)) && RegsFit(h, REG_COUNT, Neg(e1))
    requires Live(k, h, REG_COUNT) && !HasCall(e1) && !ExprErr(ft, frames, e1) && d < REG_COUNT && d !in k
    requires View(frames, env, s) && Eval(defs, fuel, env, Neg(e1)).Some?
    ensures Reaches(p, s, u)
    ensures Evaluated(k, s, u, s.pc + ExprLen(Neg(e1), d == 0), d, Eval(defs, fuel, env, Neg(e1)).value)
    decreases e1, 2
  {
    hide Res, RegsFit, Live, View, Step, Reaches, CodeAt, AluWord, ExprErr, HasCall;
    NegRegs(h, k, REG_COUNT, e1);
    var r, tmp := Res(h, e1), Res(h, Neg(e1));
    var tail := [MovRI(tmp, 0), Alu(Sub, d, tmp, r)];
    CodeAtSplit(p, s.pc, ExprCode(ft, frames, h, e1, r), tail);
    var t := ExprSeen(p, ft, frames, h, k, e1, r, defs, fuel, env, s);
    CodeAtOp(p, t.pc, tail, 0);
    CodeAtOp(p, t.pc, tail, 1);
    u := NegTail(p, k, s, t, d, tmp, r, Eval(defs, fuel, env, e1).value);
  }

  lemma {:induction false} BinSeen(p: seq<Op>, ft: Funcs, frames: Frames, h: Held, k: set<nat>, op: Oper, l: Expr,
                                   r: Expr, d: nat, defs: Defs, fuel: nat, env: Env, s: State)
    returns (w: State)
    requires CodeAt(p, s.pc, ExprCode(ft, frames, h, Bin(op, l, r), d)) && RegsFit(h, REG_COUNT, Bin(op, l, r))
    requires Live(k, h, REG_COUNT) && !HasCall(l) && !HasCall(r) && d < REG_COUNT && d !in k
    requires !ExprErr(ft, frames, l) && !ExprErr(ft, frames, r)
    requires View(frames, env, s) && Eval(defs, fuel, env, Bin(op, l, r)).Some?
    ensures Reaches(p, s, w)
    ensures Evaluated(k, s, w, s.pc + ExprLen(Bin(op, l, r), d == 0), d, Eval(defs, fuel, env, Bin(op, l, r)).value)
    decreases Bin(op, l, r), 0
  {
    hide Res, RegsFit, Alloc, Right, Left, Live, Step, Reaches, AluWord, Apply, CodeAt, View, ExprErr, HasCall;
    BinRegs(h, k, REG_COUNT, op, l, r);
    var a, b := Alloc(h), Right(h, r);
    var lc, rc := ExprCode(ft, frames, Left(h), l, a), ExprCode(ft, frames, Left(h), r, b);
    var tail := [Alu(op, d, a, b)];
    CodeAtSplit(p, s.pc, lc + rc, tail);
    CodeAtSplit(p, s.pc, lc, rc);
    var t := ExprSeen(p, ft, frames, Left(h), k, l, a, defs, fuel, env, s);
    SameView(frames, env, s, t);
    var u := ExprSeen(p, ft, frames, Left(h), k + {a}, r, b, defs, fuel, env, t);
    CodeAtOp(p, u.pc, tail, 0);
    w := BinTail(p, k, s, t, u, op, d, a, b, Eval(defs, fuel, env, l).value, Eval(defs, fuel, env, r).value);
  }

  lemma SameView(frames: Frames, env: Env, s: State, t: State)
    requires View(frames, env, s) && t.frames == s.frames
    ensures View(frames, env, t)
  {
    hide Lookup;
    forall x | Lookup(frames, x).Some? && x in env
      ensures Sees(Lookup(frames, x).value, env[x].val, t)
    {
      assert Sees(Lookup(frames, x).value, env[x].val, s);
    }
  }

  /** The global variables and the parameters as the source has them: `globals` and the arguments. */
  ghost predicate GlobalsMatch(outer: CFrame, globals: Env, locals: seq<int>) {
    forall x :: x in outer.locals && x in globals ==>
      outer.locals[x].idx < |locals| && Rep(globals[x].val, locals[outer.locals[x].idx])
  }

  /** Inside the function, called from the top level: its own variables are in the innermost frame, the global
      ones in the one below. */
  lemma CalleeView(i: FnInfo, globals: Env, vals: seq<Value>, s: State)
    requires |vals| == |i.def.params| && |s.frames| == 2 && GlobalsMatch(i.outer, globals, s.frames[0].locals)
    requires Ready(FnFrames(i), Bind(i.def.params, vals), s) && globals.Keys == i.outer.locals.Keys
    ensures View(FnFrames(i), globals + Bind(i.def.params, vals), s)
  {
    hide Bind, ParamFrame;
    var frames, own, env := FnFrames(i), Bind(i.def.params, vals), globals + Bind(i.def.params, vals);
    forall x | Lookup(frames, x).Some? && x in env
      ensures Sees(Lookup(frames, x).value, env[x].val, s)
    {
      var l := FindVar(frames, x).value;
      assert l.depth < 2;
      if l.depth == 0 {
        assert Holds(Last(frames).locals[x], own[x], Last(s.frames).locals);
      } else {
        assert x !in Last(frames).locals by {
          OwnFirst(frames, x);
        }
      }
    }
  }

  lemma OwnFirst(frames: Frames, x: string)
    ensures x in Last(frames).locals ==> FindVar(frames, x) == Some(Loc(0, Last(frames).locals[x]))
  {
  }

  /** A function that returns an expression without calls, over its parameters and the global variables,
      called from the top level: it returns the value the source gives it. */
  lemma ReturnsSeen(p: seq<Op>, i: FnInfo, e: Expr, globals: Env, vals: seq<Value>, defs: Defs, fuel: nat, c: State)
    returns (t: State)
    requires i.fold && i.def.body == Cons(Return(e), Nil) && CodeAt(p, i.addr, ParamCode(|i.def.params|) + FnBody(i))
    requires |vals| == |i.def.params| <= MAX_ARGS && Distinct(i.def.params) && ArgsInPlace(vals, 0, c.regs)
    requires c.pc < |p| && p[c.pc] == FCall(i.addr, |vals|) && |c.frames| == 1
    requires globals.Keys == i.outer.locals.Keys && GlobalsMatch(i.outer, globals, c.frames[0].locals)
    requires !HasCall(e) && !ExprErr(i.ft, FnFrames(i), e) && RegsFit(i.held, REG_COUNT, e)
    requires Eval(defs, fuel, globals + Bind(i.def.params, vals), e).Some?
    ensures Reaches(p, c, t) && t.pc == c.pc + 1 && t.frames == c.frames && t.rets == c.rets
    ensures Rep(Eval(defs, fuel, globals + Bind(i.def.params, vals), e).value, t.regs[0])
  {
    hide Reaches, CodeAt, ExprCode, RegsFit, ParamCode, ParamFrame, Bind, View, GlobalsMatch, FnBody, Distinct, ExprErr,
         HasCall, Eval, ArgsInPlace, Match;
    var env := globals + Bind(i.def.params, vals);
    ReachStep(p, c);
    var a := Enter(c, i.addr, |vals|);
    var b := EnterBody(p, i, vals, a);
    ReachTrans(p, c, a, b);
    CalleeView(i, globals, vals, b);
    BodyIs(i, e);
    var code := ExprCode(i.ft, FnFrames(i), i.held, e, 0);
    CodeAtSplit(p, b.pc, code, [FRet]);
    NoneLive(i.held);
    var u := ExprSeen(p, i.ft, FnFrames(i), i.held, {}, e, 0, defs, fuel, env, b);
    ReachTrans(p, c, b, u);
    CodeAtOp(p, u.pc, [FRet], 0);
    t := Leave(u);
    ReachThenStep(p, c, u);
  }

  lemma BodyIs(i: FnInfo, e: Expr)
    requires i.fold && i.def.body == Cons(Return(e), Nil)
    ensures FnBody(i) == ExprCode(i.ft, FnFrames(i), i.held, e, 0) + [FRet]
  {
    hide ExprCode, ParamFrame;
    var s: Stmt, n := Return(e), i.addr + |i.def.params|;
    assert ListCode(true, i.ft, FramesAfter(FnFrames(i), s), HeldAfter(i.held, s), Nil, n + StmtLen(true, s), 0, 0)
           == [];
    assert StmtCode(true, i.ft, FnFrames(i), i.held, s, n, 0, 0) == ExprCode(i.ft, FnFrames(i), i.held, e, 0) + [FRet];
  }

  lemma NoneLive(h: Held)
    ensures Live({}, h, REG_COUNT)
  {
  }
}
