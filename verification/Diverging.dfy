/** Programs that do not end: what the interpreter never finishes, the machine never finishes either. */
module Diverging {
  import opened Words
  import opened Machine
  import opened Source
  import opened Reference
  import opened Safety
  import opened Passing
  import opened Simulation
  import opened Programs
  import opened CallReturn

  // ----- running out of fuel -----

  // The interpreter gives no value when its fuel runs out and when the program goes wrong. These tell
  // the two apart: the evaluation was cut short, nothing having gone wrong before.

  predicate CutExpr(defs: Defs, fuel: nat, env: Env, e: Expr)
    decreases fuel, e, 0
  {
    match e
    case Neg(e1) => CutExpr(defs, fuel, env, e1)
    case Bin(_, l, r) => CutExpr(defs, fuel, env, l) || (Eval(defs, fuel, env, l).Some? && CutExpr(defs, fuel, env, r))
    case Call(f, args) =>
      || CutArgs(defs, fuel, env, args)
      || (match EvalArgs(defs, fuel, env, args)
          case None => false
          case Some(vals) =>
            && f in defs && |vals| == |defs[f].params|
            && (fuel == 0 || CutList(defs, fuel - 1, Bind(defs[f].params, vals), defs[f].body)))
    case _ => false
  }

  predicate CutArgs(defs: Defs, fuel: nat, env: Env, args: List<Expr>)
    decreases fuel, args, 0
  {
    match args
    case Nil => false
    case Cons(a, rest) =>
      CutExpr(defs, fuel, env, a) || (Eval(defs, fuel, env, a).Some? && CutArgs(defs, fuel, env, rest))
  }

  predicate CutStmt(defs: Defs, fuel: nat, env: Env, s: Stmt)
    decreases fuel, s, 0
  {
    match s
    case ExprS(e) => CutExpr(defs, fuel, env, e)
    case Set(_, e, _) => CutExpr(defs, fuel, env, e)
    case Block(body) => CutList(defs, fuel, env, body)
    case If(c, thn, els) =>
      || CutExpr(defs, fuel, env, c)
      || (match Eval(defs, fuel, env, c)
          case None => false
          case Some(v) => CutList(defs, fuel, env, if Truth(v) then thn else els))
    case Loop(None, body) => CutLoop(defs, fuel, env, None, body)
    case Loop(Some(e), body) =>
      || CutExpr(defs, fuel, env, e)
      || (match Eval(defs, fuel, env, e)
          case None => false
          case Some(v) => CutLoop(defs, fuel, env, Some(Low(v)), body))
    case Return(e) => CutExpr(defs, fuel, env, e)
    case _ => false
  }

  predicate CutList(defs: Defs, fuel: nat, env: Env, body: List<Stmt>)
    decreases fuel, body, 0
  {
    match body
    case Nil => false
    case Cons(s, rest) =>
      || CutStmt(defs, fuel, env, s)
      || match Exec(defs, fuel, env, s)
         case Some(Normal(env1)) => CutList(defs, fuel, env1, rest)
         case _ => false
  }

  function Less(left: Option<nat>): Option<nat>
    requires left != Some(0)
  {
    if left.Some? then Some(left.value - 1) else None
  }

  predicate CutLoop(defs: Defs, fuel: nat, env: Env, left: Option<nat>, body: List<Stmt>)
    decreases fuel, body, 2
  {
    && left != Some(0)
    && (|| fuel == 0
        || CutList(defs, fuel, env, body)
        || match ExecScoped(defs, fuel, env, body)
           case Some(Normal(env1)) => CutLoop(defs, fuel - 1, env1, Less(left), body)
           case Some(Continued(env1)) => CutLoop(defs, fuel - 1, env1, Less(left), body)
           case _ => false)
  }

  predicate CutItems(defs: Defs, fuel: nat, env: Env, items: List<Item>)
    decreases items
  {
    match items
    case Nil => false
    case Cons(Def(_, _, _), rest) => CutItems(defs, fuel, env, rest)
    case Cons(Do(s), rest) =>
      || CutStmt(defs, fuel, env, s)
      || match Exec(defs, fuel, env, s)
         case Some(Normal(env1)) => CutItems(defs, fuel, env1, rest)
         case _ => false
  }

  // ----- long runs -----

  /** The machine takes `n` steps or more. */
  ghost predicate LongRun(p: seq<Op>, s: State, n: nat) {
    exists k: nat :: k >= n && Steps(p, s, k).Some?
  }

  lemma LongNow(p: seq<Op>, s: State)
    ensures LongRun(p, s, 0)
  {
    assert Steps(p, s, 0).Some?;
  }

  lemma LongLater(p: seq<Op>, s: State, t: State, n: nat)
    requires Reaches(p, s, t) && LongRun(p, t, n)
    ensures LongRun(p, s, n)
  {
    hide Step;
    var j: nat :| Steps(p, s, j) == Some(t);
    var k: nat :| k >= n && Steps(p, t, k).Some?;
    StepsAdd(p, s, j, t, k);
    assert Steps(p, s, j + k).Some?;
  }

  lemma LongStep(p: seq<Op>, s: State, t: State, n: nat)
    requires Step(p, s) == Next(t) && LongRun(p, t, n)
    ensures LongRun(p, s, n + 1)
  {
    hide Step;
    var k: nat :| k >= n && Steps(p, t, k).Some?;
    assert Steps(p, s, k + 1) == Steps(p, t, k);
  }

  // ----- expressions -----

  /** Where the interpreter is cut short, the machine runs for at least as many steps as there was fuel. */
  lemma {:induction false} LongExpr(m: Image, frames: Frames, h: Held, k: set<nat>, lim: nat, e: Expr, d: nat,
                                    fuel: nat, env: Env, s: State)
    requires CodeAt(m.ops, s.pc, ExprCode(m.ft, frames, h, e, d)) && m.fold
    requires RegsFit(h, lim, e) && lim <= m.lim && SafeExpr(m.ft, frames, h, k, e) && Live(k, h, lim)
    requires Ready(frames, env, s)
    requires CutExpr(m.defs, fuel, env, e)
    ensures LongRun(m.ops, s, fuel)
    decreases fuel, e, 1
  {
    hide Step, Ready, CodeAt, LongRun, CutList, CutArgs, EvalArgs, ArgsCode, ArgsFit, SafeArgs, FirstFree, Alloc,
         PassExpr, Passed;
    match e
    case Neg(e1) =>
      CodeAtSplit(m.ops, s.pc, ExprCode(m.ft, frames, h, e1, Res(h, e1)),
                  [MovRI(Res(h, e), 0), Alu(Sub, d, Res(h, e), Res(h, e1))]);
      LongExpr(m, frames, h, k, lim, e1, Res(h, e1), fuel, env, s);
    case Bin(op, l, r) =>
      LongBin(m, frames, h, k, lim, op, l, r, d, fuel, env, s);
    case Call(f, args) =>
      LongCall(m, frames, h, k, lim, f, args, d, fuel, env, s);
  }

  lemma BinSafe(ft: Funcs, frames: Frames, h: Held, k: set<nat>, op: Oper, l: Expr, r: Expr)
    requires SafeExpr(ft, frames, h, k, Bin(op, l, r))
    ensures SafeExpr(ft, frames, Left(h), k, l) && SafeExpr(ft, frames, Left(h), k + {Alloc(h)}, r)
  {
  }

  lemma {:induction false} LongBin(m: Image, frames: Frames, h: Held, k: set<nat>, lim: nat, op: Oper, l: Expr, r: Expr,
                                   d: nat, fuel: nat, env: Env, s: State)
    requires CodeAt(m.ops, s.pc, ExprCode(m.ft, frames, h, Bin(op, l, r), d)) && m.fold
    requires RegsFit(h, lim, Bin(op, l, r)) && lim <= m.lim && SafeExpr(m.ft, frames, h, k, Bin(op, l, r))
    requires Live(k, h, lim)
    requires Ready(frames, env, s)
    requires CutExpr(m.defs, fuel, env, Bin(op, l, r))
    ensures LongRun(m.ops, s, fuel)
    decreases fuel, Bin(op, l, r), 0
  {
    hide Alloc, Right, Left, SafeExpr, RegsFit, Live, Eval, Step, Reaches, LongRun, PassExpr, Passed, CodeAt, Ready,
         CutArgs, CutList;
    BinSafe(m.ft, frames, h, k, op, l, r);
    var tail := [Alu(op, d, Alloc(h), Right(h, r))];
    var rest := ExprCode(m.ft, frames, Left(h), r, Right(h, r)) + tail;
    assert ExprCode(m.ft, frames, h, Bin(op, l, r), d) == ExprCode(m.ft, frames, Left(h), l, Alloc(h)) + rest;
    BinRegs(h, k, lim, op, l, r);
    if CutExpr(m.defs, fuel, env, l) {
      CodeAtSplit(m.ops, s.pc, ExprCode(m.ft, frames, Left(h), l, Alloc(h)), rest);
      LongExpr(m, frames, Left(h), k, lim, l, Alloc(h), fuel, env, s);
    } else {
      var t := SimLeft(m, frames, h, k, lim, l, rest, fuel, env, s);
      SameReady(frames, env, s, t);
      CodeAtSplit(m.ops, t.pc, ExprCode(m.ft, frames, Left(h), r, Right(h, r)), tail);
      LongExpr(m, frames, Left(h), k + {Alloc(h)}, lim, r, Right(h, r), fuel, env, t);
      LongLater(m.ops, s, t, fuel);
    }
  }

  // ----- calls -----

  lemma {:induction false} LongCall(m: Image, frames: Frames, h: Held, k: set<nat>, lim: nat, f: string,
                                    args: List<Expr>,
                                    d: nat, fuel: nat, env: Env, s: State)
    requires CodeAt(m.ops, s.pc, ExprCode(m.ft, frames, h, Call(f, args), d)) && m.fold
    requires RegsFit(h, lim, Call(f, args)) && lim <= m.lim && SafeExpr(m.ft, frames, h, k, Call(f, args))
    requires Ready(frames, env, s)
    requires CutExpr(m.defs, fuel, env, Call(f, args))
    ensures LongRun(m.ops, s, fuel)
    decreases fuel, args, 2
  {
    hide ArgsCode, SafeArgs, EvalArgs, ExecList, Match, Step, Reaches, ArgsFit, CutArgs, CutList, LongRun, Bind,
         PassArgs, Passed;
    ArgsLess(h, lim, m.lim, args);
    var call, move := [CallCode(m.ft, f)], if d == 0 then [] else [MovRR(d, 0)];
    assert ExprCode(m.ft, frames, h, Call(f, args), d) == ArgsCode(m.ft, frames, h, args, 0) + (call + move);
    if CutArgs(m.defs, fuel, env, args) {
      CodeAtSplit(m.ops, s.pc, ArgsCode(m.ft, frames, h, args, 0), call + move);
      LongArgs(m, frames, h, k, args, 0, fuel, env, s);
    } else if fuel == 0 {
      LongNow(m.ops, s);
    } else {
      var t := SimPass(m, frames, h, k, args, call + move, fuel, env, s);
      CodeAtSplit(m.ops, t.pc, call, move);
      CodeAtOp(m.ops, t.pc, call, 0);
      assert Entered(m.ft, m.fns, f);
      LongFn(m, f, fuel - 1, EvalArgs(m.defs, fuel, env, args).value, t);
      LongLater(m.ops, s, t, fuel);
    }
  }

  lemma {:induction false} LongArgs(m: Image, frames: Frames, h: Held, k: set<nat>, args: List<Expr>, i: nat,
                                    fuel: nat, env: Env, s: State)
    requires CodeAt(m.ops, s.pc, ArgsCode(m.ft, frames, h, args, i)) && ArgsFit(h, m.lim, args) && m.fold
    requires i + Length(args) <= MAX_ARGS && k <= SAVED_REGS && k <= h && SafeArgs(m.ft, frames, h, k, args, i)
    requires Ready(frames, env, s)
    requires CutArgs(m.defs, fuel, env, args)
    ensures LongRun(m.ops, s, fuel)
    decreases fuel, args, 0
  {
    hide ExprCode, Match, RegsFit, SafeExpr, Eval, CutExpr, PassArg, Passed, LongRun, Reaches;
    var Cons(a, rest) := args;
    CodeAtSplit(m.ops, s.pc, ExprCode(m.ft, frames, h, a, ArgReg(i)), ArgsCode(m.ft, frames, h, rest, i + 1));
    if CutExpr(m.defs, fuel, env, a) {
      ArgLive(m.ft, frames, h, k, a, i);
      var lim := Min(REG_COUNT - i, m.lim);
      assert Live(k + ArgRegs(i), h, lim);
      LongExpr(m, frames, h, k + ArgRegs(i), lim, a, ArgReg(i), fuel, env, s);
    } else {
      var t := SimArg(m, frames, h, k, a, i, fuel, env, s);
      LongArgs(m, frames, h, k, rest, i + 1, fuel, env, t);
      LongLater(m.ops, s, t, fuel);
    }
  }

  lemma {:induction false} LongFn(m: Image, f: string, fuel: nat, vals: seq<Value>, t: State)
    requires Entered(m.ft, m.fns, f) && m.fold
    requires |vals| == |m.fns[f].def.params| <= MAX_ARGS && ArgsInPlace(vals, 0, t.regs)
    requires t.pc < |m.ops| && m.ops[t.pc] == FCall(m.fns[f].addr, |vals|)
    requires f in m.defs && |m.defs[f].params| == |vals|
    requires CutList(m.defs, fuel, Bind(m.defs[f].params, vals), m.defs[f].body)
    ensures LongRun(m.ops, t, fuel + 1)
    decreases fuel
  {
    hide ListCode, ListFits, SafeList, Bind, CutList, LongRun, Reaches;
    assert FnOk(m.fold, m.lim, m.ops, m.defs, m.fns, f);
    var i, a := m.fns[f], Enter(t, m.fns[f].addr, |vals|);
    var b := EnterBody(m.ops, i, vals, a);
    var callee := CalleeImage(m, f);
    LongList(callee, FnFrames(i), i.held, {}, Place(|vals| + 1, true, false), i.def.body, 0, 0, fuel,
             Bind(i.def.params, vals), b);
    LongLater(m.ops, a, b, fuel);
    LongStep(m.ops, t, a, fuel);
  }

  // ----- statements -----

  lemma {:induction false} LongValue(m: Image, frames: Frames, h: Held, k: set<nat>, e: Expr, fuel: nat, env: Env,
                                     s: State)
    requires CodeAt(m.ops, s.pc, ValueCode(m.fold, m.ft, frames, h, e)) && m.fold
    requires RegsFit(h, m.lim, e) && SafeExpr(m.ft, frames, h, k, e) && Live(k, h, REG_COUNT)
    requires Ready(frames, env, s)
    requires CutExpr(m.defs, fuel, env, e)
    ensures LongRun(m.ops, s, fuel)
    decreases fuel, e, 2
  {
    hide ExprCode, PlainCode, RegsFit, SafeExpr, CutExpr, Ready, CodeAt, LongRun, Res;
    assert Live(k, h, m.lim);
    LongExpr(m, frames, h, k, m.lim, e, Res(h, e), fuel, env, s);
  }

  lemma {:induction false} LongList(m: Image, frames: Frames, h: Held, k: set<nat>, pl: Place, body: List<Stmt>,
                                    brk: nat, cnt: nat, fuel: nat, env: Env, s: State)
    requires CodeAt(m.ops, s.pc, ListCode(m.fold, m.ft, frames, h, body, s.pc, brk, cnt)) && m.fold
    requires ListFits(m.lim, h, body) && SafeList(m.ft, frames, h, k, pl, body) && Live(k, h, REG_COUNT)
    requires Here(frames, pl, env, s)
    requires CutList(m.defs, fuel, env, body)
    ensures LongRun(m.ops, s, fuel)
    decreases fuel, body, 0
  {
    hide StmtCode, StmtFits, SafeStmt, Exec, CutStmt, Match, Step, Reaches, Done, Here, SameFrame, Kept, Grown, Extends,
         PassStmt, Passed, LongRun;
    var Cons(st, rest) := body;
    var frames1, h1, n1 := FramesAfter(frames, st), HeldAfter(h, st), s.pc + StmtLen(m.fold, st);
    CodeAtSplit(m.ops, s.pc, StmtCode(m.fold, m.ft, frames, h, st, s.pc, brk, cnt),
                ListCode(m.fold, m.ft, frames1, h1, rest, n1, brk, cnt));
    if CutStmt(m.defs, fuel, env, st) {
      LongStmt(m, frames, h, k, pl, st, brk, cnt, fuel, env, s);
    } else {
      HereMeans(frames, pl, env, s);
      FramesGrow(m.ft, frames, h, k, pl, st);
      HeldGrows(h, st);
      var t := SimStmt(m, frames, h, k, pl, st, brk, cnt, fuel, env, s);
      var out := Exec(m.defs, fuel, env, st).value;
      HereNext(frames, frames1, pl, k, env, out.env, s, t, n1, brk, cnt);
      LongList(m, frames1, h1, k, pl, rest, brk, cnt, fuel, out.env, t);
      LongLater(m.ops, s, t, fuel);
    }
  }

  lemma {:induction false} LongStmt(m: Image, frames: Frames, h: Held, k: set<nat>, pl: Place, st: Stmt,
                                    brk: nat, cnt: nat, fuel: nat, env: Env, s: State)
    requires CodeAt(m.ops, s.pc, StmtCode(m.fold, m.ft, frames, h, st, s.pc, brk, cnt)) && m.fold
    requires StmtFits(m.lim, h, st) && SafeStmt(m.ft, frames, h, k, pl, st) && Live(k, h, REG_COUNT)
    requires Here(frames, pl, env, s)
    requires CutStmt(m.defs, fuel, env, st)
    ensures LongRun(m.ops, s, fuel)
    decreases fuel, st, 3
  {
    hide ListCode, ValueCode, ResultCode, LoopCode, ListFits, SafeList, CutList, CutLoop, CutExpr, RegsFit, SafeExpr,
        Eval,
         Step, Match, LongRun, Live;
    match st
    case ExprS(e) => LongValue(m, frames, h, k, e, fuel, env, s);
    case Set(x, e, _) =>
      CodeAtSplit(m.ops, s.pc, ValueCode(m.fold, m.ft, frames, h, e),
                  [LocalSet(SetDepth(frames, x), SetSlot(frames, x), Res(h, e))]);
      LongValue(m, frames, h, k, e, fuel, env, s);
    case Block(body) => LongList(m, frames, h, k, pl, body, brk, cnt, fuel, env, s);
    case If(c, thn, els) => LongIf(m, frames, h, k, pl, c, thn, els, brk, cnt, fuel, env, s);
    case Loop(None, body) => LongLoop(m, frames, h, k, pl, None, None, body, fuel, env, s);
    case Loop(Some(c), body) => LongCounted(m, frames, h, k, pl, c, body, fuel, env, s);
    case Return(e) =>
      CodeAtSplit(m.ops, s.pc, ResultCode(m.fold, m.ft, frames, h, e), [FRet]);
      LongResult(m, frames, h, k, e, fuel, env, s);
  }

  lemma {:induction false} LongResult(m: Image, frames: Frames, h: Held, k: set<nat>, e: Expr, fuel: nat, env: Env,
                                      s: State)
    requires CodeAt(m.ops, s.pc, ResultCode(m.fold, m.ft, frames, h, e)) && m.fold
    requires RegsFit(h, m.lim, e) && SafeExpr(m.ft, frames, h, k, e) && Live(k, h, REG_COUNT)
    requires Ready(frames, env, s)
    requires CutExpr(m.defs, fuel, env, e)
    ensures LongRun(m.ops, s, fuel)
    decreases fuel, e, 2
  {
    hide ExprCode, PlainCode, RegsFit, SafeExpr, CutExpr, Ready, CodeAt, LongRun;
    assert Live(k, h, m.lim);
    LongExpr(m, frames, h, k, m.lim, e, 0, fuel, env, s);
  }

  lemma {:induction false} LongIf(m: Image, frames: Frames, h: Held, k: set<nat>, pl: Place, c: Expr, thn: List<Stmt>,
                                  els: List<Stmt>, brk: nat, cnt: nat, fuel: nat, env: Env, s: State)
    requires CodeAt(m.ops, s.pc, StmtCode(m.fold, m.ft, frames, h, If(c, thn, els), s.pc, brk, cnt)) && m.fold
    requires StmtFits(m.lim, h, If(c, thn, els)) && SafeStmt(m.ft, frames, h, k, pl, If(c, thn, els))
    requires Live(k, h, REG_COUNT) && Here(frames, pl, env, s)
    requires CutStmt(m.defs, fuel, env, If(c, thn, els))
    ensures LongRun(m.ops, s, fuel)
    decreases fuel, If(c, thn, els), 0
  {
    hide ListCode, StmtCode, ValueCode, ListFits, SafeList, CutList, CutExpr, RegsFit, SafeExpr, Eval, Step, Reaches,
         PassExpr, Passed, LongRun, Match;
    var h1 := Hold(h, Res(h, c));
    IfParts(m.fold, m.ops, m.ft, frames, h, c, thn, els, s.pc, brk, cnt);
    if CutExpr(m.defs, fuel, env, c) {
      LongValue(m, frames, h, k, c, fuel, env, s);
    } else {
      var b := SimCond(m, frames, h, k, c, ElseAt(m.fold, c, thn, s.pc), fuel, env, s);
      if Truth(Eval(m.defs, fuel, env, c).value) {
        LongList(m, frames, h1, k, pl, thn, brk, cnt, fuel, env, b);
      } else {
        BlockGrows(m.ft, frames, h1, k, pl, thn);
        HeldGrowsList(h1, thn);
        LongList(m, FramesAfterBlock(frames, thn), HeldAfterList(h1, thn), k, pl, els, brk, cnt, fuel, env, b);
      }
      LongLater(m.ops, s, b, fuel);
    }
  }

  // ----- loops -----

  lemma {:induction false} LongCounted(m: Image, frames: Frames, h: Held, k: set<nat>, pl: Place, c: Expr,
                                       body: List<Stmt>, fuel: nat, env: Env, s: State)
    requires CodeAt(m.ops, s.pc, StmtCode(m.fold, m.ft, frames, h, Loop(Some(c), body), s.pc, 0, 0)) && m.fold
    requires StmtFits(m.lim, h, Loop(Some(c), body)) && SafeStmt(m.ft, frames, h, k, pl, Loop(Some(c), body))
    requires Live(k, h, REG_COUNT) && Here(frames, pl, env, s)
    requires CutStmt(m.defs, fuel, env, Loop(Some(c), body))
    ensures LongRun(m.ops, s, fuel)
    decreases fuel, Loop(Some(c), body), 1
  {
    hide ListCode, ValueCode, ListFits, SafeList, LoopCode, CutExpr, CutLoop, Eval, SafeExpr, Step, Reaches, PassExpr,
         Passed, LongRun, Match;
    var r, start := Res(h, c), s.pc + ValueLen(m.fold, c);
    ResLen(h, c);
    CodeAtSplit(m.ops, s.pc, ValueCode(m.fold, m.ft, frames, h, c),
                LoopCode(m.fold, m.ft, frames, Hold(h, r), Some(r), body, start));
    if CutExpr(m.defs, fuel, env, c) {
      LongValue(m, frames, h, k, c, fuel, env, s);
    } else {
      var v := Eval(m.defs, fuel, env, c).value;
      var u := SimValue(m, frames, h, k, c, fuel, env, s);
      TruthOfRep(v, u.regs[r]);
      LongLoop(m, frames, Hold(h, r), k, pl, Some(r), Some(Low(v)), body, fuel, env, u);
      LongLater(m.ops, s, u, fuel);
    }
  }

  /** Every round uses up one unit of fuel and takes the machine at least one step. */
  lemma {:induction false} LongLoop(m: Image, frames: Frames, h: Held, k: set<nat>, pl: Place, r: Option<nat>,
                                    left: Option<nat>, body: List<Stmt>, fuel: nat, env: Env, s: State)
    requires CodeAt(m.ops, s.pc, LoopCode(m.fold, m.ft, frames, h, r, body, s.pc)) && m.fold
    requires ListFits(m.lim, h, body) && SafeList(m.ft, frames, h, WithCounter(k, r), pl.(inLoop := true), body)
    requires LoopReady(frames, h, k, pl, r, left, env, s) && r != Some(m.lim)
    requires CutLoop(m.defs, fuel, env, left, body)
    ensures LongRun(m.ops, s, fuel)
    decreases fuel, body, 3
  {
    hide ListCode, ListFits, SafeList, ExecScoped, CutList, LoopCode, Step, Reaches, PassList, Passed, LongRun, CodeAt,
         LoopReady, Done, CounterIs, SameFrame;
    LoopParts(m.fold, m.ops, m.ft, frames, h, r, body, s.pc);
    if fuel == 0 {
      LongNow(m.ops, s);
    } else if CutList(m.defs, fuel, env, body) {
      LongBody(m, frames, h, k, pl, r, left, body, fuel, env, s);
    } else {
      var t := SimRound(m, frames, h, k, pl, r, left, body, fuel, env, s);
      var out := ExecScoped(m.defs, fuel, env, body).value;
      LoopHas(frames, h, k, pl, r, left, env, s);
      ScopedKeys(m.defs, fuel, env, body);
      var w := AfterRound(m, frames, h, k, pl, r, left, body, env, out, s, t);
      LongLoop(m, frames, h, k, pl, r, Less(left), body, fuel - 1, out.env, w);
      var t1 := FirstStep(m.ops, t);
      LongLater(m.ops, t1, w, fuel - 1);
      LongStep(m.ops, t, t1, fuel - 1);
      LongLater(m.ops, s, t, fuel);
    }
  }

  /** From the end of a round to the test of the next, in a step or two. */
  lemma AfterRound(m: Image, frames: Frames, h: Held, k: set<nat>, pl: Place, r: Option<nat>, left: Option<nat>,
                   body: List<Stmt>, env: Env, out: Out, s: State, t: State)
    returns (w: State)
    requires CodeAt(m.ops, s.pc, LoopCode(m.fold, m.ft, frames, h, r, body, s.pc))
    requires LoopReady(frames, h, k, pl, r, left, env, s) && left != Some(0) && (out.Normal? || out.Continued?)
    requires Restrict(out.env, env.Keys) == out.env
    requires var end := LoopEnd(m.fold, r, body, s.pc);
             Done(Last(frames).locals, Last(frames).locals, WithCounter(k, r), s, t, out, end - 1 - Counted(r), end,
                  end - 1 - Counted(r))
    ensures Step(m.ops, t).Next? && Reaches(m.ops, Step(m.ops, t).state, w) && w.pc == s.pc
    ensures LoopReady(frames, h, k, pl, r, Less(left), out.env, w)
  {
    hide ListCode, LoopCode, Step, Reaches, Rep, CodeAt;
    LoopParts(m.fold, m.ops, m.ft, frames, h, r, body, s.pc);
    w := NextRound(m.ops, k, r, left, t, s.pc);
  }

  lemma FirstStep(p: seq<Op>, t: State) returns (t1: State)
    requires Step(p, t).Next?
    ensures Step(p, t) == Next(t1)
  {
    t1 := Step(p, t).state;
  }

  lemma {:induction false} LongBody(m: Image, frames: Frames, h: Held, k: set<nat>, pl: Place, r: Option<nat>,
                                    left: Option<nat>, body: List<Stmt>, fuel: nat, env: Env, s: State)
    requires CodeAt(m.ops, s.pc, LoopCode(m.fold, m.ft, frames, h, r, body, s.pc)) && m.fold
    requires ListFits(m.lim, h, body) && SafeList(m.ft, frames, h, WithCounter(k, r), pl.(inLoop := true), body)
    requires LoopReady(frames, h, k, pl, r, left, env, s) && left != Some(0)
    requires CutList(m.defs, fuel, env, body)
    ensures LongRun(m.ops, s, fuel)
    decreases fuel, body, 2
  {
    hide ListCode, ListFits, SafeList, CutList, LoopCode, LongRun;
    LoopParts(m.fold, m.ops, m.ft, frames, h, r, body, s.pc);
    ReachRefl(m.ops, s);
    var b := s;
    if r.Some? {
      ReachStep(m.ops, s);
      b := Step(m.ops, s).state;
    }
    LongList(m, frames, h, WithCounter(k, r), pl.(inLoop := true), body, LoopEnd(m.fold, r, body, s.pc),
             LoopEnd(m.fold, r, body, s.pc) - 1 - Counted(r), fuel, env, b);
    LongLater(m.ops, s, b, fuel);
  }

  // ----- programs -----

  lemma {:induction false} LongItems(m: Image, u: Scope, items: List<Item>, fuel: nat, env: Env, s: State)
    requires u.fold && m.fold && m.lim == NO_REG && Known(u.ft, m.fns)
    requires Within(FnsOf(u, items, s.pc), m.fns) && Within(DefsOf(items), m.defs)
    requires CodeAt(m.ops, s.pc, ItemsCode(u, items, s.pc)) && SafeItems(u, items, s.pc)
    requires AtTop(u, env, s)
    requires CutItems(m.defs, fuel, env, items)
    ensures LongRun(m.ops, s, fuel)
    decreases items
  {
    hide Known, AtTop, ItemCode, SafeItem, Within, FnsOf, DefsOf, Exec, CutStmt, Step, Reaches, LongRun;
    var Cons(item, rest) := items;
    var u1, n1 := AfterItem(u, item, s.pc), s.pc + |ItemCode(u, item, s.pc)|;
    CodeAtSplit(m.ops, s.pc, ItemCode(u, item, s.pc), ItemsCode(u1, rest, n1));
    FirstItem(u, item, rest, s.pc, m.fns, m.defs);
    if item.Def? {
      var w := SimDef(m, u, item.f, item.params, item.body, env, s);
      LongItems(m, u1, rest, fuel, env, w);
      LongLater(m.ops, s, w, fuel);
    } else if CutStmt(m.defs, fuel, env, item.s) {
      LongDo(m, u, item.s, fuel, env, s);
    } else {
      var w := SimDo(m, u, item.s, fuel, env, s);
      LongItems(m, u1, rest, fuel, Exec(m.defs, fuel, env, item.s).value.env, w);
      LongLater(m.ops, s, w, fuel);
    }
  }

  lemma LongDo(m: Image, u: Scope, st: Stmt, fuel: nat, env: Env, s: State)
    requires u.fold && m.fold && m.lim == NO_REG && Known(u.ft, m.fns)
    requires CodeAt(m.ops, s.pc, ItemCode(u, Do(st), s.pc)) && SafeItem(u, Do(st), s.pc)
    requires AtTop(u, env, s) && CutStmt(m.defs, fuel, env, st)
    ensures LongRun(m.ops, s, fuel)
  {
    hide StmtCode, StmtErr, SafeStmt, StmtFits, CutStmt, LongRun;
    var here: Image := m.(ft := u.ft);
    LongStmt(here, [u.glob], u.held, {}, TOP_LEVEL, st, 0, 0, fuel, env, s);
  }

  lemma LongProgram(items: List<Item>, fuel: nat)
    requires SafeProgram(items) && CutItems(DefsOf(items), fuel, map[], items)
    ensures LongRun(Compile(items), Start(), fuel)
  {
    hide FnOk, Start, ItemsCode, SafeItems, FnsOf, DefsOf, CutItems, LongRun;
    var p, u := Compile(items), FRESH;
    StartAtTop(true);
    ProgramLinked(true, items);
    var m: Image := Program(true, NO_REG, p, DefsOf(items), FnsOf(u, items, 0), map[]);
    assert p[0..0 + |p|] == p;
    CodeAtSplit(p, 0, ItemsCode(u, items, 0), [Halt]);
    LongItems(m, u, items, fuel, map[], Start());
  }

  /** The program never goes wrong: with any fuel the interpreter finishes or is cut short. */
  ghost predicate Typed(items: List<Item>) {
    forall fuel: nat ::
      ExecItems(DefsOf(items), fuel, map[], items).Some? || CutItems(DefsOf(items), fuel, map[], items)
  }

  ghost predicate Ends(items: List<Item>) {
    exists fuel: nat :: ExecItems(DefsOf(items), fuel, map[], items).Some?
  }

  ghost predicate Halts(p: seq<Op>) {
    exists t: State :: Reaches(p, Start(), t) && Step(p, t) == Halted
  }

  /** A safe program that never goes wrong: the machine halts on it exactly when the interpreter finishes
      with some fuel, and otherwise runs for ever. */
  lemma HaltsIff(items: List<Item>)
    requires SafeProgram(items) && Typed(items)
    ensures Halts(Compile(items)) <==> Ends(items)
    ensures !Ends(items) ==> forall k: nat :: Steps(Compile(items), Start(), k).Some?
  {
    hide Compile, SafeProgram, Start, Step, Steps, ExecItems, CutItems, DefsOf;
    if Ends(items) {
      var fuel: nat :| ExecItems(DefsOf(items), fuel, map[], items).Some?;
      var t := CompilerCorrect(items, fuel);
    } else {
      forall k: nat
        ensures Steps(Compile(items), Start(), k).Some?
      {
        LongProgram(items, k);
        LongAll(Compile(items), Start(), k);
      }
      NeverHalts(Compile(items));
    }
  }

  lemma LongAll(p: seq<Op>, s: State, n: nat)
    requires LongRun(p, s, n)
    ensures Steps(p, s, n).Some?
  {
    hide Step;
    var k: nat :| k >= n && Steps(p, s, k).Some?;
    PrefixRun(p, s, n, k - n);
  }

  lemma NeverHalts(p: seq<Op>)
    requires forall k: nat :: Steps(p, Start(), k).Some?
    ensures !Halts(p)
  {
    hide Step, Start;
    forall t: State | Reaches(p, Start(), t)
      ensures Step(p, t).Next?
    {
      var k: nat :| Steps(p, Start(), k) == Some(t);
      StepsAdd(p, Start(), k, t, 1);
      assert Steps(p, Start(), k + 1).Some?;
    }
  }
}
