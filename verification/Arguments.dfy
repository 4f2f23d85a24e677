/** What a function finds in its parameters. Arguments wait in fixed registers, 254 downwards, until the
    call; a call among the later arguments passes its own in the same registers. */
module Arguments {
  import opened Words
  import opened Machine
  import opened Source
  import opened Reference
  import opened Safety
  import opened Passing
  import opened Simulation

  // ----- what the register holds at the call -----

  /** Every argument on its own does what it should; nothing is said about what it does to the others. */
  predicate EachSafe(ft: Funcs, frames: Frames, h: Held, args: List<Expr>) {
    match args
    case Nil => true
    case Cons(a, rest) => SafeExpr(ft, frames, h, {}, a) && EachSafe(ft, frames, h, rest)
  }

  lemma {:induction false} ArgsPassed(m: Image, frames: Frames, h: Held, args: List<Expr>, i: nat, fuel: nat, env: Env,
                                      s: State)
    returns (u: State)
    requires CodeAt(m.ops, s.pc, ArgsCode(m.ft, frames, h, args, i)) && ArgsFit(h, m.lim, args)
    requires i + Length(args) <= MAX_ARGS && EachSafe(m.ft, frames, h, args)
    requires Ready(frames, env, s) && EvalArgs(m.defs, fuel, env, args).Some?
    ensures Reaches(m.ops, s, u)
    ensures u.pc == s.pc + ArgsLen(args, i) && u.frames == s.frames && u.rets == s.rets
    ensures Passed(m, PassArgs(m.defs, fuel, env, Pos(m), args, i), s.regs, u.regs)
    decreases args
  {
    hide ExprCode, RegsFit, SafeExpr, Eval, PassArg, Passed, Pos, Reaches, Match;
    match args
    case Nil =>
      ReachRefl(m.ops, s);
      u := s;
      PassedNothing(m, s.regs, s.regs);
    case Cons(a, rest) =>
      CodeAtSplit(m.ops, s.pc, ExprCode(m.ft, frames, h, a, ArgReg(i)), ArgsCode(m.ft, frames, h, rest, i + 1));
      var t := OnePassed(m, frames, h, a, i, fuel, env, s);
      u := ArgsPassed(m, frames, h, rest, i + 1, fuel, env, t);
      ReachTrans(m.ops, s, t, u);
      PassedThen(m, PassArg(m.defs, fuel, env, Pos(m), a, i), PassArgs(m.defs, fuel, env, Pos(m), rest, i + 1), s.regs,
                 t.regs, u.regs);
  }

  lemma OnePassed(m: Image, frames: Frames, h: Held, a: Expr, i: nat, fuel: nat, env: Env, s: State)
    returns (t: State)
    requires CodeAt(m.ops, s.pc, ExprCode(m.ft, frames, h, a, ArgReg(i))) && RegsFit(h, m.lim, a)
    requires i < MAX_ARGS && SafeExpr(m.ft, frames, h, {}, a)
    requires Ready(frames, env, s) && Eval(m.defs, fuel, env, a).Some?
    ensures Reaches(m.ops, s, t)
    ensures t.pc == s.pc + ExprLen(a, ArgReg(i) == 0) && t.frames == s.frames && t.rets == s.rets
    ensures Passed(m, PassArg(m.defs, fuel, env, Pos(m), a, i), s.regs, t.regs)
  {
    hide ExprCode, RegsFit, SafeExpr, Eval, PassExpr, Reaches, Ready;
    t := SimExpr(m, frames, h, {}, m.lim, a, ARG_REG - i, fuel, env, s);
  }

  function Drop(args: List<Expr>, n: nat): List<Expr> {
    if n == 0 || args.Nil? then args else Drop(args.tail, n - 1)
  }

  /** What is passed as argument `j` by the arguments behind argument `j`. */
  function PassedLater(defs: Defs, fuel: nat, env: Env, args: List<Expr>, j: nat): Option<Value> {
    PassArgs(defs, fuel, env, j, Drop(args, j + 1), j + 1)
  }

  /** The last of what is passed: the argument itself, unless a later one passes something. */
  lemma {:induction false} LastPassed(defs: Defs, fuel: nat, env: Env, args: List<Expr>, i: nat, j: nat)
    requires i <= j < i + Length(args) && EvalArgs(defs, fuel, env, args).Some?
    ensures var later := PassArgs(defs, fuel, env, j, Drop(args, j - i + 1), j + 1);
            PassArgs(defs, fuel, env, j, args, i)
            == if later.Some? then later else Some(EvalArgs(defs, fuel, env, args).value[j - i])
    decreases args
  {
    hide Eval;
    var later := PassArgs(defs, fuel, env, j, Drop(args, j - i + 1), j + 1);
    assert args.Cons?;
    assert Drop(args, 1) == args.tail by {
      assert Drop(args.tail, 0) == args.tail;
    }
    if i < j {
      LastPassed(defs, fuel, env, args.tail, i + 1, j);
      assert Drop(args, j - i + 1) == Drop(args.tail, j - i);
    } else {
      NoneBehind(defs, fuel, env, args.tail, i + 1, j);
    }
  }

  lemma NoneBehind(defs: Defs, fuel: nat, env: Env, args: List<Expr>, i: nat, j: nat)
    ensures PassArgs(defs, fuel, env, j, Drop(args, 0), i) == PassArgs(defs, fuel, env, j, args, i)
  {
  }

  /** A call with arguments of any kind: the function starts with its parameter `j` holding the last
      value passed in that place since the argument was evaluated. */
  lemma Received(m: Image, frames: Frames, h: Held, f: string, args: List<Expr>, j: nat, fuel: nat, env: Env, s: State)
    returns (a: State)
    requires m.lim == ARG_REG - j && j < Length(args) <= MAX_ARGS && f in m.ft && m.ft[f].arity == Length(args)
    requires CodeAt(m.ops, s.pc, ArgsCode(m.ft, frames, h, args, 0) + [CallCode(m.ft, f)])
    requires ArgsFit(h, m.lim, args) && EachSafe(m.ft, frames, h, args)
    requires Ready(frames, env, s) && EvalArgs(m.defs, fuel, env, args).Some?
    ensures Reaches(m.ops, s, a) && a.pc == m.ft[f].addr
    ensures a.frames != [] && Front(a.frames) == s.frames && |Last(a.frames).locals| == Length(args) + 1
    ensures var later := PassedLater(m.defs, fuel, env, args, j);
            Rep(if later.Some? then later.value else EvalArgs(m.defs, fuel, env, args).value[j],
                Last(a.frames).locals[j])
  {
    hide ArgsCode, ArgsFit, EachSafe, PassArgs, Reaches;
    CodeAtSplit(m.ops, s.pc, ArgsCode(m.ft, frames, h, args, 0), [CallCode(m.ft, f)]);
    var t := ArgsPassed(m, frames, h, args, 0, fuel, env, s);
    CodeAtOp(m.ops, t.pc, [CallCode(m.ft, f)], 0);
    ReachThenStep(m.ops, s, t);
    a := Enter(t, m.ft[f].addr, m.ft[f].arity);
    LastPassed(m.defs, fuel, env, args, 0, j);
  }

  /** The parameter is the argument exactly when nothing was passed in its place later, or the same
      number again. */
  lemma OverwrittenIff(m: Image, frames: Frames, h: Held, f: string, args: List<Expr>, j: nat, fuel: nat, env: Env,
                       s: State, n: int)
    returns (a: State)
    requires m.lim == ARG_REG - j && j < Length(args) <= MAX_ARGS && f in m.ft && m.ft[f].arity == Length(args)
    requires CodeAt(m.ops, s.pc, ArgsCode(m.ft, frames, h, args, 0) + [CallCode(m.ft, f)])
    requires ArgsFit(h, m.lim, args) && EachSafe(m.ft, frames, h, args)
    requires Ready(frames, env, s) && EvalArgs(m.defs, fuel, env, args).Some?
    requires EvalArgs(m.defs, fuel, env, args).value[j] == I(n)
    requires PassedLater(m.defs, fuel, env, args, j).Some? ==> PassedLater(m.defs, fuel, env, args, j).value.I?
    ensures Reaches(m.ops, s, a) && a.pc == m.ft[f].addr
    ensures a.frames != [] && Front(a.frames) == s.frames && |Last(a.frames).locals| == Length(args) + 1
    ensures var later := PassedLater(m.defs, fuel, env, args, j);
            Last(a.frames).locals[j] == n <==> later == None || later == Some(I(n))
  {
    hide ArgsCode, ArgsFit, EachSafe, PassArgs, Reaches, Linked, Match;
    a := Received(m, frames, h, f, args, j, fuel, env, s);
  }

  // ----- from the text: nothing is passed -----

  /** No call in it passes an argument `j`, and every function it calls is one of `q`. */
  predicate QuietExpr(j: nat, q: set<string>, e: Expr) {
    match e
    case Neg(e1) => QuietExpr(j, q, e1)
    case Bin(_, l, r) => QuietExpr(j, q, l) && QuietExpr(j, q, r)
    case Call(f, args) => Length(args) <= j && f in q && QuietArgs(j, q, args)
    case _ => true
  }

  predicate QuietArgs(j: nat, q: set<string>, args: List<Expr>) {
    match args
    case Nil => true
    case Cons(a, rest) => QuietExpr(j, q, a) && QuietArgs(j, q, rest)
  }

  predicate QuietStmt(j: nat, q: set<string>, s: Stmt)
    decreases s, 0
  {
    match s
    case ExprS(e) => QuietExpr(j, q, e)
    case Set(_, e, _) => QuietExpr(j, q, e)
    case Block(body) => QuietList(j, q, body)
    case If(c, thn, els) => QuietExpr(j, q, c) && QuietList(j, q, thn) && QuietList(j, q, els)
    case Loop(None, body) => QuietList(j, q, body)
    case Loop(Some(c), body) => QuietExpr(j, q, c) && QuietList(j, q, body)
    case Return(e) => QuietExpr(j, q, e)
    case _ => true
  }

  predicate QuietList(j: nat, q: set<string>, body: List<Stmt>)
    decreases body, 0
  {
    match body
    case Nil => true
    case Cons(s, rest) => QuietStmt(j, q, s) && QuietList(j, q, rest)
  }

  predicate QuietSet(defs: Defs, j: nat, q: set<string>) {
    forall f :: f in q && f in defs ==> QuietList(j, q, defs[f].body)
  }

  /** The largest such set within `q`: leave out the functions that are not quiet, as long as there are
      any. */
  function QuietIn(defs: Defs, j: nat, q: set<string>): (r: set<string>)
    ensures QuietSet(defs, j, r) && r <= q
    decreases |q|
  {
    var less := set f | f in q && (f in defs ==> QuietList(j, q, defs[f].body));
    if less == q then q
    else
      SmallerSet(less, q);
      QuietIn(defs, j, less)
  }

  lemma SmallerSet(a: set<string>, b: set<string>)
    requires a <= b && a != b
    ensures |a| < |b|
  {
    assert b == a + (b - a);
    assert b - a != {};
  }

  lemma {:induction false} QuietArgsLess(defs: Defs, fuel: nat, env: Env, j: nat, q: set<string>, args: List<Expr>,
                                         i: nat)
    requires QuietSet(defs, j, q) && QuietArgs(j, q, args) && (i + Length(args) <= j || i > j)
    ensures PassArgs(defs, fuel, env, j, args, i) == None
    decreases fuel, args, 0
  {
    hide Eval, QuietSet, PassExpr;
    match args
    case Nil =>
    case Cons(a, rest) =>
      QuietPasses(defs, fuel, env, j, q, a);
      QuietArgsLess(defs, fuel, env, j, q, rest, i + 1);
  }

  lemma {:induction false} QuietPasses(defs: Defs, fuel: nat, env: Env, j: nat, q: set<string>, e: Expr)
    requires QuietSet(defs, j, q) && QuietExpr(j, q, e)
    ensures PassExpr(defs, fuel, env, j, e) == None
    decreases fuel, e, 0
  {
    hide Eval, EvalArgs, PassArgs, PassList, QuietArgs, QuietList, Bind;
    match e
    case Neg(e1) => QuietPasses(defs, fuel, env, j, q, e1);
    case Bin(_, l, r) =>
      QuietPasses(defs, fuel, env, j, q, l);
      QuietPasses(defs, fuel, env, j, q, r);
    case Call(f, args) =>
      QuietArgsLess(defs, fuel, env, j, q, args, 0);
      var vals := EvalArgs(defs, fuel, env, args);
      if vals.Some? && fuel > 0 && f in defs && |vals.value| == |defs[f].params| {
        QuietListPasses(defs, fuel - 1, Bind(defs[f].params, vals.value), j, q, defs[f].body);
      }
    case _ =>
  }

  lemma {:induction false} QuietStmtPasses(defs: Defs, fuel: nat, env: Env, j: nat, q: set<string>, s: Stmt)
    requires QuietSet(defs, j, q) && QuietStmt(j, q, s)
    ensures PassStmt(defs, fuel, env, j, s) == None
    decreases fuel, s, 0
  {
    hide Eval, PassExpr, PassList, PassLoop, QuietExpr, QuietList, QuietSet;
    match s
    case ExprS(e) => QuietPasses(defs, fuel, env, j, q, e);
    case Set(_, e, _) => QuietPasses(defs, fuel, env, j, q, e);
    case Block(body) => QuietListPasses(defs, fuel, env, j, q, body);
    case If(c, thn, els) =>
      QuietPasses(defs, fuel, env, j, q, c);
      QuietListPasses(defs, fuel, env, j, q, thn);
      QuietListPasses(defs, fuel, env, j, q, els);
    case Loop(None, body) => QuietLoopPasses(defs, fuel, env, j, q, None, body);
    case Loop(Some(c), body) =>
      QuietPasses(defs, fuel, env, j, q, c);
      if Eval(defs, fuel, env, c).Some? {
        QuietLoopPasses(defs, fuel, env, j, q, Some(Low(Eval(defs, fuel, env, c).value)), body);
      }
    case Return(e) => QuietPasses(defs, fuel, env, j, q, e);
    case _ =>
  }

  lemma {:induction false} QuietListPasses(defs: Defs, fuel: nat, env: Env, j: nat, q: set<string>, body: List<Stmt>)
    requires QuietSet(defs, j, q) && QuietList(j, q, body)
    ensures PassList(defs, fuel, env, j, body) == None
    decreases fuel, body, 0
  {
    hide Exec, PassStmt, QuietStmt, QuietSet;
    match body
    case Nil =>
    case Cons(s, rest) =>
      QuietStmtPasses(defs, fuel, env, j, q, s);
      var out := Exec(defs, fuel, env, s);
      if out.Some? && out.value.Normal? {
        QuietListPasses(defs, fuel, out.value.env, j, q, rest);
      }
  }

  lemma {:induction false} QuietLoopPasses(defs: Defs, fuel: nat, env: Env, j: nat, q: set<string>, left: Option<nat>,
                                           body: List<Stmt>)
    requires QuietSet(defs, j, q) && QuietList(j, q, body)
    ensures PassLoop(defs, fuel, env, j, left, body) == None
    decreases fuel, body, 2
  {
    hide ExecScoped, PassList, QuietList, QuietSet;
    if left != Some(0) && fuel > 0 {
      QuietListPasses(defs, fuel, env, j, q, body);
      var out := ExecScoped(defs, fuel, env, body);
      if out.Some? && (out.value.Normal? || out.value.Continued?) {
        QuietLoopPasses(defs, fuel - 1, out.value.env, j, q, if left.Some? then Some(left.value - 1) else None, body);
      }
    }
  }

  // ----- from the text: something is passed -----

  /** Evaluating it passes an argument `j` in any case, in a call of its own or in one of a function of
      `l`. */
  predicate LoudExpr(j: nat, l: set<string>, e: Expr) {
    match e
    case Neg(e1) => LoudExpr(j, l, e1)
    case Bin(_, x, y) => LoudExpr(j, l, x) || LoudExpr(j, l, y)
    case Call(f, args) => j < Length(args) || f in l || LoudArgs(j, l, args)
    case _ => false
  }

  predicate LoudArgs(j: nat, l: set<string>, args: List<Expr>) {
    match args
    case Nil => false
    case Cons(a, rest) => LoudExpr(j, l, a) || LoudArgs(j, l, rest)
  }

  predicate LoudStmt(j: nat, l: set<string>, s: Stmt)
    decreases s, 0
  {
    match s
    case ExprS(e) => LoudExpr(j, l, e)
    case Set(_, e, _) => LoudExpr(j, l, e)
    case Block(body) => LoudList(j, l, body)
    case If(c, thn, els) => LoudExpr(j, l, c) || (LoudList(j, l, thn) && LoudList(j, l, els))
    case Loop(Some(c), _) => LoudExpr(j, l, c)
    case Return(e) => LoudExpr(j, l, e)
    case _ => false
  }

  predicate LoudList(j: nat, l: set<string>, body: List<Stmt>)
    decreases body, 0
  {
    match body
    case Nil => false
    case Cons(s, rest) => LoudStmt(j, l, s) || ((s.ExprS? || s.Set?) && LoudList(j, l, rest))
  }

  predicate LoudSet(defs: Defs, j: nat, l: set<string>) {
    forall f :: f in l && f in defs ==> LoudList(j, l, defs[f].body)
  }

  function LoudIn(defs: Defs, j: nat, l: set<string>): (r: set<string>)
    ensures LoudSet(defs, j, r) && r <= l
    decreases |l|
  {
    var less := set f | f in l && (f in defs ==> LoudList(j, l, defs[f].body));
    if less == l then l
    else
      SmallerSet(less, l);
      LoudIn(defs, j, less)
  }

  lemma {:induction false} LoudPasses(defs: Defs, fuel: nat, env: Env, j: nat, l: set<string>, e: Expr)
    requires LoudSet(defs, j, l) && LoudExpr(j, l, e) && Eval(defs, fuel, env, e).Some?
    ensures PassExpr(defs, fuel, env, j, e).Some?
    decreases fuel, e, 0
  {
    hide EvalArgs, ExecList, PassArgs, PassList, LoudArgs, LoudList, Bind, Apply;
    match e
    case Neg(e1) => LoudPasses(defs, fuel, env, j, l, e1);
    case Bin(_, x, y) =>
      if LoudExpr(j, l, x) {
        LoudPasses(defs, fuel, env, j, l, x);
      } else {
        LoudPasses(defs, fuel, env, j, l, y);
      }
    case Call(f, args) =>
      if j < Length(args) {
        LastPassed(defs, fuel, env, args, 0, j);
      } else if LoudArgs(j, l, args) {
        LoudArgsPass(defs, fuel, env, j, l, args, 0);
      } else {
        var vals := EvalArgs(defs, fuel, env, args).value;
        LoudListPasses(defs, fuel - 1, Bind(defs[f].params, vals), j, l, defs[f].body);
      }
  }

  lemma {:induction false} LoudArgsPass(defs: Defs, fuel: nat, env: Env, j: nat, l: set<string>, args: List<Expr>,
                                        i: nat)
    requires LoudSet(defs, j, l) && LoudArgs(j, l, args) && EvalArgs(defs, fuel, env, args).Some?
    ensures PassArgs(defs, fuel, env, j, args, i).Some?
    decreases fuel, args, 0
  {
    hide Eval, PassExpr, LoudExpr, LoudSet;
    var Cons(a, rest) := args;
    if LoudExpr(j, l, a) {
      LoudPasses(defs, fuel, env, j, l, a);
    } else {
      LoudArgsPass(defs, fuel, env, j, l, rest, i + 1);
    }
  }

  lemma {:induction false} LoudStmtPasses(defs: Defs, fuel: nat, env: Env, j: nat, l: set<string>, s: Stmt)
    requires LoudSet(defs, j, l) && LoudStmt(j, l, s) && Exec(defs, fuel, env, s).Some?
    ensures PassStmt(defs, fuel, env, j, s).Some?
    decreases fuel, s, 0
  {
    hide Eval, PassExpr, PassList, PassLoop, LoudExpr, LoudList, LoudSet, ExecList, Restrict;
    match s
    case ExprS(e) => LoudPasses(defs, fuel, env, j, l, e);
    case Set(_, e, _) => LoudPasses(defs, fuel, env, j, l, e);
    case Block(body) => LoudListPasses(defs, fuel, env, j, l, body);
    case If(c, thn, els) =>
      if LoudExpr(j, l, c) {
        LoudPasses(defs, fuel, env, j, l, c);
      } else {
        LoudListPasses(defs, fuel, env, j, l, if Truth(Eval(defs, fuel, env, c).value) then thn else els);
      }
    case Loop(Some(c), _) => LoudPasses(defs, fuel, env, j, l, c);
    case Return(e) => LoudPasses(defs, fuel, env, j, l, e);
  }

  lemma {:induction false} LoudListPasses(defs: Defs, fuel: nat, env: Env, j: nat, l: set<string>, body: List<Stmt>)
    requires LoudSet(defs, j, l) && LoudList(j, l, body) && ExecList(defs, fuel, env, body).Some?
    ensures PassList(defs, fuel, env, j, body).Some?
    decreases fuel, body, 0
  {
    hide PassStmt, LoudStmt, LoudSet, Eval;
    var Cons(s, rest) := body;
    if LoudStmt(j, l, s) {
      LoudStmtPasses(defs, fuel, env, j, l, s);
    } else {
      LoudListPasses(defs, fuel, Exec(defs, fuel, env, s).value.env, j, l, rest);
    }
  }

  // ----- both, for a call -----

  /** Read off the text of the program: arguments behind argument `j` that neither pass anything in its
      place themselves nor call a function that does leave it alone; one that does so in any case
      replaces it. */
  lemma LaterArguments(defs: Defs, fuel: nat, env: Env, args: List<Expr>, j: nat)
    requires EvalArgs(defs, fuel, env, args).Some?
    ensures QuietArgs(j, QuietIn(defs, j, defs.Keys), Drop(args, j + 1))
            ==> PassedLater(defs, fuel, env, args, j) == None
    ensures LoudArgs(j, LoudIn(defs, j, defs.Keys), Drop(args, j + 1)) ==> PassedLater(defs, fuel, env, args, j).Some?
  {
    hide QuietIn, LoudIn, QuietArgs, LoudArgs, QuietSet, LoudSet, PassArgs, EvalArgs;
    var q, l := QuietIn(defs, j, defs.Keys), LoudIn(defs, j, defs.Keys);
    DropEval(defs, fuel, env, args, j + 1);
    if QuietArgs(j, q, Drop(args, j + 1)) {
      QuietArgsLess(defs, fuel, env, j, q, Drop(args, j + 1), j + 1);
    }
    if LoudArgs(j, l, Drop(args, j + 1)) {
      LoudArgsPass(defs, fuel, env, j, l, Drop(args, j + 1), j + 1);
    }
  }

  lemma {:induction false} DropEval(defs: Defs, fuel: nat, env: Env, args: List<Expr>, n: nat)
    requires EvalArgs(defs, fuel, env, args).Some?
    ensures EvalArgs(defs, fuel, env, Drop(args, n)).Some?
    decreases args
  {
    hide Eval;
    if n > 0 && args.Cons? {
      DropEval(defs, fuel, env, args.tail, n - 1);
    }
  }
}
