/** What an evaluation passes on the way: the last value that any call in it, at whatever depth, passes
    as its argument number `j`. */
module Passing {
  import opened Words
  import opened Source

  function Then(a: Option<Value>, b: Option<Value>): Option<Value> {
    if b.Some? then b else a
  }

  function PassExpr(defs: Defs, fuel: nat, env: Env, j: int, e: Expr): Option<Value>
    decreases fuel, e, 0
  {
    match e
    case Neg(e1) => PassExpr(defs, fuel, env, j, e1)
    case Bin(_, l, r) => Then(PassExpr(defs, fuel, env, j, l), PassExpr(defs, fuel, env, j, r))
    case Call(f, args) =>
      var passed := PassArgs(defs, fuel, env, j, args, 0);
      (match EvalArgs(defs, fuel, env, args)
       case Some(vals) =>
         if fuel > 0 && f in defs && |vals| == |defs[f].params|
         then Then(passed, PassList(defs, fuel - 1, Bind(defs[f].params, vals), j, defs[f].body))
         else passed
       case None => passed)
    case _ => None
  }

  function PassArgs(defs: Defs, fuel: nat, env: Env, j: int, args: List<Expr>, i: nat): Option<Value>
    decreases fuel, args, 0
  {
    match args
    case Nil => None
    case Cons(a, rest) =>
      Then(PassArg(defs, fuel, env, j, a, i), PassArgs(defs, fuel, env, j, rest, i + 1))
  }

  function PassArg(defs: Defs, fuel: nat, env: Env, j: int, a: Expr, i: nat): Option<Value>
    decreases fuel, a, 1
  {
    if i == j then Eval(defs, fuel, env, a) else PassExpr(defs, fuel, env, j, a)
  }

  function PassStmt(defs: Defs, fuel: nat, env: Env, j: int, s: Stmt): Option<Value>
    decreases fuel, s, 0
  {
    match s
    case ExprS(e) => PassExpr(defs, fuel, env, j, e)
    case Set(_, e, _) => PassExpr(defs, fuel, env, j, e)
    case Block(body) => PassList(defs, fuel, env, j, body)
    case If(c, thn, els) =>
      var passed := PassExpr(defs, fuel, env, j, c);
      (match Eval(defs, fuel, env, c)
       case Some(v) => Then(passed, PassList(defs, fuel, env, j, if Truth(v) then thn else els))
       case None => passed)
    case Loop(None, body) => PassLoop(defs, fuel, env, j, None, body)
    case Loop(Some(e), body) =>
      var passed := PassExpr(defs, fuel, env, j, e);
      (match Eval(defs, fuel, env, e)
       case Some(v) => Then(passed, PassLoop(defs, fuel, env, j, Some(Low(v)), body))
       case None => passed)
    case Return(e) => PassExpr(defs, fuel, env, j, e)
    case _ => None
  }

  function PassList(defs: Defs, fuel: nat, env: Env, j: int, body: List<Stmt>): Option<Value>
    decreases fuel, body, 0
  {
    match body
    case Nil => None
    case Cons(s, rest) =>
      var passed := PassStmt(defs, fuel, env, j, s);
      match Exec(defs, fuel, env, s)
      case Some(Normal(env1)) => Then(passed, PassList(defs, fuel, env1, j, rest))
      case _ => passed
  }

  function PassLoop(defs: Defs, fuel: nat, env: Env, j: int, left: Option<nat>, body: List<Stmt>): Option<Value>
    decreases fuel, body, 2
  {
    if left == Some(0) || fuel == 0 then None
    else
      var passed := PassList(defs, fuel, env, j, body);
      match ExecScoped(defs, fuel, env, body)
      case None => passed
      case Some(Broke(_)) => passed
      case Some(Returned(_)) => passed
      case Some(out) =>
        Then(passed, PassLoop(defs, fuel - 1, out.env, j, if left.Some? then Some(left.value - 1) else None, body))
  }
}
