/** The source language: syntax trees and a reference interpreter. */
module Source {
  import opened Words

  // ----- syntax -----

  datatype Expr =
    | Num(n: I64)
    | Bool(b: bool)
    | Var(x: string)
    | Neg(e: Expr)
    | Bin(op: Oper, l: Expr, r: Expr)
    | Call(f: string, args: List<Expr>)

  datatype Stmt =
    | ExprS(e: Expr)
    | Set(x: string, e: Expr, mut: bool)
    | Block(body: List<Stmt>)
    | If(c: Expr, thn: List<Stmt>, els: List<Stmt>)  // a missing else is an empty one
    | Loop(count: Option<Expr>, body: List<Stmt>)
    | Break
    | Continue
    | Return(e: Expr)

  datatype Item =
    | Def(f: string, params: seq<string>, body: List<Stmt>)
    | Do(s: Stmt)

  datatype FnDef = FnDef(params: seq<string>, body: List<Stmt>)

  // ----- values -----

  datatype Value = I(n: int) | B(b: bool)

  /** The word `w` carries the value `v`: all 64 bits of a number, the low byte of a truth value. */
  predicate Rep(v: Value, w: int) {
    match v
    case I(n) => w == n
    case B(b) => LowByte(w) == BoolByte(b)
  }

  /** The counter a `loop` reads from a value: its low byte. */
  function Low(v: Value): nat {
    match v
    case I(n) => LowByte(n)
    case B(b) => BoolByte(b)
  }

  /** Conditions, && and || look at one byte only. */
  predicate Truth(v: Value) {
    Low(v) != 0
  }

  function Apply(op: Oper, x: Value, y: Value): Option<Value> {
    if op == And then Some(B(Truth(x) && Truth(y)))
    else if op == Or then Some(B(Truth(x) || Truth(y)))
    else if !(x.I? && y.I?) then None
    else if IsCompare(op) then Some(B(Compare(op, x.n, y.n)))
    else
      assert IsArith(op);
      match Arith(op, x.n, y.n)
      case Some(r) => Some(I(r))
      case None => None
  }

  function Negate(v: Value): Option<Value> {
    Apply(Sub, I(0), v)
  }

  // ----- environments -----

  datatype Binding = Binding(mut: bool, val: Value)

  type Env = map<string, Binding>

  function Restrict(env: Env, names: set<string>): Env {
    map x | x in env && x in names :: env[x]
  }

  /** The environment of a callee: parameters only, all of them reassignable. */
  function Bind(params: seq<string>, vals: seq<Value>): Env
    requires |params| == |vals|
  {
    if params == [] then map[]
    else Bind(params[..|params| - 1], vals[..|vals| - 1])[params[|params| - 1] := Binding(true, vals[|vals| - 1])]
  }

  // ----- evaluation -----

  datatype Out = Normal(env: Env) | Broke(env: Env) | Continued(env: Env) | Returned(val: Value)

  type Defs = map<string, FnDef>

  /** The value of an expression. None: the fuel ran out, or the program went wrong (a type error,
      overflow, division by zero, an unknown name, a function that did not return a value). */
  function Eval(defs: Defs, fuel: nat, env: Env, e: Expr): Option<Value>
    decreases fuel, e, 0
  {
    match e
    case Num(n) => Some(I(n))
    case Bool(b) => Some(B(b))
    case Var(x) => if x in env then Some(env[x].val) else None
    case Neg(e1) =>
      (match Eval(defs, fuel, env, e1)
       case Some(v) => Negate(v)
       case None => None)
    case Bin(op, l, r) =>
      (match Eval(defs, fuel, env, l)
       case Some(x) =>
         (match Eval(defs, fuel, env, r)
          case Some(y) => Apply(op, x, y)
          case None => None)
       case None => None)
    case Call(f, args) =>
      (match EvalArgs(defs, fuel, env, args)
       case Some(vals) =>
         if fuel > 0 && f in defs && |vals| == |defs[f].params|
         then CallResult(ExecList(defs, fuel - 1, Bind(defs[f].params, vals), defs[f].body))
         else None
       case None => None)
  }

  function CallResult(out: Option<Out>): Option<Value> {
    if out.Some? && out.value.Returned? then Some(out.value.val) else None
  }

  function EvalArgs(defs: Defs, fuel: nat, env: Env, args: List<Expr>): (r: Option<seq<Value>>)
    ensures r.Some? ==> |r.value| == Length(args)
    decreases fuel, args, 0
  {
    match args
    case Nil => Some([])
    case Cons(a, rest) =>
      match Eval(defs, fuel, env, a)
      case None => None
      case Some(v) =>
        match EvalArgs(defs, fuel, env, rest)
        case None => None
        case Some(vs) => Some([v] + vs)
  }

  function Exec(defs: Defs, fuel: nat, env: Env, s: Stmt): Option<Out>
    decreases fuel, s, 0
  {
    match s
    case ExprS(e) =>
      if Eval(defs, fuel, env, e).Some? then Some(Normal(env)) else None
    case Set(x, e, mut) =>
      (match Eval(defs, fuel, env, e)
       case None => None
       case Some(v) =>
         if x !in env then Some(Normal(env[x := Binding(mut, v)]))
         else if env[x].mut then Some(Normal(env[x := Binding(true, v)]))
         else None)
    case Block(body) => ExecScoped(defs, fuel, env, body)
    case If(c, thn, els) =>
      (match Eval(defs, fuel, env, c)
       case None => None
       case Some(v) =>
         ExecScoped(defs, fuel, env, if Truth(v) then thn else els))
    case Loop(None, body) => ExecLoop(defs, fuel, env, None, body)
    case Loop(Some(e), body) =>
      (match Eval(defs, fuel, env, e)
       case None => None
       case Some(v) => ExecLoop(defs, fuel, env, Some(Low(v)), body))
    case Break => Some(Broke(env))
    case Continue => Some(Continued(env))
    case Return(e) =>
      (match Eval(defs, fuel, env, e)
       case None => None
       case Some(v) => Some(Returned(v)))
  }

  function ExecList(defs: Defs, fuel: nat, env: Env, body: List<Stmt>): Option<Out>
    decreases fuel, body, 0
  {
    match body
    case Nil => Some(Normal(env))
    case Cons(s, rest) =>
      match Exec(defs, fuel, env, s)
      case Some(Normal(env1)) => ExecList(defs, fuel, env1, rest)
      case out => out
  }

  /** A block: what it declares is forgotten at its end, on every way out. */
  function ExecScoped(defs: Defs, fuel: nat, env: Env, body: List<Stmt>): Option<Out>
    decreases fuel, body, 1
  {
    match ExecList(defs, fuel, env, body)
    case Some(out) => Some(Scoped(out, env.Keys))
    case None => None
  }

  function Scoped(out: Out, names: set<string>): Out {
    match out
    case Normal(env) => Normal(Restrict(env, names))
    case Broke(env) => Broke(Restrict(env, names))
    case Continued(env) => Continued(Restrict(env, names))
    case Returned(v) => Returned(v)
  }

  /** A loop with `left` rounds to go; without a counter it ends only by break or return. */
  function ExecLoop(defs: Defs, fuel: nat, env: Env, left: Option<nat>, body: List<Stmt>): Option<Out>
    decreases fuel, body, 2
  {
    if left == Some(0) then Some(Normal(env))
    else if fuel == 0 then None
    else
      match ExecScoped(defs, fuel, env, body)
      case None => None
      case Some(Broke(env1)) => Some(Normal(env1))
      case Some(Returned(v)) => Some(Returned(v))
      case Some(out) =>
        ExecLoop(defs, fuel - 1, out.env, if left.Some? then Some(left.value - 1) else None, body)
  }

  /** A program: declarations are skipped, statements run in order. */
  function ExecItems(defs: Defs, fuel: nat, env: Env, items: List<Item>): Option<Env>
    decreases items
  {
    match items
    case Nil => Some(env)
    case Cons(Def(_, _, _), rest) => ExecItems(defs, fuel, env, rest)
    case Cons(Do(s), rest) =>
      match Exec(defs, fuel, env, s)
      case Some(Normal(env1)) => ExecItems(defs, fuel, env1, rest)
      case _ => None
  }

  function DefsOf(items: List<Item>): Defs {
    match items
    case Nil => map[]
    case Cons(Def(f, params, body), rest) => DefsOf(rest)[f := FnDef(params, body)]
    case Cons(Do(_), rest) => DefsOf(rest)
  }
}
