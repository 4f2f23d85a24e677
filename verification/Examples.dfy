/** Programs on which the limits bite: for each, the instructions the generator leaves and the run of the
    machine on them. */
module Examples {
  import opened Words
  import opened Machine
  import opened Source
  import opened Reference
  import opened Safety
  import opened Simulation
  import opened Programs
  import opened Patching
  import opened Emission
  import opened Driver
  import opened Fibonacci

  // ----- tools -----

  /** Items without errors, and the code they get. */
  predicate Fine(u: Scope, items: List<Item>, n: nat, code: seq<Op>) {
    !ItemsErr(u, items, n) && CleanItems(items) && ClosedItems(items) && ItemsCode(u, items, n) == code
  }

  predicate FineItem(u: Scope, item: Item, n: nat, code: seq<Op>) {
    !ItemErr(u, item, n) && CleanItem(item) && ClosedItem(item) && ItemCode(u, item, n) == code
  }

  lemma FineCons(u: Scope, item: Item, rest: List<Item>, n: nat, code: seq<Op>, u1: Scope, n1: nat, more: seq<Op>)
    requires FineItem(u, item, n, code) && AfterItem(u, item, n) == u1 && n1 == n + |code| && Fine(u1, rest, n1, more)
    ensures Fine(u, Cons(item, rest), n, code + more)
  {
    hide ItemErr, CleanItem, ClosedItem, ItemCode, AfterItem;
  }

  lemma FineNil(u: Scope, n: nat)
    ensures Fine(u, Nil, n, [])
  {
  }

  lemma FineProgram(items: List<Item>, code: seq<Op>)
    requires Fine(FRESH, items, 0, code)
    ensures !ItemsErr(FRESH, items, 0) && Generated(items) == code + [Halt]
  {
    hide ItemsErr, CleanItems, ClosedItems, ItemsCode, OutItems;
    GeneratedIff(items);
  }

  /** A function that is one return. */
  function Returns(f: string, params: seq<string>, e: Expr): Item {
    Def(f, params, Cons(Return(e), Nil))
  }

  lemma ReturnsFine(u: Scope, f: string, params: seq<string>, e: Expr, n: nat, value: seq<Op>)
    requires u.fold && f !in u.ft && Distinct(params)
    requires forall i :: 0 <= i < |params| ==> params[i] !in u.glob.locals
    requires !ExprErr(Declare(u.ft, f, params, n + 1), [u.glob, ParamFrame(params)], e)
    requires value == ExprCode(Declare(u.ft, f, params, n + 1), [u.glob, ParamFrame(params)], u.held, e, 0)
    ensures FineItem(u, Returns(f, params, e), n, [FuncCreate] + (ParamCode(|params|) + (value + [FRet])) + [FuncEnd])
    ensures AfterItem(u, Returns(f, params, e), n) == u.(ft := Declare(u.ft, f, params, n + 1))
  {
    hide ExprCode, ExprErr, ParamCode, ParamFrame, Declare;
    var i, body := FnAt(u, f, params, Cons(Return(e), Nil), n), Cons(Return(e), Nil);
    var m, frames := i.addr + |params|, FnFrames(i);
    assert ListCode(true, i.ft, frames, i.held, Nil, m + StmtLen(true, Return(e)), 0, 0) == [];
    assert StmtCode(true, i.ft, frames, i.held, Return(e), m, 0, 0) == value + [FRet];
    assert FnBody(i) == value + [FRet];
    assert Last(FnBody(i)) == FRet;
    assert HeldAfterList(u.held, body) == u.held;
    assert FramesAfterList(frames, body) == frames;
    assert !ListErr(i.ft, FramesAfter(frames, Return(e)), Nil) && !StmtErr(i.ft, frames, Return(e));
    assert !ListPends(Nil) && !Pends(Return(e)) && ListClean(false, Nil) && Clean(false, Return(e));
  }

  lemma Going(p: seq<Op>, s: State, t: State, u: State)
    requires Reaches(p, s, t) && Step(p, t) == Next(u)
    ensures Reaches(p, s, u)
  {
    hide Step;
    ReachThenStep(p, s, t);
  }

  lemma SkipTo(p: seq<Op>, s: State, e: nat)
    requires s.pc <= e < |p| && p[s.pc] == FuncCreate && p[e] == FuncEnd
    requires forall i :: s.pc <= i < e ==> p[i] != FuncEnd
    ensures Step(p, s) == Next(s.(pc := e + 1))
  {
  }

  /** Reading the first parameter. */
  lemma FirstParam(u: Scope, f: string, x: string, n: nat)
    ensures ParamFrame([x]) == CFrame(map[x := Slot(true, 0)], 1)
    ensures var ft, frames := Declare(u.ft, f, [x], n + 1), [u.glob, ParamFrame([x])];
            ExprCode(ft, frames, u.held, Var(x), 0) == [LocalGet(0, 0, 0)] && !ExprErr(ft, frames, Var(x))
  {
    assert Front([x]) == [];
    assert ParamFrame([]) == CFrame(map[], 0);
    assert FindVar([u.glob, ParamFrame([x])], x) == Some(Loc(0, Slot(true, 0)));
  }

  lemma FirstOfTwo(u: Scope, f: string, x: string, y: string, n: nat)
    requires x != y
    ensures ParamFrame([x, y]) == CFrame(map[x := Slot(true, 0), y := Slot(true, 1)], 2)
    ensures var ft, frames := Declare(u.ft, f, [x, y], n + 1), [u.glob, ParamFrame([x, y])];
            ExprCode(ft, frames, u.held, Var(x), 0) == [LocalGet(0, 0, 0)] && !ExprErr(ft, frames, Var(x))
  {
    assert Front([x]) == [] && Front([x, y]) == [x];
    assert ParamFrame([]) == CFrame(map[], 0);
    assert ParamFrame([x]) == CFrame(map[x := Slot(true, 0)], 1);
    assert FindVar([u.glob, ParamFrame([x, y])], x) == Some(Loc(0, Slot(true, 0)));
  }

  lemma TwoStores()
    ensures ParamCode(0) == [] && ParamCode(1) == [LocalSet(0, 0, 254)]
            && ParamCode(2) == [LocalSet(0, 0, 254), LocalSet(0, 1, 253)]
  {
  }

  lemma EvalReturns(defs: Defs, fuel: nat, env: Env, f: string, args: List<Expr>, vals: seq<Value>, e: Expr)
    requires fuel > 0 && EvalArgs(defs, fuel, env, args) == Some(vals)
    requires f in defs && defs[f].body == Cons(Return(e), Nil) && |vals| == |defs[f].params|
    ensures Eval(defs, fuel, env, Call(f, args)) == Eval(defs, fuel - 1, Bind(defs[f].params, vals), e)
  {
    hide EvalArgs, Bind, Apply;
    var env1 := Bind(defs[f].params, vals);
    var out := Exec(defs, fuel - 1, env1, Return(e));
    assert out.None? || out.value.Returned?;
    assert ExecList(defs, fuel - 1, env1, defs[f].body) == out;
  }

  /** Calling a function that is `return a`, `a` its first parameter. */
  lemma CallsFirst(p: seq<Op>, c: State, target: nat, argc: nat) returns (t: State)
    requires 0 < argc <= MAX_ARGS && c.pc < |p| && p[c.pc] == FCall(target, argc)
    requires CodeAt(p, target, ParamCode(argc)) && target + argc + 1 < |p|
    requires p[target + argc] == LocalGet(0, 0, 0) && p[target + argc + 1] == FRet
    ensures Reaches(p, c, t) && t == c.(pc := c.pc + 1, regs := c.regs[0 := c.regs[254]])
  {
    hide Reaches, CodeAt, ParamCode;
    var a := Enter(c, target, argc);
    var b := a.(pc := a.pc + argc);
    assert ParamCode(argc)[0..] == ParamCode(argc);
    ReachStep(p, c);
    RunParams(p, a, argc, 0);
    ReachTrans(p, c, a, b);
    var u := Put(b, 0, c.regs[254]);
    assert ReadLocal(b, 0, 0) == c.regs[254];
    Going(p, c, b, u);
    t := Leave(u);
    Going(p, c, u, t);
    assert t.regs == c.regs[0 := c.regs[254]];
  }

  // ----- an argument lost -----

  /** func g(n) { return n }  func f(a, b) { return a }  r = f(x, g(y)) */
  function Nested(x: I64, y: I64): List<Item> {
    Cons(Returns("g", ["n"], Var("n")), Cons(Returns("f", ["a", "b"], Var("a")),
      Cons(Do(Set("r", Call("f", Cons(Num(x), Cons(Call("g", Cons(Num(y), Nil)), Nil))), false)), Nil)))
  }

  function NestedOps(x: I64, y: I64): seq<Op> {
    NestedG() + (NestedF() + (NestedCall(x, y) + [])) + [Halt]
  }

  function NestedG(): seq<Op> {
    [FuncCreate, LocalSet(0, 0, 254), LocalGet(0, 0, 0), FRet, FuncEnd]
  }

  function NestedF(): seq<Op> {
    [FuncCreate, LocalSet(0, 0, 254), LocalSet(0, 1, 253), LocalGet(0, 0, 0), FRet, FuncEnd]
  }

  function NestedCall(x: I64, y: I64): seq<Op> {
    [MovRI(254, x), MovRI(254, y), FCall(1, 1), MovRR(253, 0), FCall(6, 2), LocalSet(0, 0, 0)]
  }

  lemma NestedGenerated(x: I64, y: I64)
    ensures !ItemsErr(FRESH, Nested(x, y), 0) && Generated(Nested(x, y)) == NestedOps(x, y)
  {
    hide ItemsCode, FineItem, Fine, AfterItem, Generated, ItemsErr, ExprCode, ExprErr;
    var u0, items := FRESH, Nested(x, y);
    var u1 := u0.(ft := map["g" := FEntry(1, 1)]);
    var u2 := u1.(ft := u1.ft["f" := FEntry(2, 6)]);
    var u3 := AfterItem(u2, items.tail.tail.head, 11);
    TwoStores();
    FirstParam(u0, "g", "n", 0);
    ReturnsFine(u0, "g", ["n"], Var("n"), 0, [LocalGet(0, 0, 0)]);
    FirstOfTwo(u1, "f", "a", "b", 5);
    ReturnsFine(u1, "f", ["a", "b"], Var("a"), 5, [LocalGet(0, 0, 0)]);
    assert [FuncCreate] + (ParamCode(1) + ([LocalGet(0, 0, 0)] + [FRet])) + [FuncEnd] == NestedG();
    assert [FuncCreate] + (ParamCode(2) + ([LocalGet(0, 0, 0)] + [FRet])) + [FuncEnd] == NestedF();
    NestedLine(u2, x, y, 11);
    FineNil(u3, 17);
    FineCons(u2, items.tail.tail.head, Nil, 11, NestedCall(x, y), u3, 17, []);
    FineCons(u1, items.tail.head, items.tail.tail, 5, NestedF(), u2, 11, NestedCall(x, y) + []);
    FineCons(u0, items.head, items.tail, 0, NestedG(), u1, 5, NestedF() + (NestedCall(x, y) + []));
    FineProgram(items, NestedG() + (NestedF() + (NestedCall(x, y) + [])));
  }

  lemma NestedLine(u: Scope, x: I64, y: I64, n: nat)
    requires u.fold && u.held == {0} && u.glob == CFrame(map[], 0)
    requires u.ft == map["g" := FEntry(1, 1)]["f" := FEntry(2, 6)]
    ensures FineItem(u, Nested(x, y).tail.tail.head, n, NestedCall(x, y))
  {
    hide FirstFree;
    var inner := Call("g", Cons(Num(y), Nil));
    var e := Call("f", Cons(Num(x), Cons(inner, Nil)));
    var ft, frames: Frames, h := u.ft, [u.glob], u.held;
    assert ArgsCode(ft, frames, h, Cons(Num(y), Nil), 0) == [MovRI(254, y)] + ArgsCode(ft, frames, h, Nil, 1);
    assert ExprCode(ft, frames, h, inner, 253) == [MovRI(254, y), FCall(1, 1), MovRR(253, 0)];
    assert ArgsCode(ft, frames, h, Cons(inner, Nil), 1) == ExprCode(ft, frames, h, inner, 253)
           + ArgsCode(ft, frames, h, Nil, 2);
    assert ArgsCode(ft, frames, h, Cons(Num(x), Cons(inner, Nil)), 0) == [MovRI(254, x)]
           + ArgsCode(ft, frames, h, Cons(inner, Nil), 1);
    assert ExprCode(ft, frames, h, e, 0) == [MovRI(254, x), MovRI(254, y), FCall(1, 1), MovRR(253, 0), FCall(6, 2)];
    assert Lookup(frames, "r") == None;
    OneArgOk(ft, frames, "g", Num(y));
    TwoArgsOk(ft, frames, "f", Num(x), inner);
  }

  lemma OneArgOk(ft: Funcs, frames: Frames, f: string, a: Expr)
    requires f in ft && ft[f].arity == 1 && !ExprErr(ft, frames, a)
    ensures !ExprErr(ft, frames, Call(f, Cons(a, Nil)))
  {
    assert Length(Cons(a, Nil)) == 1 + Length<Expr>(Nil);
    assert !ArgsErr(ft, frames, Nil);
  }

  lemma TwoArgsOk(ft: Funcs, frames: Frames, f: string, a: Expr, b: Expr)
    requires f in ft && ft[f].arity == 2 && !ExprErr(ft, frames, a) && !ExprErr(ft, frames, b)
    ensures !ExprErr(ft, frames, Call(f, Cons(a, Cons(b, Nil))))
  {
    assert Length(Cons(b, Nil)) == 1 + Length<Expr>(Nil);
    assert !ArgsErr(ft, frames, Nil);
    assert !ArgsErr(ft, frames, Cons(b, Nil));
  }

  /** The call of a function of one parameter that returns it, its argument on the way. */
  lemma PassOne(p: seq<Op>, s: State, y: I64) returns (t: State)
    requires |p| > 3 && s.pc + 1 < |p| && p[s.pc] == MovRI(254, y) && p[s.pc + 1] == FCall(1, 1)
    requires p[1] == LocalSet(0, 0, 254) && p[2] == LocalGet(0, 0, 0) && p[3] == FRet
    ensures Reaches(p, s, t) && t == s.(pc := s.pc + 2, regs := s.regs[254 := y][0 := y])
  {
    hide Reaches;
    TwoStores();
    ReachRefl(p, s);
    var a := Put(s, 254, y);
    Going(p, s, s, a);
    assert p[1..2] == ParamCode(1);
    t := CallsFirst(p, a, 1, 1);
    ReachTrans(p, s, a, t);
  }

  /** The result becomes the second argument of a call whose function returns the first, and that is stored. */
  lemma PassTwo(p: seq<Op>, s: State, target: nat, y: int) returns (t: State)
    requires target + 3 < |p| && s.pc + 2 < |p| && s.regs[0] == s.regs[254] == y
    requires p[s.pc] == MovRR(253, 0) && p[s.pc + 1] == FCall(target, 2) && p[s.pc + 2] == LocalSet(0, 0, 0)
    requires p[target] == LocalSet(0, 0, 254) && p[target + 1] == LocalSet(0, 1, 253)
    requires p[target + 2] == LocalGet(0, 0, 0) && p[target + 3] == FRet
    requires |s.frames| == 1 && |s.frames[0].locals| > 0
    ensures Reaches(p, s, t) && t.pc == s.pc + 3 && |t.frames| == 1
    ensures t.frames[0].locals == s.frames[0].locals[0 := y]
  {
    hide Reaches;
    TwoStores();
    ReachRefl(p, s);
    var a := Put(s, 253, y);
    Going(p, s, s, a);
    assert p[target..target + 2] == ParamCode(2);
    var b := CallsFirst(p, a, target, 2);
    ReachTrans(p, s, a, b);
    t := WriteLocal(b, 0, 0, y);
    Going(p, s, b, t);
  }

  lemma NestedSkips(p: seq<Op>) returns (t: State)
    requires |p| > 11 && p[0] == p[5] == FuncCreate && p[4] == p[10] == FuncEnd
    requires forall i :: 0 <= i < 11 && i != 4 && i != 10 ==> p[i] != FuncEnd
    ensures Reaches(p, Start(), t) && t == Start().(pc := 11)
  {
    hide Reaches;
    var s0 := Start();
    ReachRefl(p, s0);
    SkipTo(p, s0, 4);
    var s1 := s0.(pc := 5);
    Going(p, s0, s0, s1);
    SkipTo(p, s1, 10);
    t := s1.(pc := 11);
    Going(p, s0, s1, t);
  }

  lemma NestedRun(x: I64, y: I64) returns (t: State)
    ensures Reaches(NestedOps(x, y), Start(), t) && Step(NestedOps(x, y), t) == Halted
    ensures |t.frames| == 1 && t.frames[0].locals == Zeros(64)[0 := y]
  {
    hide Reaches;
    var p, s0 := NestedOps(x, y), Start();
    var s1 := NestedSkips(p);
    var s2 := Put(s1, 254, x);
    Going(p, s0, s1, s2);
    var s3 := PassOne(p, s2, y);
    ReachTrans(p, s0, s2, s3);
    t := PassTwo(p, s3, 6, y);
    ReachTrans(p, s0, s3, t);
  }

  lemma BindParams(x: string, y: string, v: Value, w: Value)
    ensures Bind([x], [v]) == map[x := Binding(true, v)]
    ensures Bind([x, y], [v, w]) == map[x := Binding(true, v)][y := Binding(true, w)]
    ensures Bind([], []) == map[]
  {
    assert [x][..0] == [] && [v][..0] == [] && [x, y][..1] == [x] && [v, w][..1] == [v];
  }

  lemma OneArg(defs: Defs, fuel: nat, env: Env, a: Expr, v: Value)
    requires Eval(defs, fuel, env, a) == Some(v)
    ensures EvalArgs(defs, fuel, env, Cons(a, Nil)) == Some([v])
  {
    hide Eval;
    assert [v] + [] == [v];
    assert EvalArgs(defs, fuel, env, Nil) == Some([]);
  }

  lemma TwoArgs(defs: Defs, fuel: nat, env: Env, a: Expr, b: Expr, v: Value, w: Value)
    requires Eval(defs, fuel, env, a) == Some(v) && Eval(defs, fuel, env, b) == Some(w)
    ensures EvalArgs(defs, fuel, env, Cons(a, Cons(b, Nil))) == Some([v, w])
  {
    hide Eval;
    OneArg(defs, fuel, env, b, w);
    assert [v] + [w] == [v, w];
  }

  /** The program sets one variable, once. */
  lemma SetOnly(defs: Defs, fuel: nat, x: string, e: Expr, v: Value)
    requires Eval(defs, fuel, map[], e) == Some(v)
    ensures ExecItems(defs, fuel, map[], Cons(Do(Set(x, e, false)), Nil)) == Some(map[x := Binding(false, v)])
  {
    hide Eval;
    var env: Env := map[x := Binding(false, v)];
    assert Exec(defs, fuel, map[], Set(x, e, false)) == Some(Normal(env));
    assert ExecItems(defs, fuel, env, Nil) == Some(env);
  }

  lemma SkipDefs(defs: Defs, fuel: nat, env: Env, f: string, params: seq<string>, body: List<Stmt>, rest: List<Item>)
    ensures ExecItems(defs, fuel, env, Cons(Def(f, params, body), rest)) == ExecItems(defs, fuel, env, rest)
    ensures DefsOf(Cons(Def(f, params, body), rest)) == DefsOf(rest)[f := FnDef(params, body)]
  {
  }

  lemma NestedMeans(x: I64, y: I64)
    ensures ExecItems(DefsOf(Nested(x, y)), 1, map[], Nested(x, y)) == Some(map["r" := Binding(false, I(x))])
  {
    hide Bind, ExecItems, DefsOf, EvalArgs;
    var items, env := Nested(x, y), map[];
    var defs := DefsOf(items);
    SkipDefs(defs, 1, env, "g", ["n"], Cons(Return(Var("n")), Nil), items.tail);
    SkipDefs(defs, 1, env, "f", ["a", "b"], Cons(Return(Var("a")), Nil), items.tail.tail);
    var g, h := Num(y), Call("g", Cons(Num(y), Nil));
    BindParams("n", "", I(y), I(y));
    BindParams("a", "b", I(x), I(y));
    OneArg(defs, 1, env, g, I(y));
    EvalReturns(defs, 1, env, "g", Cons(g, Nil), [I(y)], Var("n"));
    assert Eval(defs, 0, map["n" := Binding(true, I(y))], Var("n")) == Some(I(y));
    TwoArgs(defs, 1, env, Num(x), h, I(x), I(y));
    EvalReturns(defs, 1, env, "f", Cons(Num(x), Cons(h, Nil)), [I(x), I(y)], Var("a"));
    SetOnly(defs, 1, "r", Call("f", Cons(Num(x), Cons(h, Nil))), I(x));
  }

  /** The machine computes y where the program says x: the call in the second argument overwrites the
      first. It is right exactly when the two are the same number. */
  lemma LostArgument(x: I64, y: I64) returns (t: State)
    ensures !ItemsErr(FRESH, Nested(x, y), 0)
    ensures Reaches(Generated(Nested(x, y)), Start(), t) && Step(Generated(Nested(x, y)), t) == Halted
    ensures |t.frames| == 1 && t.frames[0].locals == Zeros(64)[0 := y]
    ensures ExecItems(DefsOf(Nested(x, y)), 1, map[], Nested(x, y)) == Some(map["r" := Binding(false, I(x))])
  {
    hide ItemsErr, Generated, Reaches, Step, ExecItems, DefsOf, NestedOps;
    NestedGenerated(x, y);
    NestedMeans(x, y);
    t := NestedRun(x, y);
  }

  // ----- an argument lost further down -----

  /** func h(n) { return n }  func g() { return h(y) }  func f(a, b) { return a }  r = f(x, g()) */
  function Deep(x: I64, y: I64): List<Item> {
    Cons(Returns("h", ["n"], Var("n")), Cons(Returns("g", [], Call("h", Cons(Num(y), Nil))),
      Cons(Returns("f", ["a", "b"], Var("a")),
        Cons(Do(Set("r", Call("f", Cons(Num(x), Cons(Call("g", Nil), Nil))), false)), Nil))))
  }

  function DeepG(y: I64): seq<Op> {
    [FuncCreate, MovRI(254, y), FCall(1, 1), FRet, FuncEnd]
  }

  function DeepCall(x: I64): seq<Op> {
    [MovRI(254, x), FCall(6, 0), MovRR(253, 0), FCall(11, 2), LocalSet(0, 0, 0)]
  }

  function DeepOps(x: I64, y: I64): seq<Op> {
    NestedG() + (DeepG(y) + (NestedF() + (DeepCall(x) + []))) + [Halt]
  }

  lemma DeepLine(u: Scope, x: I64, y: I64, n: nat)
    requires u.fold && u.held == {0} && u.glob == CFrame(map[], 0)
    requires u.ft == map["h" := FEntry(1, 1)]["g" := FEntry(0, 6)]["f" := FEntry(2, 11)]
    ensures FineItem(u, Deep(x, y).tail.tail.tail.head, n, DeepCall(x))
  {
    hide FirstFree;
    var inner := Call("g", Nil);
    var e := Call("f", Cons(Num(x), Cons(inner, Nil)));
    var ft, frames: Frames, h := u.ft, [u.glob], u.held;
    assert ArgsCode(ft, frames, h, Nil, 0) == [] && ArgsCode(ft, frames, h, Nil, 2) == [];
    assert ExprCode(ft, frames, h, inner, 253) == [FCall(6, 0), MovRR(253, 0)];
    assert ArgsCode(ft, frames, h, Cons(inner, Nil), 1) == ExprCode(ft, frames, h, inner, 253)
           + ArgsCode(ft, frames, h, Nil, 2);
    assert ArgsCode(ft, frames, h, Cons(Num(x), Cons(inner, Nil)), 0) == [MovRI(254, x)]
           + ArgsCode(ft, frames, h, Cons(inner, Nil), 1);
    assert ExprCode(ft, frames, h, e, 0) == [MovRI(254, x), FCall(6, 0), MovRR(253, 0), FCall(11, 2)];
    assert Lookup(frames, "r") == None;
    NoArgsOk(ft, frames, "g");
    TwoArgsOk(ft, frames, "f", Num(x), inner);
  }

  lemma NoArgsOk(ft: Funcs, frames: Frames, f: string)
    requires f in ft && ft[f].arity == 0
    ensures !ExprErr(ft, frames, Call(f, Nil))
  {
    assert !ArgsErr(ft, frames, Nil);
  }

  lemma DeepSecond(u: Scope, y: I64)
    requires u == FRESH.(ft := map["h" := FEntry(1, 1)])
    ensures FineItem(u, Deep(y, y).tail.head, 5, DeepG(y))
    ensures AfterItem(u, Deep(y, y).tail.head, 5) == u.(ft := u.ft["g" := FEntry(0, 6)])
  {
    hide FineItem, AfterItem, FirstFree;
    var ft, frames: Frames, e := u.ft["g" := FEntry(0, 6)], [u.glob, ParamFrame([])], Call("h", Cons(Num(y), Nil));
    TwoStores();
    OneArgOk(ft, frames, "h", Num(y));
    assert ArgsCode(ft, frames, {0}, Cons(Num(y), Nil), 0) == [MovRI(254, y)] + ArgsCode(ft, frames, {0}, Nil, 1);
    assert ExprCode(ft, frames, {0}, e, 0) == [MovRI(254, y), FCall(1, 1)];
    assert Declare(u.ft, "g", [], 6) == ft;
    ReturnsFine(u, "g", [], e, 5, [MovRI(254, y), FCall(1, 1)]);
    assert [FuncCreate] + (ParamCode(0) + ([MovRI(254, y), FCall(1, 1)] + [FRet])) + [FuncEnd] == DeepG(y);
  }

  lemma DeepGenerated(x: I64, y: I64)
    ensures !ItemsErr(FRESH, Deep(x, y), 0) && Generated(Deep(x, y)) == DeepOps(x, y)
  {
    hide ItemsCode, FineItem, Fine, AfterItem, Generated, ItemsErr, ExprCode, ExprErr;
    var u0, items := FRESH, Deep(x, y);
    var u1 := u0.(ft := map["h" := FEntry(1, 1)]);
    var u2 := u1.(ft := u1.ft["g" := FEntry(0, 6)]);
    var u3 := u2.(ft := u2.ft["f" := FEntry(2, 11)]);
    var u4 := AfterItem(u3, items.tail.tail.tail.head, 16);
    TwoStores();
    FirstParam(u0, "h", "n", 0);
    ReturnsFine(u0, "h", ["n"], Var("n"), 0, [LocalGet(0, 0, 0)]);
    DeepSecond(u1, y);
    FirstOfTwo(u2, "f", "a", "b", 10);
    ReturnsFine(u2, "f", ["a", "b"], Var("a"), 10, [LocalGet(0, 0, 0)]);
    assert [FuncCreate] + (ParamCode(1) + ([LocalGet(0, 0, 0)] + [FRet])) + [FuncEnd] == NestedG();
    assert [FuncCreate] + (ParamCode(2) + ([LocalGet(0, 0, 0)] + [FRet])) + [FuncEnd] == NestedF();
    DeepLine(u3, x, y, 16);
    FineNil(u4, 21);
    FineCons(u3, items.tail.tail.tail.head, Nil, 16, DeepCall(x), u4, 21, []);
    FineCons(u2, items.tail.tail.head, items.tail.tail.tail, 10, NestedF(), u3, 16, DeepCall(x) + []);
    FineCons(u1, items.tail.head, items.tail.tail, 5, DeepG(y), u2, 10, NestedF() + (DeepCall(x) + []));
    FineCons(u0, items.head, items.tail, 0, NestedG(), u1, 5, DeepG(y) + (NestedF() + (DeepCall(x) + [])));
    FineProgram(items, NestedG() + (DeepG(y) + (NestedF() + (DeepCall(x) + []))));
  }

  lemma DeepSkips(p: seq<Op>) returns (t: State)
    requires |p| > 16 && p[0] == p[5] == p[10] == FuncCreate && p[4] == p[9] == p[15] == FuncEnd
    requires forall i :: 0 <= i < 16 && i != 4 && i != 9 && i != 15 ==> p[i] != FuncEnd
    ensures Reaches(p, Start(), t) && t == Start().(pc := 16)
  {
    hide Reaches;
    var s0 := Start();
    ReachRefl(p, s0);
    SkipTo(p, s0, 4);
    var s1 := s0.(pc := 5);
    Going(p, s0, s0, s1);
    SkipTo(p, s1, 9);
    var s2 := s1.(pc := 10);
    Going(p, s0, s1, s2);
    SkipTo(p, s2, 15);
    t := s2.(pc := 16);
    Going(p, s0, s2, t);
  }

  lemma DeepRun(x: I64, y: I64) returns (t: State)
    ensures Reaches(DeepOps(x, y), Start(), t) && Step(DeepOps(x, y), t) == Halted
    ensures |t.frames| == 1 && t.frames[0].locals == Zeros(64)[0 := y]
  {
    hide Reaches;
    var p, s0 := DeepOps(x, y), Start();
    var s1 := DeepSkips(p);
    var s2 := Put(s1, 254, x);
    Going(p, s0, s1, s2);
    var s3 := DeepInner(p, s2, y);
    ReachTrans(p, s0, s2, s3);
    t := PassTwo(p, s3, 11, y);
    ReachTrans(p, s0, s3, t);
  }

  lemma DeepInner(p: seq<Op>, c: State, y: I64) returns (t: State)
    requires |p| > 9 && c.pc < |p| && p[c.pc] == FCall(6, 0)
    requires p[1] == LocalSet(0, 0, 254) && p[2] == LocalGet(0, 0, 0) && p[3] == FRet
    requires p[6] == MovRI(254, y) && p[7] == FCall(1, 1) && p[8] == FRet
    ensures Reaches(p, c, t) && t == c.(pc := c.pc + 1, regs := c.regs[254 := y][0 := y])
  {
    hide Reaches;
    ReachRefl(p, c);
    var a := Enter(c, 6, 0);
    Going(p, c, c, a);
    var d := PassOne(p, a, y);
    ReachTrans(p, c, a, d);
    t := Leave(d);
    Going(p, c, d, t);
    assert t.regs == c.regs[254 := y][0 := y];
  }

  lemma DeepMeans(x: I64, y: I64)
    ensures ExecItems(DefsOf(Deep(x, y)), 2, map[], Deep(x, y)) == Some(map["r" := Binding(false, I(x))])
  {
    hide Bind, ExecItems, DefsOf, EvalArgs;
    var items, env := Deep(x, y), map[];
    var defs := DefsOf(items);
    SkipDefs(defs, 2, env, "h", ["n"], Cons(Return(Var("n")), Nil), items.tail);
    SkipDefs(defs, 2, env, "g", [], Cons(Return(Call("h", Cons(Num(y), Nil))), Nil), items.tail.tail);
    SkipDefs(defs, 2, env, "f", ["a", "b"], Cons(Return(Var("a")), Nil), items.tail.tail.tail);
    var h, g := Call("h", Cons(Num(y), Nil)), Call("g", Nil);
    BindParams("n", "", I(y), I(y));
    BindParams("a", "b", I(x), I(y));
    OneArg(defs, 1, env, Num(y), I(y));
    EvalReturns(defs, 1, env, "h", Cons(Num(y), Nil), [I(y)], Var("n"));
    assert Eval(defs, 0, map["n" := Binding(true, I(y))], Var("n")) == Some(I(y));
    assert EvalArgs(defs, 2, env, Nil) == Some([]) by {
      NoArgs(defs, 2, env);
    }
    EvalReturns(defs, 2, env, "g", Nil, [], h);
    TwoArgs(defs, 2, env, Num(x), g, I(x), I(y));
    EvalReturns(defs, 2, env, "f", Cons(Num(x), Cons(g, Nil)), [I(x), I(y)], Var("a"));
    SetOnly(defs, 2, "r", Call("f", Cons(Num(x), Cons(g, Nil))), I(x));
  }

  lemma NoArgs(defs: Defs, fuel: nat, env: Env)
    ensures EvalArgs(defs, fuel, env, Nil) == Some([])
  {
  }

  /** The same through a function that is called without arguments. */
  lemma LostDeeper(x: I64, y: I64) returns (t: State)
    ensures !ItemsErr(FRESH, Deep(x, y), 0)
    ensures Reaches(Generated(Deep(x, y)), Start(), t) && Step(Generated(Deep(x, y)), t) == Halted
    ensures |t.frames| == 1 && t.frames[0].locals == Zeros(64)[0 := y]
    ensures ExecItems(DefsOf(Deep(x, y)), 2, map[], Deep(x, y)) == Some(map["r" := Binding(false, I(x))])
  {
    hide ItemsErr, Generated, Reaches, Step, ExecItems, DefsOf, DeepOps;
    DeepGenerated(x, y);
    DeepMeans(x, y);
    t := DeepRun(x, y);
  }

  // ----- a global variable read from a function called by a function -----

  /** v = x  func f() { return v }  func g(a) { return f() }  r = g(y) */
  function Globals(x: I64, y: I64): List<Item> {
    Cons(Do(Set("v", Num(x), false)), Cons(Returns("f", [], Var("v")), Cons(Returns("g", ["a"], Call("f", Nil)),
      Cons(Do(Set("r", Call("g", Cons(Num(y), Nil)), false)), Nil))))
  }

  function GlobalsSet(x: I64): seq<Op> {
    [MovRI(1, x), LocalSet(0, 0, 1)]
  }

  function GlobalsF(): seq<Op> {
    [FuncCreate, LocalGet(0, 1, 0), FRet, FuncEnd]
  }

  function GlobalsG(): seq<Op> {
    [FuncCreate, LocalSet(0, 0, 254), FCall(3, 0), FRet, FuncEnd]
  }

  function GlobalsCall(y: I64): seq<Op> {
    [MovRI(254, y), FCall(7, 1), LocalSet(0, 1, 0)]
  }

  function GlobalsOps(x: I64, y: I64): seq<Op> {
    GlobalsSet(x) + (GlobalsF() + (GlobalsG() + (GlobalsCall(y) + []))) + [Halt]
  }

  const WITH_V: CFrame := CFrame(map["v" := Slot(false, 0)], 1)

  lemma GlobalsFirst(u: Scope, x: I64, n: nat)
    requires u.fold && u.held == {0} && u.glob == CFrame(map[], 0)
    ensures FineItem(u, Globals(x, x).head, n, GlobalsSet(x))
    ensures AfterItem(u, Globals(x, x).head, n) == u.(glob := WITH_V)
  {
    hide FirstFree, Alloc;
    Allocs();
    assert Lookup([u.glob], "v") == None;
  }

  lemma GlobalsLast(u: Scope, y: I64, n: nat)
    requires u.fold && u.held == {0} && u.glob == WITH_V && u.ft == map["f" := FEntry(0, 3)]["g" := FEntry(1, 7)]
    ensures FineItem(u, Globals(y, y).tail.tail.tail.head, n, GlobalsCall(y))
  {
    hide FirstFree;
    var ft, frames: Frames := u.ft, [u.glob];
    assert ArgsCode(ft, frames, {0}, Cons(Num(y), Nil), 0) == [MovRI(254, y)] + ArgsCode(ft, frames, {0}, Nil, 1);
    assert Lookup(frames, "r") == None;
    OneArgOk(ft, frames, "g", Num(y));
  }

  lemma GlobalsGenerated(x: I64, y: I64)
    ensures !ItemsErr(FRESH, Globals(x, y), 0) && Generated(Globals(x, y)) == GlobalsOps(x, y)
  {
    hide ItemsCode, FineItem, Fine, AfterItem, Generated, ItemsErr, FirstFree, Lookup;
    var u0, items := FRESH, Globals(x, y);
    var u1 := u0.(glob := WITH_V);
    var u2 := u1.(ft := map["f" := FEntry(0, 3)]);
    var u3 := u2.(ft := u2.ft["g" := FEntry(1, 7)]);
    var u4 := AfterItem(u3, items.tail.tail.tail.head, 11);
    TwoStores();
    GlobalsFirst(u0, x, 0);
    ReadV(u1);
    ReturnsFine(u1, "f", [], Var("v"), 2, [LocalGet(0, 1, 0)]);
    var frames: Frames := [u2.glob, ParamFrame(["a"])];
    NoArgsOk(u3.ft, frames, "f");
    assert ArgsCode(u3.ft, frames, {0}, Nil, 0) == [];
    ReturnsFine(u2, "g", ["a"], Call("f", Nil), 6, [FCall(3, 0)]);
    assert [FuncCreate] + (ParamCode(0) + ([LocalGet(0, 1, 0)] + [FRet])) + [FuncEnd] == GlobalsF();
    assert [FuncCreate] + (ParamCode(1) + ([FCall(3, 0)] + [FRet])) + [FuncEnd] == GlobalsG();
    GlobalsLast(u3, y, 11);
    FineNil(u4, 14);
    FineCons(u3, items.tail.tail.tail.head, Nil, 11, GlobalsCall(y), u4, 14, []);
    FineCons(u2, items.tail.tail.head, items.tail.tail.tail, 6, GlobalsG(), u3, 11, GlobalsCall(y) + []);
    FineCons(u1, items.tail.head, items.tail.tail, 2, GlobalsF(), u2, 6, GlobalsG() + (GlobalsCall(y) + []));
    FineCons(u0, items.head, items.tail, 0, GlobalsSet(x), u1, 2, GlobalsF() + (GlobalsG() + (GlobalsCall(y) + [])));
    FineProgram(items, GlobalsSet(x) + (GlobalsF() + (GlobalsG() + (GlobalsCall(y) + []))));
  }

  lemma ReadV(u: Scope)
    requires u.glob == WITH_V
    ensures var ft, frames := Declare(u.ft, "f", [], 3), [u.glob, ParamFrame([])];
            ExprCode(ft, frames, u.held, Var("v"), 0) == [LocalGet(0, 1, 0)] && !ExprErr(ft, frames, Var("v"))
  {
    assert ParamFrame([]) == CFrame(map[], 0);
    assert FindVar([u.glob], "v") == Some(Loc(0, Slot(false, 0)));
    assert Front([u.glob, ParamFrame([])]) == [u.glob];
    assert FindVar([u.glob, ParamFrame([])], "v") == Some(Loc(1, Slot(false, 0)));
  }

  /** The program returns v, whose value is x; the machine returns the argument of g. It is right exactly
      when the two are the same number. */
  lemma ForeignSlot(x: I64, y: I64) returns (t: State)
    ensures !ItemsErr(FRESH, Globals(x, y), 0)
    ensures Reaches(Generated(Globals(x, y)), Start(), t) && Step(Generated(Globals(x, y)), t) == Halted
    ensures |t.frames| == 1 && t.frames[0].locals == Zeros(64)[0 := x][1 := y]
  {
    hide ItemsErr, Generated, Reaches, Step, GlobalsOps;
    GlobalsGenerated(x, y);
    t := GlobalsRun(x, y);
  }

  lemma GlobalsRun(x: I64, y: I64) returns (t: State)
    ensures Reaches(GlobalsOps(x, y), Start(), t) && Step(GlobalsOps(x, y), t) == Halted
    ensures |t.frames| == 1 && t.frames[0].locals == Zeros(64)[0 := x][1 := y]
  {
    hide Reaches;
    var p := GlobalsOps(x, y);
    TwoStores();
    var s0 := Start();
    ReachRefl(p, s0);
    var s1 := Put(s0, 1, x);
    Going(p, s0, s0, s1);
    var s2 := WriteLocal(s1, 0, 0, x);
    Going(p, s0, s1, s2);
    SkipTo(p, s2, 5);
    var s3 := s2.(pc := 6);
    Going(p, s0, s2, s3);
    SkipTo(p, s3, 10);
    var s4 := s3.(pc := 11);
    Going(p, s0, s3, s4);
    var s5 := Put(s4, 254, y);
    Going(p, s0, s4, s5);
    var s6 := GlobalsInner(p, s5, y);
    ReachTrans(p, s0, s5, s6);
    t := WriteLocal(s6, 0, 1, y);
    Going(p, s0, s6, t);
  }

  lemma GlobalsInner(p: seq<Op>, c: State, y: int) returns (t: State)
    requires |p| > 10 && c.pc < |p| && p[c.pc] == FCall(7, 1) && c.regs[254] == y
    requires p[3] == LocalGet(0, 1, 0) && p[4] == FRet
    requires p[7] == LocalSet(0, 0, 254) && p[8] == FCall(3, 0) && p[9] == FRet
    ensures Reaches(p, c, t) && t == c.(pc := c.pc + 1, regs := c.regs[0 := y])
  {
    hide Reaches;
    ReachRefl(p, c);
    var a := Enter(c, 7, 1);
    Going(p, c, c, a);
    StoreSame(a, 0, 1);
    var b := a.(pc := 8);
    Going(p, c, a, b);
    var d := Enter(b, 3, 0);
    Going(p, c, b, d);
    assert d.frames[|d.frames| - 2] == Last(a.frames);
    var e := Put(d, 0, y);
    Going(p, c, d, e);
    var f := Leave(e);
    Going(p, c, e, f);
    t := Leave(f);
    Going(p, c, f, t);
    assert t.regs == c.regs[0 := y];
  }

  // ----- a parameter reassigned -----

  /** func p(a, b) { b = z  return a }  r = p(x, y) */
  function Reassigned(x: I64, y: I64, z: I64): List<Item> {
    Cons(Def("p", ["a", "b"], Cons(Set("b", Num(z), false), Cons(Return(Var("a")), Nil))),
      Cons(Do(Set("r", Call("p", Cons(Num(x), Cons(Num(y), Nil))), false)), Nil))
  }

  function ReassignedP(z: I64): seq<Op> {
    [FuncCreate, LocalSet(0, 0, 254), LocalSet(0, 1, 253), MovRI(1, z), LocalSet(0, 0, 1), LocalGet(0, 0, 0), FRet,
     FuncEnd]
  }

  function ReassignedCall(x: I64, y: I64): seq<Op> {
    [MovRI(254, x), MovRI(253, y), FCall(1, 2), LocalSet(0, 0, 0)]
  }

  function ReassignedOps(x: I64, y: I64, z: I64): seq<Op> {
    ReassignedP(z) + (ReassignedCall(x, y) + []) + [Halt]
  }

  const WITH_B: CFrame := CFrame(map["b" := Slot(false, 0)], 0)

  lemma ReassignedFine(u: Scope, z: I64)
    requires u == FRESH
    ensures FineItem(u, Reassigned(z, z, z).head, 0, ReassignedP(z))
    ensures AfterItem(u, Reassigned(z, z, z).head, 0) == u.(glob := WITH_B, ft := map["p" := FEntry(2, 1)])
  {
    hide FirstFree, Alloc;
    Allocs();
    TwoStores();
    var f, a, b := ParamFrame(["a", "b"]), Set("b", Num(z), false), Return(Var("a"));
    FirstOfTwo(u, "p", "a", "b", 0);
    var i := FnAt(u, "p", ["a", "b"], Cons(a, Cons(b, Nil)), 0);
    var frames, frames1 := FnFrames(i), [WITH_B, f];
    assert FindVar(frames, "b") == Some(Loc(0, Slot(true, 1)));
    assert FramesAfter(frames, a) == frames1;
    assert FindVar(frames1, "a") == Some(Loc(0, Slot(true, 0)));
    assert StmtCode(true, i.ft, frames, {0}, a, 3, 0, 0) == [MovRI(1, z), LocalSet(0, 0, 1)];
    assert StmtCode(true, i.ft, frames1, {0}, b, 5, 0, 0) == [LocalGet(0, 0, 0), FRet];
    assert ListCode(true, i.ft, frames1, {0}, Nil, 7, 0, 0) == [];
    assert ListCode(true, i.ft, frames1, {0}, Cons(b, Nil), 5, 0, 0) == [LocalGet(0, 0, 0), FRet] + [];
    assert FnBody(i) == [MovRI(1, z), LocalSet(0, 0, 1), LocalGet(0, 0, 0), FRet];
    assert HeldAfterList({0}, Cons(b, Nil)) == {0};
    assert FramesAfterList(frames1, Cons(b, Nil)) == frames1;
    assert !ListErr(i.ft, FramesAfter(frames1, b), Nil);
    assert !ListErr(i.ft, frames1, Cons(b, Nil));
    assert !ListPends(Nil) && !ListPends(Cons(b, Nil)) && ListClean(false, Nil) && ListClean(false, Cons(b, Nil));
    assert Declare(u.ft, "p", ["a", "b"], 1) == map["p" := FEntry(2, 1)];
    var item := Reassigned(z, z, z).head;
    assert !StmtErr(i.ft, frames, a);
    assert !ListErr(i.ft, frames, Cons(a, Cons(b, Nil)));
    assert !Pends(a) && !Pends(b) && Clean(false, a);
    assert !ListPends(Cons(a, Cons(b, Nil))) && ListClean(false, Cons(a, Cons(b, Nil)));
    assert !ItemErr(u, item, 0);
    assert CleanItem(item) && ClosedItem(item);
    assert ItemCode(u, item, 0) == ReassignedP(z);
    assert AfterItem(u, item, 0).held == {0};
    assert AfterItem(u, item, 0).glob == WITH_B;
  }

  lemma ReassignedLine(u: Scope, x: I64, y: I64)
    requires u == FRESH.(glob := WITH_B, ft := map["p" := FEntry(2, 1)])
    ensures FineItem(u, Reassigned(x, y, y).tail.head, 8, ReassignedCall(x, y))
  {
    hide FirstFree;
    var ft, frames: Frames := u.ft, [u.glob];
    assert ArgsCode(ft, frames, {0}, Cons(Num(y), Nil), 1) == [MovRI(253, y)] + ArgsCode(ft, frames, {0}, Nil, 2);
    assert ArgsCode(ft, frames, {0}, Cons(Num(x), Cons(Num(y), Nil)), 0) == [MovRI(254, x)]
           + ArgsCode(ft, frames, {0}, Cons(Num(y), Nil), 1);
    assert FindVar(frames, "r") == None by {
      assert Front(frames) == [];
    }
    TwoArgsOk(ft, frames, "p", Num(x), Num(y));
  }

  lemma ReassignedGenerated(x: I64, y: I64, z: I64)
    ensures !ItemsErr(FRESH, Reassigned(x, y, z), 0) && Generated(Reassigned(x, y, z)) == ReassignedOps(x, y, z)
  {
    hide ItemsCode, FineItem, Fine, AfterItem, Generated, ItemsErr;
    var u0, items := FRESH, Reassigned(x, y, z);
    var u1 := u0.(glob := WITH_B, ft := map["p" := FEntry(2, 1)]);
    var u2 := AfterItem(u1, items.tail.head, 8);
    ReassignedFine(u0, z);
    ReassignedLine(u1, x, y);
    FineNil(u2, 12);
    FineCons(u1, items.tail.head, Nil, 8, ReassignedCall(x, y), u2, 12, []);
    FineCons(u0, items.head, items.tail, 0, ReassignedP(z), u1, 8, ReassignedCall(x, y) + []);
    FineProgram(items, ReassignedP(z) + (ReassignedCall(x, y) + []));
  }

  lemma ReassignedRun(x: I64, y: I64, z: I64) returns (t: State)
    ensures Reaches(ReassignedOps(x, y, z), Start(), t) && Step(ReassignedOps(x, y, z), t) == Halted
    ensures |t.frames| == 1 && t.frames[0].locals == Zeros(64)[0 := z]
  {
    hide Reaches;
    var p := ReassignedOps(x, y, z);
    TwoStores();
    var s0 := Start();
    ReachRefl(p, s0);
    SkipTo(p, s0, 7);
    var s1 := s0.(pc := 8);
    Going(p, s0, s0, s1);
    var s2 := Put(s1, 254, x);
    Going(p, s0, s1, s2);
    var s3 := Put(s2, 253, y);
    Going(p, s0, s2, s3);
    assert p[1..3] == ParamCode(2);
    var s4 := ReassignedInner(p, s3, z);
    ReachTrans(p, s0, s3, s4);
    t := WriteLocal(s4, 0, 0, z);
    Going(p, s0, s4, t);
  }

  /** The call of p. */
  lemma ReassignedInner(p: seq<Op>, s: State, z: I64) returns (t: State)
    requires |p| > 6 && s.pc < |p| && p[s.pc] == FCall(1, 2) && CodeAt(p, 1, ParamCode(2))
    requires p[3] == MovRI(1, z) && p[4] == LocalSet(0, 0, 1) && p[5] == LocalGet(0, 0, 0) && p[6] == FRet
    ensures Reaches(p, s, t) && t == s.(pc := s.pc + 1, regs := s.regs[0 := z])
  {
    hide Reaches, CodeAt, ParamCode;
    ReachRefl(p, s);
    var a := Enter(s, 1, 2);
    Going(p, s, s, a);
    assert ParamCode(2)[0..] == ParamCode(2);
    RunParams(p, a, 2, 0);
    var b := a.(pc := 3);
    ReachTrans(p, s, a, b);
    var c := Put(b, 1, z);
    Going(p, s, b, c);
    var d := WriteLocal(c, 0, 0, z);
    Going(p, s, c, d);
    var e := Put(d, 0, z);
    Going(p, s, d, e);
    t := Leave(e);
    Going(p, s, e, t);
    assert t.frames == s.frames && t.regs == s.regs[0 := z];
  }

  lemma ReassignedMeans(x: I64, y: I64, z: I64)
    ensures ExecItems(DefsOf(Reassigned(x, y, z)), 1, map[], Reassigned(x, y, z))
            == Some(map["r" := Binding(false, I(x))])
  {
    hide Bind, ExecItems, DefsOf, EvalArgs;
    var items, defs := Reassigned(x, y, z), DefsOf(Reassigned(x, y, z));
    var body := items.head.body;
    SkipDefs(defs, 1, map[], "p", ["a", "b"], body, items.tail);
    BindParams("a", "b", I(x), I(y));
    TwoArgs(defs, 1, map[], Num(x), Num(y), I(x), I(y));
    var env: Env := map["a" := Binding(true, I(x))]["b" := Binding(true, I(y))];
    var env1 := env["b" := Binding(true, I(z))];
    assert Eval(defs, 0, env, Num(z)) == Some(I(z)) && Eval(defs, 0, env1, Var("a")) == Some(I(x));
    assert Exec(defs, 0, env, body.head) == Some(Normal(env1))
           && Exec(defs, 0, env1, body.tail.head) == Some(Returned(I(x)));
    assert ExecList(defs, 0, env1, body.tail) == Some(Returned(I(x)));
    assert ExecList(defs, 0, env, body) == Some(Returned(I(x)));
    SetOnly(defs, 1, "r", Call("p", Cons(Num(x), Cons(Num(y), Nil))), I(x));
  }

  /** The assignment to b stores into a: the machine returns z where the program says x. */
  lemma WrongParameter(x: I64, y: I64, z: I64) returns (t: State)
    ensures !ItemsErr(FRESH, Reassigned(x, y, z), 0)
    ensures Reaches(Generated(Reassigned(x, y, z)), Start(), t) && Step(Generated(Reassigned(x, y, z)), t) == Halted
    ensures |t.frames| == 1 && t.frames[0].locals == Zeros(64)[0 := z]
    ensures ExecItems(DefsOf(Reassigned(x, y, z)), 1, map[], Reassigned(x, y, z))
            == Some(map["r" := Binding(false, I(x))])
  {
    hide ItemsErr, Generated, Reaches, Step, ExecItems, DefsOf, ReassignedOps;
    ReassignedGenerated(x, y, z);
    ReassignedMeans(x, y, z);
    t := ReassignedRun(x, y, z);
  }

  // ----- a return in the last else only -----

  /** func f(c) { if (c) { } else { return 1 } }  f(x) */
  function HalfReturn(x: I64): List<Item> {
    Cons(Def("f", ["c"], Cons(HALF, Nil)), Cons(Do(ExprS(Call("f", Cons(Num(x), Nil)))), Nil))
  }

  const HALF: Stmt := If(Var("c"), Nil, Cons(Return(Num(1)), Nil))

  function HalfF(): seq<Op> {
    [FuncCreate, LocalSet(0, 0, 254), LocalGet(1, 0, 0), IfTrue(1, 5), Jmp(6), Jmp(8), MovRI(0, 1), FRet, FuncEnd]
  }

  function HalfCall(x: I64): seq<Op> {
    [MovRI(254, x), FCall(1, 1)]
  }

  function HalfOps(x: I64): seq<Op> {
    HalfF() + (HalfCall(x) + []) + [Halt]
  }

  lemma HalfCode(ft: Funcs, frames: Frames, c: Expr, els: List<Stmt>)
    requires frames == [CFrame(map[], 0), CFrame(map["c" := Slot(true, 0)], 1)] && c == Var("c")
    requires els == Cons(Return(Num(1)), Nil)
    ensures StmtCode(true, ft, frames, {0}, If(c, Nil, els), 2, 0, 0)
            == [LocalGet(1, 0, 0), IfTrue(1, 5), Jmp(6), Jmp(8), MovRI(0, 1), FRet]
    ensures HeldAfter({0}, If(c, Nil, els)) == {0}
  {
    hide FirstFree, Alloc;
    Allocs();
    assert FindVar(frames, "c") == Some(Loc(0, Slot(true, 0)));
    EmptyBlock(frames);
    assert ValueCode(true, ft, frames, {0}, c) == [LocalGet(1, 0, 0)];
    assert Hold({0}, 1) == {0, 1} && Release({0, 1}, 1) == {0};
    assert HeldAfterList({0, 1}, Nil) == {0, 1} && HeldAfterList({0, 1}, els) == {0, 1};
    ElseCode(ft, frames, els);
    hide FindVar, Lookup;
    assert ListCode(true, ft, frames, {0, 1}, Nil, 5, 0, 0) == [] && ListLen(true, Nil) == 0;
  }

  lemma ElseCode(ft: Funcs, frames: Frames, els: List<Stmt>)
    requires els == Cons(Return(Num(1)), Nil)
    ensures ListCode(true, ft, frames, {0, 1}, els, 6, 0, 0) == [MovRI(0, 1), FRet] && ListLen(true, els) == 2
  {
    hide FirstFree, Alloc;
    assert ListCode(true, ft, FramesAfter(frames, els.head), {0, 1}, Nil, 8, 0, 0) == [] && ListLen(true, Nil) == 0;
    assert StmtCode(true, ft, frames, {0, 1}, Return(Num(1)), 6, 0, 0) == [MovRI(0, 1), FRet];
  }

  lemma HalfBody(ft: Funcs, frames: Frames, c: Expr)
    requires frames == [CFrame(map[], 0), CFrame(map["c" := Slot(true, 0)], 1)] && c == Var("c")
    ensures ListCode(true, ft, frames, {0}, Cons(If(c, Nil, Cons(Return(Num(1)), Nil)), Nil), 2, 0, 0)
            == [LocalGet(1, 0, 0), IfTrue(1, 5), Jmp(6), Jmp(8), MovRI(0, 1), FRet]
    ensures !ListErr(ft, frames, Cons(If(c, Nil, Cons(Return(Num(1)), Nil)), Nil))
    ensures FramesAfterList(frames, Cons(If(c, Nil, Cons(Return(Num(1)), Nil)), Nil)) == frames
    ensures HeldAfterList({0}, Cons(If(c, Nil, Cons(Return(Num(1)), Nil)), Nil)) == {0}
  {
    hide FirstFree, Alloc, StmtCode, HeldAfter;
    var els := Cons(Return(Num(1)), Nil);
    var s := If(c, Nil, els);
    assert FindVar(frames, "c") == Some(Loc(0, Slot(true, 0)));
    EmptyBlock(frames);
    SameBlock(frames, els);
    HalfCode(ft, frames, c, els);
    assert !ListErr(ft, frames, Nil) && !ListErr(ft, frames, els) && !StmtErr(ft, frames, s);
    assert FramesAfter(frames, s) == frames;
    hide FramesAfter, StmtErr;
    assert ListCode(true, ft, frames, {0}, Nil, 2 + StmtLen(true, s), 0, 0) == [];
    assert FramesAfterList(frames, Nil) == frames && HeldAfterList({0}, Nil) == {0};
  }

  lemma HalfFine(u: Scope)
    requires u == FRESH
    ensures FineItem(u, HalfReturn(0).head, 0, HalfF())
    ensures AfterItem(u, HalfReturn(0).head, 0) == u.(ft := map["f" := FEntry(1, 1)])
  {
    hide ListCode, ListErr, FramesAfterList, HeldAfterList, ParamFrame;
    TwoStores();
    FirstParam(u, "f", "c", 0);
    var ft: Funcs := map["f" := FEntry(1, 1)];
    assert Declare(u.ft, "f", ["c"], 1) == ft;
    HalfBody(ft, [u.glob, ParamFrame(["c"])], Var("c"));
    HalfPlaced(Cons(Return(Num(1)), Nil));
  }

  lemma HalfPlaced(els: List<Stmt>)
    requires els == Cons(Return(Num(1)), Nil)
    ensures !ListPends(Cons(If(Var("c"), Nil, els), Nil)) && ListClean(false, Cons(If(Var("c"), Nil, els), Nil))
  {
    assert !ListPends(Nil) && !Pends(Return(Num(1))) && ListClean(false, Nil) && Clean(false, Return(Num(1)));
    assert !ListPends(els) && ListClean(false, els);
    assert !Pends(If(Var("c"), Nil, els)) && Clean(false, If(Var("c"), Nil, els));
  }

  lemma HalfLine(u: Scope, x: I64)
    requires u == FRESH.(ft := map["f" := FEntry(1, 1)])
    ensures FineItem(u, HalfReturn(x).tail.head, 9, HalfCall(x))
  {
    hide FirstFree;
    var ft, frames: Frames := u.ft, [u.glob];
    assert ArgsCode(ft, frames, {0}, Cons(Num(x), Nil), 0) == [MovRI(254, x)] + ArgsCode(ft, frames, {0}, Nil, 1);
    OneArgOk(ft, frames, "f", Num(x));
  }

  lemma HalfGenerated(x: I64)
    ensures !ItemsErr(FRESH, HalfReturn(x), 0) && Generated(HalfReturn(x)) == HalfOps(x)
  {
    hide ItemsCode, FineItem, Fine, AfterItem, Generated, ItemsErr;
    var u0, items := FRESH, HalfReturn(x);
    var u1 := u0.(ft := map["f" := FEntry(1, 1)]);
    var u2 := AfterItem(u1, items.tail.head, 9);
    HalfFine(u0);
    HalfLine(u1, x);
    FineNil(u2, 11);
    FineCons(u1, items.tail.head, Nil, 9, HalfCall(x), u2, 11, []);
    FineCons(u0, items.head, items.tail, 0, HalfF(), u1, 9, HalfCall(x) + []);
    FineProgram(items, HalfF() + (HalfCall(x) + []));
  }

  /** From the call to the call again, one frame deeper. */
  lemma HalfRound(x: I64, s: State) returns (t: State)
    requires s.pc == 9 && LowByte(x) != 0
    ensures Reaches(HalfOps(x), s, t) && t.pc == 9 && |t.frames| == |s.frames| + 1
  {
    hide Reaches;
    var p := HalfOps(x);
    TwoStores();
    ReachRefl(p, s);
    var s1 := Put(s, 254, x);
    Going(p, s, s, s1);
    var a := Enter(s1, 1, 1);
    Going(p, s, s1, a);
    StoreSame(a, 0, 1);
    var b := a.(pc := 2);
    Going(p, s, a, b);
    var c := Put(b, 1, x);
    Going(p, s, b, c);
    var d := c.(pc := 5);
    Going(p, s, c, d);
    var e := d.(pc := 8);
    Going(p, s, d, e);
    t := e.(pc := 9);
    Going(p, s, e, t);
  }

  /** Called with a true condition the function does not return: the machine runs on behind it, which is
      where it is called again. The run never ends; there are states of it with any number of frames. */
  lemma {:induction false} RunsOn(x: I64, n: nat) returns (t: State)
    requires LowByte(x) != 0
    ensures !ItemsErr(FRESH, HalfReturn(x), 0)
    ensures Reaches(Generated(HalfReturn(x)), Start(), t) && t.pc == 9 && |t.frames| == n + 1
    decreases n
  {
    hide Reaches, ItemsErr, Generated;
    HalfGenerated(x);
    var p, s0 := HalfOps(x), Start();
    if n == 0 {
      ReachRefl(p, s0);
      SkipTo(p, s0, 8);
      t := s0.(pc := 9);
      Going(p, s0, s0, t);
    } else {
      var s := RunsOn(x, n - 1);
      t := HalfRound(x, s);
      ReachTrans(p, s0, s, t);
    }
  }

  // ----- words after folding -----

  /** r = 1 < x */
  function Compared(x: I64): List<Item> {
    Cons(Do(Set("r", Bin(Lt, Num(1), Num(x)), false)), Nil)
  }

  function FoldedOps(x: I64): seq<Op> {
    [MovRI(1, 1), MovRI(3, x), Alu(Lt, 2, 1, 3), LocalSet(0, 0, 2), Halt]
  }

  function UnfoldedOps(x: I64): seq<Op> {
    [MovRI(2, 1), MovRR(1, 2), MovRI(2, x), MovRR(3, 2), Alu(Lt, 2, 1, 3), LocalSet(0, 0, 2), Halt]
  }

  lemma ComparedCode(u: Scope, x: I64)
    requires u.held == {0} && u.glob == CFrame(map[], 0)
    ensures ItemCode(u, Compared(x).head, 0) + [Halt] == if u.fold then FoldedOps(x) else UnfoldedOps(x)
  {
    hide FirstFree, Alloc;
    Allocs();
    var l, r: Expr := Num(1), Num(x);
    var e := Bin(Lt, l, r);
    assert Left({0}) == {0, 1};
    assert Res({0, 1}, l) == 2 && Res({0, 1}, r) == 2;
    assert Hold({0, 1}, 2) == {0, 1, 2} && Right({0}, r) == 3;
    assert Hold({0, 1}, 3) == {0, 1, 3} && Res({0}, e) == 2;
    var frames: Frames := [u.glob];
    assert Lookup(frames, "r") == None;
    assert ExprCode(u.ft, frames, {0}, e, 2) == [MovRI(1, 1), MovRI(3, x), Alu(Lt, 2, 1, 3)];
    assert PlainCode(u.ft, frames, {0, 1}, l) == [MovRI(2, 1)] && PlainCode(u.ft, frames, {0, 1}, r) == [MovRI(2, x)];
    assert PlainCode(u.ft, frames, {0}, e) == [MovRI(2, 1), MovRR(1, 2), MovRI(2, x), MovRR(3, 2), Alu(Lt, 2, 1, 3)];
  }

  lemma ComparedCompiled(fold: bool, x: I64)
    ensures CompileBy(fold, Compared(x)) == if fold then FoldedOps(x) else UnfoldedOps(x)
  {
    hide ItemCode, AfterItem;
    var u, item := Begin(fold), Compared(x).head;
    ComparedCode(u, x);
    assert ItemsCode(AfterItem(u, item, 0), Nil, 0 + |ItemCode(u, item, 0)|) == [];
    assert ItemsCode(u, Compared(x), 0) == ItemCode(u, item, 0) + [];
  }

  lemma FoldedRun(x: I64) returns (t: State)
    requires x > 1
    ensures Reaches(FoldedOps(x), Start(), t) && Step(FoldedOps(x), t) == Halted
    ensures |t.frames| == 1 && t.frames[0].locals == Zeros(64)[0 := 1]
  {
    hide Reaches;
    var p, s0 := FoldedOps(x), Start();
    ReachRefl(p, s0);
    var s1 := Put(s0, 1, 1);
    Going(p, s0, s0, s1);
    var s2 := Put(s1, 3, x);
    Going(p, s0, s1, s2);
    var s3 := Put(s2, 2, 1);
    Going(p, s0, s2, s3);
    t := WriteLocal(s3, 0, 0, 1);
    Going(p, s0, s3, t);
  }

  lemma UnfoldedRun(x: I64) returns (t: State)
    requires x > 1
    ensures Reaches(UnfoldedOps(x), Start(), t) && Step(UnfoldedOps(x), t) == Halted
    ensures |t.frames| == 1 && t.frames[0].locals == Zeros(64)[0 := x - x % 256 + 1]
  {
    hide Reaches;
    var p, s0 := UnfoldedOps(x), Start();
    ReachRefl(p, s0);
    var s1 := Put(s0, 2, 1);
    Going(p, s0, s0, s1);
    var s2 := Put(s1, 1, 1);
    Going(p, s0, s1, s2);
    var s3 := Put(s2, 2, x);
    Going(p, s0, s2, s3);
    var s4 := Put(s3, 3, x);
    Going(p, s0, s3, s4);
    var w := x - x % 256 + 1;
    var s5 := Put(s4, 2, w);
    Going(p, s0, s4, s5);
    t := WriteLocal(s5, 0, 0, w);
    Going(p, s0, s5, t);
  }

  /** Folding keeps what a word stands for, not the word: for `1 < 512` the variable ends as 1 with it and
      as 513 without. The words are equal exactly when the number compared is a byte. */
  lemma WordsDiffer(x: I64) returns (t: State, t1: State)
    requires x > 1
    ensures Reaches(Compile(Compared(x)), Start(), t) && Step(Compile(Compared(x)), t) == Halted
    ensures Reaches(CompileBy(false, Compared(x)), Start(), t1) && Step(CompileBy(false, Compared(x)), t1) == Halted
    ensures |t.frames| == |t1.frames| == 1
    ensures t.frames[0].locals == Zeros(64)[0 := 1] && t1.frames[0].locals == Zeros(64)[0 := x - x % 256 + 1]
    ensures t.frames[0].locals == t1.frames[0].locals <==> x < 256
    ensures x == 512 ==> t1.frames[0].locals[0] == 513
  {
    hide Reaches, Step, FoldedOps, UnfoldedOps;
    ComparedCompiled(true, x);
    ComparedCompiled(false, x);
    t := FoldedRun(x);
    t1 := UnfoldedRun(x);
    assert t.frames[0].locals[0] == 1 && t1.frames[0].locals[0] == x - x % 256 + 1;
  }

  // ----- a break that goes to another loop -----

  /** mut v = 0  loop (1) { break  loop (0) { }  v = x } */
  function Broken(x: I64): List<Item> {
    Cons(Do(Set("v", Num(0), true)), Cons(Do(Loop(Some(Num(1)), BrokenBody(x))), Nil))
  }

  const IDLE: Stmt := Loop(Some(Num(0)), Nil)

  function BrokenBody(x: I64): List<Stmt> {
    Cons(Break, Cons(IDLE, Cons(Set("v", Num(x), true), Nil)))
  }

  const WITH_MUT: CFrame := CFrame(map["v" := Slot(true, 0)], 1)

  /** The break, at 4, goes to 9, the end of the inner loop. */
  function BrokenOps(x: I64): seq<Op> {
    [MovRI(1, 0), LocalSet(0, 0, 1), MovRI(1, 1), IfFalse(1, 13), Jmp(9), MovRI(2, 0), IfFalse(2, 9), Dec(2), Jmp(6),
     MovRI(2, x), LocalSet(0, 0, 2), Dec(1), Jmp(3)]
  }

  lemma BrokenFirst(u: Scope, o: Output, x: I64)
    requires u == FRESH && o == EMPTY
    ensures OutItem(u, Broken(x).head, o) == Output([MovRI(1, 0), LocalSet(0, 0, 1)], {0}, [], [])
    ensures AfterItem(u, Broken(x).head, 0) == u.(glob := WITH_MUT)
    ensures !ItemErr(u, Broken(x).head, 0)
  {
    hide FirstFree, Alloc;
    Allocs();
    assert FindVar([u.glob], "v") == None by {
      assert Front([u.glob]) == [];
    }
  }

  /** The inner loop, with the break of the outer one pending. */
  lemma IdleOut(ft: Funcs, frames: Frames, o: Output)
    requires o.held == {0, 1} && |o.ops| == 5 && o.ops[4] == Jmp(0) && o.breaks == [4] && o.continues == []
    ensures OutStmt(ft, frames, IDLE, o)
            == Output(o.ops[4 := Jmp(9)] + [MovRI(2, 0), IfFalse(2, 9), Dec(2), Jmp(6)], {0, 1}, [], [])
  {
    hide FirstFree, Alloc;
    Allocs();
    var o1 := LoopTest(ft, frames, Some(Num(0)), o);
    assert o1.ops == o.ops + [MovRI(2, 0), IfFalse(2, 0)] && o1.held == {0, 1, 2};
    assert OutList(ft, frames, Nil, o1) == o1;
    var ops := o1.ops + LoopTail(Some(2), 6);
    assert ops == o.ops + [MovRI(2, 0), IfFalse(2, 0), Dec(2), Jmp(6)];
    var p1 := Patched(ops, 0, [4], 9, [], 0);
    assert p1 == o.ops[4 := Jmp(9)] + [MovRI(2, 0), IfFalse(2, 0), Dec(2), Jmp(6)];
    assert Patched(p1, 0, [], 7, [], 0) == p1;
    assert p1[6 := IfFalse(2, 9)] == o.ops[4 := Jmp(9)] + [MovRI(2, 0), IfFalse(2, 9), Dec(2), Jmp(6)];
    assert CloseLoop(o1, Some(2), 6).ops == p1[6 := IfFalse(2, 9)];
    assert {0, 1, 2} - {2} == {0, 1};
  }

  lemma BrokenSecond(u: Scope, o: Output, x: I64)
    requires u.glob == WITH_MUT && u.ft == map[]
    requires o == Output([MovRI(1, 0), LocalSet(0, 0, 1)], {0}, [], [])
    ensures OutItem(u, Broken(x).tail.head, o).ops == BrokenOps(x)
  {
    hide OutStmt, OutList, CloseLoop, LoopTest, Alloc;
    var ft, frames: Frames := u.ft, [u.glob];
    var o1 := Output([MovRI(1, 0), LocalSet(0, 0, 1), MovRI(1, 1), IfFalse(1, 0)], {0, 1}, [], []);
    TestOut(ft, frames, o, o1);
    var o2 := Output(o1.ops + [Jmp(0)], {0, 1}, [4], []);
    assert o1.breaks + [4] == [4];
    BreakOut(ft, frames, o1);
    IdleOut(ft, frames, o2);
    var o3 := OutStmt(ft, frames, IDLE, o2);
    SetOut(ft, frames, x, o3);
    var o4 := Output(o3.ops + [MovRI(2, x), LocalSet(0, 0, 2)], {0, 1}, [], []);
    BodyOut(ft, frames, x, o1, o2, o3, o4);
    LoopOut(ft, frames, x, o);
    BrokenClose(o4, x);
  }

  lemma TestOut(ft: Funcs, frames: Frames, o: Output, o1: Output)
    requires o == Output([MovRI(1, 0), LocalSet(0, 0, 1)], {0}, [], [])
    requires o1 == Output([MovRI(1, 0), LocalSet(0, 0, 1), MovRI(1, 1), IfFalse(1, 0)], {0, 1}, [], [])
    ensures LoopTest(ft, frames, Some(Num(1)), o) == o1
  {
    hide FirstFree, Alloc;
    Allocs();
  }

  lemma BodyOut(ft: Funcs, frames: Frames, x: I64, o1: Output, o2: Output, o3: Output, o4: Output)
    requires OutStmt(ft, frames, Break, o1) == o2 && OutStmt(ft, frames, IDLE, o2) == o3
    requires OutStmt(ft, frames, Set("v", Num(x), true), o3) == o4
    ensures OutList(ft, frames, BrokenBody(x), o1) == o4
  {
    hide OutStmt, SetFrames, SetErr, Lookup;
    var body := BrokenBody(x);
    EmptyBlock(frames);
    assert FramesAfter(frames, IDLE) == frames;
    assert OutList(ft, FramesAfter(frames, body.tail.tail.head), Nil, o4) == o4;
    assert OutList(ft, frames, body.tail.tail, o3) == o4;
    assert OutList(ft, frames, body.tail, o2) == o4;
  }

  lemma BrokenClose(o: Output, x: I64)
    requires |o.ops| == 11 && o.breaks == o.continues == [] && o.ops[3] == IfFalse(1, 0)
    requires o.ops[3 := IfFalse(1, 13)] + [Dec(1), Jmp(3)] == BrokenOps(x)
    ensures CloseLoop(o, Some(1), 3).ops == BrokenOps(x)
  {
    var ops := o.ops + LoopTail(Some(1), 3);
    assert ops == o.ops + [Dec(1), Jmp(3)];
    assert Patched(ops, 0, [], 13, [], 0) == ops;
    assert Patched(ops, 0, [], 11, [], 0) == ops;
    assert ops[3 := IfFalse(1, 13)] == o.ops[3 := IfFalse(1, 13)] + [Dec(1), Jmp(3)];
  }

  lemma BreakOut(ft: Funcs, frames: Frames, o: Output)
    ensures OutStmt(ft, frames, Break, o) == o.(ops := o.ops + [Jmp(0)], breaks := o.breaks + [|o.ops|])
  {
  }

  lemma SetOut(ft: Funcs, frames: Frames, x: I64, o: Output)
    requires o.held == {0, 1} && frames == [WITH_MUT]
    ensures OutStmt(ft, frames, Set("v", Num(x), true), o) == o.(ops := o.ops + [MovRI(2, x), LocalSet(0, 0, 2)])
  {
    hide FirstFree, Alloc;
    Allocs();
    assert FindVar(frames, "v") == Some(Loc(0, Slot(true, 0)));
  }

  lemma LoopOut(ft: Funcs, frames: Frames, x: I64, o: Output)
    requires o.held == {0} && |o.ops| == 2
    ensures OutStmt(ft, frames, Loop(Some(Num(1)), BrokenBody(x)), o)
            == CloseLoop(OutList(ft, frames, BrokenBody(x), LoopTest(ft, frames, Some(Num(1)), o)), Some(1), 3)
  {
    hide FirstFree, Alloc, OutList, CloseLoop;
    Allocs();
  }

  lemma BrokenGenerated(x: I64)
    ensures Generated(Broken(x)) == BrokenOps(x) + [Halt] && !CleanItems(Broken(x))
  {
    hide OutItem, AfterItem;
    var u1, o1 := FRESH.(glob := WITH_MUT), Output([MovRI(1, 0), LocalSet(0, 0, 1)], {0}, [], []);
    var items := Broken(x);
    BrokenFirst(FRESH, EMPTY, x);
    BrokenSecond(u1, o1, x);
    assert OutItems(u1, items.tail, o1).1 == OutItem(u1, items.tail.head, o1);
    assert !Clean(true, IDLE);
    assert !ListClean(true, BrokenBody(x).tail) && !ListClean(false, BrokenBody(x));
    assert !CleanItem(items.tail.head);
  }

  lemma BrokenErr(x: I64)
    ensures !ItemsErr(FRESH, Broken(x), 0)
  {
    hide ItemCode, AfterItem, ItemErr;
    var u1, n := FRESH.(glob := WITH_MUT), |ItemCode(FRESH, Broken(x).head, 0)|;
    BrokenFirst(FRESH, EMPTY, x);
    BrokenLoopErr(u1, n, x);
    var u2, n2 := AfterItem(u1, Broken(x).tail.head, n), n + |ItemCode(u1, Broken(x).tail.head, n)|;
    assert !ItemsErr(u2, Nil, n2);
    assert !ItemsErr(u1, Broken(x).tail, n);
  }

  lemma BrokenLoopErr(u: Scope, n: nat, x: I64)
    requires u.glob == WITH_MUT
    ensures !ItemErr(u, Broken(x).tail.head, n)
  {
    var frames: Frames, body := [u.glob], BrokenBody(x);
    assert FindVar(frames, "v") == Some(Loc(0, Slot(true, 0)));
    EmptyBlock(frames);
    assert FramesAfter(frames, Break) == frames && FramesAfter(frames, IDLE) == frames;
    assert !ListErr(u.ft, FramesAfter(frames, body.tail.tail.head), Nil);
    assert !ListErr(u.ft, frames, body.tail.tail);
    assert !ListErr(u.ft, frames, Nil) && !StmtErr(u.ft, frames, IDLE);
    assert !ListErr(u.ft, frames, body.tail);
    assert !ListErr(u.ft, frames, body);
  }

  lemma BrokenRun(x: I64) returns (t: State)
    ensures Reaches(BrokenOps(x) + [Halt], Start(), t) && Step(BrokenOps(x) + [Halt], t) == Halted
    ensures |t.frames| == 1 && t.frames[0].locals == Zeros(64)[0 := 0][0 := x]
  {
    hide Reaches;
    var p, s0 := BrokenOps(x) + [Halt], Start();
    ReachRefl(p, s0);
    var s1 := Put(s0, 1, 0);
    Going(p, s0, s0, s1);
    var s2 := WriteLocal(s1, 0, 0, 0);
    Going(p, s0, s1, s2);
    var s3 := Put(s2, 1, 1);
    Going(p, s0, s2, s3);
    var s4 := s3.(pc := 4);
    Going(p, s0, s3, s4);
    var s5 := s4.(pc := 9);
    Going(p, s0, s4, s5);
    var s6 := Put(s5, 2, x);
    Going(p, s0, s5, s6);
    var s7 := WriteLocal(s6, 0, 0, x);
    Going(p, s0, s6, s7);
    var s8 := Put(s7, 1, 0);
    Going(p, s0, s7, s8);
    var s9 := s8.(pc := 3);
    Going(p, s0, s8, s9);
    t := s9.(pc := 13);
    Going(p, s0, s9, t);
  }

  lemma BrokenMeans(x: I64)
    ensures ExecItems(map[], 1, map[], Broken(x)) == Some(map["v" := Binding(true, I(0))])
  {
    var env: Env := map["v" := Binding(true, I(0))];
    var loop := Broken(x).tail.head.s;
    assert Exec(map[], 1, map[], Set("v", Num(0), true)) == Some(Normal(env));
    assert ExecList(map[], 1, env, BrokenBody(x)) == Some(Broke(env));
    assert Restrict(env, env.Keys) == env;
    assert ExecScoped(map[], 1, env, BrokenBody(x)) == Some(Broke(env));
    assert ExecLoop(map[], 1, env, Some(1), BrokenBody(x)) == Some(Normal(env));
    assert Exec(map[], 1, env, loop) == Some(Normal(env));
    assert ExecItems(map[], 1, env, Nil) == Some(env);
    assert ExecItems(map[], 1, env, Broken(x).tail) == Some(env);
  }

  /** A program that is not clean and ends wrongly: the break leaves the inner loop, which has not begun,
      and the assignment behind it is carried out after all. */
  lemma WrongLoop(x: I64) returns (t: State)
    ensures !ItemsErr(FRESH, Broken(x), 0) && !CleanItems(Broken(x))
    ensures Reaches(Generated(Broken(x)), Start(), t) && Step(Generated(Broken(x)), t) == Halted
    ensures |t.frames| == 1 && t.frames[0].locals == Zeros(64)[0 := x]
    ensures ExecItems(map[], 1, map[], Broken(x)) == Some(map["v" := Binding(true, I(0))])
  {
    hide ItemsErr, Generated, Reaches, Step, ExecItems, BrokenOps, CleanItems;
    BrokenErr(x);
    BrokenGenerated(x);
    BrokenMeans(x);
    t := BrokenRun(x);
    assert Zeros(64)[0 := 0][0 := x] == Zeros(64)[0 := x];
  }
}
