/** The recursive Fibonacci program meets every condition of the correctness theorem. */
module Fibonacci {
  import opened Words
  import opened Machine
  import opened Source
  import opened Reference
  import opened Simulation
  import opened Safety
  import opened Closed
  import opened Patching
  import opened Programs
  import opened Driver

  function Minus(k: I64): Expr {
    Call("fib", Cons(Bin(Sub, Var("n"), Num(k)), Nil))
  }

  const SUM: Expr := Bin(Add, Minus(1), Minus(2))

  const TEST: Expr := Bin(Lt, Var("n"), Num(2))

  const BODY: List<Stmt> := Cons(If(TEST, Cons(Return(Var("n")), Nil), Nil), Cons(Return(SUM), Nil))

  /** fib(n) of a constant, kept in the variable r. */
  function Program(k: I64): List<Item> {
    Cons(Def("fib", ["n"], BODY), Cons(Do(Set("r", Call("fib", Cons(Num(k), Nil)), false)), Nil))
  }

  function Fib(n: nat): nat {
    if n < 2 then n else Fib(n - 1) + Fib(n - 2)
  }

  lemma Allocs()
    ensures Alloc({0}) == 1 && Alloc({0, 1}) == 2 && Alloc({0, 1, 2}) == 3 && Alloc({0, 1, 2, 3}) == 4
            && Alloc({0, 1, 2, 4}) == 3
    ensures Alloc({0, 1, 3}) == 2 && Alloc({0, 2}) == 1
  {
    FreeAt({0}, 1);
    FreeAt({0, 1}, 2);
    FreeAt({0, 1, 2}, 3);
    FreeAt({0, 1, 2, 3}, 4);
    FreeAt({0, 1, 2, 4}, 3);
    FreeAt({0, 1, 3}, 2);
    FreeAt({0, 2}, 1);
  }

  lemma FreeAt(h: Held, n: nat)
    requires 0 < n < REG_COUNT && (forall i :: 0 <= i < n ==> i in h) && n !in h
    ensures Alloc(h) == n
  {
    Skip(h, 0, n);
    assert FirstFree(h, n) == n;
  }

  lemma {:induction false} Skip(h: Held, i: nat, n: nat)
    requires i <= n < REG_COUNT && forall j :: i <= j < n ==> j in h
    ensures FirstFree(h, i) == FirstFree(h, n)
    decreases n - i
  {
    if i < n {
      Skip(h, i + 1, n);
    }
  }

  lemma VarThere(g: CFrame, f: CFrame)
    requires f.locals == map["n" := Slot(true, 0)]
    ensures Lookup([g, f], "n") == Some(Loc(0, Slot(true, 0)))
  {
  }

  lemma ParamN()
    ensures ParamFrame(["n"]) == CFrame(map["n" := Slot(true, 0)], 1)
  {
    assert Front(["n"]) == [];
    assert ParamFrame([]) == CFrame(map[], 0);
  }

  const FT: Funcs := map["fib" := FEntry(1, 1)]

  const GLOBALS: CFrame := CFrame(map[], 0)

  const FRAMES: Frames := [GLOBALS, CFrame(map["n" := Slot(true, 0)], 1)]

  /** n - c, compiled while two registers are taken. */
  lemma ArgOk(k: set<nat>, c: I64)
    ensures var a := Bin(Sub, Var("n"), Num(c));
            SafeExpr(FT, FRAMES, {0, 1}, k, a) && RegsFit({0, 1}, NO_REG, a) && !ExprErr(FT, FRAMES, a) && !HasCall(a)
  {
    hide FirstFree, Alloc, Lookup, FindVar;
    VarThere(FRAMES[0], FRAMES[1]);
    Allocs();
    assert Left({0, 1}) == {0, 1, 2};
    assert Res({0, 1, 2}, Num(c)) == 3 == Res({0, 1, 2}, Var("n"));
    assert Hold({0, 1, 2}, 3) == {0, 1, 2, 3};
    assert Right({0, 1}, Num(c)) == 4;
    assert Hold({0, 1, 2}, 4) == {0, 1, 2, 4};
    assert Res({0, 1}, Bin(Sub, Var("n"), Num(c))) == 3;
  }

  lemma CallOk(k: set<nat>, c: I64)
    requires k <= {1}
    ensures SafeExpr(FT, FRAMES, {0, 1}, k, Minus(c)) && RegsFit({0, 1}, NO_REG, Minus(c))
            && !ExprErr(FT, FRAMES, Minus(c))
  {
    hide FirstFree, Alloc, Lookup, FindVar;
    ArgOk(k, c);
    var a := Bin(Sub, Var("n"), Num(c));
    assert SafeArgs(FT, FRAMES, {0, 1}, k, Nil, 1) && ArgsFit({0, 1}, NO_REG, Nil);
    assert SafeArgs(FT, FRAMES, {0, 1}, k, Cons(a, Nil), 0);
    assert ArgsFit({0, 1}, NO_REG, Cons(a, Nil)) && !ArgsErr(FT, FRAMES, Cons(a, Nil));
    assert Length(Cons(a, Nil)) == 1 + Length<Expr>(Nil);
  }

  lemma SumOk()
    ensures SafeExpr(FT, FRAMES, {0}, {}, SUM) && RegsFit({0}, NO_REG, SUM) && !ExprErr(FT, FRAMES, SUM)
  {
    hide FirstFree, Alloc, Lookup, FindVar;
    Allocs();
    CallOk({}, 1);
    CallOk({1}, 2);
    assert Left({0}) == {0, 1};
    assert Hold({0, 1}, 0) == {0, 1} && Hold({0, 1}, 2) == {0, 1, 2};
    assert Right({0}, Minus(2)) == 2;
    assert Res({0}, SUM) == 3;
    assert {} + {Alloc({0})} == {1};
  }

  lemma TestOk()
    ensures SafeExpr(FT, FRAMES, {0}, {}, TEST) && RegsFit({0}, NO_REG, TEST) && !ExprErr(FT, FRAMES, TEST)
    ensures Res({0}, TEST) == 2
  {
    hide FirstFree, Alloc, Lookup, FindVar;
    VarThere(FRAMES[0], FRAMES[1]);
    Allocs();
    assert Left({0}) == {0, 1};
    assert Hold({0, 1}, 2) == {0, 1, 2} && Hold({0, 1}, 3) == {0, 1, 3};
    assert Right({0}, Num(2)) == 3;
  }

  const PLACE: Place := Place(2, true, false)

  const RETURN_N: List<Stmt> := Cons(Return(Var("n")), Nil)

  const BRANCH: Stmt := If(TEST, RETURN_N, Nil)

  /** Everything the conditions ask of a statement that changes neither registers nor names. */
  predicate Fine(ft: Funcs, frames: Frames, h: Held, pl: Place, s: Stmt) {
    && SafeStmt(ft, frames, h, {}, pl, s) && StmtFits(NO_REG, h, s) && !StmtErr(ft, frames, s)
    && HeldAfter(h, s) == h && FramesAfter(frames, s) == frames
    && WellPlaced(s, false, true) && Clean(false, s) && !Pends(s)
  }

  predicate FineList(ft: Funcs, frames: Frames, h: Held, pl: Place, body: List<Stmt>) {
    && SafeList(ft, frames, h, {}, pl, body) && ListFits(NO_REG, h, body) && !ListErr(ft, frames, body)
    && HeldAfterList(h, body) == h && FramesAfterList(frames, body) == frames
    && ListPlaced(body, false, true) && ListClean(false, body) && !ListPends(body)
  }

  lemma NilFine(ft: Funcs, frames: Frames, h: Held, pl: Place)
    ensures FineList(ft, frames, h, pl, Nil)
  {
  }

  lemma ConsFine(ft: Funcs, frames: Frames, h: Held, pl: Place, s: Stmt, rest: List<Stmt>)
    requires Fine(ft, frames, h, pl, s) && FineList(ft, frames, h, pl, rest)
    ensures FineList(ft, frames, h, pl, Cons(s, rest))
  {
  }

  lemma ReturnFine(ft: Funcs, frames: Frames, h: Held, pl: Place, e: Expr)
    requires SafeExpr(ft, frames, h, {}, e) && RegsFit(h, NO_REG, e) && !ExprErr(ft, frames, e) && pl.inFn
    ensures Fine(ft, frames, h, pl, Return(e))
  {
  }

  lemma NOk(ft: Funcs, frames: Frames, h: Held)
    requires frames == FRAMES && h == {0, 2}
    ensures SafeExpr(ft, frames, h, {}, Var("n")) && RegsFit(h, NO_REG, Var("n")) && !ExprErr(ft, frames, Var("n"))
  {
    hide FirstFree, Alloc, Lookup, FindVar;
    VarThere(frames[0], frames[1]);
    Allocs();
  }

  lemma ReturnOk()
    ensures FineList(FT, FRAMES, {0, 2}, PLACE, RETURN_N)
    ensures FramesAfterBlock(FRAMES, RETURN_N) == FRAMES
  {
    hide SafeExpr, RegsFit, ExprErr, SafeList, ListFits, ListErr, HeldAfterList, ListPlaced, ListClean, ListPends, Fine;
    NOk(FT, FRAMES, {0, 2});
    ReturnFine(FT, FRAMES, {0, 2}, PLACE, Var("n"));
    NilFine(FT, FRAMES, {0, 2}, PLACE);
    ConsFine(FT, FRAMES, {0, 2}, PLACE, Return(Var("n")), Nil);
    SameBlock(FRAMES, RETURN_N);
  }

  lemma SameBlock(frames: Frames, body: List<Stmt>)
    requires FramesAfterList(frames, body) == frames
    ensures FramesAfterBlock(frames, body) == frames
  {
    assert frames == TopFrame(frames, Last(frames));
  }

  lemma IfFine(ft: Funcs, frames: Frames, h: Held, pl: Place, c: Expr, thn: List<Stmt>)
    requires SafeExpr(ft, frames, h, {}, c) && RegsFit(h, NO_REG, c) && !ExprErr(ft, frames, c)
    requires var h1 := Hold(h, Res(h, c));
             FineList(ft, frames, h1, pl, thn) && FramesAfterBlock(frames, thn) == frames && Release(h1, Res(h, c)) == h
    ensures Fine(ft, frames, h, pl, If(c, thn, Nil))
  {
    EmptyBlock(frames);
    assert HeldAfterList(Hold(h, Res(h, c)), Nil) == Hold(h, Res(h, c));
  }

  lemma EmptyBlock(frames: Frames)
    ensures FramesAfterBlock(frames, Nil) == frames
  {
    SameBlock(frames, Nil);
  }

  lemma BodyOk()
    ensures FineList(FT, FRAMES, {0}, PLACE, BODY)
  {
    hide SafeExpr, RegsFit, ExprErr, Res, Fine, FineList, FramesAfterBlock;
    TestOk();
    SumOk();
    ReturnOk();
    assert Hold({0}, 2) == {0, 2} && Release({0, 2}, 2) == {0};
    IfFine(FT, FRAMES, {0}, PLACE, TEST, RETURN_N);
    ReturnFine(FT, FRAMES, {0}, PLACE, SUM);
    NilFine(FT, FRAMES, {0}, PLACE);
    ConsFine(FT, FRAMES, {0}, PLACE, Return(SUM), Nil);
    ConsFine(FT, FRAMES, {0}, PLACE, BRANCH, Cons(Return(SUM), Nil));
  }

  lemma MainOk(k: I64)
    ensures var s := Set("r", Call("fib", Cons(Num(k), Nil)), false);
            SafeStmt(FT, [GLOBALS], {0}, {}, TOP_LEVEL, s) && StmtFits(NO_REG, {0}, s) && !StmtErr(FT, [GLOBALS], s)
  {
    hide FirstFree, Alloc;
    Allocs();
    var args := Cons(Num(k), Nil);
    assert Length(args) == 1 + Length<Expr>(Nil);
    assert SafeArgs(FT, [GLOBALS], {0}, {}, args, 0);
    assert ArgsFit({0}, NO_REG, args) && !ArgsErr(FT, [GLOBALS], args);
    assert Lookup([GLOBALS], "r") == None;
  }

  /** The conditions of the correctness theorem can be met, recursion included. */
  lemma FibSafe(k: I64)
    ensures SafeProgram(Program(k)) && CleanItems(Program(k))
    ensures Variables(Program(k)) == map["r" := Slot(false, 0)]
  {
    hide SafeList, ListFits, ListErr, ListPlaced, ListClean, SafeStmt, StmtFits, StmtErr, DefCode, StmtCode,
         HeldAfterList, HeldAfter, FramesAfterList, ParamFrame;
    var def, main := Program(k).head, Program(k).tail.head;
    BodyOk();
    MainOk(k);
    ParamN();
    var u1 := AfterItem(FRESH, def, 0);
    assert CleanItems(Program(k).tail) by {
      assert CleanItems(Program(k).tail.tail);
    }
    assert Declare(map[], "fib", ["n"], 1) == FT;
    assert u1 == Scope(true, {0}, GLOBALS, FT);
    var n1 := |ItemCode(FRESH, def, 0)|;
    assert SafeItem(FRESH, def, 0) && SafeItem(u1, main, n1);
    AfterMain(k);
    var n2 := n1 + |ItemCode(u1, main, n1)|;
    assert AfterItems(u1, Program(k).tail, n1) == AfterItems(AfterItem(u1, main, n1), Nil, n2);
    assert SafeItems(u1, Program(k).tail, n1) by {
      assert SafeItems(AfterItem(u1, main, n1), Nil, n2);
    }
  }

  lemma AfterMain(k: I64)
    ensures FramesAfter([GLOBALS], Set("r", Call("fib", Cons(Num(k), Nil)), false))
            == [CFrame(map["r" := Slot(false, 0)], 1)]
  {
    assert Lookup([GLOBALS], "r") == None;
  }

  // ----- its value -----

  const DEFS: Defs := map["fib" := FnDef(["n"], BODY)]

  function EnvN(n: int): Env {
    map["n" := Binding(true, I(n))]
  }

  lemma {:induction false} FibGrows(m: nat, n: nat)
    requires m <= n
    ensures Fib(m) <= Fib(n)
    decreases n
  {
    if m < n {
      FibGrows(m, n - 1);
    }
  }

  /** A call of fib runs its body with n bound to the argument. */
  lemma FibEnters(fuel: nat, env: Env, e: Expr, n: nat)
    requires fuel > 0 && Eval(DEFS, fuel, env, e) == Some(I(n))
    ensures Eval(DEFS, fuel, env, Call("fib", Cons(e, Nil)))
            == CallResult(ExecList(DEFS, fuel - 1, EnvN(n), DEFS["fib"].body))
  {
    hide ExecList;
    assert EvalArgs(DEFS, fuel, env, Nil) == Some([]);
    assert [I(n)] + [] == [I(n)];
    assert EvalArgs(DEFS, fuel, env, Cons(e, Nil)) == Some([I(n)]);
    assert ["n"][..0] == [] && [I(n)][..0] == [];
    assert Bind(["n"], [I(n)]) == EnvN(n);
  }

  lemma {:induction false} EvalFib(fuel: nat, env: Env, e: Expr, n: nat)
    requires fuel > n && InI64(n) && InI64(Fib(n)) && Eval(DEFS, fuel, env, e) == Some(I(n))
    ensures Eval(DEFS, fuel, env, Call("fib", Cons(e, Nil))) == Some(I(Fib(n)))
    decreases n
  {
    hide Arith, ExecList, TruncDiv, Eval;
    FibEnters(fuel, env, e, n);
    if n < 2 {
      SmallBody(fuel - 1, n);
    } else {
      FibGrows(n - 1, n);
      FibGrows(n - 2, n);
      MinusEval(fuel - 1, n, 1);
      MinusEval(fuel - 1, n, 2);
      EvalFib(fuel - 1, EnvN(n), Bin(Sub, Var("n"), Num(1)), n - 1);
      EvalFib(fuel - 1, EnvN(n), Bin(Sub, Var("n"), Num(2)), n - 2);
      LargeBody(fuel - 1, n);
    }
  }

  lemma MinusEval(fuel: nat, n: nat, k: nat)
    requires k <= 2 <= n && InI64(n)
    ensures Eval(DEFS, fuel, EnvN(n), Bin(Sub, Var("n"), Num(k))) == Some(I(n - k))
  {
    assert Eval(DEFS, fuel, EnvN(n), Var("n")) == Some(I(n));
    assert Eval(DEFS, fuel, EnvN(n), Num(k)) == Some(I(k));
  }

  lemma TestEval(fuel: nat, n: nat)
    ensures Eval(DEFS, fuel, EnvN(n), TEST) == Some(B(n < 2))
  {
    assert Eval(DEFS, fuel, EnvN(n), Var("n")) == Some(I(n));
    assert Eval(DEFS, fuel, EnvN(n), Num(2)) == Some(I(2));
  }

  lemma SmallBody(fuel: nat, n: nat)
    requires n < 2
    ensures ExecList(DEFS, fuel, EnvN(n), BODY) == Some(Returned(I(n)))
  {
    hide Eval;
    TestEval(fuel, n);
    ReadN(fuel, n);
    assert Exec(DEFS, fuel, EnvN(n), Return(Var("n"))) == Some(Returned(I(n)));
    assert ExecList(DEFS, fuel, EnvN(n), RETURN_N) == Some(Returned(I(n)));
    assert Exec(DEFS, fuel, EnvN(n), BRANCH) == Some(Returned(I(n)));
  }

  lemma ReadN(fuel: nat, n: nat)
    ensures Eval(DEFS, fuel, EnvN(n), Var("n")) == Some(I(n))
  {
  }

  lemma LargeBody(fuel: nat, n: nat)
    requires n >= 2 && InI64(Fib(n))
    requires Eval(DEFS, fuel, EnvN(n), Minus(1)) == Some(I(Fib(n - 1)))
             && Eval(DEFS, fuel, EnvN(n), Minus(2)) == Some(I(Fib(n - 2)))
    ensures ExecList(DEFS, fuel, EnvN(n), BODY) == Some(Returned(I(Fib(n))))
  {
    TestEval(fuel, n);
    SumEval(fuel, n);
    hide Eval;
    assert ExecList(DEFS, fuel, EnvN(n), Nil) == Some(Normal(EnvN(n)));
    assert Restrict(EnvN(n), EnvN(n).Keys) == EnvN(n);
    assert Exec(DEFS, fuel, EnvN(n), BRANCH) == Some(Normal(EnvN(n)));
    var last := Cons(Return(SUM), Nil);
    assert Exec(DEFS, fuel, EnvN(n), Return(SUM)) == Some(Returned(I(Fib(n))));
    assert ExecList(DEFS, fuel, EnvN(n), last) == Some(Returned(I(Fib(n))));
  }

  lemma SumEval(fuel: nat, n: nat)
    requires n >= 2 && InI64(Fib(n))
    requires Eval(DEFS, fuel, EnvN(n), Minus(1)) == Some(I(Fib(n - 1)))
             && Eval(DEFS, fuel, EnvN(n), Minus(2)) == Some(I(Fib(n - 2)))
    ensures Eval(DEFS, fuel, EnvN(n), SUM) == Some(I(Fib(n)))
  {
  }

  /** The compiled program computes Fibonacci numbers: whenever fib(k) is a 64-bit number, the machine
      halts with it in the slot of r. */
  lemma FibRuns(k: I64) returns (t: State)
    requires k >= 0 && InI64(Fib(k))
    ensures Reaches(Compile(Program(k)), Start(), t) && Step(Compile(Program(k)), t) == Halted
    ensures t.frames != [] && t.frames[0].locals != [] && t.frames[0].locals[0] == Fib(k)
  {
    hide Compile, SafeProgram, Step, Start, Variables;
    FibSafe(k);
    ExecFib(k);
    t := CompilerCorrect(Program(k), k + 1);
    var env: Env := map["r" := Binding(false, I(Fib(k)))];
    assert Match(map["r" := Slot(false, 0)], env, t.frames[0].locals);
    assert "r" in env;
  }

  lemma ExecFib(k: I64)
    requires k >= 0 && InI64(Fib(k))
    ensures ExecItems(DefsOf(Program(k)), k + 1, map[], Program(k)) == Some(map["r" := Binding(false, I(Fib(k)))])
  {
    hide Eval;
    var main := Program(k).tail;
    assert DefsOf(main.tail) == map[];
    assert DefsOf(main) == map[];
    assert DefsOf(Program(k)) == DEFS;
    NumEval(k + 1, k);
    EvalFib(k + 1, map[], Num(k), k);
    assert Exec(DEFS, k + 1, map[], main.head.s) == Some(Normal(map["r" := Binding(false, I(Fib(k)))]));
    assert ExecItems(DEFS, k + 1, map["r" := Binding(false, I(Fib(k)))], Nil)
           == Some(map["r" := Binding(false, I(Fib(k)))]);
    assert ExecItems(DEFS, k + 1, map[], main) == Some(map["r" := Binding(false, I(Fib(k)))]);
  }

  lemma NumEval(fuel: nat, k: I64)
    ensures Eval(DEFS, fuel, map[], Num(k)) == Some(I(k))
  {
  }
}
