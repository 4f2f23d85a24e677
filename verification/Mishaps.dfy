/** Programs that reassign a global variable in a function, or keep a value in a register that calls do not
    save: for each, the instructions the generator leaves and the run of the machine on them. */
module Mishaps {
  import opened Words
  import opened Machine
  import opened Source
  import opened Reference
  import opened Simulation
  import opened Programs
  import opened Patching
  import opened Emission
  import opened Driver
  import opened Fibonacci
  import opened Examples

  /** mut v = x */
  function Global(x: I64): Item {
    Do(Set("v", Num(x), true))
  }

  lemma GlobalFine(x: I64)
    ensures FineItem(FRESH, Global(x), 0, GlobalsSet(x))
    ensures AfterItem(FRESH, Global(x), 0) == FRESH.(glob := WITH_MUT)
  {
    hide FirstFree, Alloc;
    Allocs();
    assert Lookup([FRESH.glob], "v") == None;
  }

  /** v = z in a function, v global. */
  lemma SetGlobal(ft: Funcs, f: CFrame, z: I64, n: nat)
    requires "v" !in f.locals
    ensures var frames, s := [WITH_MUT, f], Set("v", Num(z), false);
            && StmtCode(true, ft, frames, {0}, s, n, 0, 0) == [MovRI(1, z), LocalSet(1, 0, 1)]
            && FramesAfter(frames, s) == [WITH_MUT, f.(locals := f.locals["v" := Slot(false, 0)])]
            && !StmtErr(ft, frames, s) && HeldAfter({0}, s) == {0} && !Pends(s) && Clean(false, s)
  {
    hide FirstFree, Alloc;
    Allocs();
    var frames := [WITH_MUT, f];
    assert Front(frames) == [WITH_MUT];
    assert FindVar([WITH_MUT], "v") == Some(Loc(0, Slot(true, 0)));
    assert FindVar(frames, "v") == Some(Loc(1, Slot(true, 0)));
  }

  /** A function of two statements, the second a return. */
  lemma TwoFine(u: Scope, f: string, params: seq<string>, s: Stmt, e: Expr, n: nat, ft: Funcs, frames: Frames,
                a: seq<Op>, b: seq<Op>)
    requires u.fold && f !in u.ft && Distinct(params) && ft == Declare(u.ft, f, params, n + 1) && !s.Return?
    requires forall i :: 0 <= i < |params| ==> params[i] !in u.glob.locals
    requires StmtCode(true, ft, [u.glob, ParamFrame(params)], u.held, s, n + 1 + |params|, 0, 0) == a
    requires FramesAfter([u.glob, ParamFrame(params)], s) == frames && HeldAfter(u.held, s) == u.held
    requires !StmtErr(ft, [u.glob, ParamFrame(params)], s) && !Pends(s) && Clean(false, s)
    requires ExprCode(ft, frames, u.held, e, 0) == b && !ExprErr(ft, frames, e) && frames[0] == u.glob
    ensures FineItem(u, Def(f, params, Cons(s, Cons(Return(e), Nil))), n,
                     [FuncCreate] + (ParamCode(|params|) + (a + (b + [FRet]))) + [FuncEnd])
    ensures AfterItem(u, Def(f, params, Cons(s, Cons(Return(e), Nil))), n) == u.(ft := ft)
  {
    hide ExprCode, ExprErr, ParamCode, ParamFrame, Declare;
    var ret, tail: List<Stmt> := Return(e), Cons(Return(e), Nil);
    var body := Cons(s, tail);
    var i, m := FnAt(u, f, params, body, n), n + 1 + |params|;
    var m1 := m + StmtLen(true, s);
    assert ListCode(true, ft, frames, u.held, Nil, m1 + StmtLen(true, ret), 0, 0) == [];
    assert StmtCode(true, ft, frames, u.held, ret, m1, 0, 0) == b + [FRet];
    assert ListCode(true, ft, frames, u.held, tail, m1, 0, 0) == b + [FRet];
    assert FnBody(i) == a + (b + [FRet]);
    assert Last(FnBody(i)) == FRet;
    TwoMore(ft, FnFrames(i), u.held, s, ret, frames);
  }

  lemma TwoMore(ft: Funcs, frames0: Frames, h: Held, s: Stmt, ret: Stmt, frames: Frames)
    requires FramesAfter(frames0, s) == frames && HeldAfter(h, s) == h && !StmtErr(ft, frames0, s)
    requires ret.Return? && !StmtErr(ft, frames, ret) && !Pends(s) && Clean(false, s)
    ensures var body := Cons(s, Cons(ret, Nil));
            && FramesAfterList(frames0, body) == frames && HeldAfterList(h, body) == h && !ListErr(ft, frames0, body)
            && !ListPends(body) && ListClean(false, body)
  {
    hide ExprErr;
    var tail := Cons(ret, Nil);
    assert FramesAfter(frames, ret) == frames && HeldAfter(h, ret) == h && !Pends(ret) && Clean(false, ret);
    assert FramesAfterList(frames, Nil) == frames && HeldAfterList(h, Nil) == h;
    assert !ListErr(ft, frames, Nil) && !ListPends(Nil) && ListClean(false, Nil);
    hide FramesAfter, HeldAfter, StmtErr, Pends, Clean;
    assert FramesAfterList(frames, tail) == frames && HeldAfterList(h, tail) == h && !ListErr(ft, frames, tail);
    assert !ListPends(tail) && ListClean(false, tail);
  }

  // ----- a global variable reassigned and read -----

  /** mut v = x  func f(a) { v = z  return v }  r = f(y) */
  function Assigned(x: I64, y: I64, z: I64): List<Item> {
    Cons(Global(x), Cons(Def("f", ["a"], Cons(Set("v", Num(z), false), Cons(Return(Var("v")), Nil))),
      Cons(Do(Set("r", Call("f", Cons(Num(y), Nil)), false)), Nil)))
  }

  function AssignedF(z: I64): seq<Op> {
    [FuncCreate, LocalSet(0, 0, 254), MovRI(1, z), LocalSet(1, 0, 1), LocalGet(0, 0, 0), FRet, FuncEnd]
  }

  function AssignedCall(y: I64): seq<Op> {
    [MovRI(254, y), FCall(3, 1), LocalSet(0, 1, 0)]
  }

  function AssignedOps(x: I64, y: I64, z: I64): seq<Op> {
    GlobalsSet(x) + (AssignedF(z) + (AssignedCall(y) + [])) + [Halt]
  }

  lemma AssignedFine(u: Scope, z: I64)
    requires u == FRESH.(glob := WITH_MUT)
    ensures FineItem(u, Assigned(z, z, z).tail.head, 2, AssignedF(z))
    ensures AfterItem(u, Assigned(z, z, z).tail.head, 2) == u.(ft := map["f" := FEntry(1, 3)])
  {
    hide StmtCode, StmtErr, FramesAfter, HeldAfter, FineItem, AfterItem;
    var ft: Funcs, f := map["f" := FEntry(1, 3)], CFrame(map["a" := Slot(true, 0)], 1);
    FirstParam(u, "f", "a", 2);
    assert Declare(u.ft, "f", ["a"], 3) == ft;
    SetGlobal(ft, f, z, 4);
    var frames := [WITH_MUT, f.(locals := f.locals["v" := Slot(false, 0)])];
    assert FindVar(frames, "v") == Some(Loc(0, Slot(false, 0)));
    TwoStores();
    TwoFine(u, "f", ["a"], Set("v", Num(z), false), Var("v"), 2, ft, frames, [MovRI(1, z), LocalSet(1, 0, 1)],
            [LocalGet(0, 0, 0)]);
    assert [FuncCreate] + (ParamCode(1) + ([MovRI(1, z), LocalSet(1, 0, 1)] + ([LocalGet(0, 0, 0)] + [FRet])))
           + [FuncEnd] == AssignedF(z);
  }

  /** r = f(y), with v in the global frame. */
  lemma CallLine(u: Scope, f: string, y: I64, n: nat)
    requires u.fold && u.held == {0} && u.glob == WITH_MUT && f in u.ft && u.ft[f].arity == 1
    ensures FineItem(u, Do(Set("r", Call(f, Cons(Num(y), Nil)), false)), n,
                     [MovRI(254, y), FCall(u.ft[f].addr, 1), LocalSet(0, 1, 0)])
  {
    hide FirstFree;
    var ft, frames: Frames := u.ft, [u.glob];
    assert ArgsCode(ft, frames, {0}, Cons(Num(y), Nil), 0) == [MovRI(254, y)] + ArgsCode(ft, frames, {0}, Nil, 1);
    assert Lookup(frames, "r") == None;
    OneArgOk(ft, frames, f, Num(y));
  }

  lemma AssignedGenerated(x: I64, y: I64, z: I64)
    ensures !ItemsErr(FRESH, Assigned(x, y, z), 0) && Generated(Assigned(x, y, z)) == AssignedOps(x, y, z)
  {
    hide ItemsCode, FineItem, Examples.Fine, AfterItem, Generated, ItemsErr;
    var u0, items := FRESH, Assigned(x, y, z);
    var u1 := u0.(glob := WITH_MUT);
    var u2 := u1.(ft := map["f" := FEntry(1, 3)]);
    var u3 := AfterItem(u2, items.tail.tail.head, 9);
    GlobalFine(x);
    AssignedFine(u1, z);
    CallLine(u2, "f", y, 9);
    FineNil(u3, 12);
    FineCons(u2, items.tail.tail.head, Nil, 9, AssignedCall(y), u3, 12, []);
    FineCons(u1, items.tail.head, items.tail.tail, 2, AssignedF(z), u2, 9, AssignedCall(y) + []);
    FineCons(u0, items.head, items.tail, 0, GlobalsSet(x), u1, 2, AssignedF(z) + (AssignedCall(y) + []));
    FineProgram(items, GlobalsSet(x) + (AssignedF(z) + (AssignedCall(y) + [])));
  }

  lemma AssignedRun(x: I64, y: I64, z: I64) returns (t: State)
    ensures Reaches(AssignedOps(x, y, z), Start(), t) && Step(AssignedOps(x, y, z), t) == Halted
    ensures |t.frames| == 1 && t.frames[0].locals == Zeros(64)[0 := x][0 := z][1 := y]
  {
    hide Reaches;
    var p := AssignedOps(x, y, z);
    var s0 := Start();
    ReachRefl(p, s0);
    var s1 := Put(s0, 1, x);
    Going(p, s0, s0, s1);
    var s2 := WriteLocal(s1, 0, 0, x);
    Going(p, s0, s1, s2);
    SkipTo(p, s2, 8);
    var s3 := s2.(pc := 9);
    Going(p, s0, s2, s3);
    var s4 := Put(s3, 254, y);
    Going(p, s0, s3, s4);
    var s5 := AssignedInner(p, s4, y, z);
    ReachTrans(p, s0, s4, s5);
    t := WriteLocal(s5, 0, 1, y);
    Going(p, s0, s5, t);
  }

  /** The call of f. */
  lemma AssignedInner(p: seq<Op>, s: State, y: int, z: I64) returns (t: State)
    requires |p| > 7 && s.pc < |p| && p[s.pc] == FCall(3, 1) && s.regs[254] == y
    requires p[3] == LocalSet(0, 0, 254) && p[4] == MovRI(1, z) && p[5] == LocalSet(1, 0, 1)
    requires p[6] == LocalGet(0, 0, 0) && p[7] == FRet && s.frames != [] && Last(s.frames).locals != []
    ensures Reaches(p, s, t) && t == WriteLocal(s, 0, 0, z).(regs := s.regs[0 := y])
  {
    hide Reaches;
    ReachRefl(p, s);
    var a := Enter(s, 3, 1);
    Going(p, s, s, a);
    StoreSame(a, 0, 1);
    var b := a.(pc := 4);
    Going(p, s, a, b);
    var c := Put(b, 1, z);
    Going(p, s, b, c);
    var d := WriteLocal(c, 1, 0, z);
    Going(p, s, c, d);
    var e := Put(d, 0, y);
    Going(p, s, d, e);
    t := Leave(e);
    Going(p, s, e, t);
    assert t.regs == s.regs[0 := y] && t.frames == WriteLocal(s, 0, 0, z).frames;
  }

  /** The assignment reaches v, but the read behind it does not: the machine returns the argument y where the
      program says z. */
  lemma LostGlobal(x: I64, y: I64, z: I64) returns (t: State)
    ensures !ItemsErr(FRESH, Assigned(x, y, z), 0)
    ensures Reaches(Generated(Assigned(x, y, z)), Start(), t) && Step(Generated(Assigned(x, y, z)), t) == Halted
    ensures |t.frames| == 1 && t.frames[0].locals == Zeros(64)[0 := z][1 := y]
  {
    hide ItemsErr, Generated, Reaches, Step, AssignedOps;
    AssignedGenerated(x, y, z);
    t := AssignedRun(x, y, z);
    assert Zeros(64)[0 := x][0 := z] == Zeros(64)[0 := z];
  }

  // ----- a global variable reassigned further down -----

  /** mut v = x  func f() { v = z }  func g(a) { f() return a }  r = g(y) */
  function Far(x: I64, y: I64, z: I64): List<Item> {
    Cons(Global(x), Cons(Def("f", [], Cons(Set("v", Num(z), false), Nil)),
      Cons(Def("g", ["a"], Cons(ExprS(Call("f", Nil)), Cons(Return(Var("a")), Nil))),
        Cons(Do(Set("r", Call("g", Cons(Num(y), Nil)), false)), Nil))))
  }

  function FarF(z: I64): seq<Op> {
    [FuncCreate, MovRI(1, z), LocalSet(1, 0, 1), FRet, FuncEnd]
  }

  function FarG(): seq<Op> {
    [FuncCreate, LocalSet(0, 0, 254), FCall(3, 0), LocalGet(0, 0, 0), FRet, FuncEnd]
  }

  function FarCall(y: I64): seq<Op> {
    [MovRI(254, y), FCall(8, 1), LocalSet(0, 1, 0)]
  }

  function FarOps(x: I64, y: I64, z: I64): seq<Op> {
    GlobalsSet(x) + (FarF(z) + (FarG() + (FarCall(y) + []))) + [Halt]
  }

  lemma FarFine(u: Scope, z: I64)
    requires u == FRESH.(glob := WITH_MUT)
    ensures FineItem(u, Far(z, z, z).tail.head, 2, FarF(z))
    ensures AfterItem(u, Far(z, z, z).tail.head, 2) == u.(ft := map["f" := FEntry(0, 3)])
  {
    hide StmtCode, StmtErr, FramesAfter, HeldAfter;
    var ft: Funcs, f := map["f" := FEntry(0, 3)], CFrame(map[], 0);
    var s := Set("v", Num(z), false);
    var i, body := FnAt(u, "f", [], Cons(s, Nil), 2), Cons(s, Nil);
    TwoStores();
    SetGlobal(ft, f, z, 3);
    assert Declare(u.ft, "f", [], 3) == ft && ParamFrame([]) == f;
    var frames := FramesAfter([u.glob, f], s);
    assert ListCode(true, ft, frames, {0}, Nil, 3 + StmtLen(true, s), 0, 0) == [];
    assert FnBody(i) == [MovRI(1, z), LocalSet(1, 0, 1)];
    assert FramesAfterList(frames, Nil) == frames && HeldAfterList({0}, Nil) == {0};
    assert !ListErr(ft, frames, Nil) && !ListPends(Nil) && ListClean(false, Nil);
    assert !ListErr(ft, [u.glob, f], body) && !ListPends(body) && ListClean(false, body);
    assert DefCode(i) == FarF(z);
  }

  lemma FarSecond(u: Scope)
    requires u == FRESH.(glob := WITH_MUT, ft := map["f" := FEntry(0, 3)])
    ensures FineItem(u, Far(0, 0, 0).tail.tail.head, 7, FarG())
    ensures AfterItem(u, Far(0, 0, 0).tail.tail.head, 7) == u.(ft := u.ft["g" := FEntry(1, 8)])
  {
    hide FineItem, AfterItem, FirstFree;
    var ft, f, s := u.ft["g" := FEntry(1, 8)], CFrame(map["a" := Slot(true, 0)], 1), ExprS(Call("f", Nil));
    var frames: Frames := [WITH_MUT, f];
    FirstParam(u, "g", "a", 7);
    TwoStores();
    NoArgsOk(ft, frames, "f");
    assert ArgsCode(ft, frames, {0}, Nil, 0) == [];
    assert ExprCode(ft, frames, {0}, Call("f", Nil), 0) == [FCall(3, 0)];
    assert Hold({0}, 0) == {0};
    TwoFine(u, "g", ["a"], s, Var("a"), 7, ft, frames, [FCall(3, 0)], [LocalGet(0, 0, 0)]);
    assert [FuncCreate] + (ParamCode(1) + ([FCall(3, 0)] + ([LocalGet(0, 0, 0)] + [FRet]))) + [FuncEnd] == FarG();
  }

  lemma FarGenerated(x: I64, y: I64, z: I64)
    ensures !ItemsErr(FRESH, Far(x, y, z), 0) && Generated(Far(x, y, z)) == FarOps(x, y, z)
  {
    hide ItemsCode, FineItem, Examples.Fine, AfterItem, Generated, ItemsErr;
    var u0, items := FRESH, Far(x, y, z);
    var u1 := u0.(glob := WITH_MUT);
    var u2 := u1.(ft := map["f" := FEntry(0, 3)]);
    var u3 := u2.(ft := u2.ft["g" := FEntry(1, 8)]);
    var u4 := AfterItem(u3, items.tail.tail.tail.head, 13);
    GlobalFine(x);
    FarFine(u1, z);
    FarSecond(u2);
    CallLine(u3, "g", y, 13);
    FineNil(u4, 16);
    FineCons(u3, items.tail.tail.tail.head, Nil, 13, FarCall(y), u4, 16, []);
    FineCons(u2, items.tail.tail.head, items.tail.tail.tail, 7, FarG(), u3, 13, FarCall(y) + []);
    FineCons(u1, items.tail.head, items.tail.tail, 2, FarF(z), u2, 7, FarG() + (FarCall(y) + []));
    FineCons(u0, items.head, items.tail, 0, GlobalsSet(x), u1, 2, FarF(z) + (FarG() + (FarCall(y) + [])));
    FineProgram(items, GlobalsSet(x) + (FarF(z) + (FarG() + (FarCall(y) + []))));
  }

  lemma FarRun(x: I64, y: I64, z: I64) returns (t: State)
    ensures Reaches(FarOps(x, y, z), Start(), t) && Step(FarOps(x, y, z), t) == Halted
    ensures |t.frames| == 1 && t.frames[0].locals == Zeros(64)[0 := x][1 := z]
  {
    hide Reaches;
    var p := FarOps(x, y, z);
    var s0 := Start();
    ReachRefl(p, s0);
    var s1 := Put(s0, 1, x);
    Going(p, s0, s0, s1);
    var s2 := WriteLocal(s1, 0, 0, x);
    Going(p, s0, s1, s2);
    SkipTo(p, s2, 6);
    var s3 := s2.(pc := 7);
    Going(p, s0, s2, s3);
    SkipTo(p, s3, 12);
    var s4 := s3.(pc := 13);
    Going(p, s0, s3, s4);
    var s5 := Put(s4, 254, y);
    Going(p, s0, s4, s5);
    var s6 := FarInner(p, s5, z);
    ReachTrans(p, s0, s5, s6);
    t := WriteLocal(s6, 0, 1, z);
    Going(p, s0, s6, t);
  }

  /** The call of g. */
  lemma FarInner(p: seq<Op>, s: State, z: I64) returns (t: State)
    requires |p| > 11 && s.pc < |p| && p[s.pc] == FCall(8, 1)
    requires p[3] == MovRI(1, z) && p[4] == LocalSet(1, 0, 1) && p[5] == FRet
    requires p[8] == LocalSet(0, 0, 254) && p[9] == FCall(3, 0) && p[10] == LocalGet(0, 0, 0) && p[11] == FRet
    ensures Reaches(p, s, t) && t == s.(pc := s.pc + 1, regs := s.regs[0 := z])
  {
    hide Reaches;
    ReachRefl(p, s);
    var a := Enter(s, 8, 1);
    Going(p, s, s, a);
    StoreSame(a, 0, 1);
    var b := a.(pc := 9);
    Going(p, s, a, b);
    var c := FarStore(p, b, z);
    ReachTrans(p, s, b, c);
    var d := Put(c, 0, z);
    Going(p, s, c, d);
    t := Leave(d);
    Going(p, s, d, t);
    assert t.regs == s.regs[0 := z] && t.frames == s.frames;
  }

  /** The call of f: it writes slot 0 of its caller. */
  lemma FarStore(p: seq<Op>, s: State, z: I64) returns (t: State)
    requires |p| > 5 && s.pc < |p| && p[s.pc] == FCall(3, 0) && s.frames != [] && Last(s.frames).locals != []
    requires p[3] == MovRI(1, z) && p[4] == LocalSet(1, 0, 1) && p[5] == FRet
    ensures Reaches(p, s, t) && t == WriteLocal(s, 0, 0, z)
  {
    hide Reaches;
    ReachRefl(p, s);
    var a := Enter(s, 3, 0);
    Going(p, s, s, a);
    var b := Put(a, 1, z);
    Going(p, s, a, b);
    var c := WriteLocal(b, 1, 0, z);
    Going(p, s, b, c);
    t := Leave(c);
    Going(p, s, c, t);
    assert t.regs == s.regs && t.frames == WriteLocal(s, 0, 0, z).frames;
  }

  /** The assignment goes to the parameter of the function that calls: v keeps x where the program says z, and
      the result is z where it says y. */
  lemma StrayStore(x: I64, y: I64, z: I64) returns (t: State)
    ensures !ItemsErr(FRESH, Far(x, y, z), 0)
    ensures Reaches(Generated(Far(x, y, z)), Start(), t) && Step(Generated(Far(x, y, z)), t) == Halted
    ensures |t.frames| == 1 && t.frames[0].locals == Zeros(64)[0 := x][1 := z]
  {
    hide ItemsErr, Generated, Reaches, Step, FarOps;
    FarGenerated(x, y, z);
    t := FarRun(x, y, z);
  }

  // ----- a register that a call does not save -----

  /** 1  1  1  func f() { v = z  return 0 }  r = x + f() */
  function Unsaved(x: I64, z: I64): List<Item> {
    Cons(ONE, Cons(ONE, Cons(ONE, Cons(Def("f", [], Cons(Set("v", Num(z), false), Cons(Return(Num(0)), Nil))),
      Cons(Do(Set("r", Bin(Add, Num(x), Call("f", Nil)), false)), Nil)))))
  }

  const ONE: Item := Do(ExprS(Num(1)))

  function UnsavedF(z: I64): seq<Op> {
    [FuncCreate, MovRI(4, z), LocalSet(0, 0, 4), MovRI(0, 0), FRet, FuncEnd]
  }

  function UnsavedSum(x: I64): seq<Op> {
    [MovRI(4, x), FCall(4, 0), MovRR(5, 0), Alu(Add, 6, 4, 5), LocalSet(0, 0, 6)]
  }

  function UnsavedOps(x: I64, z: I64): seq<Op> {
    [MovRI(1, 1)] + ([MovRI(2, 1)] + ([MovRI(3, 1)] + (UnsavedF(z) + (UnsavedSum(x) + [])))) + [Halt]
  }

  /** An expression statement keeps its register. */
  lemma OneFine(u: Scope, n: nat, r: nat)
    requires u.fold && r == Alloc(u.held) < NO_REG
    ensures FineItem(u, ONE, n, [MovRI(r, 1)]) && AfterItem(u, ONE, n) == u.(held := u.held + {r})
  {
    hide FirstFree, Alloc;
  }

  lemma UnsavedFine(u: Scope, z: I64)
    requires u == FRESH.(held := {0, 1, 2, 3})
    ensures FineItem(u, Unsaved(z, z).tail.tail.tail.head, 3, UnsavedF(z))
    ensures AfterItem(u, Unsaved(z, z).tail.tail.tail.head, 3) == u.(ft := map["f" := FEntry(0, 4)])
  {
    hide FineItem, AfterItem, FirstFree, Alloc;
    Allocs();
    TwoStores();
    var ft: Funcs, f, s := map["f" := FEntry(0, 4)], CFrame(map[], 0), Set("v", Num(z), false);
    var frames: Frames := [u.glob, f];
    assert Declare(u.ft, "f", [], 4) == ft && ParamFrame([]) == f;
    assert FindVar(frames, "v") == None by {
      assert Front(frames) == [u.glob] && Front([u.glob]) == [];
    }
    var frames1 := FramesAfter(frames, s);
    assert frames1 == TopFrame(frames, NewVar(f, "v", false));
    TwoFine(u, "f", [], s, Num(0), 3, ft, frames1, [MovRI(4, z), LocalSet(0, 0, 4)], [MovRI(0, 0)]);
    assert [FuncCreate] + (ParamCode(0) + ([MovRI(4, z), LocalSet(0, 0, 4)] + ([MovRI(0, 0)] + [FRet]))) + [FuncEnd]
           == UnsavedF(z);
  }

  lemma UnsavedLine(u: Scope, x: I64)
    requires u == FRESH.(held := {0, 1, 2, 3}, ft := map["f" := FEntry(0, 4)])
    ensures FineItem(u, Unsaved(x, x).tail.tail.tail.tail.head, 9, UnsavedSum(x))
  {
    hide FirstFree, Alloc;
    Allocs();
    FreeAt({0, 1, 2, 3, 4}, 5);
    FreeAt({0, 1, 2, 3, 4, 5}, 6);
    var ft, frames: Frames, h, call := u.ft, [u.glob], u.held, Call("f", Nil);
    NoArgsOk(ft, frames, "f");
    assert ArgsCode(ft, frames, Left(h), Nil, 0) == [];
    assert Left(h) == {0, 1, 2, 3, 4} && Hold(Left(h), 0) == Left(h) && Right(h, call) == 5;
    assert Hold(Left(h), 5) == {0, 1, 2, 3, 4, 5} && Res(h, Bin(Add, Num(x), call)) == 6;
    assert ExprCode(ft, frames, Left(h), call, 5) == [FCall(4, 0), MovRR(5, 0)];
    assert ExprCode(ft, frames, h, Bin(Add, Num(x), call), 6)
           == [MovRI(4, x), FCall(4, 0), MovRR(5, 0), Alu(Add, 6, 4, 5)];
    assert FindVar(frames, "r") == None by {
      assert Front(frames) == [];
    }
    var e := Bin(Add, Num(x), call);
    assert !ExprErr(ft, frames, e);
    assert ValueCode(true, ft, frames, h, e) == ExprCode(ft, frames, h, e, 6);
    assert StmtCode(true, ft, frames, h, Set("r", e, false), 9, 0, 0) == UnsavedSum(x);
  }

  lemma UnsavedGenerated(x: I64, z: I64)
    ensures !ItemsErr(FRESH, Unsaved(x, z), 0) && Generated(Unsaved(x, z)) == UnsavedOps(x, z)
  {
    hide ItemsCode, FineItem, Examples.Fine, AfterItem, Generated, ItemsErr, Alloc, FirstFree;
    var u0, items := FRESH, Unsaved(x, z);
    var u1, u2, u3 := u0.(held := {0, 1}), u0.(held := {0, 1, 2}), u0.(held := {0, 1, 2, 3});
    var u4 := u3.(ft := map["f" := FEntry(0, 4)]);
    var rest := items.tail.tail.tail;
    var u5 := AfterItem(u4, rest.tail.head, 9);
    Allocs();
    OneFine(u0, 0, 1);
    OneFine(u1, 1, 2);
    OneFine(u2, 2, 3);
    UnsavedFine(u3, z);
    UnsavedLine(u4, x);
    FineNil(u5, 14);
    FineCons(u4, rest.tail.head, Nil, 9, UnsavedSum(x), u5, 14, []);
    FineCons(u3, rest.head, rest.tail, 3, UnsavedF(z), u4, 9, UnsavedSum(x) + []);
    var code := UnsavedF(z) + (UnsavedSum(x) + []);
    FineCons(u2, ONE, rest, 2, [MovRI(3, 1)], u3, 3, code);
    FineCons(u1, ONE, items.tail.tail, 1, [MovRI(2, 1)], u2, 2, [MovRI(3, 1)] + code);
    FineCons(u0, ONE, items.tail, 0, [MovRI(1, 1)], u1, 1, [MovRI(2, 1)] + ([MovRI(3, 1)] + code));
    FineProgram(items, [MovRI(1, 1)] + ([MovRI(2, 1)] + ([MovRI(3, 1)] + code)));
  }

  lemma UnsavedRun(x: I64, z: I64) returns (t: State)
    ensures Reaches(UnsavedOps(x, z), Start(), t) && Step(UnsavedOps(x, z), t) == Halted
    ensures |t.frames| == 1 && t.frames[0].locals == Zeros(64)[0 := z]
  {
    hide Reaches;
    var p := UnsavedOps(x, z);
    var s0 := Start();
    ReachRefl(p, s0);
    var s1 := Put(s0, 1, 1);
    Going(p, s0, s0, s1);
    var s2 := Put(s1, 2, 1);
    Going(p, s0, s1, s2);
    var s3 := Put(s2, 3, 1);
    Going(p, s0, s2, s3);
    SkipTo(p, s3, 8);
    var s4 := s3.(pc := 9);
    Going(p, s0, s3, s4);
    var s5 := Put(s4, 4, x);
    Going(p, s0, s4, s5);
    var s6 := UnsavedInner(p, s5, z);
    ReachTrans(p, s0, s5, s6);
    var s7 := Put(s6, 5, 0);
    Going(p, s0, s6, s7);
    var s8 := Put(s7, 6, z);
    Going(p, s0, s7, s8);
    t := WriteLocal(s8, 0, 0, z);
    Going(p, s0, s8, t);
  }

  /** The call of f: register 4 is not put back. */
  lemma UnsavedInner(p: seq<Op>, s: State, z: I64) returns (t: State)
    requires |p| > 7 && s.pc < |p| && p[s.pc] == FCall(4, 0)
    requires p[4] == MovRI(4, z) && p[5] == LocalSet(0, 0, 4) && p[6] == MovRI(0, 0) && p[7] == FRet
    ensures Reaches(p, s, t) && t == s.(pc := s.pc + 1, regs := s.regs[4 := z][0 := 0])
  {
    hide Reaches;
    ReachRefl(p, s);
    var a := Enter(s, 4, 0);
    Going(p, s, s, a);
    var b := Put(a, 4, z);
    Going(p, s, a, b);
    var c := WriteLocal(b, 0, 0, z);
    Going(p, s, b, c);
    var d := Put(c, 0, 0);
    Going(p, s, c, d);
    t := Leave(d);
    Going(p, s, d, t);
    assert t.regs == s.regs[4 := z][0 := 0] && t.frames == s.frames;
  }

  lemma UnsavedMeans(x: I64, z: I64)
    ensures ExecItems(DefsOf(Unsaved(x, z)), 1, map[], Unsaved(x, z)) == Some(map["r" := Binding(false, I(x))])
  {
    hide Bind, ExecItems, DefsOf;
    var items, defs := Unsaved(x, z), DefsOf(Unsaved(x, z));
    var rest := items.tail.tail.tail;
    OnesMean(defs, items.tail.tail);
    OnesMean(defs, items.tail);
    OnesMean(defs, items);
    var body := rest.head.body;
    SkipDefs(defs, 1, map[], "f", [], body, rest.tail);
    OnesDefs(items);
    OnesDefs(items.tail);
    OnesDefs(items.tail.tail);
    BindParams("", "", I(x), I(x));
    NoArgs(defs, 1, map[]);
    var env: Env := map["v" := Binding(false, I(z))];
    assert Exec(defs, 0, map[], body.head) == Some(Normal(env));
    assert Exec(defs, 0, env, body.tail.head) == Some(Returned(I(0)));
    assert ExecList(defs, 0, env, body.tail) == Some(Returned(I(0)));
    assert ExecList(defs, 0, map[], body) == Some(Returned(I(0)));
    assert Eval(defs, 1, map[], Call("f", Nil)) == Some(I(0));
    assert Eval(defs, 1, map[], Bin(Add, Num(x), Call("f", Nil))) == Some(I(x));
    SetOnly(defs, 1, "r", Bin(Add, Num(x), Call("f", Nil)), I(x));
  }

  lemma OnesMean(defs: Defs, items: List<Item>)
    requires items.Cons? && items.head == ONE
    ensures ExecItems(defs, 1, map[], items) == ExecItems(defs, 1, map[], items.tail)
  {
  }

  lemma OnesDefs(items: List<Item>)
    requires items.Cons? && items.head == ONE
    ensures DefsOf(items) == DefsOf(items.tail)
  {
  }

  /** The left operand waits in register 4 while f uses it: the machine computes z where the program says x. */
  lemma LostOperand(x: I64, z: I64) returns (t: State)
    ensures !ItemsErr(FRESH, Unsaved(x, z), 0)
    ensures Reaches(Generated(Unsaved(x, z)), Start(), t) && Step(Generated(Unsaved(x, z)), t) == Halted
    ensures |t.frames| == 1 && t.frames[0].locals == Zeros(64)[0 := z]
    ensures ExecItems(DefsOf(Unsaved(x, z)), 1, map[], Unsaved(x, z)) == Some(map["r" := Binding(false, I(x))])
  {
    hide ItemsErr, Generated, Reaches, Step, ExecItems, DefsOf, UnsavedOps;
    UnsavedGenerated(x, z);
    UnsavedMeans(x, z);
    t := UnsavedRun(x, z);
  }
}
