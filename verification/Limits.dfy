/** Where compiled code stops meaning what the source says: for each limit of the code generator or
    the machine, an input that crosses it and the exact condition for staying inside. */
module Limits {
  import opened Words
  import opened Machine
  import opened Source
  import opened Reference
  import opened Simulation
  import opened Safety
  import opened Passing
  import opened Programs
  import opened CallReturn
  import opened Slots

  // ----- registers across a call -----

  /** Register `r` survives every call of every program. */
  ghost predicate Survives(r: nat)
    requires r < REG_COUNT
  {
    forall p: seq<Op>, c: State, k: nat :: c.pc < |p| && p[c.pc].FCall? && ReturnsAfter(p, c, k)
        ==> At(p, c, k).regs[r] == c.regs[r]
  }

  /** A call keeps exactly the registers 1, 2 and 3. */
  lemma SurvivesIff(r: nat)
    requires r < REG_COUNT
    ensures Survives(r) <==> r in SAVED_REGS
  {
    hide Back;
    if r in SAVED_REGS {
      forall p: seq<Op>, c: State, k: nat | c.pc < |p| && p[c.pc].FCall? && ReturnsAfter(p, c, k)
        ensures At(p, c, k).regs[r] == c.regs[r]
      {
        CallReturns(p, c, k);
        BackRegs(c, At(p, c, k), r);
      }
    } else {
      var p, c, k := Clobber(r);
      assert !(At(p, c, k).regs[r] == c.regs[r]);
    }
  }

  lemma BackRegs(c: State, t: State, r: nat)
    requires Back(c, t) && r in SAVED_REGS
    ensures t.regs[r] == c.regs[r]
  {
    assert SaveRegs(t.regs) == SaveRegs(c.regs);
  }

  /** A function that writes the register and returns. */
  lemma Clobber(r: nat) returns (p: seq<Op>, c: State, k: nat)
    requires r < REG_COUNT && r !in SAVED_REGS
    ensures c.pc < |p| && p[c.pc].FCall? && ReturnsAfter(p, c, k) && At(p, c, k).regs[r] != c.regs[r]
  {
    p, k := [FCall(2, 0), Halt, MovRI(r, 1), FRet], 3;
    c := Start();
    var c1 := Enter(c, 2, 0);
    var c2 := Put(c1, r, 1);
    var c3 := Leave(c2);
    assert Step(p, c) == Next(c1);
    assert Step(p, c1) == Next(c2);
    assert Step(p, c2) == Next(c3);
    assert Steps(p, c2, 1) == Steps(p, c3, 0) == Some(c3);
    assert Steps(p, c1, 2) == Steps(p, c2, 1);
    assert Steps(p, c, 3) == Steps(p, c1, 2);
    assert Steps(p, c1, 1) == Steps(p, c2, 0) == Some(c2);
    assert Steps(p, c, 2) == Steps(p, c1, 1);
    assert Steps(p, c, 1) == Steps(p, c1, 0) == Some(c1);
    assert c3.regs[r] == 1;
  }

  // ----- reassignment -----

  /** What a reassignment in a function leaves in the frame it looks into by mistake. */
  const PHANTOM: Slot := Slot(false, 0)

  /** The frames while a function is compiled: the global one and its own, with `n` slots to spare. A
      name in both is a phantom in one of them. */
  ghost predicate Tidy(g: CFrame, f: CFrame, n: nat) {
    && f.used + n < NO_SLOT
    && (forall x :: x in g.locals ==> g.locals[x].idx < NO_SLOT)
    && (forall x :: x in f.locals ==> f.locals[x].idx < NO_SLOT)
    && (forall x :: x in g.locals && x in f.locals ==> g.locals[x] == PHANTOM || f.locals[x] == PHANTOM)
  }

  /** `g` with phantoms added. */
  ghost predicate Haunted(g: CFrame, g1: CFrame) {
    && (forall x :: x in g.locals ==> x in g1.locals && g1.locals[x] == g.locals[x])
    && (forall x :: x in g1.locals && x !in g.locals ==> g1.locals[x] == PHANTOM)
  }

  /** In a function, an assignment to a variable that may be assigned to goes to slot 0, whichever slot the
      variable has: of the function's own frame for its own variables, of the caller's for global ones. */
  lemma ReassignInFunction(g: CFrame, f: CFrame, x: string)
    requires Tidy(g, f, 0) && Lookup([g, f], x).Some? && Lookup([g, f], x).value.slot.mut
    ensures SetSlot([g, f], x) == 0 && SetDepth([g, f], x) == if x in f.locals then 0 else 1
    ensures Lookup([g, f], x).value == if x in f.locals then Loc(0, f.locals[x]) else Loc(1, g.locals[x])
  {
    var l := FindVar([g, f], x).value;
    assert Front([g, f]) == [g];
    assert l.depth < 2;
  }

  /** The frame that a variable belongs to while the function runs, `n` frames on the stack: its own is the
      innermost, the global one the outermost. */
  function HomeFrame(f: CFrame, x: string, n: nat): nat
    requires n > 0
  {
    if x in f.locals then n - 1 else 0
  }

  /** `n` frames with room for slot `slot` in all of them. */
  ghost predicate Roomy(s: State, n: nat, slot: nat) {
    |s.frames| == n && forall i :: 0 <= i < n ==> slot < |s.frames[i].locals|
  }

  function WriteAt(s: State, i: nat, slot: nat, w: int): State
    requires i < |s.frames| && slot < |s.frames[i].locals|
  {
    s.(frames := s.frames[i := s.frames[i].(locals := s.frames[i].locals[slot := w])], pc := s.pc + 1)
  }

  /** In every state with `n` frames the store of an assignment to `x` writes the word of `x`. */
  ghost predicate StoresHome(g: CFrame, f: CFrame, x: string, r: nat, n: nat)
    requires Lookup([g, f], x).Some? && r < REG_COUNT && n > 0
  {
    var idx := Lookup([g, f], x).value.slot.idx;
    forall p: seq<Op>, s: State :: Roomy(s, n, idx) && s.pc < |p|
        && p[s.pc] == LocalSet(SetDepth([g, f], x), SetSlot([g, f], x), r)
        ==> Step(p, s) == Next(WriteAt(s, HomeFrame(f, x, n), idx, s.regs[r]))
  }

  /** It does exactly if `x` has slot 0 and is the function's own, or global with the function called from
      the top level. */
  lemma StoresHomeIff(g: CFrame, f: CFrame, x: string, r: nat, n: nat)
    requires Tidy(g, f, 0) && Lookup([g, f], x).Some? && Lookup([g, f], x).value.slot.mut && r < REG_COUNT && n >= 2
    ensures StoresHome(g, f, x, r, n) <==> Lookup([g, f], x).value.slot.idx == 0 && (x in f.locals || n == 2)
  {
    ReassignInFunction(g, f, x);
    var idx, depth := Lookup([g, f], x).value.slot.idx, SetDepth([g, f], x);
    if !(idx == 0 && (x in f.locals || n == 2)) {
      var p, s := [LocalSet(depth, 0, r)], OneIn(r, n, idx);
      assert Step(p, s) == Next(WriteAt(s, n - 1 - depth, 0, 1));
      WriteElsewhere(s, n - 1 - depth, 0, HomeFrame(f, x, n), idx);
      assert Roomy(s, n, idx);
    }
  }

  /** Zeros everywhere but in register `r`. */
  function OneIn(r: nat, n: nat, slot: nat): (s: State)
    requires r < REG_COUNT
    ensures Roomy(s, n, slot) && s.pc == 0 && s.regs[r] == 1
    ensures forall i, j :: 0 <= i < n && 0 <= j <= slot ==> s.frames[i].locals[j] == 0
  {
    var regs: Regs := seq(255, i => 0);
    State(0, regs[r := 1], seq(n, i => Frame(Zeros(slot + 1), Saved(0, 0, 0))), [])
  }

  lemma WriteElsewhere(s: State, i: nat, a: nat, j: nat, b: nat)
    requires i < |s.frames| && a < |s.frames[i].locals| && j < |s.frames| && b < |s.frames[j].locals|
    requires (i != j || a != b) && s.frames[j].locals[b] == 0
    ensures WriteAt(s, i, a, 1) != WriteAt(s, j, b, 1)
  {
    assert WriteAt(s, i, a, 1).frames[j].locals[b] == 0;
    assert WriteAt(s, j, b, 1).frames[j].locals[b] == 1;
  }

  /** In every state with `n` frames a reference to `x` reads the word of `x`. */
  ghost predicate ReadsHome(frames: Frames, f: CFrame, x: string, idx: nat, d: nat, n: nat)
    requires d < REG_COUNT && n > 0
  {
    forall p: seq<Op>, s: State :: Roomy(s, n, idx) && s.pc < |p| && p[s.pc] == GetCode(frames, x, d)
        ==> Step(p, s) == Next(Put(s, d, s.frames[HomeFrame(f, x, n)].locals[idx]))
  }

  /** After the assignment it does exactly if `x` is the function's own. */
  lemma ReadsHomeIff(g: CFrame, f: CFrame, x: string, e: Expr, mut: bool, d: nat, n: nat)
    requires Tidy(g, f, 0) && Lookup([g, f], x).Some? && Lookup([g, f], x).value.slot.mut && d < REG_COUNT && n >= 2
    ensures ReadsHome(FramesAfter([g, f], Set(x, e, mut)), f, x, Lookup([g, f], x).value.slot.idx, d, n)
            <==> x in f.locals
  {
    ReassignInFunction(g, f, x);
    var idx, frames := Lookup([g, f], x).value.slot.idx, FramesAfter([g, f], Set(x, e, mut));
    if x in f.locals {
      OwnStays(g, f, x, e, mut, d);
    } else {
      hide FramesAfter, Tidy, FindVar;
      PhantomLocal(g, f, x, e, mut, d);
      var one := Frame(seq(idx + 1, i => 1), Saved(0, 0, 0));
      var z := OneIn(0, n, idx);
      var p, s := [GetCode(frames, x, d)], z.(frames := z.frames[n - 1 := one]);
      assert s.frames[0].locals[idx] == 0;
      assert Step(p, s) == Next(Put(s, d, 1));
      assert Put(s, d, 1).regs[d] == 1 && Put(s, d, 0).regs[d] == 0;
      assert Roomy(s, n, idx);
    }
  }

  lemma OwnStays(g: CFrame, f: CFrame, x: string, e: Expr, mut: bool, d: nat)
    requires Tidy(g, f, 0) && x in f.locals && f.locals[x].mut
    ensures GetCode(FramesAfter([g, f], Set(x, e, mut)), x, d) == LocalGet(d, 0, f.locals[x].idx)
  {
    assert FindVar([g, f], x) == Some(Loc(0, f.locals[x]));
    var frames := FramesAfter([g, f], Set(x, e, mut));
    assert Last(frames) == f;
    assert FindVar(frames, x) == Some(Loc(0, f.locals[x]));
  }

  /** Reassigning a global variable in a function leaves a variable of the function of that name behind,
      which does not exist: from then on the name is read from slot 0 of the function's own frame, and
      assigning to it again is an error. */
  lemma PhantomLocal(g: CFrame, f: CFrame, x: string, e: Expr, mut: bool, d: nat)
    requires x in g.locals && x !in f.locals && g.locals[x].mut && g.locals[x].idx != NO_SLOT
    ensures var frames := FramesAfter([g, f], Set(x, e, mut));
            && frames == [g, f.(locals := f.locals[x := PHANTOM])]
            && SetErr(frames, x) && GetCode(frames, x, d) == LocalGet(d, 0, 0)
  {
    assert Front([g, f]) == [g] && Front([g]) == [];
    assert FindVar([g], x) == Some(Loc(0, g.locals[x]));
    assert FindVar([g, f], x) == Some(Loc(1, g.locals[x]));
    var frames := SetFrames([g, f], x, mut);
    assert frames == [g, f.(locals := f.locals[x := PHANTOM])];
    assert FindVar(frames, x) == Some(Loc(0, PHANTOM));
  }

  /** Compiled, the end of a function: `x = e  return x`. From every state at the store it gives back the word
      stored. */
  ghost predicate GivesBack(p: seq<Op>, at: nat, r: nat, n: nat, slot: nat)
    requires r < REG_COUNT
  {
    forall s: State :: s.pc == at && Roomy(s, n, slot) ==>
      Steps(p, s, 2).Some? && Steps(p, s, 2).value.regs[0] == s.regs[r]
  }

  /** It does exactly if `x` is the function's own and has slot 0. */
  lemma GivesBackIff(p: seq<Op>, ft: Funcs, g: CFrame, f: CFrame, h: Held, x: string, e: Expr, mut: bool, at: nat,
                     n: nat)
    requires Tidy(g, f, 0) && Lookup([g, f], x).Some? && Lookup([g, f], x).value.slot.mut && n >= 2
    requires Res(h, e) < REG_COUNT
    requires CodeAt(p, at, ListCode(true, ft, [g, f], h, Cons(Set(x, e, mut), Cons(Return(Var(x)), Nil)), at, 0, 0))
    ensures var slot := Lookup([g, f], x).value.slot.idx;
            GivesBack(p, at + ValueLen(true, e), Res(h, e), n, slot) <==> x in f.locals && slot == 0
  {
    hide CodeAt, ValueCode, SetFrames, SetErr, FindVar, ListCode, Tidy, ValueLen, Res;
    var r, store, slot := Res(h, e), at + ValueLen(true, e), Lookup([g, f], x).value.slot.idx;
    ReassignInFunction(g, f, x);
    var depth := SetDepth([g, f], x);
    BackCode(p, ft, g, f, h, x, e, mut, at);
    var readSlot := if x in f.locals then slot else 0;
    forall s: State | s.pc == store && Roomy(s, n, slot)
      ensures Steps(p, s, 2).Some? && Steps(p, s, 2).value.regs[0]
                  == if depth == 0 && readSlot == 0 then s.regs[r] else s.frames[n - 1].locals[readSlot]
    {
      BackSteps(p, s, depth, r, readSlot, n);
    }
    if !(x in f.locals && slot == 0) {
      var s := OneIn(r, n, slot).(pc := store);
      assert Roomy(s, n, slot) && s.frames[n - 1].locals[readSlot] == 0;
    }
  }

  lemma BackCode(p: seq<Op>, ft: Funcs, g: CFrame, f: CFrame, h: Held, x: string, e: Expr, mut: bool, at: nat)
    requires Tidy(g, f, 0) && Lookup([g, f], x).Some? && Lookup([g, f], x).value.slot.mut
    requires CodeAt(p, at, ListCode(true, ft, [g, f], h, Cons(Set(x, e, mut), Cons(Return(Var(x)), Nil)), at, 0, 0))
    ensures var store := at + ValueLen(true, e);
            && store + 1 < |p| && p[store] == LocalSet(SetDepth([g, f], x), SetSlot([g, f], x), Res(h, e))
            && p[store + 1] == LocalGet(0, 0, if x in f.locals then Lookup([g, f], x).value.slot.idx else 0)
  {
    hide ValueCode, SetSlot, SetDepth, FindVar, ValueLen, Res, CodeAt, FramesAfter, Lookup, GetCode;
    var s, rest: List<Stmt> := Set(x, e, mut), Cons(Return(Var(x)), Nil);
    var frames, m := FramesAfter([g, f], s), at + StmtLen(true, s);
    var put := LocalSet(SetDepth([g, f], x), SetSlot([g, f], x), Res(h, e));
    var value := ValueCode(true, ft, [g, f], h, e);
    ReturnVar(ft, frames, h, x, m);
    assert ListCode(true, ft, [g, f], h, Cons(s, rest), at, 0, 0)
           == value + [put] + ([GetCode(frames, x, 0)] + [FRet] + []);
    hide StmtCode, ListCode;
    CodeAtSplit(p, at, value + [put], [GetCode(frames, x, 0)] + [FRet] + []);
    CodeAtSplit(p, at, value, [put]);
    CodeAtOp(p, at + |value|, [put], 0);
    CodeAtOp(p, at + |value| + 1, [GetCode(frames, x, 0)] + [FRet] + [], 0);
    ReassignInFunction(g, f, x);
    if x in f.locals {
      OwnStays(g, f, x, e, mut, 0);
    } else {
      PhantomLocal(g, f, x, e, mut, 0);
    }
  }

  lemma ReturnVar(ft: Funcs, frames: Frames, h: Held, x: string, n: nat)
    ensures ListCode(true, ft, frames, h, Cons(Return(Var(x)), Nil), n, 0, 0) == [GetCode(frames, x, 0)] + [FRet] + []
  {
    var s: Stmt := Return(Var(x));
    assert ListCode(true, ft, FramesAfter(frames, s), h, Nil, n + StmtLen(true, s), 0, 0) == [];
  }

  lemma BackSteps(p: seq<Op>, s: State, depth: nat, r: nat, slot: nat, n: nat)
    requires depth < 2 <= n && r < REG_COUNT && s.pc + 1 < |p| && p[s.pc] == LocalSet(depth, 0, r)
    requires p[s.pc + 1] == LocalGet(0, 0, slot) && Roomy(s, n, slot)
    ensures Steps(p, s, 2).Some?
    ensures Steps(p, s, 2).value.regs[0] == if depth == 0 && slot == 0 then s.regs[r] else s.frames[n - 1].locals[slot]
  {
    hide Step;
    var u := SetStep(p, s, depth, r, n);
    var w := GetStep(p, u, slot, n);
    assert u.frames[n - 1].locals[slot]
           == if depth == 0 && slot == 0 then s.regs[r] else s.frames[n - 1].locals[slot];
    assert Steps(p, w, 0) == Some(w);
    assert Steps(p, u, 1) == Some(w);
  }

  lemma SetStep(p: seq<Op>, s: State, depth: nat, r: nat, n: nat) returns (u: State)
    requires depth < n == |s.frames| && r < REG_COUNT && s.pc < |p| && p[s.pc] == LocalSet(depth, 0, r)
    requires |s.frames[n - 1 - depth].locals| > 0
    ensures Step(p, s) == Next(u) && u == WriteAt(s, n - 1 - depth, 0, s.regs[r])
  {
    u := Step(p, s).state;
  }

  lemma GetStep(p: seq<Op>, s: State, slot: nat, n: nat) returns (u: State)
    requires 0 < n == |s.frames| && s.pc < |p| && p[s.pc] == LocalGet(0, 0, slot) && slot < |s.frames[n - 1].locals|
    ensures Step(p, s) == Next(u) && u == Put(s, 0, s.frames[n - 1].locals[slot])
  {
    u := Step(p, s).state;
  }

  /** Reassigning a variable of the function leaves a global variable of that name behind, which does not
      exist: it reads as slot 0 of the global frame, and assigning to it is an error. */
  lemma PhantomGlobal(g: CFrame, f: CFrame, x: string, e: Expr, mut: bool)
    requires x in f.locals && f.locals[x].mut && f.locals[x].idx != NO_SLOT && x !in g.locals
    ensures var g1 := FramesAfter([g, f], Set(x, e, mut))[0];
            Lookup([g1], x) == Some(Loc(0, PHANTOM)) && SetErr([g1], x) && GetCode([g1], x, 0) == LocalGet(0, 0, 0)
  {
    assert FindVar([g, f], x) == Some(Loc(0, f.locals[x]));
    var frames := SetFrames([g, f], x, mut);
    assert frames[0].locals[x] == PHANTOM;
    assert FindVar([frames[0]], x) == Some(Loc(0, PHANTOM));
  }

  /** Every reassignment in the statement goes to slot 0. */
  predicate AllToZero(frames: Frames, s: Stmt)
    decreases s, 0
  {
    match s
    case Set(x, _, _) => Lookup(frames, x).Some? && Lookup(frames, x).value.slot.mut ==> SetSlot(frames, x) == 0
    case Block(body) => ListToZero(frames, body)
    case If(_, thn, els) => ListToZero(frames, thn) && ListToZero(FramesAfterBlock(frames, thn), els)
    case Loop(_, body) => ListToZero(frames, body)
    case _ => true
  }

  predicate ListToZero(frames: Frames, body: List<Stmt>)
    decreases body, 0
  {
    match body
    case Nil => true
    case Cons(s, rest) => AllToZero(frames, s) && ListToZero(FramesAfter(frames, s), rest)
  }

  lemma SetTidy(g: CFrame, f: CFrame, x: string, e: Expr, mut: bool, n: nat) returns (g1: CFrame, f1: CFrame)
    requires Tidy(g, f, n + 1)
    ensures FramesAfter([g, f], Set(x, e, mut)) == [g1, f1] && Tidy(g1, f1, n) && Haunted(g, g1)
    ensures AllToZero([g, f], Set(x, e, mut))
  {
    var l := FindVar([g, f], x);
    assert Front([g, f]) == [g];
    var frames := FramesAfter([g, f], Set(x, e, mut));
    g1, f1 := frames[0], frames[1];
    if l.Some? && l.value.slot.mut {
      ReassignInFunction(g, f, x);
      assert l.value.depth < 2;
    } else if l.None? {
      assert frames == TopFrame([g, f], NewVar(f, x, mut));
    }
  }

  lemma TidyLess(g: CFrame, f: CFrame, n: nat, k: nat)
    requires Tidy(g, f, n) && k <= n
    ensures Tidy(g, f, k) && Haunted(g, g)
  {
  }

  lemma HauntedTrans(g: CFrame, g1: CFrame, g2: CFrame)
    requires Haunted(g, g1) && Haunted(g1, g2)
    ensures Haunted(g, g2)
  {
  }

  /** It stays that way: every statement of a function leaves the frames tidy, and all its reassignments
      go to slot 0. */
  lemma {:induction false} StmtTidy(g: CFrame, f: CFrame, s: Stmt, n: nat) returns (g1: CFrame, f1: CFrame)
    requires Tidy(g, f, Decls(s) + n)
    ensures FramesAfter([g, f], s) == [g1, f1] && Tidy(g1, f1, n) && Haunted(g, g1) && AllToZero([g, f], s)
    decreases s, 0
  {
    hide Tidy, Haunted, SetFrames, SetErr, SetSlot, Lookup;
    match s
    case Set(x, e, mut) => g1, f1 := SetTidy(g, f, x, e, mut, n);
    case Block(body) => g1, f1 := BlockTidy(g, f, body, n);
    case If(_, thn, els) =>
      var g0, f0 := BlockTidy(g, f, thn, ListDecls(els) + n);
      g1, f1 := BlockTidy(g0, f0, els, n);
      HauntedTrans(g, g0, g1);
    case Loop(_, body) => g1, f1 := BlockTidy(g, f, body, n);
    case _ =>
      g1, f1 := g, f;
      TidyLess(g, f, n, n);
  }

  lemma {:induction false} ListTidy(g: CFrame, f: CFrame, body: List<Stmt>, n: nat) returns (g1: CFrame, f1: CFrame)
    requires Tidy(g, f, ListDecls(body) + n)
    ensures FramesAfterList([g, f], body) == [g1, f1] && Tidy(g1, f1, n) && Haunted(g, g1) && ListToZero([g, f], body)
    decreases body, 0
  {
    hide Tidy, Haunted, FramesAfter, AllToZero;
    match body
    case Nil =>
      g1, f1 := g, f;
      TidyLess(g, f, n, n);
    case Cons(s, rest) =>
      var g0, f0 := StmtTidy(g, f, s, ListDecls(rest) + n);
      g1, f1 := ListTidy(g0, f0, rest, n);
      HauntedTrans(g, g0, g1);
  }

  lemma {:induction false} BlockTidy(g: CFrame, f: CFrame, body: List<Stmt>, n: nat) returns (g1: CFrame, f1: CFrame)
    requires Tidy(g, f, ListDecls(body) + n)
    ensures FramesAfterBlock([g, f], body) == [g1, f1] && Tidy(g1, f1, n) && Haunted(g, g1) && ListToZero([g, f], body)
    decreases body, 1
  {
    hide FramesAfterList, ListToZero;
    var f0;
    g1, f0 := ListTidy(g, f, body, n);
    f1 := f0.(locals := f.locals);
    assert TopFrame([g1, f0], f1) == [g1, f1];
  }

  lemma {:induction false} ParamSlots(params: seq<string>)
    ensures forall x :: x in ParamFrame(params).locals ==> x in params && ParamFrame(params).locals[x].idx < |params|
    ensures |params| < NO_SLOT ==> ParamFrame(params).used <= |params|
  {
    if params != [] {
      ParamSlots(Front(params));
    }
  }

  /** Every function that the generator accepts, whatever was compiled before it. */
  lemma FunctionStores(u: Scope, f: string, params: seq<string>, body: List<Stmt>, n: nat)
    requires !ItemErr(u, Def(f, params, body), n) && |params| + ListDecls(body) < NO_SLOT
    requires forall x :: x in u.glob.locals ==> u.glob.locals[x].idx < NO_SLOT
    ensures ListToZero([u.glob, ParamFrame(params)], body)
    ensures Haunted(u.glob, AfterItem(u, Def(f, params, body), n).glob)
  {
    hide ListErr, ListToZero, FramesAfterList, HeldAfterList, Distinct, ParamFrame, Declare, Tidy, Haunted, ListDecls;
    ParamsTidy(u.glob, params, ListDecls(body) + 0);
    var g1, f1 := ListTidy(u.glob, ParamFrame(params), body, 0);
  }

  lemma ParamsTidy(g: CFrame, params: seq<string>, n: nat)
    requires forall i :: 0 <= i < |params| ==> params[i] !in g.locals
    requires |params| + n < NO_SLOT && forall x :: x in g.locals ==> g.locals[x].idx < NO_SLOT
    ensures Tidy(g, ParamFrame(params), n)
  {
    hide ParamFrame;
    ParamSlots(params);
    assert forall x :: x in params ==> x !in g.locals;
  }

  // ----- the closing FRET -----

  /** The last instruction of a body is a return. */
  predicate EndsInReturn(s: Stmt)
    decreases s, 0
  {
    match s
    case Return(_) => true
    case Block(body) => ListEndsInReturn(body)
    case If(_, _, els) => ListEndsInReturn(els)
    case _ => false
  }

  predicate ListEndsInReturn(body: List<Stmt>)
    decreases body, 0
  {
    match body
    case Nil => false
    case Cons(s, rest) => ListEndsInReturn(rest) || (ListLen(true, rest) == 0 && EndsInReturn(s))
  }

  predicate EndsInRet(code: seq<Op>) {
    code != [] && Last(code) == FRet
  }

  lemma EndOfConcat(a: seq<Op>, b: seq<Op>)
    ensures EndsInRet(a + b) == if b == [] then EndsInRet(a) else EndsInRet(b)
  {
    if b == [] {
      assert a + b == a;
    }
  }

  lemma {:induction false} ExprNoRet(ft: Funcs, frames: Frames, h: Held, e: Expr, d: nat)
    ensures !EndsInRet(ExprCode(ft, frames, h, e, d))
  {
    if e.Call? {
      EndOfConcat(ArgsCode(ft, frames, h, e.args, 0), [CallCode(ft, e.f)]);
      EndOfConcat(ArgsCode(ft, frames, h, e.args, 0) + [CallCode(ft, e.f)], if d == 0 then [] else [MovRR(d, 0)]);
    }
  }

  lemma {:induction false} StmtEnd(ft: Funcs, frames: Frames, h: Held, s: Stmt, n: nat, b: nat, c: nat)
    ensures EndsInRet(StmtCode(true, ft, frames, h, s, n, b, c)) == EndsInReturn(s)
    decreases s, 0
  {
    hide ExprCode, PlainCode, ListCode, LoopTail, EndsInRet, Res;
    match s
    case ExprS(e) => ExprNoRet(ft, frames, h, e, Res(h, e));
    case Set(x, e, _) =>
      EndOfConcat(ExprCode(ft, frames, h, e, Res(h, e)),
                  [LocalSet(SetDepth(frames, x), SetSlot(frames, x), Res(h, e))]);
      OneOp(LocalSet(SetDepth(frames, x), SetSlot(frames, x), Res(h, e)));
    case Block(body) => ListEnd(ft, frames, h, body, n, b, c);
    case If(e, thn, els) =>
      ResLen(h, e);
      var r := Res(h, e);
      var end := ElseAt(true, e, thn, n) + ListLen(true, els);
      var pre := ExprCode(ft, frames, h, e, Res(h, e)) + [IfTrue(r, ThenAt(true, e, n)), Jmp(ElseAt(true, e, thn, n))]
                 + ListCode(true, ft, frames, Hold(h, r), thn, ThenAt(true, e, n), b, c);
      var ec := ListCode(true, ft, FramesAfterBlock(frames, thn), HeldAfterList(Hold(h, r), thn), els,
                         ElseAt(true, e, thn, n), b, c);
      EndOfConcat(pre, [Jmp(end)]);
      EndOfConcat(pre + [Jmp(end)], ec);
      OneOp(Jmp(end));
      ListEnd(ft, FramesAfterBlock(frames, thn), HeldAfterList(Hold(h, r), thn), els, ElseAt(true, e, thn, n), b, c);
      EmptyEnd(els);
    case Loop(None, body) => LoopNoRet(ft, frames, h, None, body, n);
    case Loop(Some(e), body) =>
      var code := LoopCode(true, ft, frames, Hold(h, Res(h, e)), Some(Res(h, e)), body, n + ValueLen(true, e));
      LoopNoRet(ft, frames, Hold(h, Res(h, e)), Some(Res(h, e)), body, n + ValueLen(true, e));
      EndOfConcat(ExprCode(ft, frames, h, e, Res(h, e)), code);
    case Break => OneOp(Jmp(b));
    case Continue => OneOp(Jmp(c));
    case Return(e) =>
      EndOfConcat(ExprCode(ft, frames, h, e, 0), [FRet]);
      OneOp(FRet);
  }

  lemma OneOp(op: Op)
    ensures EndsInRet([op]) == (op == FRet)
  {
  }

  lemma {:induction false} EmptyEnd(body: List<Stmt>)
    ensures ListLen(true, body) == 0 ==> !ListEndsInReturn(body)
    decreases body, 1
  {
    match body
    case Nil =>
    case Cons(s, rest) =>
      EmptyEnd(rest);
      EmptyStmtEnd(s);
  }

  lemma {:induction false} EmptyStmtEnd(s: Stmt)
    ensures StmtLen(true, s) == 0 ==> !EndsInReturn(s)
    decreases s, 1
  {
    match s
    case Block(body) => EmptyEnd(body);
    case _ =>
  }

  lemma LoopNoRet(ft: Funcs, frames: Frames, h: Held, r: Option<nat>, body: List<Stmt>, start: nat)
    ensures !EndsInRet(LoopCode(true, ft, frames, h, r, body, start))
            && LoopCode(true, ft, frames, h, r, body, start) != []
  {
    hide ListCode;
    var end := LoopEnd(true, r, body, start);
    var pre := (if r.Some? then [IfFalse(r.value, end)] else [])
               + ListCode(true, ft, frames, h, body, start + Counted(r), end, end - 1 - Counted(r));
    EndOfConcat(pre, LoopTail(r, start));
    assert Last(LoopTail(r, start)) == Jmp(start);
  }

  lemma {:induction false} ListEnd(ft: Funcs, frames: Frames, h: Held, body: List<Stmt>, n: nat, b: nat, c: nat)
    ensures EndsInRet(ListCode(true, ft, frames, h, body, n, b, c)) == ListEndsInReturn(body)
    decreases body, 0
  {
    hide StmtCode, EndsInRet;
    match body
    case Nil => NoOps();
    case Cons(s, rest) =>
      var n1 := n + StmtLen(true, s);
      StmtEnd(ft, frames, h, s, n, b, c);
      ListEnd(ft, FramesAfter(frames, s), HeldAfter(h, s), rest, n1, b, c);
      EmptyEnd(rest);
      EndOfConcat(StmtCode(true, ft, frames, h, s, n, b, c),
                  ListCode(true, ft, FramesAfter(frames, s), HeldAfter(h, s), rest, n1, b, c));
  }

  lemma NoOps()
    ensures !EndsInRet([])
  {
  }

  /** A function gets no closing FRET exactly when the text of its body ends in a return, be it only
      in the last else. */
  lemma ClosingRetIff(i: FnInfo)
    requires i.fold
    ensures ClosingRet(FnBody(i)) == [] <==> ListEndsInReturn(i.def.body)
  {
    hide ListCode;
    ListEnd(i.ft, FnFrames(i), i.held, i.def.body, i.addr + |i.def.params|, 0, 0);
  }

  /** A call whose body ends without returning: the machine gets to the end of the body, inside the frame
      of the call. There it returns, if the text of the body does not end in a return; if it does, the
      machine passes FUNC_END and runs on into whatever follows the function, the frame and the return
      address of the call still in place. */
  lemma RunsOnIff(m: Image, f: string, fuel: nat, vals: seq<Value>, a: State)
    returns (t: State)
    requires m.fold && FnOk(m.fold, m.lim, m.ops, m.defs, m.fns, f)
    requires m.fns[f].addr > 0 && CodeAt(m.ops, m.fns[f].addr - 1, DefCode(m.fns[f]))
    requires |vals| == |m.fns[f].def.params| && ArgsInPlace(vals, 0, a.regs)
    requires a.pc == m.fns[f].addr && a.frames != [] && a.rets != []
             && Last(a.frames).locals == CalleeLocals(a.regs, |vals|)
    requires ExecList(m.defs, fuel, Bind(m.defs[f].params, vals), m.defs[f].body).Some?
    requires ExecList(m.defs, fuel, Bind(m.defs[f].params, vals), m.defs[f].body).value.Normal?
    ensures Reaches(m.ops, a, t) && t.rets == a.rets && |t.frames| == |a.frames| && t.pc < |m.ops|
    ensures t.pc == a.pc + |vals| + ListLen(true, m.defs[f].body)
    ensures Step(m.ops, t) == Next(Leave(t)) <==> !ListEndsInReturn(m.defs[f].body)
    ensures Step(m.ops, t) == Next(t.(pc := t.pc + 1)) <==> ListEndsInReturn(m.defs[f].body)
  {
    hide ListCode, ListFits, SafeList, ExecList, Bind, PassList, Reaches, ListEndsInReturn, Match;
    var i := m.fns[f];
    var b := EnterBody(m.ops, i, vals, a);
    var callee := CalleeImage(m, f);
    t := SimList(callee, FnFrames(i), i.held, {}, Place(|vals| + 1, true, false), i.def.body, 0, 0, fuel,
                 Bind(i.def.params, vals), b);
    ReachTrans(m.ops, a, b, t);
    BehindBody(m.ops, i, t.pc);
    ClosingRetIff(i);
  }

  /** What stands behind the body of a function. */
  lemma BehindBody(p: seq<Op>, i: FnInfo, pc: nat)
    requires i.addr > 0 && CodeAt(p, i.addr - 1, DefCode(i)) && pc == i.addr + |i.def.params| + |FnBody(i)|
    ensures pc < |p| && p[pc] == if ClosingRet(FnBody(i)) == [] then FuncEnd else FRet
  {
    hide FnBody;
    var pre, closing := [FuncCreate] + (ParamCode(|i.def.params|) + FnBody(i)), ClosingRet(FnBody(i));
    CodeAtSplit(p, i.addr - 1, pre + closing, [FuncEnd]);
    CodeAtSplit(p, i.addr - 1, pre, closing);
    assert pc == i.addr - 1 + |pre|;
    if closing == [] {
      assert pre + closing == pre;
      CodeAtOp(p, pc, [FuncEnd], 0);
    } else {
      CodeAtOp(p, pc, closing, 0);
    }
  }


  // ----- global variables -----

  /** Compiled, a function that returns the global variable `x`, held in slot `slot`. */
  ghost predicate GivesGlobal(p: seq<Op>, i: FnInfo, x: string, slot: nat) {
    && i.fold && i.def.body == Cons(Return(Var(x)), Nil) && |i.def.params| <= MAX_ARGS && x !in i.def.params
    && x in i.outer.locals && i.outer.locals[x].idx == slot != NO_SLOT
    && CodeAt(p, i.addr, ParamCode(|i.def.params|) + FnBody(i))
  }

  /** A state about to call it, with `n` frames that all have such a slot. */
  ghost predicate AboutToCall(p: seq<Op>, i: FnInfo, slot: nat, n: nat, c: State) {
    && c.pc < |p| && p[c.pc] == FCall(i.addr, |i.def.params|) && |c.frames| == n > 0
    && forall j :: 0 <= j < n ==> slot < |c.frames[j].locals|
  }

  lemma GlobalCode(p: seq<Op>, i: FnInfo, x: string, slot: nat)
    requires GivesGlobal(p, i, x, slot)
    ensures FnBody(i) == [LocalGet(0, 1, slot), FRet]
  {
    hide ParamFrame, CodeAt;
    ParamSlots(i.def.params);
    var frames := FnFrames(i);
    assert Front(frames) == [i.outer] && Front([i.outer]) == [];
    assert FindVar([i.outer], x) == Some(Loc(0, i.outer.locals[x]));
    assert FindVar(frames, x) == Some(Loc(1, i.outer.locals[x]));
    assert ExprCode(i.ft, frames, i.held, Var(x), 0) == [LocalGet(0, 1, slot)];
    var n := i.addr + |i.def.params|;
    assert StmtCode(true, i.ft, frames, i.held, Return(Var(x)), n, 0, 0) == [LocalGet(0, 1, slot)] + [FRet];
  }

  /** The parameters are stored one step at a time. */
  lemma {:induction false} ParamSteps(p: seq<Op>, s: State, argc: nat, j: nat)
    requires j <= argc <= MAX_ARGS && s.frames != [] && Last(s.frames).locals == CalleeLocals(s.regs, argc)
    requires CodeAt(p, s.pc, ParamCode(argc))
    ensures Steps(p, s, j) == Some(s.(pc := s.pc + j))
    decreases j
  {
    hide ParamCode, CodeAt;
    if j > 0 {
      var u := s.(pc := s.pc + j - 1);
      ParamSteps(p, s, argc, j - 1);
      ParamOp(p, s.pc, argc, j - 1);
      StoreSame(u, j - 1, argc);
      assert Step(p, u) == Next(s.(pc := s.pc + j));
      assert Steps(p, s.(pc := s.pc + j), 0) == Some(s.(pc := s.pc + j));
      assert Steps(p, u, 1) == Some(s.(pc := s.pc + j));
      StepsAdd(p, s, j - 1, u, 1);
    }
  }

  lemma ParamOp(p: seq<Op>, n: nat, argc: nat, j: nat)
    requires CodeAt(p, n, ParamCode(argc)) && j < argc <= MAX_ARGS
    ensures n + j < |p| && p[n + j] == LocalSet(0, j, ArgReg(j))
  {
    CodeAtOp(p, n, ParamCode(argc), j);
  }

  /** The whole call: one step into the function, its parameters, the read, the return. */
  lemma CallSteps(p: seq<Op>, i: FnInfo, x: string, slot: nat, n: nat, c: State, k: nat) returns (t: State)
    requires GivesGlobal(p, i, x, slot) && AboutToCall(p, i, slot, n, c) && k == |i.def.params| + 3
    ensures Steps(p, c, k) == Some(t) && t.rets == c.rets && t.regs[0] == Last(c.frames).locals[slot]
    ensures forall j :: 0 < j < k ==> Steps(p, c, j).Some? && |At(p, c, j).rets| == |c.rets| + 1
  {
    hide Step, CodeAt, FnBody, ParamCode;
    var argc := |i.def.params|;
    var a := Enter(c, i.addr, argc);
    var b := a.(pc := a.pc + argc);
    CodeAtSplit(p, i.addr, ParamCode(argc), FnBody(i));
    GlobalCode(p, i, x, slot);
    CodeAtOp(p, b.pc, FnBody(i), 0);
    CodeAtOp(p, b.pc, FnBody(i), 1);
    CallStep(p, c, i.addr, argc);
    forall j | 0 < j <= argc + 1
      ensures Steps(p, c, j) == Some(a.(pc := a.pc + j - 1))
    {
      ParamSteps(p, a, argc, j - 1);
    }
    var u := ReadStep(p, b, slot);
    t := RetStep(p, u);
    assert Steps(p, c, argc + 1) == Some(b);
    assert Steps(p, u, 0) == Some(u) && Steps(p, t, 0) == Some(t);
    assert Steps(p, b, 1) == Some(u) && Steps(p, u, 1) == Some(t);
    assert Steps(p, b, 2) == Steps(p, u, 1);
    StepsAdd(p, c, argc + 1, b, 1);
    StepsAdd(p, c, argc + 1, b, 2);
    forall j | 0 < j < k
      ensures Steps(p, c, j).Some? && |At(p, c, j).rets| == |c.rets| + 1
    {
      if j <= argc + 1 {
        assert Steps(p, c, j) == Some(a.(pc := a.pc + j - 1));
      }
    }
    assert b.frames[|b.frames| - 2] == Last(c.frames);
    assert Front(b.rets) == c.rets;
  }

  lemma CallStep(p: seq<Op>, c: State, target: nat, argc: nat)
    requires c.pc < |p| && p[c.pc] == FCall(target, argc) && argc <= REG_COUNT
    ensures Step(p, c) == Next(Enter(c, target, argc))
  {
  }

  lemma ReadStep(p: seq<Op>, b: State, slot: nat) returns (u: State)
    requires b.pc < |p| && p[b.pc] == LocalGet(0, 1, slot) && |b.frames| >= 2
             && slot < |b.frames[|b.frames| - 2].locals|
    ensures Step(p, b) == Next(u) && u == Put(b, 0, b.frames[|b.frames| - 2].locals[slot])
  {
    u := Step(p, b).state;
  }

  lemma RetStep(p: seq<Op>, u: State) returns (t: State)
    requires u.pc < |p| && p[u.pc] == FRet && u.rets != [] && u.frames != []
    ensures Step(p, u) == Next(t) && t.rets == Front(u.rets) && t.regs[0] == u.regs[0]
  {
    t := Step(p, u).state;
  }

  lemma ReturnsThen(p: seq<Op>, c: State, k: nat)
    requires k > 0 && Steps(p, c, k).Some? && At(p, c, k).rets == c.rets
    requires forall j :: 0 < j < k ==> Steps(p, c, j).Some? && |At(p, c, j).rets| == |c.rets| + 1
    ensures ReturnsAfter(p, c, k)
  {
    hide Steps;
  }

  /** The call of a function that returns a global variable returns the caller's local in the same slot. */
  lemma GivesCallersSlot(p: seq<Op>, i: FnInfo, x: string, slot: nat, n: nat, c: State, k: nat)
    requires GivesGlobal(p, i, x, slot) && AboutToCall(p, i, slot, n, c) && ReturnsAfter(p, c, k)
    ensures At(p, c, k).regs[0] == Last(c.frames).locals[slot]
  {
    hide GivesGlobal, AboutToCall, Steps;
    var len := |i.def.params| + 3;
    var t := CallSteps(p, i, x, slot, n, c, len);
    ReturnsThen(p, c, len);
    ReturnsOnce(p, c, len, k);
  }

  /** With `n` frames on the stack, every call of the function returns the word of the global variable. */
  ghost predicate ReadsGlobal(p: seq<Op>, i: FnInfo, slot: nat, n: nat) {
    forall c: State, k: nat :: AboutToCall(p, i, slot, n, c) && ReturnsAfter(p, c, k) ==>
      At(p, c, k).regs[0] == c.frames[0].locals[slot]
  }

  /** It does exactly when it is called from the top level. */
  lemma ReadsGlobalIff(p: seq<Op>, i: FnInfo, x: string, slot: nat, at: nat, n: nat)
    requires GivesGlobal(p, i, x, slot) && at < |p| && p[at] == FCall(i.addr, |i.def.params|) && n > 0
    ensures ReadsGlobal(p, i, slot, n) <==> n == 1
  {
    hide GivesGlobal, Steps;
    if n == 1 {
      forall c: State, k: nat | AboutToCall(p, i, slot, n, c) && ReturnsAfter(p, c, k)
        ensures At(p, c, k).regs[0] == c.frames[0].locals[slot]
      {
        GivesCallersSlot(p, i, x, slot, n, c, k);
      }
    } else {
      var zero, one := Frame(Zeros(slot + 1), Saved(0, 0, 0)), Frame(seq(slot + 1, j => 1), Saved(0, 0, 0));
      var regs: Regs := seq(255, j => 0);
      var c := State(at, regs, seq(n, j => if j == n - 1 then one else zero), []);
      var t := CallSteps(p, i, x, slot, n, c, |i.def.params| + 3);
      ReturnsThen(p, c, |i.def.params| + 3);
      assert AboutToCall(p, i, slot, n, c) && At(p, c, |i.def.params| + 3).regs[0] == 1;
    }
  }
}
