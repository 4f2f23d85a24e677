/** The reference code simulates the source interpreter on the machine. */
module Simulation {
  import opened Words
  import opened Machine
  import opened Source
  import opened Reference
  import opened Safety
  import opened Passing

  // ----- the program around a piece of code -----

  /** A compiled function: its definition, entry, and what was known when it was compiled. */
  datatype FnInfo = FnInfo(fold: bool, def: FnDef, addr: nat, held: Held, outer: CFrame, ft: Funcs)

  type Fns = map<string, FnInfo>

  function FnFrames(i: FnInfo): Frames {
    [i.outer, ParamFrame(i.def.params)]
  }

  function ParamCode(n: nat): (code: seq<Op>)
    ensures |code| == n
    ensures forall i :: 0 <= i < n ==> code[i] == LocalSet(0, i % 65536, ArgReg(i))
  {
    seq(n, i requires i >= 0 => LocalSet(0, i % 65536, ArgReg(i)))
  }

  function FnBody(i: FnInfo): seq<Op> {
    ListCode(i.fold, i.ft, FnFrames(i), i.held, i.def.body, i.addr + |i.def.params|, 0, 0)
  }

  predicate Distinct(xs: seq<string>) {
    forall i, j :: 0 <= i < j < |xs| ==> xs[i] != xs[j]
  }

  /** The function may be called: its code is in place and safe, as are the functions it calls. */
  ghost predicate FnOk(fold: bool, lim: nat, p: seq<Op>, defs: Defs, fns: Fns, f: string) {
    f in fns && f in defs &&
    var i := fns[f];
    && i.fold == fold
    && defs[f] == i.def
    && |i.def.params| <= MAX_ARGS && Distinct(i.def.params)
    && CodeAt(p, i.addr, ParamCode(|i.def.params|) + FnBody(i))
    && ListFits(lim, i.held, i.def.body)
    && SafeList(i.ft, FnFrames(i), i.held, {}, Place(|i.def.params| + 1, true, false), i.def.body)
    && Known(i.ft, fns)
  }

  ghost predicate Entered(ft: Funcs, fns: Fns, f: string) {
    f in ft && f in fns && ft[f] == FEntry(|fns[f].def.params|, fns[f].addr)
  }

  // The triggers keep the solver from looking into every function at every mention of a name.

  ghost predicate Known(ft: Funcs, fns: Fns) {
    forall f {:trigger Entered(ft, fns, f)} :: f in ft ==> Entered(ft, fns, f)
  }

  /** A program compiled with or without folding, its functions, and those that the code at hand may
      call by name. All code fits into the registers below `lim`; if that leaves an argument register
      to it, what becomes of this one is followed too. */
  datatype Program = Program(fold: bool, lim: nat, ops: seq<Op>, defs: Defs, fns: Fns, ft: Funcs)

  ghost predicate Linked(m: Program) {
    && m.lim <= REG_COUNT && (m.lim < REG_COUNT ==> m.fold && ARG_REG - m.lim < MAX_ARGS)
    && (forall f {:trigger FnOk(m.fold, m.lim, m.ops, m.defs, m.fns, f)} ::
          f in m.fns ==> FnOk(m.fold, m.lim, m.ops, m.defs, m.fns, f))
    && Known(m.ft, m.fns)
  }

  type Image = m: Program | Linked(m) witness Program(true, REG_COUNT, [], map[], map[], map[])

  // ----- relating machine states and environments -----

  ghost predicate Holds(slot: Slot, b: Binding, locals: seq<int>) {
    slot.idx < |locals| && b.mut == slot.mut && Rep(b.val, locals[slot.idx])
  }

  ghost predicate Match(names: map<string, Slot>, env: Env, locals: seq<int>) {
    && env.Keys == names.Keys
    && forall x :: x in names ==> Holds(names[x], env[x], locals)
  }

  ghost predicate Ready(frames: Frames, env: Env, s: State) {
    s.frames != [] && Match(Last(frames).locals, env, Last(s.frames).locals)
  }

  ghost predicate Kept(k: set<nat>, a: Regs, b: Regs) {
    forall r :: r in k && r < REG_COUNT ==> a[r] == b[r]
  }

  /** Registers in `k` are out of reach of code that takes only free registers below `lim`. */
  ghost predicate Live(k: set<nat>, h: Held, lim: nat) {
    forall r :: r in k ==> 0 < r < REG_COUNT && (r in h || r >= lim)
  }

  ghost predicate Evaluated(k: set<nat>, s: State, t: State, end: nat, d: nat, v: Value) {
    && t.pc == end && t.frames == s.frames && t.rets == s.rets
    && d < REG_COUNT && Rep(v, t.regs[d])
    && Kept(k, s.regs, t.regs)
  }

  // ----- the argument register that is followed -----

  /** The argument that belongs in register `lim`. */
  function Pos(m: Program): int {
    ARG_REG - m.lim
  }

  ghost predicate Passed(m: Program, p: Option<Value>, a: Regs, b: Regs) {
    m.lim < REG_COUNT ==>
      match p
      case None => b[m.lim] == a[m.lim]
      case Some(v) => Rep(v, b[m.lim])
  }

  lemma PassedThen(m: Program, p: Option<Value>, q: Option<Value>, a: Regs, b: Regs, c: Regs)
    requires Passed(m, p, a, b) && Passed(m, q, b, c)
    ensures Passed(m, Then(p, q), a, c)
  {
  }

  /** Only some registers other than the one followed have changed. */
  lemma PassedOn(m: Program, p: Option<Value>, a: Regs, b: Regs, c: Regs)
    requires Passed(m, p, a, b) && (m.lim < REG_COUNT ==> c[m.lim] == b[m.lim])
    ensures Passed(m, p, a, c)
  {
  }

  lemma PassedNothing(m: Program, a: Regs, b: Regs)
    requires m.lim < REG_COUNT ==> b[m.lim] == a[m.lim]
    ensures Passed(m, None, a, b)
  {
  }

  // ----- operators -----

  lemma TruthOfRep(v: Value, w: int)
    requires Rep(v, w)
    ensures Low(v) == LowByte(w)
  {
  }

  lemma ApplyRefined(op: Oper, x: Value, y: Value, old_: int, a: int, b: int)
    requires Rep(x, a) && Rep(y, b) && Apply(op, x, y).Some?
    ensures AluWord(op, old_, a, b).Some?
    ensures Rep(Apply(op, x, y).value, AluWord(op, old_, a, b).value)
  {
    TruthOfRep(x, a);
    TruthOfRep(y, b);
  }

  /** No register but these two has changed. */
  ghost predicate Others(s: State, t: State, d: nat, e: nat) {
    forall r :: 0 <= r < REG_COUNT && r != d && r != e ==> t.regs[r] == s.regs[r]
  }

  lemma AluStep(p: seq<Op>, k: set<nat>, s: State, op: Oper, d: nat, a: nat, b: nat, x: Value, y: Value)
    returns (t: State)
    requires s.pc < |p| && p[s.pc] == Alu(op, d, a, b)
    requires d < REG_COUNT && a < REG_COUNT && b < REG_COUNT && d !in k
    requires Rep(x, s.regs[a]) && Rep(y, s.regs[b]) && Apply(op, x, y).Some?
    ensures Step(p, s) == Next(t) && Others(s, t, d, d)
    ensures Evaluated(k, s, t, s.pc + 1, d, Apply(op, x, y).value)
  {
    ApplyRefined(op, x, y, s.regs[d], s.regs[a], s.regs[b]);
    t := Step(p, s).state;
  }

  // ----- expressions -----

  lemma {:induction false} SimExpr(m: Image, frames: Frames, h: Held, k: set<nat>, lim: nat,
                                   e: Expr, d: nat, fuel: nat, env: Env, s: State)
    returns (t: State)
    requires CodeAt(m.ops, s.pc, ExprCode(m.ft, frames, h, e, d))
    requires RegsFit(h, lim, e) && lim <= m.lim && SafeExpr(m.ft, frames, h, k, e) && Live(k, h, lim)
    requires d < REG_COUNT && d !in k
    requires Ready(frames, env, s)
    requires Eval(m.defs, fuel, env, e).Some?
    ensures Reaches(m.ops, s, t)
    ensures Evaluated(k, s, t, s.pc + ExprLen(e, d == 0), d, Eval(m.defs, fuel, env, e).value)
    ensures d != m.lim ==> Passed(m, PassExpr(m.defs, fuel, env, Pos(m), e), s.regs, t.regs)
    decreases fuel, e, 1
  {
    hide Step, Reaches, ExprCode, ExprLen, RegsFit, Evaluated, Ready, Live, CodeAt, FirstFree, Alloc, Passed, Pos,
         SafeExpr, Eval, PassExpr;
    match e
    case Neg(e1) =>
      t := SimNeg(m, frames, h, k, lim, e1, d, fuel, env, s);
    case Bin(op, l, r) =>
      t := SimBin(m, frames, h, k, lim, op, l, r, d, fuel, env, s);
    case Call(f, args) =>
      t := SimCall(m, frames, h, k, lim, f, args, d, fuel, env, s);
    case _ =>
      t := SimLeaf(m.ops, m.ft, frames, h, k, e, d, m.defs, fuel, env, s);
      PassNothing(m.defs, fuel, env, Pos(m), e);
      if d != m.lim {
        PassedLeaf(m, s, t, d);
      }
  }

  lemma PassNothing(defs: Defs, fuel: nat, env: Env, j: int, e: Expr)
    requires e.Num? || e.Bool? || e.Var?
    ensures PassExpr(defs, fuel, env, j, e) == None
  {
  }

  lemma PassedLeaf(m: Program, s: State, t: State, d: nat)
    requires Others(s, t, d, d) && d != m.lim
    ensures Passed(m, None, s.regs, t.regs)
  {
  }

  lemma SimLeaf(p: seq<Op>, ft: Funcs, frames: Frames, h: Held, k: set<nat>, e: Expr, d: nat, defs: Defs, fuel: nat,
                env: Env, s: State)
    returns (t: State)
    requires e.Num? || e.Bool? || e.Var?
    requires CodeAt(p, s.pc, ExprCode(ft, frames, h, e, d)) && SafeExpr(ft, frames, h, k, e)
    requires d < REG_COUNT && d !in k && Ready(frames, env, s) && Eval(defs, fuel, env, e).Some?
    ensures Reaches(p, s, t) && Others(s, t, d, d)
    ensures Evaluated(k, s, t, s.pc + ExprLen(e, d == 0), d, Eval(defs, fuel, env, e).value)
  {
    hide Reaches;
    CodeAtOp(p, s.pc, ExprCode(ft, frames, h, e, d), 0);
    if e.Var? {
      assert Holds(Last(frames).locals[e.x], env[e.x], Last(s.frames).locals);
    }
    ReachStep(p, s);
    t := Step(p, s).state;
  }

  lemma {:induction false} SimNeg(m: Image, frames: Frames, h: Held, k: set<nat>, lim: nat,
                                  e1: Expr, d: nat, fuel: nat, env: Env, s: State)
    returns (u: State)
    requires CodeAt(m.ops, s.pc, ExprCode(m.ft, frames, h, Neg(e1), d))
    requires RegsFit(h, lim, Neg(e1)) && lim <= m.lim && SafeExpr(m.ft, frames, h, k, Neg(e1)) && Live(k, h, lim)
    requires d < REG_COUNT && d !in k
    requires Ready(frames, env, s)
    requires Eval(m.defs, fuel, env, Neg(e1)).Some?
    ensures Reaches(m.ops, s, u)
    ensures Evaluated(k, s, u, s.pc + ExprLen(Neg(e1), d == 0), d, Eval(m.defs, fuel, env, Neg(e1)).value)
    ensures d != m.lim ==> Passed(m, PassExpr(m.defs, fuel, env, Pos(m), Neg(e1)), s.regs, u.regs)
    decreases fuel, e1, 2
  {
    hide Res, RegsFit, Live, SafeExpr, Eval, Step, Reaches, Ready, CodeAt, AluWord, PassExpr, Passed, Pos, Negate;
    NegRegs(h, k, lim, e1);
    NegParts(m.ft, frames, h, k, e1, m.defs, fuel, env);
    NegPass(m.defs, fuel, env, Pos(m), e1);
    var r, tmp := Res(h, e1), Res(h, Neg(e1));
    var tail := [MovRI(tmp, 0), Alu(Sub, d, tmp, r)];
    CodeAtSplit(m.ops, s.pc, ExprCode(m.ft, frames, h, e1, r), tail);
    var t := SimExpr(m, frames, h, k, lim, e1, r, fuel, env, s);
    CodeAtOp(m.ops, t.pc, tail, 0);
    CodeAtOp(m.ops, t.pc, tail, 1);
    u := NegTail(m.ops, k, s, t, d, tmp, r, Eval(m.defs, fuel, env, e1).value);
    if d != m.lim {
      PassedOn(m, PassExpr(m.defs, fuel, env, Pos(m), e1), s.regs, t.regs, u.regs);
    }
  }

  lemma NegParts(ft: Funcs, frames: Frames, h: Held, k: set<nat>, e1: Expr, defs: Defs, fuel: nat, env: Env)
    requires SafeExpr(ft, frames, h, k, Neg(e1)) && Eval(defs, fuel, env, Neg(e1)).Some?
    ensures SafeExpr(ft, frames, h, k, e1) && Eval(defs, fuel, env, e1).Some?
    ensures Eval(defs, fuel, env, Neg(e1)) == Negate(Eval(defs, fuel, env, e1).value)
  {
    hide Negate;
  }

  lemma NegPass(defs: Defs, fuel: nat, env: Env, j: int, e1: Expr)
    ensures PassExpr(defs, fuel, env, j, Neg(e1)) == PassExpr(defs, fuel, env, j, e1)
  {
  }

  lemma BinPass(defs: Defs, fuel: nat, env: Env, j: int, op: Oper, l: Expr, r: Expr)
    ensures PassExpr(defs, fuel, env, j, Bin(op, l, r))
            == Then(PassExpr(defs, fuel, env, j, l), PassExpr(defs, fuel, env, j, r))
  {
    hide Then;
  }

  /** The registers of a negation are two different ones, and none that has to survive. */
  lemma NegRegs(h: Held, k: set<nat>, lim: nat, e1: Expr)
    requires RegsFit(h, lim, Neg(e1)) && lim <= REG_COUNT && Live(k, h, lim)
    ensures RegsFit(h, lim, e1) && Res(h, e1) < lim && Res(h, Neg(e1)) < lim && Res(h, Neg(e1)) != Res(h, e1)
    ensures Res(h, e1) !in k && Res(h, Neg(e1)) !in k
    ensures (Res(h, e1) == 0) == e1.Call?
  {
    hide FirstFree, ArgsFit;
    ResFresh(h, e1);
    ResLen(h, e1);
  }

  /** The operand is in place: load zero and subtract. */
  lemma NegTail(p: seq<Op>, k: set<nat>, s: State, t: State, d: nat, tmp: nat, r: nat, v: Value)
    returns (u: State)
    requires Reaches(p, s, t) && Evaluated(k, s, t, t.pc, r, v)
    requires t.pc + 1 < |p| && p[t.pc] == MovRI(tmp, 0) && p[t.pc + 1] == Alu(Sub, d, tmp, r)
    requires d < REG_COUNT && d !in k && tmp < REG_COUNT && tmp != r && tmp !in k
    requires Negate(v).Some?
    ensures Reaches(p, s, u) && Others(t, u, d, tmp)
    ensures Evaluated(k, s, u, t.pc + 2, d, Negate(v).value)
  {
    hide AluWord, Reaches;
    ReachThenStep(p, s, t);
    var t1 := Step(p, t).state;
    u := AluStep(p, k, t1, Sub, d, tmp, r, I(0), v);
    ReachThenStep(p, s, t1);
  }

  lemma {:induction false} SimLeft(m: Image, frames: Frames, h: Held, k: set<nat>, lim: nat, l: Expr, rest: seq<Op>,
                                   fuel: nat, env: Env, s: State)
    returns (t: State)
    requires CodeAt(m.ops, s.pc, ExprCode(m.ft, frames, Left(h), l, Alloc(h)) + rest)
    requires RegsFit(Left(h), lim, l) && Alloc(h) < lim <= m.lim && SafeExpr(m.ft, frames, Left(h), k, l)
             && Live(k, h, lim)
    requires Ready(frames, env, s)
    requires Eval(m.defs, fuel, env, l).Some?
    ensures Reaches(m.ops, s, t)
    ensures Evaluated(k, s, t, s.pc + ExprLen(l, false), Alloc(h), Eval(m.defs, fuel, env, l).value)
    ensures CodeAt(m.ops, t.pc, rest)
    ensures Passed(m, PassExpr(m.defs, fuel, env, Pos(m), l), s.regs, t.regs)
    decreases fuel, l, 2
  {
    hide PassExpr, Passed, Pos, ExprCode, RegsFit, SafeExpr, Eval, Step, Reaches;
    CodeAtSplit(m.ops, s.pc, ExprCode(m.ft, frames, Left(h), l, Alloc(h)), rest);
    t := SimExpr(m, frames, Left(h), k, lim, l, Alloc(h), fuel, env, s);
  }

  lemma {:induction false} SimRight(m: Image, frames: Frames, h: Held, k: set<nat>, lim: nat, r: Expr, rest: seq<Op>,
                                    fuel: nat, env: Env, s: State)
    returns (t: State)
    requires CodeAt(m.ops, s.pc, ExprCode(m.ft, frames, Left(h), r, Right(h, r)) + rest)
    requires RegsFit(Left(h), lim, r) && Alloc(h) < lim <= m.lim && Right(h, r) < lim
    requires SafeExpr(m.ft, frames, Left(h), k + {Alloc(h)}, r) && Live(k, h, lim)
    requires Ready(frames, env, s)
    requires Eval(m.defs, fuel, env, r).Some?
    ensures Reaches(m.ops, s, t)
    ensures Evaluated(k + {Alloc(h)}, s, t, s.pc + ExprLen(r, false), Right(h, r), Eval(m.defs, fuel, env, r).value)
    ensures CodeAt(m.ops, t.pc, rest)
    ensures Passed(m, PassExpr(m.defs, fuel, env, Pos(m), r), s.regs, t.regs)
    decreases fuel, r, 2
  {
    hide PassExpr, Passed, Pos, ExprCode, RegsFit, SafeExpr, Eval, Step, Reaches;
    CodeAtSplit(m.ops, s.pc, ExprCode(m.ft, frames, Left(h), r, Right(h, r)), rest);
    t := SimExpr(m, frames, Left(h), k + {Alloc(h)}, lim, r, Right(h, r), fuel, env, s);
  }

  lemma {:induction false} SimBin(m: Image, frames: Frames, h: Held, k: set<nat>, lim: nat,
                                  op: Oper, l: Expr, r: Expr, d: nat, fuel: nat, env: Env, s: State)
    returns (w: State)
    requires CodeAt(m.ops, s.pc, ExprCode(m.ft, frames, h, Bin(op, l, r), d))
    requires RegsFit(h, lim, Bin(op, l, r)) && lim <= m.lim && SafeExpr(m.ft, frames, h, k, Bin(op, l, r))
             && Live(k, h, lim)
    requires d < REG_COUNT && d !in k
    requires Ready(frames, env, s)
    requires Eval(m.defs, fuel, env, Bin(op, l, r)).Some?
    ensures Reaches(m.ops, s, w)
    ensures Evaluated(k, s, w, s.pc + ExprLen(Bin(op, l, r), d == 0), d, Eval(m.defs, fuel, env, Bin(op, l, r)).value)
    ensures d != m.lim ==> Passed(m, PassExpr(m.defs, fuel, env, Pos(m), Bin(op, l, r)), s.regs, w.regs)
    decreases fuel, Bin(op, l, r), 0
  {
    hide Res, RegsFit, Alloc, Right, Left, Live, SafeExpr, Eval, Step, Reaches, AluWord, Apply, PassExpr, Passed, Pos,
         Then, Ready, CodeAt;
    BinRegs(h, k, lim, op, l, r);
    BinParts(m.ft, frames, h, k, op, l, r, m.defs, fuel, env);
    BinPass(m.defs, fuel, env, Pos(m), op, l, r);
    var tail := [Alu(op, d, Alloc(h), Right(h, r))];
    var rest := ExprCode(m.ft, frames, Left(h), r, Right(h, r)) + tail;
    assert ExprCode(m.ft, frames, h, Bin(op, l, r), d) == ExprCode(m.ft, frames, Left(h), l, Alloc(h)) + rest;
    var t := SimLeft(m, frames, h, k, lim, l, rest, fuel, env, s);
    SameReady(frames, env, s, t);
    var u := SimRight(m, frames, h, k, lim, r, tail, fuel, env, t);
    CodeAtOp(m.ops, u.pc, tail, 0);
    w := BinTail(m.ops, k, s, t, u, op, d, Alloc(h), Right(h, r), Eval(m.defs, fuel, env, l).value,
                 Eval(m.defs, fuel, env, r).value);
    var pl, pr := PassExpr(m.defs, fuel, env, Pos(m), l), PassExpr(m.defs, fuel, env, Pos(m), r);
    PassedThen(m, pl, pr, s.regs, t.regs, u.regs);
    if d != m.lim {
      PassedOn(m, Then(pl, pr), s.regs, u.regs, w.regs);
    }
  }

  lemma SameReady(frames: Frames, env: Env, s: State, t: State)
    requires Ready(frames, env, s) && t.frames == s.frames
    ensures Ready(frames, env, t)
  {
  }

  /** The registers of an operator: both operands fit and are parked out of the way of each other. */
  lemma BinRegs(h: Held, k: set<nat>, lim: nat, op: Oper, l: Expr, r: Expr)
    requires RegsFit(h, lim, Bin(op, l, r)) && lim <= REG_COUNT && Live(k, h, lim)
    ensures Alloc(h) < lim && Right(h, r) < lim && RegsFit(Left(h), lim, l) && RegsFit(Left(h), lim, r)
    ensures Res(h, Bin(op, l, r)) < lim && Res(h, Bin(op, l, r)) !in k
    ensures Live(k, Left(h), lim) && Live(k + {Alloc(h)}, Left(h), lim)
    ensures Alloc(h) !in k && Right(h, r) !in k + {Alloc(h)}
  {
    hide FirstFree, ArgsFit;
    ResFresh(h, Bin(op, l, r));
  }

  /** Both operands are safe and have values. */
  lemma BinParts(ft: Funcs, frames: Frames, h: Held, k: set<nat>, op: Oper, l: Expr, r: Expr, defs: Defs, fuel: nat,
                 env: Env)
    requires SafeExpr(ft, frames, h, k, Bin(op, l, r)) && Eval(defs, fuel, env, Bin(op, l, r)).Some?
    ensures SafeExpr(ft, frames, Left(h), k, l) && SafeExpr(ft, frames, Left(h), k + {Alloc(h)}, r)
    ensures Eval(defs, fuel, env, l).Some? && Eval(defs, fuel, env, r).Some?
    ensures Eval(defs, fuel, env, Bin(op, l, r))
            == Apply(op, Eval(defs, fuel, env, l).value, Eval(defs, fuel, env, r).value)
  {
    hide Apply, FirstFree;
  }

  /** Both operands are in place: run the operator. */
  lemma BinTail(p: seq<Op>, k: set<nat>, s: State, t: State, u: State, op: Oper, d: nat, a: nat, b: nat, x: Value,
                y: Value)
    returns (w: State)
    requires Reaches(p, s, t) && Evaluated(k, s, t, t.pc, a, x)
    requires Reaches(p, t, u) && Evaluated(k + {a}, t, u, u.pc, b, y)
    requires u.pc < |p| && p[u.pc] == Alu(op, d, a, b) && d < REG_COUNT && d !in k
    requires Apply(op, x, y).Some?
    ensures Reaches(p, s, w) && Others(u, w, d, d)
    ensures Evaluated(k, s, w, u.pc + 1, d, Apply(op, x, y).value)
  {
    assert a in k + {a};
    w := AluStep(p, k, u, op, d, a, b, x, y);
    ReachTrans(p, s, t, u);
    ReachThenStep(p, s, u);
  }

  // ----- calls -----

  /** The registers of the first `i` arguments: 254, 253, ... */
  function ArgRegs(i: nat): (regs: set<nat>)
    requires i <= MAX_ARGS
    ensures forall r :: r in regs <==> REG_COUNT - i <= r < REG_COUNT
  {
    if i == 0 then {} else ArgRegs(i - 1) + {REG_COUNT - i}
  }

  ghost predicate ArgsInPlace(vals: seq<Value>, i: nat, regs: Regs)
    requires i + |vals| <= MAX_ARGS
  {
    forall j :: 0 <= j < |vals| ==> Rep(vals[j], regs[ARG_REG - i - j])
  }

  lemma {:induction false} SimArgs(m: Image, frames: Frames, h: Held, k: set<nat>,
                                   args: List<Expr>, i: nat, fuel: nat, env: Env, s: State)
    returns (u: State)
    requires CodeAt(m.ops, s.pc, ArgsCode(m.ft, frames, h, args, i)) && ArgsFit(h, m.lim, args)
    requires i + Length(args) <= MAX_ARGS && k <= SAVED_REGS && k <= h && SafeArgs(m.ft, frames, h, k, args, i)
    requires Ready(frames, env, s)
    requires EvalArgs(m.defs, fuel, env, args).Some?
    ensures Reaches(m.ops, s, u)
    ensures u.pc == s.pc + ArgsLen(args, i) && u.frames == s.frames && u.rets == s.rets
    ensures ArgsInPlace(EvalArgs(m.defs, fuel, env, args).value, i, u.regs)
    ensures Kept(k + ArgRegs(i), s.regs, u.regs)
    ensures Passed(m, PassArgs(m.defs, fuel, env, Pos(m), args, i), s.regs, u.regs)
    decreases fuel, args, 0
  {
    hide ExprCode, Ready, RegsFit, SafeExpr, Eval, PassArg, Passed, Pos, Reaches, CodeAt, Kept, ArgsInPlace, HasCall,
         Rep, ArgRegs;
    match args
    case Nil =>
      ReachRefl(m.ops, s);
      u := s;
      PassedNothing(m, s.regs, s.regs);
      NothingYet(k, i, s.regs);
    case Cons(a, rest) =>
      CodeAtSplit(m.ops, s.pc, ExprCode(m.ft, frames, h, a, ArgReg(i)), ArgsCode(m.ft, frames, h, rest, i + 1));
      var t := SimArg(m, frames, h, k, a, i, fuel, env, s);
      SameReady(frames, env, s, t);
      u := SimArgs(m, frames, h, k, rest, i + 1, fuel, env, t);
      ReachTrans(m.ops, s, t, u);
      ArgsJoin(k, i, s, t, u, Eval(m.defs, fuel, env, a).value, EvalArgs(m.defs, fuel, env, rest).value);
      PassedThen(m, PassArg(m.defs, fuel, env, Pos(m), a, i), PassArgs(m.defs, fuel, env, Pos(m), rest, i + 1), s.regs,
                 t.regs, u.regs);
  }

  lemma NothingYet(k: set<nat>, i: nat, regs: Regs)
    requires i <= MAX_ARGS
    ensures Kept(k + ArgRegs(i), regs, regs) && ArgsInPlace([], i, regs)
  {
  }

  lemma ArgsJoin(k: set<nat>, i: nat, s: State, t: State, u: State, v: Value, vs: seq<Value>)
    requires i + 1 + |vs| <= MAX_ARGS
    requires Kept(k + ArgRegs(i), s.regs, t.regs) && Rep(v, t.regs[ARG_REG - i])
    requires Kept(k + ArgRegs(i + 1), t.regs, u.regs) && ArgsInPlace(vs, i + 1, u.regs)
    ensures Kept(k + ArgRegs(i), s.regs, u.regs)
    ensures ArgsInPlace([v] + vs, i, u.regs)
  {
    assert ARG_REG - i in ArgRegs(i + 1);
    assert ArgRegs(i) <= ArgRegs(i + 1);
    forall j | 0 <= j < 1 + |vs|
      ensures Rep(([v] + vs)[j], u.regs[ARG_REG - i - j])
    {
      if j > 0 {
        assert Rep(vs[j - 1], u.regs[ARG_REG - (i + 1) - (j - 1)]);
      }
    }
  }

  lemma {:induction false} SimArg(m: Image, frames: Frames, h: Held, k: set<nat>,
                                  a: Expr, i: nat, fuel: nat, env: Env, s: State)
    returns (t: State)
    requires CodeAt(m.ops, s.pc, ExprCode(m.ft, frames, h, a, ArgReg(i)))
    requires i < MAX_ARGS && k <= SAVED_REGS && k <= h && RegsFit(h, REG_COUNT - i, a) && RegsFit(h, m.lim, a)
    requires SafeExpr(m.ft, frames, h, k, a) && (i > 0 ==> !HasCall(a))
    requires Ready(frames, env, s)
    requires Eval(m.defs, fuel, env, a).Some?
    ensures Reaches(m.ops, s, t)
    ensures Evaluated(k + ArgRegs(i), s, t, s.pc + ExprLen(a, ArgReg(i) == 0), ARG_REG - i,
                      Eval(m.defs, fuel, env, a).value)
    ensures Passed(m, PassArg(m.defs, fuel, env, Pos(m), a, i), s.regs, t.regs)
    decreases fuel, a, 2
  {
    hide ExprCode, SafeExpr, Eval, PassExpr, RegsFit;
    ArgLive(m.ft, frames, h, k, a, i);
    var lim := Min(REG_COUNT - i, m.lim);
    assert Live(k + ArgRegs(i), h, lim);
    t := SimExpr(m, frames, h, k + ArgRegs(i), lim, a, ARG_REG - i, fuel, env, s);
  }

  lemma ArgLive(ft: Funcs, frames: Frames, h: Held, k: set<nat>, a: Expr, i: nat)
    requires i < MAX_ARGS && k <= SAVED_REGS && k <= h && SafeExpr(ft, frames, h, k, a) && (i > 0 ==> !HasCall(a))
    ensures SafeExpr(ft, frames, h, k + ArgRegs(i), a) && Live(k + ArgRegs(i), h, REG_COUNT - i)
  {
    hide SafeExpr;
    var all := k + ArgRegs(i);
    if i == 0 {
      assert all == k;
    } else {
      KeepMore(ft, frames, h, k, all, a);
    }
  }

  /** Without calls in it, an expression is safe whatever registers have to survive. */
  lemma {:induction false} KeepMore(ft: Funcs, frames: Frames, h: Held, k: set<nat>, more: set<nat>, e: Expr)
    requires !HasCall(e) && SafeExpr(ft, frames, h, k, e)
    ensures SafeExpr(ft, frames, h, more, e)
    decreases e
  {
    match e
    case Neg(e1) => KeepMore(ft, frames, h, k, more, e1);
    case Bin(_, l, r) =>
      KeepMore(ft, frames, Left(h), k, more, l);
      KeepMore(ft, frames, Left(h), k + {Alloc(h)}, more + {Alloc(h)}, r);
    case _ =>
  }

  // ----- calls: parameters -----

  ghost predicate InOrder(vals: seq<Value>, locals: seq<int>) {
    |vals| <= |locals| && forall j :: 0 <= j < |vals| ==> Rep(vals[j], locals[j])
  }

  /** The frame the compiler builds for the parameters describes the locals FCALL fills in. */
  lemma {:induction false} ParamsMatch(params: seq<string>, vals: seq<Value>, locals: seq<int>)
    requires Distinct(params) && |params| == |vals| < 65535 && InOrder(vals, locals)
    ensures Match(ParamFrame(params).locals, Bind(params, vals), locals)
    ensures FrameOk(ParamFrame(params)) && ParamFrame(params).used == |params|
    ensures ParamFrame(params).locals.Keys == set x | x in params
  {
    hide Match, FrameOk, NewVar;
    if params == [] {
      EmptyMatch(locals);
    } else {
      var n := |params| - 1;
      ParamsMatch(params[..n], vals[..n], locals);
      assert params == params[..n] + [params[n]];
      assert params[n] !in params[..n];
      NewVarGrows(ParamFrame(params[..n]), params[n], true);
      assert ParamFrame(params) == NewVar(ParamFrame(params[..n]), params[n],
                                          true) by { AddIsNew(ParamFrame(params[..n]), params[n]); }
      BindOne(ParamFrame(params[..n]), params[n], vals[n], Bind(params[..n], vals[..n]), locals);
    }
  }

  lemma EmptyMatch(locals: seq<int>)
    ensures Match(map[], map[], locals) && FrameOk(CFrame(map[], 0))
  {
  }

  lemma AddIsNew(f: CFrame, x: string)
    requires x !in f.locals && f.used < NO_SLOT
    ensures AddParam(f, x, f.used) == NewVar(f, x, true)
  {
  }

  lemma BindOne(f: CFrame, x: string, v: Value, env: Env, locals: seq<int>)
    requires Match(f.locals, env, locals) && x !in f.locals && f.used < NO_SLOT && f.used < |locals|
             && Rep(v, locals[f.used])
    ensures Match(NewVar(f, x, true).locals, env[x := Binding(true, v)], locals)
  {
    hide Rep;
  }

  lemma CalleeArgs(vals: seq<Value>, regs: Regs)
    requires |vals| <= MAX_ARGS && ArgsInPlace(vals, 0, regs)
    ensures InOrder(vals, CalleeLocals(regs, |vals|))
  {
    forall j | 0 <= j < |vals|
      ensures Rep(vals[j], CalleeLocals(regs, |vals|)[j])
    {
      assert Rep(vals[j], regs[ARG_REG - 0 - j]);
    }
  }

  lemma StoreSame(s: State, i: nat, argc: nat)
    requires i < argc <= MAX_ARGS && s.frames != [] && Last(s.frames).locals == CalleeLocals(s.regs, argc)
    ensures LocalExists(s, 0, i) && WriteLocal(s, 0, i, s.regs[ArgReg(i)]) == s.(pc := s.pc + 1)
  {
    var f := Last(s.frames);
    assert f.locals[i := s.regs[ArgReg(i)]] == f.locals;
    assert f.(locals := f.locals) == f;
    assert s.frames[|s.frames| - 1 := f] == s.frames;
  }

  lemma ParamStep(p: seq<Op>, s: State, argc: nat, i: nat)
    requires i < argc <= MAX_ARGS && s.frames != [] && Last(s.frames).locals == CalleeLocals(s.regs, argc)
    requires s.pc < |p| && p[s.pc] == LocalSet(0, i, ArgReg(i))
    ensures Step(p, s) == Next(s.(pc := s.pc + 1))
  {
    hide WriteLocal, LocalExists, CalleeLocals;
    StoreSame(s, i, argc);
  }

  /** The LOCAL_SETs at the head of a function store once more what FCALL already stored. */
  lemma {:induction false} RunParams(p: seq<Op>, s: State, argc: nat, i: nat)
    requires i <= argc <= MAX_ARGS && s.frames != [] && Last(s.frames).locals == CalleeLocals(s.regs, argc)
    requires CodeAt(p, s.pc, ParamCode(argc)[i..])
    ensures Reaches(p, s, s.(pc := s.pc + argc - i))
    decreases argc - i
  {
    hide Step, Reaches, CodeAt;
    if i == argc {
      ReachRefl(p, s);
    } else {
      var rest := ParamCode(argc)[i..];
      assert rest == [rest[0]] + ParamCode(argc)[i + 1..];
      CodeAtSplit(p, s.pc, [rest[0]], ParamCode(argc)[i + 1..]);
      CodeAtOp(p, s.pc, rest, 0);
      ParamStep(p, s, argc, i);
      ReachStep(p, s);
      RunParams(p, s.(pc := s.pc + 1), argc, i + 1);
      ReachTrans(p, s, s.(pc := s.pc + 1), s.(pc := s.pc + argc - i));
    }
  }

  // ----- calls -----

  ghost predicate RetDone(s: State, t: State, v: Value) {
    && s.rets != [] && s.frames != []
    && t.pc == Last(s.rets) && t.rets == Front(s.rets) && t.frames == Front(s.frames)
    && SaveRegs(t.regs) == Last(s.frames).saved
    && Rep(v, t.regs[0])
  }

  lemma {:induction false} SimCall(m: Image, frames: Frames, h: Held, k: set<nat>, lim: nat, f: string,
                                   args: List<Expr>,
                                   d: nat, fuel: nat, env: Env, s: State)
    returns (w: State)
    requires CodeAt(m.ops, s.pc, ExprCode(m.ft, frames, h, Call(f, args), d))
    requires RegsFit(h, lim, Call(f, args)) && lim <= m.lim && SafeExpr(m.ft, frames, h, k, Call(f, args))
    requires d < REG_COUNT && d !in k
    requires Ready(frames, env, s)
    requires Eval(m.defs, fuel, env, Call(f, args)).Some?
    ensures Reaches(m.ops, s, w)
    ensures Evaluated(k, s, w, s.pc + ExprLen(Call(f, args), d == 0), d, Eval(m.defs, fuel, env, Call(f, args)).value)
    ensures d != m.lim ==> Passed(m, PassExpr(m.defs, fuel, env, Pos(m), Call(f, args)), s.regs, w.regs)
    decreases fuel, args, 2
  {
    hide ArgsCode, SafeArgs, EvalArgs, ExecList, Step, Reaches, ArgsFit, PassArgs, PassList, Passed, Pos, Then,
        SafeExpr,
         Eval, PassExpr, RegsFit, Bind, CallResult, CodeAt, Ready, ArgsInPlace;
    CallParts(m, frames, h, k, lim, f, args, fuel, env);
    CallPass(m.defs, fuel, env, Pos(m), f, args);
    ArgsLess(h, lim, m.lim, args);
    var vals := EvalArgs(m.defs, fuel, env, args).value;
    var v := Eval(m.defs, fuel, env, Call(f, args)).value;
    var move := if d == 0 then [] else [MovRR(d, 0)];
    assert ExprCode(m.ft, frames, h, Call(f, args), d) == ArgsCode(m.ft, frames, h, args, 0)
           + ([CallCode(m.ft, f)] + move);
    var t := SimPass(m, frames, h, k, args, [CallCode(m.ft, f)] + move, fuel, env, s);
    CodeAtSplit(m.ops, t.pc, [CallCode(m.ft, f)], move);
    CodeAtOp(m.ops, t.pc, [CallCode(m.ft, f)], 0);
    assert Entered(m.ft, m.fns, f);
    var u := SimFn(m, f, fuel - 1, vals, t);
    w := SimMove(m.ops, k, t, u, d, v);
    ReachTrans(m.ops, s, t, u);
    ReachTrans(m.ops, s, u, w);
    var pa := PassArgs(m.defs, fuel, env, Pos(m), args, 0);
    var pb := PassList(m.defs, fuel - 1, Bind(m.defs[f].params, vals), Pos(m), m.defs[f].body);
    PassedThen(m, pa, pb, s.regs, t.regs, u.regs);
    if d != m.lim {
      PassedOn(m, Then(pa, pb), s.regs, u.regs, w.regs);
    }
  }

  /** What a call that is safe and has a value consists of. */
  lemma CallParts(m: Image, frames: Frames, h: Held, k: set<nat>, lim: nat, f: string, args: List<Expr>, fuel: nat,
                  env: Env)
    requires SafeExpr(m.ft, frames, h, k, Call(f, args)) && Eval(m.defs, fuel, env, Call(f, args)).Some?
    ensures k <= SAVED_REGS && k <= h && f in m.ft && m.ft[f].arity == Length(args) <= MAX_ARGS
    ensures SafeArgs(m.ft, frames, h, k, args, 0) && EvalArgs(m.defs, fuel, env, args).Some? && fuel > 0
    ensures RegsFit(h, lim, Call(f, args)) ==> ArgsFit(h, lim, args)
    ensures var vals := EvalArgs(m.defs, fuel, env, args).value;
            && f in m.defs && |m.defs[f].params| == |vals| == Length(args)
            && Eval(m.defs, fuel, env, Call(f, args))
               == CallResult(ExecList(m.defs, fuel - 1, Bind(m.defs[f].params, vals), m.defs[f].body))
  {
    hide SafeArgs, EvalArgs, ExecList, Bind, CallResult, ArgsFit, Linked;
  }

  lemma CallPass(defs: Defs, fuel: nat, env: Env, j: int, f: string, args: List<Expr>)
    requires EvalArgs(defs, fuel, env, args).Some? && fuel > 0 && f in defs
    requires |EvalArgs(defs, fuel, env, args).value| == |defs[f].params|
    ensures PassExpr(defs, fuel, env, j, Call(f, args))
            == Then(PassArgs(defs, fuel, env, j, args, 0),
                    PassList(defs, fuel - 1, Bind(defs[f].params, EvalArgs(defs, fuel, env, args).value), j,
                             defs[f].body))
  {
    hide EvalArgs, PassArgs, PassList, Bind, Then;
  }

  lemma {:induction false} FitsLess(h: Held, lim: nat, more: nat, e: Expr)
    requires RegsFit(h, lim, e) && lim <= more
    ensures RegsFit(h, more, e)
    decreases e
  {
    hide FirstFree;
    match e
    case Neg(e1) => FitsLess(h, lim, more, e1);
    case Bin(_, l, r) =>
      FitsLess(Left(h), lim, more, l);
      FitsLess(Left(h), lim, more, r);
    case Call(_, args) => ArgsLess(h, lim, more, args);
    case _ =>
  }

  lemma {:induction false} ArgsLess(h: Held, lim: nat, more: nat, args: List<Expr>)
    requires ArgsFit(h, lim, args) && lim <= more
    ensures ArgsFit(h, more, args)
    decreases args
  {
    hide RegsFit;
    match args
    case Nil =>
    case Cons(a, rest) =>
      FitsLess(h, lim, more, a);
      ArgsLess(h, lim, more, rest);
  }

  lemma {:induction false} SimPass(m: Image, frames: Frames, h: Held, k: set<nat>, args: List<Expr>, rest: seq<Op>,
                                   fuel: nat, env: Env, s: State)
    returns (t: State)
    requires CodeAt(m.ops, s.pc, ArgsCode(m.ft, frames, h, args, 0) + rest) && ArgsFit(h, m.lim, args)
    requires Length(args) <= MAX_ARGS && k <= SAVED_REGS && k <= h && SafeArgs(m.ft, frames, h, k, args, 0)
    requires Ready(frames, env, s)
    requires EvalArgs(m.defs, fuel, env, args).Some?
    ensures Reaches(m.ops, s, t)
    ensures t.pc == s.pc + ArgsLen(args, 0) && t.frames == s.frames && t.rets == s.rets
    ensures ArgsInPlace(EvalArgs(m.defs, fuel, env, args).value, 0, t.regs)
    ensures Kept(k, s.regs, t.regs)
    ensures CodeAt(m.ops, t.pc, rest)
    ensures Passed(m, PassArgs(m.defs, fuel, env, Pos(m), args, 0), s.regs, t.regs)
    decreases fuel, args, 1
  {
    hide ArgsCode, SafeArgs, ArgsFit, EvalArgs, Step, Reaches, PassArgs, Passed, Pos;
    CodeAtSplit(m.ops, s.pc, ArgsCode(m.ft, frames, h, args, 0), rest);
    t := SimArgs(m, frames, h, k, args, 0, fuel, env, s);
  }

  /** The result of a call is in register 0; move it where it belongs. */
  lemma SimMove(p: seq<Op>, k: set<nat>, t: State, u: State, d: nat, v: Value)
    returns (w: State)
    requires u.pc == t.pc + 1 && u.frames == t.frames && u.rets == t.rets
    requires SaveRegs(u.regs) == SaveRegs(t.regs) && Rep(v, u.regs[0])
    requires k <= SAVED_REGS && d !in k && d < REG_COUNT
    requires CodeAt(p, u.pc, if d == 0 then [] else [MovRR(d, 0)])
    ensures Reaches(p, u, w) && Others(u, w, d, d)
    ensures Evaluated(k, t, w, u.pc + (if d == 0 then 0 else 1), d, v)
  {
    if d == 0 {
      ReachRefl(p, u);
      w := u;
    } else {
      CodeAtOp(p, u.pc, [MovRR(d, 0)], 0);
      ReachStep(p, u);
      w := Step(p, u).state;
    }
  }

  /** From an FCALL with its arguments in place to the instruction after it. */
  lemma {:induction false} SimFn(m: Image, f: string, fuel: nat, vals: seq<Value>, t: State)
    returns (u: State)
    requires Entered(m.ft, m.fns, f)
    requires |vals| == |m.fns[f].def.params| <= MAX_ARGS && ArgsInPlace(vals, 0, t.regs)
    requires t.pc < |m.ops| && m.ops[t.pc] == FCall(m.fns[f].addr, |vals|)
    requires f in m.defs && |m.defs[f].params| == |vals|
    requires CallResult(ExecList(m.defs, fuel, Bind(m.defs[f].params, vals), m.defs[f].body)).Some?
    ensures Reaches(m.ops, t, u)
    ensures u.pc == t.pc + 1 && u.frames == t.frames && u.rets == t.rets && SaveRegs(u.regs) == SaveRegs(t.regs)
    ensures Rep(CallResult(ExecList(m.defs, fuel, Bind(m.defs[f].params, vals), m.defs[f].body)).value, u.regs[0])
    ensures Passed(m, PassList(m.defs, fuel, Bind(m.defs[f].params, vals), Pos(m), m.defs[f].body), t.regs, u.regs)
    decreases fuel
  {
    hide ExecList, Bind, PassList, Passed, Pos;
    assert FnOk(m.fold, m.lim, m.ops, m.defs, m.fns, f);
    var a := Enter(t, m.fns[f].addr, |vals|);
    ReachStep(m.ops, t);
    u := SimFnBody(m, f, fuel, vals, a);
    ReachTrans(m.ops, t, a, u);
  }

  lemma {:induction false} SimFnBody(m: Image, f: string, fuel: nat, vals: seq<Value>, a: State)
    returns (u: State)
    requires FnOk(m.fold, m.lim, m.ops, m.defs, m.fns, f)
    requires |vals| == |m.fns[f].def.params| && ArgsInPlace(vals, 0, a.regs)
    requires a.pc == m.fns[f].addr && a.frames != [] && a.rets != []
             && Last(a.frames).locals == CalleeLocals(a.regs, |vals|)
    requires CallResult(ExecList(m.defs, fuel, Bind(m.defs[f].params, vals), m.defs[f].body)).Some?
    ensures Reaches(m.ops, a, u)
    ensures RetDone(a, u, CallResult(ExecList(m.defs, fuel, Bind(m.defs[f].params, vals), m.defs[f].body)).value)
    ensures Passed(m, PassList(m.defs, fuel, Bind(m.defs[f].params, vals), Pos(m), m.defs[f].body), a.regs, u.regs)
    decreases fuel, m.fns[f].def.body, 1
  {
    hide ListCode, ListFits, SafeList, ExecList, Bind, PassList, Reaches, CodeAt, ParamFrame, Distinct, Known,
         ArgsInPlace, Here, CalleeLocals;
    var i := m.fns[f];
    var b := EnterBody(m.ops, i, vals, a);
    var callee := CalleeImage(m, f);
    u := SimList(callee, FnFrames(i), i.held, {}, Place(|vals| + 1, true, false), i.def.body, 0, 0, fuel,
                 Bind(i.def.params, vals), b);
    ReachTrans(m.ops, a, b, u);
  }

  lemma CalleeImage(m: Image, f: string) returns (callee: Image)
    requires FnOk(m.fold, m.lim, m.ops, m.defs, m.fns, f)
    ensures callee == Program(m.fold, m.lim, m.ops, m.defs, m.fns, m.fns[f].ft)
  {
    callee := m.(ft := m.fns[f].ft);
  }

  lemma EnterBody(p: seq<Op>, i: FnInfo, vals: seq<Value>, a: State)
    returns (b: State)
    requires |vals| == |i.def.params| <= MAX_ARGS && Distinct(i.def.params) && ArgsInPlace(vals, 0, a.regs)
    requires CodeAt(p, i.addr, ParamCode(|i.def.params|) + FnBody(i))
    requires a.pc == i.addr && a.frames != [] && a.rets != [] && Last(a.frames).locals == CalleeLocals(a.regs, |vals|)
    ensures b == a.(pc := a.pc + |vals|) && Reaches(p, a, b)
    ensures CodeAt(p, b.pc, FnBody(i))
    ensures Here(FnFrames(i), Place(|vals| + 1, true, false), Bind(i.def.params, vals), b)
  {
    hide Reaches, CodeAt, FnBody, ParamFrame, Bind, Match, FrameOk, Distinct, ParamCode, CalleeLocals, InOrder,
         ArgsInPlace;
    var n := |vals|;
    CodeAtSplit(p, a.pc, ParamCode(n), FnBody(i));
    assert ParamCode(n)[0..] == ParamCode(n);
    RunParams(p, a, n, 0);
    b := a.(pc := a.pc + n);
    CalleeArgs(vals, a.regs);
    ParamsMatch(i.def.params, vals, CalleeLocals(a.regs, n));
  }

  // ----- expressions without folding -----

  /** Without folding the same holds: every value reaches its register by a move of its own. */
  lemma {:induction false} SimPlain(m: Image, frames: Frames, h: Held, k: set<nat>, lim: nat,
                                    e: Expr, fuel: nat, env: Env, s: State)
    returns (t: State)
    requires CodeAt(m.ops, s.pc, PlainCode(m.ft, frames, h, e))
    requires RegsFit(h, lim, e) && lim <= REG_COUNT && SafeExpr(m.ft, frames, h, k, e) && Live(k, h, lim)
    requires Ready(frames, env, s)
    requires Eval(m.defs, fuel, env, e).Some?
    ensures Reaches(m.ops, s, t)
    ensures Evaluated(k, s, t, s.pc + PlainLen(e), Res(h, e), Eval(m.defs, fuel, env, e).value)
    decreases fuel, e, 1
  {
    hide Step, Reaches, RegsFit, Evaluated, Ready, Live, CodeAt, FirstFree, Alloc, SafeArgs, PlainCode, PlainLen, Eval,
         Res, SafeExpr;
    match e
    case Neg(e1) =>
      t := PlainNeg(m, frames, h, k, lim, e1, fuel, env, s);
    case Bin(op, l, r) =>
      t := PlainBin(m, frames, h, k, lim, op, l, r, fuel, env, s);
    case Call(f, args) =>
      ResLen(h, e);
      ResFits(h, k, lim, e);
      t := PlainCall(m, frames, h, k, f, args, fuel, env, s);
    case _ =>
      t := PlainLeaf(m.ops, m.ft, frames, h, k, lim, e, m.defs, fuel, env, s);
  }

  lemma PlainLeaf(p: seq<Op>, ft: Funcs, frames: Frames, h: Held, k: set<nat>, lim: nat, e: Expr, defs: Defs,
                  fuel: nat, env: Env, s: State)
    returns (t: State)
    requires e.Num? || e.Bool? || e.Var?
    requires CodeAt(p, s.pc, PlainCode(ft, frames, h, e)) && SafeExpr(ft, frames, h, k, e)
    requires RegsFit(h, lim, e) && lim <= REG_COUNT && Live(k, h, lim)
    requires Ready(frames, env, s) && Eval(defs, fuel, env, e).Some?
    ensures Reaches(p, s, t)
    ensures Evaluated(k, s, t, s.pc + PlainLen(e), Res(h, e), Eval(defs, fuel, env, e).value)
  {
    hide Reaches, Evaluated, Ready, Live, CodeAt, RegsFit, SafeExpr, Res, Eval;
    ResFits(h, k, lim, e);
    assert PlainCode(ft, frames, h, e) == ExprCode(ft, frames, h, e, Res(h, e));
    t := SimLeaf(p, ft, frames, h, k, e, Res(h, e), defs, fuel, env, s);
  }

  /** The register a value falls into is not one that has to survive. */
  lemma ResFits(h: Held, k: set<nat>, lim: nat, e: Expr)
    requires RegsFit(h, lim, e) && lim <= REG_COUNT && Live(k, h, lim)
    ensures Res(h, e) < lim && Res(h, e) !in k
  {
    ResFresh(h, e);
  }

  lemma {:induction false} PlainNeg(m: Image, frames: Frames, h: Held, k: set<nat>, lim: nat,
                                    e1: Expr, fuel: nat, env: Env, s: State)
    returns (u: State)
    requires CodeAt(m.ops, s.pc, PlainCode(m.ft, frames, h, Neg(e1)))
    requires RegsFit(h, lim, Neg(e1)) && lim <= REG_COUNT && SafeExpr(m.ft, frames, h, k, Neg(e1)) && Live(k, h, lim)
    requires Ready(frames, env, s)
    requires Eval(m.defs, fuel, env, Neg(e1)).Some?
    ensures Reaches(m.ops, s, u)
    ensures Evaluated(k, s, u, s.pc + PlainLen(Neg(e1)), Res(h, Neg(e1)), Eval(m.defs, fuel, env, Neg(e1)).value)
    decreases fuel, e1, 2
  {
    hide Res, RegsFit, Live, SafeExpr, Eval, Step, Reaches, Ready, CodeAt, AluWord, Negate;
    NegRegs(h, k, lim, e1);
    NegParts(m.ft, frames, h, k, e1, m.defs, fuel, env);
    var r, tmp := Res(h, e1), Res(h, Neg(e1));
    var tail := [MovRI(tmp, 0), Alu(Sub, tmp, tmp, r)];
    CodeAtSplit(m.ops, s.pc, PlainCode(m.ft, frames, h, e1), tail);
    var t := SimPlain(m, frames, h, k, lim, e1, fuel, env, s);
    CodeAtOp(m.ops, t.pc, tail, 0);
    CodeAtOp(m.ops, t.pc, tail, 1);
    u := NegTail(m.ops, k, s, t, tmp, tmp, r, Eval(m.defs, fuel, env, e1).value);
  }

  /** A value and the move behind it. */
  lemma {:induction false} PlainMoved(m: Image, frames: Frames, h: Held, k: set<nat>, lim: nat, e: Expr, d: nat,
                                      rest: seq<Op>, fuel: nat, env: Env, s: State)
    returns (u: State)
    requires CodeAt(m.ops, s.pc, PlainCode(m.ft, frames, h, e) + ([MovRR(d, Res(h, e))] + rest))
    requires RegsFit(h, lim, e) && lim <= REG_COUNT && SafeExpr(m.ft, frames, h, k, e) && Live(k, h, lim)
    requires d < REG_COUNT && d !in k
    requires Ready(frames, env, s)
    requires Eval(m.defs, fuel, env, e).Some?
    ensures Reaches(m.ops, s, u)
    ensures Evaluated(k, s, u, s.pc + PlainLen(e) + 1, d, Eval(m.defs, fuel, env, e).value)
    ensures CodeAt(m.ops, u.pc, rest)
    decreases fuel, e, 2
  {
    hide PlainCode, RegsFit, SafeExpr, Eval, Res, Ready, Live, Reaches, Step, CodeAt;
    var move := [MovRR(d, Res(h, e))];
    CodeAtSplit(m.ops, s.pc, PlainCode(m.ft, frames, h, e), move + rest);
    var t := SimPlain(m, frames, h, k, lim, e, fuel, env, s);
    CodeAtSplit(m.ops, t.pc, move, rest);
    CodeAtOp(m.ops, t.pc, move, 0);
    u := MoveStep(m.ops, k, s, t, d, Res(h, e), Eval(m.defs, fuel, env, e).value);
  }

  lemma MoveStep(p: seq<Op>, k: set<nat>, s: State, t: State, d: nat, r: nat, v: Value) returns (u: State)
    requires Reaches(p, s, t) && Evaluated(k, s, t, t.pc, r, v) && d < REG_COUNT && d !in k
    requires t.pc < |p| && p[t.pc] == MovRR(d, r)
    ensures Reaches(p, s, u) && Evaluated(k, s, u, t.pc + 1, d, v)
  {
    hide Reaches, Rep;
    ReachThenStep(p, s, t);
    u := Step(p, t).state;
  }

  lemma {:induction false} PlainBin(m: Image, frames: Frames, h: Held, k: set<nat>, lim: nat,
                                    op: Oper, l: Expr, r: Expr, fuel: nat, env: Env, s: State)
    returns (w: State)
    requires CodeAt(m.ops, s.pc, PlainCode(m.ft, frames, h, Bin(op, l, r)))
    requires RegsFit(h, lim, Bin(op, l, r)) && lim <= REG_COUNT && SafeExpr(m.ft, frames, h, k, Bin(op, l, r))
    requires Live(k, h, lim)
    requires Ready(frames, env, s)
    requires Eval(m.defs, fuel, env, Bin(op, l, r)).Some?
    ensures Reaches(m.ops, s, w)
    ensures Evaluated(k, s, w, s.pc + PlainLen(Bin(op, l, r)), Res(h, Bin(op, l, r)),
                      Eval(m.defs, fuel, env, Bin(op, l, r)).value)
    decreases fuel, Bin(op, l, r), 0
  {
    hide Res, RegsFit, Alloc, Right, Left, Live, PlainArgs, SafeExpr, Eval, Step, Reaches, AluWord, Apply, CodeAt,
         Ready;
    BinRegs(h, k, lim, op, l, r);
    BinParts(m.ft, frames, h, k, op, l, r, m.defs, fuel, env);
    var e, a, b := Bin(op, l, r), Alloc(h), Right(h, r);
    var tail := [Alu(op, Res(h, e), a, b)];
    var rest := PlainCode(m.ft, frames, Left(h), r) + ([MovRR(b, Res(Left(h), r))] + tail);
    assert PlainCode(m.ft, frames, h, e) == PlainCode(m.ft, frames, Left(h), l) + ([MovRR(a, Res(Left(h), l))] + rest);
    var t := PlainMoved(m, frames, Left(h), k, lim, l, a, rest, fuel, env, s);
    SameReady(frames, env, s, t);
    var u := PlainMoved(m, frames, Left(h), k + {a}, lim, r, b, tail, fuel, env, t);
    CodeAtOp(m.ops, u.pc, tail, 0);
    w := BinTail(m.ops, k, s, t, u, op, Res(h, e), a, b, Eval(m.defs, fuel, env, l).value,
                 Eval(m.defs, fuel, env, r).value);
  }

  lemma {:induction false} PlainCall(m: Image, frames: Frames, h: Held, k: set<nat>, f: string, args: List<Expr>,
                                     fuel: nat, env: Env, s: State)
    returns (w: State)
    requires CodeAt(m.ops, s.pc, PlainCode(m.ft, frames, h, Call(f, args)))
    requires SafeExpr(m.ft, frames, h, k, Call(f, args))
    requires 0 !in k
    requires Ready(frames, env, s)
    requires Eval(m.defs, fuel, env, Call(f, args)).Some?
    ensures Reaches(m.ops, s, w)
    ensures Evaluated(k, s, w, s.pc + PlainLen(Call(f, args)), 0, Eval(m.defs, fuel, env, Call(f, args)).value)
    decreases fuel, args, 2
  {
    hide PlainArgs, SafeArgs, EvalArgs, ExecList, Step, Reaches, Bind, PassList, Passed, Pos, SafeExpr, Eval,
        CallResult,
         CodeAt, Ready, ArgsInPlace;
    CallParts(m, frames, h, k, m.lim, f, args, fuel, env);
    var vals := EvalArgs(m.defs, fuel, env, args).value;
    CodeAtSplit(m.ops, s.pc, PlainArgs(m.ft, frames, h, args, 0), [CallCode(m.ft, f)]);
    var t := SimPlainArgs(m, frames, h, k, args, 0, fuel, env, s);
    assert k + ArgRegs(0) == k;
    CodeAtOp(m.ops, t.pc, [CallCode(m.ft, f)], 0);
    assert Entered(m.ft, m.fns, f);
    var u := SimFn(m, f, fuel - 1, vals, t);
    CodeAtSplit(m.ops, t.pc, [CallCode(m.ft, f)], []);
    w := SimMove(m.ops, k, t, u, 0, Eval(m.defs, fuel, env, Call(f, args)).value);
    ReachTrans(m.ops, s, t, u);
    ReachTrans(m.ops, s, u, w);
  }

  lemma {:induction false} SimPlainArgs(m: Image, frames: Frames, h: Held, k: set<nat>,
                                        args: List<Expr>, i: nat, fuel: nat, env: Env, s: State)
    returns (u: State)
    requires CodeAt(m.ops, s.pc, PlainArgs(m.ft, frames, h, args, i))
    requires i + Length(args) <= MAX_ARGS && k <= SAVED_REGS && k <= h && SafeArgs(m.ft, frames, h, k, args, i)
    requires Ready(frames, env, s)
    requires EvalArgs(m.defs, fuel, env, args).Some?
    ensures Reaches(m.ops, s, u)
    ensures u.pc == s.pc + PlainArgsLen(args) && u.frames == s.frames && u.rets == s.rets
    ensures ArgsInPlace(EvalArgs(m.defs, fuel, env, args).value, i, u.regs)
    ensures Kept(k + ArgRegs(i), s.regs, u.regs)
    decreases fuel, args, 0
  {
    hide PlainCode, Ready, RegsFit, SafeExpr, Eval, Res, Live, Reaches, CodeAt, Kept, ArgsInPlace, HasCall, Rep,
         ArgRegs;
    match args
    case Nil =>
      ReachRefl(m.ops, s);
      u := s;
      NothingYet(k, i, s.regs);
    case Cons(a, rest) =>
      var code := PlainArgs(m.ft, frames, h, rest, i + 1);
      assert PlainArgs(m.ft, frames, h, args, i) == PlainCode(m.ft, frames, h, a)
             + ([MovRR(ARG_REG - i, Res(h, a))] + code);
      ArgLive(m.ft, frames, h, k, a, i);
      var t := PlainMoved(m, frames, h, k + ArgRegs(i), REG_COUNT - i, a, ARG_REG - i, code, fuel, env, s);
      SameReady(frames, env, s, t);
      u := SimPlainArgs(m, frames, h, k, rest, i + 1, fuel, env, t);
      ReachTrans(m.ops, s, t, u);
      ArgsJoin(k, i, s, t, u, Eval(m.defs, fuel, env, a).value, EvalArgs(m.defs, fuel, env, rest).value);
  }

  // ----- expressions in statements -----

  lemma {:induction false} SimValue(m: Image, frames: Frames, h: Held, k: set<nat>, e: Expr, fuel: nat, env: Env,
                                    s: State)
    returns (t: State)
    requires CodeAt(m.ops, s.pc, ValueCode(m.fold, m.ft, frames, h, e))
    requires RegsFit(h, m.lim, e) && SafeExpr(m.ft, frames, h, k, e) && Live(k, h, REG_COUNT)
    requires Ready(frames, env, s)
    requires Eval(m.defs, fuel, env, e).Some?
    ensures Reaches(m.ops, s, t)
    ensures Evaluated(k, s, t, s.pc + ValueLen(m.fold, e), Res(h, e), Eval(m.defs, fuel, env, e).value)
    ensures Passed(m, PassExpr(m.defs, fuel, env, Pos(m), e), s.regs, t.regs)
    ensures Res(h, e) !in k
    decreases fuel, e, 2
  {
    hide ExprCode, PlainCode, RegsFit, SafeExpr, Eval, Reaches, Evaluated, Ready, CodeAt, PassExpr;
    assert Live(k, h, m.lim);
    hide Live;
    ResFits(h, k, m.lim, e);
    ResLen(h, e);
    if m.fold {
      t := SimExpr(m, frames, h, k, m.lim, e, Res(h, e), fuel, env, s);
    } else {
      t := SimPlain(m, frames, h, k, REG_COUNT, e, fuel, env, s);
    }
  }

  lemma {:induction false} SimResult(m: Image, frames: Frames, h: Held, k: set<nat>, e: Expr, fuel: nat, env: Env,
                                     s: State)
    returns (t: State)
    requires CodeAt(m.ops, s.pc, ResultCode(m.fold, m.ft, frames, h, e))
    requires RegsFit(h, m.lim, e) && SafeExpr(m.ft, frames, h, k, e) && Live(k, h, REG_COUNT)
    requires Ready(frames, env, s)
    requires Eval(m.defs, fuel, env, e).Some?
    ensures Reaches(m.ops, s, t)
    ensures Evaluated(k, s, t, s.pc + ResultLen(m.fold, e), 0, Eval(m.defs, fuel, env, e).value)
    ensures Passed(m, PassExpr(m.defs, fuel, env, Pos(m), e), s.regs, t.regs)
    decreases fuel, e, 3
  {
    hide ExprCode, PlainCode, RegsFit, SafeExpr, Eval, Reaches, Evaluated, Ready, CodeAt, PassExpr;
    if m.fold {
      t := SimExpr(m, frames, h, k, m.lim, e, 0, fuel, env, s);
    } else {
      var move := [MovRR(0, Res(h, e))];
      assert move + [] == move;
      t := PlainMoved(m, frames, h, k, REG_COUNT, e, 0, [], fuel, env, s);
    }
  }

  // ----- statements -----

  /** The machine is where statement code expects it, in a frame of the right size. */
  ghost predicate Here(frames: Frames, pl: Place, env: Env, s: State) {
    && FrameOk(Last(frames)) && Last(frames).used <= pl.size < NO_SLOT
    && Ready(frames, env, s) && |Last(s.frames).locals| == pl.size
    && (pl.inFn ==> s.rets != [])
  }

  /** Only locals of the innermost frame, registers and the pc differ. */
  ghost predicate SameFrame(s: State, t: State) {
    && s.frames != [] && |t.frames| == |s.frames| && t.rets == s.rets
    && Front(t.frames) == Front(s.frames)
    && Last(t.frames).saved == Last(s.frames).saved
    && |Last(t.frames).locals| == |Last(s.frames).locals|
  }

  ghost predicate Intact(names: map<string, Slot>, k: set<nat>, s: State, t: State, env: Env) {
    SameFrame(s, t) && Kept(k, s.regs, t.regs) && Match(names, env, Last(t.frames).locals)
  }

  /** How a statement may end, in step with the interpreter: at its end with the names `after`, at
      the target of a break or continue with the names `before`, or back at the caller. */
  ghost predicate Done(before: map<string, Slot>, after: map<string, Slot>, k: set<nat>, s: State, t: State, out: Out,
                       end: nat, brk: nat, cnt: nat) {
    match out
    case Normal(env) => t.pc == end && Intact(after, k, s, t, env)
    case Broke(env) => t.pc == brk && Intact(before, k, s, t, Restrict(env, before.Keys))
    case Continued(env) => t.pc == cnt && Intact(before, k, s, t, Restrict(env, before.Keys))
    case Returned(v) => RetDone(s, t, v)
  }

  // ----- composing ends of statements -----

  lemma MatchShrink(f: CFrame, g: CFrame, env: Env, locals: seq<int>)
    requires Extends(f, g) && Match(g.locals, Restrict(env, g.locals.Keys), locals)
    ensures Match(f.locals, Restrict(env, f.locals.Keys), locals)
  {
    forall x | x in f.locals
      ensures x in env && Holds(f.locals[x], env[x], locals)
    {
      assert Holds(g.locals[x], Restrict(env, g.locals.Keys)[x], locals);
    }
  }

  lemma RestrictAll(names: map<string, Slot>, env: Env, locals: seq<int>)
    requires Match(names, env, locals)
    ensures Restrict(env, names.Keys) == env
  {
  }

  /** A first part that ended normally, then a second one. */
  lemma DoneSeq(f: CFrame, g: CFrame, after: map<string, Slot>, k: set<nat>, s: State, t: State, u: State, out: Out,
                end: nat, brk: nat, cnt: nat)
    requires Extends(f, g) && SameFrame(s, t) && Kept(k, s.regs, t.regs)
    requires Done(g.locals, after, k, t, u, out, end, brk, cnt)
    ensures Done(f.locals, after, k, s, u, out, end, brk, cnt)
  {
    match out
    case Normal(env) =>
    case Broke(env) => MatchShrink(f, g, env, Last(u.frames).locals);
    case Continued(env) => MatchShrink(f, g, env, Last(u.frames).locals);
    case Returned(_) =>
  }

  /** Leaving a block: what it declared is forgotten. */
  lemma DoneScoped(f: CFrame, g: CFrame, k: set<nat>, s: State, t: State, out: Out, end: nat, brk: nat, cnt: nat)
    requires Extends(f, g) && Done(f.locals, g.locals, k, s, t, out, end, brk, cnt)
    ensures Done(f.locals, f.locals, k, s, t, Scoped(out, f.locals.Keys), end, brk, cnt)
  {
    match out
    case Normal(env) =>
      RestrictAll(g.locals, env, Last(t.frames).locals);
      MatchShrink(f, g, env, Last(t.frames).locals);
    case Broke(env) => RestrictTwice(env, f.locals.Keys);
    case Continued(env) => RestrictTwice(env, f.locals.Keys);
    case Returned(_) =>
  }

  lemma RestrictTwice(env: Env, names: set<string>)
    ensures Restrict(Restrict(env, names), names) == Restrict(env, names)
  {
  }

  lemma DoneNothing(names: map<string, Slot>, k: set<nat>, s: State, env: Env, brk: nat, cnt: nat)
    requires s.frames != [] && Match(names, env, Last(s.frames).locals)
    ensures Done(names, names, k, s, s, Normal(env), s.pc, brk, cnt)
  {
  }

  /** Where the rest of a list would have ended does not matter after a break, continue or return. */
  lemma DoneStop(before: map<string, Slot>, after: map<string, Slot>, other: map<string, Slot>, k: set<nat>, s: State,
                 t: State, out: Out,
                 end: nat, far: nat, brk: nat, cnt: nat)
    requires Done(before, after, k, s, t, out, end, brk, cnt) && !out.Normal?
    ensures Done(before, other, k, s, t, out, far, brk, cnt)
  {
  }

  lemma HereNext(frames: Frames, frames1: Frames, pl: Place, k: set<nat>, env: Env, env1: Env, s: State, t: State,
                 end: nat, brk: nat, cnt: nat)
    requires Here(frames, pl, env, s) && Grown(frames, frames1, pl.size)
    requires Done(Last(frames).locals, Last(frames1).locals, k, s, t, Normal(env1), end, brk, cnt)
    ensures Here(frames1, pl, env1, t) && t.pc == end && SameFrame(s, t) && Kept(k, s.regs, t.regs)
    ensures Extends(Last(frames), Last(frames1))
  {
  }

  // ----- statements, one kind at a time -----

  lemma {:induction false} SimList(m: Image, frames: Frames, h: Held, k: set<nat>, pl: Place, body: List<Stmt>,
                                   brk: nat, cnt: nat,
                                   fuel: nat, env: Env, s: State)
    returns (u: State)
    requires CodeAt(m.ops, s.pc, ListCode(m.fold, m.ft, frames, h, body, s.pc, brk, cnt))
    requires ListFits(m.lim, h, body) && SafeList(m.ft, frames, h, k, pl, body) && Live(k, h, REG_COUNT)
    requires Here(frames, pl, env, s)
    requires ExecList(m.defs, fuel, env, body).Some?
    ensures Reaches(m.ops, s, u)
    ensures Done(Last(frames).locals, Last(FramesAfterList(frames, body)).locals, k, s, u,
                 ExecList(m.defs, fuel, env, body).value, s.pc + ListLen(m.fold, body), brk, cnt)
    ensures Passed(m, PassList(m.defs, fuel, env, Pos(m), body), s.regs, u.regs)
    decreases fuel, body, 0
  {
    hide PassStmt, PassList, Passed, Pos, Then, ListCode, StmtCode, StmtFits, ListFits, SafeStmt, SafeList, Exec,
        ExecList,
         Match, Step, Reaches, Done, Here, SameFrame, Kept, Grown, Extends, CodeAt, StmtLen, ListLen, FramesAfterList,
         FramesAfter, HeldAfter, Live;
    match body
    case Nil =>
      ReachRefl(m.ops, s);
      HereMeans(frames, pl, env, s);
      DoneNothing(Last(frames).locals, k, s, env, brk, cnt);
      PassedNothing(m, s.regs, s.regs);
      NilParts(m, frames, fuel, env);
      u := s;
    case Cons(st, rest) =>
      ConsParts(m, frames, h, k, pl, st, rest, brk, cnt, fuel, env, s.pc);
      ConsRuns(m, frames, st, rest, fuel, env);
      var frames1, h1 := FramesAfter(frames, st), HeldAfter(h, st);
      var n1, end := s.pc + StmtLen(m.fold, st), s.pc + ListLen(m.fold, body);
      HereMeans(frames, pl, env, s);
      FramesGrow(m.ft, frames, h, k, pl, st);
      HeldGrows(h, st);
      LiveGrows(k, h, h1);
      var t := SimStmt(m, frames, h, k, pl, st, brk, cnt, fuel, env, s);
      var out := Exec(m.defs, fuel, env, st).value;
      if out.Normal? {
        HereNext(frames, frames1, pl, k, env, out.env, s, t, n1, brk, cnt);
        u := SimList(m, frames1, h1, k, pl, rest, brk, cnt, fuel, out.env, t);
        ReachTrans(m.ops, s, t, u);
        DoneSeq(Last(frames), Last(frames1), Last(FramesAfterList(frames, body)).locals, k, s, t, u,
                ExecList(m.defs, fuel, out.env, rest).value, end, brk, cnt);
        PassedThen(m, PassStmt(m.defs, fuel, env, Pos(m), st), PassList(m.defs, fuel, out.env, Pos(m), rest), s.regs,
                   t.regs, u.regs);
      } else {
        u := t;
        DoneStop(Last(frames).locals, Last(frames1).locals, Last(FramesAfterList(frames, body)).locals, k, s, t, out,
                 n1, end, brk, cnt);
      }
  }

  lemma NilParts(m: Image, frames: Frames, fuel: nat, env: Env)
    ensures FramesAfterList(frames, Nil) == frames && ListLen(m.fold, Nil) == 0
    ensures ExecList(m.defs, fuel, env, Nil) == Some(Normal(env)) && PassList(m.defs, fuel, env, Pos(m), Nil) == None
  {
  }

  /** The code of a list: its first statement, then the rest. */
  lemma ConsParts(m: Image, frames: Frames, h: Held, k: set<nat>, pl: Place, st: Stmt, rest: List<Stmt>, brk: nat,
                  cnt: nat, fuel: nat, env: Env, n: nat)
    requires CodeAt(m.ops, n, ListCode(m.fold, m.ft, frames, h, Cons(st, rest), n, brk, cnt))
    requires ListFits(m.lim, h, Cons(st, rest)) && SafeList(m.ft, frames, h, k, pl, Cons(st, rest))
    ensures CodeAt(m.ops, n, StmtCode(m.fold, m.ft, frames, h, st, n, brk, cnt))
    ensures var n1 := n + StmtLen(m.fold, st);
            CodeAt(m.ops, n1, ListCode(m.fold, m.ft, FramesAfter(frames, st), HeldAfter(h, st), rest, n1, brk, cnt))
    ensures StmtFits(m.lim, h, st) && SafeStmt(m.ft, frames, h, k, pl, st)
    ensures ListFits(m.lim, HeldAfter(h, st), rest)
    ensures SafeList(m.ft, FramesAfter(frames, st), HeldAfter(h, st), k, pl, rest)
    ensures ListLen(m.fold, Cons(st, rest)) == StmtLen(m.fold, st) + ListLen(m.fold, rest)
    ensures FramesAfterList(frames, Cons(st, rest)) == FramesAfterList(FramesAfter(frames, st), rest)
  {
    hide StmtCode, StmtLen, StmtFits, SafeStmt, FramesAfter, HeldAfter, CodeAt, Linked;
    var n1 := n + StmtLen(m.fold, st);
    CodeAtSplit(m.ops, n, StmtCode(m.fold, m.ft, frames, h, st, n, brk, cnt),
                ListCode(m.fold, m.ft, FramesAfter(frames, st), HeldAfter(h, st), rest, n1, brk, cnt));
  }

  lemma ConsRuns(m: Image, frames: Frames, st: Stmt, rest: List<Stmt>, fuel: nat, env: Env)
    requires ExecList(m.defs, fuel, env, Cons(st, rest)).Some?
    ensures var out, all := Exec(m.defs, fuel, env, st), ExecList(m.defs, fuel, env, Cons(st, rest));
            var passed, any := PassStmt(m.defs, fuel, env, Pos(m), st),
                               PassList(m.defs, fuel, env, Pos(m), Cons(st, rest));
            && out.Some?
            && (out.value.Normal? ==>
                  && all == ExecList(m.defs, fuel, out.value.env, rest)
                  && any == Then(passed, PassList(m.defs, fuel, out.value.env, Pos(m), rest)))
            && (!out.value.Normal? ==> all == out && any == passed)
  {
    hide Exec, PassStmt, Then, Linked, Pos;
  }

  lemma LiveGrows(k: set<nat>, h: Held, h1: Held)
    requires Live(k, h, REG_COUNT) && h <= h1
    ensures Live(k, h1, REG_COUNT)
  {
  }

  lemma HereMeans(frames: Frames, pl: Place, env: Env, s: State)
    requires Here(frames, pl, env, s)
    ensures FrameOk(Last(frames)) && Last(frames).used <= pl.size < NO_SLOT
    ensures s.frames != [] && Match(Last(frames).locals, env, Last(s.frames).locals)
  {
  }

  lemma {:induction false} SimScoped(m: Image, frames: Frames, h: Held, k: set<nat>, pl: Place, body: List<Stmt>,
                                     brk: nat, cnt: nat,
                                     fuel: nat, env: Env, s: State)
    returns (t: State)
    requires CodeAt(m.ops, s.pc, ListCode(m.fold, m.ft, frames, h, body, s.pc, brk, cnt))
    requires ListFits(m.lim, h, body) && SafeList(m.ft, frames, h, k, pl, body) && Live(k, h, REG_COUNT)
    requires Here(frames, pl, env, s)
    requires ExecScoped(m.defs, fuel, env, body).Some?
    ensures Reaches(m.ops, s, t)
    ensures Done(Last(frames).locals, Last(frames).locals, k, s, t,
                 ExecScoped(m.defs, fuel, env, body).value, s.pc + ListLen(m.fold, body), brk, cnt)
    ensures Passed(m, PassList(m.defs, fuel, env, Pos(m), body), s.regs, t.regs)
    decreases fuel, body, 1
  {
    hide PassList, Passed, Pos, ListCode, ListFits, SafeList, ExecList, Step, Reaches;
    t := SimList(m, frames, h, k, pl, body, brk, cnt, fuel, env, s);
    ListGrows(m.ft, frames, h, k, pl, body);
    DoneScoped(Last(frames), Last(FramesAfterList(frames, body)), k, s, t, ExecList(m.defs, fuel, env, body).value,
               s.pc + ListLen(m.fold, body), brk, cnt);
  }

  lemma {:induction false} SimStmt(m: Image, frames: Frames, h: Held, k: set<nat>, pl: Place, st: Stmt, brk: nat,
                                   cnt: nat,
                                   fuel: nat, env: Env, s: State)
    returns (t: State)
    requires CodeAt(m.ops, s.pc, StmtCode(m.fold, m.ft, frames, h, st, s.pc, brk, cnt))
    requires StmtFits(m.lim, h, st) && SafeStmt(m.ft, frames, h, k, pl, st) && Live(k, h, REG_COUNT)
    requires Here(frames, pl, env, s)
    requires Exec(m.defs, fuel, env, st).Some?
    ensures Reaches(m.ops, s, t)
    ensures Done(Last(frames).locals, Last(FramesAfter(frames, st)).locals, k, s, t,
                 Exec(m.defs, fuel, env, st).value, s.pc + StmtLen(m.fold, st), brk, cnt)
    ensures Passed(m, PassStmt(m.defs, fuel, env, Pos(m), st), s.regs, t.regs)
    decreases fuel, st, 3
  {
    hide PassList, PassLoop, PassExpr, Passed, Pos, Then, ListCode, ValueCode, LoopCode, ListFits, SafeList, ExecList,
         ExecLoop, RegsFit, SafeExpr, Eval, Step, Reaches;
    match st
    case Block(body) =>
      t := SimScoped(m, frames, h, k, pl, body, brk, cnt, fuel, env, s);
    case If(c, thn, els) =>
      t := SimIf(m, frames, h, k, pl, c, thn, els, brk, cnt, fuel, env, s);
    case Loop(_, _) =>
      t := SimLoopStmt(m, frames, h, k, pl, st, brk, cnt, fuel, env, s);
    case _ =>
      t := SimSimple(m, frames, h, k, pl, st, brk, cnt, fuel, env, s);
  }

  lemma {:induction false} SimSimple(m: Image, frames: Frames, h: Held, k: set<nat>, pl: Place, st: Stmt, brk: nat,
                                     cnt: nat,
                                     fuel: nat, env: Env, s: State)
    returns (t: State)
    requires st.ExprS? || st.Set? || st.Break? || st.Continue? || st.Return?
    requires CodeAt(m.ops, s.pc, StmtCode(m.fold, m.ft, frames, h, st, s.pc, brk, cnt))
    requires StmtFits(m.lim, h, st) && SafeStmt(m.ft, frames, h, k, pl, st) && Live(k, h, REG_COUNT)
    requires Here(frames, pl, env, s)
    requires Exec(m.defs, fuel, env, st).Some?
    ensures Reaches(m.ops, s, t)
    ensures Done(Last(frames).locals, Last(FramesAfter(frames, st)).locals, k, s, t,
                 Exec(m.defs, fuel, env, st).value, s.pc + StmtLen(m.fold, st), brk, cnt)
    ensures Passed(m, PassStmt(m.defs, fuel, env, Pos(m), st), s.regs, t.regs)
    decreases fuel, st, 0
  {
    hide PassExpr, Passed, Pos, Reaches, Step, CodeAt, Live, Eval, RegsFit, SafeExpr, ValueCode, ResultCode;
    if st.ExprS? {
      t := SimValue(m, frames, h, k, st.e, fuel, env, s);
    } else if st.Set? {
      t := SimSet(m, frames, h, k, pl, st.x, st.e, st.mut, fuel, env, s);
    } else if st.Return? {
      t := SimReturn(m, frames, h, k, st.e, fuel, env, s);
    } else {
      t := SimJump(m, frames, h, k, pl, st, brk, cnt, env, s);
    }
  }

  lemma SimJump(m: Image, frames: Frames, h: Held, k: set<nat>, pl: Place, st: Stmt, brk: nat, cnt: nat, env: Env,
                s: State)
    returns (t: State)
    requires st.Break? || st.Continue?
    requires CodeAt(m.ops, s.pc, StmtCode(m.fold, m.ft, frames, h, st, s.pc, brk, cnt)) && Here(frames, pl, env, s)
    ensures Reaches(m.ops, s, t)
    ensures Done(Last(frames).locals, Last(frames).locals, k, s, t, if st.Break? then Broke(env) else Continued(env),
                 s.pc + 1, brk, cnt)
    ensures Passed(m, None, s.regs, t.regs)
  {
    hide Reaches;
    CodeAtOp(m.ops, s.pc, StmtCode(m.fold, m.ft, frames, h, st, s.pc, brk, cnt), 0);
    ReachStep(m.ops, s);
    RestrictAll(Last(frames).locals, env, Last(s.frames).locals);
    t := Step(m.ops, s).state;
  }

  lemma {:induction false} SimReturn(m: Image, frames: Frames, h: Held, k: set<nat>, e: Expr, fuel: nat, env: Env,
                                     s: State)
    returns (t: State)
    requires CodeAt(m.ops, s.pc, ResultCode(m.fold, m.ft, frames, h, e) + [FRet])
    requires RegsFit(h, m.lim, e) && SafeExpr(m.ft, frames, h, k, e) && Live(k, h, REG_COUNT)
    requires Ready(frames, env, s) && s.rets != []
    requires Eval(m.defs, fuel, env, e).Some?
    ensures Reaches(m.ops, s, t) && RetDone(s, t, Eval(m.defs, fuel, env, e).value)
    ensures Passed(m, PassExpr(m.defs, fuel, env, Pos(m), e), s.regs, t.regs)
    decreases fuel, e, 4
  {
    hide PassExpr, ResultCode, RegsFit, SafeExpr, Eval;
    CodeAtSplit(m.ops, s.pc, ResultCode(m.fold, m.ft, frames, h, e), [FRet]);
    var u := SimResult(m, frames, h, k, e, fuel, env, s);
    CodeAtOp(m.ops, u.pc, [FRet], 0);
    ReachThenStep(m.ops, s, u);
    t := Step(m.ops, u).state;
  }

  lemma {:induction false} SimSet(m: Image, frames: Frames, h: Held, k: set<nat>, pl: Place, x: string, e: Expr,
                                  mut: bool,
                                  fuel: nat, env: Env, s: State)
    returns (t: State)
    requires CodeAt(m.ops, s.pc, StmtCode(m.fold, m.ft, frames, h, Set(x, e, mut), s.pc, 0, 0))
    requires RegsFit(h, m.lim, e) && SafeSet(frames, pl.size, x) && SafeExpr(m.ft, frames, h, k, e)
             && Live(k, h, REG_COUNT)
    requires Here(frames, pl, env, s)
    requires Exec(m.defs, fuel, env, Set(x, e, mut)).Some?
    ensures Reaches(m.ops, s, t) && t.pc == s.pc + StmtLen(m.fold, Set(x, e, mut))
    ensures Intact(Last(SetFrames(frames, x, mut)).locals, k, s, t, Exec(m.defs, fuel, env, Set(x, e, mut)).value.env)
    ensures Passed(m, PassExpr(m.defs, fuel, env, Pos(m), e), s.regs, t.regs)
    decreases fuel, e, 3
  {
    hide PassExpr, Passed, Pos, ValueCode, ValueLen, SafeExpr;
    var r := Res(h, e);
    var store := [LocalSet(SetDepth(frames, x), SetSlot(frames, x), r)];
    CodeAtSplit(m.ops, s.pc, ValueCode(m.fold, m.ft, frames, h, e), store);
    var u := SimValue(m, frames, h, k, e, fuel, env, s);
    CodeAtOp(m.ops, u.pc, store, 0);
    t := Store(m.ops, frames, pl, x, mut, r, Eval(m.defs, fuel, env, e).value, env, u);
    ReachThenStep(m.ops, s, u);
  }

  /** LOCAL_SET into the slot of the variable, new or old. */
  lemma Store(p: seq<Op>, frames: Frames, pl: Place, x: string, mut: bool, r: nat, v: Value, env: Env, s: State)
    returns (t: State)
    requires SafeSet(frames, pl.size, x) && Here(frames, pl, env, s)
    requires s.pc < |p| && p[s.pc] == LocalSet(SetDepth(frames, x), SetSlot(frames, x), r)
    requires r < REG_COUNT && Rep(v, s.regs[r]) && (x in env ==> env[x].mut)
    ensures Step(p, s) == Next(t) && t.pc == s.pc + 1 && t.regs == s.regs && SameFrame(s, t)
    ensures Match(Last(SetFrames(frames, x, mut)).locals, env[x := Binding(if x in env then true else mut, v)],
                  Last(t.frames).locals)
  {
    SetGrows(frames, pl.size, x, mut);
    var f, locals := Last(frames), Last(s.frames).locals;
    if Lookup(frames, x).Some? {
      assert x in f.locals && FindVar(frames, x).value.depth == 0;
      assert Holds(f.locals[x], env[x], locals);
      MatchUpdate(f, x, v, s.regs[r], env, locals);
    } else {
      MatchDeclare(f, x, mut, v, s.regs[r], env, locals);
    }
    t := WriteLocal(s, 0, SetSlot(frames, x), s.regs[r]);
  }

  lemma MatchUpdate(f: CFrame, x: string, v: Value, w: int, env: Env, locals: seq<int>)
    requires FrameOk(f) && Match(f.locals, env, locals) && x in f.locals && env[x].mut && Rep(v, w)
    requires f.locals[x].idx < |locals|
    ensures Match(f.locals, env[x := Binding(true, v)], locals[f.locals[x].idx := w])
  {
    forall y | y in f.locals
      ensures Holds(f.locals[y], env[x := Binding(true, v)][y], locals[f.locals[x].idx := w])
    {
      assert Holds(f.locals[y], env[y], locals);
    }
  }

  lemma MatchDeclare(f: CFrame, x: string, mut: bool, v: Value, w: int, env: Env, locals: seq<int>)
    requires FrameOk(f) && Match(f.locals, env, locals) && x !in f.locals && f.used < |locals| && f.used < NO_SLOT
             && Rep(v, w)
    ensures Match(NewVar(f, x, mut).locals, env[x := Binding(mut, v)], locals[f.used := w])
  {
    var names := NewVar(f, x, mut).locals;
    forall y | y in names
      ensures Holds(names[y], env[x := Binding(mut, v)][y], locals[f.used := w])
    {
      if y != x {
        assert Holds(f.locals[y], env[y], locals);
      }
    }
  }

  // ----- if -----

  lemma IfParts(fold: bool, p: seq<Op>, ft: Funcs, frames: Frames, h: Held, c: Expr, thn: List<Stmt>, els: List<Stmt>,
                n: nat, brk: nat, cnt: nat)
    requires CodeAt(p, n, StmtCode(fold, ft, frames, h, If(c, thn, els), n, brk, cnt))
    ensures CodeAt(p, n, ValueCode(fold, ft, frames, h, c))
    ensures CodeAt(p, ThenAt(fold, c, n) - 2, [IfTrue(Res(h, c), ThenAt(fold, c, n)), Jmp(ElseAt(fold, c, thn, n))])
    ensures CodeAt(p, ThenAt(fold, c, n), ListCode(fold, ft, frames, Hold(h, Res(h, c)), thn, ThenAt(fold, c, n), brk,
            cnt))
    ensures CodeAt(p, ElseAt(fold, c, thn, n) - 1, [Jmp(ElseAt(fold, c, thn, n) + ListLen(fold, els))])
    ensures CodeAt(p, ElseAt(fold, c, thn, n), ListCode(fold, ft, FramesAfterBlock(frames, thn),
            HeldAfterList(Hold(h, Res(h, c)), thn), els,
                                                  ElseAt(fold, c, thn, n), brk, cnt))
  {
    hide ListCode, ValueCode, FramesAfterBlock, HeldAfterList, ListLen, ValueLen, Res, CodeAt, Hold;
    var r := Res(h, c);
    var cc := ValueCode(fold, ft, frames, h, c);
    var test := [IfTrue(r, ThenAt(fold, c, n)), Jmp(ElseAt(fold, c, thn, n))];
    var tc := ListCode(fold, ft, frames, Hold(h, r), thn, ThenAt(fold, c, n), brk, cnt);
    var skip := [Jmp(ElseAt(fold, c, thn, n) + ListLen(fold, els))];
    var ec := ListCode(fold, ft, FramesAfterBlock(frames, thn), HeldAfterList(Hold(h, r), thn), els,
                       ElseAt(fold, c, thn, n), brk, cnt);
    assert ThenAt(fold, c, n) == n + |cc| + |test|;
    assert ElseAt(fold, c, thn, n) == n + |cc| + |test| + |tc| + |skip|;
    CodeAtSplit5(p, n, cc, test, tc, skip, ec);
  }

  /** The condition has been evaluated and tested. */
  lemma TakeBranch(p: seq<Op>, k: set<nat>, s: State, u: State, r: nat, v: Value, then_: nat, else_: nat)
    returns (b: State)
    requires Reaches(p, s, u) && Evaluated(k, s, u, u.pc, r, v)
    requires CodeAt(p, u.pc, [IfTrue(r, then_), Jmp(else_)])
    ensures b == u.(pc := if Truth(v) then then_ else else_)
    ensures Reaches(p, s, b)
  {
    CodeAtOp(p, u.pc, [IfTrue(r, then_), Jmp(else_)], 0);
    CodeAtOp(p, u.pc, [IfTrue(r, then_), Jmp(else_)], 1);
    TruthOfRep(v, u.regs[r]);
    ReachThenStep(p, s, u);
    var w := Step(p, u).state;
    if Truth(v) {
      b := w;
    } else {
      ReachThenStep(p, s, w);
      b := Step(p, w).state;
    }
  }

  lemma {:induction false} SimIf(m: Image, frames: Frames, h: Held, k: set<nat>, pl: Place, c: Expr, thn: List<Stmt>,
                                 els: List<Stmt>,
                                 brk: nat, cnt: nat, fuel: nat, env: Env, s: State)
    returns (t: State)
    requires CodeAt(m.ops, s.pc, StmtCode(m.fold, m.ft, frames, h, If(c, thn, els), s.pc, brk, cnt))
    requires StmtFits(m.lim, h, If(c, thn, els)) && SafeStmt(m.ft, frames, h, k, pl, If(c, thn, els))
             && Live(k, h, REG_COUNT)
    requires Here(frames, pl, env, s)
    requires Exec(m.defs, fuel, env, If(c, thn, els)).Some?
    ensures Reaches(m.ops, s, t)
    ensures Done(Last(frames).locals, Last(frames).locals, k, s, t,
                 Exec(m.defs, fuel, env, If(c, thn, els)).value, s.pc + StmtLen(m.fold, If(c, thn, els)), brk, cnt)
    ensures Passed(m, PassStmt(m.defs, fuel, env, Pos(m), If(c, thn, els)), s.regs, t.regs)
    decreases fuel, If(c, thn, els), 0
  {
    hide PassExpr, PassList, Passed, Pos, Then, ListCode, StmtCode, ValueCode, ListFits, SafeList, ExecScoped, RegsFit,
         SafeExpr, Eval, Step, Reaches, Here, SameFrame, Done, Live, Kept, CodeAt, Res, Hold, HeldAfterList,
         FramesAfterBlock;
    var r := Res(h, c);
    var end := s.pc + StmtLen(m.fold, If(c, thn, els));
    IfParts(m.fold, m.ops, m.ft, frames, h, c, thn, els, s.pc, brk, cnt);
    HereReady(frames, pl, env, s);
    var b := SimCond(m, frames, h, k, c, ElseAt(m.fold, c, thn, s.pc), fuel, env, s);
    SameHere(frames, pl, env, s, b);
    if Truth(Eval(m.defs, fuel, env, c).value) {
      t := SimThen(m, frames, Hold(h, r), k, pl, thn, end, brk, cnt, fuel, env, s, b);
    } else {
      t := SimElse(m, frames, Hold(h, r), k, pl, thn, els, brk, cnt, fuel, env, s, b);
    }
    PassedThen(m, PassExpr(m.defs, fuel, env, Pos(m), c),
               PassList(m.defs, fuel, env, Pos(m), if Truth(Eval(m.defs, fuel, env, c).value) then thn else els),
               s.regs, b.regs, t.regs);
  }

  lemma HereReady(frames: Frames, pl: Place, env: Env, s: State)
    requires Here(frames, pl, env, s)
    ensures Ready(frames, env, s)
  {
  }

  lemma SameHere(frames: Frames, pl: Place, env: Env, s: State, t: State)
    requires Here(frames, pl, env, s) && t.frames == s.frames && t.rets == s.rets
    ensures Here(frames, pl, env, t) && SameFrame(s, t)
  {
    hide Match, FrameOk;
  }

  lemma {:induction false} SimCond(m: Image, frames: Frames, h: Held, k: set<nat>, c: Expr, elseAt: nat,
                                   fuel: nat, env: Env, s: State)
    returns (b: State)
    requires CodeAt(m.ops, s.pc, ValueCode(m.fold, m.ft, frames, h, c))
    requires RegsFit(h, m.lim, c) && SafeExpr(m.ft, frames, h, k, c) && Live(k, h, REG_COUNT)
    requires Ready(frames, env, s) && Eval(m.defs, fuel, env, c).Some?
    requires CodeAt(m.ops, ThenAt(m.fold, c, s.pc) - 2, [IfTrue(Res(h, c), ThenAt(m.fold, c, s.pc)), Jmp(elseAt)])
    ensures Reaches(m.ops, s, b)
    ensures b.pc == if Truth(Eval(m.defs, fuel, env, c).value) then ThenAt(m.fold, c, s.pc) else elseAt
    ensures b.frames == s.frames && b.rets == s.rets && Kept(k, s.regs, b.regs)
    ensures Live(k, Hold(h, Res(h, c)), REG_COUNT)
    ensures Passed(m, PassExpr(m.defs, fuel, env, Pos(m), c), s.regs, b.regs)
    decreases fuel, c, 3
  {
    hide PassExpr, Passed, Pos, ValueCode, RegsFit, SafeExpr, Eval, Ready, Reaches, CodeAt, Step;
    ResFresh(h, c);
    var u := SimValue(m, frames, h, k, c, fuel, env, s);
    b := TakeBranch(m.ops, k, s, u, Res(h, c), Eval(m.defs, fuel, env, c).value, ThenAt(m.fold, c, s.pc), elseAt);
  }

  lemma {:induction false} SimThen(m: Image, frames: Frames, h: Held, k: set<nat>, pl: Place, thn: List<Stmt>,
                                   end: nat, brk: nat, cnt: nat, fuel: nat, env: Env, s: State, b: State)
    returns (t: State)
    requires CodeAt(m.ops, b.pc, ListCode(m.fold, m.ft, frames, h, thn, b.pc, brk, cnt))
    requires CodeAt(m.ops, b.pc + ListLen(m.fold, thn), [Jmp(end)])
    requires ListFits(m.lim, h, thn) && SafeList(m.ft, frames, h, k, pl, thn) && Live(k, h, REG_COUNT)
    requires Here(frames, pl, env, b) && Reaches(m.ops, s, b) && SameFrame(s, b) && Kept(k, s.regs, b.regs)
    requires ExecScoped(m.defs, fuel, env, thn).Some?
    ensures Reaches(m.ops, s, t)
    ensures Done(Last(frames).locals, Last(frames).locals, k, s, t, ExecScoped(m.defs, fuel, env, thn).value, end, brk,
                 cnt)
    ensures Passed(m, PassList(m.defs, fuel, env, Pos(m), thn), b.regs, t.regs)
    decreases fuel, thn, 2
  {
    hide PassList, Passed, Pos, ListCode, StmtCode, ValueCode, ListFits, SafeList, ExecList;
    t := SimScoped(m, frames, h, k, pl, thn, brk, cnt, fuel, env, b);
    if ExecScoped(m.defs, fuel, env, thn).value.Normal? {
      CodeAtOp(m.ops, t.pc, [Jmp(end)], 0);
      ReachThenStep(m.ops, b, t);
      t := t.(pc := end);
    }
    ReachTrans(m.ops, s, b, t);
    DoneSeq(Last(frames), Last(frames), Last(frames).locals, k, s, b, t, ExecScoped(m.defs, fuel, env, thn).value, end,
            brk, cnt);
  }

  lemma {:induction false} SimElse(m: Image, frames: Frames, h: Held, k: set<nat>, pl: Place, thn: List<Stmt>,
                                   els: List<Stmt>,
                                   brk: nat, cnt: nat, fuel: nat, env: Env, s: State, b: State)
    returns (t: State)
    requires CodeAt(m.ops, b.pc, ListCode(m.fold, m.ft, FramesAfterBlock(frames, thn), HeldAfterList(h, thn), els,
                                          b.pc, brk, cnt))
    requires ListFits(m.lim, h, thn) && SafeList(m.ft, frames, h, k, pl, thn) && Live(k, h, REG_COUNT)
    requires ListFits(m.lim, HeldAfterList(h, thn), els)
    requires SafeList(m.ft, FramesAfterBlock(frames, thn), HeldAfterList(h, thn), k, pl, els)
    requires Here(frames, pl, env, b) && Reaches(m.ops, s, b) && SameFrame(s, b) && Kept(k, s.regs, b.regs)
    requires ExecScoped(m.defs, fuel, env, els).Some?
    ensures Reaches(m.ops, s, t)
    ensures Done(Last(frames).locals, Last(frames).locals, k, s, t, ExecScoped(m.defs, fuel, env, els).value,
                 b.pc + ListLen(m.fold, els), brk, cnt)
    ensures Passed(m, PassList(m.defs, fuel, env, Pos(m), els), b.regs, t.regs)
    decreases fuel, els, 2
  {
    hide PassList, Passed, Pos, ListCode, StmtCode, ValueCode, ListFits, SafeList, ExecList;
    BlockGrows(m.ft, frames, h, k, pl, thn);
    HeldGrowsList(h, thn);
    t := SimScoped(m, FramesAfterBlock(frames, thn), HeldAfterList(h, thn), k, pl, els, brk, cnt, fuel, env, b);
    ReachTrans(m.ops, s, b, t);
    DoneSeq(Last(frames), Last(frames), Last(frames).locals, k, s, b, t, ExecScoped(m.defs, fuel, env, els).value,
            b.pc + ListLen(m.fold, els), brk, cnt);
  }

  // ----- loops -----

  lemma LoopParts(fold: bool, p: seq<Op>, ft: Funcs, frames: Frames, h: Held, r: Option<nat>, body: List<Stmt>,
                  start: nat)
    requires CodeAt(p, start, LoopCode(fold, ft, frames, h, r, body, start))
    ensures LoopEnd(fold, r, body, start) <= |p|
    ensures r.Some? ==> p[start] == IfFalse(r.value, LoopEnd(fold, r, body, start))
    ensures CodeAt(p, start + Counted(r), ListCode(fold, ft, frames, h, body, start + Counted(r),
            LoopEnd(fold, r, body, start),
                                                   LoopEnd(fold, r, body, start) - 1 - Counted(r)))
    ensures r.Some? ==> p[LoopEnd(fold, r, body, start) - 2] == Dec(r.value)
    ensures p[LoopEnd(fold, r, body, start) - 1] == Jmp(start)
  {
    hide ListCode;
    var end := LoopEnd(fold, r, body, start);
    var test := if r.Some? then [IfFalse(r.value, end)] else [];
    var bc := ListCode(fold, ft, frames, h, body, start + Counted(r), end, end - 1 - Counted(r));
    CodeAtSplit(p, start, test + bc, LoopTail(r, start));
    CodeAtSplit(p, start, test, bc);
    CodeAtOp(p, end - 1 - Counted(r), LoopTail(r, start), Counted(r));
    if r.Some? {
      CodeAtOp(p, start, test, 0);
      CodeAtOp(p, end - 2, LoopTail(r, start), 0);
    }
  }

  /** The counter register agrees with the rounds left, as far as the machine looks at it. */
  ghost predicate CounterIs(r: Option<nat>, left: Option<nat>, regs: Regs) {
    && r.Some? == left.Some?
    && (r.Some? ==> r.value < REG_COUNT && LowByte(regs[r.value]) == left.value)
  }

  /** The end of a round: decrement if there is a counter, jump back. */
  lemma NextRound(p: seq<Op>, k: set<nat>, r: Option<nat>, left: Option<nat>, s: State, start: nat)
    returns (t: State)
    requires s.pc + Counted(r) < |p| && p[s.pc + Counted(r)] == Jmp(start)
    requires CounterIs(r, left, s.regs)
    requires r.Some? ==> p[s.pc] == Dec(r.value) && r.value !in k && left.value > 0
    ensures Reaches(p, s, t)
    ensures t.pc == start && t.frames == s.frames && t.rets == s.rets && Kept(k, s.regs, t.regs)
    ensures CounterIs(r, if left.Some? then Some(left.value - 1) else None, t.regs)
    ensures forall i :: 0 <= i < REG_COUNT && r != Some(i) ==> t.regs[i] == s.regs[i]
    ensures Step(p, s).Next? && Reaches(p, Step(p, s).state, t)
  {
    ReachRefl(p, s);
    var u := s;
    if r.Some? {
      LowByteDec(s.regs[r.value]);
      ReachStep(p, s);
      u := Step(p, s).state;
    }
    ReachThenStep(p, s, u);
    t := Step(p, u).state;
    ReachRefl(p, t);
    ReachStep(p, u);
  }

  lemma LowByteDec(w: int)
    requires LowByte(w) > 0
    ensures LowByte(w - 1) == LowByte(w) - 1 && w != -I64_BOUND
  {
  }

  ghost predicate LoopReady(frames: Frames, h: Held, k: set<nat>, pl: Place, r: Option<nat>, left: Option<nat>,
                            env: Env, s: State) {
    && Here(frames, pl, env, s) && Live(k, h, REG_COUNT) && CounterIs(r, left, s.regs)
    && (r.Some? ==> r.value in h && r.value > 0 && r.value !in k)
  }

  function WithCounter(k: set<nat>, r: Option<nat>): set<nat> {
    if r.Some? then k + {r.value} else k
  }

  /** No rounds left: the test jumps to the end. */
  lemma ExitLoop(p: seq<Op>, frames: Frames, h: Held, k: set<nat>, pl: Place, r: Option<nat>, env: Env, s: State,
                 end: nat, brk: nat, cnt: nat)
    returns (u: State)
    requires r.Some? && s.pc < |p| && p[s.pc] == IfFalse(r.value, end)
    requires LoopReady(frames, h, k, pl, r, Some(0), env, s)
    ensures Reaches(p, s, u)
    ensures Done(Last(frames).locals, Last(frames).locals, k, s, u, Normal(env), end, brk, cnt) && u.regs == s.regs
  {
    hide Reaches, Match;
    ReachStep(p, s);
    u := Step(p, s).state;
  }

  /** The machine runs the body exactly as often as the interpreter: the counter register survives
      the body, DEC lowers its low byte, and IF_FALSE looks at nothing else. */
  lemma {:induction false} SimLoop(m: Image, frames: Frames, h: Held, k: set<nat>, pl: Place, r: Option<nat>,
                                   left: Option<nat>,
                                   body: List<Stmt>, brk: nat, cnt: nat, fuel: nat, env: Env, s: State)
    returns (u: State)
    requires CodeAt(m.ops, s.pc, LoopCode(m.fold, m.ft, frames, h, r, body, s.pc))
    requires ListFits(m.lim, h, body) && SafeList(m.ft, frames, h, WithCounter(k, r), pl.(inLoop := true), body)
    requires LoopReady(frames, h, k, pl, r, left, env, s) && r != Some(m.lim)
    requires ExecLoop(m.defs, fuel, env, left, body).Some?
    ensures Reaches(m.ops, s, u)
    ensures Done(Last(frames).locals, Last(frames).locals, k, s, u, ExecLoop(m.defs, fuel, env, left, body).value,
                 LoopEnd(m.fold, r, body, s.pc), brk, cnt)
    ensures Passed(m, PassLoop(m.defs, fuel, env, Pos(m), left, body), s.regs, u.regs)
    decreases fuel, body, 3
  {
    hide PassList, Passed, Pos, Then, ListCode, ListFits, SafeList, ExecScoped, LoopCode, Step, Reaches, LoopReady,
         SameFrame, Kept, Done, CodeAt, ListLen, Restrict;
    LoopHas(frames, h, k, pl, r, left, env, s);
    if left == Some(0) {
      LoopParts(m.fold, m.ops, m.ft, frames, h, r, body, s.pc);
      u := ExitLoop(m.ops, frames, h, k, pl, r, env, s, LoopEnd(m.fold, r, body, s.pc), brk, cnt);
      PassedNothing(m, s.regs, u.regs);
    } else {
      var t := SimRound(m, frames, h, k, pl, r, left, body, fuel, env, s);
      var out := ExecScoped(m.defs, fuel, env, body).value;
      ScopedKeys(m.defs, fuel, env, body);
      if out.Normal? || out.Continued? {
        var less := if left.Some? then Some(left.value - 1) else None;
        var pb := PassList(m.defs, fuel, env, Pos(m), body);
        var w := RoundOver(m, frames, h, k, pl, r, left, body, env, out, pb, s, t);
        u := SimLoop(m, frames, h, k, pl, r, less, body, brk, cnt, fuel - 1, out.env, w);
        ReachTrans(m.ops, s, w, u);
        DoneSeq(Last(frames), Last(frames), Last(frames).locals, k, s, w, u,
                ExecLoop(m.defs, fuel - 1, out.env, less, body).value,
                LoopEnd(m.fold, r, body, s.pc), brk, cnt);
        PassedThen(m, pb, PassLoop(m.defs, fuel - 1, out.env, Pos(m), less, body), s.regs, w.regs, u.regs);
      } else {
        u := t;
        EarlyOut(frames, k, r, s, t, out, LoopEnd(m.fold, r, body, s.pc) - 1 - Counted(r),
                 LoopEnd(m.fold, r, body, s.pc),
                 brk, cnt);
      }
    }
  }

  lemma LoopHas(frames: Frames, h: Held, k: set<nat>, pl: Place, r: Option<nat>, left: Option<nat>, env: Env, s: State)
    requires LoopReady(frames, h, k, pl, r, left, env, s)
    ensures r.Some? == left.Some? && env.Keys == Last(frames).locals.Keys
  {
  }

  /** What a block hands on has no names but those from before it. */
  lemma ScopedKeys(defs: Defs, fuel: nat, env: Env, body: List<Stmt>)
    requires ExecScoped(defs, fuel, env, body).Some?
    ensures var out := ExecScoped(defs, fuel, env, body).value;
            !out.Returned? ==> Restrict(out.env, env.Keys) == out.env
  {
    hide ExecList;
    var out := ExecList(defs, fuel, env, body).value;
    if !out.Returned? {
      RestrictTwice(out.env, env.Keys);
    }
  }

  /** A break ends the loop, a return the function. */
  lemma EarlyOut(frames: Frames, k: set<nat>, r: Option<nat>, s: State, t: State, out: Out, cnt0: nat, end: nat,
                 brk: nat, cnt: nat)
    requires Done(Last(frames).locals, Last(frames).locals, WithCounter(k, r), s, t, out, cnt0, end, cnt0)
    requires out.Broke? || out.Returned?
    requires out.Broke? ==> Restrict(out.env, Last(frames).locals.Keys) == out.env
    ensures Done(Last(frames).locals, Last(frames).locals, k, s, t, if out.Broke? then Normal(out.env) else out, end,
                 brk, cnt)
  {
  }

  /** From the end of a round, or from a continue in it, to the test of the next. */
  lemma RoundOver(m: Image, frames: Frames, h: Held, k: set<nat>, pl: Place, r: Option<nat>, left: Option<nat>,
                  body: List<Stmt>, env: Env, out: Out, p: Option<Value>, s: State, t: State)
    returns (w: State)
    requires CodeAt(m.ops, s.pc, LoopCode(m.fold, m.ft, frames, h, r, body, s.pc))
    requires LoopReady(frames, h, k, pl, r, left, env, s) && left != Some(0) && r != Some(m.lim)
    requires out.Normal? || out.Continued?
    requires Restrict(out.env, env.Keys) == out.env
    requires var end := LoopEnd(m.fold, r, body, s.pc);
             Done(Last(frames).locals, Last(frames).locals, WithCounter(k, r), s, t, out, end - 1 - Counted(r), end,
                  end - 1 - Counted(r))
    requires Reaches(m.ops, s, t) && Passed(m, p, s.regs, t.regs)
    ensures Reaches(m.ops, s, w) && w.pc == s.pc && SameFrame(s, w) && Kept(k, s.regs, w.regs)
    ensures LoopReady(frames, h, k, pl, r, if left.Some? then Some(left.value - 1) else None, out.env, w)
    ensures Passed(m, p, s.regs, w.regs)
  {
    hide ListCode, LoopCode, Step, Reaches, Passed, Rep;
    LoopParts(m.fold, m.ops, m.ft, frames, h, r, body, s.pc);
    w := NextRound(m.ops, k, r, left, t, s.pc);
    ReachTrans(m.ops, s, t, w);
    PassedOn(m, p, s.regs, t.regs, w.regs);
  }

  /** One round: past the test and through the body. */
  lemma {:induction false} SimRound(m: Image, frames: Frames, h: Held, k: set<nat>, pl: Place, r: Option<nat>,
                                    left: Option<nat>,
                                    body: List<Stmt>, fuel: nat, env: Env, s: State)
    returns (t: State)
    requires CodeAt(m.ops, s.pc, LoopCode(m.fold, m.ft, frames, h, r, body, s.pc))
    requires ListFits(m.lim, h, body) && SafeList(m.ft, frames, h, WithCounter(k, r), pl.(inLoop := true), body)
    requires LoopReady(frames, h, k, pl, r, left, env, s) && left != Some(0)
    requires ExecScoped(m.defs, fuel, env, body).Some?
    ensures Reaches(m.ops, s, t)
    ensures Done(Last(frames).locals, Last(frames).locals, WithCounter(k, r), s, t,
                 ExecScoped(m.defs, fuel, env, body).value,
                 LoopEnd(m.fold, r, body, s.pc) - 1 - Counted(r), LoopEnd(m.fold, r, body, s.pc),
                     LoopEnd(m.fold, r, body, s.pc) - 1 - Counted(r))
    ensures Passed(m, PassList(m.defs, fuel, env, Pos(m), body), s.regs, t.regs)
    decreases fuel, body, 2
  {
    hide PassList, Passed, Pos, ListCode, ListFits, SafeList, ExecScoped, LoopCode, Step, Reaches, LoopReady, Here,
        Live,
         CounterIs, Kept, SameFrame, Done, CodeAt;
    LoopParts(m.fold, m.ops, m.ft, frames, h, r, body, s.pc);
    var b := PastTest(m.ops, frames, h, k, pl, r, left, env, s, LoopEnd(m.fold, r, body, s.pc));
    t := SimScoped(m, frames, h, WithCounter(k, r), pl.(inLoop := true), body, LoopEnd(m.fold, r, body, s.pc),
                   LoopEnd(m.fold, r, body, s.pc) - 1 - Counted(r), fuel, env, b);
    ReachTrans(m.ops, s, b, t);
    DoneFrom(Last(frames).locals, WithCounter(k, r), s, b, t, ExecScoped(m.defs, fuel, env, body).value,
             LoopEnd(m.fold, r, body, s.pc) - 1 - Counted(r), LoopEnd(m.fold, r, body, s.pc));
  }

  /** Rounds are left: past the test, if there is one. */
  lemma PastTest(p: seq<Op>, frames: Frames, h: Held, k: set<nat>, pl: Place, r: Option<nat>, left: Option<nat>,
                 env: Env, s: State, end: nat)
    returns (b: State)
    requires LoopReady(frames, h, k, pl, r, left, env, s) && left != Some(0)
    requires r.Some? ==> s.pc < |p| && p[s.pc] == IfFalse(r.value, end)
    ensures b == s.(pc := s.pc + Counted(r)) && Reaches(p, s, b)
    ensures Here(frames, pl.(inLoop := true), env, b) && Live(WithCounter(k, r), h, REG_COUNT)
  {
    hide Reaches, Match, FrameOk;
    ReachRefl(p, s);
    b := s;
    if r.Some? {
      ReachStep(p, s);
      b := Step(p, s).state;
    }
  }

  lemma DoneFrom(names: map<string, Slot>, k: set<nat>, s: State, b: State, t: State, out: Out, cnt: nat, end: nat)
    requires Done(names, names, k, b, t, out, cnt, end, cnt)
    requires b.frames == s.frames && b.rets == s.rets && b.regs == s.regs
    ensures Done(names, names, k, s, t, out, cnt, end, cnt)
  {
  }

  lemma {:induction false} SimLoopStmt(m: Image, frames: Frames, h: Held, k: set<nat>, pl: Place, st: Stmt,
                                       brk: nat, cnt: nat, fuel: nat, env: Env, s: State)
    returns (t: State)
    requires st.Loop?
    requires CodeAt(m.ops, s.pc, StmtCode(m.fold, m.ft, frames, h, st, s.pc, brk, cnt))
    requires StmtFits(m.lim, h, st) && SafeStmt(m.ft, frames, h, k, pl, st) && Live(k, h, REG_COUNT)
    requires Here(frames, pl, env, s)
    requires Exec(m.defs, fuel, env, st).Some?
    ensures Reaches(m.ops, s, t)
    ensures Done(Last(frames).locals, Last(frames).locals, k, s, t,
                 Exec(m.defs, fuel, env, st).value, s.pc + StmtLen(m.fold, st), brk, cnt)
    ensures Passed(m, PassStmt(m.defs, fuel, env, Pos(m), st), s.regs, t.regs)
    decreases fuel, st, 2
  {
    hide PassExpr, PassLoop, Passed, Pos, Then, ListCode, ValueCode, LoopCode, ListFits, SafeList, ExecList, ExecLoop,
         RegsFit, SafeExpr, Eval, Step, Reaches, Done, Here, Live, Linked;
    match st
    case Loop(None, body) =>
      t := SimLoop(m, frames, h, k, pl, None, None, body, brk, cnt, fuel, env, s);
    case Loop(Some(c), body) =>
      t := SimCounted(m, frames, h, k, pl, c, body, brk, cnt, fuel, env, s);
  }

  lemma {:induction false} SimCounted(m: Image, frames: Frames, h: Held, k: set<nat>, pl: Place, c: Expr,
                                      body: List<Stmt>,
                                      brk: nat, cnt: nat, fuel: nat, env: Env, s: State)
    returns (t: State)
    requires CodeAt(m.ops, s.pc, ValueCode(m.fold, m.ft, frames, h, c)
                                 + LoopCode(m.fold, m.ft, frames, Hold(h, Res(h, c)), Some(Res(h, c)), body,
                                            s.pc + ValueLen(m.fold, c)))
    requires !c.Call? && RegsFit(h, m.lim, c) && SafeExpr(m.ft, frames, h, k, c) && Live(k, h, REG_COUNT)
    requires ListFits(m.lim, Hold(h, Res(h, c)), body)
    requires SafeList(m.ft, frames, Hold(h, Res(h, c)), k + {Res(h, c)}, pl.(inLoop := true), body)
    requires Here(frames, pl, env, s)
    requires Eval(m.defs, fuel, env, c).Some? && ExecLoop(m.defs, fuel, env,
             Some(Low(Eval(m.defs, fuel, env, c).value)), body).Some?
    ensures Reaches(m.ops, s, t)
    ensures Done(Last(frames).locals, Last(frames).locals, k, s, t,
                 ExecLoop(m.defs, fuel, env, Some(Low(Eval(m.defs, fuel, env, c).value)), body).value,
                 s.pc + ValueLen(m.fold, c) + ListLen(m.fold, body) + 3, brk, cnt)
    ensures Passed(m, Then(PassExpr(m.defs, fuel, env, Pos(m), c),
                           PassLoop(m.defs, fuel, env, Pos(m), Some(Low(Eval(m.defs, fuel, env, c).value)), body)),
                               s.regs, t.regs)
    decreases fuel, Loop(Some(c), body), 1
  {
    hide PassExpr, PassLoop, Passed, Pos, Then, ListCode, StmtCode, ValueCode, ListFits, SafeList, ExecList, LoopCode,
         Eval, SafeExpr, Step, Reaches;
    var r, v := Res(h, c), Eval(m.defs, fuel, env, c).value;
    ResLen(h, c);
    ResFresh(h, c);
    CodeAtSplit(m.ops, s.pc, ValueCode(m.fold, m.ft, frames, h, c),
                LoopCode(m.fold, m.ft, frames, Hold(h, r), Some(r), body, s.pc + ValueLen(m.fold, c)));
    var u := SimValue(m, frames, h, k, c, fuel, env, s);
    assert u.pc == s.pc + ValueLen(m.fold, c);
    TruthOfRep(v, u.regs[r]);
    t := SimLoop(m, frames, Hold(h, r), k, pl, Some(r), Some(Low(v)), body, brk, cnt, fuel, env, u);
    ReachTrans(m.ops, s, u, t);
    DoneSeq(Last(frames), Last(frames), Last(frames).locals, k, s, u, t,
            ExecLoop(m.defs, fuel, env, Some(Low(v)), body).value,
            s.pc + ValueLen(m.fold, c) + ListLen(m.fold, body) + 3, brk, cnt);
    PassedThen(m, PassExpr(m.defs, fuel, env, Pos(m), c), PassLoop(m.defs, fuel, env, Pos(m), Some(Low(v)), body),
               s.regs, u.regs, t.regs);
  }
}
