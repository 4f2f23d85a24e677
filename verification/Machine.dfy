/** The virtual machine as a step relation over structured instructions. */
module Machine {
  import opened Words

  const REG_COUNT: nat := 255
  const ARG_REG: nat := 254
  const GLOBAL_SLOTS: nat := 64

  datatype Op =
    | MovRI(dst: nat, imm: int)
    | MovRR(dst: nat, src: nat)
    | Alu(op: Oper, dst: nat, a: nat, b: nat)
    | Halt
    | FCall(target: nat, argc: nat)
    | FRet
    | Jmp(target: nat)
    | IfTrue(cond: nat, target: nat)
    | IfFalse(cond: nat, target: nat)
    | FuncCreate
    | FuncEnd
    | LocalGet(dst: nat, depth: nat, slot: nat)
    | LocalSet(depth: nat, slot: nat, src: nat)
    | Dec(dst: nat)

  type Regs = r: seq<int> | |r| == REG_COUNT witness seq(255, i => 0)

  // Of `save_regs[4]` only the entries 1, 2 and 3 are ever written.
  datatype Saved = Saved(r1: int, r2: int, r3: int)

  datatype Frame = Frame(locals: seq<int>, saved: Saved)

  datatype State = State(pc: nat, regs: Regs, frames: seq<Frame>, rets: seq<nat>)

  datatype Outcome = Next(state: State) | Halted | Stuck

  function Last<T>(xs: seq<T>): T
    requires xs != []
  {
    xs[|xs| - 1]
  }

  function Front<T>(xs: seq<T>): seq<T>
    requires xs != []
  {
    xs[..|xs| - 1]
  }

  function Zeros(n: nat): (r: seq<int>)
    ensures |r| == n
  {
    seq(n, i => 0)
  }

  function Start(): State {
    State(0, seq(255, i => 0), [Frame(Zeros(GLOBAL_SLOTS), Saved(0, 0, 0))], [])
  }

  // ----- single steps -----

  function Put(s: State, r: nat, w: int): State
    requires r < REG_COUNT
  {
    s.(regs := s.regs[r := w], pc := s.pc + 1)
  }

  /** What an arithmetic, comparison or logical instruction leaves in its destination: the
      comparisons and AND/OR assign only the low byte. */
  function AluWord(op: Oper, dst: int, a: int, b: int): Option<int> {
    if IsArith(op) then Arith(op, a, b)
    else if IsCompare(op) then Some(SetLowByte(dst, Compare(op, a, b)))
    else if op == And then Some(SetLowByte(dst, LowByte(a) != 0 && LowByte(b) != 0))
    else Some(SetLowByte(dst, LowByte(a) != 0 || LowByte(b) != 0))
  }

  /** The first FUNC_END at or after `pc`, or the length of the program. */
  function SkipToEnd(p: seq<Op>, pc: nat): (r: nat)
    requires pc <= |p|
    ensures pc <= r <= |p|
    ensures r < |p| ==> p[r] == FuncEnd
    ensures forall i :: pc <= i < r ==> p[i] != FuncEnd
    decreases |p| - pc
  {
    if pc == |p| || p[pc] == FuncEnd then pc else SkipToEnd(p, pc + 1)
  }

  function SaveRegs(r: Regs): Saved {
    Saved(r[1], r[2], r[3])
  }

  function RestoreRegs(r: Regs, saved: Saved): Regs {
    r[1 := saved.r1][2 := saved.r2][3 := saved.r3]
  }

  /** The locals of a callee: the arguments from registers 254, 253, ... and one spare slot. */
  function CalleeLocals(r: Regs, argc: nat): (locals: seq<int>)
    requires argc <= REG_COUNT
    ensures |locals| == argc + 1
  {
    seq(argc + 1, i requires 0 <= i <= argc => if i < argc then r[ARG_REG - i] else 0)
  }

  function Enter(s: State, target: nat, argc: nat): State
    requires argc <= REG_COUNT
  {
    State(target, s.regs, s.frames + [Frame(CalleeLocals(s.regs, argc), SaveRegs(s.regs))], s.rets + [s.pc + 1])
  }

  function Leave(s: State): State
    requires s.frames != [] && s.rets != []
  {
    State(Last(s.rets), RestoreRegs(s.regs, Last(s.frames).saved), Front(s.frames), Front(s.rets))
  }

  predicate LocalExists(s: State, depth: nat, slot: nat) {
    depth < |s.frames| && slot < |s.frames[|s.frames| - 1 - depth].locals|
  }

  function ReadLocal(s: State, depth: nat, slot: nat): int
    requires LocalExists(s, depth, slot)
  {
    s.frames[|s.frames| - 1 - depth].locals[slot]
  }

  function WriteLocal(s: State, depth: nat, slot: nat, w: int): State
    requires LocalExists(s, depth, slot)
  {
    var i := |s.frames| - 1 - depth;
    s.(frames := s.frames[i := s.frames[i].(locals := s.frames[i].locals[slot := w])], pc := s.pc + 1)
  }

  /** One pass of the interpreter loop. `Stuck` stands for everything C++ leaves undefined: a
      register, local, frame or program index out of range, an empty return stack, overflow. */
  function Step(p: seq<Op>, s: State): Outcome {
    if s.pc >= |p| then Stuck else
    match p[s.pc]
    case MovRI(d, imm) =>
      if d < REG_COUNT then Next(Put(s, d, imm)) else Stuck
    case MovRR(d, r) =>
      if d < REG_COUNT && r < REG_COUNT then Next(Put(s, d, s.regs[r])) else Stuck
    case Alu(op, d, a, b) =>
      if d < REG_COUNT && a < REG_COUNT && b < REG_COUNT
      then
        match AluWord(op, s.regs[d], s.regs[a], s.regs[b])
        case Some(w) => Next(Put(s, d, w))
        case None => Stuck
      else Stuck
    case Halt => Halted
    case FCall(target, argc) =>
      if argc <= REG_COUNT then Next(Enter(s, target, argc)) else Stuck
    case FRet =>
      if s.rets != [] && s.frames != [] then Next(Leave(s)) else Stuck
    case Jmp(target) => Next(s.(pc := target))
    case IfTrue(r, target) =>
      if r < REG_COUNT then Next(s.(pc := if LowByte(s.regs[r]) != 0 then target else s.pc + 1)) else Stuck
    case IfFalse(r, target) =>
      if r < REG_COUNT then Next(s.(pc := if LowByte(s.regs[r]) == 0 then target else s.pc + 1)) else Stuck
    case FuncCreate =>
      var e := SkipToEnd(p, s.pc);
      if e < |p| then Next(s.(pc := e + 1)) else Stuck
    case FuncEnd => Next(s.(pc := s.pc + 1))
    case LocalGet(d, depth, slot) =>
      if d < REG_COUNT && LocalExists(s, depth, slot) then Next(Put(s, d, ReadLocal(s, depth, slot))) else Stuck
    case LocalSet(depth, slot, r) =>
      if r < REG_COUNT && LocalExists(s, depth, slot) then Next(WriteLocal(s, depth, slot, s.regs[r])) else Stuck
    case Dec(r) =>
      if r < REG_COUNT && s.regs[r] != -I64_BOUND then Next(Put(s, r, s.regs[r] - 1)) else Stuck
  }

  // ----- runs -----

  /** The state after exactly `k` steps, if the machine gets that far. */
  function Steps(p: seq<Op>, s: State, k: nat): Option<State>
    decreases k
  {
    if k == 0 then Some(s)
    else
      match Step(p, s)
      case Next(t) => Steps(p, t, k - 1)
      case _ => None
  }

  ghost predicate Reaches(p: seq<Op>, s: State, t: State) {
    exists k: nat :: Steps(p, s, k) == Some(t)
  }

  lemma {:induction false} StepsAdd(p: seq<Op>, s: State, j: nat, t: State, k: nat)
    requires Steps(p, s, j) == Some(t)
    ensures Steps(p, s, j + k) == Steps(p, t, k)
    decreases j
  {
    if j > 0 {
      StepsAdd(p, Step(p, s).state, j - 1, t, k);
    }
  }

  lemma ReachRefl(p: seq<Op>, s: State)
    ensures Reaches(p, s, s)
  {
    assert Steps(p, s, 0) == Some(s);
  }

  lemma ReachStep(p: seq<Op>, s: State)
    requires Step(p, s).Next?
    ensures Reaches(p, s, Step(p, s).state)
  {
    assert Steps(p, s, 1) == Steps(p, Step(p, s).state, 0);
    assert Steps(p, s, 1) == Some(Step(p, s).state);
  }

  lemma ReachTrans(p: seq<Op>, s: State, t: State, u: State)
    requires Reaches(p, s, t) && Reaches(p, t, u)
    ensures Reaches(p, s, u)
  {
    var j: nat :| Steps(p, s, j) == Some(t);
    var k: nat :| Steps(p, t, k) == Some(u);
    StepsAdd(p, s, j, t, k);
    assert Steps(p, s, j + k) == Some(u);
  }

  /** Reach `t`, then take the step from `t`. */
  lemma ReachThenStep(p: seq<Op>, s: State, t: State)
    requires Reaches(p, s, t) && Step(p, t).Next?
    ensures Reaches(p, s, Step(p, t).state)
  {
    ReachStep(p, t);
    ReachTrans(p, s, t, Step(p, t).state);
  }

  // ----- code at an address -----

  predicate CodeAt(p: seq<Op>, n: nat, code: seq<Op>) {
    n + |code| <= |p| && p[n..n + |code|] == code
  }

  lemma CodeAtSplit(p: seq<Op>, n: nat, a: seq<Op>, b: seq<Op>)
    requires CodeAt(p, n, a + b)
    ensures CodeAt(p, n, a)
    ensures CodeAt(p, n + |a|, b)
  {
    assert p[n..n + |a|] == p[n..n + |a + b|][..|a|] == a;
    assert p[n + |a|..n + |a| + |b|] == p[n..n + |a + b|][|a|..] == b;
  }

  lemma CodeAtSplit5(p: seq<Op>, n: nat, a: seq<Op>, b: seq<Op>, c: seq<Op>, d: seq<Op>, e: seq<Op>)
    requires CodeAt(p, n, a + b + c + d + e)
    ensures CodeAt(p, n, a) && CodeAt(p, n + |a|, b) && CodeAt(p, n + |a| + |b|, c)
    ensures CodeAt(p, n + |a| + |b| + |c|, d) && CodeAt(p, n + |a| + |b| + |c| + |d|, e)
  {
    CodeAtSplit(p, n, a + b + c + d, e);
    CodeAtSplit(p, n, a + b + c, d);
    CodeAtSplit(p, n, a + b, c);
    CodeAtSplit(p, n, a, b);
  }

  lemma CodeAtOp(p: seq<Op>, n: nat, code: seq<Op>, i: nat)
    requires CodeAt(p, n, code) && i < |code|
    ensures n + i < |p| && p[n + i] == code[i]
  {
    assert p[n + i] == p[n..n + |code|][i];
  }
}
