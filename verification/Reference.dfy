/** The code a program should get, written down compositionally: destinations and jump targets are
    parameters, so there is no rewriting of earlier instructions. The generator, which folds moves
    and backpatches, is proved to produce exactly this code; the simulation proof is about it. */
module Reference {
  import opened Words
  import opened Machine
  import opened Source

  // ----- registers -----

  // Register 0 is taken from the start and never released.
  type Held = h: set<nat> | 0 in h witness {0}

  const NO_REG: nat := 255

  /** The lowest register not in `h`, searching from `i`; 255 (which is what the failure value
      SIZE_MAX becomes as an operand byte) when there is none. */
  function FirstFree(h: Held, i: nat): (r: nat)
    requires i <= REG_COUNT
    ensures i <= r <= NO_REG
    ensures r < NO_REG ==> r !in h
    decreases REG_COUNT - i, h
  {
    if i == REG_COUNT then NO_REG else if i in h then FirstFree(h, i + 1) else i
  }

  function Alloc(h: Held): (r: nat)
    ensures 0 < r <= NO_REG && (r < NO_REG ==> r !in h)
  {
    FirstFree(h, 0)
  }

  function Hold(h: Held, r: nat): Held {
    if r < NO_REG then h + {r} else h
  }

  function Release(h: Held, r: nat): Held {
    if r == 0 || r >= NO_REG then h else h - {r}
  }

  function ArgReg(i: nat): (r: nat)
    ensures i <= ARG_REG ==> r == ARG_REG - i
  {
    (ARG_REG - i) % 256
  }

  // ----- names -----

  datatype Slot = Slot(mut: bool, idx: nat)

  // `used` is the 16-bit `local_count` plus one: the number of slots handed out.
  datatype CFrame = CFrame(locals: map<string, Slot>, used: nat)

  datatype Loc = Loc(depth: nat, slot: Slot)

  datatype FEntry = FEntry(arity: nat, addr: nat)

  type Funcs = map<string, FEntry>

  const NO_SLOT: nat := 65535

  // The innermost frame is the last one.
  type Frames = f: seq<CFrame> | f != [] witness [CFrame(map[], 0)]

  function FindVar(frames: seq<CFrame>, x: string): (r: Option<Loc>)
    ensures r.Some? ==> r.value.depth < |frames|
    ensures r.Some? ==> x in frames[|frames| - 1 - r.value.depth].locals
    ensures r.Some? ==> r.value.slot == frames[|frames| - 1 - r.value.depth].locals[x]
    ensures r.None? ==> forall i :: 0 <= i < |frames| ==> x !in frames[i].locals
  {
    if frames == [] then None
    else if x in Last(frames).locals then Some(Loc(0, Last(frames).locals[x]))
    else
      match FindVar(Front(frames), x)
      case Some(Loc(d, s)) => Some(Loc(d + 1, s))
      case None => None
  }

  /** A variable that a reference or an assignment resolves to; slot 65535 reads as "not found". */
  function Lookup(frames: seq<CFrame>, x: string): (r: Option<Loc>)
    ensures r.Some? ==> r == FindVar(frames, x)
  {
    var l := FindVar(frames, x);
    if l.Some? && l.value.slot.idx == NO_SLOT then None else l
  }

  function NewVar(f: CFrame, x: string, mut: bool): CFrame {
    if x in f.locals then f.(used := (f.used + 1) % 65536)
    else CFrame(f.locals[x := Slot(mut, f.used)], (f.used + 1) % 65536)
  }

  /** A parameter at a fixed address. */
  function AddParam(f: CFrame, x: string, i: nat): CFrame {
    if x in f.locals then f
    else CFrame(f.locals[x := Slot(true, i % 65536)], if i % 65536 >= f.used then (i % 65536 + 1) % 65536 else f.used)
  }

  function ParamFrame(params: seq<string>): CFrame {
    if params == [] then CFrame(map[], 0)
    else AddParam(ParamFrame(Front(params)), Last(params), |params| - 1)
  }

  function TopFrame(frames: Frames, f: CFrame): Frames {
    Front(frames) + [f]
  }

  /** What an assignment does to the compiling frames. Reassignment looks the name up again in
      `cur[fst]`, an index from the bottom although `fst` counts from the top, and the map's
      `operator[]` adds an immutable entry for slot 0 where the name is missing. */
  function SetFrames(frames: Frames, x: string, mut: bool): (r: Frames)
    ensures |r| == |frames|
  {
    match Lookup(frames, x)
    case Some(Loc(fst, slot)) =>
      if slot.mut && x !in frames[fst].locals
      then frames[fst := frames[fst].(locals := frames[fst].locals[x := Slot(false, 0)])]
      else frames
    case None => TopFrame(frames, NewVar(Last(frames), x, mut))
  }

  /** The operand pair (frame depth, slot) of the LOCAL_SET that an assignment emits. */
  function SetDepth(frames: Frames, x: string): nat {
    var l := Lookup(frames, x);
    if l.Some? then l.value.depth else 0
  }

  function SetSlot(frames: Frames, x: string): nat {
    match Lookup(frames, x)
    case Some(Loc(fst, _)) => if x in frames[fst].locals then frames[fst].locals[x].idx else 0
    case None => Last(frames).used
  }

  predicate SetErr(frames: Frames, x: string) {
    match Lookup(frames, x)
    case Some(Loc(_, slot)) => !slot.mut
    case None => x in Last(frames).locals
  }

  function FramesAfter(frames: Frames, s: Stmt): (r: Frames)
    ensures |r| == |frames|
    decreases s, 0
  {
    match s
    case Set(x, _, mut) => if SetErr(frames, x) && Lookup(frames, x).Some? then frames else SetFrames(frames, x, mut)
    case Block(body) => FramesAfterBlock(frames, body)
    case If(_, thn, els) => FramesAfterBlock(FramesAfterBlock(frames, thn), els)
    case Loop(_, body) => FramesAfterBlock(frames, body)
    case _ => frames
  }

  function FramesAfterList(frames: Frames, body: List<Stmt>): (r: Frames)
    ensures |r| == |frames|
    decreases body, 0
  {
    match body
    case Nil => frames
    case Cons(s, rest) => FramesAfterList(FramesAfter(frames, s), rest)
  }

  /** A block restores the names of the innermost frame, not its slot counter. */
  function FramesAfterBlock(frames: Frames, body: List<Stmt>): (r: Frames)
    ensures |r| == |frames|
    decreases body, 1
  {
    var after := FramesAfterList(frames, body);
    TopFrame(after, Last(after).(locals := Last(frames).locals))
  }

  // ----- errors the generator reports -----

  predicate ExprErr(ft: Funcs, frames: Frames, e: Expr) {
    match e
    case Num(_) => false
    case Bool(_) => false
    case Var(x) => Lookup(frames, x).None?
    case Neg(e1) => ExprErr(ft, frames, e1)
    case Bin(_, l, r) => ExprErr(ft, frames, l) || ExprErr(ft, frames, r)
    case Call(f, args) => f !in ft || Length(args) != ft[f].arity || ArgsErr(ft, frames, args)
  }

  predicate ArgsErr(ft: Funcs, frames: Frames, args: List<Expr>) {
    match args
    case Nil => false
    case Cons(a, rest) => ExprErr(ft, frames, a) || ArgsErr(ft, frames, rest)
  }

  predicate StmtErr(ft: Funcs, frames: Frames, s: Stmt)
    decreases s, 0
  {
    match s
    case ExprS(e) => ExprErr(ft, frames, e)
    case Set(x, e, _) => SetErr(frames, x) || ExprErr(ft, frames, e)
    case Block(body) => ListErr(ft, frames, body)
    case If(c, thn, els) =>
      || ExprErr(ft, frames, c)
      || ListErr(ft, frames, thn)
      || ListErr(ft, FramesAfterBlock(frames, thn), els)
    case Loop(count, body) => (count.Some? && ExprErr(ft, frames, count.value)) || ListErr(ft, frames, body)
    case Break => false
    case Continue => false
    case Return(e) => ExprErr(ft, frames, e)
  }

  predicate ListErr(ft: Funcs, frames: Frames, body: List<Stmt>)
    decreases body, 0
  {
    match body
    case Nil => false
    case Cons(s, rest) => StmtErr(ft, frames, s) || ListErr(ft, FramesAfter(frames, s), rest)
  }

  // ----- where results go -----

  /** The register that holds the value of `e` when the registers in `h` are taken. */
  function Res(h: Held, e: Expr): nat
    decreases e, 0
  {
    match e
    case Neg(e1) => Alloc(Hold(h, Res(h, e1)))
    case Bin(_, l, r) => Alloc(Hold(Left(h), Right(h, r)))
    case Call(_, _) => 0
    case _ => Alloc(h)
  }

  /** The registers taken while the right operand is compiled: the left one is parked. */
  function Left(h: Held): Held {
    Hold(h, Alloc(h))
  }

  /** The register in which the right operand is parked. */
  function Right(h: Held, r: Expr): nat
    decreases r, 1
  {
    Alloc(Hold(Left(h), Res(Left(h), r)))
  }

  /** Every register the code of `e` asks for exists and is below `lim`. */
  predicate RegsFit(h: Held, lim: nat, e: Expr)
    decreases e
  {
    && Res(h, e) < lim
    && match e
       case Neg(e1) => RegsFit(h, lim, e1)
       case Bin(_, l, r) =>
         Alloc(h) < lim && Right(h, r) < lim && RegsFit(Left(h), lim, l) && RegsFit(Left(h), lim, r)
       case Call(_, args) => ArgsFit(h, lim, args)
       case _ => true
  }

  predicate ArgsFit(h: Held, lim: nat, args: List<Expr>)
    decreases args
  {
    match args
    case Nil => true
    case Cons(a, rest) => RegsFit(h, lim, a) && ArgsFit(h, lim, rest)
  }

  // ----- expressions -----

  function ExprLen(e: Expr, inZero: bool): nat {
    match e
    case Neg(e1) => ExprLen(e1, e1.Call?) + 2
    case Bin(_, l, r) => ExprLen(l, false) + ExprLen(r, false) + 1
    case Call(_, args) => ArgsLen(args, 0) + 1 + (if inZero then 0 else 1)
    case _ => 1
  }

  function ArgsLen(args: List<Expr>, i: nat): nat {
    match args
    case Nil => 0
    case Cons(a, rest) => ExprLen(a, ArgReg(i) == 0) + ArgsLen(rest, i + 1)
  }

  function GetCode(frames: Frames, x: string, d: nat): Op {
    match Lookup(frames, x)
    case Some(Loc(depth, slot)) => LocalGet(d, depth, slot.idx)
    case None => LocalGet(d, 0, 0)
  }

  function CallCode(ft: Funcs, f: string): Op {
    if f in ft then FCall(ft[f].addr, ft[f].arity) else FCall(0, 0)
  }

  /** Code that puts the value of `e` into register `d`. */
  function ExprCode(ft: Funcs, frames: Frames, h: Held, e: Expr, d: nat): (code: seq<Op>)
    ensures |code| == ExprLen(e, d == 0)
    decreases e
  {
    match e
    case Num(n) => [MovRI(d, n)]
    case Bool(b) => [MovRI(d, BoolByte(b))]
    case Var(x) => [GetCode(frames, x, d)]
    case Neg(e1) =>
      ExprCode(ft, frames, h, e1, Res(h, e1)) + [MovRI(Res(h, e), 0), Alu(Sub, d, Res(h, e), Res(h, e1))]
    case Bin(op, l, r) =>
      ExprCode(ft, frames, Left(h), l, Alloc(h)) + ExprCode(ft, frames, Left(h), r, Right(h, r))
      + [Alu(op, d, Alloc(h), Right(h, r))]
    case Call(f, args) =>
      ArgsCode(ft, frames, h, args, 0) + [CallCode(ft, f)] + (if d == 0 then [] else [MovRR(d, 0)])
  }

  function ArgsCode(ft: Funcs, frames: Frames, h: Held, args: List<Expr>, i: nat): (code: seq<Op>)
    ensures |code| == ArgsLen(args, i)
    decreases args
  {
    match args
    case Nil => []
    case Cons(a, rest) => ExprCode(ft, frames, h, a, ArgReg(i)) + ArgsCode(ft, frames, h, rest, i + 1)
  }

  lemma ResLen(h: Held, e: Expr)
    ensures (Res(h, e) == 0) == e.Call?
  {
  }

  // ----- expressions without folding -----

  // The same code from a generator whose moves are never folded into the instruction before them, and
  // never left out: a value is computed into the register where it falls and then moved.

  function PlainLen(e: Expr): nat {
    match e
    case Neg(e1) => PlainLen(e1) + 2
    case Bin(_, l, r) => PlainLen(l) + 1 + PlainLen(r) + 2
    case Call(_, args) => PlainArgsLen(args) + 1
    case _ => 1
  }

  function PlainArgsLen(args: List<Expr>): nat {
    match args
    case Nil => 0
    case Cons(a, rest) => PlainLen(a) + 1 + PlainArgsLen(rest)
  }

  /** Code that leaves the value of `e` in register `Res(h, e)`. */
  function PlainCode(ft: Funcs, frames: Frames, h: Held, e: Expr): (code: seq<Op>)
    ensures |code| == PlainLen(e)
    decreases e
  {
    match e
    case Num(n) => [MovRI(Res(h, e), n)]
    case Bool(b) => [MovRI(Res(h, e), BoolByte(b))]
    case Var(x) => [GetCode(frames, x, Res(h, e))]
    case Neg(e1) =>
      PlainCode(ft, frames, h, e1) + [MovRI(Res(h, e), 0), Alu(Sub, Res(h, e), Res(h, e), Res(h, e1))]
    case Bin(op, l, r) =>
      PlainCode(ft, frames, Left(h), l) + [MovRR(Alloc(h), Res(Left(h), l))]
      + PlainCode(ft, frames, Left(h), r)
      + [MovRR(Right(h, r), Res(Left(h), r)), Alu(op, Res(h, e), Alloc(h), Right(h, r))]
    case Call(f, args) => PlainArgs(ft, frames, h, args, 0) + [CallCode(ft, f)]
  }

  function PlainArgs(ft: Funcs, frames: Frames, h: Held, args: List<Expr>, i: nat): (code: seq<Op>)
    ensures |code| == PlainArgsLen(args)
    decreases args
  {
    match args
    case Nil => []
    case Cons(a, rest) =>
      PlainCode(ft, frames, h, a) + [MovRR(ArgReg(i), Res(h, a))] + PlainArgs(ft, frames, h, rest, i + 1)
  }

  // ----- expressions in statements, with and without folding -----

  function ValueLen(fold: bool, e: Expr): nat {
    if fold then ExprLen(e, e.Call?) else PlainLen(e)
  }

  /** The value of `e`, in register `Res(h, e)`. */
  function ValueCode(fold: bool, ft: Funcs, frames: Frames, h: Held, e: Expr): (code: seq<Op>)
    ensures |code| == ValueLen(fold, e)
  {
    ResLen(h, e);
    if fold then ExprCode(ft, frames, h, e, Res(h, e)) else PlainCode(ft, frames, h, e)
  }

  function ResultLen(fold: bool, e: Expr): nat {
    if fold then ExprLen(e, true) else PlainLen(e) + 1
  }

  /** The value of `e`, moved to register 0. */
  function ResultCode(fold: bool, ft: Funcs, frames: Frames, h: Held, e: Expr): (code: seq<Op>)
    ensures |code| == ResultLen(fold, e)
  {
    if fold then ExprCode(ft, frames, h, e, 0) else PlainCode(ft, frames, h, e) + [MovRR(0, Res(h, e))]
  }

  // ----- statements -----

  function HeldAfter(h: Held, s: Stmt): Held
    decreases s, 0
  {
    match s
    case ExprS(e) => Hold(h, Res(h, e))
    case Block(body) => HeldAfterList(h, body)
    case If(c, thn, els) =>
      Release(HeldAfterList(HeldAfterList(Hold(h, Res(h, c)), thn), els), Res(h, c))
    case Loop(None, body) => HeldAfterList(h, body)
    case Loop(Some(c), body) => Release(HeldAfterList(Hold(h, Res(h, c)), body), Res(h, c))
    case _ => h
  }

  /** Expression statements keep their result register, so the set can only grow. */
  function HeldAfterList(h: Held, body: List<Stmt>): Held
    decreases body, 0
  {
    match body
    case Nil => h
    case Cons(s, rest) => HeldAfterList(HeldAfter(h, s), rest)
  }

  predicate StmtFits(lim: nat, h: Held, s: Stmt)
    decreases s, 0
  {
    match s
    case ExprS(e) => RegsFit(h, lim, e)
    case Set(_, e, _) => RegsFit(h, lim, e)
    case Block(body) => ListFits(lim, h, body)
    case If(c, thn, els) =>
      && RegsFit(h, lim, c)
      && ListFits(lim, Hold(h, Res(h, c)), thn)
      && ListFits(lim, HeldAfterList(Hold(h, Res(h, c)), thn), els)
    case Loop(None, body) => ListFits(lim, h, body)
    case Loop(Some(c), body) => RegsFit(h, lim, c) && ListFits(lim, Hold(h, Res(h, c)), body)
    case Return(e) => RegsFit(h, lim, e)
    case _ => true
  }

  predicate ListFits(lim: nat, h: Held, body: List<Stmt>)
    decreases body, 0
  {
    match body
    case Nil => true
    case Cons(s, rest) => StmtFits(lim, h, s) && ListFits(lim, HeldAfter(h, s), rest)
  }

  /** Every counted loop gets a register for its counter. The generator takes a loop whose count found
      no register for one without a counter. */
  predicate CountersFit(h: Held, s: Stmt)
    decreases s, 0
  {
    match s
    case Block(body) => ListCountersFit(h, body)
    case If(c, thn, els) =>
      ListCountersFit(Hold(h, Res(h, c)), thn) && ListCountersFit(HeldAfterList(Hold(h, Res(h, c)), thn), els)
    case Loop(None, body) => ListCountersFit(h, body)
    case Loop(Some(c), body) => Res(h, c) < NO_REG && ListCountersFit(Hold(h, Res(h, c)), body)
    case _ => true
  }

  predicate ListCountersFit(h: Held, body: List<Stmt>)
    decreases body, 0
  {
    match body
    case Nil => true
    case Cons(s, rest) => CountersFit(h, s) && ListCountersFit(HeldAfter(h, s), rest)
  }

  lemma {:induction false} FitsCounters(lim: nat, h: Held, s: Stmt)
    requires lim <= NO_REG && StmtFits(lim, h, s)
    ensures CountersFit(h, s)
    decreases s, 0
  {
    match s
    case Block(body) => ListFitsCounters(lim, h, body);
    case If(c, thn, els) =>
      ListFitsCounters(lim, Hold(h, Res(h, c)), thn);
      ListFitsCounters(lim, HeldAfterList(Hold(h, Res(h, c)), thn), els);
    case Loop(None, body) => ListFitsCounters(lim, h, body);
    case Loop(Some(c), body) => ListFitsCounters(lim, Hold(h, Res(h, c)), body);
    case _ =>
  }

  lemma {:induction false} ListFitsCounters(lim: nat, h: Held, body: List<Stmt>)
    requires lim <= NO_REG && ListFits(lim, h, body)
    ensures ListCountersFit(h, body)
    decreases body, 0
  {
    match body
    case Nil =>
    case Cons(s, rest) =>
      FitsCounters(lim, h, s);
      ListFitsCounters(lim, HeldAfter(h, s), rest);
  }

  function StmtLen(fold: bool, s: Stmt): nat
    decreases s, 0, fold
  {
    match s
    case ExprS(e) => ValueLen(fold, e)
    case Set(_, e, _) => ValueLen(fold, e) + 1
    case Block(body) => ListLen(fold, body)
    case If(c, thn, els) =>
      ValueLen(fold, c) + 3 + ListLen(fold, thn) + ListLen(fold, els)
    case Loop(None, body) => ListLen(fold, body) + 1
    case Loop(Some(c), body) => ValueLen(fold, c) + ListLen(fold, body) + 3
    case Break => 1
    case Continue => 1
    case Return(e) => ResultLen(fold, e) + 1
  }

  function ListLen(fold: bool, body: List<Stmt>): nat
    decreases body, 0, fold
  {
    match body
    case Nil => 0
    case Cons(s, rest) => StmtLen(fold, s) + ListLen(fold, rest)
  }

  // Where the two branches of an `if` at address `n` begin.

  function ThenAt(fold: bool, c: Expr, n: nat): nat {
    n + ValueLen(fold, c) + 2
  }

  function ElseAt(fold: bool, c: Expr, thn: List<Stmt>, n: nat): nat {
    ThenAt(fold, c, n) + ListLen(fold, thn) + 1
  }

  /** Code for a statement at address `n`, with or without folding; `brk` and `cnt` are the targets of a break and of a
      continue that belong to an enclosing loop. */
  function StmtCode(fold: bool, ft: Funcs, frames: Frames, h: Held, s: Stmt, n: nat, brk: nat,
                    cnt: nat): (code: seq<Op>)
    ensures |code| == StmtLen(fold, s)
    decreases s, 0
  {
    match s
    case ExprS(e) => ValueCode(fold, ft, frames, h, e)
    case Set(x, e, _) =>
      ValueCode(fold, ft, frames, h, e) + [LocalSet(SetDepth(frames, x), SetSlot(frames, x), Res(h, e))]
    case Block(body) => ListCode(fold, ft, frames, h, body, n, brk, cnt)
    case If(c, thn, els) =>
      var r := Res(h, c);
      var end := ElseAt(fold, c, thn, n) + ListLen(fold, els);
      ValueCode(fold, ft, frames, h, c)
      + [IfTrue(r, ThenAt(fold, c, n)), Jmp(ElseAt(fold, c, thn, n))]
      + ListCode(fold, ft, frames, Hold(h, r), thn, ThenAt(fold, c, n), brk, cnt)
      + [Jmp(end)]
      + ListCode(fold, ft, FramesAfterBlock(frames, thn), HeldAfterList(Hold(h, r), thn), els, ElseAt(fold, c, thn, n),
                 brk, cnt)
    case Loop(None, body) => LoopCode(fold, ft, frames, h, None, body, n)
    case Loop(Some(c), body) =>
      ValueCode(fold, ft, frames, h, c)
      + LoopCode(fold, ft, frames, Hold(h, Res(h, c)), Some(Res(h, c)), body, n + ValueLen(fold, c))
    case Break => [Jmp(brk)]
    case Continue => [Jmp(cnt)]
    case Return(e) => ResultCode(fold, ft, frames, h, e) + [FRet]
  }

  function Counted(r: Option<nat>): nat {
    if r.Some? then 1 else 0
  }

  /** The address just after a loop whose first instruction is at `start`. */
  function LoopEnd(fold: bool, r: Option<nat>, body: List<Stmt>, start: nat): nat {
    start + ListLen(fold, body) + 2 * Counted(r) + 1
  }

  /** A loop with its counter in register `r`: test, body, decrement, jump back. Without a counter
      only the body and the jump. */
  function LoopCode(fold: bool, ft: Funcs, frames: Frames, h: Held, r: Option<nat>, body: List<Stmt>,
                    start: nat): (code: seq<Op>)
    ensures |code| == ListLen(fold, body) + 2 * Counted(r) + 1
    decreases body, 1
  {
    var end := LoopEnd(fold, r, body, start);
    (if r.Some? then [IfFalse(r.value, end)] else [])
    + ListCode(fold, ft, frames, h, body, start + Counted(r), end, end - 1 - Counted(r))
    + LoopTail(r, start)
  }

  function LoopTail(r: Option<nat>, start: nat): (code: seq<Op>)
    ensures |code| == Counted(r) + 1
  {
    (if r.Some? then [Dec(r.value)] else []) + [Jmp(start)]
  }

  function ListCode(fold: bool, ft: Funcs, frames: Frames, h: Held, body: List<Stmt>, n: nat, brk: nat,
                    cnt: nat): (code: seq<Op>)
    ensures |code| == ListLen(fold, body)
    decreases body, 0
  {
    match body
    case Nil => []
    case Cons(s, rest) =>
      StmtCode(fold, ft, frames, h, s, n, brk, cnt)
      + ListCode(fold, ft, FramesAfter(frames, s), HeldAfter(h, s), rest, n + StmtLen(fold, s), brk, cnt)
  }
}
