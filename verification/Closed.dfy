/** Backpatched code is closed: its jumps stay inside the statement or go where the enclosing loop
    says, and its calls enter functions at their first instruction. */
module Closed {
  import opened Words
  import opened Machine
  import opened Source
  import opened Reference

  predicate IsEntry(ft: Funcs, target: nat) {
    exists f :: f in ft && ft[f].addr == target
  }

  /** An instruction of a statement that occupies addresses `lo` up to `hi`; `out` holds the targets
      of a break and a continue of the enclosing loop. */
  predicate OpIn(ft: Funcs, op: Op, lo: nat, hi: nat, out: set<nat>, inFn: bool) {
    match op
    case Jmp(t) => lo <= t <= hi || t in out
    case IfTrue(_, t) => lo <= t <= hi
    case IfFalse(_, t) => lo <= t <= hi
    case FCall(t, _) => IsEntry(ft, t)
    case FRet => inFn
    case Halt => false
    case FuncCreate => false
    case FuncEnd => false
    case _ => true
  }

  predicate AllIn(ft: Funcs, code: seq<Op>, lo: nat, hi: nat, out: set<nat>, inFn: bool) {
    forall i :: 0 <= i < |code| ==> OpIn(ft, code[i], lo, hi, out, inFn)
  }

  lemma AllConcat(ft: Funcs, a: seq<Op>, b: seq<Op>, lo: nat, hi: nat, out: set<nat>, inFn: bool)
    requires AllIn(ft, a, lo, hi, out, inFn) && AllIn(ft, b, lo, hi, out, inFn)
    ensures AllIn(ft, a + b, lo, hi, out, inFn)
  {
  }

  lemma AllWiden(ft: Funcs, code: seq<Op>, lo: nat, hi: nat, out: set<nat>, lo1: nat, hi1: nat, out1: set<nat>,
                 inFn: bool)
    requires AllIn(ft, code, lo, hi, out, inFn) && lo1 <= lo && hi <= hi1
    requires forall t :: t in out ==> t in out1 || lo1 <= t <= hi1
    ensures AllIn(ft, code, lo1, hi1, out1, inFn)
  {
    forall i | 0 <= i < |code|
      ensures OpIn(ft, code[i], lo1, hi1, out1, inFn)
    {
      assert OpIn(ft, code[i], lo, hi, out, inFn);
    }
  }

  // Break and continue only inside loops, return only inside functions: what the parser enforces.

  predicate WellPlaced(s: Stmt, inLoop: bool, inFn: bool)
    decreases s, 0
  {
    match s
    case Block(body) => ListPlaced(body, inLoop, inFn)
    case If(_, thn, els) => ListPlaced(thn, inLoop, inFn) && ListPlaced(els, inLoop, inFn)
    case Loop(_, body) => ListPlaced(body, true, inFn)
    case Break => inLoop
    case Continue => inLoop
    case Return(_) => inFn
    case _ => true
  }

  predicate ListPlaced(body: List<Stmt>, inLoop: bool, inFn: bool)
    decreases body, 0
  {
    match body
    case Nil => true
    case Cons(s, rest) => WellPlaced(s, inLoop, inFn) && ListPlaced(rest, inLoop, inFn)
  }

  function Exits(inLoop: bool, brk: nat, cnt: nat): set<nat> {
    if inLoop then {brk, cnt} else {}
  }

  lemma {:induction false} ExprClosed(ft: Funcs, frames: Frames, h: Held, e: Expr, d: nat, lo: nat, hi: nat,
                                      out: set<nat>, inFn: bool)
    requires !ExprErr(ft, frames, e)
    ensures AllIn(ft, ExprCode(ft, frames, h, e, d), lo, hi, out, inFn)
    decreases e
  {
    match e
    case Neg(e1) =>
      ExprClosed(ft, frames, h, e1, Res(h, e1), lo, hi, out, inFn);
    case Bin(op, l, r) =>
      ExprClosed(ft, frames, Left(h), l, Alloc(h), lo, hi, out, inFn);
      ExprClosed(ft, frames, Left(h), r, Right(h, r), lo, hi, out, inFn);
      AllConcat(ft, ExprCode(ft, frames, Left(h), l, Alloc(h)), ExprCode(ft, frames, Left(h), r, Right(h, r)), lo, hi,
                out, inFn);
    case Call(f, args) =>
      ArgsClosed(ft, frames, h, args, 0, lo, hi, out, inFn);
    case _ =>
  }

  lemma {:induction false} ArgsClosed(ft: Funcs, frames: Frames, h: Held, args: List<Expr>, i: nat, lo: nat, hi: nat,
                                      out: set<nat>, inFn: bool)
    requires !ArgsErr(ft, frames, args)
    ensures AllIn(ft, ArgsCode(ft, frames, h, args, i), lo, hi, out, inFn)
    decreases args
  {
    match args
    case Nil =>
    case Cons(a, rest) =>
      ExprClosed(ft, frames, h, a, ArgReg(i), lo, hi, out, inFn);
      ArgsClosed(ft, frames, h, rest, i + 1, lo, hi, out, inFn);
      AllConcat(ft, ExprCode(ft, frames, h, a, ArgReg(i)), ArgsCode(ft, frames, h, rest, i + 1), lo, hi, out, inFn);
  }

  lemma {:induction false} PlainClosed(ft: Funcs, frames: Frames, h: Held, e: Expr, lo: nat, hi: nat, out: set<nat>,
                                       inFn: bool)
    requires !ExprErr(ft, frames, e)
    ensures AllIn(ft, PlainCode(ft, frames, h, e), lo, hi, out, inFn)
    decreases e
  {
    match e
    case Neg(e1) =>
      PlainClosed(ft, frames, h, e1, lo, hi, out, inFn);
    case Bin(op, l, r) =>
      var a, b := PlainCode(ft, frames, Left(h), l), PlainCode(ft, frames, Left(h), r);
      var move := [MovRR(Alloc(h), Res(Left(h), l))];
      PlainClosed(ft, frames, Left(h), l, lo, hi, out, inFn);
      PlainClosed(ft, frames, Left(h), r, lo, hi, out, inFn);
      AllConcat(ft, a, move, lo, hi, out, inFn);
      AllConcat(ft, a + move, b, lo, hi, out, inFn);
    case Call(f, args) =>
      PlainArgsClosed(ft, frames, h, args, 0, lo, hi, out, inFn);
    case _ =>
  }

  lemma {:induction false} PlainArgsClosed(ft: Funcs, frames: Frames, h: Held, args: List<Expr>, i: nat, lo: nat,
                                           hi: nat,
                                           out: set<nat>, inFn: bool)
    requires !ArgsErr(ft, frames, args)
    ensures AllIn(ft, PlainArgs(ft, frames, h, args, i), lo, hi, out, inFn)
    decreases args
  {
    match args
    case Nil =>
    case Cons(a, rest) =>
      var move := [MovRR(ArgReg(i), Res(h, a))];
      PlainClosed(ft, frames, h, a, lo, hi, out, inFn);
      PlainArgsClosed(ft, frames, h, rest, i + 1, lo, hi, out, inFn);
      AllConcat(ft, PlainCode(ft, frames, h, a), move, lo, hi, out, inFn);
      AllConcat(ft, PlainCode(ft, frames, h, a) + move, PlainArgs(ft, frames, h, rest, i + 1), lo, hi, out, inFn);
  }

  lemma ValueClosed(fold: bool, ft: Funcs, frames: Frames, h: Held, e: Expr, lo: nat, hi: nat, out: set<nat>,
                    inFn: bool)
    requires !ExprErr(ft, frames, e)
    ensures AllIn(ft, ValueCode(fold, ft, frames, h, e), lo, hi, out, inFn)
  {
    ExprClosed(ft, frames, h, e, Res(h, e), lo, hi, out, inFn);
    PlainClosed(ft, frames, h, e, lo, hi, out, inFn);
  }

  lemma ResultClosed(fold: bool, ft: Funcs, frames: Frames, h: Held, e: Expr, lo: nat, hi: nat, out: set<nat>,
                     inFn: bool)
    requires !ExprErr(ft, frames, e)
    ensures AllIn(ft, ResultCode(fold, ft, frames, h, e), lo, hi, out, inFn)
  {
    ExprClosed(ft, frames, h, e, 0, lo, hi, out, inFn);
    PlainClosed(ft, frames, h, e, lo, hi, out, inFn);
  }

  /** After any statement is compiled, all its jump targets lie between its first instruction and
      the one after it, except those of a break or continue that belongs to an enclosing loop. */
  lemma {:induction false} StmtClosed(fold: bool, ft: Funcs, frames: Frames, h: Held, s: Stmt, n: nat, brk: nat,
                                      cnt: nat, inLoop: bool, inFn: bool)
    requires !StmtErr(ft, frames, s) && WellPlaced(s, inLoop, inFn)
    ensures AllIn(ft, StmtCode(fold, ft, frames, h, s, n, brk, cnt), n, n + StmtLen(fold, s), Exits(inLoop, brk, cnt),
                  inFn)
    decreases s, 1
  {
    hide ValueCode, ResultCode, ExprErr, ListErr, ListCode, LoopCode, AllIn, OpIn, ListPlaced;
    match s
    case Block(body) =>
      ListClosed(fold, ft, frames, h, body, n, brk, cnt, inLoop, inFn);
    case If(c, thn, els) =>
      IfClosed(fold, ft, frames, h, c, thn, els, n, brk, cnt, inLoop, inFn);
    case Loop(None, body) =>
      LoopClosed(fold, ft, frames, h, None, body, n, inFn);
      AllWiden(ft, LoopCode(fold, ft, frames, h, None, body, n), n, n + StmtLen(fold, s), {}, n, n + StmtLen(fold, s),
               Exits(inLoop, brk, cnt), inFn);
    case Loop(Some(c), body) =>
      CountedClosed(fold, ft, frames, h, c, body, n, Exits(inLoop, brk, cnt), inFn);
    case _ =>
      SimpleClosed(fold, ft, frames, h, s, n, brk, cnt, inLoop, inFn);
  }

  lemma SimpleClosed(fold: bool, ft: Funcs, frames: Frames, h: Held, s: Stmt, n: nat, brk: nat, cnt: nat, inLoop: bool,
                     inFn: bool)
    requires s.ExprS? || s.Set? || s.Break? || s.Continue? || s.Return?
    requires !StmtErr(ft, frames, s) && WellPlaced(s, inLoop, inFn)
    ensures AllIn(ft, StmtCode(fold, ft, frames, h, s, n, brk, cnt), n, n + StmtLen(fold, s), Exits(inLoop, brk, cnt),
                  inFn)
  {
    hide ValueCode, ResultCode, ExprErr;
    var lo, hi, out := n, n + StmtLen(fold, s), Exits(inLoop, brk, cnt);
    match s
    case ExprS(e) =>
      ValueClosed(fold, ft, frames, h, e, lo, hi, out, inFn);
    case Set(x, e, _) =>
      ValueClosed(fold, ft, frames, h, e, lo, hi, out, inFn);
      AllConcat(ft, ValueCode(fold, ft, frames, h, e), [LocalSet(SetDepth(frames, x), SetSlot(frames, x), Res(h, e))],
                lo, hi, out, inFn);
    case Return(e) =>
      ResultClosed(fold, ft, frames, h, e, lo, hi, out, inFn);
      AllConcat(ft, ResultCode(fold, ft, frames, h, e), [FRet], lo, hi, out, inFn);
    case _ =>
  }

  lemma {:induction false} CountedClosed(fold: bool, ft: Funcs, frames: Frames, h: Held, c: Expr, body: List<Stmt>,
                                         n: nat, out: set<nat>, inFn: bool)
    requires !ExprErr(ft, frames, c) && !ListErr(ft, frames, body) && ListPlaced(body, true, inFn)
    ensures AllIn(ft, StmtCode(fold, ft, frames, h, Loop(Some(c), body), n, 0, 0), n,
                  n + StmtLen(fold, Loop(Some(c), body)), out, inFn)
    decreases Loop(Some(c), body), 0
  {
    hide ValueCode, ResultCode, ExprErr, ListErr, ListCode, LoopCode, AllIn, OpIn;
    var start, hi := n + ValueLen(fold, c), n + StmtLen(fold, Loop(Some(c), body));
    ValueClosed(fold, ft, frames, h, c, n, hi, out, inFn);
    var code := LoopCode(fold, ft, frames, Hold(h, Res(h, c)), Some(Res(h, c)), body, start);
    LoopClosed(fold, ft, frames, Hold(h, Res(h, c)), Some(Res(h, c)), body, start, inFn);
    AllWiden(ft, code, start, hi, {}, n, hi, out, inFn);
    AllConcat(ft, ValueCode(fold, ft, frames, h, c), code, n, hi, out, inFn);
  }

  lemma TestClosed(ft: Funcs, r: nat, a: nat, b: nat, lo: nat, hi: nat, out: set<nat>, inFn: bool)
    requires lo <= a <= hi && lo <= b <= hi
    ensures AllIn(ft, [IfTrue(r, a), Jmp(b)], lo, hi, out, inFn)
  {
  }

  lemma SkipClosed(ft: Funcs, t: nat, lo: nat, hi: nat, out: set<nat>, inFn: bool)
    requires lo <= t <= hi
    ensures AllIn(ft, [Jmp(t)], lo, hi, out, inFn)
  {
  }

  lemma {:induction false} IfClosed(fold: bool, ft: Funcs, frames: Frames, h: Held, c: Expr, thn: List<Stmt>,
                                    els: List<Stmt>, n: nat, brk: nat, cnt: nat,
                                    inLoop: bool, inFn: bool)
    requires !StmtErr(ft, frames, If(c, thn, els)) && WellPlaced(If(c, thn, els), inLoop, inFn)
    ensures AllIn(ft, StmtCode(fold, ft, frames, h, If(c, thn, els), n, brk, cnt), n,
                  n + StmtLen(fold, If(c, thn, els)), Exits(inLoop, brk, cnt), inFn)
    decreases If(c, thn, els), 0
  {
    hide ListCode, ValueCode, ListErr, ExprErr, ListPlaced, FramesAfterBlock, HeldAfterList, AllIn, Res, ListLen,
        ValueLen,
         Exits;
    var lo, hi, out := n, n + StmtLen(fold, If(c, thn, els)), Exits(inLoop, brk, cnt);
    var r := Res(h, c);
    var cc := ValueCode(fold, ft, frames, h, c);
    var test := [IfTrue(r, ThenAt(fold, c, n)), Jmp(ElseAt(fold, c, thn, n))];
    var tc := ListCode(fold, ft, frames, Hold(h, r), thn, ThenAt(fold, c, n), brk, cnt);
    var skip := [Jmp(ElseAt(fold, c, thn, n) + ListLen(fold, els))];
    var ec := ListCode(fold, ft, FramesAfterBlock(frames, thn), HeldAfterList(Hold(h, r), thn), els,
                       ElseAt(fold, c, thn, n), brk, cnt);
    ValueClosed(fold, ft, frames, h, c, lo, hi, out, inFn);
    ListClosed(fold, ft, frames, Hold(h, r), thn, ThenAt(fold, c, n), brk, cnt, inLoop, inFn);
    ListClosed(fold, ft, FramesAfterBlock(frames, thn), HeldAfterList(Hold(h, r), thn), els, ElseAt(fold, c, thn, n),
               brk, cnt, inLoop, inFn);
    AllWiden(ft, tc, ThenAt(fold, c, n), ThenAt(fold, c, n) + |tc|, out, lo, hi, out, inFn);
    AllWiden(ft, ec, ElseAt(fold, c, thn, n), ElseAt(fold, c, thn, n) + |ec|, out, lo, hi, out, inFn);
    TestClosed(ft, r, ThenAt(fold, c, n), ElseAt(fold, c, thn, n), lo, hi, out, inFn);
    SkipClosed(ft, hi, lo, hi, out, inFn);
    AllConcat(ft, cc, test, lo, hi, out, inFn);
    AllConcat(ft, cc + test, tc, lo, hi, out, inFn);
    AllConcat(ft, cc + test + tc, skip, lo, hi, out, inFn);
    AllConcat(ft, cc + test + tc + skip, ec, lo, hi, out, inFn);
  }

  lemma {:induction false} LoopClosed(fold: bool, ft: Funcs, frames: Frames, h: Held, r: Option<nat>, body: List<Stmt>,
                                      start: nat, inFn: bool)
    requires !ListErr(ft, frames, body) && ListPlaced(body, true, inFn)
    ensures AllIn(ft, LoopCode(fold, ft, frames, h, r, body, start), start, LoopEnd(fold, r, body, start), {}, inFn)
    decreases body, 1
  {
    hide ListCode, ListErr;
    var end := LoopEnd(fold, r, body, start);
    var bc := ListCode(fold, ft, frames, h, body, start + Counted(r), end, end - 1 - Counted(r));
    ListClosed(fold, ft, frames, h, body, start + Counted(r), end, end - 1 - Counted(r), true, inFn);
    AllWiden(ft, bc, start + Counted(r), start + Counted(r) + |bc|, {end, end - 1 - Counted(r)}, start, end, {}, inFn);
    var test := if r.Some? then [IfFalse(r.value, end)] else [];
    AllConcat(ft, test, bc, start, end, {}, inFn);
    AllConcat(ft, test + bc, LoopTail(r, start), start, end, {}, inFn);
  }

  lemma {:induction false} ListClosed(fold: bool, ft: Funcs, frames: Frames, h: Held, body: List<Stmt>, n: nat,
                                      brk: nat, cnt: nat, inLoop: bool, inFn: bool)
    requires !ListErr(ft, frames, body) && ListPlaced(body, inLoop, inFn)
    ensures AllIn(ft, ListCode(fold, ft, frames, h, body, n, brk, cnt), n, n + ListLen(fold, body),
                  Exits(inLoop, brk, cnt), inFn)
    decreases body, 0
  {
    hide StmtCode, StmtErr, OpIn;
    match body
    case Nil =>
    case Cons(s, rest) =>
      var out, hi, mid := Exits(inLoop, brk, cnt), n + ListLen(fold, body), n + StmtLen(fold, s);
      var a := StmtCode(fold, ft, frames, h, s, n, brk, cnt);
      var b := ListCode(fold, ft, FramesAfter(frames, s), HeldAfter(h, s), rest, mid, brk, cnt);
      StmtClosed(fold, ft, frames, h, s, n, brk, cnt, inLoop, inFn);
      ListClosed(fold, ft, FramesAfter(frames, s), HeldAfter(h, s), rest, mid, brk, cnt, inLoop, inFn);
      AllWiden(ft, a, n, mid, out, n, hi, out, inFn);
      AllWiden(ft, b, mid, hi, out, n, hi, out, inFn);
      AllConcat(ft, a, b, n, hi, out, inFn);
  }
}
