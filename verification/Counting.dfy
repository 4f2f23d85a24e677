/** How often a counted loop goes round, on the machine: the register of the counter is left alone by
    the body, DEC lowers it, and IF_FALSE looks at its low byte. */
module Counting {
  import opened Words
  import opened Machine
  import opened Source
  import opened Reference
  import opened Safety
  import opened Simulation
  import opened Registers

  // ----- bodies -----

  /** No call, no return, and no break of a loop around it; `inner` inside a loop of its own. */
  predicate Tame(s: Stmt, inner: bool)
    decreases s, 0
  {
    match s
    case ExprS(e) => !HasCall(e)
    case Set(_, e, _) => !HasCall(e)
    case Block(body) => TameList(body, inner)
    case If(c, thn, els) => !HasCall(c) && TameList(thn, inner) && TameList(els, inner)
    case Loop(None, body) => TameList(body, true)
    case Loop(Some(c), body) => !HasCall(c) && TameList(body, true)
    case Break => inner
    case Continue => true
    case Return(_) => false
  }

  predicate TameList(body: List<Stmt>, inner: bool)
    decreases body, 0
  {
    match body
    case Nil => true
    case Cons(s, rest) => Tame(s, inner) && TameList(rest, inner)
  }

  /** An instruction that stays between `lo` and `hi` or goes to one of `out`, and spares register `r`. */
  predicate Stays(op: Op, lo: nat, hi: nat, out: set<nat>, r: nat) {
    match op
    case Jmp(t) => lo <= t <= hi || t in out
    case IfTrue(_, t) => lo <= t <= hi
    case IfFalse(_, t) => lo <= t <= hi
    case LocalSet(_, _, _) => true
    case _ => Written(op).Some? && Written(op) != Some(r)
  }

  predicate AllStay(code: seq<Op>, lo: nat, hi: nat, out: set<nat>, r: nat) {
    forall i :: 0 <= i < |code| ==> Stays(code[i], lo, hi, out, r)
  }

  lemma StayConcat(a: seq<Op>, b: seq<Op>, lo: nat, hi: nat, out: set<nat>, r: nat)
    requires AllStay(a, lo, hi, out, r) && AllStay(b, lo, hi, out, r)
    ensures AllStay(a + b, lo, hi, out, r)
  {
  }

  lemma StayWiden(code: seq<Op>, lo: nat, hi: nat, out: set<nat>, lo1: nat, hi1: nat, out1: set<nat>, r: nat)
    requires AllStay(code, lo, hi, out, r) && lo1 <= lo && hi <= hi1
    requires forall t :: t in out ==> t in out1 || lo1 <= t <= hi1
    ensures AllStay(code, lo1, hi1, out1, r)
  {
    forall i | 0 <= i < |code|
      ensures Stays(code[i], lo1, hi1, out1, r)
    {
      assert Stays(code[i], lo, hi, out, r);
    }
  }

  function Outside(inner: bool, brk: nat, cnt: nat): set<nat> {
    if inner then {brk, cnt} else {cnt}
  }

  /** Register `r` is taken; the counter of a loop whose count is a call is register 0, which always is. */
  predicate Taken(h: Held, r: nat) {
    r in h && r < NO_REG
  }

  lemma {:induction false} ExprStays(ft: Funcs, frames: Frames, h: Held, e: Expr, d: nat, lo: nat, hi: nat,
                                     out: set<nat>, r: nat)
    requires !HasCall(e) && Taken(h, r) && d != r
    ensures AllStay(ExprCode(ft, frames, h, e, d), lo, hi, out, r)
    decreases e
  {
    hide FirstFree, Lookup;
    match e
    case Neg(e1) =>
      ResSpares(h, e1, r);
      ResSpares(h, e, r);
      ExprStays(ft, frames, h, e1, Res(h, e1), lo, hi, out, r);
      StayConcat(ExprCode(ft, frames, h, e1, Res(h, e1)), [MovRI(Res(h, e), 0), Alu(Sub, d, Res(h, e), Res(h, e1))],
                 lo, hi, out, r);
    case Bin(op, x, y) =>
      var a, b := ExprCode(ft, frames, Left(h), x, Alloc(h)), ExprCode(ft, frames, Left(h), y, Right(h, y));
      ExprStays(ft, frames, Left(h), x, Alloc(h), lo, hi, out, r);
      ExprStays(ft, frames, Left(h), y, Right(h, y), lo, hi, out, r);
      StayConcat(a, b, lo, hi, out, r);
      StayConcat(a + b, [Alu(op, d, Alloc(h), Right(h, y))], lo, hi, out, r);
    case _ =>
  }

  lemma ResSpares(h: Held, e: Expr, r: nat)
    requires Taken(h, r) && !HasCall(e)
    ensures Res(h, e) != r
  {
    ResFresh(h, e);
    ResLen(h, e);
  }

  lemma ValueStays(ft: Funcs, frames: Frames, h: Held, e: Expr, lo: nat, hi: nat, out: set<nat>, r: nat)
    requires !HasCall(e) && Taken(h, r)
    ensures AllStay(ValueCode(true, ft, frames, h, e), lo, hi, out, r)
  {
    hide ExprCode, Res, PlainCode;
    ResSpares(h, e, r);
    ExprStays(ft, frames, h, e, Res(h, e), lo, hi, out, r);
  }

  lemma HoldTaken(h: Held, x: nat, r: nat)
    requires Taken(h, r)
    ensures Taken(Hold(h, x), r)
  {
  }

  lemma {:induction false} StmtStays(ft: Funcs, frames: Frames, h: Held, s: Stmt, n: nat, brk: nat, cnt: nat,
                                     inner: bool, r: nat)
    requires Tame(s, inner) && Taken(h, r)
    ensures AllStay(StmtCode(true, ft, frames, h, s, n, brk, cnt), n, n + StmtLen(true, s), Outside(inner, brk, cnt), r)
    decreases s, 1
  {
    hide ValueCode, ResultCode, ListCode, LoopCode, AllStay, HasCall;
    var lo, hi, out := n, n + StmtLen(true, s), Outside(inner, brk, cnt);
    match s
    case ExprS(e) => ValueStays(ft, frames, h, e, lo, hi, out, r);
    case Set(x, e, _) =>
      ValueStays(ft, frames, h, e, lo, hi, out, r);
      SetStays(SetDepth(frames, x), SetSlot(frames, x), Res(h, e), lo, hi, out, r);
      StayConcat(ValueCode(true, ft, frames, h, e), [LocalSet(SetDepth(frames, x), SetSlot(frames, x), Res(h, e))], lo,
                 hi, out, r);
    case Block(body) => ListStays(ft, frames, h, body, n, brk, cnt, inner, r);
    case If(c, thn, els) => IfStays(ft, frames, h, c, thn, els, n, brk, cnt, inner, r);
    case Loop(None, body) =>
      LoopStays(ft, frames, h, None, body, n, r);
      StayWiden(LoopCode(true, ft, frames, h, None, body, n), lo, hi, {}, lo, hi, out, r);
    case Loop(Some(c), body) => CountedStays(ft, frames, h, c, body, n, out, r);
    case Break => JumpStays(brk, lo, hi, out, r);
    case Continue => JumpStays(cnt, lo, hi, out, r);
  }

  lemma JumpStays(t: nat, lo: nat, hi: nat, out: set<nat>, r: nat)
    requires t in out
    ensures AllStay([Jmp(t)], lo, hi, out, r)
  {
  }

  lemma SetStays(depth: nat, slot: nat, x: nat, lo: nat, hi: nat, out: set<nat>, r: nat)
    ensures AllStay([LocalSet(depth, slot, x)], lo, hi, out, r)
  {
  }

  lemma {:induction false} IfStays(ft: Funcs, frames: Frames, h: Held, c: Expr, thn: List<Stmt>, els: List<Stmt>,
                                   n: nat, brk: nat, cnt: nat, inner: bool, r: nat)
    requires Tame(If(c, thn, els), inner) && Taken(h, r)
    ensures AllStay(StmtCode(true, ft, frames, h, If(c, thn, els), n, brk, cnt), n, n + StmtLen(true, If(c, thn, els)),
                    Outside(inner, brk, cnt), r)
    decreases If(c, thn, els), 0
  {
    hide ListCode, ValueCode, FramesAfterBlock, HeldAfterList, HasCall, Taken;
    var lo, hi, out := n, n + StmtLen(true, If(c, thn, els)), Outside(inner, brk, cnt);
    var x, a, b := Res(h, c), ThenAt(true, c, n), ElseAt(true, c, thn, n);
    var h1 := Hold(h, x);
    var cc, test := ValueCode(true, ft, frames, h, c), [IfTrue(x, a), Jmp(b)];
    var tc, skip := ListCode(true, ft, frames, h1, thn, a, brk, cnt), [Jmp(b + ListLen(true, els))];
    var ec := ListCode(true, ft, FramesAfterBlock(frames, thn), HeldAfterList(h1, thn), els, b, brk, cnt);
    ValueStays(ft, frames, h, c, lo, hi, out, r);
    HoldTaken(h, x, r);
    ListStays(ft, frames, h1, thn, a, brk, cnt, inner, r);
    ListTaken(h1, thn, r);
    ListStays(ft, FramesAfterBlock(frames, thn), HeldAfterList(h1, thn), els, b, brk, cnt, inner, r);
    StayWiden(tc, a, a + |tc|, out, lo, hi, out, r);
    StayWiden(ec, b, b + |ec|, out, lo, hi, out, r);
    StayConcat(cc, test, lo, hi, out, r);
    StayConcat(cc + test, tc, lo, hi, out, r);
    StayConcat(cc + test + tc, skip, lo, hi, out, r);
    StayConcat(cc + test + tc + skip, ec, lo, hi, out, r);
  }

  lemma ListTaken(h: Held, body: List<Stmt>, r: nat)
    requires Taken(h, r)
    ensures Taken(HeldAfterList(h, body), r)
  {
    HeldGrowsList(h, body);
  }

  lemma {:induction false} CountedStays(ft: Funcs, frames: Frames, h: Held, c: Expr, body: List<Stmt>, n: nat,
                                        out: set<nat>, r: nat)
    requires !HasCall(c) && TameList(body, true) && Taken(h, r)
    ensures AllStay(StmtCode(true, ft, frames, h, Loop(Some(c), body), n, 0, 0), n,
                    n + StmtLen(true, Loop(Some(c), body)), out, r)
    decreases Loop(Some(c), body), 0
  {
    hide ValueCode, LoopCode, AllStay, HasCall, Taken;
    var start, hi, x := n + ValueLen(true, c), n + StmtLen(true, Loop(Some(c), body)), Res(h, c);
    ValueStays(ft, frames, h, c, n, hi, out, r);
    HoldTaken(h, x, r);
    ResSpares(h, c, r);
    var code := LoopCode(true, ft, frames, Hold(h, x), Some(x), body, start);
    LoopStays(ft, frames, Hold(h, x), Some(x), body, start, r);
    StayWiden(code, start, hi, {}, n, hi, out, r);
    StayConcat(ValueCode(true, ft, frames, h, c), code, n, hi, out, r);
  }

  lemma {:induction false} LoopStays(ft: Funcs, frames: Frames, h: Held, x: Option<nat>, body: List<Stmt>, start: nat,
                                     r: nat)
    requires TameList(body, true) && Taken(h, r) && x != Some(r)
    ensures AllStay(LoopCode(true, ft, frames, h, x, body, start), start, LoopEnd(true, x, body, start), {}, r)
    decreases body, 1
  {
    hide ListCode, Taken;
    var end, k := LoopEnd(true, x, body, start), Counted(x);
    var bc := ListCode(true, ft, frames, h, body, start + k, end, end - 1 - k);
    ListStays(ft, frames, h, body, start + k, end, end - 1 - k, true, r);
    StayWiden(bc, start + k, start + k + |bc|, {end, end - 1 - k}, start, end, {}, r);
    var test := if x.Some? then [IfFalse(x.value, end)] else [];
    StayConcat(test, bc, start, end, {}, r);
    StayConcat(test + bc, LoopTail(x, start), start, end, {}, r);
  }

  lemma {:induction false} ListStays(ft: Funcs, frames: Frames, h: Held, body: List<Stmt>, n: nat, brk: nat, cnt: nat,
                                     inner: bool, r: nat)
    requires TameList(body, inner) && Taken(h, r)
    ensures AllStay(ListCode(true, ft, frames, h, body, n, brk, cnt), n, n + ListLen(true, body),
                    Outside(inner, brk, cnt), r)
    decreases body, 0
  {
    hide StmtCode, Tame, Taken, AllStay, Outside;
    match body
    case Nil => NoneStray(n, n, Outside(inner, brk, cnt), r);
    case Cons(s, rest) =>
      var hi, mid, frames1, h1 := n + ListLen(true, body), n + StmtLen(true, s), FramesAfter(frames, s),
                                  HeldAfter(h, s);
      hide FramesAfter, HeldAfter, StmtLen;
      StmtStays(ft, frames, h, s, n, brk, cnt, inner, r);
      StmtTaken(h, s, r);
      ListStays(ft, frames1, h1, rest, mid, brk, cnt, inner, r);
      StayJoin(StmtCode(true, ft, frames, h, s, n, brk, cnt), ListCode(true, ft, frames1, h1, rest, mid, brk, cnt),
               n, mid, hi, Outside(inner, brk, cnt), r);
  }

  lemma StayJoin(a: seq<Op>, b: seq<Op>, lo: nat, mid: nat, hi: nat, out: set<nat>, r: nat)
    requires AllStay(a, lo, mid, out, r) && AllStay(b, mid, hi, out, r) && lo <= mid <= hi
    ensures AllStay(a + b, lo, hi, out, r)
  {
    hide AllStay;
    StayWiden(a, lo, mid, out, lo, hi, out, r);
    StayWiden(b, mid, hi, out, lo, hi, out, r);
    StayConcat(a, b, lo, hi, out, r);
  }

  lemma NoneStray(lo: nat, hi: nat, out: set<nat>, r: nat)
    ensures AllStay([], lo, hi, out, r)
  {
  }

  lemma StmtTaken(h: Held, s: Stmt, r: nat)
    requires Taken(h, r)
    ensures Taken(HeldAfter(h, s), r)
  {
    HeldGrows(h, s);
  }

  // ----- runs -----

  /** How many of the next `k` instructions are the one at `a`. */
  function Passes(p: seq<Op>, s: State, k: nat, a: nat): nat
    decreases k
  {
    if k == 0 then 0
    else
      (if s.pc == a then 1 else 0)
      + match Step(p, s)
        case Next(t) => Passes(p, t, k - 1, a)
        case _ => 0
  }

  /** Inside the loop; past the test only while rounds are left. */
  predicate Going(start: nat, end: nat, r: nat, s: State)
    requires r < REG_COUNT
  {
    start <= s.pc < end && (start < s.pc < end - 1 ==> LowByte(s.regs[r]) > 0)
  }

  /** A loop in place: test, body, DEC, jump back. */
  predicate LoopAt(p: seq<Op>, start: nat, end: nat, r: nat) {
    && start + 3 <= end <= |p| && r < REG_COUNT
    && p[start] == IfFalse(r, end) && p[end - 2] == Dec(r) && p[end - 1] == Jmp(start)
    && forall a :: start < a < end - 2 ==> Stays(p[a], start + 1, end - 2, {end - 2}, r)
  }

  lemma CodeLoop(p: seq<Op>, ft: Funcs, frames: Frames, h: Held, r: nat, body: List<Stmt>, start: nat)
    requires CodeAt(p, start, LoopCode(true, ft, frames, h, Some(r), body, start))
    requires TameList(body, false) && Taken(h, r)
    ensures LoopAt(p, start, LoopEnd(true, Some(r), body, start), r)
  {
    hide ListCode, Stays, AllStay, CodeAt, TameList, ListLen, LoopCode;
    var end := LoopEnd(true, Some(r), body, start);
    var bc := ListCode(true, ft, frames, h, body, start + 1, end, end - 2);
    LoopParts(true, p, ft, frames, h, Some(r), body, start);
    ListStays(ft, frames, h, body, start + 1, end, end - 2, false, r);
    InPlace(p, start + 1, end - 2, bc, {end - 2}, r);
  }

  lemma InPlace(p: seq<Op>, lo: nat, hi: nat, code: seq<Op>, out: set<nat>, r: nat)
    requires CodeAt(p, lo, code) && AllStay(code, lo, hi, out, r) && hi == lo + |code|
    ensures forall a :: lo <= a < hi ==> Stays(p[a], lo, hi, out, r)
  {
    hide Stays;
    forall a | lo <= a < hi
      ensures Stays(p[a], lo, hi, out, r)
    {
      CodeAtOp(p, lo, code, a - lo);
    }
  }

  /** One step inside the loop: only the DEC changes the counter, and the only way out is the test. */
  lemma StepGoing(p: seq<Op>, start: nat, end: nat, r: nat, s: State)
    requires LoopAt(p, start, end, r) && Going(start, end, r, s) && Step(p, s).Next?
    ensures var t := Step(p, s).state;
            && LowByte(t.regs[r]) == LowByte(s.regs[r]) - (if s.pc == end - 2 then 1 else 0)
            && (t.pc == end ==> LowByte(t.regs[r]) == 0)
            && (t.pc != end ==> Going(start, end, r, t))
  {
    if s.pc == end - 2 {
      LowByteDec(s.regs[r]);
    } else if start < s.pc < end - 2 {
      BodyStep(p, start + 1, end - 2, r, s);
    }
  }

  lemma BodyStep(p: seq<Op>, lo: nat, hi: nat, r: nat, s: State)
    requires s.pc < |p| && r < REG_COUNT && lo <= s.pc < hi && Stays(p[s.pc], lo, hi, {hi}, r) && Step(p, s).Next?
    ensures lo <= Step(p, s).state.pc <= hi && Step(p, s).state.regs[r] == s.regs[r]
  {
    hide AluWord, LowByte;
  }

  lemma {:induction false} RoundsFrom(p: seq<Op>, start: nat, end: nat, r: nat, s: State, k: nat, t: State)
    requires LoopAt(p, start, end, r) && Going(start, end, r, s)
    requires Steps(p, s, k) == Some(t) && t.pc == end && Passes(p, s, k, end) == 0
    ensures end >= 2 && Passes(p, s, k, end - 2) == LowByte(s.regs[r])
    decreases k
  {
    hide Step, LowByte, Stays;
    if k > 0 {
      hide LoopAt, Going;
      var u := Step(p, s).state;
      StepGoing(p, start, end, r, s);
      assert Passes(p, u, k - 1, end) == 0;
      if u.pc != end {
        RoundsFrom(p, start, end, r, u, k - 1, t);
      } else {
        assert k == 1;
      }
    }
  }

  /** Whatever the state of the machine, a run of a counted loop that gets to its end passes the DEC as
      often as the low byte of the counter says, `continue` included: as often as the counter says
      exactly when the counter is a byte. */
  lemma LoopCount(p: seq<Op>, ft: Funcs, frames: Frames, h: Held, r: nat, body: List<Stmt>, s: State, k: nat, t: State)
    requires CodeAt(p, s.pc, LoopCode(true, ft, frames, h, Some(r), body, s.pc))
    requires TameList(body, false) && Taken(h, r)
    requires var end := LoopEnd(true, Some(r), body, s.pc);
             Steps(p, s, k) == Some(t) && t.pc == end && Passes(p, s, k, end) == 0
    ensures var rounds := Passes(p, s, k, LoopEnd(true, Some(r), body, s.pc) - 2);
            rounds == s.regs[r] % 256 && (rounds == s.regs[r] <==> 0 <= s.regs[r] < 256)
  {
    hide LoopCode, TameList, Step, Passes;
    CodeLoop(p, ft, frames, h, r, body, s.pc);
    RoundsFrom(p, s.pc, LoopEnd(true, Some(r), body, s.pc), r, s, k, t);
  }

  /** At 256 the body is not run at all: the statement takes two steps, the count and the test. */
  lemma NoRounds(p: seq<Op>, ft: Funcs, frames: Frames, h: Held, body: List<Stmt>, s: State)
    requires CodeAt(p, s.pc, StmtCode(true, ft, frames, h, Loop(Some(Num(256)), body), s.pc, 0, 0))
    requires Alloc(h) < REG_COUNT
    ensures Steps(p, s, 2) == Some(s.(regs := s.regs[Alloc(h) := 256],
                                      pc := s.pc + StmtLen(true, Loop(Some(Num(256)), body))))
  {
    hide ListCode, LoopCode, FirstFree, Alloc, ListLen;
    var r := Alloc(h);
    var test := LoopCode(true, ft, frames, Hold(h, r), Some(r), body, s.pc + 1);
    CodeAtSplit(p, s.pc, [MovRI(r, 256)], test);
    CodeAtOp(p, s.pc, [MovRI(r, 256)], 0);
    LoopParts(true, p, ft, frames, Hold(h, r), Some(r), body, s.pc + 1);
    var u := Put(s, r, 256);
    assert Step(p, s) == Next(u);
    var w := u.(pc := LoopEnd(true, Some(r), body, s.pc + 1));
    assert Step(p, u) == Next(w);
    assert Steps(p, w, 0) == Some(w);
    assert Steps(p, u, 1) == Some(w);
  }
}
