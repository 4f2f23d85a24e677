/** When the generated code is the intended code. The two lists of pending jumps are flat, so a loop
    patches every jump recorded before it. The code comes out right exactly when no loop is reached
    while a break or continue of an outer loop is pending. */
module Faithful {
  import opened Words
  import opened Machine
  import opened Source
  import opened Reference
  import opened Patching
  import opened Emit
  import opened Emission

  // ----- the intended output -----

  /** The reference code with dummy targets for the jumps it leaves pending, whose addresses are recorded. */
  predicate Intended(ft: Funcs, frames: Frames, s: Stmt, from: Output, to: Output) {
    && to.ops == from.ops + StmtCode(true, ft, frames, from.held, s, |from.ops|, 0, 0)
    && to.held == HeldAfter(from.held, s)
    && to.breaks == from.breaks + Breaks(s, |from.ops|)
    && to.continues == from.continues + Continues(s, |from.ops|)
  }

  predicate ListIntended(ft: Funcs, frames: Frames, body: List<Stmt>, from: Output, to: Output) {
    && to.ops == from.ops + ListCode(true, ft, frames, from.held, body, |from.ops|, 0, 0)
    && to.held == HeldAfterList(from.held, body)
    && to.breaks == from.breaks + ListBreaks(body, |from.ops|)
    && to.continues == from.continues + ListContinues(body, |from.ops|)
  }

  /** Backpatching works: with no jump of an outer loop pending at a loop, the output is the intended one. */
  lemma {:induction false} CleanIntended(ft: Funcs, frames: Frames, s: Stmt, o: Output)
    requires Clean(Pending(o), s)
    ensures Intended(ft, frames, s, o, OutStmt(ft, frames, s, o))
    decreases s, 1
  {
    hide StmtCode, ListCode, HeldAfterList, OutIf, OutLoop, OutList, Res, ListBreaks, ListContinues;
    match s
    case Block(body) =>
      ListCleanIntended(ft, frames, body, o);
      BlockParts(ft, frames, o.held, body, |o.ops|, OutList(ft, frames, body, o), o);
    case If(c, thn, els) => IfCleanIntended(ft, frames, c, thn, els, o);
    case Loop(count, body) => LoopCleanIntended(ft, frames, count, body, o);
    case Break => JumpCode(ft, frames, o.held, |o.ops|);
    case Continue => JumpCode(ft, frames, o.held, |o.ops|);
    case _ =>
      assert o.breaks + [] == o.breaks && o.continues + [] == o.continues;
  }

  lemma JumpCode(ft: Funcs, frames: Frames, h: Held, n: nat)
    ensures StmtCode(true, ft, frames, h, Break, n, 0, 0) == [Jmp(0)]
            == StmtCode(true, ft, frames, h, Continue, n, 0, 0)
  {
  }

  lemma BlockParts(ft: Funcs, frames: Frames, h: Held, body: List<Stmt>, n: nat, to: Output, o: Output)
    requires n == |o.ops| && h == o.held && ListIntended(ft, frames, body, o, to)
    ensures Intended(ft, frames, Block(body), o, to)
  {
    hide ListCode;
  }

  lemma {:induction false} ListCleanIntended(ft: Funcs, frames: Frames, body: List<Stmt>, o: Output)
    requires ListClean(Pending(o), body)
    ensures ListIntended(ft, frames, body, o, OutList(ft, frames, body, o))
    decreases body, 0
  {
    hide StmtCode, OutStmt, Breaks, Continues;
    match body
    case Nil =>
      assert o.ops + [] == o.ops && o.breaks + [] == o.breaks && o.continues + [] == o.continues;
    case Cons(s, rest) =>
      CleanIntended(ft, frames, s, o);
      PendsMeans(s, |o.ops|);
      var o1 := OutStmt(ft, frames, s, o);
      ListCleanIntended(ft, FramesAfter(frames, s), rest, o1);
      ConsIntended(ft, frames, s, rest, o, o1, OutList(ft, FramesAfter(frames, s), rest, o1));
  }

  lemma ConsIntended(ft: Funcs, frames: Frames, s: Stmt, rest: List<Stmt>, o: Output, o1: Output, o2: Output)
    requires Intended(ft, frames, s, o, o1) && ListIntended(ft, FramesAfter(frames, s), rest, o1, o2)
    ensures ListIntended(ft, frames, Cons(s, rest), o, o2)
  {
    hide StmtCode, ListCode, Breaks, Continues, ListBreaks, ListContinues, HeldAfter, HeldAfterList;
    var n, n1 := |o.ops|, |o1.ops|;
    assert n1 == n + StmtLen(true, s);
    ConsCode(ft, frames, o.held, s, rest, n, 0, 0);
    ConsRest(o.held, s, rest, n);
    Regroup3(o.ops, StmtCode(true, ft, frames, o.held, s, n, 0, 0),
             ListCode(true, ft, FramesAfter(frames, s), o1.held, rest, n1, 0, 0));
    Append3(o.breaks, Breaks(s, n), ListBreaks(rest, n1));
    Append3(o.continues, Continues(s, n), ListContinues(rest, n1));
  }

  lemma ConsCode(ft: Funcs, frames: Frames, h: Held, s: Stmt, rest: List<Stmt>, n: nat, b: nat, c: nat)
    ensures ListCode(true, ft, frames, h, Cons(s, rest), n, b, c)
            == StmtCode(true, ft, frames, h, s, n, b, c)
                + ListCode(true, ft, FramesAfter(frames, s), HeldAfter(h, s), rest, n + StmtLen(true, s), b, c)
  {
    hide StmtCode, FramesAfter, HeldAfter;
  }

  lemma ConsRest(h: Held, s: Stmt, rest: List<Stmt>, n: nat)
    ensures HeldAfterList(h, Cons(s, rest)) == HeldAfterList(HeldAfter(h, s), rest)
    ensures ListBreaks(Cons(s, rest), n) == Breaks(s, n) + ListBreaks(rest, n + StmtLen(true, s))
    ensures ListContinues(Cons(s, rest), n) == Continues(s, n) + ListContinues(rest, n + StmtLen(true, s))
  {
    hide HeldAfter, Breaks, Continues;
  }

  lemma {:induction false} IfCleanIntended(ft: Funcs, frames: Frames, c: Expr, thn: List<Stmt>, els: List<Stmt>,
                                           o: Output)
    requires Clean(Pending(o), If(c, thn, els))
    ensures Intended(ft, frames, If(c, thn, els), o, OutIf(ft, frames, c, thn, els, o))
    decreases If(c, thn, els), 0
  {
    hide StmtCode, ListCode, OutList, Breaks, Continues, ListBreaks, ListContinues, FramesAfterBlock, Res;
    var o1 := AfterExpr(ft, frames, c, o);
    var o2 := Branch(o1, Res(o.held, c));
    ListCleanIntended(ft, frames, thn, o2);
    ListPendsMeans(thn, |o2.ops|);
    var o3 := OutList(ft, frames, thn, o2);
    var o4 := OpenElse(o3, |o1.ops| + 1);
    ListCleanIntended(ft, FramesAfterBlock(frames, thn), els, o4);
    IfIntended(ft, frames, c, thn, els, o, o1, o3, OutList(ft, FramesAfterBlock(frames, thn), els, o4));
  }

  /** The pieces of an `if`, each patched when its target became known, add up to its code. */
  lemma IfIntended(ft: Funcs, frames: Frames, c: Expr, thn: List<Stmt>, els: List<Stmt>, o: Output, o1: Output,
                   o3: Output, o5: Output)
    requires o1 == AfterExpr(ft, frames, c, o)
    requires ListIntended(ft, frames, thn, Branch(o1, Res(o.held, c)), o3)
    requires ListIntended(ft, FramesAfterBlock(frames, thn), els, OpenElse(o3, |o1.ops| + 1), o5)
    ensures Intended(ft, frames, If(c, thn, els), o, CloseIf(o5, |o3.ops|, Res(o.held, c)))
  {
    hide FirstFree, Alloc, Res, FramesAfterBlock, ExprCode, StmtCode, ListCode, ExprLen, ListBreaks, ListContinues;
    ResLen(o.held, c);
    var o2 := Branch(o1, Res(o.held, c));
    var o4, o6 := OpenElse(o3, |o1.ops| + 1), CloseIf(o5, |o3.ops|, Res(o.held, c));
    assert |o2.ops| == ThenAt(true, c, |o.ops|);
    assert (o3.ops + [Jmp(0)])[|o1.ops| + 1] == o2.ops[|o1.ops| + 1] == Jmp(0);
    assert o5.ops[|o3.ops|] == o4.ops[|o3.ops|] == Jmp(0);
    assert |o4.ops| == ElseAt(true, c, thn, |o.ops|);
    IfAssembled(ft, frames, o.held, c, thn, els, |o.ops|, o.ops, o1.ops, o3.ops, o4.ops, o6.ops);
    Append3(o.breaks, ListBreaks(thn, |o2.ops|), ListBreaks(els, |o4.ops|));
    Append3(o.continues, ListContinues(thn, |o2.ops|), ListContinues(els, |o4.ops|));
  }

  /** The pieces of an `if`, each patched when its target became known, add up to its code. */
  lemma IfAssembled(ft: Funcs, frames: Frames, h: Held, c: Expr, thn: List<Stmt>, els: List<Stmt>, n: nat,
                    ops0: seq<Op>, ops1: seq<Op>, ops3: seq<Op>, ops4: seq<Op>, ops5: seq<Op>)
    requires n == |ops0| && ops1 == ops0 + ExprCode(ft, frames, h, c, Res(h, c))
    requires ops3 == ops1 + [IfTrue(Res(h, c), |ops1| + 2), Jmp(0)]
             + ListCode(true, ft, frames, Hold(h, Res(h, c)), thn, |ops1| + 2, 0, 0)
    requires ops4 == (ops3 + [Jmp(0)])[|ops1| + 1 := Jmp(|ops3| + 1)]
    requires var all := ops4 + ListCode(true, ft, FramesAfterBlock(frames, thn),
                                        HeldAfterList(Hold(h, Res(h, c)), thn), els, |ops4|, 0, 0);
             ops5 == all[|ops3| := Jmp(|all|)]
    ensures ops5 == ops0 + StmtCode(true, ft, frames, h, If(c, thn, els), n, 0, 0)
  {
    hide FirstFree, Alloc, Res, FramesAfterBlock, HeldAfterList, ExprCode, StmtCode, ExprLen;
    ResLen(h, c);
    var at, ae := ThenAt(true, c, n), ElseAt(true, c, thn, n);
    assert |ops1| + 2 == at;
    assert |ops3| + 1 == ae == |ops4|;
    var cc := ExprCode(ft, frames, h, c, Res(h, c));
    var tc := ListCode(true, ft, frames, Hold(h, Res(h, c)), thn, |ops1| + 2, 0, 0);
    var ec := ListCode(true, ft, FramesAfterBlock(frames, thn), HeldAfterList(Hold(h, Res(h, c)), thn), els, |ops4|, 0,
                       0);
    IfJoin(ops0, ops1, ops3, ops4, ops5, cc, tc, ec, Res(h, c), at, ae,
           cc + [IfTrue(Res(h, c), at), Jmp(ae)] + tc + [Jmp(ae + |ec|)] + ec);
    IfWhole(ft, frames, h, c, thn, els, n, cc, tc, ec, at, ae);
  }

  lemma IfWhole(ft: Funcs, frames: Frames, h: Held, c: Expr, thn: List<Stmt>, els: List<Stmt>, n: nat, cc: seq<Op>,
                tc: seq<Op>, ec: seq<Op>,
                at: nat, ae: nat)
    requires at == ThenAt(true, c, n) && ae == ElseAt(true, c, thn, n)
    requires cc == ExprCode(ft, frames, h, c, Res(h, c))
    requires tc == ListCode(true, ft, frames, Hold(h, Res(h, c)), thn, at, 0, 0)
    requires ec == ListCode(true, ft, FramesAfterBlock(frames, thn), HeldAfterList(Hold(h, Res(h, c)), thn), els, ae,
                            0, 0)
    ensures StmtCode(true, ft, frames, h, If(c, thn, els), n, 0, 0) == cc + [IfTrue(Res(h, c), at), Jmp(ae)] + tc
            + [Jmp(ae + |ec|)] + ec
  {
    hide FirstFree, Alloc, Res, FramesAfterBlock, HeldAfterList, ExprCode, ListCode;
  }

  lemma IfJoin(ops0: seq<Op>, ops1: seq<Op>, ops3: seq<Op>, ops4: seq<Op>, ops5: seq<Op>, cc: seq<Op>, tc: seq<Op>,
               ec: seq<Op>,
               r: nat, at: nat, ae: nat, whole: seq<Op>)
    requires ops1 == ops0 + cc && ops3 == ops1 + [IfTrue(r, at), Jmp(0)] + tc
    requires ops4 == (ops3 + [Jmp(0)])[|ops1| + 1 := Jmp(ae)]
    requires ops5 == (ops4 + ec)[|ops3| := Jmp(ae + |ec|)]
    requires whole == cc + [IfTrue(r, at), Jmp(ae)] + tc + [Jmp(ae + |ec|)] + ec
    ensures ops5 == ops0 + whole
  {
    Assemble(ops0, cc, IfTrue(r, at), Jmp(0), tc, Jmp(ae), ec, Jmp(ae + |ec|));
  }

  lemma Assemble(ops: seq<Op>, cc: seq<Op>, test: Op, hole: Op, tc: seq<Op>, else_: Op, ec: seq<Op>, end: Op)
    ensures var ops1 := ops + cc;
            var ops3 := ops1 + [test, hole] + tc;
            var ops4 := (ops3 + [hole])[|ops1| + 1 := else_];
            (ops4 + ec)[|ops3| := end] == ops + (cc + [test, else_] + tc + [end] + ec)
  {
    var ops1 := ops + cc;
    var ops3 := ops1 + [test, hole] + tc;
    var ops4 := (ops3 + [hole])[|ops1| + 1 := else_];
    assert ops4 == ops1 + [test, else_] + tc + [hole] by {
      PatchMid(ops1 + [test], hole, else_, tc + [hole]);
      assert ops3 + [hole] == (ops1 + [test]) + [hole] + (tc + [hole]);
      assert (ops1 + [test]) + [else_] + (tc + [hole]) == ops1 + [test, else_] + tc + [hole];
    }
    PatchMid(ops1 + [test, else_] + tc, hole, end, ec);
    Regroup(ops, cc, [test, else_], tc, [end], ec);
  }

  lemma Regroup(o: seq<Op>, a: seq<Op>, b: seq<Op>, c: seq<Op>, d: seq<Op>, e: seq<Op>)
    ensures o + a + b + c + d + e == o + (a + b + c + d + e)
  {
  }

  lemma Append3(a: seq<nat>, b: seq<nat>, c: seq<nat>)
    ensures a + b + c == a + (b + c)
  {
  }

  lemma PatchMid(a: seq<Op>, x: Op, y: Op, b: seq<Op>)
    ensures (a + [x] + b)[|a| := y] == a + [y] + b
  {
  }

  lemma {:induction false} LoopCleanIntended(ft: Funcs, frames: Frames, count: Option<Expr>, body: List<Stmt>,
                                             o: Output)
    requires Clean(Pending(o), Loop(count, body))
    ensures Intended(ft, frames, Loop(count, body), o, OutLoop(ft, frames, count, body, o))
    decreases Loop(count, body), 0
  {
    hide StmtCode, ListCode, OutList, ListBreaks, ListContinues, CountCode, TestCode, CloseLoop, Res;
    ListCleanIntended(ft, frames, body, LoopTest(ft, frames, count, o));
    LoopIntended(ft, frames, count, body, o, OutList(ft, frames, body, LoopTest(ft, frames, count, o)));
  }

  /** The loop as emitted, its jumps patched, is the loop compiled with the right targets. */
  lemma LoopIntended(ft: Funcs, frames: Frames, count: Option<Expr>, body: List<Stmt>, o: Output, o3: Output)
    requires !Pending(o) && ListIntended(ft, frames, body, LoopTest(ft, frames, count, o), o3)
    ensures var start := |o.ops + CountCode(ft, frames, o.held, count)|;
            (start < |o3.ops| || count.None?)
            && Intended(ft, frames, Loop(count, body), o, CloseLoop(o3, Counter(o.held, count), start))
  {
    hide ListCode, StmtCode, ExprCode, Res, Patched, FirstFree, Alloc, ListBreaks, ListContinues, LoopTail, CountCode,
         SetIfTarget, Hold, Release;
    var rr, ops1 := Counter(o.held, count), o.ops + CountCode(ft, frames, o.held, count);
    var o2 := LoopTest(ft, frames, count, o);
    assert o2.ops == ops1 + TestCode(rr, 0);
    var o5 := CloseLoop(o3, rr, |ops1|);
    var tail := LoopTail(rr, |ops1|);
    var b := |o3.ops + tail|;
    var bc := ListCode(true, ft, frames, o2.held, body, |o2.ops|, b, |o3.ops|);
    LoopPatched(ft, frames, body, o2, o3, tail);
    SetTest(count, rr, ops1, o2.ops, bc, tail, b, o5.ops);
    LoopWhole(ft, frames, o.held, count, body, o.ops, ops1, bc, b, |o3.ops|);
    Regroup3(o.ops, CountCode(ft, frames, o.held, count), TestCode(rr, b) + bc + tail);
    LoopRest(o.held, count, body, |o.ops|);
  }

  lemma LoopRest(h: Held, count: Option<Expr>, body: List<Stmt>, n: nat)
    ensures Breaks(Loop(count, body), n) == [] == Continues(Loop(count, body), n)
    ensures HeldAfter(h, Loop(count, body))
            == var h1 := HeldAfterList(CounterHeld(h, count), body); if count.Some?
                then Release(h1, Res(h, count.value)) else h1
  {
  }

  lemma PatchBoth(code: seq<Op>, bs: seq<nat>, b: nat, cs: seq<nat>, c: nat)
    ensures Patched(Patched(code, 0, bs, b, [], 0), 0, cs, c, [], 0) == Patched(code, 0, bs, b, cs, c)
  {
  }

  /** Patching reaches exactly the pending jumps of the body. */
  lemma LoopPatched(ft: Funcs, frames: Frames, body: List<Stmt>, o2: Output, o3: Output, tail: seq<Op>)
    requires o2.breaks == o2.continues == [] && ListIntended(ft, frames, body, o2, o3)
    ensures var b, c := |o3.ops + tail|, |o3.ops|;
            Patched(Patched(o3.ops + tail, 0, o3.breaks, b, [], 0), 0, o3.continues, c, [], 0)
            == o2.ops + ListCode(true, ft, frames, o2.held, body, |o2.ops|, b, c) + tail
  {
    hide ListCode, Patched, ListBreaks, ListContinues;
    var b, c, x := |o3.ops + tail|, |o3.ops|, ListCode(true, ft, frames, o2.held, body, |o2.ops|, 0, 0);
    PatchBoth(o3.ops + tail, o3.breaks, b, o3.continues, c);
    ListPendingSpan(body, |o2.ops|);
    assert [] + ListBreaks(body, |o2.ops|) == ListBreaks(body, |o2.ops|)
           && [] + ListContinues(body, |o2.ops|) == ListContinues(body, |o2.ops|);
    PatchedStop(o2.ops + x, tail, 0, o3.breaks, b, o3.continues, c);
    PatchedSkip(o2.ops, x, 0, o3.breaks, b, o3.continues, c);
    BackpatchList(ft, frames, o2.held, body, |o2.ops|, b, c);
  }

  lemma SetTest(count: Option<Expr>, rr: Option<nat>, ops1: seq<Op>, ops2: seq<Op>, bc: seq<Op>, tail: seq<Op>, b: nat,
                ops5: seq<Op>)
    requires count.Some? == rr.Some? && ops2 == ops1 + TestCode(rr, 0)
    requires var patched := ops2 + bc + tail;
             ops5 == if count.Some? then patched[|ops1| := SetIfTarget(patched[|ops1|], b)] else patched
    ensures ops5 == ops1 + (TestCode(rr, b) + bc + tail)
  {
    if count.Some? {
      assert ops2 + bc + tail == ops1 + [IfFalse(rr.value, 0)] + (bc + tail);
      PatchMid(ops1, IfFalse(rr.value, 0), IfFalse(rr.value, b), bc + tail);
    }
  }

  lemma LoopWhole(ft: Funcs, frames: Frames, h: Held, count: Option<Expr>, body: List<Stmt>,
                  ops0: seq<Op>, ops1: seq<Op>, bc: seq<Op>, b: nat, c: nat)
    requires ops1 == ops0 + CountCode(ft, frames, h, count)
    requires b == LoopEnd(true, Counter(h, count), body, |ops1|) && c == b - 1 - Counted(Counter(h, count))
    requires bc == ListCode(true, ft, frames, CounterHeld(h, count), body, |ops1| + Counted(Counter(h, count)), b, c)
    ensures StmtCode(true, ft, frames, h, Loop(count, body), |ops0|, 0, 0)
            == CountCode(ft, frames, h, count) + (TestCode(Counter(h, count), b) + bc
                                                  + LoopTail(Counter(h, count), |ops1|))
  {
    hide ListCode, ExprCode, PlainCode, ExprLen, PlainLen, Res, FirstFree, Alloc, LoopTail, LoopCode, TestCode,
         LoopEnd, ListLen;
    LoopParts(ft, frames, CounterHeld(h, count), Counter(h, count), body, |ops1|, bc, b, c);
    if count.Some? {
      ResLen(h, count.value);
    } else {
      var code := LoopCode(true, ft, frames, h, None, body, |ops1|);
      assert [] + code == code;
    }
  }

  lemma LoopParts(ft: Funcs, frames: Frames, h: Held, r: Option<nat>, body: List<Stmt>, start: nat, bc: seq<Op>,
                  b: nat, c: nat)
    requires b == LoopEnd(true, r, body, start) && c == b - 1 - Counted(r)
    requires bc == ListCode(true, ft, frames, h, body, start + Counted(r), b, c)
    ensures LoopCode(true, ft, frames, h, r, body, start) == TestCode(r, b) + bc + LoopTail(r, start)
  {
    hide ListCode, LoopTail;
  }
}
