/** Generated code is closed, wherever loops stand: once no jump is pending, every jump of a statement
    stays inside it, even one that an inner loop has taken over. */
module Inside {
  import opened Words
  import opened Machine
  import opened Source
  import opened Reference
  import opened Closed
  import opened Emission
  import opened Faithful
  import opened Unclean

  /** From address `n` on, every instruction but the pending jumps stays between `n` and the end. */
  predicate Inward(ft: Funcs, n: nat, o: Output, inFn: bool) {
    n <= |o.ops| && forall a :: n <= a < |o.ops| && !Waits(o, a) ==> OpIn(ft, o.ops[a], n, |o.ops|, {}, inFn)
  }

  lemma InwardGrows(ft: Funcs, n: nat, o: Output, to: Output, inFn: bool)
    requires Inward(ft, n, o, inFn) && OutOk(o) && Grows(|o.ops|, o, to) && Inward(ft, |o.ops|, to, inFn)
    ensures Inward(ft, n, to, inFn)
  {
    forall a | n <= a < |to.ops| && !Waits(to, a)
      ensures OpIn(ft, to.ops[a], n, |to.ops|, {}, inFn)
    {
      if a < |o.ops| {
        assert Moves(o, to, a) && WaitOk(o, a);
        if !Waits(o, a) {
          assert OpIn(ft, o.ops[a], n, |o.ops|, {}, inFn);
        }
      } else {
        assert OpIn(ft, to.ops[a], |o.ops|, |to.ops|, {}, inFn);
      }
    }
  }

  lemma InwardAppend(ft: Funcs, n: nat, o: Output, to: Output, code: seq<Op>, inFn: bool)
    requires Inward(ft, n, o, inFn) && to.ops == o.ops + code && to.breaks == o.breaks && to.continues == o.continues
    requires AllIn(ft, code, |o.ops|, |to.ops|, {}, inFn)
    ensures Inward(ft, n, to, inFn)
  {
    forall a | n <= a < |to.ops| && !Waits(to, a)
      ensures OpIn(ft, to.ops[a], n, |to.ops|, {}, inFn)
    {
      if a < |o.ops| {
        assert OpIn(ft, o.ops[a], n, |o.ops|, {}, inFn);
      } else {
        assert OpIn(ft, code[a - |o.ops|], |o.ops|, |to.ops|, {}, inFn);
      }
    }
  }

  lemma InwardStart(ft: Funcs, o: Output, inFn: bool)
    ensures Inward(ft, |o.ops|, o, inFn)
  {
  }

  lemma {:induction false} StmtInside(ft: Funcs, frames: Frames, s: Stmt, o: Output, inFn: bool)
    requires OutOk(o) && !StmtErr(ft, frames, s) && WellPlaced(s, true, inFn)
    ensures Inward(ft, |o.ops|, OutStmt(ft, frames, s, o), inFn)
    decreases s, 1
  {
    hide StmtCode, OutIf, OutLoop, OutList, ExprErr, ListErr, Inward, OutOk, HeldAfter;
    match s
    case Block(body) => ListInside(ft, frames, body, o, inFn);
    case If(c, thn, els) => IfInside(ft, frames, c, thn, els, o, inFn);
    case Loop(count, body) => LoopInside(ft, frames, count, body, o, inFn);
    case Break => JumpInside(ft, o, inFn);
    case Continue => JumpInside(ft, o, inFn);
    case _ => SimpleInside(ft, frames, s, o, inFn);
  }

  lemma JumpInside(ft: Funcs, o: Output, inFn: bool)
    ensures Inward(ft, |o.ops|, o.(ops := o.ops + [Jmp(0)], breaks := o.breaks + [|o.ops|]), inFn)
    ensures Inward(ft, |o.ops|, o.(ops := o.ops + [Jmp(0)], continues := o.continues + [|o.ops|]), inFn)
  {
  }

  lemma SimpleInside(ft: Funcs, frames: Frames, s: Stmt, o: Output, inFn: bool)
    requires s.ExprS? || s.Set? || s.Return?
    requires !StmtErr(ft, frames, s) && WellPlaced(s, true, inFn)
    ensures Inward(ft, |o.ops|, OutStmt(ft, frames, s, o), inFn)
  {
    hide StmtCode, StmtErr, HeldAfter, AllIn;
    StmtClosed(true, ft, frames, o.held, s, |o.ops|, 0, 0, false, inFn);
    InwardStart(ft, o, inFn);
    InwardAppend(ft, |o.ops|, o, OutStmt(ft, frames, s, o), StmtCode(true, ft, frames, o.held, s, |o.ops|, 0, 0), inFn);
  }

  lemma {:induction false} ListInside(ft: Funcs, frames: Frames, body: List<Stmt>, o: Output, inFn: bool)
    requires OutOk(o) && !ListErr(ft, frames, body) && ListPlaced(body, true, inFn)
    ensures Inward(ft, |o.ops|, OutList(ft, frames, body, o), inFn)
    decreases body, 0
  {
    hide OutStmt, StmtErr, WellPlaced, Inward, OutOk, Grows;
    match body
    case Nil => InwardStart(ft, o, inFn);
    case Cons(s, rest) =>
      var o1 := OutStmt(ft, frames, s, o);
      StmtInside(ft, frames, s, o, inFn);
      StmtOutGrows(ft, frames, s, o);
      ListInside(ft, FramesAfter(frames, s), rest, o1, inFn);
      ListOutGrows(ft, FramesAfter(frames, s), rest, o1);
      InwardGrows(ft, |o.ops|, o1, OutList(ft, FramesAfter(frames, s), rest, o1), inFn);
  }

  /** Like Inward, but the jump at `hole` has no target yet. */
  predicate InwardBut(ft: Funcs, n: nat, o: Output, hole: nat, inFn: bool) {
    && n <= hole < |o.ops| && !Waits(o, hole) && o.ops[hole] == Jmp(0)
    && forall a :: n <= a < |o.ops| && a != hole && !Waits(o, a) ==> OpIn(ft, o.ops[a], n, |o.ops|, {}, inFn)
  }

  lemma BranchInside(ft: Funcs, frames: Frames, c: Expr, o: Output, inFn: bool)
    requires OutOk(o) && !ExprErr(ft, frames, c)
    ensures var o1 := AfterExpr(ft, frames, c, o);
            var o2 := Branch(o1, Res(o.held, c));
            OutOk(o2) && Grows(|o.ops|, o, o2) && InwardBut(ft, |o.ops|, o2, |o1.ops| + 1, inFn)
  {
    hide ExprErr, Res, ExprCode;
    var o1 := AfterExpr(ft, frames, c, o);
    var o2 := Branch(o1, Res(o.held, c));
    var code := ExprCode(ft, frames, o.held, c, Res(o.held, c));
    Appended(o, o2);
    ExprClosed(ft, frames, o.held, c, Res(o.held, c), |o.ops|, |o2.ops|, {}, inFn);
    assert WaitOk(o, |o1.ops| + 1);
    forall a | |o.ops| <= a < |o2.ops| && a != |o1.ops| + 1 && !Waits(o2, a)
      ensures OpIn(ft, o2.ops[a], |o.ops|, |o2.ops|, {}, inFn)
    {
      if a < |o1.ops| {
        assert o2.ops[a] == code[a - |o.ops|] && OpIn(ft, code[a - |o.ops|], |o.ops|, |o2.ops|, {}, inFn);
      }
    }
  }

  lemma ButGrows(ft: Funcs, n: nat, o: Output, to: Output, hole: nat, inFn: bool)
    requires InwardBut(ft, n, o, hole, inFn) && OutOk(o) && Grows(|o.ops|, o, to) && Inward(ft, |o.ops|, to, inFn)
    ensures InwardBut(ft, n, to, hole, inFn)
  {
    assert Moves(o, to, hole);
    forall a | n <= a < |to.ops| && a != hole && !Waits(to, a)
      ensures OpIn(ft, to.ops[a], n, |to.ops|, {}, inFn)
    {
      if a < |o.ops| {
        assert Moves(o, to, a) && WaitOk(o, a);
        if !Waits(o, a) {
          assert OpIn(ft, o.ops[a], n, |o.ops|, {}, inFn);
        }
      } else {
        assert OpIn(ft, to.ops[a], |o.ops|, |to.ops|, {}, inFn);
      }
    }
  }

  /** The hole of the test is closed, and the one at the end of the then-branch opened. */
  lemma OpenInside(ft: Funcs, n: nat, o: Output, hole: nat, inFn: bool)
    requires OutOk(o) && InwardBut(ft, n, o, hole, inFn)
    ensures InwardBut(ft, n, OpenElse(o, hole), |o.ops|, inFn)
  {
    var to := OpenElse(o, hole);
    assert WaitOk(o, |o.ops|);
    forall a | n <= a < |to.ops| && a != |o.ops| && !Waits(to, a)
      ensures OpIn(ft, to.ops[a], n, |to.ops|, {}, inFn)
    {
      if a != hole {
        assert OpIn(ft, o.ops[a], n, |o.ops|, {}, inFn);
      }
    }
  }

  lemma CloseInside(ft: Funcs, n: nat, o: Output, hole: nat, r: nat, inFn: bool)
    requires InwardBut(ft, n, o, hole, inFn)
    ensures Inward(ft, n, CloseIf(o, hole, r), inFn)
  {
    var to := CloseIf(o, hole, r);
    forall a | n <= a < |to.ops| && !Waits(to, a)
      ensures OpIn(ft, to.ops[a], n, |to.ops|, {}, inFn)
    {
      if a != hole {
        assert OpIn(ft, o.ops[a], n, |o.ops|, {}, inFn);
      }
    }
  }

  lemma {:induction false} IfInside(ft: Funcs, frames: Frames, c: Expr, thn: List<Stmt>, els: List<Stmt>, o: Output,
                                    inFn: bool)
    requires OutOk(o) && !StmtErr(ft, frames, If(c, thn, els)) && WellPlaced(If(c, thn, els), true, inFn)
    ensures Inward(ft, |o.ops|, OutIf(ft, frames, c, thn, els, o), inFn)
    decreases If(c, thn, els), 0
  {
    hide OutList, ExprErr, ListErr, ListPlaced, Inward, InwardBut, OutOk, Grows, Res, ExprCode, FramesAfterBlock,
         OpenElse, CloseIf;
    var n, f2, o1 := |o.ops|, FramesAfterBlock(frames, thn), AfterExpr(ft, frames, c, o);
    var o2 := Branch(o1, Res(o.held, c));
    var o3 := OutList(ft, frames, thn, o2);
    BranchInside(ft, frames, c, o, inFn);
    ListInside(ft, frames, thn, o2, inFn);
    ListOutGrows(ft, frames, thn, o2);
    ButGrows(ft, n, o2, o3, |o1.ops| + 1, inFn);
    var o4 := OpenElse(o3, |o1.ops| + 1);
    OpenInside(ft, n, o3, |o1.ops| + 1, inFn);
    OpenGrows(0, o3, |o1.ops| + 1);
    OpenLen(o3, |o1.ops| + 1);
    var o5 := OutList(ft, f2, els, o4);
    ListInside(ft, f2, els, o4, inFn);
    ListOutGrows(ft, f2, els, o4);
    ButGrows(ft, n, o4, o5, |o3.ops|, inFn);
    CloseInside(ft, n, o5, |o3.ops|, Res(o.held, c), inFn);
  }

  lemma {:induction false} LoopInside(ft: Funcs, frames: Frames, count: Option<Expr>, body: List<Stmt>, o: Output,
                                      inFn: bool)
    requires OutOk(o) && (count.Some? ==> !ExprErr(ft, frames, count.value)) && !ListErr(ft, frames, body)
             && ListPlaced(body, true, inFn)
    ensures Inward(ft, |o.ops|, OutLoop(ft, frames, count, body, o), inFn)
    decreases Loop(count, body), 0
  {
    hide OutList, ExprErr, ListErr, ListPlaced, Inward, OutOk, Grows, CloseLoop, CountCode, CounterHeld, TestCode,
         ExprCode, Res;
    var n, o2 := |o.ops|, LoopTest(ft, frames, count, o);
    var start := |o.ops + CountCode(ft, frames, o.held, count)|;
    var o3 := OutList(ft, frames, body, o2);
    Appended(o, o2);
    ListInside(ft, frames, body, o2, inFn);
    ListOutGrows(ft, frames, body, o2);
    LoopIs(ft, frames, count, body, o);
    CountInside(ft, frames, count, o, inFn);
    LoopBody(ft, frames, count, o, o3, inFn);
    CloseLoopInside(ft, n, o3, Counter(o.held, count), start, inFn);
  }

  /** Before the test has its target: everything from the loop on stays inside, but for the test. */
  predicate InwardTest(ft: Funcs, n: nat, o: Output, r: Option<nat>, start: nat, inFn: bool) {
    && n <= start <= |o.ops| && (r.Some? ==> start < |o.ops| && o.ops[start] == IfFalse(r.value, 0) && !Waits(o, start))
    && forall a :: n <= a < |o.ops| && (a != start || r.None?) && !Waits(o, a)
        ==> OpIn(ft, o.ops[a], n, |o.ops|, {}, inFn)
  }

  lemma CountInside(ft: Funcs, frames: Frames, count: Option<Expr>, o: Output, inFn: bool)
    requires OutOk(o) && (count.Some? ==> !ExprErr(ft, frames, count.value))
    ensures InwardTest(ft, |o.ops|, LoopTest(ft, frames, count, o), Counter(o.held, count),
                       |o.ops + CountCode(ft, frames, o.held, count)|, inFn)
  {
    hide ExprErr, Res, ExprCode;
    var o2 := LoopTest(ft, frames, count, o);
    var code := CountCode(ft, frames, o.held, count);
    assert WaitOk(o, |o.ops + code|);
    if count.Some? {
      ExprClosed(ft, frames, o.held, count.value, Res(o.held, count.value), |o.ops|, |o2.ops|, {}, inFn);
      forall a | |o.ops| <= a < |o.ops + code|
        ensures OpIn(ft, o2.ops[a], |o.ops|, |o2.ops|, {}, inFn)
      {
        assert o2.ops[a] == code[a - |o.ops|] && OpIn(ft, code[a - |o.ops|], |o.ops|, |o2.ops|, {}, inFn);
      }
    }
  }

  lemma LoopBody(ft: Funcs, frames: Frames, count: Option<Expr>, o: Output, o3: Output, inFn: bool)
    requires var o2, start := LoopTest(ft, frames, count, o), |o.ops + CountCode(ft, frames, o.held, count)|;
             && OutOk(o2) && Grows(|o2.ops|, o2, o3) && Inward(ft, |o2.ops|, o3, inFn)
             && InwardTest(ft, |o.ops|, o2, Counter(o.held, count), start, inFn)
    ensures InwardTest(ft, |o.ops|, o3, Counter(o.held, count), |o.ops + CountCode(ft, frames, o.held, count)|, inFn)
  {
    hide LoopTest, CountCode;
    var o2, start, r := LoopTest(ft, frames, count, o), |o.ops + CountCode(ft, frames, o.held, count)|,
                        Counter(o.held, count);
    if r.Some? {
      assert Moves(o2, o3, start);
    }
    forall a | |o.ops| <= a < |o3.ops| && (a != start || r.None?) && !Waits(o3, a)
      ensures OpIn(ft, o3.ops[a], |o.ops|, |o3.ops|, {}, inFn)
    {
      if a < |o2.ops| {
        assert Moves(o2, o3, a) && WaitOk(o2, a);
        if !Waits(o2, a) {
          assert OpIn(ft, o2.ops[a], |o.ops|, |o2.ops|, {}, inFn);
        }
      } else {
        assert OpIn(ft, o3.ops[a], |o2.ops|, |o3.ops|, {}, inFn);
      }
    }
  }

  lemma CloseLoopInside(ft: Funcs, n: nat, o: Output, r: Option<nat>, start: nat, inFn: bool)
    requires OutOk(o) && InwardTest(ft, n, o, r, start, inFn)
    ensures Inward(ft, n, CloseLoop(o, r, start), inFn)
  {
    var to := CloseLoop(o, r, start);
    var ops := o.ops + LoopTail(r, start);
    PatchBoth(ops, o.breaks, |ops|, o.continues, |o.ops|);
    forall a | n <= a < |to.ops|
      ensures OpIn(ft, to.ops[a], n, |to.ops|, {}, inFn)
    {
      assert WaitOk(o, a);
      if a < |o.ops| {
        if Waits(o, a) {
          assert to.ops[a] == if a in o.continues then Jmp(|o.ops|) else Jmp(|ops|);
        } else if a != start || r.None? {
          assert OpIn(ft, o.ops[a], n, |o.ops|, {}, inFn);
          assert to.ops[a] == o.ops[a];
        } else {
          assert to.ops[a] == IfFalse(r.value, |ops|);
        }
      } else {
        assert to.ops[a] == LoopTail(r, start)[a - |o.ops|];
      }
    }
  }
}
