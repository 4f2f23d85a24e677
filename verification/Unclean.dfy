/** The other half of the backpatching theorem: a loop reached while jumps of an outer loop are pending
    directs them to itself, and the code is wrong. */
module Unclean {
  import opened Words
  import opened Machine
  import opened Source
  import opened Reference
  import opened Patching
  import opened Emission
  import opened Faithful

  // ----- what later code does to earlier code -----

  predicate Waits(o: Output, a: nat) {
    a in o.breaks || a in o.continues
  }

  predicate WaitOk(o: Output, a: nat) {
    Waits(o, a) ==> a < |o.ops| && o.ops[a].Jmp?
  }

  /** Recorded addresses hold jumps. */
  ghost predicate OutOk(o: Output) {
    forall a: nat :: WaitOk(o, a)
  }

  predicate Stays(o: Output, to: Output, a: nat) {
    && a < |o.ops| <= |to.ops| && to.ops[a] == o.ops[a]
    && (a in to.breaks <==> a in o.breaks) && (a in to.continues <==> a in o.continues)
  }

  /** A jump pending in `o` has got a target, further on: for a break at most the end of the code, for a
      continue before the end. */
  predicate Settled(o: Output, to: Output, a: nat) {
    && a < |to.ops| && !Waits(to, a) && to.ops[a].Jmp? && a < to.ops[a].target
    && if a in o.continues then to.ops[a].target < |to.ops| else a in o.breaks && to.ops[a].target <= |to.ops|
  }

  predicate Moves(o: Output, to: Output, a: nat) {
    Stays(o, to, a) || (Waits(o, a) && Settled(o, to, a))
  }

  /** The first `n` instructions are as before, except for pending jumps that have been settled. */
  ghost predicate Grows(n: nat, o: Output, to: Output) {
    n <= |o.ops| <= |to.ops| && forall a: nat :: a < n ==> Moves(o, to, a)
  }

  lemma GrowsTrans(n: nat, o: Output, p: Output, q: Output)
    requires Grows(n, o, p) && Grows(n, p, q)
    ensures Grows(n, o, q)
  {
    forall a: nat | a < n
      ensures Moves(o, q, a)
    {
      assert Moves(o, p, a) && Moves(p, q, a);
    }
  }

  lemma GrowsLess(m: nat, n: nat, o: Output, p: Output)
    requires Grows(n, o, p) && m <= n
    ensures Grows(m, o, p)
  {
  }

  lemma Appended(o: Output, to: Output)
    requires |o.ops| <= |to.ops| && to.ops[..|o.ops|] == o.ops && to.breaks == o.breaks && to.continues == o.continues
    ensures Grows(|o.ops|, o, to) && (OutOk(o) ==> OutOk(to))
  {
    forall a: nat | a < |o.ops|
      ensures Moves(o, to, a)
    {
      assert to.ops[..|o.ops|][a] == to.ops[a];
    }
    if OutOk(o) {
      forall a: nat
        ensures WaitOk(to, a)
      {
        assert WaitOk(o, a);
      }
    }
  }

  lemma {:induction false} StmtOutGrows(ft: Funcs, frames: Frames, s: Stmt, o: Output)
    requires OutOk(o)
    ensures OutOk(OutStmt(ft, frames, s, o)) && Grows(|o.ops|, o, OutStmt(ft, frames, s, o))
    decreases s, 1
  {
    hide StmtCode, OutIf, OutLoop, OutList, HeldAfter, Grows, OutOk;
    match s
    case Block(body) => ListOutGrows(ft, frames, body, o);
    case If(c, thn, els) => IfOutGrows(ft, frames, c, thn, els, o);
    case Loop(count, body) => LoopOutGrows(ft, frames, count, body, o);
    case Break => JumpGrows(o);
    case Continue => JumpGrows(o);
    case _ => Appended(o, OutStmt(ft, frames, s, o));
  }

  lemma JumpGrows(o: Output)
    requires OutOk(o)
    ensures var to := o.(ops := o.ops + [Jmp(0)], breaks := o.breaks + [|o.ops|]); OutOk(to) && Grows(|o.ops|, o, to)
    ensures var to := o.(ops := o.ops + [Jmp(0)], continues := o.continues + [|o.ops|]);
            OutOk(to) && Grows(|o.ops|, o, to)
  {
    var ops := o.ops + [Jmp(0)];
    var b, c := o.(ops := ops, breaks := o.breaks + [|o.ops|]), o.(ops := ops, continues := o.continues + [|o.ops|]);
    forall a: nat
      ensures WaitOk(b, a) && WaitOk(c, a)
      ensures a < |o.ops| ==> Moves(o, b, a) && Moves(o, c, a)
    {
      assert WaitOk(o, a);
    }
  }

  lemma {:induction false} ListOutGrows(ft: Funcs, frames: Frames, body: List<Stmt>, o: Output)
    requires OutOk(o)
    ensures OutOk(OutList(ft, frames, body, o)) && Grows(|o.ops|, o, OutList(ft, frames, body, o))
    decreases body, 0
  {
    hide OutStmt, Grows, OutOk;
    match body
    case Nil => Appended(o, o);
    case Cons(s, rest) =>
      var o1 := OutStmt(ft, frames, s, o);
      StmtOutGrows(ft, frames, s, o);
      ListOutGrows(ft, FramesAfter(frames, s), rest, o1);
      GrowsLess(|o.ops|, |o1.ops|, o1, OutList(ft, FramesAfter(frames, s), rest, o1));
      GrowsTrans(|o.ops|, o, o1, OutList(ft, FramesAfter(frames, s), rest, o1));
  }

  lemma OpenGrows(n: nat, o: Output, at: nat)
    requires OutOk(o) && n <= at < |o.ops|
    ensures OutOk(OpenElse(o, at)) && Grows(n, o, OpenElse(o, at))
  {
    forall a: nat
      ensures WaitOk(OpenElse(o, at), a)
      ensures a < n ==> Moves(o, OpenElse(o, at), a)
    {
      assert WaitOk(o, a);
    }
  }

  lemma CloseGrows(n: nat, o: Output, at: nat, r: nat)
    requires OutOk(o) && n <= at < |o.ops|
    ensures OutOk(CloseIf(o, at, r)) && Grows(n, o, CloseIf(o, at, r))
  {
    forall a: nat
      ensures WaitOk(CloseIf(o, at, r), a)
      ensures a < n ==> Moves(o, CloseIf(o, at, r), a)
    {
      assert WaitOk(o, a);
    }
  }

  lemma {:induction false} IfOutGrows(ft: Funcs, frames: Frames, c: Expr, thn: List<Stmt>, els: List<Stmt>, o: Output)
    requires OutOk(o)
    ensures OutOk(OutIf(ft, frames, c, thn, els, o)) && Grows(|o.ops|, o, OutIf(ft, frames, c, thn, els, o))
    decreases If(c, thn, els), 0
  {
    hide OutList, Grows, OutOk, ExprCode, Res, FramesAfterBlock, OpenElse, CloseIf;
    var n, o1 := |o.ops|, AfterExpr(ft, frames, c, o);
    var o2 := Branch(o1, Res(o.held, c));
    var o3 := OutList(ft, frames, thn, o2);
    Appended(o, o2);
    ListOutGrows(ft, frames, thn, o2);
    GrowsLess(n, |o2.ops|, o2, o3);
    GrowsTrans(n, o, o2, o3);
    var o4 := OpenElse(o3, |o1.ops| + 1);
    OpenGrows(n, o3, |o1.ops| + 1);
    GrowsTrans(n, o, o3, o4);
    var o5 := OutList(ft, FramesAfterBlock(frames, thn), els, o4);
    ListOutGrows(ft, FramesAfterBlock(frames, thn), els, o4);
    OpenLen(o3, |o1.ops| + 1);
    GrowsLess(n, |o4.ops|, o4, o5);
    GrowsTrans(n, o, o4, o5);
    CloseGrows(n, o5, |o3.ops|, Res(o.held, c));
    GrowsTrans(n, o, o5, CloseIf(o5, |o3.ops|, Res(o.held, c)));
  }

  lemma OpenLen(o: Output, at: nat)
    requires at < |o.ops|
    ensures |OpenElse(o, at).ops| == |o.ops| + 1
  {
  }

  /** A loop settles every jump that is pending when it ends. */
  lemma CloseLoopGrows(n: nat, o: Output, r: Option<nat>, start: nat)
    requires OutOk(o) && n <= start && (start < |o.ops| || (r.None? && start == |o.ops|))
    ensures OutOk(CloseLoop(o, r, start)) && Grows(n, o, CloseLoop(o, r, start)) && !Pending(CloseLoop(o, r, start))
    ensures forall a :: n <= a < |o.ops| && (a != start || r.None?) && !Waits(o, a) ==>
              CloseLoop(o, r, start).ops[a] == o.ops[a]
  {
    hide LoopTail, Release;
    var to := CloseLoop(o, r, start);
    var ops := o.ops + LoopTail(r, start);
    PatchBoth(ops, o.breaks, |ops|, o.continues, |o.ops|);
    forall a: nat | a < n
      ensures Moves(o, to, a)
    {
      assert WaitOk(o, a) && ops[a] == o.ops[a];
      if Waits(o, a) {
        assert to.ops[a] == if a in o.continues then Jmp(|o.ops|) else Jmp(|ops|);
      }
    }
  }

  lemma {:induction false} LoopOutGrows(ft: Funcs, frames: Frames, count: Option<Expr>, body: List<Stmt>, o: Output)
    requires OutOk(o)
    ensures OutOk(OutLoop(ft, frames, count, body, o)) && Grows(|o.ops|, o, OutLoop(ft, frames, count, body, o))
    ensures !Pending(OutLoop(ft, frames, count, body, o))
    decreases Loop(count, body), 0
  {
    hide OutList, Grows, OutOk, CountCode, CounterHeld, CloseLoop;
    var n, o2 := |o.ops|, LoopTest(ft, frames, count, o);
    var start := |o.ops + CountCode(ft, frames, o.held, count)|;
    var o3 := OutList(ft, frames, body, o2);
    Appended(o, o2);
    ListOutGrows(ft, frames, body, o2);
    GrowsLess(n, |o2.ops|, o2, o3);
    GrowsTrans(n, o, o2, o3);
    CloseLoopGrows(n, o3, Counter(o.held, count), start);
    GrowsTrans(n, o, o3, CloseLoop(o3, Counter(o.held, count), start));
  }

  // ----- where the intended code has its jumps -----

  lemma IfIndex(ft: Funcs, frames: Frames, h: Held, e: Expr, thn: List<Stmt>, els: List<Stmt>, n: nat, b: nat, c: nat,
                a: nat)
    ensures var code := StmtCode(true, ft, frames, h, If(e, thn, els), n, b, c);
            && (ThenAt(true, e, n) <= a < ThenAt(true, e, n) + ListLen(true, thn) ==>
                  code[a - n] == ListCode(true, ft, frames, Hold(h, Res(h, e)), thn, ThenAt(true, e, n), b,
                                          c)[a - ThenAt(true, e, n)])
            && (ElseAt(true, e, thn, n) <= a < ElseAt(true, e, thn, n) + ListLen(true, els) ==>
                  code[a - n] == ListCode(true, ft, FramesAfterBlock(frames, thn),
                                          HeldAfterList(Hold(h, Res(h, e)), thn), els, ElseAt(true, e, thn, n), b, c)
                                   [a - ElseAt(true, e, thn, n)])
  {
    hide FirstFree, Alloc, Res, FramesAfterBlock, HeldAfterList, ExprCode, ListCode, ExprLen;
    ResLen(h, e);
  }

  lemma ConsIndex(ft: Funcs, frames: Frames, h: Held, s: Stmt, rest: List<Stmt>, n: nat, b: nat, c: nat, a: nat)
    requires n <= a < n + StmtLen(true, s) + ListLen(true, rest)
    ensures var n1, code := n + StmtLen(true, s), ListCode(true, ft, frames, h, Cons(s, rest), n, b, c);
            code[a - n] == if a < n1 then StmtCode(true, ft, frames, h, s, n, b, c)[a - n]
                           else ListCode(true, ft, FramesAfter(frames, s), HeldAfter(h, s), rest, n1, b, c)[a - n1]
  {
    hide StmtCode, ListCode, FramesAfter, HeldAfter;
    ConsCode(ft, frames, h, s, rest, n, b, c);
    PairIndex(StmtCode(true, ft, frames, h, s, n, b, c),
              ListCode(true, ft, FramesAfter(frames, s), HeldAfter(h, s), rest, n + StmtLen(true, s), b, c), a - n);
  }

  lemma PairIndex(x: seq<Op>, y: seq<Op>, i: nat)
    requires i < |x| + |y|
    ensures (x + y)[i] == if i < |x| then x[i] else y[i - |x|]
  {
  }

  /** A recorded address holds the jump to the target it was recorded for. */
  predicate Lands(ft: Funcs, frames: Frames, h: Held, s: Stmt, n: nat, b: nat, c: nat, a: nat) {
    && n <= a < n + StmtLen(true, s)
    && (a in Continues(s, n) ==> StmtCode(true, ft, frames, h, s, n, b, c)[a - n] == Jmp(c))
    && (a in Breaks(s, n) ==> StmtCode(true, ft, frames, h, s, n, b, c)[a - n] == Jmp(b))
  }

  predicate ListLands(ft: Funcs, frames: Frames, h: Held, body: List<Stmt>, n: nat, b: nat, c: nat, a: nat) {
    && n <= a < n + ListLen(true, body)
    && (a in ListContinues(body, n) ==> ListCode(true, ft, frames, h, body, n, b, c)[a - n] == Jmp(c))
    && (a in ListBreaks(body, n) ==> ListCode(true, ft, frames, h, body, n, b, c)[a - n] == Jmp(b))
  }

  lemma {:induction false} JumpAt(ft: Funcs, frames: Frames, h: Held, s: Stmt, n: nat, b: nat, c: nat, a: nat)
    requires a in Breaks(s, n) || a in Continues(s, n)
    ensures Lands(ft, frames, h, s, n, b, c, a)
    decreases s, 1
  {
    hide ListLands, FramesAfterBlock, HeldAfterList, ListBreaks, ListContinues, StmtCode;
    match s
    case Block(body) =>
      ListJumpAt(ft, frames, h, body, n, b, c, a);
      BlockLands(ft, frames, h, body, n, b, c, a);
    case If(e, thn, els) =>
      if a in ListBreaks(thn, ThenAt(true, e, n)) || a in ListContinues(thn, ThenAt(true, e, n)) {
        ListJumpAt(ft, frames, Hold(h, Res(h, e)), thn, ThenAt(true, e, n), b, c, a);
        ThenLands(ft, frames, h, e, thn, els, n, b, c, a);
      } else {
        ListJumpAt(ft, FramesAfterBlock(frames, thn), HeldAfterList(Hold(h, Res(h, e)), thn), els,
                   ElseAt(true, e, thn, n), b, c, a);
        ElseLands(ft, frames, h, e, thn, els, n, b, c, a);
      }
    case Break => JumpLands(ft, frames, h, n, b, c);
    case Continue => JumpLands(ft, frames, h, n, b, c);
    case _ =>
  }

  lemma JumpLands(ft: Funcs, frames: Frames, h: Held, n: nat, b: nat, c: nat)
    ensures Lands(ft, frames, h, Break, n, b, c, n) && Lands(ft, frames, h, Continue, n, b, c, n)
  {
  }

  lemma BlockLands(ft: Funcs, frames: Frames, h: Held, body: List<Stmt>, n: nat, b: nat, c: nat, a: nat)
    requires ListLands(ft, frames, h, body, n, b, c, a)
    ensures Lands(ft, frames, h, Block(body), n, b, c, a)
  {
    hide ListCode;
  }

  lemma ThenLands(ft: Funcs, frames: Frames, h: Held, e: Expr, thn: List<Stmt>, els: List<Stmt>, n: nat, b: nat,
                  c: nat, a: nat)
    requires ListLands(ft, frames, Hold(h, Res(h, e)), thn, ThenAt(true, e, n), b, c, a)
    ensures Lands(ft, frames, h, If(e, thn, els), n, b, c, a)
  {
    hide StmtCode, ListCode, FramesAfterBlock, HeldAfterList, Res, ExprLen;
    IfIndex(ft, frames, h, e, thn, els, n, b, c, a);
    ListPendingSpan(els, ElseAt(true, e, thn, n));
  }

  lemma ElseLands(ft: Funcs, frames: Frames, h: Held, e: Expr, thn: List<Stmt>, els: List<Stmt>, n: nat, b: nat,
                  c: nat, a: nat)
    requires ListLands(ft, FramesAfterBlock(frames, thn), HeldAfterList(Hold(h, Res(h, e)), thn), els,
                       ElseAt(true, e, thn, n), b, c, a)
    ensures Lands(ft, frames, h, If(e, thn, els), n, b, c, a)
  {
    hide StmtCode, ListCode, FramesAfterBlock, HeldAfterList, Res, ExprLen;
    IfIndex(ft, frames, h, e, thn, els, n, b, c, a);
    ListPendingSpan(thn, ThenAt(true, e, n));
  }

  lemma {:induction false} ListJumpAt(ft: Funcs, frames: Frames, h: Held, body: List<Stmt>, n: nat, b: nat, c: nat,
                                      a: nat)
    requires a in ListBreaks(body, n) || a in ListContinues(body, n)
    ensures ListLands(ft, frames, h, body, n, b, c, a)
    decreases body, 0
  {
    hide Breaks, Continues, Lands, ListLands;
    match body
    case Nil =>
    case Cons(s, rest) =>
      if a in Breaks(s, n) || a in Continues(s, n) {
        JumpAt(ft, frames, h, s, n, b, c, a);
        HeadLands(ft, frames, h, s, rest, n, b, c, a);
      } else {
        ListJumpAt(ft, FramesAfter(frames, s), HeldAfter(h, s), rest, n + StmtLen(true, s), b, c, a);
        TailLands(ft, frames, h, s, rest, n, b, c, a);
      }
  }

  lemma HeadLands(ft: Funcs, frames: Frames, h: Held, s: Stmt, rest: List<Stmt>, n: nat, b: nat, c: nat, a: nat)
    requires Lands(ft, frames, h, s, n, b, c, a)
    ensures ListLands(ft, frames, h, Cons(s, rest), n, b, c, a)
  {
    hide StmtCode, ListCode, Breaks, Continues;
    ListPendingSpan(rest, n + StmtLen(true, s));
    ConsIndex(ft, frames, h, s, rest, n, b, c, a);
  }

  lemma TailLands(ft: Funcs, frames: Frames, h: Held, s: Stmt, rest: List<Stmt>, n: nat, b: nat, c: nat, a: nat)
    requires ListLands(ft, FramesAfter(frames, s), HeldAfter(h, s), rest, n + StmtLen(true, s), b, c, a)
    ensures ListLands(ft, frames, h, Cons(s, rest), n, b, c, a)
  {
    hide StmtCode, ListCode, Breaks, Continues, FramesAfter, HeldAfter;
    PendingSpan(s, n);
    ConsIndex(ft, frames, h, s, rest, n, b, c, a);
  }

  // ----- a wrong instruction -----

  /** The instruction at `a` of the output is none that the intended code has there, whatever later
      targets an enclosing loop may supply; or it is a jump of the enclosing loop, settled too early. */
  ghost predicate Spoiled(ft: Funcs, frames: Frames, s: Stmt, o: Output, to: Output, a: nat) {
    && a < |to.ops| && !Waits(to, a)
    && if a < |o.ops| then Waits(o, a) && Settled(o, to, a)
       else
         && a < |o.ops| + StmtLen(true, s)
         && forall b, c :: b > |to.ops| && c >= |to.ops| ==>
              Differs(ft, frames, o.held, s, |o.ops|, b, c, a, to.ops[a])
  }

  predicate Differs(ft: Funcs, frames: Frames, h: Held, s: Stmt, n: nat, b: nat, c: nat, a: nat, op: Op)
    requires n <= a < n + StmtLen(true, s)
  {
    StmtCode(true, ft, frames, h, s, n, b, c)[a - n] != op
  }

  ghost predicate ListSpoiled(ft: Funcs, frames: Frames, body: List<Stmt>, o: Output, to: Output, a: nat) {
    && a < |to.ops| && !Waits(to, a)
    && if a < |o.ops| then Waits(o, a) && Settled(o, to, a)
       else
         && a < |o.ops| + ListLen(true, body)
         && forall b, c :: b > |to.ops| && c >= |to.ops| ==>
              ListDiffers(ft, frames, o.held, body, |o.ops|, b, c, a, to.ops[a])
  }

  predicate ListDiffers(ft: Funcs, frames: Frames, h: Held, body: List<Stmt>, n: nat, b: nat, c: nat, a: nat, op: Op)
    requires n <= a < n + ListLen(true, body)
  {
    ListCode(true, ft, frames, h, body, n, b, c)[a - n] != op
  }

  /** An unclean statement leaves a wrong instruction. */
  lemma {:induction false} StmtUnclean(ft: Funcs, frames: Frames, s: Stmt, o: Output) returns (a: nat)
    requires OutOk(o) && !Clean(Pending(o), s)
    ensures Spoiled(ft, frames, s, o, OutStmt(ft, frames, s, o), a)
    decreases s, 1
  {
    hide ListClean, ListSpoiled, Spoiled, OutIf, OutLoop, OutList, StmtCode, OutOk;
    match s
    case Block(body) =>
      a := ListUnclean(ft, frames, body, o);
      BlockSpoiled(ft, frames, body, o, OutList(ft, frames, body, o), a);
    case If(e, thn, els) => a := IfUnclean(ft, frames, e, thn, els, o);
    case Loop(count, body) => a := LoopUnclean(ft, frames, count, body, o);
  }

  lemma BlockSpoiled(ft: Funcs, frames: Frames, body: List<Stmt>, o: Output, to: Output, a: nat)
    requires ListSpoiled(ft, frames, body, o, to, a)
    ensures Spoiled(ft, frames, Block(body), o, to, a)
  {
    hide ListCode;
    if a >= |o.ops| {
      forall b, c | b > |to.ops| && c >= |to.ops|
        ensures Differs(ft, frames, o.held, Block(body), |o.ops|, b, c, a, to.ops[a])
      {
        assert ListDiffers(ft, frames, o.held, body, |o.ops|, b, c, a, to.ops[a]);
      }
    }
  }

  lemma {:induction false} ListUnclean(ft: Funcs, frames: Frames, body: List<Stmt>, o: Output) returns (a: nat)
    requires OutOk(o) && !ListClean(Pending(o), body)
    ensures ListSpoiled(ft, frames, body, o, OutList(ft, frames, body, o), a)
    decreases body, 0
  {
    hide Clean, ListSpoiled, Spoiled, OutStmt, OutOk, Intended, Grows, Breaks, Continues;
    var s, rest := body.head, body.tail;
    var o1 := OutStmt(ft, frames, s, o);
    var o2 := OutList(ft, FramesAfter(frames, s), rest, o1);
    StmtOutGrows(ft, frames, s, o);
    if !Clean(Pending(o), s) {
      a := StmtUnclean(ft, frames, s, o);
      ListOutGrows(ft, FramesAfter(frames, s), rest, o1);
      SpoiledFirst(ft, frames, s, rest, o, o1, o2, a);
    } else {
      CleanIntended(ft, frames, s, o);
      StillPending(ft, frames, s, o, o1);
      a := ListUnclean(ft, FramesAfter(frames, s), rest, o1);
      SpoiledRest(ft, frames, s, rest, o, o1, o2, a);
    }
  }

  lemma StillPending(ft: Funcs, frames: Frames, s: Stmt, o: Output, o1: Output)
    requires Intended(ft, frames, s, o, o1)
    ensures Pending(o1) == (Pending(o) || Pends(s))
  {
    PendsMeans(s, |o.ops|);
  }

  lemma SpoiledFirst(ft: Funcs, frames: Frames, s: Stmt, rest: List<Stmt>, o: Output, o1: Output, o2: Output, a: nat)
    requires Spoiled(ft, frames, s, o, o1, a) && Grows(|o1.ops|, o1, o2)
    ensures ListSpoiled(ft, frames, Cons(s, rest), o, o2, a)
  {
    hide StmtCode, ListCode;
    assert Moves(o1, o2, a);
    if a >= |o.ops| {
      forall b, c | b > |o2.ops| && c >= |o2.ops|
        ensures ListDiffers(ft, frames, o.held, Cons(s, rest), |o.ops|, b, c, a, o2.ops[a])
      {
        assert Differs(ft, frames, o.held, s, |o.ops|, b, c, a, o1.ops[a]);
        ConsIndex(ft, frames, o.held, s, rest, |o.ops|, b, c, a);
      }
    }
  }

  lemma SpoiledRest(ft: Funcs, frames: Frames, s: Stmt, rest: List<Stmt>, o: Output, o1: Output, o2: Output, a: nat)
    requires OutOk(o) && Intended(ft, frames, s, o, o1) && ListSpoiled(ft, FramesAfter(frames, s), rest, o1, o2, a)
    requires |o1.ops| <= |o2.ops|
    ensures ListSpoiled(ft, frames, Cons(s, rest), o, o2, a)
  {
    hide StmtCode, ListCode, Breaks, Continues, FramesAfter, HeldAfter;
    var n := |o.ops|;
    PendingSpan(s, n);
    assert WaitOk(o, a);
    if a >= n {
      forall b, c | b > |o2.ops| && c >= |o2.ops|
        ensures ListDiffers(ft, frames, o.held, Cons(s, rest), n, b, c, a, o2.ops[a])
      {
        ConsIndex(ft, frames, o.held, s, rest, n, b, c, a);
        if a < |o1.ops| {
          JumpAt(ft, frames, o.held, s, n, b, c, a);
        } else {
          assert ListDiffers(ft, FramesAfter(frames, s), o1.held, rest, |o1.ops|, b, c, a, o2.ops[a]);
        }
      }
    }
  }

  lemma {:induction false} IfUnclean(ft: Funcs, frames: Frames, e: Expr, thn: List<Stmt>, els: List<Stmt>, o: Output)
    returns (a: nat)
    requires OutOk(o) && !Clean(Pending(o), If(e, thn, els))
    ensures Spoiled(ft, frames, If(e, thn, els), o, OutIf(ft, frames, e, thn, els, o), a)
    decreases If(e, thn, els), 0
  {
    hide ListClean, ListSpoiled, Spoiled, OutList, OutOk, ListIntended, Grows, ExprCode, Res, FramesAfterBlock,
         OpenElse, CloseIf;
    var f2, o1 := FramesAfterBlock(frames, thn), AfterExpr(ft, frames, e, o);
    var o2 := Branch(o1, Res(o.held, e));
    var o3 := OutList(ft, frames, thn, o2);
    var o4 := OpenElse(o3, |o1.ops| + 1);
    var o5 := OutList(ft, f2, els, o4);
    Appended(o, o2);
    ListOutGrows(ft, frames, thn, o2);
    OpenLen(o3, |o1.ops| + 1);
    OpenGrows(0, o3, |o1.ops| + 1);
    ListOutGrows(ft, f2, els, o4);
    if !ListClean(Pending(o2), thn) {
      a := ListUnclean(ft, frames, thn, o2);
      SpoiledThen(ft, frames, e, thn, els, o, o3, o5, a);
    } else {
      ListCleanIntended(ft, frames, thn, o2);
      StillPendingList(ft, frames, thn, o2, o3);
      OpenPending(o3, |o1.ops| + 1);
      a := ListUnclean(ft, f2, els, o4);
      SpoiledElse(ft, frames, e, thn, els, o, o3, o5, a);
    }
  }

  lemma OpenPending(o: Output, at: nat)
    requires at < |o.ops|
    ensures Pending(OpenElse(o, at)) == Pending(o)
  {
  }

  lemma StillPendingList(ft: Funcs, frames: Frames, body: List<Stmt>, o: Output, o1: Output)
    requires ListIntended(ft, frames, body, o, o1)
    ensures Pending(o1) == (Pending(o) || ListPends(body))
  {
    ListPendsMeans(body, |o.ops|);
  }

  lemma SpoiledThen(ft: Funcs, frames: Frames, e: Expr, thn: List<Stmt>, els: List<Stmt>, o: Output, o3: Output,
                    o5: Output, a: nat)
    requires OutOk(o)
    requires var o1 := AfterExpr(ft, frames, e, o);
             && |o3.ops| == |o1.ops| + 2 + ListLen(true, thn) && |o5.ops| == |o3.ops| + 1 + ListLen(true, els)
             && ListSpoiled(ft, frames, thn, Branch(o1, Res(o.held, e)), o3, a)
             && Grows(|o3.ops| + 1, OpenElse(o3, |o1.ops| + 1), o5)
    ensures Spoiled(ft, frames, If(e, thn, els), o, CloseIf(o5, |o3.ops|, Res(o.held, e)), a)
  {
    hide StmtCode, ListCode, ExprCode, Res, FramesAfterBlock, ExprLen;
    ResLen(o.held, e);
    var o1 := AfterExpr(ft, frames, e, o);
    var o2, o4, to := Branch(o1, Res(o.held, e)), OpenElse(o3, |o1.ops| + 1), CloseIf(o5, |o3.ops|, Res(o.held, e));
    assert Moves(o4, o5, a);
    assert WaitOk(o, a);
    assert |o2.ops| == ThenAt(true, e, |o.ops|);
    if a >= |o.ops| {
      forall b, c | b > |to.ops| && c >= |to.ops|
        ensures Differs(ft, frames, o.held, If(e, thn, els), |o.ops|, b, c, a, to.ops[a])
      {
        assert ListDiffers(ft, frames, o2.held, thn, |o2.ops|, b, c, a, o3.ops[a]);
        IfIndex(ft, frames, o.held, e, thn, els, |o.ops|, b, c, a);
      }
    }
  }

  lemma SpoiledElse(ft: Funcs, frames: Frames, e: Expr, thn: List<Stmt>, els: List<Stmt>, o: Output, o3: Output,
                    o5: Output, a: nat)
    requires OutOk(o) && OutOk(o3)
    requires var o1 := AfterExpr(ft, frames, e, o);
             && |o3.ops| == |o1.ops| + 2 + ListLen(true, thn) && |o5.ops| == |o3.ops| + 1 + ListLen(true, els)
             && ListIntended(ft, frames, thn, Branch(o1, Res(o.held, e)), o3)
             && ListSpoiled(ft, FramesAfterBlock(frames, thn), els, OpenElse(o3, |o1.ops| + 1), o5, a)
    ensures Spoiled(ft, frames, If(e, thn, els), o, CloseIf(o5, |o3.ops|, Res(o.held, e)), a)
  {
    hide StmtCode, ListCode, ExprCode, Res, FramesAfterBlock, ExprLen, HeldAfterList, ListBreaks, ListContinues;
    ResLen(o.held, e);
    var o1 := AfterExpr(ft, frames, e, o);
    var o2, o4, to := Branch(o1, Res(o.held, e)), OpenElse(o3, |o1.ops| + 1), CloseIf(o5, |o3.ops|, Res(o.held, e));
    assert WaitOk(o, a) && WaitOk(o3, a);
    ListPendingSpan(thn, |o2.ops|);
    assert |o2.ops| == ThenAt(true, e, |o.ops|) && |o4.ops| == ElseAt(true, e, thn, |o.ops|);
    if a >= |o.ops| {
      forall b, c | b > |to.ops| && c >= |to.ops|
        ensures Differs(ft, frames, o.held, If(e, thn, els), |o.ops|, b, c, a, to.ops[a])
      {
        IfIndex(ft, frames, o.held, e, thn, els, |o.ops|, b, c, a);
        if a < |o4.ops| {
          ListJumpAt(ft, frames, o2.held, thn, |o2.ops|, b, c, a);
        } else {
          assert ListDiffers(ft, FramesAfterBlock(frames, thn), o4.held, els, |o4.ops|, b, c, a, o5.ops[a]);
        }
      }
    }
  }

  lemma {:induction false} LoopUnclean(ft: Funcs, frames: Frames, count: Option<Expr>, body: List<Stmt>, o: Output)
    returns (a: nat)
    requires OutOk(o) && !Clean(Pending(o), Loop(count, body))
    ensures Spoiled(ft, frames, Loop(count, body), o, OutLoop(ft, frames, count, body, o), a)
    decreases Loop(count, body), 0
  {
    hide ListClean, ListSpoiled, OutLoop, OutList, StmtCode, OutOk, Grows, CountCode, CounterHeld, TestCode, CloseLoop;
    var to := OutLoop(ft, frames, count, body, o);
    LoopOutGrows(ft, frames, count, body, o);
    if Pending(o) {
      a := if o.continues != [] then o.continues[0] else o.breaks[0];
      Taken(o, to, a);
    } else {
      var o2 := LoopTest(ft, frames, count, o);
      var o3 := OutList(ft, frames, body, o2);
      Appended(o, o2);
      ListOutGrows(ft, frames, body, o2);
      a := ListUnclean(ft, frames, body, o2);
      LoopIs(ft, frames, count, body, o);
      SpoiledLoop(ft, frames, count, body, o, o3, a);
    }
  }

  lemma LoopIs(ft: Funcs, frames: Frames, count: Option<Expr>, body: List<Stmt>, o: Output)
    ensures var o3, start := OutList(ft, frames, body, LoopTest(ft, frames, count, o)),
            |o.ops + CountCode(ft, frames, o.held, count)|;
            && (start < |o3.ops| || (count.None? && start == |o3.ops| - ListLen(true, body)))
            && OutLoop(ft, frames, count, body, o) == CloseLoop(o3, Counter(o.held, count), start)
  {
    hide CountCode, CloseLoop;
  }

  /** A jump that was pending and no longer is has been settled. */
  lemma Taken(o: Output, to: Output, a: nat)
    requires OutOk(o) && Grows(|o.ops|, o, to) && Waits(o, a) && !Pending(to)
    ensures a < |o.ops| && !Waits(to, a) && Settled(o, to, a)
  {
    assert WaitOk(o, a) && Moves(o, to, a);
  }

  lemma SpoiledLoop(ft: Funcs, frames: Frames, count: Option<Expr>, body: List<Stmt>, o: Output, o3: Output, a: nat)
    requires !Pending(o) && OutOk(o3)
    requires |o3.ops| == |LoopTest(ft, frames, count, o).ops| + ListLen(true, body)
    requires ListSpoiled(ft, frames, body, LoopTest(ft, frames, count, o), o3, a)
    ensures var start := |o.ops + CountCode(ft, frames, o.held, count)|;
            && (start < |o3.ops| || count.None?)
            && Spoiled(ft, frames, Loop(count, body), o, CloseLoop(o3, Counter(o.held, count), start), a)
  {
    hide StmtCode, ListCode, CountCode, CounterHeld, LoopTail, CloseLoop;
    var ops1, o2, rr := o.ops + CountCode(ft, frames, o.held, count), LoopTest(ft, frames, count, o),
                        Counter(o.held, count);
    assert |o2.ops| == |ops1| + Counted(rr);
    CloseLoopGrows(0, o3, rr, |ops1|);
    CloseLen(o3, rr, |ops1|);
    var to := CloseLoop(o3, rr, |ops1|);
    forall b, c | b > |to.ops| && c >= |to.ops|
      ensures a < |o.ops| + StmtLen(true, Loop(count, body))
              && Differs(ft, frames, o.held, Loop(count, body), |o.ops|, b, c, a, to.ops[a])
    {
      var b0, c0 := |o3.ops| + Counted(rr) + 1, |o3.ops|;
      LoopIndex(ft, frames, o.held, count, body, o.ops, b, c, a);
      assert ListDiffers(ft, frames, o2.held, body, |o2.ops|, b0, c0, a, o3.ops[a]);
    }
    assert a < |o.ops| + StmtLen(true, Loop(count, body)) by { LoopIndex(ft, frames, o.held, count, body, o.ops, 0, 0,
           a); }
  }

  lemma CloseLen(o: Output, r: Option<nat>, start: nat)
    requires start < |o.ops| || r.None?
    ensures |CloseLoop(o, r, start).ops| == |o.ops| + Counted(r) + 1
  {
  }

  /** An instruction of a loop's body, which is compiled with the targets of that loop. */
  lemma LoopIndex(ft: Funcs, frames: Frames, h: Held, count: Option<Expr>, body: List<Stmt>, ops: seq<Op>, b: nat,
                  c: nat, a: nat)
    requires var at := |ops + CountCode(ft, frames, h, count)| + Counted(Counter(h, count));
             at <= a < at + ListLen(true, body)
    ensures |ops| <= a < |ops| + StmtLen(true, Loop(count, body))
    ensures var start, rr := |ops + CountCode(ft, frames, h, count)|, Counter(h, count);
            var end := LoopEnd(true, rr, body, start);
            StmtCode(true, ft, frames, h, Loop(count, body), |ops|, b, c)[a - |ops|]
            == ListCode(true, ft, frames, CounterHeld(h, count), body, start + Counted(rr), end,
                        end - 1 - Counted(rr))[a - start - Counted(rr)]
  {
    hide ListCode, StmtCode, ExprCode, Res, FirstFree, Alloc, LoopTail, CountCode, CounterHeld, StmtLen;
    var ops1, rr := ops + CountCode(ft, frames, h, count), Counter(h, count);
    var end := LoopEnd(true, rr, body, |ops1|);
    var bc := ListCode(true, ft, frames, CounterHeld(h, count), body, |ops1| + Counted(rr), end, end - 1 - Counted(rr));
    LoopWhole(ft, frames, h, count, body, ops, ops1, bc, end, end - 1 - Counted(rr));
    MidIndex(CountCode(ft, frames, h, count), TestCode(rr, end), bc, LoopTail(rr, |ops1|), a - |ops1| - Counted(rr));
    LoopTargets(ft, frames, h, count, body, |ops|, b, c);
  }

  lemma MidIndex(w: seq<Op>, x: seq<Op>, y: seq<Op>, z: seq<Op>, i: nat)
    requires i < |y|
    ensures (w + (x + y + z))[|w| + |x| + i] == y[i]
  {
  }

  /** The code of a loop does not depend on the targets of an enclosing one. */
  lemma LoopTargets(ft: Funcs, frames: Frames, h: Held, count: Option<Expr>, body: List<Stmt>, n: nat, b: nat, c: nat)
    ensures StmtCode(true, ft, frames, h, Loop(count, body), n, b, c)
            == StmtCode(true, ft, frames, h, Loop(count, body), n, 0, 0)
  {
    hide LoopCode;
  }

  // ----- the theorem -----

  /** The code generated for a statement without open breaks and continues is the intended code
      exactly when no loop in it is reached with a jump of an outer loop pending. */
  lemma CleanIff(ft: Funcs, frames: Frames, s: Stmt, o: Output)
    requires !Pending(o) && !Pends(s)
    ensures OutStmt(ft, frames, s, o).ops == o.ops + StmtCode(true, ft, frames, o.held, s, |o.ops|, 0, 0)
            <==> Clean(false, s)
  {
    hide OutStmt, StmtCode, Clean;
    if Clean(false, s) {
      CleanIntended(ft, frames, s, o);
    } else {
      var a := StmtUnclean(ft, frames, s, o);
      var to := OutStmt(ft, frames, s, o);
      NoTargets(ft, frames, o.held, s, |o.ops|, |to.ops| + 1, |to.ops|);
      assert Differs(ft, frames, o.held, s, |o.ops|, |to.ops| + 1, |to.ops|, a, to.ops[a]);
    }
  }

  lemma NoTargets(ft: Funcs, frames: Frames, h: Held, s: Stmt, n: nat, b: nat, c: nat)
    requires !Pends(s)
    ensures StmtCode(true, ft, frames, h, s, n, b, c) == StmtCode(true, ft, frames, h, s, n, 0, 0)
  {
    hide StmtCode, Patched;
    PendsMeans(s, n);
    Backpatch(ft, frames, h, s, n, b, c);
    PatchedNone(StmtCode(true, ft, frames, h, s, n, 0, 0), n, b, c);
  }

  lemma ListNoTargets(ft: Funcs, frames: Frames, h: Held, body: List<Stmt>, n: nat, b: nat, c: nat)
    requires !ListPends(body)
    ensures ListCode(true, ft, frames, h, body, n, b, c) == ListCode(true, ft, frames, h, body, n, 0, 0)
  {
    hide ListCode, Patched;
    ListPendsMeans(body, n);
    BackpatchList(ft, frames, h, body, n, b, c);
    PatchedNone(ListCode(true, ft, frames, h, body, n, 0, 0), n, b, c);
  }
}
