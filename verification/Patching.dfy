/** Backpatching: the addresses a generator records for pending breaks and continues, and why
    filling them in afterwards gives the code that had the targets from the start. */
module Patching {
  import opened Words
  import opened Machine
  import opened Source
  import opened Reference

  // ----- pending jumps -----

  /** Addresses of the breaks in `s` (at address `n`) that belong to an enclosing loop. */
  function Breaks(s: Stmt, n: nat): seq<nat>
    decreases s, 0
  {
    match s
    case Break => [n]
    case Block(body) => ListBreaks(body, n)
    case If(c, thn, els) => ListBreaks(thn, ThenAt(true, c, n)) + ListBreaks(els, ElseAt(true, c, thn, n))
    case _ => []
  }

  function ListBreaks(body: List<Stmt>, n: nat): seq<nat>
    decreases body, 0
  {
    match body
    case Nil => []
    case Cons(s, rest) => Breaks(s, n) + ListBreaks(rest, n + StmtLen(true, s))
  }

  function Continues(s: Stmt, n: nat): seq<nat>
    decreases s, 0
  {
    match s
    case Continue => [n]
    case Block(body) => ListContinues(body, n)
    case If(c, thn, els) => ListContinues(thn, ThenAt(true, c, n)) + ListContinues(els, ElseAt(true, c, thn, n))
    case _ => []
  }

  function ListContinues(body: List<Stmt>, n: nat): seq<nat>
    decreases body, 0
  {
    match body
    case Nil => []
    case Cons(s, rest) => Continues(s, n) + ListContinues(rest, n + StmtLen(true, s))
  }

  /** Does `s` leave a break or continue pending? */
  predicate Pends(s: Stmt)
    decreases s, 0
  {
    match s
    case Break => true
    case Continue => true
    case Block(body) => ListPends(body)
    case If(_, thn, els) => ListPends(thn) || ListPends(els)
    case _ => false
  }

  predicate ListPends(body: List<Stmt>)
    decreases body, 0
  {
    match body
    case Nil => false
    case Cons(s, rest) => Pends(s) || ListPends(rest)
  }

  /** No loop is reached while a break or continue of an outer loop is pending. The two lists are
      flat: the inner loop would patch and clear the outer entries. */
  predicate Clean(pending: bool, s: Stmt)
    decreases s, 0
  {
    match s
    case Block(body) => ListClean(pending, body)
    case If(_, thn, els) => ListClean(pending, thn) && ListClean(pending || ListPends(thn), els)
    case Loop(_, body) => !pending && ListClean(false, body)
    case _ => true
  }

  predicate ListClean(pending: bool, body: List<Stmt>)
    decreases body, 0
  {
    match body
    case Nil => true
    case Cons(s, rest) => Clean(pending, s) && ListClean(pending || Pends(s), rest)
  }

  lemma {:induction false} PendsMeans(s: Stmt, n: nat)
    ensures Pends(s) == (Breaks(s, n) != [] || Continues(s, n) != [])
    decreases s, 0
  {
    match s
    case Block(body) => ListPendsMeans(body, n);
    case If(c, thn, els) =>
      ListPendsMeans(thn, ThenAt(true, c, n));
      ListPendsMeans(els, ElseAt(true, c, thn, n));
    case _ =>
  }

  lemma {:induction false} ListPendsMeans(body: List<Stmt>, n: nat)
    ensures ListPends(body) == (ListBreaks(body, n) != [] || ListContinues(body, n) != [])
    decreases body, 0
  {
    match body
    case Nil =>
    case Cons(s, rest) =>
      PendsMeans(s, n);
      ListPendsMeans(rest, n + StmtLen(true, s));
  }

  // ----- filling in targets -----

  /** `memcpy` of a target into the operands of a recorded JMP. */
  function PatchJmp(op: Op, t: nat): Op {
    if op.Jmp? then Jmp(t) else op
  }

  /** Code at address `base` after the recorded jumps in `bs` and `cs` have been filled in. */
  function Patched(code: seq<Op>, base: nat, bs: seq<nat>, b: nat, cs: seq<nat>, c: nat): (r: seq<Op>)
    ensures |r| == |code|
  {
    seq(|code|, i requires 0 <= i < |code| =>
      var op := if base + i in bs then PatchJmp(code[i], b) else code[i];
      if base + i in cs then PatchJmp(op, c) else op)
  }

  ghost predicate Span(xs: seq<nat>, lo: nat, hi: nat) {
    forall x :: x in xs ==> lo <= x < hi
  }

  lemma PatchedNone(code: seq<Op>, base: nat, b: nat, c: nat)
    ensures Patched(code, base, [], b, [], c) == code
  {
  }

  lemma PatchedConcat(x: seq<Op>, y: seq<Op>, base: nat, bs: seq<nat>, bt: seq<nat>, b: nat, cs: seq<nat>,
                      ct: seq<nat>, c: nat)
    requires Span(bs, base, base + |x|) && Span(cs, base, base + |x|)
    requires Span(bt, base + |x|, base + |x| + |y|) && Span(ct, base + |x|, base + |x| + |y|)
    ensures Patched(x + y, base, bs + bt, b, cs + ct, c) == Patched(x, base, bs, b, cs, c)
            + Patched(y, base + |x|, bt, b, ct, c)
  {
    var l, r := Patched(x + y, base, bs + bt, b, cs + ct, c),
                Patched(x, base, bs, b, cs, c) + Patched(y, base + |x|, bt, b, ct, c);
    forall i | 0 <= i < |x| + |y|
      ensures l[i] == r[i]
    {
      assert base + i in bs + bt <==> base + i in bs || base + i in bt;
      assert base + i in cs + ct <==> base + i in cs || base + i in ct;
    }
  }

  /** A part without pending jumps comes first. */
  lemma PatchedSkip(x: seq<Op>, y: seq<Op>, base: nat, bs: seq<nat>, b: nat, cs: seq<nat>, c: nat)
    requires Span(bs, base + |x|, base + |x| + |y|) && Span(cs, base + |x|, base + |x| + |y|)
    ensures Patched(x + y, base, bs, b, cs, c) == x + Patched(y, base + |x|, bs, b, cs, c)
  {
    PatchedConcat(x, y, base, [], bs, b, [], cs, c);
    PatchedNone(x, base, b, c);
    assert [] + bs == bs && [] + cs == cs;
  }

  /** A part without pending jumps comes last. */
  lemma PatchedStop(x: seq<Op>, y: seq<Op>, base: nat, bs: seq<nat>, b: nat, cs: seq<nat>, c: nat)
    requires Span(bs, base, base + |x|) && Span(cs, base, base + |x|)
    ensures Patched(x + y, base, bs, b, cs, c) == Patched(x, base, bs, b, cs, c) + y
  {
    PatchedConcat(x, y, base, bs, [], b, cs, [], c);
    PatchedNone(y, base + |x|, b, c);
    assert bs + [] == bs && cs + [] == cs;
  }

  lemma {:induction false} PendingSpan(s: Stmt, n: nat)
    ensures Span(Breaks(s, n), n, n + StmtLen(true, s)) && Span(Continues(s, n), n, n + StmtLen(true, s))
    decreases s, 0
  {
    match s
    case Block(body) => ListPendingSpan(body, n);
    case If(c, thn, els) =>
      ListPendingSpan(thn, ThenAt(true, c, n));
      ListPendingSpan(els, ElseAt(true, c, thn, n));
    case _ =>
  }

  lemma {:induction false} ListPendingSpan(body: List<Stmt>, n: nat)
    ensures Span(ListBreaks(body, n), n, n + ListLen(true, body))
            && Span(ListContinues(body, n), n, n + ListLen(true, body))
    decreases body, 0
  {
    match body
    case Nil =>
    case Cons(s, rest) =>
      PendingSpan(s, n);
      ListPendingSpan(rest, n + StmtLen(true, s));
  }

  // ----- the backpatching theorem -----

  /** Code compiled with dummy targets and patched afterwards is the code compiled with the targets. */
  lemma {:induction false} Backpatch(ft: Funcs, frames: Frames, h: Held, s: Stmt, n: nat, b: nat, c: nat)
    ensures Patched(StmtCode(true, ft, frames, h, s, n, 0, 0), n, Breaks(s, n), b, Continues(s, n), c)
            == StmtCode(true, ft, frames, h, s, n, b, c)
    decreases s, 1
  {
    hide ExprCode, ListCode, LoopCode, Patched;
    match s
    case Break => PatchedBreak(n, b, c);
    case Continue => PatchedBreak(n, b, c);
    case Block(body) => BackpatchList(ft, frames, h, body, n, b, c);
    case If(e, thn, els) => BackpatchIf(ft, frames, h, e, thn, els, n, b, c);
    case _ => PatchedNone(StmtCode(true, ft, frames, h, s, n, 0, 0), n, b, c);
  }

  lemma PatchedBreak(n: nat, b: nat, c: nat)
    ensures Patched([Jmp(0)], n, [n], b, [], c) == [Jmp(b)]
    ensures Patched([Jmp(0)], n, [], b, [n], c) == [Jmp(c)]
  {
  }

  lemma {:induction false} BackpatchIf(ft: Funcs, frames: Frames, h: Held, e: Expr, thn: List<Stmt>, els: List<Stmt>,
                                       n: nat, b: nat, c: nat)
    ensures Patched(StmtCode(true, ft, frames, h, If(e, thn, els), n, 0, 0), n, Breaks(If(e, thn, els), n), b,
                    Continues(If(e, thn, els), n), c)
            == StmtCode(true, ft, frames, h, If(e, thn, els), n, b, c)
    decreases If(e, thn, els), 0
  {
    hide ExprCode, ListCode, Patched, ListBreaks, ListContinues, FramesAfterBlock, HeldAfterList;
    ResLen(h, e);
    var r := Res(h, e);
    var f2, h2 := FramesAfterBlock(frames, thn), HeldAfterList(Hold(h, r), thn);
    var at, ae := ThenAt(true, e, n), ElseAt(true, e, thn, n);
    var head := ExprCode(ft, frames, h, e, r) + [IfTrue(r, at), Jmp(ae)];
    var skip := [Jmp(ae + ListLen(true, els))];
    var t0, e0 := ListCode(true, ft, frames, Hold(h, r), thn, at, 0, 0), ListCode(true, ft, f2, h2, els, ae, 0, 0);
    ListPendingSpan(thn, at);
    ListPendingSpan(els, ae);
    PatchedConcat(head + t0 + skip, e0, n, ListBreaks(thn, at), ListBreaks(els, ae), b, ListContinues(thn, at),
                  ListContinues(els, ae), c);
    PatchedStop(head + t0, skip, n, ListBreaks(thn, at), b, ListContinues(thn, at), c);
    PatchedSkip(head, t0, n, ListBreaks(thn, at), b, ListContinues(thn, at), c);
    BackpatchList(ft, frames, Hold(h, r), thn, at, b, c);
    BackpatchList(ft, f2, h2, els, ae, b, c);
  }

  lemma {:induction false} BackpatchList(ft: Funcs, frames: Frames, h: Held, body: List<Stmt>, n: nat, b: nat, c: nat)
    ensures Patched(ListCode(true, ft, frames, h, body, n, 0, 0), n, ListBreaks(body, n), b, ListContinues(body, n), c)
            == ListCode(true, ft, frames, h, body, n, b, c)
    decreases body, 0
  {
    hide StmtCode, Patched, Breaks, Continues;
    match body
    case Nil => PatchedNone([], n, b, c);
    case Cons(s, rest) =>
      var n1 := n + StmtLen(true, s);
      PendingSpan(s, n);
      ListPendingSpan(rest, n1);
      PatchedConcat(StmtCode(true, ft, frames, h, s, n, 0, 0),
                    ListCode(true, ft, FramesAfter(frames, s), HeldAfter(h, s), rest, n1, 0, 0), n,
                    Breaks(s, n), ListBreaks(rest, n1), b, Continues(s, n), ListContinues(rest, n1), c);
      Backpatch(ft, frames, h, s, n, b, c);
      BackpatchList(ft, FramesAfter(frames, s), HeldAfter(h, s), rest, n1, b, c);
  }
}
