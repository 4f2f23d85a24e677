/** Folding as a transformation of programs: instruction by instruction, the unfolded program is the
    folded one with every folded instruction taken apart and every target moved along. */
module Relocation {
  import opened Words
  import opened Machine
  import opened Source
  import opened Reference
  import opened Simulation
  import opened Programs
  import opened Emit
  import opened Folding

  // ----- the address map -----

  function Sum(w: seq<nat>): nat {
    if w == [] then 0 else w[0] + Sum(w[1..])
  }

  /** Where the instruction at `t` of the folded program begins in the unfolded one; `g` holds, for each
      instruction of the folded program, how many stand for it. */
  function Moved(g: seq<nat>, t: nat): nat {
    Sum(g[..if t < |g| then t else |g|])
  }

  lemma MovedZero(g: seq<nat>)
    ensures Moved(g, 0) == 0
  {
    assert g[..0] == [];
  }

  lemma {:induction false} SumConcat(a: seq<nat>, b: seq<nat>)
    ensures Sum(a + b) == Sum(a) + Sum(b)
    decreases |a|
  {
    if a == [] {
      assert a + b == b;
    } else {
      SumConcat(a[1..], b);
      assert (a + b)[1..] == a[1..] + b;
    }
  }

  /** The instructions from `n` on have the widths `w`. */
  predicate Segment(g: seq<nat>, n: nat, w: seq<nat>) {
    n + |w| <= |g| && g[n..n + |w|] == w
  }

  lemma MovedPast(g: seq<nat>, n: nat, w: seq<nat>)
    requires Segment(g, n, w)
    ensures Moved(g, n + |w|) == Moved(g, n) + Sum(w)
  {
    assert g[..n + |w|] == g[..n] + w;
    SumConcat(g[..n], w);
  }

  lemma SegmentSplit(g: seq<nat>, n: nat, a: seq<nat>, b: seq<nat>)
    requires Segment(g, n, a + b)
    ensures Segment(g, n, a) && Segment(g, n + |a|, b)
    ensures Moved(g, n + |a|) == Moved(g, n) + Sum(a)
  {
    assert g[n..n + |a|] == g[n..n + |a + b|][..|a|] == a;
    assert g[n + |a|..n + |a| + |b|] == g[n..n + |a + b|][|a|..] == b;
    MovedPast(g, n, a);
  }

  // ----- what becomes of an instruction -----

  function Relocated(g: seq<nat>, op: Op): Op {
    match op
    case Jmp(t) => Jmp(Moved(g, t))
    case IfTrue(r, t) => IfTrue(r, Moved(g, t))
    case IfFalse(r, t) => IfFalse(r, Moved(g, t))
    case FCall(t, n) => FCall(Moved(g, t), n)
    case _ => op
  }

  /** One relocated instruction; or an instruction with its own destination and the move that was folded
      into it; or a call and a move of register 0 to itself, which folding leaves out. */
  predicate Becomes(g: seq<nat>, op: Op, code: seq<Op>) {
    || code == [Relocated(g, op)]
    || (|code| == 2 && HasDest(op) && HasDest(code[0]) && op == WithOperand0(code[0], Operand0(op))
        && code[1] == MovRR(Operand0(op), Operand0(code[0])))
    || (op.FCall? && code == [Relocated(g, op), MovRR(0, 0)])
  }

  predicate Unfolds(g: seq<nat>, code: seq<Op>, plain: seq<Op>, w: seq<nat>)
    decreases |code|
  {
    if code == [] then plain == [] && w == []
    else
      && w != [] && 0 < w[0] <= |plain| && Becomes(g, code[0], plain[..w[0]])
      && Unfolds(g, code[1..], plain[w[0]..], w[1..])
  }

  lemma {:induction false} UnfoldConcat(g: seq<nat>, c1: seq<Op>, p1: seq<Op>, w1: seq<nat>, c2: seq<Op>, p2: seq<Op>,
                                        w2: seq<nat>)
    requires Unfolds(g, c1, p1, w1) && Unfolds(g, c2, p2, w2)
    ensures Unfolds(g, c1 + c2, p1 + p2, w1 + w2)
    decreases |c1|
  {
    hide Becomes;
    if c1 == [] {
      assert c1 + c2 == c2 && p1 + p2 == p2 && w1 + w2 == w2;
    } else {
      assert (c1 + c2)[0] == c1[0] && (w1 + w2)[0] == w1[0];
      UnfoldConcat(g, c1[1..], p1[w1[0]..], w1[1..], c2, p2, w2);
      assert (c1 + c2)[1..] == c1[1..] + c2 && (w1 + w2)[1..] == w1[1..] + w2;
      assert (p1 + p2)[w1[0]..] == p1[w1[0]..] + p2 && (p1 + p2)[..w1[0]] == p1[..w1[0]];
    }
  }

  lemma UnfoldOne(g: seq<nat>, op: Op, code: seq<Op>, w: nat)
    requires Becomes(g, op, code) && w == |code|
    ensures Unfolds(g, [op], code, [w])
  {
    assert w > 0;
    assert code[..w] == code && code[w..] == [] && [op][1..] == [] && [w][1..] == [];
  }

  lemma UnfoldTwo(g: seq<nat>, a: Op, b: Op, code: seq<Op>, w: nat)
    requires Becomes(g, b, code) && w == |code|
    ensures Unfolds(g, [a, b], [Relocated(g, a)] + code, [1, w])
  {
    UnfoldOne(g, a, [Relocated(g, a)], 1);
    UnfoldOne(g, b, code, w);
    UnfoldConcat(g, [a], [Relocated(g, a)], [1], [b], code, [w]);
    assert [a] + [b] == [a, b] && [1] + [w] == [1, w];
  }

  lemma {:induction false} UnfoldLen(g: seq<nat>, code: seq<Op>, plain: seq<Op>, w: seq<nat>)
    requires Unfolds(g, code, plain, w)
    ensures |w| == |code| && Sum(w) == |plain|
    decreases |code|
  {
    if code != [] {
      UnfoldLen(g, code[1..], plain[w[0]..], w[1..]);
    }
  }

  /** The same, address by address. */
  lemma {:induction false} UnfoldAt(g: seq<nat>, code: seq<Op>, plain: seq<Op>, w: seq<nat>, a: nat)
    requires Unfolds(g, code, plain, w) && a < |code|
    ensures a < |w| && Moved(w, a) < Moved(w, a + 1) == Moved(w, a) + w[a] <= |plain|
    ensures Becomes(g, code[a], plain[Moved(w, a)..Moved(w, a + 1)])
    decreases a
  {
    hide Becomes;
    UnfoldLen(g, code, plain, w);
    if a == 0 {
      assert w[..0] == [] && w[..1] == [w[0]] && [w[0]][1..] == [];
    } else {
      UnfoldAt(g, code[1..], plain[w[0]..], w[1..], a - 1);
      assert w[..a][1..] == w[1..][..a - 1] && w[..a + 1][1..] == w[1..][..a];
      SubSlice(plain, w[0], Moved(w[1..], a - 1), Moved(w[1..], a));
    }
  }

  lemma SubSlice(p: seq<Op>, n: nat, i: nat, j: nat)
    requires i <= j && n + j <= |p|
    ensures p[n..][i..j] == p[n + i..n + j]
  {
  }

  // ----- widths -----

  function Width(moved: bool): nat {
    if moved then 2 else 1
  }

  /** How many unfolded instructions stand for each instruction of an expression; `moved` if its value
      is moved on, `inZero` if it is wanted in register 0. */
  function ExprWidths(e: Expr, moved: bool, inZero: bool): (w: seq<nat>)
    ensures |w| == ExprLen(e, inZero)
    decreases e
  {
    match e
    case Neg(e1) => ExprWidths(e1, false, e1.Call?) + [1, Width(moved)]
    case Bin(_, l, r) => ExprWidths(l, true, false) + ExprWidths(r, true, false) + [Width(moved)]
    case Call(_, args) => ArgWidths(args, 0) + (if inZero then [Width(moved)] else [1, 1])
    case _ => [Width(moved)]
  }

  function ArgWidths(args: List<Expr>, i: nat): (w: seq<nat>)
    ensures |w| == ArgsLen(args, i)
    decreases args
  {
    match args
    case Nil => []
    case Cons(a, rest) => ExprWidths(a, true, ArgReg(i) == 0) + ArgWidths(rest, i + 1)
  }

  function StmtWidths(s: Stmt): (w: seq<nat>)
    ensures |w| == StmtLen(true, s)
    decreases s, 0
  {
    match s
    case ExprS(e) => ExprWidths(e, false, e.Call?)
    case Set(_, e, _) => ExprWidths(e, false, e.Call?) + [1]
    case Block(body) => ListWidths(body)
    case If(c, thn, els) =>
      ExprWidths(c, false, c.Call?) + [1, 1] + ListWidths(thn) + [1] + ListWidths(els)
    case Loop(None, body) => LoopWidths(false, body)
    case Loop(Some(c), body) => ExprWidths(c, false, c.Call?) + LoopWidths(true, body)
    case Break => [1]
    case Continue => [1]
    case Return(e) => ExprWidths(e, true, true) + [1]
  }

  function LoopWidths(counted: bool, body: List<Stmt>): (w: seq<nat>)
    ensures |w| == ListLen(true, body) + (if counted then 3 else 1)
    decreases body, 1
  {
    (if counted then [1] else []) + ListWidths(body) + (if counted then [1, 1] else [1])
  }

  function ListWidths(body: List<Stmt>): (w: seq<nat>)
    ensures |w| == ListLen(true, body)
    decreases body, 0
  {
    match body
    case Nil => []
    case Cons(s, rest) => StmtWidths(s) + ListWidths(rest)
  }

  // ----- expressions -----

  /** The tables of functions agree but for the addresses, which are moved along. */
  predicate Tables(g: seq<nat>, ft: Funcs, ft1: Funcs) {
    ft.Keys == ft1.Keys && forall f :: f in ft ==> ft1[f] == FEntry(ft[f].arity, Moved(g, ft[f].addr))
  }

  function MoveBehind(moved: bool, d: nat, r: nat): seq<Op> {
    if moved then [MovRR(d, r)] else []
  }

  lemma {:induction false} ExprUnfolds(g: seq<nat>, ft: Funcs, ft1: Funcs, frames: Frames, h: Held, e: Expr,
                                       moved: bool, d: nat)
    requires Tables(g, ft, ft1) && (!moved ==> d == Res(h, e))
    ensures Unfolds(g, ExprCode(ft, frames, h, e, d), PlainCode(ft1, frames, h, e) + MoveBehind(moved, d, Res(h, e)),
                    ExprWidths(e, moved, d == 0))
    decreases e
  {
    hide Unfolds, Becomes, FirstFree, Alloc, Lookup, Tables, Relocated;
    var r, move := Res(h, e), MoveBehind(moved, d, Res(h, e));
    ResLen(h, e);
    match e
    case Neg(e1) =>
      ResLen(h, e1);
      ExprUnfolds(g, ft, ft1, frames, h, e1, false, Res(h, e1));
      var last := Alu(Sub, r, r, Res(h, e1));
      LastUnfolds(g, last, moved, d);
      OtherStays(g, MovRI(r, 0));
      UnfoldTwo(g, MovRI(r, 0), WithOperand0(last, d), [last] + move, Width(moved));
      UnfoldConcat(g, ExprCode(ft, frames, h, e1, Res(h, e1)), PlainCode(ft1, frames, h, e1) + MoveBehind(false, 0, 0),
                   ExprWidths(e1, false, e1.Call?),
                   [MovRI(r, 0), WithOperand0(last, d)], [MovRI(r, 0)] + ([last] + move), [1, Width(moved)]);
      Regroup(PlainCode(ft1, frames, h, e1), MovRI(r, 0), last, move);
    case Bin(op, x, y) =>
      var a, b := Alloc(h), Right(h, y);
      ExprUnfolds(g, ft, ft1, frames, Left(h), x, true, a);
      ExprUnfolds(g, ft, ft1, frames, Left(h), y, true, b);
      var ca, cb := ExprCode(ft, frames, Left(h), x, a), ExprCode(ft, frames, Left(h), y, b);
      var pa, pb := PlainCode(ft1, frames, Left(h), x) + [MovRR(a, Res(Left(h), x))],
                    PlainCode(ft1, frames, Left(h), y) + [MovRR(b, Res(Left(h), y))];
      var wa, wb := ExprWidths(x, true, false), ExprWidths(y, true, false);
      assert a != 0 && b != 0;
      var last := Alu(op, r, a, b);
      LastUnfolds(g, last, moved, d);
      UnfoldOne(g, WithOperand0(last, d), [last] + move, Width(moved));
      UnfoldConcat(g, ca, pa, wa, cb, pb, wb);
      UnfoldConcat(g, ca + cb, pa + pb, wa + wb, [WithOperand0(last, d)], [last] + move, [Width(moved)]);
      RegroupBin(PlainCode(ft1, frames, Left(h), x), MovRR(a, Res(Left(h), x)), PlainCode(ft1, frames, Left(h), y),
                 MovRR(b, Res(Left(h), y)), last, move);
    case Call(f, args) =>
      ArgsUnfold(g, ft, ft1, frames, h, args, 0);
      CallUnfolds(g, ft, ft1, f, moved, d);
      var tail := if d == 0 then [] else [MovRR(d, 0)];
      UnfoldConcat(g, ArgsCode(ft, frames, h, args, 0), PlainArgs(ft1, frames, h, args, 0), ArgWidths(args, 0),
                   [CallCode(ft, f)] + tail, [CallCode(ft1, f)] + move, if d == 0 then [Width(moved)] else [1, 1]);
      Assoc(ArgsCode(ft, frames, h, args, 0), [CallCode(ft, f)], tail);
      Assoc(PlainArgs(ft1, frames, h, args, 0), [CallCode(ft1, f)], move);
    case _ =>
      LeafUnfolds(g, ft, ft1, frames, h, e, moved, d);
  }

  lemma Assoc(a: seq<Op>, b: seq<Op>, c: seq<Op>)
    ensures a + (b + c) == a + b + c
  {
  }

  lemma Regroup(a: seq<Op>, x: Op, y: Op, c: seq<Op>)
    ensures (a + []) + ([x] + ([y] + c)) == a + [x, y] + c
  {
  }

  lemma RegroupBin(a: seq<Op>, x: Op, b: seq<Op>, y: Op, z: Op, c: seq<Op>)
    ensures (a + [x]) + (b + [y]) + ([z] + c) == a + [x] + b + [y, z] + c
  {
  }

  lemma OtherStays(g: seq<nat>, op: Op)
    requires HasDest(op) || op.LocalSet? || op.FRet? || op.Dec? || op.FuncCreate? || op.FuncEnd? || op.Halt?
    ensures Relocated(g, op) == op
  {
  }

  lemma LastUnfolds(g: seq<nat>, last: Op, moved: bool, d: nat)
    requires HasDest(last) && (!moved ==> d == Operand0(last))
    ensures Becomes(g, WithOperand0(last, d), [last] + MoveBehind(moved, d, Operand0(last)))
    ensures |[last] + MoveBehind(moved, d, Operand0(last))| == Width(moved)
  {
  }

  lemma LeafUnfolds(g: seq<nat>, ft: Funcs, ft1: Funcs, frames: Frames, h: Held, e: Expr, moved: bool, d: nat)
    requires (e.Num? || e.Bool? || e.Var?) && (!moved ==> d == Res(h, e))
    ensures Unfolds(g, ExprCode(ft, frames, h, e, d), PlainCode(ft1, frames, h, e) + MoveBehind(moved, d, Res(h, e)),
                    ExprWidths(e, moved, d == 0))
  {
    hide Unfolds, Becomes, FirstFree, Alloc, Lookup;
    var last := PlainCode(ft1, frames, h, e)[0];
    LastUnfolds(g, last, moved, d);
    UnfoldOne(g, WithOperand0(last, d), [last] + MoveBehind(moved, d, Res(h, e)), Width(moved));
  }

  lemma CallUnfolds(g: seq<nat>, ft: Funcs, ft1: Funcs, f: string, moved: bool, d: nat)
    requires Tables(g, ft, ft1) && (!moved ==> d == 0)
    ensures Unfolds(g, [CallCode(ft, f)] + (if d == 0 then [] else [MovRR(d, 0)]),
                    [CallCode(ft1, f)] + MoveBehind(moved, d, 0),
                    if d == 0 then [Width(moved)] else [1, 1])
  {
    hide Unfolds;
    MovedZero(g);
    var op, op1 := CallCode(ft, f), CallCode(ft1, f);
    assert op1 == Relocated(g, op);
    if d == 0 {
      assert [op] + [] == [op];
      UnfoldOne(g, op, [op1] + MoveBehind(moved, 0, 0), Width(moved));
    } else {
      UnfoldTwo(g, op, MovRR(d, 0), [MovRR(d, 0)], 1);
      assert [op] + [MovRR(d, 0)] == [op, MovRR(d, 0)];
    }
  }

  lemma {:induction false} ArgsUnfold(g: seq<nat>, ft: Funcs, ft1: Funcs, frames: Frames, h: Held, args: List<Expr>,
                                      i: nat)
    requires Tables(g, ft, ft1)
    ensures Unfolds(g, ArgsCode(ft, frames, h, args, i), PlainArgs(ft1, frames, h, args, i), ArgWidths(args, i))
    decreases args
  {
    hide ExprCode, PlainCode, ExprWidths, Res, Tables, Becomes;
    match args
    case Nil =>
    case Cons(a, rest) =>
      ExprUnfolds(g, ft, ft1, frames, h, a, true, ArgReg(i));
      ArgsUnfold(g, ft, ft1, frames, h, rest, i + 1);
      UnfoldConcat(g, ExprCode(ft, frames, h, a, ArgReg(i)),
                   PlainCode(ft1, frames, h, a) + [MovRR(ArgReg(i), Res(h, a))],
                   ExprWidths(a, true, ArgReg(i) == 0),
                   ArgsCode(ft, frames, h, rest, i + 1), PlainArgs(ft1, frames, h, rest, i + 1),
                       ArgWidths(rest, i + 1));
  }

  // ----- statements -----

  lemma ValueUnfolds(g: seq<nat>, ft: Funcs, ft1: Funcs, frames: Frames, h: Held, e: Expr)
    requires Tables(g, ft, ft1)
    ensures Unfolds(g, ValueCode(true, ft, frames, h, e), ValueCode(false, ft1, frames, h, e),
                    ExprWidths(e, false, e.Call?))
    ensures Sum(ExprWidths(e, false, e.Call?)) == ValueLen(false, e)
  {
    hide ExprCode, PlainCode, Unfolds, Res, ExprWidths;
    ResLen(h, e);
    ExprUnfolds(g, ft, ft1, frames, h, e, false, Res(h, e));
    assert PlainCode(ft1, frames, h, e) + [] == PlainCode(ft1, frames, h, e);
    UnfoldLen(g, ValueCode(true, ft, frames, h, e), ValueCode(false, ft1, frames, h, e), ExprWidths(e, false, e.Call?));
  }

  lemma UnfoldSame(g: seq<nat>, op: Op, op1: Op)
    requires op1 == Relocated(g, op)
    ensures Unfolds(g, [op], [op1], [1])
  {
    UnfoldOne(g, op, [op1], 1);
  }

  /** Compiled without folding, a statement becomes the same code relocated, with every move in its
      place. */
  lemma {:induction false} StmtUnfolds(g: seq<nat>, ft: Funcs, ft1: Funcs, frames: Frames, h: Held, s: Stmt,
                                       n: nat, brk: nat, cnt: nat)
    requires Tables(g, ft, ft1) && Segment(g, n, StmtWidths(s))
    ensures Unfolds(g, StmtCode(true, ft, frames, h, s, n, brk, cnt),
                    StmtCode(false, ft1, frames, h, s, Moved(g, n), Moved(g, brk), Moved(g, cnt)), StmtWidths(s))
    decreases s, 1
  {
    hide Unfolds, ValueCode, ResultCode, ListCode, LoopCode, ExprWidths, ListWidths, LoopWidths, Tables, Moved,
        Relocated,
         Res, ValueLen, ResultLen, SetSlot, SetDepth;
    match s
    case ExprS(e) => ValueUnfolds(g, ft, ft1, frames, h, e);
    case Set(x, e, _) =>
      var store := LocalSet(SetDepth(frames, x), SetSlot(frames, x), Res(h, e));
      ValueUnfolds(g, ft, ft1, frames, h, e);
      OtherStays(g, store);
      UnfoldSame(g, store, store);
      UnfoldConcat(g, ValueCode(true, ft, frames, h, e), ValueCode(false, ft1, frames, h, e),
                   ExprWidths(e, false, e.Call?),
                   [store], [store], [1]);
    case Block(body) => ListUnfolds(g, ft, ft1, frames, h, body, n, brk, cnt);
    case If(c, thn, els) => IfUnfolds(g, ft, ft1, frames, h, c, thn, els, n, brk, cnt);
    case Loop(None, body) => LoopUnfolds(g, ft, ft1, frames, h, None, body, n);
    case Loop(Some(c), body) => CountedUnfolds(g, ft, ft1, frames, h, c, body, n);
    case Break => JumpUnfolds(g, brk);
    case Continue => JumpUnfolds(g, cnt);
    case Return(e) => ReturnUnfolds(g, ft, ft1, frames, h, e);
  }

  lemma JumpUnfolds(g: seq<nat>, t: nat)
    ensures Unfolds(g, [Jmp(t)], [Jmp(Moved(g, t))], [1])
  {
    UnfoldSame(g, Jmp(t), Jmp(Moved(g, t)));
  }

  lemma ReturnUnfolds(g: seq<nat>, ft: Funcs, ft1: Funcs, frames: Frames, h: Held, e: Expr)
    requires Tables(g, ft, ft1)
    ensures Unfolds(g, ResultCode(true, ft, frames, h, e) + [FRet], ResultCode(false, ft1, frames, h, e) + [FRet],
                    ExprWidths(e, true, true) + [1])
  {
    hide Unfolds, ExprCode, PlainCode, Res, ExprWidths;
    ExprUnfolds(g, ft, ft1, frames, h, e, true, 0);
    UnfoldSame(g, FRet, FRet);
    UnfoldConcat(g, ResultCode(true, ft, frames, h, e), ResultCode(false, ft1, frames, h, e), ExprWidths(e, true, true),
                 [FRet], [FRet], [1]);
  }

  lemma {:induction false} IfUnfolds(g: seq<nat>, ft: Funcs, ft1: Funcs, frames: Frames, h: Held, c: Expr,
                                     thn: List<Stmt>, els: List<Stmt>, n: nat, brk: nat, cnt: nat)
    requires Tables(g, ft, ft1) && Segment(g, n, StmtWidths(If(c, thn, els)))
    ensures Unfolds(g, StmtCode(true, ft, frames, h, If(c, thn, els), n, brk, cnt),
                    StmtCode(false, ft1, frames, h, If(c, thn, els), Moved(g, n), Moved(g, brk), Moved(g, cnt)),
                    StmtWidths(If(c, thn, els)))
    decreases If(c, thn, els), 0
  {
    hide Unfolds, ValueCode, ListCode, ExprWidths, ListWidths, Tables, Moved, Relocated, Res, FramesAfterBlock,
         HeldAfterList, Segment;
    var wc, wt, we := ExprWidths(c, false, c.Call?), ListWidths(thn), ListWidths(els);
    var frames1, h1, h2 := FramesAfterBlock(frames, thn), Hold(h, Res(h, c)), HeldAfterList(Hold(h, Res(h, c)), thn);
    var n1, brk1, cnt1 := Moved(g, n), Moved(g, brk), Moved(g, cnt);
    var a, b := ThenAt(true, c, n), ElseAt(true, c, thn, n);
    var a1, b1 := ThenAt(false, c, n1), ElseAt(false, c, thn, n1);
    ValueUnfolds(g, ft, ft1, frames, h, c);
    IfSegments(g, n, wc, wt, we, a, b, b + |we|);
    ListUnfolds(g, ft, ft1, frames, h1, thn, a, brk, cnt);
    var tc, tc1 := ListCode(true, ft, frames, h1, thn, a, brk, cnt),
                   ListCode(false, ft1, frames, h1, thn, a1, brk1, cnt1);
    UnfoldLen(g, tc, tc1, wt);
    ListUnfolds(g, ft, ft1, frames1, h2, els, b, brk, cnt);
    var ec, ec1 := ListCode(true, ft, frames1, h2, els, b, brk, cnt),
                   ListCode(false, ft1, frames1, h2, els, b1, brk1, cnt1);
    UnfoldLen(g, ec, ec1, we);
    BranchUnfolds(g, Res(h, c), a, b, a1, b1);
    JumpUnfolds(g, b + ListLen(true, els));
    IfJoin(g, ValueCode(true, ft, frames, h, c), ValueCode(false, ft1, frames, h, c), wc,
           [IfTrue(Res(h, c), a), Jmp(b)], [IfTrue(Res(h, c), a1), Jmp(b1)], tc, tc1, wt,
           [Jmp(b + ListLen(true, els))], [Jmp(b1 + ListLen(false, els))], ec, ec1, we);
  }

  lemma IfSegments(g: seq<nat>, n: nat, wc: seq<nat>, wt: seq<nat>, we: seq<nat>, a: nat, b: nat, end: nat)
    requires Segment(g, n, wc + [1, 1] + wt + [1] + we)
    requires a == n + |wc| + 2 && b == a + |wt| + 1 && end == b + |we|
    ensures Segment(g, a, wt) && Segment(g, b, we)
    ensures Moved(g, a) == Moved(g, n) + Sum(wc) + 2
    ensures Moved(g, b) == Moved(g, a) + Sum(wt) + 1
    ensures Moved(g, end) == Moved(g, b) + Sum(we)
  {
    hide Moved, Sum, Segment;
    TwoOnes();
    var mid, test: nat := a - 2, b - 1;
    SegmentEnd(g, n, wc + [1, 1] + wt + [1], we, b, end);
    SegmentEnd(g, n, wc + [1, 1] + wt, [1], test, b);
    SegmentEnd(g, n, wc + [1, 1], wt, a, test);
    SegmentEnd(g, n, wc, [1, 1], mid, a);
  }

  lemma SegmentEnd(g: seq<nat>, n: nat, a: seq<nat>, b: seq<nat>, m: nat, end: nat)
    requires Segment(g, n, a + b) && m == n + |a| && end == m + |b|
    ensures Segment(g, n, a) && Segment(g, m, b)
    ensures Moved(g, m) == Moved(g, n) + Sum(a)
    ensures Moved(g, end) == Moved(g, m) + Sum(b)
  {
    SegmentSplit(g, n, a, b);
    MovedPast(g, m, b);
  }

  lemma IfJoin(g: seq<nat>, c: seq<Op>, c1: seq<Op>, wc: seq<nat>, b: seq<Op>, b1: seq<Op>,
               t: seq<Op>, t1: seq<Op>, wt: seq<nat>, j: seq<Op>, j1: seq<Op>, e: seq<Op>, e1: seq<Op>, we: seq<nat>)
    requires Unfolds(g, c, c1, wc) && Unfolds(g, b, b1, [1, 1]) && Unfolds(g, t, t1, wt) && Unfolds(g, j, j1, [1])
    requires Unfolds(g, e, e1, we)
    ensures Unfolds(g, c + b + t + j + e, c1 + b1 + t1 + j1 + e1, wc + [1, 1] + wt + [1] + we)
  {
    hide Unfolds;
    UnfoldConcat(g, c, c1, wc, b, b1, [1, 1]);
    UnfoldConcat(g, c + b, c1 + b1, wc + [1, 1], t, t1, wt);
    UnfoldConcat(g, c + b + t, c1 + b1 + t1, wc + [1, 1] + wt, j, j1, [1]);
    UnfoldConcat(g, c + b + t + j, c1 + b1 + t1 + j1, wc + [1, 1] + wt + [1], e, e1, we);
  }

  lemma TwoOnes()
    ensures Sum([1]) == 1 && Sum([1, 1]) == 2
  {
    SumConcat([1], [1]);
    assert [1] + [1] == [1, 1] && [1][1..] == [];
  }

  lemma BranchUnfolds(g: seq<nat>, r: nat, a: nat, b: nat, a1: nat, b1: nat)
    requires Moved(g, a) == a1 && Moved(g, b) == b1
    ensures Unfolds(g, [IfTrue(r, a), Jmp(b)], [IfTrue(r, a1), Jmp(b1)], [1, 1])
  {
    hide Unfolds, Moved;
    UnfoldTwo(g, IfTrue(r, a), Jmp(b), [Jmp(b1)], 1);
    assert [IfTrue(r, a1)] + [Jmp(b1)] == [IfTrue(r, a1), Jmp(b1)];
  }

  lemma {:induction false} CountedUnfolds(g: seq<nat>, ft: Funcs, ft1: Funcs, frames: Frames, h: Held, c: Expr,
                                          body: List<Stmt>, n: nat)
    requires Tables(g, ft, ft1) && Segment(g, n, StmtWidths(Loop(Some(c), body)))
    ensures Unfolds(g, StmtCode(true, ft, frames, h, Loop(Some(c), body), n, 0, 0),
                    StmtCode(false, ft1, frames, h, Loop(Some(c), body), Moved(g, n), 0, 0),
                        StmtWidths(Loop(Some(c), body)))
    decreases Loop(Some(c), body), 0
  {
    hide Unfolds, ValueCode, ValueLen, LoopCode, ListLen, ExprWidths, LoopWidths, Tables, Moved, Res, Segment;
    var r, wc := Res(h, c), ExprWidths(c, false, c.Call?);
    ValueUnfolds(g, ft, ft1, frames, h, c);
    SegmentSplit(g, n, wc, LoopWidths(true, body));
    var start, start1 := n + |wc|, Moved(g, n) + ValueLen(false, c);
    LoopUnfolds(g, ft, ft1, frames, Hold(h, r), Some(r), body, start);
    UnfoldConcat(g, ValueCode(true, ft, frames, h, c), ValueCode(false, ft1, frames, h, c), wc,
                 LoopCode(true, ft, frames, Hold(h, r), Some(r), body, start),
                 LoopCode(false, ft1, frames, Hold(h, r), Some(r), body, start1), LoopWidths(true, body));
  }

  function Ones(n: nat): seq<nat> {
    if n == 0 then [] else if n == 1 then [1] else [1, 1]
  }

  lemma {:induction false} LoopUnfolds(g: seq<nat>, ft: Funcs, ft1: Funcs, frames: Frames, h: Held, r: Option<nat>,
                                       body: List<Stmt>, start: nat)
    requires Tables(g, ft, ft1) && Segment(g, start, LoopWidths(r.Some?, body))
    ensures Unfolds(g, LoopCode(true, ft, frames, h, r, body, start),
                    LoopCode(false, ft1, frames, h, r, body, Moved(g, start)),
                    LoopWidths(r.Some?, body))
    decreases body, 1
  {
    hide Unfolds, ListCode, ListWidths, Tables, Moved, Relocated, Segment;
    var k, wb, start1 := Counted(r), ListWidths(body), Moved(g, start);
    var end, end1 := LoopEnd(true, r, body, start), LoopEnd(false, r, body, start1);
    TwoOnes();
    assert Sum([]) == 0;
    SegmentSplit(g, start, Ones(k) + wb, Ones(k + 1));
    SegmentSplit(g, start, Ones(k), wb);
    MovedPast(g, start + k + |wb|, Ones(k + 1));
    ListUnfolds(g, ft, ft1, frames, h, body, start + k, end, end - 1 - k);
    LastOnes(g, end - 1 - k, k);
    var bc := ListCode(true, ft, frames, h, body, start + k, end, end - 1 - k);
    var bc1 := ListCode(false, ft1, frames, h, body, start1 + k, Moved(g, end), Moved(g, end - 1 - k));
    UnfoldLen(g, bc, bc1, wb);
    assert Moved(g, end) == end1 && Moved(g, end - 1 - k) == end1 - 1 - k;
    TestUnfolds(g, r, end, end1);
    TailUnfolds(g, r, start);
    var test, test1 := if r.Some? then [IfFalse(r.value, end)] else [],
                       if r.Some? then [IfFalse(r.value, end1)] else [];
    UnfoldConcat(g, test, test1, Ones(k), bc, bc1, wb);
    UnfoldConcat(g, test + bc, test1 + bc1, Ones(k) + wb, LoopTail(r, start), LoopTail(r, start1), Ones(k + 1));
  }

  lemma LastOnes(g: seq<nat>, n: nat, k: nat)
    requires k <= 1 && Segment(g, n, Ones(k + 1))
    ensures Moved(g, n + k + 1) == Moved(g, n) + k + 1
  {
    TwoOnes();
    MovedPast(g, n, Ones(k + 1));
  }

  lemma TestUnfolds(g: seq<nat>, r: Option<nat>, end: nat, end1: nat)
    requires Moved(g, end) == end1
    ensures Unfolds(g, if r.Some? then [IfFalse(r.value, end)] else [],
                    if r.Some? then [IfFalse(r.value, end1)] else [],
                    Ones(Counted(r)))
  {
    if r.Some? {
      UnfoldSame(g, IfFalse(r.value, end), IfFalse(r.value, end1));
    }
  }

  lemma TailUnfolds(g: seq<nat>, r: Option<nat>, start: nat)
    ensures Unfolds(g, LoopTail(r, start), LoopTail(r, Moved(g, start)), Ones(Counted(r) + 1))
  {
    hide Unfolds, Moved;
    JumpUnfolds(g, start);
    if r.None? {
      assert LoopTail(r, start) == [Jmp(start)] && LoopTail(r, Moved(g, start)) == [Jmp(Moved(g, start))];
    } else {
      UnfoldTwo(g, Dec(r.value), Jmp(start), [Jmp(Moved(g, start))], 1);
      assert LoopTail(r, start) == [Dec(r.value), Jmp(start)];
      assert LoopTail(r, Moved(g, start)) == [Dec(r.value)] + [Jmp(Moved(g, start))];
    }
  }

  lemma {:induction false} ListUnfolds(g: seq<nat>, ft: Funcs, ft1: Funcs, frames: Frames, h: Held, body: List<Stmt>,
                                       n: nat, brk: nat, cnt: nat)
    requires Tables(g, ft, ft1) && Segment(g, n, ListWidths(body))
    ensures Unfolds(g, ListCode(true, ft, frames, h, body, n, brk, cnt),
                    ListCode(false, ft1, frames, h, body, Moved(g, n), Moved(g, brk), Moved(g, cnt)), ListWidths(body))
    decreases body, 0
  {
    hide StmtCode, StmtWidths, Tables, Moved, Becomes, Segment;
    match body
    case Nil =>
    case Cons(s, rest) =>
      var frames1, h1, n1 := FramesAfter(frames, s), HeldAfter(h, s), n + StmtLen(true, s);
      SegmentSplit(g, n, StmtWidths(s), ListWidths(rest));
      StmtUnfolds(g, ft, ft1, frames, h, s, n, brk, cnt);
      var a := StmtCode(true, ft, frames, h, s, n, brk, cnt);
      var a1 := StmtCode(false, ft1, frames, h, s, Moved(g, n), Moved(g, brk), Moved(g, cnt));
      UnfoldLen(g, a, a1, StmtWidths(s));
      ListUnfolds(g, ft, ft1, frames1, h1, rest, n1, brk, cnt);
      UnfoldConcat(g, a, a1, StmtWidths(s), ListCode(true, ft, frames1, h1, rest, n1, brk, cnt),
                   ListCode(false, ft1, frames1, h1, rest, Moved(g, n) + StmtLen(false, s), Moved(g, brk),
                            Moved(g, cnt)),
                   ListWidths(rest));
  }

  // ----- declarations -----

  function Each(n: nat): seq<nat> {
    seq(n, i => 1)
  }

  lemma {:induction false} EachSum(n: nat)
    ensures Sum(Each(n)) == n
  {
    if n > 0 {
      EachSum(n - 1);
      assert Each(n)[1..] == Each(n - 1);
    }
  }

  predicate Stay(g: seq<nat>, code: seq<Op>) {
    forall i :: 0 <= i < |code| ==> Relocated(g, code[i]) == code[i]
  }

  lemma {:induction false} StayUnfolds(g: seq<nat>, code: seq<Op>)
    requires Stay(g, code)
    ensures Unfolds(g, code, code, Each(|code|))
    decreases |code|
  {
    if code != [] {
      assert Each(|code|)[1..] == Each(|code| - 1) && code[..1] == [code[0]];
      StayUnfolds(g, code[1..]);
    }
  }

  lemma ParamsStay(g: seq<nat>, k: nat)
    ensures Stay(g, ParamCode(k))
  {
  }

  /** Only a FRET becomes a piece of code that ends in one. */
  lemma ClosingSame(g: seq<nat>, code: seq<Op>, plain: seq<Op>, w: seq<nat>)
    requires Unfolds(g, code, plain, w)
    ensures ClosingRet(code) == ClosingRet(plain)
  {
    hide Unfolds, Moved;
    if code == [] {
      EmptyUnfolds(g, plain, w);
    } else {
      var a, m := |code| - 1, Moved(w, |code| - 1);
      UnfoldLen(g, code, plain, w);
      UnfoldAt(g, code, plain, w, a);
      MovedAll(w);
      var block := plain[m..Moved(w, a + 1)];
      assert Last(block) == Last(plain);
    }
  }

  lemma EmptyUnfolds(g: seq<nat>, plain: seq<Op>, w: seq<nat>)
    requires Unfolds(g, [], plain, w)
    ensures plain == []
  {
  }

  lemma MovedAll(w: seq<nat>)
    ensures Moved(w, |w|) == Sum(w)
  {
    assert w[..|w|] == w;
  }

  function DefWidths(params: nat, body: List<Stmt>, closing: nat): seq<nat> {
    [1] + Each(params) + ListWidths(body) + Each(closing) + [1]
  }

  function ItemWidths(u: Scope, item: Item, n: nat): seq<nat> {
    match item
    case Def(f, params, body) => DefWidths(|params|, body, |ClosingRet(FnBody(FnAt(u, f, params, body, n)))|)
    case Do(s) => StmtWidths(s)
  }

  /** The scope of the program without folding. */
  predicate Plainly(g: seq<nat>, u: Scope, v: Scope) {
    u.fold && !v.fold && u.held == v.held && u.glob == v.glob && Tables(g, u.ft, v.ft)
  }

  lemma DeclareTables(g: seq<nat>, ft: Funcs, ft1: Funcs, f: string, params: seq<string>, n: nat)
    requires Tables(g, ft, ft1)
    ensures Tables(g, Declare(ft, f, params, n), Declare(ft1, f, params, Moved(g, n)))
  {
  }

  lemma DefSegments(g: seq<nat>, n: nat, k: nat, body: List<Stmt>, closing: nat, m: nat)
    requires Segment(g, n, DefWidths(k, body, closing)) && m == n + 1 + k
    ensures Segment(g, m, ListWidths(body))
    ensures Moved(g, n + 1) == Moved(g, n) + 1 && Moved(g, m) == Moved(g, n) + 1 + k
  {
    hide Moved, Segment, Sum, Each, ListWidths;
    var w, start: nat := ListWidths(body), n + 1;
    TwoOnes();
    EachSum(k);
    assert |Each(k)| == k by {
      EachLen(k);
    }
    var end := m + |w|;
    SegmentSplit(g, n, [1] + Each(k) + w + Each(closing), [1]);
    SegmentSplit(g, n, [1] + Each(k) + w, Each(closing));
    SegmentEnd(g, n, [1] + Each(k), w, m, end);
    SegmentEnd(g, n, [1], Each(k), start, m);
  }

  lemma EachLen(k: nat)
    ensures |Each(k)| == k
  {
  }

  lemma DefUnfolds(g: seq<nat>, u: Scope, v: Scope, f: string, params: seq<string>, body: List<Stmt>, n: nat)
    requires Plainly(g, u, v) && Segment(g, n, ItemWidths(u, Def(f, params, body), n))
    ensures Unfolds(g, ItemCode(u, Def(f, params, body), n), ItemCode(v, Def(f, params, body), Moved(g, n)),
                    ItemWidths(u, Def(f, params, body), n))
    ensures Moved(g, n + 1) == Moved(g, n) + 1
  {
    hide Unfolds, ListCode, ListWidths, Moved, Segment, Tables, Relocated, ParamFrame, ClosingRet, ParamCode, Each,
         Declare;
    var k, m, n1 := |params|, n + 1 + |params|, Moved(g, n);
    var i, i1 := FnAt(u, f, params, body, n), FnAt(v, f, params, body, n1);
    var closing := ClosingRet(FnBody(i));
    DefSegments(g, n, k, body, |closing|, m);
    DeclareTables(g, u.ft, v.ft, f, params, n + 1);
    MovedZero(g);
    ListUnfolds(g, i.ft, i1.ft, FnFrames(i), i.held, body, m, 0, 0);
    ClosingSame(g, FnBody(i), FnBody(i1), ListWidths(body));
    DefJoin(g, k, FnBody(i), FnBody(i1), ListWidths(body), closing);
    DefShape(u, f, params, body, n);
    DefShape(v, f, params, body, n1);
  }

  lemma DefJoin(g: seq<nat>, k: nat, code: seq<Op>, plain: seq<Op>, w: seq<nat>, closing: seq<Op>)
    requires Unfolds(g, code, plain, w) && closing == ClosingRet(code)
    ensures Unfolds(g, [FuncCreate] + (ParamCode(k) + code) + closing + [FuncEnd],
                    [FuncCreate] + (ParamCode(k) + plain) + closing + [FuncEnd],
                        [1] + Each(k) + w + Each(|closing|) + [1])
  {
    hide Unfolds, ParamCode, Each;
    var pc := ParamCode(k);
    ParamsStay(g, k);
    StayUnfolds(g, pc);
    StayUnfolds(g, closing);
    UnfoldSame(g, FuncCreate, FuncCreate);
    UnfoldSame(g, FuncEnd, FuncEnd);
    UnfoldConcat(g, [FuncCreate], [FuncCreate], [1], pc, pc, Each(k));
    UnfoldConcat(g, [FuncCreate] + pc, [FuncCreate] + pc, [1] + Each(k), code, plain, w);
    UnfoldConcat(g, [FuncCreate] + pc + code, [FuncCreate] + pc + plain, [1] + Each(k) + w, closing, closing,
                 Each(|closing|));
    UnfoldConcat(g, [FuncCreate] + pc + code + closing, [FuncCreate] + pc + plain + closing,
                 [1] + Each(k) + w + Each(|closing|), [FuncEnd], [FuncEnd], [1]);
    Assoc([FuncCreate], pc, code);
    Assoc([FuncCreate], pc, plain);
  }

  // ----- programs -----

  lemma ItemUnfolds(g: seq<nat>, u: Scope, v: Scope, item: Item, n: nat)
    requires Plainly(g, u, v) && Segment(g, n, ItemWidths(u, item, n))
    ensures Unfolds(g, ItemCode(u, item, n), ItemCode(v, item, Moved(g, n)), ItemWidths(u, item, n))
    ensures Plainly(g, AfterItem(u, item, n), AfterItem(v, item, Moved(g, n)))
  {
    hide Unfolds, StmtCode, ListCode, StmtWidths, Moved, Segment, Tables, FramesAfter, FramesAfterList, HeldAfter,
        HeldAfterList,
         ParamFrame, DefCode, DefWidths, Declare;
    MovedZero(g);
    match item
    case Def(f, params, body) =>
      DefUnfolds(g, u, v, f, params, body, n);
      DeclareTables(g, u.ft, v.ft, f, params, n + 1);
    case Do(s) => StmtUnfolds(g, u.ft, v.ft, [u.glob], u.held, s, n, 0, 0);
  }

  function ItemsWidths(u: Scope, items: List<Item>, n: nat): seq<nat>
    decreases items
  {
    match items
    case Nil => []
    case Cons(item, rest) => ItemWidths(u, item, n) + ItemsWidths(AfterItem(u, item, n), rest,
        n + |ItemCode(u, item, n)|)
  }

  lemma {:induction false} ItemsUnfold(g: seq<nat>, u: Scope, v: Scope, items: List<Item>, n: nat)
    requires Plainly(g, u, v) && Segment(g, n, ItemsWidths(u, items, n))
    ensures Unfolds(g, ItemsCode(u, items, n), ItemsCode(v, items, Moved(g, n)), ItemsWidths(u, items, n))
    decreases items
  {
    hide ItemCode, ItemWidths, AfterItem, Plainly, Moved, Segment, Becomes;
    match items
    case Nil =>
    case Cons(item, rest) =>
      var w, u1, v1 := ItemWidths(u, item, n), AfterItem(u, item, n), AfterItem(v, item, Moved(g, n));
      var n1 := n + |ItemCode(u, item, n)|;
      SegmentSplit(g, n, w, ItemsWidths(u1, rest, n1));
      ItemUnfolds(g, u, v, item, n);
      UnfoldLen(g, ItemCode(u, item, n), ItemCode(v, item, Moved(g, n)), w);
      ItemsUnfold(g, u1, v1, rest, n1);
      UnfoldConcat(g, ItemCode(u, item, n), ItemCode(v, item, Moved(g, n)), w,
                   ItemsCode(u1, rest, n1), ItemsCode(v1, rest, Moved(g, n1)), ItemsWidths(u1, rest, n1));
  }

  function Widths(items: List<Item>): seq<nat> {
    ItemsWidths(FRESH, items, 0) + [1]
  }

  /** The whole program, for every program: address by address, what the generator without folding puts
      in the place of an instruction is that instruction relocated, or what it was folded from; and no
      jump or call of the unfolded program goes between an instruction and the move behind it. */
  lemma ProgramUnfolds(items: List<Item>, a: nat)
    requires a < |Compile(items)|
    ensures var g, plain := Widths(items), CompileBy(false, items);
            && |g| == |Compile(items)| && Moved(g, |g|) == |plain|
            && Moved(g, a) < Moved(g, a + 1) == Moved(g, a) + g[a] <= |plain|
            && Becomes(g, Compile(items)[a], plain[Moved(g, a)..Moved(g, a + 1)])
            && forall t: nat :: !(Moved(g, a) < Moved(g, t) < Moved(g, a + 1))
  {
    hide ItemsCode, ItemsWidths, Unfolds, Becomes, Moved;
    var g, w := Widths(items), ItemsWidths(FRESH, items, 0);
    var code, plain := ItemsCode(FRESH, items, 0), ItemsCode(Begin(false), items, 0);
    MovedZero(g);
    assert g[0..|w|] == w;
    ItemsUnfold(g, FRESH, Begin(false), items, 0);
    UnfoldSame(g, Halt, Halt);
    UnfoldConcat(g, code, plain, w, [Halt], [Halt], [1]);
    UnfoldLen(g, code + [Halt], plain + [Halt], g);
    MovedAll(g);
    UnfoldAt(g, code + [Halt], plain + [Halt], g, a);
    forall t: nat
      ensures !(Moved(g, a) < Moved(g, t) < Moved(g, a + 1))
    {
      if t <= a {
        MovedGrows(g, t, a);
      } else {
        MovedGrows(g, a + 1, t);
      }
    }
  }

  lemma MovedGrows(g: seq<nat>, i: nat, j: nat)
    requires i <= j
    ensures Moved(g, i) <= Moved(g, j)
  {
    var x, y := if i < |g| then i else |g|, if j < |g| then j else |g|;
    assert g[..y] == g[..x] + g[x..y];
    SumConcat(g[..x], g[x..y]);
  }
}
