/** Register discipline of call-free expressions: how many registers their code needs, and which
    ones it leaves alone. */
module Registers {
  import opened Words
  import opened Machine
  import opened Source
  import opened Reference
  import opened Safety

  function Height(e: Expr): nat {
    match e
    case Neg(e1) => 1 + Height(e1)
    case Bin(_, l, r) => 1 + Max(Height(l), Height(r))
    case _ => 0
  }

  function Max(a: nat, b: nat): nat {
    if a < b then b else a
  }

  function UpTo(n: nat): (s: set<nat>)
    ensures forall i :: i in s <==> 0 <= i < n
    ensures |s| == n
  {
    if n == 0 then {} else UpTo(n - 1) + {n - 1}
  }

  lemma {:induction false} BelowFree(h: Held, i: nat)
    requires i <= REG_COUNT && UpTo(i) <= h
    ensures UpTo(FirstFree(h, i)) <= h
    decreases REG_COUNT - i
  {
    if i < REG_COUNT && i in h {
      BelowFree(h, i + 1);
    }
  }

  lemma SubsetSize(a: set<nat>, b: set<nat>)
    requires a <= b
    ensures |a| <= |b|
  {
    assert b == a + (b - a);
  }

  /** The lowest free register is at most the number of registers taken. */
  lemma AllocBound(h: Held)
    ensures Alloc(h) <= |h|
  {
    hide FirstFree;
    BelowFree(h, 0);
    SubsetSize(UpTo(Alloc(h)), h);
  }

  lemma HoldSize(h: Held, r: nat)
    ensures |Hold(h, r)| <= |h| + 1
  {
  }

  lemma ResBound(h: Held, e: Expr)
    requires !HasCall(e)
    ensures Res(h, e) <= |h| + Height(e) + 1
    ensures e.Bin? ==> Alloc(h) <= |h| && Right(h, e.r) <= |h| + 2
  {
    hide FirstFree, Alloc, Hold;
    AllocBound(h);
    match e
    case Neg(e1) =>
      HoldSize(h, Res(h, e1));
      AllocBound(Hold(h, Res(h, e1)));
    case Bin(_, _, r) =>
      HoldSize(h, Alloc(h));
      HoldSize(Left(h), Res(Left(h), r));
      AllocBound(Hold(Left(h), Res(Left(h), r)));
      HoldSize(Left(h), Right(h, r));
      AllocBound(Hold(Left(h), Right(h, r)));
    case _ =>
  }

  /** A call-free expression of height `k` fits when `|h| + k + 1` registers exist: it neither runs
      the allocator dry nor comes near the argument registers. */
  lemma {:induction false} HeightFits(h: Held, lim: nat, e: Expr)
    requires !HasCall(e) && |h| + Height(e) + 1 < lim
    ensures RegsFit(h, lim, e)
    decreases e
  {
    hide FirstFree, Alloc, Hold;
    ResBound(h, e);
    match e
    case Neg(e1) =>
      HeightFits(h, lim, e1);
    case Bin(_, l, r) =>
      HoldSize(h, Alloc(h));
      HeightFits(Left(h), lim, l);
      HeightFits(Left(h), lim, r);
    case _ =>
  }

  /** The register an instruction writes. */
  function Written(op: Op): Option<nat> {
    match op
    case MovRI(d, _) => Some(d)
    case MovRR(d, _) => Some(d)
    case Alu(_, d, _, _) => Some(d)
    case LocalGet(d, _, _) => Some(d)
    case Dec(d) => Some(d)
    case _ => None
  }

  predicate Spares(op: Op, h: Held, d: nat) {
    match Written(op)
    case Some(r) => r == d || r !in h
    case None => false
  }

  predicate AllSpare(code: seq<Op>, h: Held, d: nat) {
    forall i :: 0 <= i < |code| ==> Spares(code[i], h, d)
  }

  lemma SpareConcat(a: seq<Op>, b: seq<Op>, h: Held, d: nat)
    requires AllSpare(a, h, d) && AllSpare(b, h, d)
    ensures AllSpare(a + b, h, d)
  {
  }

  lemma SpareLess(code: seq<Op>, h: Held, d: nat, h1: Held, d1: nat)
    requires AllSpare(code, h, d) && h1 <= h && (d == d1 || d !in h1)
    ensures AllSpare(code, h1, d1)
  {
    forall i | 0 <= i < |code|
      ensures Spares(code[i], h1, d1)
    {
      assert Spares(code[i], h, d);
    }
  }

  /** The code of a call-free expression writes its destination and registers that were free; none
      of the registers held for something else. */
  lemma {:induction false} ExprSpares(ft: Funcs, frames: Frames, h: Held, e: Expr, d: nat)
    requires !HasCall(e) && RegsFit(h, NO_REG, e)
    ensures AllSpare(ExprCode(ft, frames, h, e, d), h, d)
    decreases e
  {
    hide FirstFree;
    match e
    case Neg(e1) =>
      var x := Res(h, e1);
      ResFresh(h, e1);
      NotZero(h, e1);
      ExprSpares(ft, frames, h, e1, x);
      SpareLess(ExprCode(ft, frames, h, e1, x), h, x, h, d);
      SpareConcat(ExprCode(ft, frames, h, e1, x), [MovRI(Res(h, e), 0), Alu(Sub, d, Res(h, e), x)], h, d);
    case Bin(op, l, r) =>
      var a, b := ExprCode(ft, frames, Left(h), l, Alloc(h)), ExprCode(ft, frames, Left(h), r, Right(h, r));
      ExprSpares(ft, frames, Left(h), l, Alloc(h));
      SpareLess(a, Left(h), Alloc(h), h, d);
      ExprSpares(ft, frames, Left(h), r, Right(h, r));
      SpareLess(b, Left(h), Right(h, r), h, d);
      SpareConcat(a, b, h, d);
      SpareConcat(a + b, [Alu(op, d, Alloc(h), Right(h, r))], h, d);
    case _ =>
  }

  lemma NotZero(h: Held, e: Expr)
    requires !HasCall(e)
    ensures Res(h, e) > 0
  {
    ResLen(h, e);
  }

  /** Exactly one more register is held afterwards, and it was free before. */
  lemma OneMoreHeld(h: Held, e: Expr)
    requires !HasCall(e) && Res(h, e) < NO_REG
    ensures Res(h, e) !in h && Hold(h, Res(h, e)) == h + {Res(h, e)} && |Hold(h, Res(h, e))| == |h| + 1
  {
    NotZero(h, e);
    ResFresh(h, e);
  }
}
