/** The register allocator and the instruction emitter, with its folding of moves. */
module Emit {
  import opened Words
  import opened Machine
  import opened Source
  import opened Reference
  import opened Patching

  // ----- allocator -----

  class Allocator {
    var held: Held

    constructor ()
      ensures held == {0}
    {
      held := {0};
    }

    /** The lowest free register, marked as taken; with none left the set is unchanged. */
    method Alloc() returns (r: nat)
      modifies this
      ensures r == Reference.Alloc(old(held)) && held == Hold(old(held), r)
    {
      var i := 0;
      while i < REG_COUNT
        invariant 0 <= i <= REG_COUNT && held == old(held)
        invariant FirstFree(held, 0) == FirstFree(held, i)
      {
        if i !in held {
          held := held + {i};
          return i;
        }
        i := i + 1;
      }
      return NO_REG;
    }

    method Free(r: nat)
      modifies this
      ensures held == Release(old(held), r)
    {
      if 0 < r <= ARG_REG && r in held {
        held := held - {r};
      }
    }
  }

  // ----- what the last instruction wrote -----

  datatype Ret = NoRet | RegRet | AddrRet

  function RetAfter(op: Op, ret: Ret): Ret {
    match op
    case MovRI(_, _) => RegRet
    case MovRR(_, _) => RegRet
    case Alu(_, _, _, _) => RegRet
    case LocalGet(_, _, _) => RegRet
    case LocalSet(_, _, _) => AddrRet
    case FRet => RegRet
    case Dec(_) => ret
    case _ => NoRet
  }

  /** The byte `operands[0]`, which is the destination of every instruction that has one. */
  function Operand0(op: Op): nat {
    match op
    case MovRI(d, _) => d
    case MovRR(d, _) => d
    case Alu(_, d, _, _) => d
    case LocalGet(d, _, _) => d
    case Dec(d) => d
    case IfTrue(r, _) => r
    case IfFalse(r, _) => r
    case LocalSet(depth, _, _) => depth
    case Jmp(t) => LowByte(t)
    case FCall(t, _) => LowByte(t)
    case _ => 0
  }

  function WithLowByte(t: nat, r: nat): nat {
    t - t % 256 + r
  }

  function WithOperand0(op: Op, r: nat): Op {
    match op
    case MovRI(_, imm) => MovRI(r, imm)
    case MovRR(_, s) => MovRR(r, s)
    case Alu(o, _, a, b) => Alu(o, r, a, b)
    case LocalGet(_, depth, slot) => LocalGet(r, depth, slot)
    case Dec(_) => Dec(r)
    case IfTrue(_, t) => IfTrue(r, t)
    case IfFalse(_, t) => IfFalse(r, t)
    case LocalSet(_, slot, s) => LocalSet(r, slot, s)
    case Jmp(t) => Jmp(WithLowByte(t, r))
    case FCall(t, n) => FCall(WithLowByte(t, r), n)
    case _ => op
  }

  /** A move is appended, or folded into the instruction before it. */
  function MoveOps(ops: seq<Op>, ret: Ret, d: nat, r: nat): seq<Op> {
    if d == r then ops
    else if ret == RegRet && ops != [] && Operand0(Last(ops)) == r then Front(ops) + [WithOperand0(Last(ops), d)]
    else ops + [MovRR(d, r)]
  }

  class Emitter {
    var ops: seq<Op>
    var ret: Ret

    constructor ()
      ensures ops == [] && ret == NoRet
    {
      ops, ret := [], NoRet;
    }

    method Emit(op: Op)
      modifies this
      ensures ops == old(ops) + [op] && ret == RetAfter(op, old(ret))
    {
      ops := ops + [op];
      ret := RetAfter(op, ret);
    }

    method EmitMovRR(d: nat, r: nat)
      modifies this
      ensures ops == MoveOps(old(ops), old(ret), d, r)
      ensures |ops| >= |old(ops)|
      ensures ret == if d == r then old(ret) else RegRet
    {
      if d == r {
        return;
      }
      if ret == RegRet && ops != [] {
        var last := Last(ops);
        if Operand0(last) == r {
          ops := ops[|ops| - 1 := WithOperand0(last, d)];
          assert ops == Front(old(ops)) + [WithOperand0(last, d)];
          return;
        }
      }
      Emit(MovRR(d, r));
    }

    /** A second FRET in a row is not emitted. */
    method EmitFRet()
      modifies this
      ensures ops == if old(ops) != [] && Last(old(ops)) == FRet then old(ops) else old(ops) + [FRet]
      ensures ret == if old(ops) != [] && Last(old(ops)) == FRet then old(ret) else RegRet
    {
      if ops != [] && Last(ops) == FRet {
        return;
      }
      Emit(FRet);
    }

    /** Overwrite the target of a conditional jump. */
    method PatchIf(i: nat, target: nat)
      requires i < |ops|
      modifies this`ops
      ensures ops == old(ops)[i := SetIfTarget(old(ops)[i], target)]
    {
      ops := ops[i := SetIfTarget(ops[i], target)];
    }

    /** Overwrite the target of a jump. */
    method PatchJump(i: nat, target: nat)
      requires i < |ops|
      modifies this`ops
      ensures ops == old(ops)[i := PatchJmp(old(ops)[i], target)]
    {
      ops := ops[i := PatchJmp(ops[i], target)];
    }
  }

  function SetIfTarget(op: Op, t: nat): Op {
    match op
    case IfTrue(r, _) => IfTrue(r, t)
    case IfFalse(r, _) => IfFalse(r, t)
    case _ => op
  }

  // ----- why folding is sound -----

  /** Whatever its destination, the code of an expression other than a call differs only in the
      destination of its last instruction. */
  lemma FoldExpr(ft: Funcs, frames: Frames, h: Held, e: Expr, r: nat, d: nat)
    requires !e.Call?
    ensures var code := ExprCode(ft, frames, h, e, r);
            code != [] && Operand0(Last(code)) == r
            && ExprCode(ft, frames, h, e, d) == Front(code) + [WithOperand0(Last(code), d)]
  {
    hide ExprCode, Parts, Operand0, WithOperand0;
    PartsFold(ft, frames, h, e, r, d);
    var parts := Parts(ft, frames, h, e, r);
    assert Front(parts.0 + [parts.1]) == parts.0 && Last(parts.0 + [parts.1]) == parts.1;
  }

  lemma PartsFold(ft: Funcs, frames: Frames, h: Held, e: Expr, r: nat, d: nat)
    requires !e.Call?
    ensures Parts(ft, frames, h, e, d).0 == Parts(ft, frames, h, e, r).0
    ensures Parts(ft, frames, h, e, d).1 == WithOperand0(Parts(ft, frames, h, e, r).1, d)
    ensures Operand0(Parts(ft, frames, h, e, r).1) == r
  {
    hide ExprCode, LowByte, WithLowByte, Res, Right, Left, Alloc, FirstFree, Lookup;
  }

  /** All but the last instruction, and the last one. */
  function Parts(ft: Funcs, frames: Frames, h: Held, e: Expr, d: nat): (parts: (seq<Op>, Op))
    requires !e.Call?
    ensures ExprCode(ft, frames, h, e, d) == parts.0 + [parts.1]
  {
    match e
    case Num(n) => ([], MovRI(d, n))
    case Bool(b) => ([], MovRI(d, BoolByte(b)))
    case Var(x) => ([], GetCode(frames, x, d))
    case Neg(e1) =>
      (ExprCode(ft, frames, h, e1, Res(h, e1)) + [MovRI(Res(h, e), 0)], Alu(Sub, d, Res(h, e), Res(h, e1)))
    case Bin(op, x, y) =>
      (ExprCode(ft, frames, Left(h), x, Alloc(h)) + ExprCode(ft, frames, Left(h), y, Right(h, y)),
       Alu(op, d, Alloc(h), Right(h, y)))
  }

  function RetOf(e: Expr): Ret {
    if e.Call? then NoRet else RegRet
  }

  lemma FoldLast(pre: seq<Op>, code: seq<Op>, d: nat, r: nat)
    requires code != [] && Operand0(Last(code)) == r && d != r
    ensures MoveOps(pre + code, RegRet, d, r) == pre + (Front(code) + [WithOperand0(Last(code), d)])
  {
    hide Operand0, WithOperand0;
    assert Last(pre + code) == Last(code);
    assert Front(pre + code) == pre + Front(code);
  }

  lemma MoveFromCall(pre: seq<Op>, ft: Funcs, frames: Frames, h: Held, e: Expr, d: nat)
    requires e.Call?
    ensures MoveOps(pre + ExprCode(ft, frames, h, e, 0), NoRet, d, 0) == pre + ExprCode(ft, frames, h, e, d)
  {
    hide ArgsCode, CallCode;
    assert ExprCode(ft, frames, h, e, d) == ExprCode(ft, frames, h, e, 0) + (if d == 0 then [] else [MovRR(d, 0)]);
  }

  /** Moving the result of an expression just compiled gives the code with the other destination. */
  lemma MoveFolds(pre: seq<Op>, ft: Funcs, frames: Frames, h: Held, e: Expr, d: nat)
    ensures MoveOps(pre + ExprCode(ft, frames, h, e, Res(h, e)), RetOf(e), d, Res(h, e)) == pre
            + ExprCode(ft, frames, h, e, d)
  {
    hide ExprCode, Operand0, WithOperand0, FirstFree, Alloc;
    ResLen(h, e);
    if e.Call? {
      MoveFromCall(pre, ft, frames, h, e, d);
    } else if d != Res(h, e) {
      FoldExpr(ft, frames, h, e, Res(h, e), d);
      FoldLast(pre, ExprCode(ft, frames, h, e, Res(h, e)), d, Res(h, e));
    }
  }
}
