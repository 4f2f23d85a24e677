/** The code generator: it walks the tree, takes and releases registers, rewrites the last
    instruction instead of emitting a move, and patches jump targets after the fact. */
module Codegen {
  import opened Words
  import opened Machine
  import opened Source
  import opened Reference
  import opened Simulation
  import opened Patching
  import opened Programs
  import opened Emit
  import opened Emission
  import opened Generation

  class Generator {
    const code: Emitter
    const regs: Allocator
    var frames: Frames
    var ft: Funcs
    var breaks: seq<nat>
    var continues: seq<nat>
    var release: bool  // may the last result register be freed?
    var err: bool

    constructor ()
      ensures fresh(code) && fresh(regs) && Valid() && Abs() == BLANK
    {
      code := new Emitter();
      regs := new Allocator();
      frames := [CFrame(map[], 0)];
      ft := map[];
      breaks, continues := [], [];
      release, err := false, false;
    }

    ghost predicate Valid()
      reads this, code
    {
      && (forall i :: 0 <= i < |breaks| ==> breaks[i] < |code.ops|)
      && (forall i :: 0 <= i < |continues| ==> continues[i] < |code.ops|)
    }

    /** Everything the generator carries along. */
    ghost function Abs(): GenState
      reads this, code, regs
    {
      GenState(code.ops, code.ret, regs.held, frames, ft, breaks, continues, release, err)
    }

    /** What it has produced so far. */
    ghost function Now(): Output
      reads this, code, regs
    {
      Made(Abs())
    }

    // ----- expressions -----

    /** For every tree the new state is the one module Generation gives. An error is reported exactly
        when the expression has one; otherwise the code appended is the reference code. */
    method GenExpr(e: Expr) returns (r: nat)
      requires Valid()
      modifies `release, `err, code, regs
      ensures Valid() && (Abs(), r) == ExprGen(e, old(Abs()))
      ensures err == (old(err) || ExprErr(ft, frames, e))
      ensures !ExprErr(ft, frames, e) ==> Compiled(e, r, old(Abs()), Abs())
      decreases e, 1
    {
      hide ExprErr, Compiled, IntoGen, RightGen, ArgsGen;
      ExprAgrees(e, Abs());
      match e
      case Num(n) =>
        r := regs.Alloc();
        release := true;
        code.Emit(MovRI(r, n));
      case Bool(b) =>
        r := regs.Alloc();
        code.Emit(MovRI(r, BoolByte(b)));
        release := true;
      case Var(x) =>
        r := GenVarRef(x);
      case Neg(e1) =>
        r := GenNeg(e1);
      case Bin(op, x, y) =>
        r := GenBinary(op, x, y);
      case Call(f, args) =>
        r := GenCall(f, args);
    }

    method GenVarRef(x: string) returns (r: nat)
      requires Valid()
      modifies `release, `err, code, regs
      ensures Valid() && (Abs(), r) == ExprGen(Var(x), old(Abs()))
      ensures err == (old(err) || ExprErr(ft, frames, Var(x)))
      ensures !ExprErr(ft, frames, Var(x)) ==> Compiled(Var(x), r, old(Abs()), Abs())
    {
      hide ExprErr, Compiled, FindVar;
      ExprAgrees(Var(x), Abs());
      var l := Lookup(frames, x);
      r := regs.Alloc();
      if l.Some? {
        code.Emit(LocalGet(r, l.value.depth, l.value.slot.idx));
      } else {
        regs.Free(r);
        r := NO_REG;
        err := true;
      }
      release := true;
    }

    method GenNeg(e1: Expr) returns (r: nat)
      requires Valid()
      modifies `release, `err, code, regs
      ensures Valid() && (Abs(), r) == ExprGen(Neg(e1), old(Abs()))
      ensures err == (old(err) || ExprErr(ft, frames, Neg(e1)))
      ensures !ExprErr(ft, frames, Neg(e1)) ==> Compiled(Neg(e1), r, old(Abs()), Abs())
      decreases e1, 2
    {
      hide ExprErr, Compiled;
      ExprAgrees(Neg(e1), Abs());
      var x := GenExpr(e1);
      var tmp := regs.Alloc();
      code.Emit(MovRI(tmp, 0));
      regs.Free(tmp);
      r := regs.Alloc();
      code.Emit(Alu(Sub, r, tmp, x));
      if release {
        regs.Free(x);
      }
      release := true;
    }

    method GenBinary(op: Oper, x: Expr, y: Expr) returns (r: nat)
      requires Valid()
      modifies `release, `err, code, regs
      ensures Valid() && (Abs(), r) == ExprGen(Bin(op, x, y), old(Abs()))
      ensures err == (old(err) || ExprErr(ft, frames, Bin(op, x, y)))
      ensures !ExprErr(ft, frames, Bin(op, x, y)) ==> Compiled(Bin(op, x, y), r, old(Abs()), Abs())
      decreases Bin(op, x, y), 0
    {
      hide ExprErr, Compiled, IntoGen, RightGen;
      ExprAgrees(Bin(op, x, y), Abs());
      var lr := regs.Alloc();
      GenInto(x, lr);
      var rr := GenRight(y);
      r := regs.Alloc();
      code.Emit(Alu(op, r, lr, rr));
      regs.Free(lr);
      regs.Free(rr);
      release := true;
    }

    /** The right operand goes to a register taken after it was evaluated. */
    method GenRight(y: Expr) returns (tmp: nat)
      requires Valid()
      modifies `release, `err, code, regs
      ensures Valid() && (Abs(), tmp) == RightGen(y, old(Abs()))
      decreases y, 2
    {
      hide ExprGen, MoveOps, ExprErr, Compiled;
      var rr := GenExpr(y);
      tmp := regs.Alloc();
      code.EmitMovRR(tmp, rr);
      if release {
        regs.Free(rr);
      }
    }

    method GenCall(f: string, args: List<Expr>) returns (r: nat)
      requires Valid()
      modifies `release, `err, code, regs
      ensures Valid() && (Abs(), r) == ExprGen(Call(f, args), old(Abs()))
      ensures err == (old(err) || ExprErr(ft, frames, Call(f, args)))
      ensures err == (old(err) || f !in ft || Length(args) != ft[f].arity || ArgsErr(ft, frames, args))
      ensures !ExprErr(ft, frames, Call(f, args)) ==> Compiled(Call(f, args), r, old(Abs()), Abs())
      decreases args, 2
    {
      hide ExprErr, Compiled, ArgsGen, ArgsErr;
      ExprAgrees(Call(f, args), Abs());
      if f in ft {
        var entry := ft[f];
        if Length(args) != entry.arity {
          err := true;
          return NO_REG;
        }
        GenArgs(args, 0);
        code.Emit(FCall(entry.addr, entry.arity));
      } else {
        err := true;
      }
      r := 0;
    }

    method GenArgs(args: List<Expr>, i: nat)
      requires Valid()
      modifies `release, `err, code, regs
      ensures Valid() && Abs() == ArgsGen(args, i, old(Abs()))
      ensures err == (old(err) || ArgsErr(ft, frames, args))
      ensures !ArgsErr(ft, frames, args) ==>
                && code.ops == old(code.ops) + ArgsCode(ft, frames, old(regs.held), args, i)
                && regs.held == old(regs.held)
      decreases args, 1
    {
      hide IntoGen, ArgsErr, ArgsCode;
      ArgsAgrees(args, i, Abs());
      match args
      case Nil =>
      case Cons(a, rest) =>
        GenInto(a, ArgReg(i));
        GenArgs(rest, i + 1);
    }

    /** Evaluate, move the result to register `d`, release where it was. */
    method GenInto(e: Expr, d: nat)
      requires Valid()
      modifies `release, `err, code, regs
      ensures Valid() && Abs() == IntoGen(e, d, old(Abs()))
      decreases e, 2
    {
      hide ExprGen, MoveOps, ExprErr, Compiled;
      var r := GenExpr(e);
      code.EmitMovRR(d, r);
      if release {
        regs.Free(r);
      }
    }

    // ----- statements -----

    /** For every tree, with errors or without, the new state is the one module Generation gives. Without
        errors the instructions, registers and pending jumps are those of module Emission. */
    method GenStmt(s: Stmt) returns (r: nat)
      requires Valid()
      modifies `frames, `breaks, `continues, `release, `err, code, regs
      ensures Valid() && (Abs(), r) == StmtGen(s, old(Abs()))
      ensures SameStmt(s, old(Abs()), Abs())
      decreases s, 1
    {
      hide SameStmt, ExprGen, SetGen, ReturnGen, BlockGen, IfGen, LoopGen, ExprErr, Compiled, SameList;
      StmtAgrees(s, Abs());
      r := NO_REG;
      match s
      case ExprS(e) =>
        r := GenExpr(e);
      case Set(x, e, mut) =>
        GenAssign(x, e, mut);
      case Block(body) =>
        r := GenBlock(body);
      case If(c, thn, els) =>
        GenIf(c, thn, els);
      case Loop(count, body) =>
        GenLoop(count, body);
      case Break =>
        breaks := breaks + [|code.ops|];
        code.Emit(Jmp(0));
      case Continue =>
        continues := continues + [|code.ops|];
        code.Emit(Jmp(0));
      case Return(e) =>
        GenReturn(e);
        r := 0;
    }

    method GenAssign(x: string, e: Expr, mut: bool)
      requires Valid()
      modifies `frames, `release, `err, code, regs
      ensures Valid() && Abs() == SetGen(x, e, mut, old(Abs()))
      ensures SameStmt(Set(x, e, mut), old(Abs()), Abs())
    {
      hide SameStmt, ExprGen, ExprErr, Compiled, FindVar;
      SetAgrees(x, e, mut, Abs());
      var r := 0;
      var l := Lookup(frames, x);
      if l.Some? {
        if l.value.slot.mut {
          r := GenExpr(e);
          var fst := l.value.depth;
          if x !in frames[fst].locals {
            frames := frames[fst := frames[fst].(locals := frames[fst].locals[x := Slot(false, 0)])];
          }
          code.Emit(LocalSet(fst, frames[fst].locals[x].idx, r));
        } else {
          err := true;
        }
      } else {
        r := GenExpr(e);
        var top := Last(frames);
        if x in top.locals {
          err := true;
        }
        frames := TopFrame(frames, NewVar(top, x, mut));
        code.Emit(LocalSet(0, top.used, r));
      }
      regs.Free(r);
    }

    method GenReturn(e: Expr)
      requires Valid()
      modifies `release, `err, code, regs
      ensures Valid() && Abs() == ReturnGen(e, old(Abs()))
      ensures SameStmt(Return(e), old(Abs()), Abs())
    {
      hide SameStmt, ExprGen, ExprErr, Compiled, MoveOps;
      ReturnAgrees(e, Abs());
      var r := GenExpr(e);
      code.EmitMovRR(0, r);
      code.EmitFRet();
      if release {
        regs.Free(r);
      }
    }

    /** The register is that of the last statement, or `none` if there is none. */
    method GenList(body: List<Stmt>, none: nat) returns (r: nat)
      requires Valid()
      modifies `frames, `breaks, `continues, `release, `err, code, regs
      ensures Valid() && (Abs(), r) == ListGen(body, none, old(Abs()))
      decreases body, 1
    {
      hide StmtGen, SameStmt;
      match body
      case Nil =>
        r := none;
      case Cons(s, rest) =>
        r := GenStmt(s);
        r := GenList(rest, r);
    }

    /** A block: the names of the innermost frame are put back afterwards. */
    method GenBlock(body: List<Stmt>) returns (r: nat)
      requires Valid()
      modifies `frames, `breaks, `continues, `release, `err, code, regs
      ensures Valid() && (Abs(), r) == BlockGen(body, old(Abs()))
      ensures SameList(body, FramesAfterBlock(old(frames), body), old(Abs()), Abs())
      decreases body, 2
    {
      hide SameList, ListGen, FramesAfterBlock;
      BlockAgrees(body, Abs());
      var save := Last(frames).locals;
      r := GenList(body, 0);
      frames := TopFrame(frames, Last(frames).(locals := save));
    }

    method GenIf(c: Expr, thn: List<Stmt>, els: List<Stmt>)
      requires Valid()
      modifies `frames, `breaks, `continues, `release, `err, code, regs
      ensures Valid() && Abs() == IfGen(c, thn, els, old(Abs()))
      ensures SameStmt(If(c, thn, els), old(Abs()), Abs())
      decreases If(c, thn, els), 0
    {
      hide SameStmt, SameList, ExprGen, BlockGen, ExprErr, Compiled, FramesAfterBlock, RetAfter, Release;
      IfAgrees(c, thn, els, Abs());
      var r := GenExpr(c);
      ghost var g1 := Abs();
      var the := |code.ops|;
      code.Emit(IfTrue(r, 0));
      var elseJump := |code.ops|;
      code.Emit(Jmp(0));
      code.PatchIf(the, |code.ops|);
      assert Abs() == IfOpen(r, g1);
      var _ := GenBlock(thn);
      ghost var g3 := Abs();
      var thenEnd := |code.ops|;
      code.Emit(Jmp(0));
      code.PatchJump(elseJump, |code.ops|);
      assert Abs() == IfElse(|g1.ops| + 1, g3);
      var _ := GenBlock(els);
      code.PatchJump(thenEnd, |code.ops|);
      regs.Free(r);
    }

    /** Point the jumps at the recorded addresses to `target`. */
    method PatchAll(points: seq<nat>, target: nat)
      requires Valid() && forall i :: 0 <= i < |points| ==> points[i] < |code.ops|
      modifies code`ops
      ensures Valid() && code.ops == Patched(old(code.ops), 0, points, target, [], 0)
    {
      var i := 0;
      PatchedNone(code.ops, 0, target, 0);
      assert points[..0] == [];
      while i < |points|
        invariant 0 <= i <= |points|
        invariant code.ops == Patched(old(code.ops), 0, points[..i], target, [], 0)
      {
        code.PatchJump(points[i], target);
        PatchOneMore(old(code.ops), points, i, target);
        i := i + 1;
      }
      assert points[..|points|] == points;
    }

    method GenLoop(count: Option<Expr>, body: List<Stmt>)
      requires Valid()
      modifies `frames, `breaks, `continues, `release, `err, code, regs
      ensures Valid() && Abs() == LoopGen(count, body, old(Abs()))
      ensures SameStmt(Loop(count, body), old(Abs()), Abs())
      decreases Loop(count, body), 0
    {
      hide SameStmt, SameList, ExprGen, BlockGen, ExprErr, Compiled, FramesAfterBlock, RetAfter, Release, Patched;
      LoopAgrees(count, body, Abs());
      var r := NO_REG;
      if count.Some? {
        r := GenExpr(count.value);
      }
      ghost var g1 := Abs();
      assert (g1, r) == CountGen(count, old(Abs()));
      var start := |code.ops|;
      if r != NO_REG {
        code.Emit(IfFalse(r, 0));
      }
      var _ := GenBlock(body);
      ghost var g3 := Abs();
      assert g3 == BlockGen(body, TestGen(r, g1)).0;
      var continuePoint := |code.ops|;
      if r != NO_REG {
        code.Emit(Dec(r));
      }
      code.Emit(Jmp(start));
      var breakPoint := |code.ops|;
      PatchAll(breaks, breakPoint);
      PatchAll(continues, continuePoint);
      if r != NO_REG {
        code.PatchIf(start, breakPoint);
      }
      breaks, continues := [], [];
      regs.Free(r);
      assert Abs() == LoopClose(r, start, g3);
    }

    // ----- declarations and programs -----

    /** A parameter may not share its name with a global variable. */
    method CheckParams(params: seq<string>)
      requires frames == [frames[0], CFrame(map[], 0)]
      modifies `err
      ensures err == (old(err) || exists i :: 0 <= i < |params| && params[i] in frames[0].locals)
    {
      var i := 0;
      while i < |params|
        invariant 0 <= i <= |params|
        invariant err == (old(err) || exists j :: 0 <= j < i && params[j] in frames[0].locals)
      {
        TwoFrames(frames[0], params[i]);
        if FindVar(frames, params[i]).Some? {
          err := true;
        }
        i := i + 1;
      }
    }

    /** Each argument register goes to the parameter's slot. */
    method GenParams(params: seq<string>)
      requires Valid() && Last(frames) == CFrame(map[], 0)
      modifies `frames, `err, code
      ensures Valid()
      ensures frames == TopFrame(old(frames), ParamFrame(params))
      ensures err == (old(err) || !Distinct(params))
      ensures code.ops == old(code.ops) + ParamCode(|params|)
      ensures code.ret == if params == [] then old(code.ret) else AddrRet
    {
      var i := 0;
      while i < |params|
        invariant 0 <= i <= |params| && Valid()
        invariant frames == TopFrame(old(frames), ParamFrame(params[..i]))
        invariant err == (old(err) || !Distinct(params[..i]))
        invariant code.ops == old(code.ops) + ParamCode(i)
        invariant code.ret == if i == 0 then old(code.ret) else AddrRet
      {
        OneMoreParam(params, i);
        code.Emit(LocalSet(0, i % 65536, ArgReg(i)));
        var top := Last(frames);
        if params[i] in top.locals {
          err := true;
        }
        frames := TopFrame(frames, AddParam(top, params[i], i));
        i := i + 1;
      }
      assert params[..|params|] == params;
    }

    /** FUNC_CREATE, a frame for the function, its table entry, its parameters. */
    method OpenFunction(f: string, params: seq<string>)
      requires Valid() && |frames| == 1
      modifies `frames, `ft, `err, code
      ensures Valid() && Abs() == OpenGen(f, params, old(Abs()))
      ensures frames == [old(frames[0]), ParamFrame(params)]
      ensures err == (old(err) || f in old(ft) || !Distinct(params)
                      || exists i :: 0 <= i < |params| && params[i] in old(frames[0]).locals)
      ensures ft == Declare(old(ft), f, params, |old(code.ops)| + 1)
      ensures Now() == OpenDef(|params|, old(Now()))
    {
      hide ParamFrame, AddParam, Distinct, ParamCode;
      code.Emit(FuncCreate);
      frames := frames + [CFrame(map[], 0)];
      CheckParams(params);
      if f in ft {
        err := true;
      } else {
        ft := ft[f := FEntry(|params| % 256, |code.ops|)];
      }
      GenParams(params);
    }

    method GenFunction(f: string, params: seq<string>, body: List<Stmt>)
      requires Valid() && |frames| == 1
      modifies `frames, `ft, `breaks, `continues, `release, `err, code, regs
      ensures Valid() && |frames| == 1 && Abs() == ItemGen(Def(f, params, body), old(Abs())).0
      ensures SameItem(Def(f, params, body), old(Abs()), Abs())
    {
      hide SameItem, ListGen, OpenGen;
      ItemAgrees(Def(f, params, body), Abs());
      OpenFunction(f, params);
      var _ := GenList(body, 0);
      code.EmitFRet();
      code.Emit(FuncEnd);
      frames := Front(frames);
    }

    method GenItem(item: Item) returns (r: nat)
      requires Valid() && |frames| == 1
      modifies `frames, `ft, `breaks, `continues, `release, `err, code, regs
      ensures Valid() && |frames| == 1 && (Abs(), r) == ItemGen(item, old(Abs()))
      ensures SameItem(item, old(Abs()), Abs())
    {
      hide SameItem, SameStmt, StmtGen, ListGen, OpenGen;
      ItemAgrees(item, Abs());
      match item
      case Def(f, params, body) =>
        GenFunction(f, params, body);
        r := NO_REG;
      case Do(s) =>
        r := GenStmt(s);
    }

    method GenProgram(items: List<Item>) returns (r: nat)
      requires Valid() && |frames| == 1
      modifies `frames, `ft, `breaks, `continues, `release, `err, code, regs
      ensures Valid() && |frames| == 1 && (Abs(), r) == ItemsGen(items, 0, old(Abs()))
    {
      hide ItemGen, SameItem;
      var rest := items;
      r := 0;
      while rest.Cons?
        invariant Valid() && |frames| == 1
        invariant ItemsGen(items, 0, old(Abs())) == ItemsGen(rest, r, Abs())
        decreases rest
      {
        r := GenItem(rest.head);
        rest := rest.tail;
      }
    }

    /** Compile one program and close it with HALT. */
    method Gen(items: List<Item>) returns (r: nat)
      requires Valid() && |frames| == 1
      modifies `frames, `ft, `breaks, `continues, `release, `err, code, regs
      ensures Valid() && |frames| == 1
      ensures (Abs(), r) == Halting(ItemsGen(items, 0, old(Abs())))
      ensures err == (old(err) || ItemsErr(old(Top(Abs())), items, |old(code.ops)|))
      ensures ItemsOk(old(Top(Abs())), items, old(Now())) ==>
                var (u, o) := OutItems(old(Top(Abs())), items, old(Now()));
                Top(Abs()) == u && Now() == o.(ops := o.ops + [Halt])
    {
      hide ItemsGen, ItemsErr, ItemsOk, OutItems;
      ItemsAgrees(items, 0, Abs());
      r := GenProgram(items);
      code.ops := code.ops + [Halt];
    }

    /** The same for one line of the interactive loop, whose tree is not a program. */
    method GenLine(item: Item) returns (r: nat)
      requires Valid() && |frames| == 1
      modifies `frames, `ft, `breaks, `continues, `release, `err, code, regs
      ensures Valid() && |frames| == 1 && (Abs(), r) == Halting(ItemGen(item, old(Abs())))
      ensures err == (old(err) || ItemErr(old(Top(Abs())), item, |old(code.ops)|))
    {
      hide ItemGen, ItemErr;
      r := GenItem(item);
      code.ops := code.ops + [Halt];
    }
  }
}
