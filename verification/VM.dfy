/** The interpreter as it is written: a loop that updates registers, frames and the return stack in
    place. It is proved to compute the step relation of module Machine. */
module VM {
  import opened Words
  import opened Machine

  /** Done at a HALT, More when the step budget ran out first, Crash where C++ has no defined result. */
  datatype Verdict = Done(state: State) | More(state: State) | Crash

  /** The run from `s`, cut off after `limit` instructions. */
  function RunFor(p: seq<Op>, s: State, limit: nat): Verdict
    decreases limit
  {
    if limit == 0 then More(s)
    else
      match Step(p, s)
      case Halted => Done(s)
      case Stuck => Crash
      case Next(t) => RunFor(p, t, limit - 1)
  }

  /** The machine reaches a HALT exactly when some budget is large enough for its loop to get there. */
  lemma RunForReaches(p: seq<Op>, s: State, t: State)
    requires Step(p, t) == Halted
    ensures Reaches(p, s, t) <==> exists limit: nat :: RunFor(p, s, limit) == Done(t)
  {
    if Reaches(p, s, t) {
      var k: nat :| Steps(p, s, k) == Some(t);
      StepsRun(p, s, k, t);
    }
    if limit: nat :| RunFor(p, s, limit) == Done(t) {
      RunSteps(p, s, limit, t);
    }
  }

  lemma {:induction false} StepsRun(p: seq<Op>, s: State, k: nat, t: State)
    requires Steps(p, s, k) == Some(t) && Step(p, t) == Halted
    ensures RunFor(p, s, k + 1) == Done(t)
    decreases k
  {
    hide Step;
    if k > 0 {
      StepsRun(p, Step(p, s).state, k - 1, t);
    }
  }

  lemma {:induction false} RunSteps(p: seq<Op>, s: State, limit: nat, t: State)
    requires RunFor(p, s, limit) == Done(t)
    ensures Reaches(p, s, t)
    decreases limit
  {
    hide Step;
    if Step(p, s).Next? {
      RunSteps(p, Step(p, s).state, limit - 1, t);
      ReachStep(p, s);
      ReachTrans(p, s, Step(p, s).state, t);
    } else {
      ReachRefl(p, s);
    }
  }

  /** How one pass of the dispatch loop ends. */
  datatype Signal = Going | Halting | Undefined

  class VirtualCore {
    var program: seq<Op>
    var pc: nat
    const regs: array<int>
    var frames: seq<Frame>
    var rets: seq<nat>

    ghost predicate Valid()
      reads this
    {
      regs.Length == REG_COUNT
    }

    ghost function Abs(): State
      requires Valid()
      reads this, regs
    {
      State(pc, regs[..], frames, rets)
    }

    constructor ()
      ensures Valid() && fresh(regs) && program == [] && Abs() == Start()
    {
      program, pc := [], 0;
      regs := new int[REG_COUNT](i => 0);
      frames := [Frame(Zeros(GLOBAL_SLOTS), Saved(0, 0, 0))];
      rets := [];
      new;
      assert regs[..] == Start().regs;
    }

    /** A new program starts at its first instruction; everything else stays. */
    method SetProgram(p: seq<Op>)
      requires Valid()
      modifies `program, `pc
      ensures program == p && Abs() == old(Abs()).(pc := 0)
    {
      program, pc := p, 0;
    }

    /** The dispatch loop, with a budget. */
    method Run(limit: nat) returns (v: Verdict)
      requires Valid()
      modifies `pc, `frames, `rets, regs
      ensures v == RunFor(program, old(Abs()), limit)
      ensures !v.Crash? ==> v.state == Abs()
    {
      hide Step;
      var left := limit;
      while left > 0
        invariant RunFor(program, old(Abs()), limit) == RunFor(program, Abs(), left)
      {
        var signal := Dispatch();
        if signal == Halting {
          return Done(State(pc, regs[..], frames, rets));
        } else if signal == Undefined {
          return Crash;
        }
        left := left - 1;
      }
      return More(State(pc, regs[..], frames, rets));
    }

    /** One instruction. */
    method Dispatch() returns (signal: Signal)
      requires Valid()
      modifies `pc, `frames, `rets, regs
      ensures match Step(program, old(Abs()))
              case Next(t) => signal == Going && Abs() == t
              case Halted => signal == Halting && Abs() == old(Abs())
              case Stuck => signal == Undefined
    {
      hide Enter, Leave, AluWord, SkipToEnd, LowByte;
      if pc >= |program| {
        return Undefined;
      }
      signal := Undefined;
      match program[pc]
      case MovRI(d, imm) =>
        if d < REG_COUNT {
          regs[d] := imm;
          pc := pc + 1;
          signal := Going;
        }
      case MovRR(d, r) =>
        if d < REG_COUNT && r < REG_COUNT {
          regs[d] := regs[r];
          pc := pc + 1;
          signal := Going;
        }
      case Alu(op, d, a, b) =>
        if d < REG_COUNT && a < REG_COUNT && b < REG_COUNT {
          var w := AluWord(op, regs[d], regs[a], regs[b]);
          if w.Some? {
            regs[d] := w.value;
            pc := pc + 1;
            signal := Going;
          }
        }
      case Halt =>
        signal := Halting;
      case FCall(target, argc) =>
        if argc <= REG_COUNT {
          Call(target, argc);
          signal := Going;
        }
      case FRet =>
        if rets != [] && frames != [] {
          Ret();
          signal := Going;
        }
      case Jmp(target) =>
        pc := target;
        signal := Going;
      case IfTrue(r, target) =>
        if r < REG_COUNT {
          pc := if LowByte(regs[r]) != 0 then target else pc + 1;
          signal := Going;
        }
      case IfFalse(r, target) =>
        if r < REG_COUNT {
          pc := if LowByte(regs[r]) == 0 then target else pc + 1;
          signal := Going;
        }
      case FuncCreate =>
        signal := Skip();
      case FuncEnd =>
        pc := pc + 1;
        signal := Going;
      case LocalGet(d, depth, slot) =>
        if d < REG_COUNT && depth < |frames| && slot < |frames[|frames| - 1 - depth].locals| {
          regs[d] := frames[|frames| - 1 - depth].locals[slot];
          pc := pc + 1;
          signal := Going;
        }
      case LocalSet(depth, slot, r) =>
        if r < REG_COUNT && depth < |frames| && slot < |frames[|frames| - 1 - depth].locals| {
          var i := |frames| - 1 - depth;
          frames := frames[i := frames[i].(locals := frames[i].locals[slot := regs[r]])];
          pc := pc + 1;
          signal := Going;
        }
      case Dec(r) =>
        if r < REG_COUNT && regs[r] != -I64_BOUND {
          regs[r] := regs[r] - 1;
          pc := pc + 1;
          signal := Going;
        }
    }

    /** Push the return address and a frame, save three registers, copy the arguments. */
    method Call(target: nat, argc: nat)
      requires Valid() && argc <= REG_COUNT
      modifies `pc, `frames, `rets
      ensures Abs() == Enter(old(Abs()), target, argc)
    {
      rets := rets + [pc + 1];
      pc := target;
      var saved := Saved(regs[1], regs[2], regs[3]);
      var locals := Zeros(argc + 1);
      var i := 0;
      while i < argc
        invariant 0 <= i <= argc && |locals| == argc + 1
        invariant forall j :: 0 <= j <= argc ==> locals[j] == if j < i then regs[ARG_REG - j] else 0
      {
        locals := locals[i := regs[ARG_REG - i]];
        i := i + 1;
      }
      frames := frames + [Frame(locals, saved)];
      assert locals == CalleeLocals(old(Abs()).regs, argc);
    }

    /** Pop the return address and the frame, put three registers back. */
    method Ret()
      requires Valid() && rets != [] && frames != []
      modifies `pc, `frames, `rets, regs
      ensures Abs() == Leave(old(Abs()))
    {
      pc := Last(rets);
      rets := Front(rets);
      var saved := Last(frames).saved;
      regs[1] := saved.r1;
      regs[2] := saved.r2;
      regs[3] := saved.r3;
      frames := Front(frames);
    }

    /** Go past the next FUNC_END. */
    method Skip() returns (signal: Signal)
      requires Valid() && pc < |program|
      modifies `pc
      ensures var e := SkipToEnd(program, old(pc));
              if e < |program| then signal == Going && pc == e + 1 else signal == Undefined
    {
      while pc < |program| && program[pc] != FuncEnd
        invariant pc <= |program| && SkipToEnd(program, pc) == SkipToEnd(program, old(pc))
      {
        pc := pc + 1;
      }
      if pc == |program| {
        return Undefined;
      }
      pc := pc + 1;
      return Going;
    }
  }
}
