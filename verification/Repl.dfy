/** The interactive loop: each line is compiled behind the earlier ones and run, and its HALT is removed;
    the HALT of a line with an error stays. */
module Repl {
  import opened Words
  import opened Machine
  import opened Source
  import opened Reference
  import opened Programs
  import opened Patching
  import opened Emission
  import opened Generation
  import opened Footprint
  import opened Driver
  import opened Codegen
  import opened VM

  // ----- a run on a program that later grows: until it halts it cannot tell the difference -----

  lemma {:induction false} SkipGrows(a: seq<Op>, b: seq<Op>, pc: nat)
    requires pc <= |a| && SkipToEnd(a, pc) < |a|
    ensures SkipToEnd(a + b, pc) == SkipToEnd(a, pc)
    decreases |a| - pc
  {
    if a[pc] != FuncEnd {
      SkipGrows(a, b, pc + 1);
    }
  }

  lemma StepGrows(a: seq<Op>, b: seq<Op>, s: State)
    requires Step(a + [Halt], s).Next?
    ensures s.pc < |a| && Step(a + b, s) == Step(a + [Halt], s)
  {
    hide AluWord, LowByte, Enter, Leave, WriteLocal, ReadLocal;
    assert s.pc < |a|;
    assert (a + b)[s.pc] == (a + [Halt])[s.pc] == a[s.pc];
    if a[s.pc] == FuncCreate {
      EndBeforeHalt(a, s.pc);
      SkipGrows(a, b, s.pc);
      SkipGrows(a, [Halt], s.pc);
    }
  }

  /** The FUNC_END that a FUNC_CREATE looks for is not the HALT behind the program. */
  lemma {:induction false} EndBeforeHalt(a: seq<Op>, pc: nat)
    requires pc <= |a| && SkipToEnd(a + [Halt], pc) < |a + [Halt]|
    ensures SkipToEnd(a, pc) < |a|
    decreases |a| - pc
  {
    if pc < |a| && a[pc] != FuncEnd {
      EndBeforeHalt(a, pc + 1);
    }
  }

  lemma {:induction false} RunGrows(a: seq<Op>, b: seq<Op>, s: State, limit: nat, t: State)
    requires HaltFree(a) && RunFor(a + [Halt], s, limit) == Done(t)
    ensures t.pc == |a| && Reaches(a + b, s, t)
    decreases limit
  {
    hide Step;
    if Step(a + [Halt], s).Next? {
      var u := Step(a + [Halt], s).state;
      StepGrows(a, b, s);
      RunGrows(a, b, u, limit - 1, t);
      ReachStep(a + b, s);
      ReachTrans(a + b, s, u, t);
    } else {
      OnlyLast(a, s);
      ReachRefl(a + b, s);
    }
  }

  lemma OnlyLast(a: seq<Op>, s: State)
    requires HaltFree(a) && Step(a + [Halt], s) == Halted
    ensures s.pc == |a|
  {
    hide AluWord, SkipToEnd;
  }

  /** Resuming behind the earlier code, on the longer program, continues the one long run. */
  lemma LineRuns(ops: seq<Op>, code: seq<Op>, s: State, limit: nat, t: State)
    requires HaltFree(ops) && HaltFree(code) && s.pc == |ops| && Reaches(ops + [Halt], Start(), s)
    requires RunFor(ops + code + [Halt], s, limit) == Done(t)
    ensures HaltFree(ops + code) && t.pc == |ops + code| && Reaches(ops + code + [Halt], Start(), t)
  {
    hide Step, RunFor, Reaches, Start;
    AtHalt(ops, s);
    RunForReaches(ops + [Halt], Start(), s);
    var l: nat :| RunFor(ops + [Halt], Start(), l) == Done(s);
    RunGrows(ops, code + [Halt], Start(), l, s);
    assert ops + (code + [Halt]) == ops + code + [Halt];
    RunGrows(ops + code, [Halt], s, limit, t);
    ReachTrans(ops + code + [Halt], Start(), s, t);
  }

  lemma AtHalt(ops: seq<Op>, s: State)
    requires s.pc == |ops|
    ensures Step(ops + [Halt], s) == Halted
  {
    assert (ops + [Halt])[s.pc] == Halt;
  }

  // ----- the session -----

  /** What the loop holds between two lines. */
  datatype Table = Table(gen: GenState, core: State)

  const NEW_TABLE: Table := Table(BLANK, Start())

  function LineGen(item: Item, g: GenState): (to: (GenState, nat))
    requires |g.frames| == 1
    ensures |to.0.frames| == 1
  {
    ItemGen(item, g.(err := false))
  }

  /** The line has an error. */
  predicate Refused(item: Item, t: Table)
    requires |t.gen.frames| == 1
  {
    LineGen(item, t.gen).0.err
  }

  lemma RefusedMeans(item: Item, t: Table)
    requires |t.gen.frames| == 1
    ensures Refused(item, t) == ItemErr(Top(t.gen), item, |t.gen.ops|)
  {
    hide ItemGen, ItemErr;
    ItemAgrees(item, t.gen.(err := false));
  }

  /** What the machine is given for the line. */
  function LineProgram(item: Item, t: Table): seq<Op>
    requires |t.gen.frames| == 1
  {
    LineGen(item, t.gen).0.ops + [Halt]
  }

  /** One line: a line with an error is not run; any other is, from where the machine stands, then its
      register is released and its HALT removed. None: the run does not come to a HALT within the limit. */
  function Line(item: Item, limit: nat, t: Table): (to: Option<Table>)
    requires |t.gen.frames| == 1
    ensures to.Some? ==> |to.value.gen.frames| == 1
  {
    var (g, r) := LineGen(item, t.gen);
    if g.err then Some(Table(g.(ops := g.ops + [Halt]), t.core))
    else
      match RunFor(g.ops + [Halt], t.core, limit)
      case Done(s) => Some(Table(Freed(g, r), s))
      case _ => None
  }

  function Lines(items: seq<Item>, limit: nat, t: Table): (to: Option<Table>)
    requires |t.gen.frames| == 1
    ensures to.Some? ==> |to.value.gen.frames| == 1
    decreases |items|
  {
    if items == [] then Some(t)
    else
      match Line(items[0], limit, t)
      case Some(t1) => Lines(items[1..], limit, t1)
      case None => None
  }

  /** Some line has an error. */
  predicate AnyRefused(items: seq<Item>, limit: nat, t: Table)
    requires |t.gen.frames| == 1
    decreases |items|
  {
    items != [] && (Refused(items[0], t)
                    || (Line(items[0], limit, t).Some? && AnyRefused(items[1..], limit,
                        Line(items[0], limit, t).value)))
  }

  class Session {
    const generator: Generator
    const core: VirtualCore

    constructor ()
      ensures fresh(generator) && fresh(generator.code) && fresh(generator.regs) && fresh(core) && fresh(core.regs)
      ensures Valid() && Abs() == NEW_TABLE
    {
      generator := new Generator();
      core := new VirtualCore();
    }

    ghost predicate Valid()
      reads this, generator, generator.code, generator.regs, core
    {
      generator.Valid() && core.Valid() && |generator.frames| == 1
    }

    ghost function Abs(): Table
      requires Valid()
      reads this, generator, generator.code, generator.regs, core, core.regs
    {
      Table(generator.Abs(), core.Abs())
    }

    /** One line, accepted or not. */
    method ReadLine(item: Item, limit: nat) returns (ended: bool)
      requires Valid() && ClosedItem(item) && generator.breaks == generator.continues == []
      modifies generator, generator.code, generator.regs, core, core.regs
      ensures ended ==> Valid() && generator.breaks == generator.continues == []
      ensures old(Line(item, limit, Abs())) == if ended then Some(Abs()) else None
    {
      hide ItemGen, ItemErr, RunFor, SameItem;
      ItemSettles(item, generator.Abs().(err := false));
      generator.err := false;
      var r := generator.GenLine(item);
      if generator.err {
        return true;
      }
      core.program := generator.code.ops;
      var verdict := core.Run(limit);
      if !verdict.Done? {
        return false;
      }
      generator.regs.Free(r);
      generator.code.ops := Front(generator.code.ops);
      return true;
    }

    /** Any sequence of lines. */
    method ReadLines(items: seq<Item>, limit: nat) returns (ended: bool)
      requires Valid() && generator.breaks == generator.continues == []
      requires forall i :: 0 <= i < |items| ==> ClosedItem(items[i])
      modifies generator, generator.code, generator.regs, core, core.regs
      ensures ended ==> Valid()
      ensures old(Lines(items, limit, Abs())) == if ended then Some(Abs()) else None
    {
      hide Line, ClosedItem;
      var i := 0;
      while i < |items|
        invariant 0 <= i <= |items| && Valid() && generator.breaks == generator.continues == []
        invariant Lines(items[i..], limit, Abs()) == old(Lines(items, limit, Abs()))
      {
        assert items[i..][0] == items[i] && items[i..][1..] == items[i + 1..];
        var more := ReadLine(items[i], limit);
        if !more {
          return false;
        }
        i := i + 1;
      }
      return true;
    }
  }

  lemma ItemSettles(item: Item, g: GenState)
    requires ClosedItem(item) && |g.frames| == 1 && g.breaks == g.continues == []
    ensures ItemGen(item, g).0.breaks == ItemGen(item, g).0.continues == []
  {
    hide StmtGen, ListGen;
    match item
    case Def(f, params, body) => ListSettles(body, 0, OpenGen(f, params, g));
    case Do(s) => StmtSettles(s, g);
  }

  // ----- what a line leaves -----

  /** Between two lines: nothing pending, no instruction and no return address leads behind the code. */
  ghost predicate Sound(t: Table) {
    && |t.gen.frames| == 1 && t.gen.breaks == t.gen.continues == []
    && Bound(T(t.gen)) && Skips(t.gen.ops) && At(|t.gen.ops|, t.core)
  }

  /** The machine stands at `n` at the most, and so do its return addresses. */
  ghost predicate At(n: nat, s: State) {
    s.pc <= n && forall i :: 0 <= i < |s.rets| ==> s.rets[i] <= n
  }

  /** What compiling a line does to the code, with an error or without. */
  lemma LineFoot(item: Item, t: Table)
    requires Sound(t) && ClosedItem(item)
    ensures var g := LineGen(item, t.gen).0;
            && g.breaks == g.continues == [] && Bound(T(g)) && Skips(g.ops)
            && Over(T(t.gen.(err := false)), T(g))
  {
    hide ItemGen, Skips, Over, ClosedItem;
    var g0 := t.gen.(err := false);
    ItemFoot(item, g0);
    ItemSettles(item, g0);
    SameBound(t.gen, g0);
  }

  lemma SameBound(a: GenState, b: GenState)
    requires a.ops == b.ops && a.ret == b.ret && a.ft == b.ft && Bound(T(a))
    ensures Bound(T(b))
  {
  }

  /** An accepted line appends its code and changes nothing before it; there is no HALT in it. Where every
      counted loop gets its register it is the code of module Emission. */
  lemma LineCode(item: Item, t: Table) returns (code: seq<Op>)
    requires Sound(t) && ClosedItem(item) && !Refused(item, t)
    ensures LineGen(item, t.gen).0.ops == t.gen.ops + code && HaltFree(code)
    ensures ItemOk(Top(t.gen), item, Made(t.gen)) ==>
              t.gen.ops + code == OutItem(Top(t.gen), item, Made(t.gen)).ops
  {
    hide ItemGen, ClosedItem, ItemOk, OutItem, Bound, Skips;
    LineFoot(item, t);
    var g := LineGen(item, t.gen).0;
    var a := T(t.gen.(err := false));
    Appended(a, T(g));
    code := g.ops[|t.gen.ops|..];
    ItemAgrees(item, t.gen.(err := false));
  }

  lemma Appended(a: Tape, b: Tape)
    requires Over(a, b) && (Firm(a) || !b.err) && a.breaks == a.continues == []
    ensures a.ops <= b.ops && HaltFree(b.ops[|a.ops|..])
  {
    forall i | 0 <= i < |a.ops|
      ensures b.ops[i] == a.ops[i]
    {
      assert !Recorded(a, i);
    }
  }

  /** A line with an error runs nothing. What it leaves is the code before it, some of its own code without
      a HALT, and the HALT of `gen`. The code before it is unchanged, but for the first operand byte of its
      last instruction where that can be taken for the result of what was not compiled. */
  lemma RefusedLine(item: Item, limit: nat, t: Table) returns (before: seq<Op>, own: seq<Op>)
    requires Sound(t) && ClosedItem(item) && Refused(item, t)
    ensures var t1 := Line(item, limit, t);
            t1.Some? && t1.value.core == t.core && t1.value.gen.ops == before + own + [Halt]
    ensures HaltFree(own) && |before| == |t.gen.ops| && Within(before + own + [Halt], |before + own|)
    ensures HaltFree(t.gen.ops) ==> HaltFree(before + own)
    ensures forall i :: 0 <= i < |before| && (i + 1 < |before| || Firm(T(t.gen))) ==> before[i] == t.gen.ops[i]
  {
    hide ItemGen, ClosedItem;
    LineFoot(item, t);
    var g := LineGen(item, t.gen).0;
    before, own := g.ops[..|t.gen.ops|], g.ops[|t.gen.ops|..];
    assert g.ops == before + own;
    forall i | 0 <= i < |before| && (i + 1 < |before| || Firm(T(t.gen)))
      ensures before[i] == t.gen.ops[i]
    {
      assert !Recorded(T(t.gen), i);
    }
    BoundWithin(g, g.ops + [Halt]);
  }

  // ----- where the machine can get -----

  /** Below `n` everything leads to `n` at the most. */
  ghost predicate Within(p: seq<Op>, n: nat) {
    && n < |p| && p[n].Halt?
    && forall i :: 0 <= i < n ==> Led(p[i], n) && (p[i].FuncCreate? ==> EndAfter(p[..n], i))
  }

  lemma BoundWithin(g: GenState, p: seq<Op>)
    requires Bound(T(g)) && Skips(g.ops) && p == g.ops + [Halt]
    ensures Within(p, |g.ops|)
  {
    hide EndAfter;
    assert p[..|g.ops|] == g.ops;
    forall i | 0 <= i < |g.ops|
      ensures Led(p[i], |g.ops|) && (p[i].FuncCreate? ==> EndAfter(g.ops, i))
    {
      assert p[i] == g.ops[i];
    }
  }

  lemma {:induction false} EndFound(p: seq<Op>, pc: nat, j: nat)
    requires pc <= j < |p| && p[j].FuncEnd?
    ensures SkipToEnd(p, pc) <= j
    decreases j - pc
  {
    if p[pc] != FuncEnd && pc < j {
      EndFound(p, pc + 1, j);
    }
  }

  lemma StepWithin(p: seq<Op>, n: nat, s: State)
    requires Within(p, n) && At(n, s) && Step(p, s).Next?
    ensures At(n, Step(p, s).state)
  {
    hide AluWord, LowByte, SkipToEnd, SaveRegs, RestoreRegs, CalleeLocals, EndAfter;
    var op := p[s.pc];
    assert s.pc < n;
    assert Led(op, n);
    if op.FuncCreate? {
      assert EndAfter(p[..n], s.pc);
      SkipWithin(p, n, s.pc);
    }
  }

  lemma SkipWithin(p: seq<Op>, n: nat, pc: nat)
    requires n < |p| && pc < n && EndAfter(p[..n], pc)
    ensures SkipToEnd(p, pc) < n
  {
    var j :| pc < j < |p[..n]| && p[..n][j].FuncEnd?;
    EndFound(p, pc, j);
  }

  lemma {:induction false} StaysWithin(p: seq<Op>, n: nat, s: State, k: nat, t: State)
    requires Within(p, n) && At(n, s) && Steps(p, s, k) == Some(t)
    ensures At(n, t)
    decreases k
  {
    hide Step, Within, At;
    if k > 0 {
      StepWithin(p, n, s);
      StaysWithin(p, n, Step(p, s).state, k - 1, t);
    }
  }

  lemma RunWithin(p: seq<Op>, n: nat, s: State, limit: nat, t: State)
    requires Within(p, n) && At(n, s) && RunFor(p, s, limit) == Done(t)
    ensures At(n, t)
  {
    hide Within, At, RunFor, Step;
    RunSteps(p, s, limit, t);
    var k: nat :| Steps(p, s, k) == Some(t);
    StaysWithin(p, n, s, k, t);
  }

  // ----- sequences of lines -----

  /** The machine is where one run of all the code so far, from the start, would stop: behind it. */
  ghost predicate Free(t: Table) {
    HaltFree(t.gen.ops) && t.core.pc == |t.gen.ops| && Reaches(t.gen.ops + [Halt], Start(), t.core)
  }

  /** There is a HALT that the machine cannot get past. */
  ghost predicate Barred(t: Table) {
    exists n :: BarredAt(t, n)
  }

  ghost predicate BarredAt(t: Table, n: nat) {
    Within(t.gen.ops, n) && At(n, t.core)
  }

  lemma NewTable()
    ensures Sound(NEW_TABLE) && Free(NEW_TABLE)
  {
    assert BLANK.ops + [Halt] == [Halt];
    ReachRefl([Halt], Start());
  }

  lemma WithinGrows(p: seq<Op>, q: seq<Op>, n: nat)
    requires Within(p, n) && n < |q| && q[n].Halt? && forall i :: 0 <= i < n ==> q[i] == p[i]
    ensures Within(q, n)
  {
    hide EndAfter, Led;
    assert q[..n] == p[..n];
  }

  lemma AtLess(n: nat, m: nat, s: State)
    requires At(n, s) && n <= m
    ensures At(m, s)
  {
  }

  /** Compiling does not touch what stands up to the barring HALT. */
  lemma LineBarred(item: Item, t: Table, n: nat)
    requires Sound(t) && ClosedItem(item) && BarredAt(t, n)
    ensures Within(LineGen(item, t.gen).0.ops, n)
  {
    hide ItemGen, ClosedItem, Within;
    LineFoot(item, t);
    var a, b := T(t.gen.(err := false)), T(LineGen(item, t.gen).0);
    assert n < |a.ops| && a.ops[n].Halt? by {
      WithinHalt(a.ops, n);
    }
    forall i | 0 <= i < n
      ensures b.ops[i] == a.ops[i]
    {
      assert !Recorded(a, i);
    }
    WithinGrows(a.ops, b.ops, n);
  }

  lemma WithinHalt(p: seq<Op>, n: nat)
    requires Within(p, n)
    ensures n < |p| && p[n].Halt?
  {
  }

  /** A line keeps the session sound; one with an error bars the machine, and once barred it stays so. */
  lemma LineKeeps(item: Item, limit: nat, t: Table, t1: Table)
    requires Sound(t) && ClosedItem(item) && Line(item, limit, t) == Some(t1)
    ensures Sound(t1)
    ensures Free(t) && !Refused(item, t) ==> Free(t1)
    ensures Refused(item, t) || Barred(t) ==> Barred(t1)
  {
    hide ItemGen, ClosedItem, Within, At, Bound, Skips, Over, RunFor;
    LineFoot(item, t);
    var g := LineGen(item, t.gen).0;
    BoundWithin(g, g.ops + [Halt]);
    AtLess(|t.gen.ops|, |g.ops|, t.core) by {
      OverLonger(T(t.gen.(err := false)), T(g));
    }
    if g.err {
      RefusedSound(g, t, t1);
    } else {
      AcceptedSound(item, limit, t, t1);
    }
    if n :| BarredAt(t, n) {
      LineBarred(item, t, n);
      StillBarred(item, limit, t, t1, n);
    }
  }

  lemma OverLonger(a: Tape, b: Tape)
    requires Over(a, b)
    ensures |a.ops| <= |b.ops|
  {
  }

  lemma RefusedSound(g: GenState, t: Table, t1: Table)
    requires g.breaks == g.continues == [] && |g.frames| == 1 && Bound(T(g)) && Skips(g.ops) && At(|g.ops|, t.core)
    requires Within(g.ops + [Halt], |g.ops|) && t1 == Table(g.(ops := g.ops + [Halt]), t.core)
    ensures Sound(t1) && Barred(t1)
  {
    hide Within, Led, Leaps;
    assert BarredAt(t1, |g.ops|);
    HaltBound(g);
    HaltSkips(g.ops);
    AtLess(|g.ops|, |g.ops| + 1, t.core);
  }

  lemma HaltBound(g: GenState)
    requires Bound(T(g))
    ensures Bound(T(g.(ops := g.ops + [Halt])))
  {
  }

  lemma HaltSkips(ops: seq<Op>)
    requires Skips(ops)
    ensures Skips(ops + [Halt])
  {
    var p := ops + [Halt];
    forall i | 0 <= i < |p| && p[i].FuncCreate?
      ensures EndAfter(p, i)
    {
      assert EndAfter(ops, i);
      var j :| i < j < |ops| && ops[j].FuncEnd?;
      assert p[j].FuncEnd?;
    }
  }

  lemma AcceptedSound(item: Item, limit: nat, t: Table, t1: Table)
    requires Sound(t) && ClosedItem(item) && !Refused(item, t) && Line(item, limit, t) == Some(t1)
    ensures Sound(t1) && (Free(t) ==> Free(t1))
  {
    hide ItemGen, ClosedItem, Within, At, Bound, Skips, Over, RunFor, Reaches, HaltFree;
    LineFoot(item, t);
    var g := LineGen(item, t.gen).0;
    BoundWithin(g, g.ops + [Halt]);
    AtLess(|t.gen.ops|, |g.ops|, t.core) by {
      OverLonger(T(t.gen.(err := false)), T(g));
    }
    RunWithin(g.ops + [Halt], |g.ops|, t.core, limit, t1.core);
    assert T(t1.gen) == T(g);
    var code := LineCode(item, t);
    if Free(t) {
      LineRuns(t.gen.ops, code, t.core, limit, t1.core);
    }
  }

  lemma StillBarred(item: Item, limit: nat, t: Table, t1: Table, n: nat)
    requires |t.gen.frames| == 1 && Within(LineGen(item, t.gen).0.ops, n) && At(n, t.core)
    requires Line(item, limit, t) == Some(t1)
    ensures Barred(t1)
  {
    hide ItemGen, Within, At, RunFor;
    var g := LineGen(item, t.gen).0;
    WithinHalt(g.ops, n);
    WithinGrows(g.ops, g.ops + [Halt], n);
    if !g.err {
      RunWithin(g.ops + [Halt], n, t.core, limit, t1.core);
    }
    assert BarredAt(t1, n);
  }

  lemma {:induction false} LinesKeep(items: seq<Item>, limit: nat, t: Table, t1: Table)
    requires Sound(t) && (forall i :: 0 <= i < |items| ==> ClosedItem(items[i])) && Lines(items, limit, t) == Some(t1)
    ensures Sound(t1)
    ensures Free(t) && !AnyRefused(items, limit, t) ==> Free(t1)
    ensures Barred(t) || AnyRefused(items, limit, t) ==> Barred(t1)
    decreases |items|
  {
    hide Line, Refused, ClosedItem, Free, Barred, Bound, Skips, At;
    if items != [] {
      var u := Line(items[0], limit, t).value;
      LineKeeps(items[0], limit, t, u);
      LinesKeep(items[1..], limit, u, t1);
    }
  }

  /** As long as no line has an error: after any number of lines, each run to its HALT, the machine is in
      the state in which one run of all the code they left would stop. */
  lemma OneRun(items: seq<Item>, limit: nat, t: Table)
    requires (forall i :: 0 <= i < |items| ==> ClosedItem(items[i])) && Lines(items, limit, NEW_TABLE) == Some(t)
    requires !AnyRefused(items, limit, NEW_TABLE)
    ensures HaltFree(t.gen.ops) && t.core.pc == |t.gen.ops|
    ensures Reaches(t.gen.ops + [Halt], Start(), t.core) && Step(t.gen.ops + [Halt], t.core) == Halted
  {
    hide Step, Lines, AnyRefused, ClosedItem, Reaches, Sound, Barred;
    NewTable();
    LinesKeep(items, limit, NEW_TABLE, t);
    AtHalt(t.gen.ops, t.core);
  }

  /** No run of `p` from `s` comes to an instruction at `lo` or behind. */
  ghost predicate NeverFrom(p: seq<Op>, s: State, lo: nat) {
    forall k: nat :: Steps(p, s, k).Some? ==> Steps(p, s, k).value.pc < lo
  }

  /** After any sequence of lines, of a line that is accepted no instruction is ever executed, however long
      it runs, if and only if some line before it had an error. */
  lemma SilentIff(items: seq<Item>, limit: nat, t: Table, item: Item)
    requires (forall i :: 0 <= i < |items| ==> ClosedItem(items[i])) && Lines(items, limit, NEW_TABLE) == Some(t)
    requires ClosedItem(item) && !Refused(item, t)
    ensures NeverFrom(LineProgram(item, t), t.core, |t.gen.ops|) <==> AnyRefused(items, limit, NEW_TABLE)
  {
    hide Step, Lines, AnyRefused, ClosedItem, Reaches, HaltFree, ItemGen, Within, At, Bound, Skips, Start;
    NewTable();
    LinesKeep(items, limit, NEW_TABLE, t);
    var p := LineProgram(item, t);
    if AnyRefused(items, limit, NEW_TABLE) {
      var n :| BarredAt(t, n);
      LineBarred(item, t, n);
      BarredSilent(item, t, n);
    } else {
      assert Steps(p, t.core, 0) == Some(t.core);
    }
  }

  lemma BarredSilent(item: Item, t: Table, n: nat)
    requires |t.gen.frames| == 1 && Within(LineGen(item, t.gen).0.ops, n) && BarredAt(t, n)
    ensures NeverFrom(LineProgram(item, t), t.core, |t.gen.ops|)
  {
    hide ItemGen, Step;
    var g, p := LineGen(item, t.gen).0, LineProgram(item, t);
    WithinGrows(g.ops, p, n);
    forall k: nat | Steps(p, t.core, k).Some?
      ensures Steps(p, t.core, k).value.pc < |t.gen.ops|
    {
      StaysWithin(p, n, t.core, k, Steps(p, t.core, k).value);
    }
  }

  /** Where a run stops once there is a HALT inside: at that HALT, and there it stays. */
  lemma {:induction false} StaleHalt(a: seq<Op>, s: State, limit: nat, t: State, later: seq<Op>)
    requires HaltFree(a) && RunFor(a + [Halt], s, limit) == Done(t)
    ensures RunFor(a + [Halt] + later, s, limit) == Done(t) && t.pc == |a|
    ensures forall more: nat :: more > 0 ==> RunFor(a + [Halt] + later, t, more) == Done(t)
    decreases limit
  {
    hide Step;
    assert a + ([Halt] + later) == a + [Halt] + later;
    if Step(a + [Halt], s).Next? {
      StepGrows(a, [Halt] + later, s);
      StaleHalt(a, Step(a + [Halt], s).state, limit - 1, t, later);
    } else {
      OnlyLast(a, s);
      HaltInside(a, later, t);
    }
  }

  lemma HaltInside(a: seq<Op>, later: seq<Op>, t: State)
    requires t.pc == |a|
    ensures Step(a + [Halt] + later, t) == Halted
  {
    assert (a + [Halt] + later)[t.pc] == Halt;
  }

  // ----- two lines with errors -----

  /** A name that is not known: only the HALT is left, and every later line stops there at once. */
  lemma RefusedName(y: string, limit: nat, later: seq<Op>, more: nat)
    ensures var t := Line(Do(ExprS(Var(y))), limit, NEW_TABLE);
            t.Some? && t.value.gen.ops == [Halt] && t.value.core == Start()
    ensures more > 0 ==> RunFor([Halt] + later, Start(), more) == Done(Start())
  {
    assert FindVar(BLANK.frames, y) == None by {
      assert Front(BLANK.frames) == [];
    }
    assert ([Halt] + later)[0] == Halt;
  }

  /** An endless loop around it: the machine does not even get to the HALT, whatever comes later. */
  lemma RefusedLoop(y: string, limit: nat, later: seq<Op>, more: nat)
    ensures var t := Line(Do(Loop(None, Cons(ExprS(Var(y)), Nil))), limit, NEW_TABLE);
            t.Some? && t.value.gen.ops == [Jmp(0), Halt] && t.value.core == Start()
    ensures RunFor([Jmp(0), Halt] + later, Start(), more) == More(Start())
  {
    assert FindVar(BLANK.frames, y) == None by {
      assert Front(BLANK.frames) == [];
    }
    var body := Cons(ExprS(Var(y)), Nil);
    var g := StmtGen(body.head, BLANK).0;
    assert g.ops == [] && g.err && g.breaks == g.continues == [] && g.frames == BLANK.frames;
    assert ListGen(Nil, NO_REG, g) == (g, NO_REG);
    assert ListGen(body, 0, BLANK) == (g, NO_REG);
    EmptyLoop(body, g);
    EndlessLoop([Jmp(0), Halt] + later, more);
  }

  lemma EmptyLoop(body: List<Stmt>, g: GenState)
    requires ListGen(body, 0, BLANK).0 == g && g.ops == [] && g.err && g.breaks == g.continues == []
    ensures LoopGen(None, body, BLANK).ops == [Jmp(0)] && LoopGen(None, body, BLANK).err
  {
    var g1 := BlockGen(body, BLANK).0;
    assert g1.ops + [Jmp(0)] == [Jmp(0)];
    assert Patched([Jmp(0)], 0, [], 1, [], 0) == [Jmp(0)] && Patched([Jmp(0)], 0, [], 0, [], 0) == [Jmp(0)];
  }

  lemma {:induction false} EndlessLoop(p: seq<Op>, more: nat)
    requires p != [] && p[0] == Jmp(0)
    ensures RunFor(p, Start(), more) == More(Start())
    decreases more
  {
    if more > 0 {
      EndlessLoop(p, more - 1);
    }
  }
}
