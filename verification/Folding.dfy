/** Folding moves does not change what a program means. The generator that rewrites the destination of
    the last instruction is compared with the same generator that always appends the move. */
module Folding {
  import opened Words
  import opened Machine
  import opened Source
  import opened Reference
  import opened Safety
  import opened Closed
  import opened Simulation
  import opened Programs
  import opened Emit
  import opened Emission

  // ----- one fold -----

  predicate HasDest(op: Op) {
    op.MovRI? || op.MovRR? || op.Alu? || op.LocalGet?
  }

  /** Comparisons, && and || write one byte of their destination. */
  predicate WritesByte(op: Op) {
    op.Alu? && !IsArith(op.op)
  }

  /** An instruction and the move behind it, against the one instruction they are folded into, from the
      same registers and frames. Nothing differs but the old destination and, where only a byte is
      written, the upper bytes of the new one: the words are equal exactly when those of the two
      destinations were. */
  lemma FoldWords(p: seq<Op>, q: seq<Op>, op: Op, d: nat, s: State, s1: State)
    requires HasDest(op) && d < REG_COUNT && Operand0(op) < REG_COUNT && s1 == s.(pc := s1.pc)
    requires s.pc < |p| && p[s.pc] == WithOperand0(op, d)
    requires s1.pc + 1 < |q| && q[s1.pc] == op && q[s1.pc + 1] == MovRR(d, Operand0(op))
    ensures Step(p, s).Next? == Step(q, s1).Next?
    ensures Step(p, s).Next? ==>
              var r, u, t := Operand0(op), Step(p, s).state, Step(q, s1).state;
              && Step(q, t).Next?
              && var w := Step(q, t).state;
                 && u.pc == s.pc + 1 && w.pc == s1.pc + 2
                 && u.frames == w.frames == s.frames && u.rets == w.rets == s.rets
                 && (forall i :: 0 <= i < REG_COUNT && i != r && i != d ==> u.regs[i] == w.regs[i] == s.regs[i])
                 && LowByte(u.regs[d]) == LowByte(w.regs[d])
                 && (u.regs[d] == w.regs[d] <==> (WritesByte(op) ==> s.regs[r] / 256 == s.regs[d] / 256))
  {
    if op.Alu? && op.a < REG_COUNT && op.b < REG_COUNT {
      AluWords(op.op, s.regs[op.dst], s.regs[d], s.regs[op.a], s.regs[op.b]);
    }
  }

  lemma AluWords(op: Oper, x: int, y: int, a: int, b: int)
    ensures AluWord(op, x, a, b).Some? == AluWord(op, y, a, b).Some?
    ensures AluWord(op, x, a, b).Some? ==>
              var v, w := AluWord(op, x, a, b).value, AluWord(op, y, a, b).value;
              LowByte(v) == LowByte(w) && (v == w <==> (IsArith(op) || x / 256 == y / 256))
  {
  }

  // ----- the conditions do not depend on folding -----

  lemma {:induction false} SafeExprSame(a: Funcs, b: Funcs, frames: Frames, h: Held, k: set<nat>, e: Expr)
    requires SameSigs(a, b) && SafeExpr(a, frames, h, k, e)
    ensures SafeExpr(b, frames, h, k, e)
    decreases e
  {
    hide FirstFree, Lookup;
    match e
    case Neg(e1) => SafeExprSame(a, b, frames, h, k, e1);
    case Bin(_, l, r) =>
      SafeExprSame(a, b, frames, Left(h), k, l);
      SafeExprSame(a, b, frames, Left(h), k + {Alloc(h)}, r);
    case Call(_, args) => SafeArgsSame(a, b, frames, h, k, args, 0);
    case _ =>
  }

  lemma {:induction false} SafeArgsSame(a: Funcs, b: Funcs, frames: Frames, h: Held, k: set<nat>, args: List<Expr>,
                                        i: nat)
    requires SameSigs(a, b) && SafeArgs(a, frames, h, k, args, i)
    ensures SafeArgs(b, frames, h, k, args, i)
    decreases args
  {
    hide RegsFit;
    match args
    case Nil =>
    case Cons(e, rest) =>
      SafeExprSame(a, b, frames, h, k, e);
      SafeArgsSame(a, b, frames, h, k, rest, i + 1);
  }

  lemma {:induction false} SafeStmtSame(a: Funcs, b: Funcs, frames: Frames, h: Held, k: set<nat>, pl: Place, s: Stmt)
    requires SameSigs(a, b) && SafeStmt(a, frames, h, k, pl, s)
    ensures SafeStmt(b, frames, h, k, pl, s)
    decreases s, 0
  {
    hide SafeExpr, SafeSet, SameSigs, Res;
    match s
    case ExprS(e) => SafeExprSame(a, b, frames, h, k, e);
    case Set(_, e, _) => SafeExprSame(a, b, frames, h, k, e);
    case Block(body) => SafeListSame(a, b, frames, h, k, pl, body);
    case If(c, thn, els) =>
      SafeExprSame(a, b, frames, h, k, c);
      SafeListSame(a, b, frames, Hold(h, Res(h, c)), k, pl, thn);
      SafeListSame(a, b, FramesAfterBlock(frames, thn), HeldAfterList(Hold(h, Res(h, c)), thn), k, pl, els);
    case Loop(None, body) => SafeListSame(a, b, frames, h, k, pl.(inLoop := true), body);
    case Loop(Some(c), body) =>
      SafeExprSame(a, b, frames, h, k, c);
      SafeListSame(a, b, frames, Hold(h, Res(h, c)), k + {Res(h, c)}, pl.(inLoop := true), body);
    case Return(e) => SafeExprSame(a, b, frames, h, k, e);
    case _ =>
  }

  lemma {:induction false} SafeListSame(a: Funcs, b: Funcs, frames: Frames, h: Held, k: set<nat>, pl: Place,
                                        body: List<Stmt>)
    requires SameSigs(a, b) && SafeList(a, frames, h, k, pl, body)
    ensures SafeList(b, frames, h, k, pl, body)
    decreases body, 0
  {
    hide SafeStmt, SameSigs;
    match body
    case Nil =>
    case Cons(s, rest) =>
      SafeStmtSame(a, b, frames, h, k, pl, s);
      SafeListSame(a, b, FramesAfter(frames, s), HeldAfter(h, s), k, pl, rest);
  }

  /** Two scopes that differ in addresses and folding only. */
  ghost predicate Alike(u: Scope, v: Scope) {
    u.held == v.held && u.glob == v.glob && SameSigs(u.ft, v.ft)
  }

  lemma ItemSame(u: Scope, v: Scope, item: Item, n: nat, m: nat)
    requires Alike(u, v) && SafeItem(u, item, n)
    ensures SafeItem(v, item, m) && Alike(AfterItem(u, item, n), AfterItem(v, item, m))
  {
    hide SafeStmt, SafeList, ListErr, StmtErr, StmtFits, ListFits, ListPlaced, FramesAfter, FramesAfterList, HeldAfter,
         HeldAfterList, ParamFrame, Distinct;
    ItemErrSame(u, v, item, n, m);
    match item
    case Def(f, params, body) =>
      SafeListSame(Declare(u.ft, f, params, n + 1), Declare(v.ft, f, params, m + 1), [u.glob, ParamFrame(params)],
                   u.held, {},
                   Place(|params| + 1, true, false), body);
    case Do(s) => SafeStmtSame(u.ft, v.ft, [u.glob], u.held, {}, TOP_LEVEL, s);
  }

  lemma {:induction false} ItemsSame(u: Scope, v: Scope, items: List<Item>, n: nat, m: nat)
    requires Alike(u, v) && SafeItems(u, items, n)
    ensures SafeItems(v, items, m)
    ensures AfterItems(v, items, m).glob == AfterItems(u, items, n).glob
    decreases items
  {
    hide SafeItem, AfterItem, ItemCode, SameSigs;
    match items
    case Nil =>
    case Cons(item, rest) =>
      ItemSame(u, v, item, n, m);
      ItemsSame(AfterItem(u, item, n), AfterItem(v, item, m), rest, n + |ItemCode(u, item, n)|,
                m + |ItemCode(v, item, m)|);
  }

  // ----- the refinement -----

  /** The code of a statement with folding and the code without, wherever the two stand and from any two
      states that match the same environment: both end the same way, at corresponding addresses (the
      end, the target of a break or a continue, the return address) and with the same values. */
  lemma StmtsCorrespond(m: Image, m1: Image, frames: Frames, h: Held, k: set<nat>, pl: Place, st: Stmt,
                        brk: nat, cnt: nat, brk1: nat, cnt1: nat, fuel: nat, env: Env, s: State, s1: State)
    returns (t: State, t1: State)
    requires m.fold && !m1.fold && m.lim == m1.lim == NO_REG && m.defs == m1.defs && SameSigs(m.ft, m1.ft)
    requires CodeAt(m.ops, s.pc, StmtCode(true, m.ft, frames, h, st, s.pc, brk, cnt))
    requires CodeAt(m1.ops, s1.pc, StmtCode(false, m1.ft, frames, h, st, s1.pc, brk1, cnt1))
    requires StmtFits(NO_REG, h, st) && SafeStmt(m.ft, frames, h, k, pl, st) && Live(k, h, REG_COUNT)
    requires Here(frames, pl, env, s) && Here(frames, pl, env, s1)
    requires Exec(m.defs, fuel, env, st).Some?
    ensures Reaches(m.ops, s, t) && Reaches(m1.ops, s1, t1)
    ensures var after, out := Last(FramesAfter(frames, st)).locals, Exec(m.defs, fuel, env, st).value;
            && Done(Last(frames).locals, after, k, s, t, out, s.pc + StmtLen(true, st), brk, cnt)
            && Done(Last(frames).locals, after, k, s1, t1, out, s1.pc + StmtLen(false, st), brk1, cnt1)
  {
    hide StmtCode, StmtFits, SafeStmt, Live, Here, Exec, Reaches, Done, Linked, SameSigs;
    SafeStmtSame(m.ft, m1.ft, frames, h, k, pl, st);
    t := SimStmt(m, frames, h, k, pl, st, brk, cnt, fuel, env, s);
    t1 := SimStmt(m1, frames, h, k, pl, st, brk1, cnt1, fuel, env, s1);
  }

  /** Both programs run to their HALT, and every variable has the same source value in the same slot of
      both. */
  lemma FoldingRefines(items: List<Item>, fuel: nat) returns (t: State, t1: State)
    requires SafeProgram(items)
    requires ExecItems(DefsOf(items), fuel, map[], items).Some?
    ensures Reaches(Compile(items), Start(), t) && Step(Compile(items), t) == Halted
    ensures Reaches(CompileBy(false, items), Start(), t1) && Step(CompileBy(false, items), t1) == Halted
    ensures t.rets == t1.rets == [] && |t.frames| == |t1.frames| == 1
    ensures var env := ExecItems(DefsOf(items), fuel, map[], items).value;
            Match(Variables(items), env, t.frames[0].locals) && Match(Variables(items), env, t1.frames[0].locals)
  {
    hide CompileBy, Start, SafeItems, DefsOf, ExecItems, AfterItems, Reaches, Step, Match;
    t := CompilerCorrect(items, fuel);
    ItemsSame(FRESH, Begin(false), items, 0, 0);
    t1 := ProgramRuns(false, items, fuel);
  }
}
