/** Registers between the lines of a session, and between statements: which of them are given back. */
module Leaks {
  import opened Words
  import opened Source
  import opened Reference
  import opened Patching
  import opened Programs
  import opened Simulation
  import opened Emit
  import opened Emission
  import opened Generation
  import opened VM
  import opened Repl

  // ----- statements -----

  /** No expression stands as a statement. */
  predicate NoValues(s: Stmt)
    decreases s, 0
  {
    match s
    case ExprS(_) => false
    case Block(body) => ListNoValues(body)
    case If(_, thn, els) => ListNoValues(thn) && ListNoValues(els)
    case Loop(_, body) => ListNoValues(body)
    case _ => true
  }

  predicate ListNoValues(body: List<Stmt>)
    decreases body, 0
  {
    match body
    case Nil => true
    case Cons(s, rest) => NoValues(s) && ListNoValues(rest)
  }

  /** Such a statement gives back every register it takes, also where there are not enough. */
  lemma {:induction false} StmtHeld(s: Stmt, g: GenState)
    requires NoValues(s) && !StmtErr(g.ft, g.frames, s)
    ensures StmtGen(s, g).0.held == g.held
    decreases s, 1
  {
    hide SetGen, ReturnGen, BlockGen, IfGen, LoopGen, ExprErr, ListErr, FramesAfterBlock, SetErr;
    match s
    case Set(x, e, mut) => SetHeld(x, e, mut, g);
    case Block(body) => BlockHeld(body, g);
    case If(c, thn, els) => IfHeld(c, thn, els, g);
    case Loop(count, body) => LoopHeld(count, body, g);
    case Return(e) => ReturnHeld(e, g);
    case _ =>
  }

  lemma SetHeld(x: string, e: Expr, mut: bool, g: GenState)
    requires !StmtErr(g.ft, g.frames, Set(x, e, mut))
    ensures SetGen(x, e, mut, g).held == g.held
  {
    hide ExprGen, ExprCode, ExprErr, Res, FindVar, Hold, Release;
    ExprAgrees(e, g);
    HoldRelease(g.held, e);
  }

  lemma ReturnHeld(e: Expr, g: GenState)
    requires !ExprErr(g.ft, g.frames, e)
    ensures ReturnGen(e, g).held == g.held
  {
    hide ExprGen, ExprCode, ExprErr, Res, MoveOps, Hold, Release;
    ExprAgrees(e, g);
    HoldRelease(g.held, e);
  }

  lemma {:induction false} ListHeld(body: List<Stmt>, r: nat, g: GenState)
    requires ListNoValues(body) && !ListErr(g.ft, g.frames, body)
    ensures ListGen(body, r, g).0.held == g.held
    decreases body, 1
  {
    hide StmtGen, StmtErr, NoValues, FramesAfter;
    match body
    case Nil =>
    case Cons(s, rest) =>
      StmtHeld(s, g);
      StmtAgrees(s, g);
      ListHeld(rest, StmtGen(s, g).1, StmtGen(s, g).0);
  }

  lemma {:induction false} BlockHeld(body: List<Stmt>, g: GenState)
    requires ListNoValues(body) && !ListErr(g.ft, g.frames, body)
    ensures BlockGen(body, g).0.held == g.held
    decreases body, 2
  {
    hide ListGen, ListErr, ListNoValues;
    ListHeld(body, 0, g);
  }

  lemma {:induction false} IfHeld(c: Expr, thn: List<Stmt>, els: List<Stmt>, g: GenState)
    requires ListNoValues(thn) && ListNoValues(els) && !StmtErr(g.ft, g.frames, If(c, thn, els))
    ensures IfGen(c, thn, els, g).held == g.held
    decreases If(c, thn, els), 0
  {
    hide ExprGen, BlockGen, ExprErr, ListErr, ListNoValues, ExprCode, Res, Hold, Release, FramesAfterBlock;
    ExprAgrees(c, g);
    HoldRelease(g.held, c);
    var (g1, r) := ExprGen(c, g);
    BlockHeld(thn, IfOpen(r, g1));
    BlockAgrees(thn, IfOpen(r, g1));
    var g3 := BlockGen(thn, IfOpen(r, g1)).0;
    BlockHeld(els, IfElse(|g1.ops| + 1, g3));
  }

  lemma {:induction false} LoopHeld(count: Option<Expr>, body: List<Stmt>, g: GenState)
    requires ListNoValues(body) && !StmtErr(g.ft, g.frames, Loop(count, body))
    ensures LoopGen(count, body, g).held == g.held
    decreases Loop(count, body), 0
  {
    hide ExprGen, BlockGen, ExprErr, ListErr, ListNoValues, ExprCode, Res, Hold, Patched;
    if count.Some? {
      ExprAgrees(count.value, g);
      HoldRelease(g.held, count.value);
    }
    var (g1, r) := CountGen(count, g);
    BlockHeld(body, TestGen(r, g1));
  }

  // ----- lines -----

  /** A line that gives its registers back: an expression, whose register the loop itself releases, or
      statements and declarations without expressions as statements. */
  predicate GivesBack(item: Item) {
    match item
    case Def(_, _, body) => ListNoValues(body)
    case Do(s) => s.ExprS? || NoValues(s)
  }

  /** After such a line, accepted and run to its HALT, the same registers are taken as before. */
  lemma LineHeld(item: Item, limit: nat, t: Table, t1: Table)
    requires |t.gen.frames| == 1 && GivesBack(item) && !Refused(item, t) && Line(item, limit, t) == Some(t1)
    ensures t1.gen.held == t.gen.held
  {
    hide ExprGen, ExprCode, RunFor, Res, StmtGen, ListGen, Hold;
    var g := t.gen.(err := false);
    ItemAgrees(item, g);
    match item
    case Def(f, params, body) => DefHeld(f, params, body, g);
    case Do(s) =>
      if s.ExprS? {
        ExprLine(s.e, g);
      } else {
        NoValueLine(s, g);
      }
  }

  lemma DefHeld(f: string, params: seq<string>, body: List<Stmt>, g: GenState)
    requires |g.frames| == 1 && ListNoValues(body) && !ItemErr(Top(g), Def(f, params, body), |g.ops|)
    ensures ItemGen(Def(f, params, body), g).0.held == g.held
  {
    hide ListGen, ListErr, ListNoValues, ParamFrame, Distinct, ParamCode;
    assert OpenGen(f, params, g).frames == [g.frames[0], ParamFrame(params)];
    ListHeld(body, 0, OpenGen(f, params, g));
  }

  /** An expression takes exactly the register that is released for it. */
  lemma ExprLine(e: Expr, g: GenState)
    requires |g.frames| == 1 && !ItemErr(Top(g), Do(ExprS(e)), |g.ops|)
    ensures var (to, r) := ItemGen(Do(ExprS(e)), g); Release(to.held, r) == g.held
  {
    hide ExprGen, ExprCode, Res, ExprErr;
    assert [g.frames[0]] == g.frames;
    ExprAgrees(e, g);
    HoldRelease(g.held, e);
  }

  /** Other statements return no register, or 0 for a return and an empty block. */
  lemma NoValueLine(s: Stmt, g: GenState)
    requires |g.frames| == 1 && NoValues(s) && !ItemErr(Top(g), Do(s), |g.ops|)
    ensures var (to, r) := ItemGen(Do(s), g); Release(to.held, r) == g.held
  {
    hide StmtErr;
    assert [g.frames[0]] == g.frames;
    StmtHeld(s, g);
    NoRegister(s, g);
  }

  lemma {:induction false} NoRegister(s: Stmt, g: GenState)
    requires NoValues(s)
    ensures StmtGen(s, g).1 == 0 || StmtGen(s, g).1 == NO_REG
    decreases s, 1
  {
    match s
    case Block(body) => ListNoRegister(body, 0, g);
    case _ =>
  }

  lemma {:induction false} ListNoRegister(body: List<Stmt>, r: nat, g: GenState)
    requires ListNoValues(body) && (r == 0 || r == NO_REG)
    ensures ListGen(body, r, g).1 == 0 || ListGen(body, r, g).1 == NO_REG
    decreases body, 0
  {
    hide StmtGen;
    match body
    case Nil =>
    case Cons(s, rest) =>
      NoRegister(s, g);
      ListNoRegister(rest, StmtGen(s, g).1, StmtGen(s, g).0);
  }

  /** However many such lines there are, a session never runs out of registers through them. */
  lemma {:induction false} LinesHeld(items: seq<Item>, limit: nat, t: Table, t1: Table)
    requires |t.gen.frames| == 1 && (forall i :: 0 <= i < |items| ==> GivesBack(items[i]))
    requires !AnyRefused(items, limit, t) && Lines(items, limit, t) == Some(t1)
    ensures t1.gen.held == t.gen.held && Alloc(t1.gen.held) == Alloc(t.gen.held)
    decreases |items|
  {
    hide Line, Refused, GivesBack, Alloc;
    if items != [] {
      var u := Line(items[0], limit, t).value;
      LineHeld(items[0], limit, t, u);
      LinesHeld(items[1..], limit, u, t1);
    }
  }

  // ----- a line that does not -----

  /** { m n } */
  function TwoValues(m: I64, n: I64): Item {
    Do(Block(Cons(ExprS(Num(m)), Cons(ExprS(Num(n)), Nil))))
  }

  /** Of two expressions in a block only the last one's register is given back: each such line takes one
      register more. */
  lemma BlockLeaks(m: I64, n: I64, limit: nat, t: Table, t1: Table)
    requires |t.gen.frames| == 1 && Line(TwoValues(m, n), limit, t) == Some(t1)
    requires Alloc(t.gen.held) < NO_REG
    ensures !Refused(TwoValues(m, n), t)
    ensures t1.gen.held == t.gen.held + {Alloc(t.gen.held)} && Alloc(t.gen.held) !in t.gen.held
  {
    hide FirstFree, Alloc, RunFor;
    var g := t.gen.(err := false);
    var a := Alloc(g.held);
    var (g1, r1) := StmtGen(ExprS(Num(m)), g);
    assert r1 == a && g1.held == g.held + {a} && !g1.err;
    var b := Alloc(g1.held);
    var (g2, r2) := StmtGen(ExprS(Num(n)), g1);
    assert r2 == b && g2.held == Hold(g1.held, b) && !g2.err;
    assert ListGen(Nil, r2, g2) == (g2, r2);
    assert ListGen(Cons(ExprS(Num(n)), Nil), r1, g1) == (g2, r2);
    assert BlockGen(Cons(ExprS(Num(m)), Cons(ExprS(Num(n)), Nil)), g).0.held == g2.held;
    assert Release(g2.held, b) == g1.held;
  }
}
