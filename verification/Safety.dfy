/** Conditions, all computable from the program text, under which compiled code does what the
    source says. Each rules out one family of programs the code generator gets wrong. */
module Safety {
  import opened Words
  import opened Machine
  import opened Source
  import opened Reference

  // FCALL and FRET bring back only these registers.
  const SAVED_REGS: set<nat> := {1, 2, 3}

  const MAX_ARGS: nat := 250

  /** `k` holds the registers whose values are still needed after `e`. A call must find them among
      the saved ones; only the first argument may itself contain a call (a later one would
      overwrite register 254); a variable must live in the innermost frame. */
  predicate SafeExpr(ft: Funcs, frames: Frames, h: Held, k: set<nat>, e: Expr)
    decreases e
  {
    match e
    case Var(x) => Lookup(frames, x).Some? && Lookup(frames, x).value.depth == 0
    case Neg(e1) => SafeExpr(ft, frames, h, k, e1)
    case Bin(_, l, r) =>
      SafeExpr(ft, frames, Left(h), k, l) && SafeExpr(ft, frames, Left(h), k + {Alloc(h)}, r)
    case Call(f, args) =>
      && k <= SAVED_REGS
      && k <= h
      && f in ft && ft[f].arity == Length(args) <= MAX_ARGS
      && SafeArgs(ft, frames, h, k, args, 0)
    case _ => true
  }

  predicate SafeArgs(ft: Funcs, frames: Frames, h: Held, k: set<nat>, args: List<Expr>, i: nat)
    decreases args
  {
    match args
    case Nil => true
    case Cons(a, rest) =>
      && RegsFit(h, REG_COUNT - Min(i, MAX_ARGS), a)
      && (i > 0 ==> !HasCall(a))
      && SafeExpr(ft, frames, h, k, a)
      && SafeArgs(ft, frames, h, k, rest, i + 1)
  }

  function Min(a: nat, b: nat): nat {
    if a < b then a else b
  }

  predicate HasCall(e: Expr) {
    match e
    case Neg(e1) => HasCall(e1)
    case Bin(_, l, r) => HasCall(l) || HasCall(r)
    case Call(_, _) => true
    case _ => false
  }

  /** Where the code of a statement runs: `size` slots in its frame, and what may leave it. */
  datatype Place = Place(size: nat, inFn: bool, inLoop: bool)

  predicate SafeSet(frames: Frames, size: nat, x: string) {
    && !SetErr(frames, x)
    && if Lookup(frames, x).Some? then |frames| == 1 else Last(frames).used < size
  }

  predicate SafeStmt(ft: Funcs, frames: Frames, h: Held, k: set<nat>, pl: Place, s: Stmt)
    decreases s, 0
  {
    match s
    case ExprS(e) => SafeExpr(ft, frames, h, k, e)
    case Set(x, e, _) => SafeSet(frames, pl.size, x) && SafeExpr(ft, frames, h, k, e)
    case Block(body) => SafeList(ft, frames, h, k, pl, body)
    case If(c, thn, els) =>
      && SafeExpr(ft, frames, h, k, c)
      && SafeList(ft, frames, Hold(h, Res(h, c)), k, pl, thn)
      && SafeList(ft, FramesAfterBlock(frames, thn), HeldAfterList(Hold(h, Res(h, c)), thn), k, pl, els)
    case Loop(None, body) => SafeList(ft, frames, h, k, pl.(inLoop := true), body)
    case Loop(Some(c), body) =>
      && !c.Call?  // the counter would be register 0
      && SafeExpr(ft, frames, h, k, c)
      && SafeList(ft, frames, Hold(h, Res(h, c)), k + {Res(h, c)}, pl.(inLoop := true), body)
    case Break => pl.inLoop
    case Continue => pl.inLoop
    case Return(e) => pl.inFn && SafeExpr(ft, frames, h, k, e)
  }

  predicate SafeList(ft: Funcs, frames: Frames, h: Held, k: set<nat>, pl: Place, body: List<Stmt>)
    decreases body, 0
  {
    match body
    case Nil => true
    case Cons(s, rest) =>
      SafeStmt(ft, frames, h, k, pl, s) && SafeList(ft, FramesAfter(frames, s), HeldAfter(h, s), k, pl, rest)
  }

  // ----- frames under construction -----

  /** Distinct names have distinct slots, all handed out already. */
  ghost predicate FrameOk(f: CFrame) {
    && (forall x :: x in f.locals ==> f.locals[x].idx < f.used)
    && (forall x, y :: x in f.locals && y in f.locals && f.locals[x].idx == f.locals[y].idx ==> x == y)
  }

  /** `g` came from `f` by declaring more names. */
  ghost predicate Extends(f: CFrame, g: CFrame) {
    f.used <= g.used && forall x :: x in f.locals ==> x in g.locals && g.locals[x] == f.locals[x]
  }

  ghost predicate Grown(frames: Frames, after: Frames, size: nat) {
    && |after| == |frames|
    && Front(after) == Front(frames)
    && Extends(Last(frames), Last(after))
    && FrameOk(Last(after))
    && Last(after).used <= size
  }

  lemma SetGrows(frames: Frames, size: nat, x: string, mut: bool)
    requires FrameOk(Last(frames)) && Last(frames).used <= size < NO_SLOT && SafeSet(frames, size, x)
    ensures Grown(frames, SetFrames(frames, x, mut), size)
    ensures Lookup(frames, x).Some? ==> SetFrames(frames, x, mut) == frames
    ensures Lookup(frames, x).None? ==> x !in Last(frames).locals
  {
    if Lookup(frames, x).None? {
      NewVarGrows(Last(frames), x, mut);
      assert SetFrames(frames, x, mut) == TopFrame(frames, NewVar(Last(frames), x, mut));
    } else {
      var l := FindVar(frames, x).value;
      assert l.depth == 0;
    }
  }

  lemma NewVarGrows(f: CFrame, x: string, mut: bool)
    requires FrameOk(f) && x !in f.locals && f.used < NO_SLOT
    ensures NewVar(f, x, mut) == CFrame(f.locals[x := Slot(mut, f.used)], f.used + 1)
    ensures Extends(f, NewVar(f, x, mut)) && FrameOk(NewVar(f, x, mut))
  {
  }

  lemma {:induction false} FramesGrow(ft: Funcs, frames: Frames, h: Held, k: set<nat>, pl: Place, s: Stmt)
    requires FrameOk(Last(frames)) && Last(frames).used <= pl.size < NO_SLOT && SafeStmt(ft, frames, h, k, pl, s)
    ensures Grown(frames, FramesAfter(frames, s), pl.size)
    decreases s, 0
  {
    match s
    case Set(x, _, mut) =>
      SetGrows(frames, pl.size, x, mut);
    case Block(body) =>
      BlockGrows(ft, frames, h, k, pl, body);
    case If(c, thn, els) =>
      BlockGrows(ft, frames, Hold(h, Res(h, c)), k, pl, thn);
      BlockGrows(ft, FramesAfterBlock(frames, thn), HeldAfterList(Hold(h, Res(h, c)), thn), k, pl, els);
    case Loop(None, body) =>
      BlockGrows(ft, frames, h, k, pl.(inLoop := true), body);
    case Loop(Some(c), body) =>
      BlockGrows(ft, frames, Hold(h, Res(h, c)), k + {Res(h, c)}, pl.(inLoop := true), body);
    case _ =>
  }

  lemma {:induction false} ListGrows(ft: Funcs, frames: Frames, h: Held, k: set<nat>, pl: Place, body: List<Stmt>)
    requires FrameOk(Last(frames)) && Last(frames).used <= pl.size < NO_SLOT && SafeList(ft, frames, h, k, pl, body)
    ensures Grown(frames, FramesAfterList(frames, body), pl.size)
    decreases body, 0
  {
    match body
    case Nil =>
    case Cons(s, rest) =>
      FramesGrow(ft, frames, h, k, pl, s);
      ListGrows(ft, FramesAfter(frames, s), HeldAfter(h, s), k, pl, rest);
  }

  lemma {:induction false} BlockGrows(ft: Funcs, frames: Frames, h: Held, k: set<nat>, pl: Place, body: List<Stmt>)
    requires FrameOk(Last(frames)) && Last(frames).used <= pl.size < NO_SLOT && SafeList(ft, frames, h, k, pl, body)
    ensures Grown(frames, FramesAfterBlock(frames, body), pl.size)
    ensures Last(FramesAfterBlock(frames, body)).locals == Last(frames).locals
    decreases body, 1
  {
    ListGrows(ft, frames, h, k, pl, body);
  }

  // ----- registers under construction -----

  lemma ResFresh(h: Held, e: Expr)
    ensures Res(h, e) == 0 || Res(h, e) >= NO_REG || Res(h, e) !in h
  {
    match e
    case Neg(_) =>
    case Bin(_, _, r) =>
    case Call(_, _) =>
    case _ =>
  }

  lemma {:induction false} HeldGrows(h: Held, s: Stmt)
    ensures h <= HeldAfter(h, s)
    decreases s, 0
  {
    match s
    case Block(body) =>
      HeldGrowsList(h, body);
    case If(c, thn, els) =>
      ResFresh(h, c);
      HeldGrowsList(Hold(h, Res(h, c)), thn);
      HeldGrowsList(HeldAfterList(Hold(h, Res(h, c)), thn), els);
    case Loop(None, body) =>
      HeldGrowsList(h, body);
    case Loop(Some(c), body) =>
      ResFresh(h, c);
      HeldGrowsList(Hold(h, Res(h, c)), body);
    case _ =>
  }

  lemma {:induction false} HeldGrowsList(h: Held, body: List<Stmt>)
    ensures h <= HeldAfterList(h, body)
    decreases body, 0
  {
    match body
    case Nil =>
    case Cons(s, rest) =>
      HeldGrows(h, s);
      HeldGrowsList(HeldAfter(h, s), rest);
  }
}
