/** Slots of local variables: distinct for names visible together, and never handed out twice, even
    though a block forgets its names. */
module Slots {
  import opened Words
  import opened Machine
  import opened Source
  import opened Reference
  import opened Safety

  /** An upper bound on the slots a statement takes. */
  function Decls(s: Stmt): nat
    decreases s, 0
  {
    match s
    case Set(_, _, _) => 1
    case Block(body) => ListDecls(body)
    case If(_, thn, els) => ListDecls(thn) + ListDecls(els)
    case Loop(_, body) => ListDecls(body)
    case _ => 0
  }

  function ListDecls(body: List<Stmt>): nat
    decreases body, 0
  {
    match body
    case Nil => 0
    case Cons(s, rest) => Decls(s) + ListDecls(rest)
  }

  /** The names of `f` keep their slots; every other name of `g` has a slot that `f` had not handed out. */
  ghost predicate Fresh(f: CFrame, g: CFrame, n: nat) {
    && FrameOk(g) && f.used <= g.used <= f.used + n
    && (forall x :: x in f.locals ==> x in g.locals && g.locals[x] == f.locals[x])
    && (forall x :: x in g.locals && x !in f.locals ==> g.locals[x].idx >= f.used)
  }

  lemma FreshTrans(f: CFrame, g: CFrame, k: CFrame, m: nat, n: nat)
    requires Fresh(f, g, m) && Fresh(g, k, n)
    ensures Fresh(f, k, m + n)
  {
  }

  lemma SetFresh(f: CFrame, x: string, mut: bool)
    requires FrameOk(f) && f.used + 1 < NO_SLOT
    ensures SetFrames([f], x, mut) == [f] || SetFrames([f], x, mut) == [NewVar(f, x, mut)]
    ensures Fresh(f, SetFrames([f], x, mut)[0], 1)
  {
    var l := FindVar([f], x);
    assert Front([f]) == [];
    assert [f] == TopFrame([f], f);
    assert TopFrame([f], NewVar(f, x, mut)) == [NewVar(f, x, mut)];
    if l.Some? {
      assert l.value.depth == 0;
    } else {
      NewVarGrows(f, x, mut);
    }
  }

  /** Compiling any top-level statement, nested blocks included, with fewer than 65535 variables. */
  lemma {:induction false} SlotsFresh(f: CFrame, s: Stmt)
    requires FrameOk(f) && f.used + Decls(s) < NO_SLOT
    ensures Fresh(f, FramesAfter([f], s)[0], Decls(s))
    decreases s, 0
  {
    hide Fresh, FrameOk, SetFrames, Lookup;
    match s
    case Set(x, _, mut) =>
      FreshRefl(f, 1);
      SetFresh(f, x, mut);
    case Block(body) => BlockFresh(f, body);
    case If(_, thn, els) =>
      BlockFresh(f, thn);
      var g := FramesAfterBlock([f], thn)[0];
      assert FramesAfterBlock([f], thn) == [g];
      FreshMeans(f, g, ListDecls(thn));
      BlockFresh(g, els);
      FreshTrans(f, g, FramesAfterBlock([g], els)[0], ListDecls(thn), ListDecls(els));
    case Loop(_, body) => BlockFresh(f, body);
    case _ => FreshRefl(f, 0);
  }

  lemma FreshRefl(f: CFrame, n: nat)
    requires FrameOk(f)
    ensures Fresh(f, f, n)
  {
  }

  lemma FreshMeans(f: CFrame, g: CFrame, n: nat)
    requires Fresh(f, g, n)
    ensures FrameOk(g) && g.used <= f.used + n
  {
  }

  lemma {:induction false} ListFresh(f: CFrame, body: List<Stmt>)
    requires FrameOk(f) && f.used + ListDecls(body) < NO_SLOT
    ensures Fresh(f, FramesAfterList([f], body)[0], ListDecls(body))
    decreases body, 0
  {
    hide Fresh, FrameOk;
    match body
    case Nil => FreshRefl(f, 0);
    case Cons(s, rest) =>
      SlotsFresh(f, s);
      var g := FramesAfter([f], s)[0];
      assert FramesAfter([f], s) == [g];
      FreshMeans(f, g, Decls(s));
      ListFresh(g, rest);
      FreshTrans(f, g, FramesAfterList([g], rest)[0], Decls(s), ListDecls(rest));
  }

  /** After a block the names are the old ones, but the slots it used stay used. */
  lemma {:induction false} BlockFresh(f: CFrame, body: List<Stmt>)
    requires FrameOk(f) && f.used + ListDecls(body) < NO_SLOT
    ensures Fresh(f, FramesAfterBlock([f], body)[0], ListDecls(body))
    ensures FramesAfterBlock([f], body)[0].locals == f.locals
    ensures FramesAfterBlock([f], body)[0].used == FramesAfterList([f], body)[0].used
    decreases body, 1
  {
    ListFresh(f, body);
  }
}
