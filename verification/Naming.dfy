/** Which programs the generator accepts, read off the tree: names in scope, numbers of arguments, and what
    may be reassigned. There are no frames, slots or errors of the generator here. */
module Naming {
  import opened Words
  import opened Machine
  import opened Source
  import opened Reference
  import opened Simulation
  import opened Programs
  import opened Emission
  import opened Slots

  // ----- the rules -----

  /** The names of a scope, and which of them may be reassigned. */
  type Names = map<string, bool>

  /** What is in sight: the global names and, in a function, its own, which come first. */
  datatype Sight = Sight(glob: Names, own: Option<Names>)

  function Visible(v: Sight, x: string): Option<bool> {
    if v.own.Some? && x in v.own.value then Some(v.own.value[x])
    else if x in v.glob then Some(v.glob[x])
    else None
  }

  /** The number of parameters of each function declared so far, kept in a byte. */
  type Arities = map<string, nat>

  /** Every name is in sight, every function is declared and gets as many arguments as it has parameters. */
  predicate ExprNamed(fs: Arities, v: Sight, e: Expr) {
    match e
    case Num(_) => true
    case Bool(_) => true
    case Var(x) => Visible(v, x).Some?
    case Neg(e1) => ExprNamed(fs, v, e1)
    case Bin(_, l, r) => ExprNamed(fs, v, l) && ExprNamed(fs, v, r)
    case Call(f, args) => f in fs && Length(args) == fs[f] && ArgsNamed(fs, v, args)
  }

  predicate ArgsNamed(fs: Arities, v: Sight, args: List<Expr>) {
    match args
    case Nil => true
    case Cons(a, rest) => ExprNamed(fs, v, a) && ArgsNamed(fs, v, rest)
  }

  /** An assignment declares a name that is not in sight, in the innermost scope. With `ghosts`, assigning to
      a name in a function leaves a name of the same spelling in the other scope, which cannot be reassigned. */
  function AfterSet(ghosts: bool, v: Sight, x: string, mut: bool): Sight {
    match Visible(v, x)
    case None =>
      if v.own.Some? then v.(own := Some(v.own.value[x := mut])) else v.(glob := v.glob[x := mut])
    case Some(m) =>
      if !ghosts || !m || v.own.None? then v
      else if x in v.own.value then (if x in v.glob then v else v.(glob := v.glob[x := false]))
      else v.(own := Some(v.own.value[x := false]))
  }

  function AfterStmt(ghosts: bool, v: Sight, s: Stmt): Sight
    decreases s, 0
  {
    match s
    case Set(x, _, mut) => AfterSet(ghosts, v, x, mut)
    case Block(body) => AfterBlock(ghosts, v, body)
    case If(_, thn, els) => AfterBlock(ghosts, AfterBlock(ghosts, v, thn), els)
    case Loop(_, body) => AfterBlock(ghosts, v, body)
    case _ => v
  }

  function AfterList(ghosts: bool, v: Sight, body: List<Stmt>): Sight
    decreases body, 0
  {
    match body
    case Nil => v
    case Cons(s, rest) => AfterList(ghosts, AfterStmt(ghosts, v, s), rest)
  }

  /** What a block declares in the innermost scope is forgotten. */
  function AfterBlock(ghosts: bool, v: Sight, body: List<Stmt>): Sight
    decreases body, 1
  {
    var after := AfterList(ghosts, v, body);
    if v.own.Some? then after.(own := v.own) else after.(glob := v.glob)
  }

  /** No name that is in sight and may not be reassigned is assigned to. */
  predicate StmtNamed(ghosts: bool, fs: Arities, v: Sight, s: Stmt)
    decreases s, 0
  {
    match s
    case ExprS(e) => ExprNamed(fs, v, e)
    case Set(x, e, _) => Visible(v, x) != Some(false) && ExprNamed(fs, v, e)
    case Block(body) => ListNamed(ghosts, fs, v, body)
    case If(c, thn, els) =>
      ExprNamed(fs, v, c) && ListNamed(ghosts, fs, v, thn) && ListNamed(ghosts, fs, AfterBlock(ghosts, v, thn), els)
    case Loop(count, body) => (count.Some? ==> ExprNamed(fs, v, count.value)) && ListNamed(ghosts, fs, v, body)
    case Break => true
    case Continue => true
    case Return(e) => ExprNamed(fs, v, e)
  }

  predicate ListNamed(ghosts: bool, fs: Arities, v: Sight, body: List<Stmt>)
    decreases body, 0
  {
    match body
    case Nil => true
    case Cons(s, rest) => StmtNamed(ghosts, fs, v, s) && ListNamed(ghosts, fs, AfterStmt(ghosts, v, s), rest)
  }

  /** What is known between two items. */
  datatype Known = Known(fs: Arities, glob: Names)

  const NOTHING: Known := Known(map[], map[])

  function ParamNames(params: seq<string>): Names {
    map x | x in params :: true
  }

  /** A function knows itself. Its parameters are different names, none of them global; it is new. */
  predicate ItemNamed(ghosts: bool, k: Known, item: Item) {
    match item
    case Def(f, params, body) =>
      && f !in k.fs && Distinct(params) && (forall x :: x in params ==> x !in k.glob)
      && ListNamed(ghosts, k.fs[f := |params| % 256], Sight(k.glob, Some(ParamNames(params))), body)
    case Do(s) => StmtNamed(ghosts, k.fs, Sight(k.glob, None), s)
  }

  function AfterNamed(ghosts: bool, k: Known, item: Item): Known {
    match item
    case Def(f, params, body) =>
      Known(k.fs[f := |params| % 256], AfterList(ghosts, Sight(k.glob, Some(ParamNames(params))), body).glob)
    case Do(s) => k.(glob := AfterStmt(ghosts, Sight(k.glob, None), s).glob)
  }

  predicate ItemsNamed(ghosts: bool, k: Known, items: List<Item>)
    decreases items
  {
    match items
    case Nil => true
    case Cons(item, rest) => ItemNamed(ghosts, k, item) && ItemsNamed(ghosts, AfterNamed(ghosts, k, item), rest)
  }

  /** Fewer than 65535 variables in every frame: the slot counter has 16 bits. */
  predicate Small(items: List<Item>, n: nat)
    decreases items
  {
    match items
    case Nil => n < NO_SLOT
    case Cons(item, rest) =>
      match item
      case Def(_, params, body) => |params| + ListDecls(body) < NO_SLOT && Small(rest, n)
      case Do(s) => Small(rest, n + Decls(s))
  }

  // ----- the generator's frames show these scopes -----

  ghost predicate Shows(f: CFrame, names: Names) {
    && f.locals.Keys == names.Keys
    && forall x :: x in names ==> f.locals[x].mut == names[x] && f.locals[x].idx < NO_SLOT
  }

  ghost predicate InSight(frames: Frames, v: Sight) {
    if v.own.Some? then |frames| == 2 && Shows(frames[0], v.glob) && Shows(frames[1], v.own.value)
    else |frames| == 1 && Shows(frames[0], v.glob)
  }

  ghost predicate Room(frames: Frames, n: nat) {
    Last(frames).used + n < NO_SLOT
  }

  lemma LookupSees(frames: Frames, v: Sight, x: string)
    requires InSight(frames, v)
    ensures var l := Lookup(frames, x);
            match Visible(v, x)
            case None => l == None && x !in Last(frames).locals
            case Some(m) => l.Some? && l.value.slot.mut == m
                            && l.value.depth == if v.own.Some? && x !in v.own.value then 1 else 0
  {
    if |frames| == 2 {
      assert Front(frames) == [frames[0]] && Front([frames[0]]) == [];
    } else {
      assert Front(frames) == [];
    }
  }

  ghost predicate SameArity(ft: Funcs, fs: Arities) {
    ft.Keys == fs.Keys && forall f :: f in fs ==> ft[f].arity == fs[f]
  }

  lemma {:induction false} ExprErrIff(ft: Funcs, fs: Arities, frames: Frames, v: Sight, e: Expr)
    requires SameArity(ft, fs) && InSight(frames, v)
    ensures ExprErr(ft, frames, e) == !ExprNamed(fs, v, e)
    decreases e
  {
    hide InSight, Lookup, Visible;
    match e
    case Var(x) => LookupSees(frames, v, x);
    case Neg(e1) => ExprErrIff(ft, fs, frames, v, e1);
    case Bin(_, l, r) =>
      ExprErrIff(ft, fs, frames, v, l);
      ExprErrIff(ft, fs, frames, v, r);
    case Call(_, args) => ArgsErrIff(ft, fs, frames, v, args);
    case _ =>
  }

  lemma {:induction false} ArgsErrIff(ft: Funcs, fs: Arities, frames: Frames, v: Sight, args: List<Expr>)
    requires SameArity(ft, fs) && InSight(frames, v)
    ensures ArgsErr(ft, frames, args) == !ArgsNamed(fs, v, args)
    decreases args
  {
    hide InSight;
    match args
    case Nil =>
    case Cons(a, rest) =>
      ExprErrIff(ft, fs, frames, v, a);
      ArgsErrIff(ft, fs, frames, v, rest);
  }

  lemma SetSees(frames: Frames, v: Sight, x: string, mut: bool, n: nat)
    requires InSight(frames, v) && Room(frames, n + 1) && Visible(v, x) != Some(false)
    ensures InSight(SetFrames(frames, x, mut), AfterSet(true, v, x, mut)) && Room(SetFrames(frames, x, mut), n)
  {
    hide Lookup;
    LookupSees(frames, v, x);
    if |frames| == 2 {
      assert frames == [frames[0], frames[1]] && Front(frames) == [frames[0]];
    } else {
      assert frames == [frames[0]] && Front(frames) == [];
    }
  }

  lemma SetIff(ft: Funcs, fs: Arities, frames: Frames, v: Sight, x: string, e: Expr, mut: bool, n: nat)
    requires SameArity(ft, fs) && InSight(frames, v) && Room(frames, n + 1)
    ensures StmtErr(ft, frames, Set(x, e, mut)) == !StmtNamed(true, fs, v, Set(x, e, mut))
    ensures Visible(v, x) != Some(false) ==>
              InSight(FramesAfter(frames, Set(x, e, mut)), AfterSet(true, v, x, mut))
              && Room(FramesAfter(frames, Set(x, e, mut)), n)
  {
    hide ExprErr, ExprNamed, Lookup, InSight, Visible, SetFrames, AfterSet, Room;
    LookupSees(frames, v, x);
    ExprErrIff(ft, fs, frames, v, e);
    if Visible(v, x) != Some(false) {
      SetSees(frames, v, x, mut, n);
    }
  }

  ghost predicate Follows(ft: Funcs, fs: Arities, frames: Frames, v: Sight, s: Stmt, n: nat) {
    && StmtErr(ft, frames, s) == !StmtNamed(true, fs, v, s)
    && (!StmtErr(ft, frames, s) ==>
          InSight(FramesAfter(frames, s), AfterStmt(true, v, s)) && Room(FramesAfter(frames, s), n))
  }

  lemma {:induction false} StmtErrIff(ft: Funcs, fs: Arities, frames: Frames, v: Sight, s: Stmt, n: nat)
    requires SameArity(ft, fs) && InSight(frames, v) && Room(frames, Decls(s) + n)
    ensures Follows(ft, fs, frames, v, s, n)
    decreases s, 0
  {
    hide InSight, SameArity, Visible, ExprErr, ExprNamed, ListErr, ListNamed, SetErr, SetFrames, AfterSet, AfterBlock,
         FramesAfterBlock;
    match s
    case ExprS(e) => ExprErrIff(ft, fs, frames, v, e);
    case Set(x, e, mut) => SetIff(ft, fs, frames, v, x, e, mut, n);
    case Block(body) => BlockErrIff(ft, fs, frames, v, body, n);
    case If(c, thn, els) =>
      ExprErrIff(ft, fs, frames, v, c);
      BlockErrIff(ft, fs, frames, v, thn, ListDecls(els) + n);
      if !ListErr(ft, frames, thn) {
        BlockErrIff(ft, fs, FramesAfterBlock(frames, thn), AfterBlock(true, v, thn), els, n);
      }
    case Loop(count, body) =>
      if count.Some? {
        ExprErrIff(ft, fs, frames, v, count.value);
      }
      BlockErrIff(ft, fs, frames, v, body, n);
    case Return(e) => ExprErrIff(ft, fs, frames, v, e);
    case _ =>
  }

  lemma {:induction false} ListErrIff(ft: Funcs, fs: Arities, frames: Frames, v: Sight, body: List<Stmt>, n: nat)
    requires SameArity(ft, fs) && InSight(frames, v) && Room(frames, ListDecls(body) + n)
    ensures ListErr(ft, frames, body) == !ListNamed(true, fs, v, body)
    ensures !ListErr(ft, frames, body) ==>
              InSight(FramesAfterList(frames, body), AfterList(true, v, body)) && Room(FramesAfterList(frames, body), n)
    decreases body, 0
  {
    hide InSight, SameArity, Visible, StmtErr, StmtNamed, FramesAfter, AfterStmt;
    match body
    case Nil =>
    case Cons(s, rest) =>
      StmtErrIff(ft, fs, frames, v, s, ListDecls(rest) + n);
      if !StmtErr(ft, frames, s) {
        ListErrIff(ft, fs, FramesAfter(frames, s), AfterStmt(true, v, s), rest, n);
      }
  }

  lemma {:induction false} BlockErrIff(ft: Funcs, fs: Arities, frames: Frames, v: Sight, body: List<Stmt>, n: nat)
    requires SameArity(ft, fs) && InSight(frames, v) && Room(frames, ListDecls(body) + n)
    ensures ListErr(ft, frames, body) == !ListNamed(true, fs, v, body)
    ensures !ListErr(ft, frames, body) ==>
              InSight(FramesAfterBlock(frames, body), AfterBlock(true, v, body))
              && Room(FramesAfterBlock(frames, body), n)
    decreases body, 1
  {
    hide SameArity, ListErr, ListNamed, FramesAfterList, AfterList, Shows;
    ListErrIff(ft, fs, frames, v, body, n);
    if !ListErr(ft, frames, body) {
      ListKind(v, body);
      Restored(FramesAfterList(frames, body), AfterList(true, v, body), frames, v);
    }
  }

  lemma Restored(after: Frames, w: Sight, frames: Frames, v: Sight)
    requires InSight(after, w) && InSight(frames, v) && w.own.Some? == v.own.Some?
    ensures InSight(TopFrame(after, Last(after).(locals := Last(frames).locals)),
                    if v.own.Some? then w.(own := v.own) else w.(glob := v.glob))
  {
  }

  /** In a function or not: that stays so. */
  lemma {:induction false} StmtKind(v: Sight, s: Stmt)
    ensures AfterStmt(true, v, s).own.Some? == v.own.Some?
    decreases s, 0
  {
    match s
    case Block(body) => BlockKind(v, body);
    case If(_, thn, els) =>
      BlockKind(v, thn);
      BlockKind(AfterBlock(true, v, thn), els);
    case Loop(_, body) => BlockKind(v, body);
    case _ =>
  }

  lemma {:induction false} ListKind(v: Sight, body: List<Stmt>)
    ensures AfterList(true, v, body).own.Some? == v.own.Some?
    decreases body, 0
  {
    hide AfterStmt;
    match body
    case Nil =>
    case Cons(s, rest) =>
      StmtKind(v, s);
      ListKind(AfterStmt(true, v, s), rest);
  }

  lemma BlockKind(v: Sight, body: List<Stmt>)
    ensures AfterBlock(true, v, body).own.Some? == v.own.Some?
    decreases body, 1
  {
    ListKind(v, body);
  }

  // ----- whole programs -----

  lemma AddedShows(f: CFrame, names: Names, x: string)
    requires Shows(f, names) && x !in names && f.used < NO_SLOT
    ensures Shows(AddParam(f, x, f.used), names[x := true]) && AddParam(f, x, f.used).used == f.used + 1
  {
  }

  lemma {:induction false} ParamsShow(params: seq<string>)
    requires |params| < NO_SLOT && Distinct(params)
    ensures Shows(ParamFrame(params), ParamNames(params)) && ParamFrame(params).used == |params|
    decreases |params|
  {
    if params != [] {
      hide Distinct, Shows, AddParam;
      var front, last := Front(params), Last(params);
      assert params == front + [last];
      DistinctFront(params);
      ParamsShow(front);
      AddedShows(ParamFrame(front), ParamNames(front), last);
      assert ParamNames(params) == ParamNames(front)[last := true];
    }
  }

  lemma DistinctFront(params: seq<string>)
    requires params != [] && Distinct(params)
    ensures Distinct(Front(params)) && Last(params) !in Front(params)
  {
    assert forall i :: 0 <= i < |params| - 1 ==> params[i] != params[|params| - 1];
  }

  ghost predicate Agrees(u: Programs.Scope, k: Known) {
    Shows(u.glob, k.glob) && SameArity(u.ft, k.fs)
  }

  lemma ItemErrIff(u: Programs.Scope, k: Known, item: Item, n: nat, m: nat)
    requires Agrees(u, k)
    requires match item
             case Def(_, params, body) => |params| + ListDecls(body) < NO_SLOT && u.glob.used + m < NO_SLOT
             case Do(s) => u.glob.used + Decls(s) + m < NO_SLOT
    ensures ItemErr(u, item, n) == !ItemNamed(true, k, item)
    ensures !ItemErr(u, item, n) ==>
              Agrees(AfterItem(u, item, n), AfterNamed(true, k, item)) && AfterItem(u, item, n).glob.used + m < NO_SLOT
  {
    match item
    case Def(f, params, body) => DefErrIff(u, k, f, params, body, n, m);
    case Do(s) => DoErrIff(u, k, s, n, m);
  }

  lemma DoErrIff(u: Programs.Scope, k: Known, s: Stmt, n: nat, m: nat)
    requires Agrees(u, k) && u.glob.used + Decls(s) + m < NO_SLOT
    ensures ItemErr(u, Do(s), n) == !ItemNamed(true, k, Do(s))
    ensures !ItemErr(u, Do(s), n) ==>
              Agrees(AfterItem(u, Do(s), n), AfterNamed(true, k, Do(s)))
                  && AfterItem(u, Do(s), n).glob.used + m < NO_SLOT
  {
    hide SameArity, Shows, StmtErr, StmtNamed, FramesAfter, AfterStmt, HeldAfter;
    var v := Sight(k.glob, None);
    StmtErrIff(u.ft, k.fs, [u.glob], v, s, m);
    StmtKind(v, s);
  }

  lemma DefErrIff(u: Programs.Scope, k: Known, f: string, params: seq<string>, body: List<Stmt>, n: nat, m: nat)
    requires Agrees(u, k) && |params| + ListDecls(body) < NO_SLOT && u.glob.used + m < NO_SLOT
    ensures var item := Def(f, params, body);
            && ItemErr(u, item, n) == !ItemNamed(true, k, item)
            && (!ItemErr(u, item, n) ==>
                  && Agrees(AfterItem(u, item, n), AfterNamed(true, k, item))
                  && AfterItem(u, item, n).glob.used + m < NO_SLOT)
  {
    hide ListErr, ListNamed, FramesAfterList, AfterList, HeldAfterList, Distinct, ParamFrame, ParamNames;
    assert (exists i :: 0 <= i < |params| && params[i] in u.glob.locals)
           == !(forall x :: x in params ==> x !in k.glob) by {
      Clashes(params, u.glob, k.glob);
    }
    if f !in k.fs && Distinct(params) {
      var ft, fs := Declare(u.ft, f, params, n + 1), k.fs[f := |params| % 256];
      var frames, v := [u.glob, ParamFrame(params)], Sight(k.glob, Some(ParamNames(params)));
      ParamsShow(params);
      ListErrIff(ft, fs, frames, v, body, 0);
      ListKind(v, body);
      UsedStays(u.glob, ParamFrame(params), body);
    }
  }

  lemma Clashes(params: seq<string>, g: CFrame, names: Names)
    requires Shows(g, names)
    ensures (exists i :: 0 <= i < |params| && params[i] in g.locals) == !(forall x :: x in params ==> x !in names)
  {
    if i :| 0 <= i < |params| && params[i] in g.locals {
      assert params[i] in params;
    }
    if x :| x in params && x in names {
      var i :| 0 <= i < |params| && params[i] == x;
    }
  }

  /** A function takes no slots of the global frame. */
  lemma {:induction false} UsedStays(g: CFrame, f: CFrame, body: List<Stmt>)
    ensures |FramesAfterList([g, f], body)| == 2 && FramesAfterList([g, f], body)[0].used == g.used
    decreases body, 0
  {
    hide FramesAfter;
    match body
    case Nil =>
    case Cons(s, rest) =>
      UsedStaysStmt(g, f, s);
      var frames := FramesAfter([g, f], s);
      assert frames == [frames[0], frames[1]];
      UsedStays(frames[0], frames[1], rest);
  }

  lemma {:induction false} UsedStaysStmt(g: CFrame, f: CFrame, s: Stmt)
    ensures |FramesAfter([g, f], s)| == 2 && FramesAfter([g, f], s)[0].used == g.used
    decreases s, 0
  {
    hide FindVar, FramesAfterBlock;
    match s
    case Block(body) => UsedStaysBlock(g, f, body);
    case If(_, thn, els) =>
      UsedStaysBlock(g, f, thn);
      var frames := FramesAfterBlock([g, f], thn);
      assert frames == [frames[0], frames[1]];
      UsedStaysBlock(frames[0], frames[1], els);
    case Loop(_, body) => UsedStaysBlock(g, f, body);
    case _ =>
  }

  lemma {:induction false} UsedStaysBlock(g: CFrame, f: CFrame, body: List<Stmt>)
    ensures |FramesAfterBlock([g, f], body)| == 2 && FramesAfterBlock([g, f], body)[0].used == g.used
    decreases body, 1
  {
    hide FramesAfterList;
    UsedStays(g, f, body);
  }

  lemma {:induction false} SmallBound(items: List<Item>, n: nat)
    requires Small(items, n)
    ensures n < NO_SLOT
    decreases items
  {
    match items
    case Nil =>
    case Cons(item, rest) => SmallBound(rest, if item.Do? then n + Decls(item.s) else n);
  }

  lemma {:induction false} ItemsErrIff(u: Programs.Scope, k: Known, items: List<Item>, n: nat, b: nat)
    requires Agrees(u, k) && Small(items, b) && u.glob.used <= b
    ensures ItemsErr(u, items, n) == !ItemsNamed(true, k, items)
    decreases items
  {
    hide ItemErr, ItemNamed, AfterItem, AfterNamed, Agrees, ItemCode, Decls, ListDecls;
    match items
    case Nil =>
    case Cons(item, rest) =>
      var b1 := if item.Do? then b + Decls(item.s) else b;
      SmallBound(rest, b1);
      ItemErrIff(u, k, item, n, NO_SLOT - 1 - b1);
      if !ItemErr(u, item, n) {
        var u1 := AfterItem(u, item, n);
        ItemsErrIff(u1, AfterNamed(true, k, item), rest, n + |ItemCode(u, item, n)|, b1);
      }
  }

  /** A fresh generator accepts a program exactly when it keeps the rules, with the names that assignments in
      functions leave behind. */
  lemma AcceptedIff(items: List<Item>)
    requires Small(items, 0)
    ensures ItemsErr(FRESH, items, 0) == !ItemsNamed(true, NOTHING, items)
  {
    ItemsErrIff(FRESH, NOTHING, items, 0, 0);
  }

  // ----- programs whose functions reassign nothing -----

  predicate StmtQuiet(v: Sight, s: Stmt)
    decreases s, 0
  {
    match s
    case Set(x, _, _) => v.own.None? || Visible(v, x) != Some(true)
    case Block(body) => ListQuiet(v, body)
    case If(_, thn, els) => ListQuiet(v, thn) && ListQuiet(AfterBlock(false, v, thn), els)
    case Loop(_, body) => ListQuiet(v, body)
    case _ => true
  }

  predicate ListQuiet(v: Sight, body: List<Stmt>)
    decreases body, 0
  {
    match body
    case Nil => true
    case Cons(s, rest) => StmtQuiet(v, s) && ListQuiet(AfterStmt(false, v, s), rest)
  }

  predicate ItemQuiet(k: Known, item: Item) {
    match item
    case Def(_, params, body) => ListQuiet(Sight(k.glob, Some(ParamNames(params))), body)
    case Do(_) => true
  }

  /** No function assigns to a name in sight that may be reassigned. */
  predicate ItemsQuiet(k: Known, items: List<Item>)
    decreases items
  {
    match items
    case Nil => true
    case Cons(item, rest) => ItemQuiet(k, item) && ItemsQuiet(AfterNamed(false, k, item), rest)
  }

  lemma {:induction false} QuietStmt(fs: Arities, v: Sight, s: Stmt)
    requires StmtQuiet(v, s)
    ensures AfterStmt(true, v, s) == AfterStmt(false, v, s) && StmtNamed(true, fs, v, s) == StmtNamed(false, fs, v, s)
    decreases s, 0
  {
    hide ListQuiet, ListNamed, AfterBlock;
    match s
    case Block(body) => QuietBlock(fs, v, body);
    case If(_, thn, els) =>
      QuietBlock(fs, v, thn);
      QuietBlock(fs, AfterBlock(false, v, thn), els);
    case Loop(_, body) => QuietBlock(fs, v, body);
    case _ =>
  }

  lemma {:induction false} QuietList(fs: Arities, v: Sight, body: List<Stmt>)
    requires ListQuiet(v, body)
    ensures AfterList(true, v, body) == AfterList(false, v, body)
    ensures ListNamed(true, fs, v, body) == ListNamed(false, fs, v, body)
    decreases body, 0
  {
    hide StmtQuiet, StmtNamed, AfterStmt;
    match body
    case Nil =>
    case Cons(s, rest) =>
      QuietStmt(fs, v, s);
      QuietList(fs, AfterStmt(false, v, s), rest);
  }

  lemma {:induction false} QuietBlock(fs: Arities, v: Sight, body: List<Stmt>)
    requires ListQuiet(v, body)
    ensures AfterBlock(true, v, body) == AfterBlock(false, v, body)
    ensures ListNamed(true, fs, v, body) == ListNamed(false, fs, v, body)
    decreases body, 1
  {
    hide ListQuiet, ListNamed, AfterList;
    QuietList(fs, v, body);
  }

  /** At the top level an assignment leaves no name behind. */
  lemma {:induction false} TopQuiet(v: Sight, s: Stmt)
    requires v.own.None?
    ensures StmtQuiet(v, s) && AfterStmt(false, v, s).own.None?
    decreases s, 0
  {
    match s
    case Block(body) => TopQuietList(v, body);
    case If(_, thn, els) =>
      TopQuietList(v, thn);
      TopQuietList(AfterBlock(false, v, thn), els);
    case Loop(_, body) => TopQuietList(v, body);
    case _ =>
  }

  lemma {:induction false} TopQuietList(v: Sight, body: List<Stmt>)
    requires v.own.None?
    ensures ListQuiet(v, body) && AfterList(false, v, body).own.None?
    decreases body, 0
  {
    match body
    case Nil =>
    case Cons(s, rest) =>
      TopQuiet(v, s);
      TopQuietList(AfterStmt(false, v, s), rest);
  }

  lemma QuietItem(k: Known, item: Item)
    requires ItemQuiet(k, item)
    ensures ItemNamed(true, k, item) == ItemNamed(false, k, item)
    ensures AfterNamed(true, k, item) == AfterNamed(false, k, item)
  {
    hide ListQuiet, ListNamed, AfterList, StmtQuiet, StmtNamed, AfterStmt, Distinct, ParamNames;
    match item
    case Def(f, params, body) =>
      QuietList(k.fs[f := |params| % 256], Sight(k.glob, Some(ParamNames(params))), body);
    case Do(s) =>
      TopQuiet(Sight(k.glob, None), s);
      QuietStmt(k.fs, Sight(k.glob, None), s);
  }

  lemma {:induction false} QuietItems(k: Known, items: List<Item>)
    requires ItemsQuiet(k, items)
    ensures ItemsNamed(true, k, items) == ItemsNamed(false, k, items)
    decreases items
  {
    hide ItemQuiet, ItemNamed, AfterNamed;
    match items
    case Nil =>
    case Cons(item, rest) =>
      QuietItem(k, item);
      QuietItems(AfterNamed(false, k, item), rest);
  }

  /** Where no function reassigns anything, a program is accepted exactly when it keeps the plain rules: every
      name is in sight, every call fits its declaration, and nothing immutable is reassigned. */
  lemma QuietAcceptedIff(items: List<Item>)
    requires Small(items, 0) && ItemsQuiet(NOTHING, items)
    ensures ItemsErr(FRESH, items, 0) == !ItemsNamed(false, NOTHING, items)
  {
    AcceptedIff(items);
    QuietItems(NOTHING, items);
  }

  // ----- programs -----

  function Numbers(vs: seq<I64>): List<Expr> {
    if vs == [] then Nil else Cons(Num(vs[0]), Numbers(vs[1..]))
  }

  lemma {:induction false} NumbersNamed(fs: Arities, v: Sight, vs: seq<I64>)
    ensures Length(Numbers(vs)) == |vs| && ArgsNamed(fs, v, Numbers(vs))
    decreases |vs|
  {
    if vs != [] {
      NumbersNamed(fs, v, vs[1..]);
    }
  }

  ghost predicate FewNames(item: Item) {
    match item
    case Def(_, params, body) => |params| + ListDecls(body) < NO_SLOT
    case Do(s) => Decls(s) < NO_SLOT
  }

  /** The second item is read with what is known after the first. */
  lemma TwoItems(ghosts: bool, first: Item, second: Item)
    requires first.Def? && FewNames(first) && FewNames(second)
    ensures var items, k := Cons(first, Cons(second, Nil)), AfterNamed(ghosts, NOTHING, first);
            && ItemsNamed(ghosts, NOTHING, items) == (ItemNamed(ghosts, NOTHING, first) && ItemNamed(ghosts, k, second))
            && (ghosts ==> ItemsErr(FRESH, items, 0) == !ItemsNamed(true, NOTHING, items))
  {
    hide ItemNamed, AfterNamed, ItemsErr, Decls, ListDecls;
    var k, items, rest := AfterNamed(ghosts, NOTHING, first), Cons(first, Cons(second, Nil)), Cons(second, Nil);
    assert ItemsNamed(ghosts, k, rest) == ItemNamed(ghosts, k, second);
    if ghosts {
      assert Small(rest, 0);
      AcceptedIff(items);
    }
  }

  lemma JustReturns(ghosts: bool, fs: Arities, v: Sight, a: string)
    ensures var body := Cons(Return(Var(a)), Nil);
            && ListDecls(body) == 0 && AfterList(ghosts, v, body) == v
            && (ListNamed(ghosts, fs, v, body) <==> Visible(v, a).Some?)
  {
    var s, rest: List<Stmt> := Return(Var(a)), Nil;
    assert Decls(s) == 0 && ListDecls(rest) == 0;
    assert AfterStmt(ghosts, v, s) == v && AfterList(ghosts, v, rest) == v;
    assert StmtNamed(ghosts, fs, v, s) == ExprNamed(fs, v, Var(a)) && ListNamed(ghosts, fs, v, rest);
  }

  /** The body of a function that reassigns its parameter `b` and returns the parameter `a`. */
  lemma SetsAndReturns(ghosts: bool, fs: Arities, params: seq<string>, b: string, a: string, w: I64, m: bool)
    requires b in params && a in params
    ensures var body, v := Cons(Set(b, Num(w), m), Cons(Return(Var(a)), Nil)), Sight(map[], Some(ParamNames(params)));
            && ListDecls(body) == 1 && ListNamed(ghosts, fs, v, body)
            && AfterList(ghosts, v, body) == if ghosts then v.(glob := map[b := false]) else v
  {
    var s, v := Set(b, Num(w), m), Sight(map[], Some(ParamNames(params)));
    var v1 := if ghosts then v.(glob := map[b := false]) else v;
    assert Decls(s) == 1;
    assert Visible(v, b) == Some(true);
    assert AfterStmt(ghosts, v, s) == v1;
    assert StmtNamed(ghosts, fs, v, s);
    JustReturns(ghosts, fs, v1, a);
  }

  /** `func f(a) { return a }  x = f(1, 2)` is refused, as is every call of `f` that has not one argument. */
  lemma OneParameter(f: string, a: string, x: string, mut: bool, vs: seq<I64>)
    ensures var items := Cons(Def(f, [a], Cons(Return(Var(a)), Nil)), Cons(Do(Set(x, Call(f, Numbers(vs)), mut)), Nil));
            ItemsErr(FRESH, items, 0) <==> |vs| != 1
  {
    hide ItemsErr, Numbers, ItemErr;
    var body := Cons(Return(Var(a)), Nil);
    var def, call := Def(f, [a], body), Do(Set(x, Call(f, Numbers(vs)), mut));
    var fs := map[f := 1];
    JustReturns(true, fs, Sight(map[], Some(ParamNames([a]))), a);
    NumbersNamed(fs, Sight(map[], None), vs);
    TwoItems(true, def, call);
  }

  /** A function of any number of parameters: calls are held against the lowest byte of that number. With 256
      parameters it can be called with no argument only. */
  lemma ArityByte(f: string, params: seq<string>, x: string, mut: bool, w: I64, vs: seq<I64>)
    requires Distinct(params) && |params| < NO_SLOT
    ensures var body, call := Cons(Return(Num(w)), Nil), Set(x, Call(f, Numbers(vs)), mut);
            ItemsErr(FRESH, Cons(Def(f, params, body), Cons(Do(call), Nil)), 0) <==> |vs| != |params| % 256
  {
    hide ItemsErr, Numbers, ItemErr, Distinct, ParamNames;
    var body := Cons(Return(Num(w)), Nil);
    var def, call := Def(f, params, body), Do(Set(x, Call(f, Numbers(vs)), mut));
    var fs, v := map[f := |params| % 256], Sight(map[], Some(ParamNames(params)));
    assert ListDecls(body) == 0 && ListNamed(true, fs, v, body) && AfterList(true, v, body) == v by {
      assert Decls(body.head) == 0 && StmtNamed(true, fs, v, body.head) && AfterStmt(true, v, body.head) == v;
    }
    NumbersNamed(fs, Sight(map[], None), vs);
    TwoItems(true, def, call);
  }

  /** `func p(a, b) { b = 1  return a }  r = b` is accepted: the assignment leaves `b` among the global names. */
  lemma GhostAccepted(p: string, a: string, b: string, r: string, w: I64, m1: bool, m2: bool)
    requires a != b && r != b
    ensures var body := Cons(Set(b, Num(w), m1), Cons(Return(Var(a)), Nil));
            var items := Cons(Def(p, [a, b], body), Cons(Do(Set(r, Var(b), m2)), Nil));
            !ItemsErr(FRESH, items, 0) && !ItemsNamed(false, NOTHING, items)
  {
    hide ItemsErr, ItemErr;
    var body, use := Cons(Set(b, Num(w), m1), Cons(Return(Var(a)), Nil)), Do(Set(r, Var(b), m2));
    var def := Def(p, [a, b], body);
    var fs := map[p := 2];
    SetsAndReturns(true, fs, [a, b], b, a, w, m1);
    SetsAndReturns(false, fs, [a, b], b, a, w, m1);
    TwoItems(true, def, use);
    TwoItems(false, def, use);
  }

  /** `func p(b) { b = 1  return b }  func q(b) { return b }` is refused: the parameter of `q` is now a global name. */
  lemma GhostRefused(p: string, q: string, b: string, w: I64, m: bool)
    requires p != q
    ensures var first := Def(p, [b], Cons(Set(b, Num(w), m), Cons(Return(Var(b)), Nil)));
            var items := Cons(first, Cons(Def(q, [b], Cons(Return(Var(b)), Nil)), Nil));
            ItemsErr(FRESH, items, 0) && ItemsNamed(false, NOTHING, items)
  {
    hide ItemsErr, ItemErr;
    var body, back := Cons(Set(b, Num(w), m), Cons(Return(Var(b)), Nil)), Cons(Return(Var(b)), Nil);
    var first, second := Def(p, [b], body), Def(q, [b], back);
    var fs := map[p := 1];
    SetsAndReturns(true, fs, [b], b, b, w, m);
    SetsAndReturns(false, fs, [b], b, b, w, m);
    JustReturns(false, fs[q := 1], Sight(map[], Some(ParamNames([b]))), b);
    JustReturns(true, fs[q := 1], Sight(map[b := false], Some(ParamNames([b]))), b);
    TwoItems(true, first, second);
    TwoItems(false, first, second);
  }
}
