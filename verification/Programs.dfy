/** Whole programs: what compiling a list of declarations and statements produces, and the main
    theorem about running it. */
module Programs {
  import opened Words
  import opened Machine
  import opened Source
  import opened Reference
  import opened Safety
  import opened Simulation
  import opened Closed

  /** What the generator carries from one top-level item to the next. */
  datatype Scope = Scope(fold: bool, held: Held, glob: CFrame, ft: Funcs)

  /** Before the first item, with or without folding. */
  function Begin(fold: bool): Scope {
    Scope(fold, {0}, CFrame(map[], 0), map[])
  }

  const FRESH: Scope := Begin(true)

  function Declare(ft: Funcs, f: string, params: seq<string>, n: nat): Funcs {
    if f in ft then ft else ft[f := FEntry(|params| % 256, n)]
  }

  /** The function as compiled by a declaration whose FUNC_CREATE is at `n`. */
  function FnAt(u: Scope, f: string, params: seq<string>, body: List<Stmt>, n: nat): FnInfo {
    FnInfo(u.fold, FnDef(params, body), n + 1, u.held, u.glob, Declare(u.ft, f, params, n + 1))
  }

  /** The closing FRET is left out when the body already ends in one. */
  function ClosingRet(body: seq<Op>): seq<Op> {
    if body != [] && Last(body) == FRet then [] else [FRet]
  }

  function DefCode(i: FnInfo): seq<Op> {
    [FuncCreate] + (ParamCode(|i.def.params|) + FnBody(i)) + ClosingRet(FnBody(i)) + [FuncEnd]
  }

  function ItemCode(u: Scope, item: Item, n: nat): seq<Op> {
    match item
    case Def(f, params, body) => DefCode(FnAt(u, f, params, body, n))
    case Do(s) => StmtCode(u.fold, u.ft, [u.glob], u.held, s, n, 0, 0)
  }

  lemma DefShape(u: Scope, f: string, params: seq<string>, body: List<Stmt>, n: nat)
    ensures var code := FnBody(FnAt(u, f, params, body, n));
            ItemCode(u, Def(f, params, body), n) == [FuncCreate] + (ParamCode(|params|) + code) + ClosingRet(code)
                + [FuncEnd]
  {
    hide FnBody, ClosingRet;
  }

  function AfterItem(u: Scope, item: Item, n: nat): Scope {
    match item
    case Def(f, params, body) =>
      Scope(u.fold, HeldAfterList(u.held, body), FramesAfterList([u.glob, ParamFrame(params)], body)[0],
            Declare(u.ft, f, params, n + 1))
    case Do(s) => Scope(u.fold, HeldAfter(u.held, s), FramesAfter([u.glob], s)[0], u.ft)
  }

  function ItemsCode(u: Scope, items: List<Item>, n: nat): seq<Op>
    decreases items
  {
    match items
    case Nil => []
    case Cons(item, rest) =>
      ItemCode(u, item, n) + ItemsCode(AfterItem(u, item, n), rest, n + |ItemCode(u, item, n)|)
  }

  function AfterItems(u: Scope, items: List<Item>, n: nat): Scope
    decreases items
  {
    match items
    case Nil => u
    case Cons(item, rest) => AfterItems(AfterItem(u, item, n), rest, n + |ItemCode(u, item, n)|)
  }

  function CompileBy(fold: bool, items: List<Item>): seq<Op> {
    ItemsCode(Begin(fold), items, 0) + [Halt]
  }

  /** The instructions of a program, as `gen` leaves them. */
  function Compile(items: List<Item>): seq<Op> {
    CompileBy(true, items)
  }

  /** Where the top-level variables of a program live. */
  function Variables(items: List<Item>): map<string, Slot> {
    AfterItems(FRESH, items, 0).glob.locals
  }

  // ----- errors and conditions -----

  predicate ItemErr(u: Scope, item: Item, n: nat) {
    match item
    case Def(f, params, body) =>
      || (exists i :: 0 <= i < |params| && params[i] in u.glob.locals)
      || f in u.ft
      || !Distinct(params)
      || ListErr(Declare(u.ft, f, params, n + 1), [u.glob, ParamFrame(params)], body)
    case Do(s) => StmtErr(u.ft, [u.glob], s)
  }

  const TOP_LEVEL: Place := Place(64, false, false)

  predicate SafeItem(u: Scope, item: Item, n: nat) {
    && !ItemErr(u, item, n)
    && match item
       case Def(f, params, body) =>
         && |params| <= MAX_ARGS
         && ListFits(NO_REG, u.held, body)
         && ListPlaced(body, false, true)
         && SafeList(Declare(u.ft, f, params, n + 1), [u.glob, ParamFrame(params)], u.held, {},
                     Place(|params| + 1, true, false), body)
       case Do(s) =>
         && StmtFits(NO_REG, u.held, s)
         && SafeStmt(u.ft, [u.glob], u.held, {}, TOP_LEVEL, s)
  }

  predicate SafeItems(u: Scope, items: List<Item>, n: nat)
    decreases items
  {
    match items
    case Nil => true
    case Cons(item, rest) =>
      SafeItem(u, item, n) && SafeItems(AfterItem(u, item, n), rest, n + |ItemCode(u, item, n)|)
  }

  predicate SafeProgram(items: List<Item>) {
    SafeItems(FRESH, items, 0)
  }

  // ----- HALT comes only last -----

  predicate HaltFree(code: seq<Op>) {
    forall i :: 0 <= i < |code| ==> code[i] != Halt
  }

  lemma {:induction false} PlacedAnywhere(s: Stmt)
    ensures WellPlaced(s, true, true)
    decreases s, 0
  {
    match s
    case Block(body) => ListPlacedAnywhere(body);
    case If(_, thn, els) =>
      ListPlacedAnywhere(thn);
      ListPlacedAnywhere(els);
    case Loop(_, body) => ListPlacedAnywhere(body);
    case _ =>
  }

  lemma {:induction false} ListPlacedAnywhere(body: List<Stmt>)
    ensures ListPlaced(body, true, true)
    decreases body, 0
  {
    match body
    case Nil =>
    case Cons(s, rest) =>
      PlacedAnywhere(s);
      ListPlacedAnywhere(rest);
  }

  lemma InsHaltFree(ft: Funcs, code: seq<Op>, lo: nat, hi: nat, out: set<nat>)
    requires AllIn(ft, code, lo, hi, out, true)
    ensures HaltFree(code)
  {
    forall j | 0 <= j < |code|
      ensures code[j] != Halt
    {
      assert OpIn(ft, code[j], lo, hi, out, true);
    }
  }

  lemma DefHaltFree(body: seq<Op>, k: nat)
    requires HaltFree(body)
    ensures HaltFree([FuncCreate] + (ParamCode(k) + body) + ClosingRet(body) + [FuncEnd])
  {
  }

  lemma ItemHaltFree(u: Scope, item: Item, n: nat)
    requires !ItemErr(u, item, n)
    ensures HaltFree(ItemCode(u, item, n))
  {
    hide ListCode, StmtCode, ListErr, StmtErr, ListPlaced, WellPlaced, Distinct, AllIn, DefCode, HaltFree, ClosingRet;
    match item
    case Def(f, params, body) =>
      var i, lo := FnAt(u, f, params, body, n), n + 1 + |params|;
      ListPlacedAnywhere(body);
      ListClosed(u.fold, i.ft, FnFrames(i), i.held, body, lo, 0, 0, true, true);
      InsHaltFree(i.ft, FnBody(i), lo, lo + ListLen(u.fold, body), Exits(true, 0, 0));
      DefShape(u, f, params, body, n);
      DefHaltFree(FnBody(i), |params|);
    case Do(s) =>
      PlacedAnywhere(s);
      StmtClosed(u.fold, u.ft, [u.glob], u.held, s, n, 0, 0, true, true);
      InsHaltFree(u.ft, StmtCode(u.fold, u.ft, [u.glob], u.held, s, n, 0, 0), n, n + StmtLen(u.fold, s),
                  Exits(true, 0, 0));
  }

  lemma {:induction false} ItemsHaltFree(u: Scope, items: List<Item>, n: nat)
    requires SafeItems(u, items, n)
    ensures HaltFree(ItemsCode(u, items, n))
    decreases items
  {
    hide ItemCode, AfterItem, ItemErr, StmtFits, SafeStmt, ListFits, SafeList, ListPlaced;
    match items
    case Nil =>
    case Cons(item, rest) =>
      ItemHaltFree(u, item, n);
      ItemsHaltFree(AfterItem(u, item, n), rest, n + |ItemCode(u, item, n)|);
  }

  // ----- functions in place -----

  function FnsOf(u: Scope, items: List<Item>, n: nat): Fns
    decreases items
  {
    match items
    case Nil => map[]
    case Cons(item, rest) =>
      var fns := FnsOf(AfterItem(u, item, n), rest, n + |ItemCode(u, item, n)|);
      if item.Def? then fns[item.f := FnAt(u, item.f, item.params, item.body, n)] else fns
  }

  ghost predicate Within<V>(a: map<string, V>, b: map<string, V>) {
    forall x {:trigger x in a} :: x in a ==> x in b && b[x] == a[x]
  }

  /** A declared name is not declared again further on. */
  lemma {:induction false} LaterNames(u: Scope, items: List<Item>, n: nat)
    requires SafeItems(u, items, n)
    ensures FnsOf(u, items, n).Keys !! u.ft.Keys
    ensures FnsOf(u, items, n).Keys == DefsOf(items).Keys
    decreases items
  {
    hide ItemCode;
    match items
    case Nil =>
    case Cons(item, rest) =>
      LaterNames(AfterItem(u, item, n), rest, n + |ItemCode(u, item, n)|);
  }

  lemma WithinTrans<V>(a: map<string, V>, b: map<string, V>, c: map<string, V>)
    requires Within(a, b) && Within(b, c)
    ensures Within(a, c)
  {
  }

  lemma FirstItem(u: Scope, item: Item, rest: List<Item>, n: nat, fns: Fns, defs: Defs)
    requires SafeItems(u, Cons(item, rest), n)
    requires Within(FnsOf(u, Cons(item, rest), n), fns) && Within(DefsOf(Cons(item, rest)), defs)
    ensures var n1 := n + |ItemCode(u, item, n)|;
            Within(FnsOf(AfterItem(u, item, n), rest, n1), fns) && Within(DefsOf(rest), defs)
    ensures item.Def? ==> item.f in fns && fns[item.f] == FnAt(u, item.f, item.params, item.body, n)
    ensures item.Def? ==> item.f in defs && defs[item.f] == FnDef(item.params, item.body)
  {
    hide ItemCode, SafeItem, FnAt;
    var n1 := n + |ItemCode(u, item, n)|;
    LaterNames(AfterItem(u, item, n), rest, n1);
    WithinTrans(FnsOf(AfterItem(u, item, n), rest, n1), FnsOf(u, Cons(item, rest), n), fns);
    WithinTrans(DefsOf(rest), DefsOf(Cons(item, rest)), defs);
    if item.Def? {
      assert item.f in FnsOf(u, Cons(item, rest), n) && item.f in DefsOf(Cons(item, rest));
    }
  }

  lemma {:induction false} LinkItems(p: seq<Op>, defs: Defs, fns: Fns, u: Scope, items: List<Item>, n: nat)
    requires CodeAt(p, n, ItemsCode(u, items, n)) && SafeItems(u, items, n)
    requires Within(FnsOf(u, items, n), fns) && Within(DefsOf(items), defs) && Known(u.ft, fns)
    ensures forall f :: f in FnsOf(u, items, n) ==> FnOk(u.fold, NO_REG, p, defs, fns, f)
    decreases items
  {
    hide FnOk, Known, DefCode, ItemCode, SafeItem, Within;
    match items
    case Nil =>
    case Cons(item, rest) =>
      var u1, n1 := AfterItem(u, item, n), n + |ItemCode(u, item, n)|;
      CodeAtSplit(p, n, ItemCode(u, item, n), ItemsCode(u1, rest, n1));
      FirstItem(u, item, rest, n, fns, defs);
      if item.Def? {
        LinkDef(p, defs, fns, u, item.f, item.params, item.body, n);
      }
      LinkItems(p, defs, fns, u1, rest, n1);
  }

  lemma LinkDef(p: seq<Op>, defs: Defs, fns: Fns, u: Scope, f: string, params: seq<string>, body: List<Stmt>, n: nat)
    requires CodeAt(p, n, ItemCode(u, Def(f, params, body), n)) && SafeItem(u, Def(f, params, body), n)
    requires f in fns && fns[f] == FnAt(u, f, params, body, n) && f in defs && defs[f] == FnDef(params, body)
    requires Known(u.ft, fns)
    ensures FnOk(u.fold, NO_REG, p, defs, fns, f)
    ensures Known(Declare(u.ft, f, params, n + 1), fns)
  {
    hide FnBody, ListFits, SafeList;
    var i := FnAt(u, f, params, body, n);
    var code := ParamCode(|params|) + FnBody(i);
    CodeAtSplit(p, n, [FuncCreate] + code + ClosingRet(FnBody(i)), [FuncEnd]);
    CodeAtSplit(p, n, [FuncCreate] + code, ClosingRet(FnBody(i)));
    CodeAtSplit(p, n, [FuncCreate], code);
    KnownAfterDef(fns, u, f, params, body, n);
  }

  // ----- running -----

  predicate NoEnd(code: seq<Op>) {
    forall i :: 0 <= i < |code| ==> code[i] != FuncEnd
  }

  lemma DefNoEnd(u: Scope, f: string, params: seq<string>, body: List<Stmt>, n: nat)
    requires SafeItem(u, Def(f, params, body), n)
    ensures var i := FnAt(u, f, params, body, n);
            NoEnd([FuncCreate] + (ParamCode(|params|) + FnBody(i)) + ClosingRet(FnBody(i)))
  {
    hide ListCode, ListErr, ListPlaced, SafeList, ListFits;
    var i := FnAt(u, f, params, body, n);
    ListClosed(u.fold, i.ft, FnFrames(i), i.held, body, i.addr + |params|, 0, 0, false, true);
    var code := FnBody(i);
    forall j | 0 <= j < |code|
      ensures code[j] != FuncEnd
    {
      assert OpIn(i.ft, code[j], i.addr + |params|, i.addr + |params| + ListLen(u.fold, body), {}, true);
    }
  }

  lemma SkipsTo(p: seq<Op>, n: nat, code: seq<Op>)
    requires CodeAt(p, n, code + [FuncEnd]) && NoEnd(code)
    ensures SkipToEnd(p, n) == n + |code|
  {
    CodeAtSplit(p, n, code, [FuncEnd]);
    CodeAtOp(p, n + |code|, [FuncEnd], 0);
    var e := SkipToEnd(p, n);
    if e < n + |code| {
      CodeAtOp(p, n, code, e - n);
    }
  }

  /** FUNC_CREATE jumps over the declaration it opens. */
  lemma SkipDef(p: seq<Op>, u: Scope, f: string, params: seq<string>, body: List<Stmt>, s: State)
    requires CodeAt(p, s.pc, DefCode(FnAt(u, f, params, body, s.pc))) && SafeItem(u, Def(f, params, body), s.pc)
    ensures Reaches(p, s, s.(pc := s.pc + |DefCode(FnAt(u, f, params, body, s.pc))|))
  {
    hide FnBody, SafeItem, FnAt, ClosingRet;
    var i := FnAt(u, f, params, body, s.pc);
    assert i.def.params == params by { DefParams(u, f, params, body, s.pc); }
    var code := [FuncCreate] + (ParamCode(|params|) + FnBody(i)) + ClosingRet(FnBody(i));
    DefNoEnd(u, f, params, body, s.pc);
    SkipsTo(p, s.pc, code);
    CodeAtOp(p, s.pc, code + [FuncEnd], 0);
    assert (code + [FuncEnd])[0] == FuncCreate;
    ReachStep(p, s);
  }

  lemma DefParams(u: Scope, f: string, params: seq<string>, body: List<Stmt>, n: nat)
    ensures FnAt(u, f, params, body, n).def.params == params
  {
  }

  /** The machine between two top-level items. */
  ghost predicate AtTop(u: Scope, env: Env, s: State) {
    Here([u.glob], TOP_LEVEL, env, s) && s.rets == [] && |s.frames| == 1
  }

  lemma {:induction false} SimItems(m: Image, u: Scope, items: List<Item>, fuel: nat, env: Env, s: State)
    returns (t: State)
    requires u.fold == m.fold && m.lim == NO_REG && Known(u.ft, m.fns) && Within(FnsOf(u, items, s.pc), m.fns)
             && Within(DefsOf(items), m.defs)
    requires CodeAt(m.ops, s.pc, ItemsCode(u, items, s.pc)) && SafeItems(u, items, s.pc)
    requires AtTop(u, env, s)
    requires ExecItems(m.defs, fuel, env, items).Some?
    ensures Reaches(m.ops, s, t) && t.pc == s.pc + |ItemsCode(u, items, s.pc)|
    ensures AtTop(AfterItems(u, items, s.pc), ExecItems(m.defs, fuel, env, items).value, t)
    decreases items
  {
    hide Known, AtTop, ItemCode, SafeItem, Within, FnsOf, DefsOf, Exec, Step, Reaches;
    match items
    case Nil =>
      ReachRefl(m.ops, s);
      t := s;
    case Cons(item, rest) =>
      var u1, n1 := AfterItem(u, item, s.pc), s.pc + |ItemCode(u, item, s.pc)|;
      CodeAtSplit(m.ops, s.pc, ItemCode(u, item, s.pc), ItemsCode(u1, rest, n1));
      FirstItem(u, item, rest, s.pc, m.fns, m.defs);
      var w;
      if item.Def? {
        w := SimDef(m, u, item.f, item.params, item.body, env, s);
        t := SimItems(m, u1, rest, fuel, env, w);
      } else {
        w := SimDo(m, u, item.s, fuel, env, s);
        t := SimItems(m, u1, rest, fuel, Exec(m.defs, fuel, env, item.s).value.env, w);
      }
      ReachTrans(m.ops, s, w, t);
  }

  lemma KnownAfterDef(fns: Fns, u: Scope, f: string, params: seq<string>, body: List<Stmt>, n: nat)
    requires Known(u.ft, fns) && f in fns && fns[f] == FnAt(u, f, params, body, n) && |params| <= MAX_ARGS
    requires f !in u.ft
    ensures Known(Declare(u.ft, f, params, n + 1), fns)
  {
    var ft := Declare(u.ft, f, params, n + 1);
    forall g | g in ft
      ensures Entered(ft, fns, g)
    {
      if g != f {
        assert Entered(u.ft, fns, g);
      }
    }
  }

  /** A safe function body leaves the names of the global frame alone. */
  lemma BodyKeepsGlobals(u: Scope, f: string, params: seq<string>, body: List<Stmt>, n: nat)
    requires SafeItem(u, Def(f, params, body), n)
    ensures AfterItem(u, Def(f, params, body), n).glob == u.glob
  {
    hide SafeList, ListErr, ListFits, ListPlaced;
    ParamsMatch(params, seq(|params|, i => B(true)), seq(|params|, i => 1));
    ListGrows(Declare(u.ft, f, params, n + 1), [u.glob, ParamFrame(params)], u.held, {},
              Place(|params| + 1, true, false), body);
    var after := FramesAfterList([u.glob, ParamFrame(params)], body);
    assert Front(after) == [u.glob];
    assert after[0] == Front(after)[0];
  }

  lemma SimDef(m: Image, u: Scope, f: string, params: seq<string>, body: List<Stmt>, env: Env, s: State)
    returns (t: State)
    requires Known(u.ft, m.fns) && f in m.fns && m.fns[f] == FnAt(u, f, params, body, s.pc)
    requires CodeAt(m.ops, s.pc, ItemCode(u, Def(f, params, body), s.pc)) && SafeItem(u, Def(f, params, body), s.pc)
    requires AtTop(u, env, s)
    ensures Reaches(m.ops, s, t) && t.pc == s.pc + |ItemCode(u, Def(f, params, body), s.pc)|
    ensures AtTop(AfterItem(u, Def(f, params, body), s.pc), env, t)
    ensures Known(AfterItem(u, Def(f, params, body), s.pc).ft, m.fns)
  {
    hide DefCode, SkipToEnd, FnBody, Step, Reaches;
    SkipDef(m.ops, u, f, params, body, s);
    t := s.(pc := s.pc + |DefCode(FnAt(u, f, params, body, s.pc))|);
    KnownAfterDef(m.fns, u, f, params, body, s.pc);
    BodyKeepsGlobals(u, f, params, body, s.pc);
  }

  lemma SimDo(m: Image, u: Scope, st: Stmt, fuel: nat, env: Env, s: State)
    returns (t: State)
    requires Known(u.ft, m.fns) && u.fold == m.fold && m.lim == NO_REG
    requires CodeAt(m.ops, s.pc, ItemCode(u, Do(st), s.pc)) && SafeItem(u, Do(st), s.pc)
    requires AtTop(u, env, s)
    requires Exec(m.defs, fuel, env, st).Some? && Exec(m.defs, fuel, env, st).value.Normal?
    ensures Reaches(m.ops, s, t) && t.pc == s.pc + |ItemCode(u, Do(st), s.pc)|
    ensures AtTop(AfterItem(u, Do(st), s.pc), Exec(m.defs, fuel, env, st).value.env, t)
    ensures Known(AfterItem(u, Do(st), s.pc).ft, m.fns)
  {
    hide StmtCode, StmtErr, SafeStmt, StmtFits, Exec, Step, Reaches;
    var here: Image := m.(ft := u.ft);
    t := SimStmt(here, [u.glob], u.held, {}, TOP_LEVEL, st, 0, 0, fuel, env, s);
    FramesGrow(u.ft, [u.glob], u.held, {}, TOP_LEVEL, st);
    assert FramesAfter([u.glob], st) == [FramesAfter([u.glob], st)[0]];
  }

  // ----- the main theorem -----

  lemma ProgramLinked(fold: bool, items: List<Item>)
    requires SafeItems(Begin(fold), items, 0)
    ensures Linked(Program(fold, NO_REG, CompileBy(fold, items), DefsOf(items), FnsOf(Begin(fold), items, 0), map[]))
  {
    hide FnOk, ItemsCode, SafeItems;
    var p, fns := CompileBy(fold, items), FnsOf(Begin(fold), items, 0);
    var code := ItemsCode(Begin(fold), items, 0);
    assert p[0..0 + |p|] == p;
    CodeAtSplit(p, 0, code, [Halt]);
    LinkItems(p, DefsOf(items), fns, Begin(fold), items, 0);
  }

  lemma StartAtTop(fold: bool)
    ensures AtTop(Begin(fold), map[], Start()) && Start().pc == 0
  {
  }

  /** With or without folding: the compiled program ends at its HALT, in step with the interpreter. */
  lemma ProgramRuns(fold: bool, items: List<Item>, fuel: nat) returns (t: State)
    requires SafeItems(Begin(fold), items, 0)
    requires ExecItems(DefsOf(items), fuel, map[], items).Some?
    ensures Reaches(CompileBy(fold, items), Start(), t)
    ensures t.pc == |CompileBy(fold, items)| - 1 && Step(CompileBy(fold, items), t) == Halted
    ensures t.rets == [] && |t.frames| == 1
    ensures Match(AfterItems(Begin(fold), items, 0).glob.locals, ExecItems(DefsOf(items), fuel, map[], items).value,
                  t.frames[0].locals)
  {
    hide FnOk, Start, ItemsCode, SafeItems, FnsOf, DefsOf, ExecItems, AfterItems, Reaches;
    var p, u := CompileBy(fold, items), Begin(fold);
    StartAtTop(fold);
    ProgramLinked(fold, items);
    var m: Image := Program(fold, NO_REG, p, DefsOf(items), FnsOf(u, items, 0), map[]);
    assert p[0..0 + |p|] == p;
    CodeAtSplit(p, 0, ItemsCode(u, items, 0), [Halt]);
    CodeAtOp(p, |ItemsCode(u, items, 0)|, [Halt], 0);
    t := SimItems(m, u, items, fuel, map[], Start());
  }

  /** Compiler correctness. If the interpreter runs the program to its end, so does the machine on
      the compiled program: it stops at the final HALT with no call pending, and every variable in
      scope has its value in its slot of the global frame. */
  lemma CompilerCorrect(items: List<Item>, fuel: nat) returns (t: State)
    requires SafeProgram(items)
    requires ExecItems(DefsOf(items), fuel, map[], items).Some?
    ensures Reaches(Compile(items), Start(), t)
    ensures t.pc == |Compile(items)| - 1 && Step(Compile(items), t) == Halted
    ensures t.rets == [] && |t.frames| == 1
    ensures Match(Variables(items), ExecItems(DefsOf(items), fuel, map[], items).value, t.frames[0].locals)
  {
    hide CompileBy, Start, SafeItems, DefsOf, ExecItems, AfterItems, Reaches, Step, Match;
    t := ProgramRuns(true, items, fuel);
  }
}
