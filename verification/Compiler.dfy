/** The compiler as a whole: from a program to its instructions, and exactly when they are right. */
module Driver {
  import opened Words
  import opened Machine
  import opened Source
  import opened Reference
  import opened Safety
  import opened Closed
  import opened Simulation
  import opened Patching
  import opened Programs
  import opened Emission
  import opened Faithful
  import opened Unclean
  import opened Generation
  import opened Codegen
  import Naming

  // ----- items -----

  /** No loop stands where a break or continue of an outer loop is still pending. */
  predicate CleanItem(item: Item) {
    match item
    case Def(_, _, body) => ListClean(false, body)
    case Do(s) => Clean(false, s)
  }

  predicate CleanItems(items: List<Item>) {
    match items
    case Nil => true
    case Cons(item, rest) => CleanItem(item) && CleanItems(rest)
  }

  /** Every break and continue stands in a loop. */
  predicate ClosedItem(item: Item) {
    match item
    case Def(_, _, body) => !ListPends(body)
    case Do(s) => !Pends(s)
  }

  predicate ClosedItems(items: List<Item>) {
    match items
    case Nil => true
    case Cons(item, rest) => ClosedItem(item) && ClosedItems(rest)
  }

  /** An output between two items. */
  predicate Idle(u: Scope, o: Output) {
    !Pending(o) && u.held == o.held && u.fold
  }

  lemma IdleOk(o: Output)
    requires !Pending(o)
    ensures OutOk(o)
  {
  }

  lemma {:induction false} NoneLeft(ft: Funcs, frames: Frames, s: Stmt, o: Output)
    requires !Pending(o) && !Pends(s)
    ensures !Pending(OutStmt(ft, frames, s, o))
    decreases s, 1
  {
    hide OutIf, OutLoop, OutList, StmtCode;
    match s
    case Block(body) => ListNoneLeft(ft, frames, body, o);
    case If(c, thn, els) => IfNoneLeft(ft, frames, c, thn, els, o);
    case Loop(count, body) =>
      IdleOk(o);
      LoopOutGrows(ft, frames, count, body, o);
    case _ =>
  }

  lemma {:induction false} IfNoneLeft(ft: Funcs, frames: Frames, c: Expr, thn: List<Stmt>, els: List<Stmt>, o: Output)
    requires !Pending(o) && !ListPends(thn) && !ListPends(els)
    ensures !Pending(OutIf(ft, frames, c, thn, els, o))
    decreases If(c, thn, els), 0
  {
    hide OutList, Res, ExprCode, FramesAfterBlock;
    var o1 := AfterExpr(ft, frames, c, o);
    var o3 := OutList(ft, frames, thn, Branch(o1, Res(o.held, c)));
    ListNoneLeft(ft, frames, thn, Branch(o1, Res(o.held, c)));
    ListNoneLeft(ft, FramesAfterBlock(frames, thn), els, OpenElse(o3, |o1.ops| + 1));
  }

  lemma {:induction false} ListNoneLeft(ft: Funcs, frames: Frames, body: List<Stmt>, o: Output)
    requires !Pending(o) && !ListPends(body)
    ensures !Pending(OutList(ft, frames, body, o))
    decreases body, 0
  {
    hide OutStmt;
    match body
    case Nil =>
    case Cons(s, rest) =>
      NoneLeft(ft, frames, s, o);
      ListNoneLeft(ft, FramesAfter(frames, s), rest, OutStmt(ft, frames, s, o));
  }

  lemma ItemGrows(u: Scope, item: Item, o: Output)
    requires Idle(u, o) && ClosedItem(item)
    ensures Grows(|o.ops|, o, OutItem(u, item, o)) && Idle(AfterItem(u, item, |o.ops|), OutItem(u, item, o))
  {
    hide OutList, OutStmt, Grows, OutOk, Pends, ListPends, ParamFrame, ParamCode, FramesAfter, FramesAfterList,
         HeldAfter, HeldAfterList;
    IdleOk(o);
    match item
    case Def(f, params, body) =>
      var ft, frames, o1 := Declare(u.ft, f, params, |o.ops| + 1), [u.glob, ParamFrame(params)], OpenDef(|params|, o);
      var o2 := OutList(ft, frames, body, o1);
      Appended(o, o1);
      ListOutGrows(ft, frames, body, o1);
      ListNoneLeft(ft, frames, body, o1);
      Appended(o2, CloseDef(o2));
      GrowsLess(|o.ops|, |o1.ops|, o1, o2);
      GrowsTrans(|o.ops|, o, o1, o2);
      GrowsLess(|o.ops|, |o2.ops|, o2, CloseDef(o2));
      GrowsTrans(|o.ops|, o, o2, CloseDef(o2));
    case Do(s) =>
      StmtOutGrows(u.ft, [u.glob], s, o);
      NoneLeft(u.ft, [u.glob], s, o);
  }

  lemma {:induction false} ItemsGrow(u: Scope, items: List<Item>, o: Output)
    requires Idle(u, o) && ClosedItems(items)
    ensures Grows(|o.ops|, o, OutItems(u, items, o).1)
    decreases items
  {
    hide OutItem, AfterItem, Grows, ClosedItem;
    match items
    case Nil => Appended(o, o);
    case Cons(item, rest) =>
      var u1, o1 := AfterItem(u, item, |o.ops|), OutItem(u, item, o);
      ItemGrows(u, item, o);
      ItemsGrow(u1, rest, o1);
      GrowsLen(o, o1);
      GrowsLess(|o.ops|, |o1.ops|, o1, OutItems(u1, rest, o1).1);
      GrowsTrans(|o.ops|, o, o1, OutItems(u1, rest, o1).1);
  }

  lemma GrowsLen(o: Output, o1: Output)
    requires Grows(|o.ops|, o, o1)
    ensures |o.ops| <= |o1.ops|
  {
  }

  // ----- one item -----

  lemma CleanItemRight(u: Scope, item: Item, o: Output)
    requires Idle(u, o) && ClosedItem(item) && CleanItem(item)
    ensures OutItem(u, item, o).ops == o.ops + ItemCode(u, item, |o.ops|)
  {
    hide OutList, OutStmt, StmtCode, ListCode, Pends, ListPends, ParamFrame, ParamCode, Clean, ListClean;
    match item
    case Def(f, params, body) =>
      var ft, frames, o1 := Declare(u.ft, f, params, |o.ops| + 1), [u.glob, ParamFrame(params)], OpenDef(|params|, o);
      ListCleanIntended(ft, frames, body, o1);
      DefRight(u, f, params, body, o, OutList(ft, frames, body, o1));
    case Do(s) => CleanIntended(u.ft, [u.glob], s, o);
  }

  lemma DefRight(u: Scope, f: string, params: seq<string>, body: List<Stmt>, o: Output, o2: Output)
    requires Idle(u, o)
    requires ListIntended(Declare(u.ft, f, params, |o.ops| + 1), [u.glob, ParamFrame(params)], body,
                          OpenDef(|params|, o), o2)
    ensures CloseDef(o2).ops == o.ops + ItemCode(u, Def(f, params, body), |o.ops|)
  {
    hide ParamCode, FnBody, ItemCode, ClosingRet, ListIntended, ParamFrame, Declare, CloseDef;
    var code := FnBody(FnAt(u, f, params, body, |o.ops|));
    BodyRight(FnAt(u, f, params, body, |o.ops|), o, OpenDef(|params|, o), o2);
    DefShape(u, f, params, body, |o.ops|);
    CloseRight(o2, o.ops, ParamCode(|params|), code);
  }

  lemma CloseRight(o2: Output, ops: seq<Op>, pc: seq<Op>, body: seq<Op>)
    requires o2.ops == ops + [FuncCreate] + pc + body
    requires forall i :: 0 <= i < |pc| ==> pc[i].LocalSet?
    ensures CloseDef(o2).ops == ops + ([FuncCreate] + (pc + body) + ClosingRet(body) + [FuncEnd])
  {
    hide ClosingRet;
    LastRet(ops, pc, body);
  }

  lemma BodyRight(i: FnInfo, o: Output, o1: Output, o2: Output)
    requires i.fold && i.addr == |o.ops| + 1 && i.held == o.held && o1 == OpenDef(|i.def.params|, o)
    requires ListIntended(i.ft, FnFrames(i), i.def.body, o1, o2)
    ensures o2.ops == o.ops + [FuncCreate] + ParamCode(|i.def.params|) + FnBody(i)
  {
    hide ParamCode, FnFrames, HeldAfterList, ListCode, ListBreaks, ListContinues;
    assert |o1.ops| == i.addr + |i.def.params|;
    assert o2.ops == o1.ops + FnBody(i);
  }

  lemma LastRet(ops: seq<Op>, pc: seq<Op>, body: seq<Op>)
    requires forall i :: 0 <= i < |pc| ==> pc[i].LocalSet?
    ensures var code := ops + [FuncCreate] + pc + body;
            code + (if Last(code) == FRet then [] else [FRet]) + [FuncEnd]
            == ops + ([FuncCreate] + (pc + body) + ClosingRet(body) + [FuncEnd])
  {
    var code := ops + [FuncCreate] + pc + body;
    if body != [] {
      assert Last(code) == Last(body);
    } else if pc != [] {
      assert Last(code) == Last(pc);
    }
  }

  lemma UncleanItemWrong(u: Scope, item: Item, o: Output) returns (a: nat)
    requires Idle(u, o) && ClosedItem(item) && !CleanItem(item)
    ensures |o.ops| <= a < |OutItem(u, item, o).ops| && a < |o.ops| + |ItemCode(u, item, |o.ops|)|
    ensures OutItem(u, item, o).ops[a] != ItemCode(u, item, |o.ops|)[a - |o.ops|]
  {
    hide OutList, OutStmt, StmtCode, ListCode, Pends, ListPends, ParamFrame, ParamCode, Clean, ListClean;
    IdleOk(o);
    match item
    case Def(f, params, body) =>
      var ft, frames, o1 := Declare(u.ft, f, params, |o.ops| + 1), [u.glob, ParamFrame(params)], OpenDef(|params|, o);
      IdleOk(o1);
      a := ListUnclean(ft, frames, body, o1);
      DefWrong(u, f, params, body, o, OutList(ft, frames, body, o1), a);
    case Do(s) =>
      a := StmtUnclean(u.ft, [u.glob], s, o);
      var to := OutStmt(u.ft, [u.glob], s, o);
      NoTargets(u.ft, [u.glob], o.held, s, |o.ops|, |to.ops| + 1, |to.ops|);
      assert Differs(u.ft, [u.glob], o.held, s, |o.ops|, |to.ops| + 1, |to.ops|, a, to.ops[a]);
  }

  lemma DefWrong(u: Scope, f: string, params: seq<string>, body: List<Stmt>, o: Output, o2: Output, a: nat)
    requires Idle(u, o) && !ListPends(body)
    requires ListSpoiled(Declare(u.ft, f, params, |o.ops| + 1), [u.glob, ParamFrame(params)], body,
                         OpenDef(|params|, o), o2, a)
    ensures |o.ops| <= a < |CloseDef(o2).ops| && a < |o.ops| + |ItemCode(u, Def(f, params, body), |o.ops|)|
    ensures CloseDef(o2).ops[a] != ItemCode(u, Def(f, params, body), |o.ops|)[a - |o.ops|]
  {
    hide ListCode, ParamFrame, Declare, ItemCode, ListPends, ClosingRet;
    var i, o1 := FnAt(u, f, params, body, |o.ops|), OpenDef(|params|, o);
    var b, c := |o2.ops| + 1, |o2.ops|;
    assert ListDiffers(i.ft, FnFrames(i), o1.held, body, |o1.ops|, b, c, a, o2.ops[a]);
    ListNoTargets(i.ft, FnFrames(i), o1.held, body, |o1.ops|, b, c);
    DefShape(u, f, params, body, |o.ops|);
    BodyIndex(FnBody(i), |params|, a - |o1.ops|);
  }

  lemma BodyIndex(body: seq<Op>, k: nat, j: nat)
    requires j < |body|
    ensures ([FuncCreate] + (ParamCode(k) + body) + ClosingRet(body) + [FuncEnd])[1 + k + j] == body[j]
  {
    hide ParamCode, ClosingRet;
  }

  // ----- programs -----

  /** For a program whose breaks and continues all stand in loops: the generator's output is the
      intended code exactly when the program is clean. */
  lemma {:induction false} ItemsRightIff(u: Scope, items: List<Item>, o: Output)
    requires Idle(u, o) && ClosedItems(items)
    ensures OutItems(u, items, o).1.ops == o.ops + ItemsCode(u, items, |o.ops|) <==> CleanItems(items)
    ensures CleanItems(items) ==> OutItems(u, items, o).0 == AfterItems(u, items, |o.ops|)
    decreases items
  {
    hide OutItem, AfterItem, ItemCode, ClosedItem, CleanItem, Grows;
    match items
    case Nil =>
      assert o.ops + [] == o.ops;
    case Cons(item, rest) =>
      var u1, o1 := AfterItem(u, item, |o.ops|), OutItem(u, item, o);
      ItemGrows(u, item, o);
      if CleanItem(item) {
        CleanItemRight(u, item, o);
        ItemsRightIff(u1, rest, o1);
        Regroup3(o.ops, ItemCode(u, item, |o.ops|), ItemsCode(u1, rest, |o1.ops|));
      } else {
        var a := UncleanItemWrong(u, item, o);
        ItemsGrow(u1, rest, o1);
        StaysPut(o1, OutItems(u1, rest, o1).1, a);
        var intended := o.ops + ItemsCode(u, items, |o.ops|);
        assert intended[a] == ItemCode(u, item, |o.ops|)[a - |o.ops|];
      }
  }

  lemma StaysPut(o: Output, to: Output, a: nat)
    requires !Pending(o) && Grows(|o.ops|, o, to) && a < |o.ops|
    ensures a < |to.ops| && to.ops[a] == o.ops[a]
  {
    assert Moves(o, to, a);
  }

  // ----- from source to code -----

  lemma {:induction false} PlacedPends(s: Stmt, inFn: bool)
    requires WellPlaced(s, false, inFn)
    ensures !Pends(s)
    decreases s, 0
  {
    match s
    case Block(body) => ListPlacedPends(body, inFn);
    case If(_, thn, els) =>
      ListPlacedPends(thn, inFn);
      ListPlacedPends(els, inFn);
    case _ =>
  }

  lemma {:induction false} ListPlacedPends(body: List<Stmt>, inFn: bool)
    requires ListPlaced(body, false, inFn)
    ensures !ListPends(body)
    decreases body, 0
  {
    match body
    case Nil =>
    case Cons(s, rest) =>
      PlacedPends(s, inFn);
      ListPlacedPends(rest, inFn);
  }

  lemma {:induction false} SafePlaced(ft: Funcs, frames: Frames, h: Held, k: set<nat>, pl: Place, s: Stmt)
    requires SafeStmt(ft, frames, h, k, pl, s)
    ensures WellPlaced(s, pl.inLoop, pl.inFn)
    decreases s, 0
  {
    match s
    case Block(body) => SafeListPlaced(ft, frames, h, k, pl, body);
    case If(c, thn, els) =>
      SafeListPlaced(ft, frames, Hold(h, Res(h, c)), k, pl, thn);
      SafeListPlaced(ft, FramesAfterBlock(frames, thn), HeldAfterList(Hold(h, Res(h, c)), thn), k, pl, els);
    case Loop(None, body) => SafeListPlaced(ft, frames, h, k, pl.(inLoop := true), body);
    case Loop(Some(c), body) => SafeListPlaced(ft, frames, Hold(h, Res(h, c)), k + {Res(h, c)}, pl.(inLoop := true),
                                               body);
    case _ =>
  }

  lemma {:induction false} SafeListPlaced(ft: Funcs, frames: Frames, h: Held, k: set<nat>, pl: Place, body: List<Stmt>)
    requires SafeList(ft, frames, h, k, pl, body)
    ensures ListPlaced(body, pl.inLoop, pl.inFn)
    decreases body, 0
  {
    match body
    case Nil =>
    case Cons(s, rest) =>
      SafePlaced(ft, frames, h, k, pl, s);
      SafeListPlaced(ft, FramesAfter(frames, s), HeldAfter(h, s), k, pl, rest);
  }

  lemma {:induction false} SafeItemsOk(u: Scope, items: List<Item>, o: Output)
    requires SafeItems(u, items, |o.ops|) && CleanItems(items) && Idle(u, o)
    ensures ItemsOk(u, items, o) && ClosedItems(items)
    decreases items
  {
    hide ItemCode, ItemErr, AfterItem, OutItem, SafeStmt, SafeList, StmtFits, ListFits, CountersFit, ListCountersFit,
         Pends, ListPends, Grows, CleanItem;
    match items
    case Nil =>
    case Cons(item, rest) =>
      match item {
        case Def(_, _, body) =>
          ListFitsCounters(NO_REG, u.held, body);
          ListPlacedPends(body, true);
        case Do(s) =>
          FitsCounters(NO_REG, u.held, s);
          SafePlaced(u.ft, [u.glob], u.held, {}, TOP_LEVEL, s);
          PlacedPends(s, false);
      }
      CleanItemRight(u, item, o);
      ItemGrows(u, item, o);
      SafeItemsOk(AfterItem(u, item, |o.ops|), rest, OutItem(u, item, o));
  }

  lemma {:induction false} OkNoErr(u: Scope, items: List<Item>, o: Output)
    requires ItemsOk(u, items, o)
    ensures !ItemsErr(u, items, |o.ops|)
    decreases items
  {
    hide ItemCode, ItemErr, AfterItem, OutItem;
    match items
    case Nil =>
    case Cons(item, rest) =>
      var u1, o1 := AfterItem(u, item, |o.ops|), OutItem(u, item, o);
      OkNoErr(u1, rest, o1);
      SigsRefl(u1.ft);
      ItemsErrSame(u1, u1, rest, |o1.ops|, |o.ops| + |ItemCode(u, item, |o.ops|)|);
  }

  lemma SigsRefl(ft: Funcs)
    ensures SameSigs(ft, ft)
  {
  }

  const EMPTY: Output := Output([], {0}, [], [])

  /** The instructions that `gen` leaves for a program without errors whose loops get their counters. */
  function Generated(items: List<Item>): seq<Op> {
    OutItems(FRESH, items, EMPTY).1.ops + [Halt]
  }

  /** They are the intended ones exactly when the program is clean. */
  lemma GeneratedIff(items: List<Item>)
    requires ClosedItems(items)
    ensures Generated(items) == Compile(items) <==> CleanItems(items)
  {
    hide ItemsCode, AfterItems, OutItems, ClosedItems, CleanItems;
    ItemsRightIff(FRESH, items, EMPTY);
    assert [] + ItemsCode(FRESH, items, 0) == ItemsCode(FRESH, items, 0);
    SameEnd(OutItems(FRESH, items, EMPTY).1.ops, ItemsCode(FRESH, items, 0));
  }

  /** A fresh generator accepts exactly the programs without errors. For a safe and clean program its
      output is the code that the correctness theorem is about. */
  method CompileProgram(items: List<Item>) returns (accepted: bool, ops: seq<Op>)
    ensures accepted == !ItemsErr(FRESH, items, 0)
    ensures Naming.Small(items, 0) ==> accepted == Naming.ItemsNamed(true, Naming.NOTHING, items)
    ensures ItemsOk(FRESH, items, EMPTY) ==> ops == Generated(items)
    ensures SafeProgram(items) && CleanItems(items) ==> accepted && ops == Compile(items)
  {
    hide ItemsErr, ItemsOk, SafeItems, ItemsCode, AfterItems, OutItems, ClosedItems, CleanItems;
    var g := new Generator();
    assert g.Now() == EMPTY && Top(g.Abs()) == FRESH;
    if Naming.Small(items, 0) {
      Naming.AcceptedIff(items);
    }
    if SafeProgram(items) && CleanItems(items) {
      SafeItemsOk(FRESH, items, EMPTY);
      OkNoErr(FRESH, items, EMPTY);
      GeneratedIff(items);
    }
    var _ := g.Gen(items);
    return !g.err, g.code.ops;
  }

  lemma SameEnd(a: seq<Op>, b: seq<Op>)
    ensures a + [Halt] == b + [Halt] <==> a == b
  {
    if a + [Halt] == b + [Halt] {
      assert a == (a + [Halt])[..|a|];
      assert b == (b + [Halt])[..|b|];
    }
  }
}
