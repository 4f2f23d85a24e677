/** Safety of generated programs over every run: control never leaves the code, and calls and returns
    balance. The program need not be one whose results are right: no condition is put on where loops
    stand, on register use across calls, or on slots. */
module Reachable {
  import opened Words
  import opened Machine
  import opened Source
  import opened Reference
  import opened Simulation
  import opened Closed
  import opened Patching
  import opened Programs
  import opened Emission
  import opened Unclean
  import opened Inside
  import opened Driver

  // ----- which programs -----

  /** Break and continue only in loops, return only in functions. */
  predicate ItemPlaced(item: Item) {
    match item
    case Def(_, _, body) => ListPlaced(body, false, true)
    case Do(s) => WellPlaced(s, false, false)
  }

  predicate AllPlaced(items: List<Item>) {
    match items
    case Nil => true
    case Cons(item, rest) => ItemPlaced(item) && AllPlaced(rest)
  }

  lemma PlacedClosed(item: Item)
    requires ItemPlaced(item)
    ensures ClosedItem(item)
  {
    match item
    case Def(_, _, body) => ListPlacedPends(body, true);
    case Do(s) => PlacedPends(s, false);
  }

  lemma {:induction false} AllPlacedClosed(items: List<Item>)
    requires AllPlaced(items)
    ensures ClosedItems(items)
  {
    match items
    case Nil =>
    case Cons(item, rest) =>
      PlacedClosed(item);
      AllPlacedClosed(rest);
  }

  // ----- the shape of an item's code -----

  /** A statement never leaves its code; a function is bracketed and leaves only by FRET. */
  predicate Shape(ft: Funcs, def: bool, code: seq<Op>, n: nat) {
    if def then
      && |code| >= 2 && code[0] == FuncCreate && code[|code| - 1] == FuncEnd
      && forall j :: 0 < j < |code| - 1 ==> OpIn(ft, code[j], n, n + |code| - 1, {}, true)
    else AllIn(ft, code, n, n + |code|, {}, false)
  }

  lemma {:induction false} PlacedInLoop(s: Stmt, inFn: bool)
    requires WellPlaced(s, false, inFn)
    ensures WellPlaced(s, true, inFn)
    decreases s, 0
  {
    match s
    case Block(body) => ListPlacedInLoop(body, inFn);
    case If(_, thn, els) =>
      ListPlacedInLoop(thn, inFn);
      ListPlacedInLoop(els, inFn);
    case _ =>
  }

  lemma {:induction false} ListPlacedInLoop(body: List<Stmt>, inFn: bool)
    requires ListPlaced(body, false, inFn)
    ensures ListPlaced(body, true, inFn)
    decreases body, 0
  {
    match body
    case Nil =>
    case Cons(s, rest) =>
      PlacedInLoop(s, inFn);
      ListPlacedInLoop(rest, inFn);
  }

  lemma ItemShape(u: Scope, item: Item, o: Output)
    requires !ItemErr(u, item, |o.ops|) && ItemPlaced(item) && Idle(u, o)
    ensures |o.ops| <= |OutItem(u, item, o).ops|
    ensures Shape(AfterItem(u, item, |o.ops|).ft, item.Def?, OutItem(u, item, o).ops[|o.ops|..], |o.ops|)
  {
    hide OutStmt, OutList, ListErr, StmtErr, ListPlaced, WellPlaced, Inward, ListPends, Pends, ParamFrame, Distinct,
         FramesAfter, FramesAfterList, HeldAfter, HeldAfterList, Shape;
    IdleOk(o);
    match item
    case Def(f, params, body) =>
      var ft, frames, o1 := Declare(u.ft, f, params, |o.ops| + 1), [u.glob, ParamFrame(params)], OpenDef(|params|, o);
      IdleOk(o1);
      ListPlacedInLoop(body, true);
      ListInside(ft, frames, body, o1, true);
      ListPlacedPends(body, true);
      ListNoneLeft(ft, frames, body, o1);
      ListOutGrows(ft, frames, body, o1);
      DefShaped(ft, |params|, o, o1, OutList(ft, frames, body, o1));
    case Do(s) =>
      PlacedInLoop(s, false);
      StmtInside(u.ft, [u.glob], s, o, false);
      PlacedPends(s, false);
      NoneLeft(u.ft, [u.glob], s, o);
      DoShaped(u.ft, o, OutStmt(u.ft, [u.glob], s, o));
  }

  lemma DoShaped(ft: Funcs, o: Output, to: Output)
    requires !Pending(to) && Inward(ft, |o.ops|, to, false)
    ensures Shape(ft, false, to.ops[|o.ops|..], |o.ops|)
  {
    var code := to.ops[|o.ops|..];
    forall i | 0 <= i < |code|
      ensures OpIn(ft, code[i], |o.ops|, |o.ops| + |code|, {}, false)
    {
      assert !Waits(to, |o.ops| + i) && code[i] == to.ops[|o.ops| + i];
    }
  }

  lemma DefShaped(ft: Funcs, k: nat, o: Output, o1: Output, o2: Output)
    requires o1 == OpenDef(k, o) && !Pending(o1) && !Pending(o2) && Grows(|o1.ops|, o1, o2)
             && Inward(ft, |o1.ops|, o2, true)
    ensures |o.ops| <= |CloseDef(o2).ops| && Shape(ft, true, CloseDef(o2).ops[|o.ops|..], |o.ops|)
  {
    hide OpIn;
    var n, to := |o.ops|, CloseDef(o2);
    var code := to.ops[n..];
    assert Moves(o1, o2, n);
    assert o1.ops[n] == FuncCreate;
    forall j | 0 < j < |code| - 1
      ensures OpIn(ft, code[j], n, n + |code| - 1, {}, true)
    {
      assert code[j] == to.ops[n + j];
      if n + j < |o1.ops| {
        assert Moves(o1, o2, n + j) && o1.ops[n + j] == ParamCode(k)[j - 1];
        StoreIn(ft, ParamCode(k)[j - 1], n, n + |code| - 1);
      } else if n + j < |o2.ops| {
        assert !Waits(o2, n + j) && OpIn(ft, o2.ops[n + j], |o1.ops|, |o2.ops|, {}, true);
        Widen(ft, o2.ops[n + j], |o1.ops|, |o2.ops|, n, n + |code| - 1);
      } else {
        assert code[j] == FRet;
        RetIn(ft, n, n + |code| - 1);
      }
    }
  }

  lemma StoreIn(ft: Funcs, op: Op, lo: nat, hi: nat)
    requires op.LocalSet?
    ensures OpIn(ft, op, lo, hi, {}, true)
  {
  }

  lemma RetIn(ft: Funcs, lo: nat, hi: nat)
    ensures OpIn(ft, FRet, lo, hi, {}, true)
  {
  }

  lemma Widen(ft: Funcs, op: Op, lo: nat, hi: nat, lo1: nat, hi1: nat)
    requires OpIn(ft, op, lo, hi, {}, true) && lo1 <= lo && hi <= hi1
    ensures OpIn(ft, op, lo1, hi1, {}, true)
  {
  }

  // ----- inside and outside functions -----

  /** For every instruction of an item: does it belong to the interior of a function? */
  function ItemMarks(def: bool, len: nat): (r: seq<bool>)
    ensures |r| == len && (forall i :: 0 <= i < len ==> r[i] == (def && i > 0))
  {
    seq(len, i => def && i > 0)
  }

  function Marks(u: Scope, items: List<Item>, o: Output): seq<bool>
    decreases items
  {
    match items
    case Nil => []
    case Cons(item, rest) =>
      var o1 := OutItem(u, item, o);
      ItemMarks(item.Def?, Minus(|o1.ops|, |o.ops|)) + Marks(AfterItem(u, item, |o.ops|), rest, o1)
  }

  function Minus(a: nat, b: nat): nat {
    if a < b then 0 else a - b
  }

  /** Every item begins outside functions. */
  lemma {:induction false} MarksHead(u: Scope, items: List<Item>, o: Output)
    ensures !(Marks(u, items, o) + [false])[0]
    decreases items
  {
    hide OutItem, AfterItem;
    match items
    case Nil =>
    case Cons(item, rest) => MarksHead(AfterItem(u, item, |o.ops|), rest, OutItem(u, item, o));
  }

  lemma {:induction false} MarksLen(u: Scope, items: List<Item>, o: Output)
    requires Idle(u, o) && AllPlaced(items)
    ensures |o.ops| + |Marks(u, items, o)| == |OutItems(u, items, o).1.ops|
    decreases items
  {
    hide OutItem, AfterItem, ItemPlaced, Grows, ClosedItem;
    match items
    case Nil =>
    case Cons(item, rest) =>
      PlacedClosed(item);
      ItemGrows(u, item, o);
      GrowsLen(o, OutItem(u, item, o));
      MarksLen(AfterItem(u, item, |o.ops|), rest, OutItem(u, item, o));
  }

  /** From outside to outside; from inside to anywhere in the program. */
  predicate Goes(marks: seq<bool>, a: nat, b: nat) {
    a < |marks| && b < |marks| && (!marks[a] ==> !marks[b])
  }

  /** Where the instruction at `a` may send the machine. */
  predicate Flows(p: seq<Op>, marks: seq<bool>, a: nat)
    requires a < |p|
  {
    match p[a]
    case Jmp(t) => Goes(marks, a, t)
    case IfTrue(_, t) => Goes(marks, a, t) && Goes(marks, a, a + 1)
    case IfFalse(_, t) => Goes(marks, a, t) && Goes(marks, a, a + 1)
    case FCall(t, _) => t < |p| && Goes(marks, a, a + 1)
    case FRet => a < |marks| && marks[a]
    case Halt => true
    case FuncCreate => Goes(marks, a, SkipToEnd(p, a) + 1)
    case _ => Goes(marks, a, a + 1)
  }

  predicate EntriesBelow(ft: Funcs, n: nat) {
    forall f :: f in ft ==> ft[f].addr < n
  }

  lemma EntriesAfter(u: Scope, item: Item, o: Output)
    requires EntriesBelow(u.ft, |o.ops|) && |o.ops| <= |OutItem(u, item, o).ops|
    requires Shape(AfterItem(u, item, |o.ops|).ft, item.Def?, OutItem(u, item, o).ops[|o.ops|..], |o.ops|)
    ensures EntriesBelow(AfterItem(u, item, |o.ops|).ft, |OutItem(u, item, o).ops|)
  {
    hide OutItem, HeldAfter, HeldAfterList, FramesAfter, FramesAfterList, AllIn, OpIn;
  }

  lemma {:induction false} ItemsFlow(p: seq<Op>, marks: seq<bool>, u: Scope, items: List<Item>, o: Output)
    requires !ItemsErr(u, items, |o.ops|) && AllPlaced(items) && Idle(u, o) && EntriesBelow(u.ft, |o.ops|)
    requires p == OutItems(u, items, o).1.ops + [Halt] && |marks| == |p| > |o.ops|
    requires marks[|o.ops|..] == Marks(u, items, o) + [false]
    ensures forall a :: |o.ops| <= a < |p| ==> Flows(p, marks, a)
    decreases items
  {
    hide OutItem, ItemCode, AfterItem, ItemErr, ItemPlaced, Flows, Grows, ClosedItem, Shape, ItemMarks, EntriesBelow;
    match items
    case Nil => EndFlows(p, marks, |o.ops|);
    case Cons(item, rest) =>
      var u1, o1 := AfterItem(u, item, |o.ops|), OutItem(u, item, o);
      var final := OutItems(u1, rest, o1).1;
      PlacedClosed(item);
      AllPlacedClosed(rest);
      ItemGrows(u, item, o);
      ItemsGrow(u1, rest, o1);
      ItemShape(u, item, o);
      EntriesAfter(u, item, o);
      MarksHead(u1, rest, o1);
      ItemRegion(p, marks, u1.ft, item.Def?, o, o1, final, Marks(u1, rest, o1) + [false]);
      SigsRefl(u1.ft);
      ItemsErrSame(u1, u1, rest, |o.ops| + |ItemCode(u, item, |o.ops|)|, |o1.ops|);
      ItemsFlow(p, marks, u1, rest, o1);
  }

  lemma EndFlows(p: seq<Op>, marks: seq<bool>, n: nat)
    requires |p| == n + 1 && p[n] == Halt
    ensures forall a :: n <= a < |p| ==> Flows(p, marks, a)
  {
  }

  /** One item in the finished program. */
  lemma ItemRegion(p: seq<Op>, marks: seq<bool>, ft: Funcs, def: bool, o: Output, o1: Output, final: Output,
                   more: seq<bool>)
    requires |o.ops| <= |o1.ops| && !Pending(o1) && Grows(|o1.ops|, o1, final)
    requires p == final.ops + [Halt] && |marks| == |p|
    requires Shape(ft, def, o1.ops[|o.ops|..], |o.ops|) && EntriesBelow(ft, |o1.ops|)
    requires more != [] && !more[0] && marks[|o.ops|..] == ItemMarks(def, |o1.ops| - |o.ops|) + more
    ensures marks[|o1.ops|..] == more
    ensures forall a :: |o.ops| <= a < |o1.ops| ==> Flows(p, marks, a)
  {
    hide Flows, OpIn, SkipToEnd, EntriesBelow, Grows;
    var n, hi, code := |o.ops|, |o1.ops|, o1.ops[|o.ops|..];
    GrowsLen(o1, final);
    assert marks[hi..] == marks[n..][hi - n..];
    assert marks[hi] == marks[hi..][0];
    forall a | n <= a < hi
      ensures p[a] == code[a - n] && marks[a] == (def && a > n)
    {
      StaysPut(o1, final, a);
      assert marks[a] == marks[n..][a - n];
    }
    forall a | n <= a < hi
      ensures Flows(p, marks, a)
    {
      if !def {
        OutsideFlows(p, marks, n, hi, ft, a);
      } else if a > n {
        if a < hi - 1 {
          assert OpIn(ft, code[a - n], n, hi - 1, {}, true);
        }
        InsideFlows(p, marks, n, hi, ft, a);
      } else {
        CreateFlows(p, marks, n, hi, ft);
      }
    }
  }

  lemma OutsideFlows(p: seq<Op>, marks: seq<bool>, lo: nat, hi: nat, ft: Funcs, a: nat)
    requires lo <= a < hi < |p| == |marks| && OpIn(ft, p[a], lo, hi, {}, false) && EntriesBelow(ft, hi)
    requires (forall b :: lo <= b < hi ==> !marks[b]) && !marks[hi]
    ensures Flows(p, marks, a)
  {
  }

  lemma InsideFlows(p: seq<Op>, marks: seq<bool>, lo: nat, hi: nat, ft: Funcs, a: nat)
    requires lo < a < hi < |p| == |marks| && marks[a] && EntriesBelow(ft, hi)
    requires if a == hi - 1 then p[a] == FuncEnd else OpIn(ft, p[a], lo, hi - 1, {}, true)
    ensures Flows(p, marks, a)
  {
  }

  /** The first FUNC_END after a FUNC_CREATE is its own. */
  lemma CreateFlows(p: seq<Op>, marks: seq<bool>, lo: nat, hi: nat, ft: Funcs)
    requires lo + 1 < hi < |p| == |marks| && p[lo] == FuncCreate && p[hi - 1] == FuncEnd && !marks[hi]
    requires forall a :: lo < a < hi - 1 ==> OpIn(ft, p[a], lo, hi - 1, {}, true)
    ensures SkipToEnd(p, lo) == hi - 1 && Flows(p, marks, lo)
  {
    hide SkipToEnd;
    var e := SkipToEnd(p, lo);
    assert !(lo < e < hi - 1);
  }

  // ----- the invariant of a run -----

  predicate AfterCall(p: seq<Op>, a: nat) {
    0 < a < |p| && p[a - 1].FCall?
  }

  predicate Balanced(p: seq<Op>, marks: seq<bool>, s: State) {
    && s.pc < |p| == |marks|
    && |s.frames| == |s.rets| + 1
    && (forall i :: 0 <= i < |s.rets| ==> AfterCall(p, s.rets[i]))
    && !marks[if s.rets == [] then s.pc else s.rets[0]]
  }

  lemma StepBalanced(p: seq<Op>, marks: seq<bool>, s: State)
    requires Balanced(p, marks, s) && Flows(p, marks, s.pc) && Step(p, s).Next?
    ensures Balanced(p, marks, Step(p, s).state)
  {
    hide AluWord, SkipToEnd, LowByte, CalleeLocals, RestoreRegs;
    var t := Step(p, s).state;
    match p[s.pc]
    case FCall(target, argc) =>
      assert t.rets == s.rets + [s.pc + 1];
    case FRet =>
      assert s.rets != [] && AfterCall(p, Last(s.rets));
      assert t.rets == Front(s.rets);
    case _ =>
  }

  lemma {:induction false} RunBalanced(p: seq<Op>, marks: seq<bool>, s: State, k: nat)
    requires Balanced(p, marks, s) && (forall a :: 0 <= a < |p| ==> Flows(p, marks, a)) && Steps(p, s, k).Some?
    ensures Balanced(p, marks, Steps(p, s, k).value)
    decreases k
  {
    hide Balanced, Step, Flows;
    if k > 0 {
      InProgram(p, marks, s);
      StepBalanced(p, marks, s);
      RunBalanced(p, marks, Step(p, s).state, k - 1);
    }
  }

  lemma InProgram(p: seq<Op>, marks: seq<bool>, s: State)
    requires Balanced(p, marks, s)
    ensures s.pc < |p|
  {
  }

  /** Every state that a generated program can reach, for every program without errors: the program
      counter is inside the program, there is one frame more than return addresses, every return
      address follows a call, and no FRET meets an empty return stack. */
  lemma ReachableSafe(items: List<Item>, k: nat)
    requires !ItemsErr(FRESH, items, 0) && AllPlaced(items) && Steps(Generated(items), Start(), k).Some?
    ensures var p, s := Generated(items), Steps(Generated(items), Start(), k).value;
            && s.pc < |p|
            && |s.frames| == |s.rets| + 1
            && (forall i :: 0 <= i < |s.rets| ==> AfterCall(p, s.rets[i]))
            && (p[s.pc] == FRet ==> s.rets != [])
  {
    hide OutItems, ItemsErr, Steps, Marks, Flows;
    var p, marks := Generated(items), Marks(FRESH, items, EMPTY) + [false];
    assert marks[0..] == marks;
    MarksHead(FRESH, items, EMPTY);
    MarksLen(FRESH, items, EMPTY);
    ItemsFlow(p, marks, FRESH, items, EMPTY);
    RunBalanced(p, marks, Start(), k);
    RetInside(p, marks, Steps(p, Start(), k).value);
  }

  lemma RetInside(p: seq<Op>, marks: seq<bool>, s: State)
    requires Balanced(p, marks, s) && Flows(p, marks, s.pc)
    ensures p[s.pc] == FRet ==> s.rets != []
  {
  }
}
