/** From source to file and back: a compiled program fits the byte encoding, so the file it is
    written to loads as the very same program. */
module Deploy {
  import opened Words
  import opened Machine
  import opened Source
  import opened Reference
  import opened Simulation
  import opened Safety
  import opened Closed
  import opened Programs
  import opened Bytes
  import opened Binary
  import opened VM

  // ----- operands fit their fields -----

  ghost predicate SlotsFit(frames: Frames) {
    && |frames| <= 256
    && forall i :: 0 <= i < |frames| ==> FrameFits(frames[i])
  }

  ghost predicate FrameFits(f: CFrame) {
    f.used < 65536 && forall x :: x in f.locals ==> f.locals[x].idx < 65536
  }

  predicate FuncsFit(ft: Funcs) {
    forall f :: f in ft ==> ft[f].addr < TWO64 && ft[f].arity < 256
  }

  lemma EncodableConcat(a: seq<Op>, b: seq<Op>)
    requires AllEncodable(a) && AllEncodable(b)
    ensures AllEncodable(a + b)
  {
  }

  lemma {:induction false} LookupFits(frames: Frames, x: string)
    requires SlotsFit(frames)
    ensures Lookup(frames, x).Some? ==> Lookup(frames, x).value.depth < 256 && Lookup(frames, x).value.slot.idx < 65536
  {
  }

  lemma {:induction false} ExprEncodable(ft: Funcs, frames: Frames, h: Held, e: Expr, d: nat)
    requires !ExprErr(ft, frames, e) && RegsFit(h, NO_REG, e) && d < 256 && SlotsFit(frames) && FuncsFit(ft)
    ensures AllEncodable(ExprCode(ft, frames, h, e, d))
    decreases e
  {
    hide FirstFree, Alloc, SlotsFit, Lookup;
    match e
    case Var(x) =>
      LookupFits(frames, x);
    case Neg(e1) =>
      ExprEncodable(ft, frames, h, e1, Res(h, e1));
      EncodableConcat(ExprCode(ft, frames, h, e1, Res(h, e1)),
                      [MovRI(Res(h, e), 0), Alu(Sub, d, Res(h, e), Res(h, e1))]);
    case Bin(op, l, r) =>
      var a, b := ExprCode(ft, frames, Left(h), l, Alloc(h)), ExprCode(ft, frames, Left(h), r, Right(h, r));
      ExprEncodable(ft, frames, Left(h), l, Alloc(h));
      ExprEncodable(ft, frames, Left(h), r, Right(h, r));
      EncodableConcat(a, b);
      EncodableConcat(a + b, [Alu(op, d, Alloc(h), Right(h, r))]);
    case Call(f, args) =>
      ArgsEncodable(ft, frames, h, args, 0);
      EncodableConcat(ArgsCode(ft, frames, h, args, 0), [CallCode(ft, f)]);
    case _ =>
  }

  lemma {:induction false} ArgsEncodable(ft: Funcs, frames: Frames, h: Held, args: List<Expr>, i: nat)
    requires !ArgsErr(ft, frames, args) && ArgsFit(h, NO_REG, args) && SlotsFit(frames) && FuncsFit(ft)
    ensures AllEncodable(ArgsCode(ft, frames, h, args, i))
    decreases args
  {
    hide FirstFree, Alloc, SlotsFit, FuncsFit;
    match args
    case Nil =>
    case Cons(a, rest) =>
      ExprEncodable(ft, frames, h, a, ArgReg(i));
      ArgsEncodable(ft, frames, h, rest, i + 1);
      EncodableConcat(ExprCode(ft, frames, h, a, ArgReg(i)), ArgsCode(ft, frames, h, rest, i + 1));
  }

  // ----- slots stay in range -----

  lemma SetFits(frames: Frames, x: string, mut: bool)
    requires SlotsFit(frames)
    ensures SlotsFit(SetFrames(frames, x, mut)) && SetDepth(frames, x) < 256 && SetSlot(frames, x) < 65536
  {
    LookupFits(frames, x);
    var l := Lookup(frames, x);
    if l.None? {
      assert SetFrames(frames, x, mut) == TopFrame(frames, NewVar(Last(frames), x, mut));
      assert FrameFits(Last(frames));
    }
  }

  lemma {:induction false} FramesFit(frames: Frames, s: Stmt)
    requires SlotsFit(frames)
    ensures SlotsFit(FramesAfter(frames, s))
    decreases s, 0
  {
    hide SlotsFit, Lookup, SetFrames;
    match s
    case Set(x, _, mut) => SetFits(frames, x, mut);
    case Block(body) => BlockFramesFit(frames, body);
    case If(_, thn, els) =>
      BlockFramesFit(frames, thn);
      BlockFramesFit(FramesAfterBlock(frames, thn), els);
    case Loop(_, body) => BlockFramesFit(frames, body);
    case _ =>
  }

  lemma {:induction false} ListFramesFit(frames: Frames, body: List<Stmt>)
    requires SlotsFit(frames)
    ensures SlotsFit(FramesAfterList(frames, body))
    decreases body, 0
  {
    hide SlotsFit;
    match body
    case Nil =>
    case Cons(s, rest) =>
      FramesFit(frames, s);
      ListFramesFit(FramesAfter(frames, s), rest);
  }

  lemma {:induction false} BlockFramesFit(frames: Frames, body: List<Stmt>)
    requires SlotsFit(frames)
    ensures SlotsFit(FramesAfterBlock(frames, body))
    decreases body, 1
  {
    hide FramesAfterList;
    ListFramesFit(frames, body);
    assert FrameFits(Last(frames)) && FrameFits(Last(FramesAfterList(frames, body)));
  }

  // ----- statements -----

  lemma {:induction false} StmtEncodable(ft: Funcs, frames: Frames, h: Held, s: Stmt, n: nat, brk: nat, cnt: nat)
    requires !StmtErr(ft, frames, s) && StmtFits(NO_REG, h, s) && SlotsFit(frames) && FuncsFit(ft)
    requires n + StmtLen(true, s) < TWO64 && brk < TWO64 && cnt < TWO64
    ensures AllEncodable(StmtCode(true, ft, frames, h, s, n, brk, cnt))
    decreases s, 1
  {
    hide ExprCode, ListCode, LoopCode, ExprErr, ListErr, RegsFit, ListFits, SlotsFit, FuncsFit, FirstFree, Alloc,
         AllEncodable;
    match s
    case Block(body) => ListEncodable(ft, frames, h, body, n, brk, cnt);
    case If(c, thn, els) => IfEncodable(ft, frames, h, c, thn, els, n, brk, cnt);
    case Loop(None, body) => LoopEncodable(ft, frames, h, None, body, n);
    case Loop(Some(c), body) => CountedEncodable(ft, frames, h, c, body, n);
    case _ => SimpleEncodable(ft, frames, h, s, n, brk, cnt);
  }

  lemma ResFits(h: Held, e: Expr)
    requires RegsFit(h, NO_REG, e)
    ensures Res(h, e) < NO_REG
  {
  }

  lemma SimpleEncodable(ft: Funcs, frames: Frames, h: Held, s: Stmt, n: nat, brk: nat, cnt: nat)
    requires s.ExprS? || s.Set? || s.Break? || s.Continue? || s.Return?
    requires !StmtErr(ft, frames, s) && StmtFits(NO_REG, h, s) && SlotsFit(frames) && FuncsFit(ft) && brk < TWO64
             && cnt < TWO64
    ensures AllEncodable(StmtCode(true, ft, frames, h, s, n, brk, cnt))
  {
    hide ExprCode, ExprErr, RegsFit, SlotsFit, FuncsFit, FirstFree, Alloc, Res;
    match s
    case ExprS(e) =>
      ResFits(h, e);
      ExprEncodable(ft, frames, h, e, Res(h, e));
    case Set(x, e, mut) =>
      ResFits(h, e);
      ExprEncodable(ft, frames, h, e, Res(h, e));
      SetFits(frames, x, mut);
      EncodableConcat(ExprCode(ft, frames, h, e, Res(h, e)),
                      [LocalSet(SetDepth(frames, x), SetSlot(frames, x), Res(h, e))]);
    case Return(e) =>
      ExprEncodable(ft, frames, h, e, 0);
      EncodableConcat(ExprCode(ft, frames, h, e, 0), [FRet]);
    case _ =>
  }

  lemma {:induction false} IfEncodable(ft: Funcs, frames: Frames, h: Held, c: Expr, thn: List<Stmt>, els: List<Stmt>,
                                       n: nat, brk: nat, cnt: nat)
    requires !StmtErr(ft, frames, If(c, thn, els)) && StmtFits(NO_REG, h, If(c, thn, els)) && SlotsFit(frames)
             && FuncsFit(ft)
    requires n + StmtLen(true, If(c, thn, els)) < TWO64 && brk < TWO64 && cnt < TWO64
    ensures AllEncodable(StmtCode(true, ft, frames, h, If(c, thn, els), n, brk, cnt))
    decreases If(c, thn, els), 0
  {
    hide ListCode, ExprCode, ListErr, ExprErr, RegsFit, ListFits, SlotsFit, FuncsFit, FramesAfterBlock, HeldAfterList,
         FirstFree, Alloc, Res;
    ResLen(h, c);
    ResFits(h, c);
    var r := Res(h, c);
    var cc := ExprCode(ft, frames, h, c, r);
    var test := [IfTrue(r, ThenAt(true, c, n)), Jmp(ElseAt(true, c, thn, n))];
    var tc := ListCode(true, ft, frames, Hold(h, r), thn, ThenAt(true, c, n), brk, cnt);
    var skip := [Jmp(ElseAt(true, c, thn, n) + ListLen(true, els))];
    var ec := ListCode(true, ft, FramesAfterBlock(frames, thn), HeldAfterList(Hold(h, r), thn), els,
                       ElseAt(true, c, thn, n), brk, cnt);
    ExprEncodable(ft, frames, h, c, r);
    ListEncodable(ft, frames, Hold(h, r), thn, ThenAt(true, c, n), brk, cnt);
    BlockFramesFit(frames, thn);
    ListEncodable(ft, FramesAfterBlock(frames, thn), HeldAfterList(Hold(h, r), thn), els, ElseAt(true, c, thn, n), brk,
                  cnt);
    EncodableConcat(cc, test);
    EncodableConcat(cc + test, tc);
    EncodableConcat(cc + test + tc, skip);
    EncodableConcat(cc + test + tc + skip, ec);
  }

  lemma {:induction false} CountedEncodable(ft: Funcs, frames: Frames, h: Held, c: Expr, body: List<Stmt>, n: nat)
    requires !StmtErr(ft, frames, Loop(Some(c), body)) && StmtFits(NO_REG, h, Loop(Some(c), body)) && SlotsFit(frames)
             && FuncsFit(ft)
    requires n + StmtLen(true, Loop(Some(c), body)) < TWO64
    ensures AllEncodable(StmtCode(true, ft, frames, h, Loop(Some(c), body), n, 0, 0))
    decreases Loop(Some(c), body), 0
  {
    hide ExprCode, ExprErr, ListErr, ListCode, LoopCode, RegsFit, ListFits, SlotsFit, FuncsFit, FirstFree, Alloc, Res,
         AllEncodable;
    var start := n + ExprLen(c, c.Call?);
    ResLen(h, c);
    ResFits(h, c);
    ExprEncodable(ft, frames, h, c, Res(h, c));
    LoopEncodable(ft, frames, Hold(h, Res(h, c)), Some(Res(h, c)), body, start);
    EncodableConcat(ExprCode(ft, frames, h, c, Res(h, c)),
                    LoopCode(true, ft, frames, Hold(h, Res(h, c)), Some(Res(h, c)), body, start));
  }

  lemma {:induction false} LoopEncodable(ft: Funcs, frames: Frames, h: Held, r: Option<nat>, body: List<Stmt>,
                                         start: nat)
    requires !ListErr(ft, frames, body) && ListFits(NO_REG, h, body) && SlotsFit(frames) && FuncsFit(ft)
    requires LoopEnd(true, r, body, start) < TWO64 && (r.Some? ==> r.value < 256)
    ensures AllEncodable(LoopCode(true, ft, frames, h, r, body, start))
    decreases body, 1
  {
    hide ListCode, ListErr, ListFits, SlotsFit, FuncsFit;
    var end := LoopEnd(true, r, body, start);
    var bc := ListCode(true, ft, frames, h, body, start + Counted(r), end, end - 1 - Counted(r));
    ListEncodable(ft, frames, h, body, start + Counted(r), end, end - 1 - Counted(r));
    var test := if r.Some? then [IfFalse(r.value, end)] else [];
    EncodableConcat(test, bc);
    EncodableConcat(test + bc, LoopTail(r, start));
  }

  lemma {:induction false} ListEncodable(ft: Funcs, frames: Frames, h: Held, body: List<Stmt>, n: nat, brk: nat,
                                         cnt: nat)
    requires !ListErr(ft, frames, body) && ListFits(NO_REG, h, body) && SlotsFit(frames) && FuncsFit(ft)
    requires n + ListLen(true, body) < TWO64 && brk < TWO64 && cnt < TWO64
    ensures AllEncodable(ListCode(true, ft, frames, h, body, n, brk, cnt))
    decreases body, 0
  {
    hide StmtCode, StmtErr, StmtFits, SlotsFit, FuncsFit, Encodable;
    match body
    case Nil =>
    case Cons(s, rest) =>
      StmtEncodable(ft, frames, h, s, n, brk, cnt);
      FramesFit(frames, s);
      ListEncodable(ft, FramesAfter(frames, s), HeldAfter(h, s), rest, n + StmtLen(true, s), brk, cnt);
      EncodableConcat(StmtCode(true, ft, frames, h, s, n, brk, cnt),
                      ListCode(true, ft, FramesAfter(frames, s), HeldAfter(h, s), rest, n + StmtLen(true, s), brk,
                               cnt));
  }

  // ----- programs -----

  ghost predicate ScopeFits(u: Scope) {
    u.fold && SlotsFit([u.glob]) && FuncsFit(u.ft)
  }

  lemma {:induction false} ParamsFit(params: seq<string>)
    ensures FrameFits(ParamFrame(params))
  {
    if params != [] {
      ParamsFit(Front(params));
    }
  }

  lemma TwoFit(g: CFrame, params: seq<string>)
    requires SlotsFit([g])
    ensures SlotsFit([g, ParamFrame(params)])
  {
    ParamsFit(params);
    assert FrameFits([g][0]);
  }

  lemma DeclareFits(ft: Funcs, f: string, params: seq<string>, n: nat)
    requires FuncsFit(ft) && n < TWO64
    ensures FuncsFit(Declare(ft, f, params, n))
  {
  }

  lemma AfterItemFits(u: Scope, item: Item, n: nat)
    requires ScopeFits(u) && n + 1 < TWO64
    ensures ScopeFits(AfterItem(u, item, n))
  {
    hide SlotsFit, FuncsFit, HeldAfter, HeldAfterList, FramesAfter, FramesAfterList, ParamFrame, Declare;
    match item
    case Def(f, params, body) =>
      TwoFit(u.glob, params);
      ListFramesFit([u.glob, ParamFrame(params)], body);
      FirstFits(FramesAfterList([u.glob, ParamFrame(params)], body));
      DeclareFits(u.ft, f, params, n + 1);
    case Do(s) =>
      FramesFit([u.glob], s);
      FirstFits(FramesAfter([u.glob], s));
  }

  lemma FirstFits(frames: Frames)
    requires SlotsFit(frames)
    ensures SlotsFit([frames[0]])
  {
  }

  lemma DefEncodable(u: Scope, f: string, params: seq<string>, body: List<Stmt>, n: nat)
    requires SafeItem(u, Def(f, params, body), n) && ScopeFits(u) && n + |ItemCode(u, Def(f, params, body), n)| < TWO64
    ensures AllEncodable(ItemCode(u, Def(f, params, body), n))
  {
    hide FnBody, ListErr, ListFits, SafeList, ListPlaced, Distinct, SlotsFit, FuncsFit, Declare, ParamFrame, Encodable,
         ClosingRet, ItemCode;
    var code := FnBody(FnAt(u, f, params, body, n));
    DefShape(u, f, params, body, n);
    BodyEncodable(u, f, params, body, n);
    DefParts(code, |params|);
  }

  lemma BodyEncodable(u: Scope, f: string, params: seq<string>, body: List<Stmt>, n: nat)
    requires SafeItem(u, Def(f, params, body), n) && ScopeFits(u) && n + |ItemCode(u, Def(f, params, body), n)| < TWO64
    ensures AllEncodable(FnBody(FnAt(u, f, params, body, n)))
  {
    hide ListCode, ListErr, ListFits, SafeList, ListPlaced, Distinct, SlotsFit, FuncsFit, Declare, ParamFrame,
         ClosingRet, Encodable;
    var i := FnAt(u, f, params, body, n);
    TwoFit(u.glob, params);
    DeclareFits(u.ft, f, params, n + 1);
    ListEncodable(i.ft, FnFrames(i), i.held, body, n + 1 + |params|, 0, 0);
  }

  lemma DefParts(body: seq<Op>, k: nat)
    requires AllEncodable(body)
    ensures AllEncodable([FuncCreate] + (ParamCode(k) + body) + ClosingRet(body) + [FuncEnd])
  {
    EncodableConcat(ParamCode(k), body);
    EncodableConcat([FuncCreate], ParamCode(k) + body);
    EncodableConcat([FuncCreate] + (ParamCode(k) + body), ClosingRet(body));
    EncodableConcat([FuncCreate] + (ParamCode(k) + body) + ClosingRet(body), [FuncEnd]);
  }

  lemma ItemEncodable(u: Scope, item: Item, n: nat)
    requires SafeItem(u, item, n) && ScopeFits(u) && n + |ItemCode(u, item, n)| < TWO64
    ensures AllEncodable(ItemCode(u, item, n))
  {
    hide StmtCode, StmtErr, StmtFits, SafeStmt, SlotsFit, FuncsFit, DefCode, ListErr, ListFits, SafeList, ListPlaced,
         Distinct, Encodable;
    match item
    case Def(f, params, body) => DefEncodable(u, f, params, body, n);
    case Do(s) => StmtEncodable(u.ft, [u.glob], u.held, s, n, 0, 0);
  }

  lemma {:induction false} ItemsEncodable(u: Scope, items: List<Item>, n: nat)
    requires SafeItems(u, items, n) && ScopeFits(u) && n + |ItemsCode(u, items, n)| + 1 < TWO64
    ensures AllEncodable(ItemsCode(u, items, n))
    decreases items
  {
    hide ItemCode, SafeItem, AfterItem, ScopeFits, Encodable;
    match items
    case Nil =>
    case Cons(item, rest) =>
      var n1 := n + |ItemCode(u, item, n)|;
      ItemEncodable(u, item, n);
      AfterItemFits(u, item, n);
      ItemsEncodable(AfterItem(u, item, n), rest, n1);
      EncodableConcat(ItemCode(u, item, n), ItemsCode(AfterItem(u, item, n), rest, n1));
  }

  // ----- HALT comes last -----

  lemma NoHaltCodes(code: seq<Op>)
    requires AllEncodable(code) && HaltFree(code)
    ensures NoHalt(EncodeAll(code))
  {
    forall i | 0 <= i < |code|
      ensures EncodeAll(code)[i].code != HALT_CODE
    {
      OnlyHalt(code[i]);
    }
  }

  lemma OnlyHalt(op: Op)
    requires op != Halt
    ensures Opcode(op) != HALT_CODE
  {
  }

  // ----- end to end -----

  /** The file that running a program from source writes: the compiled program, a second HALT, the
      pool. It loads as the program, with the opcode byte of the second HALT in front of the pool. */
  function FileWritten(items: List<Item>, pool: seq<Byte>): seq<Byte>
    requires AllEncodable(Compile(items))
  {
    FileOf(EncodeAll(Compile(items)) + [HALT_RAW], pool)
  }

  lemma CompiledFile(items: List<Item>, pool: seq<Byte>)
    requires SafeProgram(items) && |Compile(items)| < TWO64
    ensures AllEncodable(Compile(items))
    ensures var raw := EncodeAll(Compile(items));
            && Loads(FileWritten(items, pool), raw, [HALT_CODE] + pool)
            && AllDecodable(raw) && Fetch(raw) == Compile(items)
  {
    hide ItemsCode, SafeItems, EncodeAll, Fetch, Encodable, Encode, FileOf, Loads, Canonical;
    var code, p := ItemsCode(FRESH, items, 0), Compile(items);
    ItemsEncodable(FRESH, items, 0);
    ItemsHaltFree(FRESH, items, 0);
    EncodeSplit(code);
    NoHaltCodes(code);
    EncodedCanonical(p);
    assert EncodeAll(code) + [HALT_RAW] == EncodeAll(p);
    SecondHalt(EncodeAll(code), pool);
    TailsAreZero(EncodeAll(p));
    FetchEncode(p);
  }

  lemma TailsAreZero(ops: seq<Raw>)
    requires Canonical(ops)
    ensures ZeroTails(ops) == ops
  {
  }

  lemma EncodeSplit(code: seq<Op>)
    requires AllEncodable(code)
    ensures AllEncodable(code + [Halt]) && EncodeAll(code + [Halt]) == EncodeAll(code) + [HALT_RAW]
  {
    hide Little, Unsigned;
    assert Encode(Halt) == HALT_RAW;
  }

  /** Loading a file and running what was loaded. */
  method BinaryRun(file: seq<Byte>, limit: nat) returns (outcome: LoadOutcome, verdict: Verdict)
    ensures outcome == BadHeader <==> !GoodHead(file)
    ensures forall ops, data :: Loads(file, ops, data) && AllDecodable(ops) ==>
              outcome == Loaded && verdict == RunFor(Fetch(ops), Start(), limit)
  {
    hide Header, ReadOps, Fetch, Decode, RunFor, Start;
    var loader := new BinaryLoader(file);
    outcome := loader.Load();
    verdict := Crash;
    StartAtTop(true);
    if outcome == Loaded && AllDecodable(loader.ops) {
      var machine := new VirtualCore();
      machine.SetProgram(Fetch(loader.ops));
      verdict := machine.Run(limit);
    }
    forall ops, data | Loads(file, ops, data) && AllDecodable(ops)
      ensures outcome == Loaded && verdict == RunFor(Fetch(ops), Start(), limit)
    {
      LoadsOnce(file, ops, data, loader.ops, loader.data, outcome);
    }
  }

  lemma LoadsOnce(file: seq<Byte>, ops: seq<Raw>, data: seq<Byte>, ops1: seq<Raw>, data1: seq<Byte>,
                  outcome: LoadOutcome)
    requires Loads(file, ops, data)
    requires outcome == BadHeader <==> !GoodHead(file)
    requires outcome == Loaded ==> Loads(file, ops1, data1)
    requires outcome == Endless <==> GoodHead(file) && ReadOps(file, HEADER_LEN) == None
    ensures outcome == Loaded && ops == ops1 && data == data1
  {
  }

  /** From the source text's meaning to the written file's run: enough steps of the machine on the
      loaded program end at its HALT with every variable in scope holding its source value. */
  lemma FileRunsRight(items: List<Item>, pool: seq<Byte>, fuel: nat) returns (limit: nat, t: State)
    requires SafeProgram(items) && |Compile(items)| < TWO64
    requires ExecItems(DefsOf(items), fuel, map[], items).Some?
    ensures AllEncodable(Compile(items))
    ensures var raw := EncodeAll(Compile(items));
            && Loads(FileWritten(items, pool), raw, [HALT_CODE] + pool) && AllDecodable(raw)
            && RunFor(Fetch(raw), Start(), limit) == Done(t) && |t.frames| == 1
            && Match(Variables(items), ExecItems(DefsOf(items), fuel, map[], items).value, t.frames[0].locals)
  {
    hide Compile, SafeProgram, EncodeAll, Fetch, FileWritten, Loads, AllEncodable, AllDecodable, Start, Match,
         ExecItems, DefsOf, Variables, Step, RunFor;
    CompiledFile(items, pool);
    t := CompilerCorrect(items, fuel);
    RunForReaches(Compile(items), Start(), t);
    limit :| RunFor(Compile(items), Start(), limit) == Done(t);
  }
}
