/** The bytes of a `.lmc` file, spelled out: every instruction, the header, and one file from the first byte
    to the last. */
module Layout {
  import opened Words
  import opened Machine
  import opened Source
  import opened Reference
  import opened Programs
  import opened Bytes
  import opened Binary
  import opened Emission
  import opened Driver
  import opened Fibonacci
  import opened Examples

  // ----- numbers -----

  function Two(n: nat): (bs: seq<nat>) {
    [n % 256, n / 256 % 256]
  }

  /** Eight bytes, the lowest first. */
  function Eight(n: nat): (bs: seq<nat>) {
    [n % 256, n / 0x100 % 256, n / 0x1_0000 % 256, n / 0x100_0000 % 256, n / 0x1_0000_0000 % 256,
     n / 0x100_0000_0000 % 256, n / 0x1_0000_0000_0000 % 256, n / 0x100_0000_0000_0000 % 256]
  }

  lemma LittleTwo(n: nat)
    ensures Little(n, 2) == Two(n)
  {
    assert Little(n / 256 / 256, 0) == [];
    assert Little(n / 256, 1) == [n / 256 % 256];
  }

  lemma LittleStep(n: nat, k: nat)
    ensures Little(n, k + 1) == [n % 256] + Little(n / 256, k)
  {
  }

  lemma LittleEight(n: nat)
    ensures Little(n, 8) == Eight(n)
  {
    hide Little;
    Shifts(n);
    LittleStep(n, 7);
    LittleStep(n / 0x100, 6);
    LittleStep(n / 0x1_0000, 5);
    LittleStep(n / 0x100_0000, 4);
    LittleStep(n / 0x1_0000_0000, 3);
    LittleStep(n / 0x100_0000_0000, 2);
    LittleStep(n / 0x1_0000_0000_0000, 1);
    LittleStep(n / 0x100_0000_0000_0000, 0);
    LittleNone(n / 0x100_0000_0000_0000 / 256);
  }

  lemma LittleNone(n: nat)
    ensures Little(n, 0) == []
  {
  }

  lemma Shifts(n: nat)
    ensures n / 0x100 / 256 == n / 0x1_0000 && n / 0x1_0000 / 256 == n / 0x100_0000
    ensures n / 0x100_0000 / 256 == n / 0x1_0000_0000 && n / 0x1_0000_0000 / 256 == n / 0x100_0000_0000
    ensures n / 0x100_0000_0000 / 256 == n / 0x1_0000_0000_0000
    ensures n / 0x1_0000_0000_0000 / 256 == n / 0x100_0000_0000_0000
  {
  }

  // ----- instructions -----

  /** The bytes of an instruction in a file: its opcode and its operands, and for arithmetic one byte more,
      which is not used. */
  function Layout(op: Op): seq<nat>
    requires Encodable(op)
  {
    match op
    case MovRI(d, imm) => [0, d] + Eight(if imm < 0 then imm + 0x1_0000_0000_0000_0000 else imm)
    case MovRR(d, r) => [2, d, r]
    case Alu(Add, d, a, b) => [8, d, a, b, 0]
    case Alu(Sub, d, a, b) => [9, d, a, b, 0]
    case Alu(Mul, d, a, b) => [10, d, a, b, 0]
    case Alu(Div, d, a, b) => [11, d, a, b, 0]
    case Alu(Mod, d, a, b) => [12, d, a, b, 0]
    case Alu(Pow, d, a, b) => [13, d, a, b, 0]
    case Halt => [14]
    case FCall(t, argc) => [15] + Eight(t) + [argc]
    case FRet => [16]
    case Jmp(t) => [18] + Eight(t)
    case Alu(Ge, d, a, b) => [19, d, a, b]
    case Alu(Lt, d, a, b) => [20, d, a, b]
    case Alu(Le, d, a, b) => [21, d, a, b]
    case Alu(Gt, d, a, b) => [22, d, a, b]
    case Alu(Eq, d, a, b) => [23, d, a, b]
    case Alu(Ne, d, a, b) => [24, d, a, b]
    case IfTrue(r, t) => [25, r] + Eight(t)
    case IfFalse(r, t) => [26, r] + Eight(t)
    case FuncCreate => [27]
    case FuncEnd => [28]
    case LocalGet(d, depth, slot) => [29, d, depth] + Two(slot)
    case LocalSet(depth, slot, r) => [30, depth] + Two(slot) + [r]
    case Alu(And, d, a, b) => [31, d, a, b]
    case Alu(Or, d, a, b) => [32, d, a, b]
    case Dec(d) => [34, d]
  }

  /** That is what is written for every instruction whose operands fit. */
  lemma OpLayout(op: Op)
    requires Encodable(op)
    ensures OpBytes(Encode(op)) == Layout(op)
  {
    hide Little, Two, Eight;
    match op
    case Alu(o, d, a, b) =>
      hide *;
      AluLayout(o, d, a, b);
    case MovRI(d, imm) => LittleEight(Unsigned(imm));
    case FCall(t, argc) => LittleEight(t);
    case Jmp(t) => LittleEight(t);
    case IfTrue(r, t) => LittleEight(t);
    case IfFalse(r, t) => LittleEight(t);
    case LocalGet(d, depth, slot) => LittleTwo(slot);
    case LocalSet(depth, slot, r) => LittleTwo(slot);
    case _ =>
  }

  lemma AluLayout(o: Oper, d: Byte, a: Byte, b: Byte)
    ensures OpBytes(Encode(Alu(o, d, a, b))) == Layout(Alu(o, d, a, b))
  {
    var code := OperCode(o);
    var raw := Encode(Alu(o, d, a, b));
    assert raw.operands == [d, a, b] + ZeroBytes(9);
    assert OpBytes(raw) == [code] + (if code <= 13 then [d, a, b, 0] else [d, a, b]);
  }

  /** The operand bytes of all 35 opcodes, those outside this model included, in the order of their numbers;
      any other byte has none. */
  const LENGTHS: seq<nat> := [9, 3, 2, 9, 10, 4, 3, 10, 4, 4, 4, 4, 4, 4, 0, 9, 0, 9, 8, 3, 3, 3, 3, 3, 3, 9, 9, 0,
                              0, 4, 4, 3, 3, 2, 1]

  lemma AllLengths(code: Byte)
    ensures OpcodeLen(code) == if code < 35 then LENGTHS[code] else 0
  {
  }

  // ----- files -----

  lemma HeaderBytes()
    ensures Header() == [0x51, 0x54, 0x4c, 0x4d, 1, 0, 0, 0]
  {
    hide Little;
    LittleStep(MAGIC, 3);
    LittleStep(0x4d4c54, 2);
    LittleStep(0x4d4c, 1);
    LittleStep(0x4d, 0);
    LittleNone(0);
    VersionBytes();
  }

  /** A HALT is written behind the instructions exactly if the last one is none. */
  lemma ClosingHalt(ops: seq<Raw>, pool: seq<Byte>)
    ensures FileOf(WithHalt(ops), pool)
            == Header() + Serialized(ops) + (if ops != [] && Last(ops).code == 14 then [] else [14]) + pool
  {
    hide Header;
    SerializedConcat(ops, [HALT_RAW]);
    assert Serialized([HALT_RAW]) == OpBytes(HALT_RAW) + Serialized([HALT_RAW][1..]);
    assert OpBytes(HALT_RAW) == [14];
  }

  /** r = x + y */
  function Sum(x: I64, y: I64): List<Item> {
    Cons(Do(Set("r", Bin(Add, Num(x), Num(y)), false)), Nil)
  }

  function SumCode(x: I64, y: I64): seq<Op> {
    [MovRI(1, x), MovRI(3, y), Alu(Add, 2, 1, 3), LocalSet(0, 0, 2)]
  }

  lemma SumGenerated(x: I64, y: I64)
    ensures !ItemsErr(FRESH, Sum(x, y), 0) && Generated(Sum(x, y)) == SumCode(x, y) + [Halt]
  {
    hide ItemsCode, FineItem, Examples.Fine, AfterItem, Generated, ItemsErr;
    var item := Sum(x, y).head;
    var u := AfterItem(FRESH, item, 0);
    SumFine(x, y);
    FineNil(u, 4);
    FineCons(FRESH, item, Nil, 0, SumCode(x, y), u, 4, []);
    assert SumCode(x, y) + [] == SumCode(x, y);
    FineProgram(Sum(x, y), SumCode(x, y));
  }

  lemma SumFine(x: I64, y: I64)
    ensures FineItem(FRESH, Sum(x, y).head, 0, SumCode(x, y))
  {
    hide FirstFree, Alloc;
    Allocs();
    var frames: Frames, h: Held := [FRESH.glob], {0};
    var l, r: Expr := Num(x), Num(y);
    var e := Bin(Add, l, r);
    assert Left(h) == {0, 1} && Hold({0, 1}, 2) == {0, 1, 2} && Hold({0, 1}, 3) == {0, 1, 3};
    assert Right(h, r) == 3 && Res(h, e) == 2;
    assert FindVar(frames, "r") == None by {
      assert Front(frames) == [];
    }
    assert ExprCode(map[], frames, Left(h), l, 1) == [MovRI(1, x)];
    assert ExprCode(map[], frames, Left(h), r, 3) == [MovRI(3, y)];
    assert !ExprErr(map[], frames, l) && !ExprErr(map[], frames, r);
    assert ExprCode(map[], frames, h, e, 2) == [MovRI(1, x), MovRI(3, y), Alu(Add, 2, 1, 3)];
    assert ValueCode(true, map[], frames, h, e) == ExprCode(map[], frames, h, e, 2);
    assert StmtCode(true, map[], frames, h, Set("r", e, false), 0, 0, 0) == SumCode(x, y);
  }

  lemma SerializedCons(op: Op, ops: seq<Op>)
    requires Encodable(op) && AllEncodable(ops)
    ensures AllEncodable([op] + ops) && Serialized(EncodeAll([op] + ops)) == Layout(op) + Serialized(EncodeAll(ops))
  {
    hide Layout, Encode, OpBytes, Encodable;
    OpLayout(op);
    assert EncodeAll([op] + ops) == [Encode(op)] + EncodeAll(ops);
  }

  lemma ByteAsEight(x: Byte)
    ensures Eight(x) == [x, 0, 0, 0, 0, 0, 0, 0]
  {
  }

  /** The file that running `r = x + y` from source writes, for x and y of one byte: header, four instructions,
      HALT, HALT, pool. */
  lemma WholeFile(x: Byte, y: Byte, pool: seq<Byte>)
    ensures !ItemsErr(FRESH, Sum(x, y), 0) && AllEncodable(Generated(Sum(x, y)))
    ensures FileOf(EncodeAll(Generated(Sum(x, y))) + [HALT_RAW], pool)
            == [0x51, 0x54, 0x4c, 0x4d, 1, 0, 0, 0]
               + [0, 1, x, 0, 0, 0, 0, 0, 0, 0]
               + [0, 3, y, 0, 0, 0, 0, 0, 0, 0]
               + [8, 2, 1, 3, 0]
               + [30, 0, 0, 0, 2]
               + [14] + [14] + pool
  {
    hide Generated, ItemsErr, Eight, Header, EncodeAll, Serialized;
    SumGenerated(x, y);
    HeaderBytes();
    ByteAsEight(x);
    ByteAsEight(y);
    var a, b, c, d := MovRI(1, x), MovRI(3, y), Alu(Add, 2, 1, 3), LocalSet(0, 0, 2);
    var e3 := [d] + [Halt];
    var e2, e1 := [c] + e3, [b] + ([c] + e3);
    NoBytes();
    SerializedCons(Halt, []);
    assert [Halt] + [] == [Halt];
    SerializedCons(d, [Halt]);
    SerializedCons(c, e3);
    SerializedCons(b, e2);
    SerializedCons(a, e1);
    assert Generated(Sum(x, y)) == [a] + e1;
    SerializedConcat(EncodeAll([a] + e1), [HALT_RAW]);
    OneHalt();
  }

  lemma NoBytes()
    ensures Serialized(EncodeAll([])) == []
  {
  }

  lemma OneHalt()
    ensures Serialized([HALT_RAW]) == [14]
  {
    assert Serialized([HALT_RAW]) == OpBytes(HALT_RAW) + Serialized([HALT_RAW][1..]);
  }
}
