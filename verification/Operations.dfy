/** What one arithmetic, comparing or logical instruction does to the registers, in plain numbers, and a
    compiled program with some of them. */
module Operations {
  import opened Words
  import opened Machine
  import opened Source
  import opened Reference
  import opened Programs
  import opened Emission
  import opened Driver
  import opened Fibonacci
  import opened Examples

  /** The range of a signed 64-bit word. */
  predicate Fits(n: int) {
    -0x8000_0000_0000_0000 <= n <= 0x7fff_ffff_ffff_ffff
  }

  /** The machine is at an instruction with these operands. */
  predicate AtAlu(p: seq<Op>, s: State, op: Oper, d: nat, a: nat, b: nat) {
    s.pc < |p| && p[s.pc] == Alu(op, d, a, b) && d < 255 && a < 255 && b < 255
  }

  /** The state behind the instruction, with `w` in register `d` and nothing else changed. */
  function Leaves(s: State, d: nat, w: int): State
    requires d < 255
  {
    s.(pc := s.pc + 1, regs := s.regs[d := w])
  }

  lemma AddStep(p: seq<Op>, s: State, d: nat, a: nat, b: nat)
    requires AtAlu(p, s, Add, d, a, b)
    ensures var w := s.regs[a] + s.regs[b]; Step(p, s) == if Fits(w) then Next(Leaves(s, d, w)) else Stuck
  {
  }

  lemma SubStep(p: seq<Op>, s: State, d: nat, a: nat, b: nat)
    requires AtAlu(p, s, Sub, d, a, b)
    ensures var w := s.regs[a] - s.regs[b]; Step(p, s) == if Fits(w) then Next(Leaves(s, d, w)) else Stuck
  {
  }

  lemma MulStep(p: seq<Op>, s: State, d: nat, a: nat, b: nat)
    requires AtAlu(p, s, Mul, d, a, b)
    ensures var w := s.regs[a] * s.regs[b]; Step(p, s) == if Fits(w) then Next(Leaves(s, d, w)) else Stuck
  {
  }

  /** `x` is `y` times `q` and a remainder smaller than `y`, of the sign of `x`: division toward zero. */
  predicate Divides(x: int, y: int, q: int, m: int) {
    && x == y * q + m
    && (if y < 0 then y < m < -y else -y < m < y)
    && (m == 0 || (m > 0 <==> x > 0))
  }

  /** Quotient and remainder are the only ones. */
  lemma OneQuotient(x: int, y: int, q: int, m: int, q1: int, m1: int)
    requires y != 0 && Divides(x, y, q, m) && Divides(x, y, q1, m1)
    ensures q == q1 && m == m1
  {
    Difference(y, q, q1);
    if q > q1 {
      Multiple(y, q - q1);
    } else if q < q1 {
      Multiple(y, q1 - q);
    }
  }

  lemma Difference(y: int, q: int, q1: int)
    ensures y * (q - q1) == y * q - y * q1 && y * (q1 - q) == y * q1 - y * q
  {
  }

  lemma {:induction false} Multiple(y: int, k: int)
    requires k > 0
    ensures if y >= 0 then y * k >= y else y * k <= y
    decreases k
  {
    if k > 1 {
      Multiple(y, k - 1);
      assert y * k == y * (k - 1) + y;
    }
  }

  /** Division by zero is undefined, and so is the one quotient that does not fit. */
  lemma DivStep(p: seq<Op>, s: State, d: nat, a: nat, b: nat) returns (q: int, m: int)
    requires AtAlu(p, s, Div, d, a, b)
    ensures s.regs[b] == 0 ==> Step(p, s) == Stuck
    ensures s.regs[b] != 0 ==>
              Divides(s.regs[a], s.regs[b], q, m) && Step(p, s) == if Fits(q) then Next(Leaves(s, d, q)) else Stuck
  {
    q, m := Quotient(s.regs[a], s.regs[b]);
  }

  lemma ModStep(p: seq<Op>, s: State, d: nat, a: nat, b: nat) returns (q: int, m: int)
    requires AtAlu(p, s, Mod, d, a, b) && Fits(s.regs[a]) && Fits(s.regs[b])
    ensures s.regs[b] == 0 ==> Step(p, s) == Stuck
    ensures s.regs[b] != 0 ==>
              Divides(s.regs[a], s.regs[b], q, m) && Step(p, s) == if Fits(q) then Next(Leaves(s, d, m)) else Stuck
  {
    q, m := Quotient(s.regs[a], s.regs[b]);
  }

  lemma Quotient(x: int, y: int) returns (q: int, m: int)
    ensures y != 0 ==> Divides(x, y, q, m) && q == TruncDiv(x, y) && m == TruncMod(x, y)
  {
    hide TruncDiv;
    q, m := 0, 0;
    if y != 0 {
      q, m := TruncDiv(x, y), TruncMod(x, y);
    }
  }

  /** The relation of two words that a comparison is for. */
  predicate Related(op: Oper, x: int, y: int) {
    || (op == Ge && x >= y) || (op == Lt && x < y) || (op == Le && x <= y)
    || (op == Gt && x > y) || (op == Eq && x == y) || (op == Ne && x != y)
  }

  /** The low byte becomes 1 or 0, the seven others stay. */
  predicate BitLeft(s: State, t: State, d: nat, bit: bool)
    requires d < 255
  {
    && t == Leaves(s, d, t.regs[d])
    && t.regs[d] % 256 == (if bit then 1 else 0) && t.regs[d] / 256 == s.regs[d] / 256
  }

  lemma CompareStep(p: seq<Op>, s: State, op: Oper, d: nat, a: nat, b: nat) returns (t: State)
    requires op in {Ge, Lt, Le, Gt, Eq, Ne} && AtAlu(p, s, op, d, a, b)
    ensures Step(p, s) == Next(t) && BitLeft(s, t, d, Related(op, s.regs[a], s.regs[b]))
  {
    t := Step(p, s).state;
  }

  /** AND and OR look at low bytes only. */
  lemma LogicStep(p: seq<Op>, s: State, op: Oper, d: nat, a: nat, b: nat) returns (t: State)
    requires op in {And, Or} && AtAlu(p, s, op, d, a, b)
    ensures var x, y := s.regs[a] % 256 != 0, s.regs[b] % 256 != 0;
            Step(p, s) == Next(t) && BitLeft(s, t, d, if op == And then x && y else x || y)
  {
    t := Step(p, s).state;
  }

  /** What the source says about the same operators. */
  lemma SourceOperators(x: int, y: int)
    ensures Apply(Mul, I(x), I(y)) == if Fits(x * y) then Some(I(x * y)) else None
    ensures y == 0 ==> Apply(Div, I(x), I(y)) == Apply(Mod, I(x), I(y)) == None
    ensures forall op :: op in {Ge, Lt, Le, Gt, Eq, Ne} ==> Apply(op, I(x), I(y)) == Some(B(Related(op, x, y)))
  {
  }

  // ----- calls -----

  /** A call: one frame more, with a local for each argument, the first from register 254, and one more that is
      zero; registers 1 to 3 are noted in it, and the registers themselves do not change. */
  lemma CallStep(p: seq<Op>, s: State, target: nat, argc: nat) returns (t: State)
    requires s.pc < |p| && p[s.pc] == FCall(target, argc) && argc <= 255
    ensures Step(p, s) == Next(t) && t.pc == target && t.regs == s.regs && t.rets == s.rets + [s.pc + 1]
    ensures |t.frames| == |s.frames| + 1 && t.frames[..|s.frames|] == s.frames
    ensures var f := t.frames[|s.frames|];
            && |f.locals| == argc + 1 && f.locals[argc] == 0
            && (forall i :: 0 <= i < argc ==> f.locals[i] == s.regs[254 - i])
            && (f.saved.r1, f.saved.r2, f.saved.r3) == (s.regs[1], s.regs[2], s.regs[3])
  {
    t := Step(p, s).state;
  }

  /** A return after it, whatever the function did to the registers and to its own frame. */
  lemma ReturnStep(p: seq<Op>, s: State, f: Frame, back: nat) returns (t: State)
    requires s.pc < |p| && p[s.pc] == FRet && s.rets != [] && s.rets[|s.rets| - 1] == back
    requires s.frames != [] && s.frames[|s.frames| - 1] == f
    ensures Step(p, s) == Next(t) && t.pc == back
    ensures t.frames == s.frames[..|s.frames| - 1] && t.rets == s.rets[..|s.rets| - 1]
    ensures forall r :: 0 <= r < 255 ==>
              t.regs[r] == if r == 1 then f.saved.r1 else if r == 2 then f.saved.r2 else if r == 3 then f.saved.r3
                  else s.regs[r]
  {
    t := Step(p, s).state;
  }

  // ----- a program -----

  /** r = x * y >= z, the product compared. */
  function Product(x: I64, y: I64, z: I64): List<Item> {
    Cons(Do(Set("r", Bin(Ge, Bin(Mul, Num(x), Num(y)), Num(z)), false)), Nil)
  }

  function ProductCode(x: I64, y: I64, z: I64): seq<Op> {
    [MovRI(2, x), MovRI(4, y), Alu(Mul, 1, 2, 4), MovRI(3, z), Alu(Ge, 2, 1, 3), LocalSet(0, 0, 2)]
  }

  lemma ProductFine(x: I64, y: I64, z: I64)
    ensures FineItem(FRESH, Product(x, y, z).head, 0, ProductCode(x, y, z))
  {
    hide FirstFree, Alloc;
    Allocs();
    var frames: Frames, h: Held := [FRESH.glob], {0};
    var mul, z1: Expr := Bin(Mul, Num(x), Num(y)), Num(z);
    var e := Bin(Ge, mul, z1);
    assert Left(h) == {0, 1} && Left({0, 1}) == {0, 1, 2};
    assert Hold({0, 1, 2}, 3) == {0, 1, 2, 3} && Hold({0, 1}, 2) == {0, 1, 2} && Hold({0, 1}, 3) == {0, 1, 3};
    assert Right({0, 1}, Num(y)) == 4 && Right(h, z1) == 3 && Res(h, e) == 2;
    assert ExprCode(map[], frames, {0, 1, 2}, Num(x), 2) == [MovRI(2, x)];
    assert ExprCode(map[], frames, {0, 1, 2}, Num(y), 4) == [MovRI(4, y)];
    assert ExprCode(map[], frames, {0, 1}, mul, 1) == [MovRI(2, x), MovRI(4, y), Alu(Mul, 1, 2, 4)];
    assert ExprCode(map[], frames, {0, 1}, z1, 3) == [MovRI(3, z)];
    assert ExprCode(map[], frames, h, e, 2)
           == [MovRI(2, x), MovRI(4, y), Alu(Mul, 1, 2, 4)] + [MovRI(3, z)] + [Alu(Ge, 2, 1, 3)];
    assert FindVar(frames, "r") == None by {
      assert Front(frames) == [];
    }
    assert ValueCode(true, map[], frames, h, e) == ExprCode(map[], frames, h, e, 2);
    assert !ExprErr(map[], frames, mul) && !ExprErr(map[], frames, z1);
    assert StmtCode(true, map[], frames, h, Set("r", e, false), 0, 0, 0) == ProductCode(x, y, z);
  }

  lemma OneStatement(item: Item, code: seq<Op>)
    requires FineItem(FRESH, item, 0, code)
    ensures !ItemsErr(FRESH, Cons(item, Nil), 0) && Generated(Cons(item, Nil)) == code + [Halt]
  {
    hide ItemsCode, FineItem, Examples.Fine, AfterItem, Generated, ItemsErr;
    var u := AfterItem(FRESH, item, 0);
    FineNil(u, |code|);
    FineCons(FRESH, item, Nil, 0, code, u, |code|, []);
    assert code + [] == code;
    FineProgram(Cons(item, Nil), code);
  }

  lemma ProductGenerated(x: I64, y: I64, z: I64)
    ensures !ItemsErr(FRESH, Product(x, y, z), 0) && Generated(Product(x, y, z)) == ProductCode(x, y, z) + [Halt]
  {
    hide FineItem, Generated, ItemsErr;
    ProductFine(x, y, z);
    OneStatement(Product(x, y, z).head, ProductCode(x, y, z));
  }

  /** If the product fits, the low byte of the variable says whether it is at least z; if it does not, the run
      is undefined there. */
  lemma ProductRuns(x: I64, y: I64, z: I64) returns (t: State)
    ensures !ItemsErr(FRESH, Product(x, y, z), 0) && Reaches(Generated(Product(x, y, z)), Start(), t)
    ensures Fits(x * y) ==>
              && Step(Generated(Product(x, y, z)), t) == Halted
              && |t.frames| == 1 && |t.frames[0].locals| == 64
              && t.frames[0].locals[0] % 256 == if x * y >= z then 1 else 0
    ensures !Fits(x * y) ==> Step(Generated(Product(x, y, z)), t) == Stuck
  {
    hide Reaches, ItemsErr, Generated;
    ProductGenerated(x, y, z);
    var p, s0 := ProductCode(x, y, z) + [Halt], Start();
    ReachRefl(p, s0);
    var s1 := Put(s0, 2, x);
    Going(p, s0, s0, s1);
    t := Put(s1, 4, y);
    Going(p, s0, s1, t);
    MulStep(p, t, 1, 2, 4);
    if Fits(x * y) {
      var s3 := Leaves(t, 1, x * y);
      Going(p, s0, t, s3);
      var s4 := Put(s3, 3, z);
      Going(p, s0, s3, s4);
      var s5 := CompareStep(p, s4, Ge, 2, 1, 3);
      Going(p, s0, s4, s5);
      t := WriteLocal(s5, 0, 0, s5.regs[2]);
      Going(p, s0, s5, t);
    }
  }

  /** r = -x */
  function Negative(x: I64): List<Item> {
    Cons(Do(Set("r", Neg(Num(x)), false)), Nil)
  }

  function NegativeCode(x: I64): seq<Op> {
    [MovRI(1, x), MovRI(2, 0), Alu(Sub, 2, 2, 1), LocalSet(0, 0, 2)]
  }

  /** r = true, r = false */
  function Truth(b: bool): List<Item> {
    Cons(Do(Set("r", Bool(b), false)), Nil)
  }

  function TruthCode(b: bool): seq<Op> {
    [MovRI(1, if b then 1 else 0), LocalSet(0, 0, 1)]
  }

  lemma NegativeFine(x: I64)
    ensures FineItem(FRESH, Negative(x).head, 0, NegativeCode(x))
  {
    hide FirstFree, Alloc;
    Allocs();
    var frames: Frames, h: Held := [FRESH.glob], {0};
    var l: Expr := Num(x);
    var e := Neg(l);
    assert Hold(h, 1) == {0, 1} && Hold({0}, 2) == {0, 2};
    assert Res(h, l) == 1 && Res(h, e) == 2 && !ExprErr(map[], frames, l);
    assert ExprCode(map[], frames, h, l, 1) == [MovRI(1, x)];
    assert FindVar(frames, "r") == None by {
      assert Front(frames) == [];
    }
    assert ExprCode(map[], frames, h, e, 2) == [MovRI(1, x)] + [MovRI(2, 0), Alu(Sub, 2, 2, 1)];
    assert ValueCode(true, map[], frames, h, e) == ExprCode(map[], frames, h, e, 2);
    assert StmtCode(true, map[], frames, h, Set("r", e, false), 0, 0, 0) == NegativeCode(x);
  }

  lemma TruthFine(b: bool)
    ensures FineItem(FRESH, Truth(b).head, 0, TruthCode(b))
  {
    hide FirstFree, Alloc;
    Allocs();
    var frames: Frames, h: Held := [FRESH.glob], {0};
    assert Res(h, Bool(b)) == 1 && Hold(h, 1) == {0, 1};
    assert FindVar(frames, "r") == None by {
      assert Front(frames) == [];
    }
    assert ExprCode(map[], frames, h, Bool(b), 1) == [MovRI(1, if b then 1 else 0)];
    assert ValueCode(true, map[], frames, h, Bool(b)) == ExprCode(map[], frames, h, Bool(b), 1);
    assert StmtCode(true, map[], frames, h, Set("r", Bool(b), false), 0, 0, 0) == TruthCode(b);
  }

  /** The minus: every number but the smallest ends as its negative. */
  lemma NegativeRuns(x: I64) returns (t: State)
    ensures !ItemsErr(FRESH, Negative(x), 0) && Reaches(Generated(Negative(x)), Start(), t)
    ensures x != -0x8000_0000_0000_0000 ==>
              && Step(Generated(Negative(x)), t) == Halted
              && |t.frames| == 1 && |t.frames[0].locals| == 64 && t.frames[0].locals[0] == -x
    ensures x == -0x8000_0000_0000_0000 ==> Step(Generated(Negative(x)), t) == Stuck
  {
    hide Reaches, ItemsErr, Generated;
    NegativeFine(x);
    OneStatement(Negative(x).head, NegativeCode(x));
    var p, s0 := NegativeCode(x) + [Halt], Start();
    ReachRefl(p, s0);
    var s1 := Put(s0, 1, x);
    Going(p, s0, s0, s1);
    t := Put(s1, 2, 0);
    Going(p, s0, s1, t);
    SubStep(p, t, 2, 2, 1);
    if Fits(0 - x) {
      var s3 := Leaves(t, 2, 0 - x);
      Going(p, s0, t, s3);
      t := WriteLocal(s3, 0, 0, s3.regs[2]);
      Going(p, s0, s3, t);
    }
  }

  /** A truth value ends as 1 or 0. */
  lemma TruthRuns(b: bool) returns (t: State)
    ensures !ItemsErr(FRESH, Truth(b), 0) && Reaches(Generated(Truth(b)), Start(), t)
    ensures Step(Generated(Truth(b)), t) == Halted
    ensures |t.frames| == 1 && |t.frames[0].locals| == 64 && t.frames[0].locals[0] == if b then 1 else 0
  {
    hide Reaches, ItemsErr, Generated;
    TruthFine(b);
    OneStatement(Truth(b).head, TruthCode(b));
    var p, s0 := TruthCode(b) + [Halt], Start();
    ReachRefl(p, s0);
    var s1 := Put(s0, 1, if b then 1 else 0);
    Going(p, s0, s0, s1);
    t := WriteLocal(s1, 0, 0, s1.regs[1]);
    Going(p, s0, s1, t);
  }
}
