/** Instructions as the bytes the emitter writes and the machine reads. */
module Bytes {
  import opened Words
  import opened Machine

  type Byte = n: nat | n < 256

  const TWO64: nat := 0x1_0000_0000_0000_0000

  // ----- little-endian numbers -----

  function Pow256(k: nat): (r: nat)
    ensures r > 0
  {
    if k == 0 then 1 else 256 * Pow256(k - 1)
  }

  function Little(n: nat, k: nat): (bs: seq<Byte>)
    ensures |bs| == k
    decreases k
  {
    if k == 0 then [] else [n % 256] + Little(n / 256, k - 1)
  }

  function Value(bs: seq<Byte>): nat {
    if bs == [] then 0 else bs[0] + 256 * Value(bs[1..])
  }

  lemma {:induction false} ValueLittle(n: nat, k: nat)
    requires n < Pow256(k)
    ensures Value(Little(n, k)) == n
    decreases k
  {
    if k > 0 {
      ValueLittle(n / 256, k - 1);
      assert Little(n, k)[1..] == Little(n / 256, k - 1);
    }
  }

  lemma {:induction false} LittleValue(bs: seq<Byte>)
    ensures Value(bs) < Pow256(|bs|) && Little(Value(bs), |bs|) == bs
  {
    if bs != [] {
      LittleValue(bs[1..]);
      assert bs == [bs[0]] + bs[1..];
    }
  }

  lemma Widths()
    ensures Pow256(2) == 65536 && Pow256(8) == TWO64
  {
    assert Pow256(4) == 0x1_0000_0000;
    assert Pow256(6) == 65536 * Pow256(4);
    assert Pow256(8) == 65536 * Pow256(6);
  }

  /** Two's complement. */
  function Unsigned(n: int): nat
    requires InI64(n)
  {
    if n < 0 then n + TWO64 else n
  }

  function Signed(u: nat): (n: int)
    ensures u < TWO64 ==> InI64(n) && Unsigned(n) == u
  {
    if u >= I64_BOUND then u - TWO64 else u
  }

  // ----- instructions -----

  const OPERANDS: nat := 12

  datatype RawOp = RawOp(code: Byte, operands: seq<Byte>)

  type Raw = r: RawOp | |r.operands| == OPERANDS witness RawOp(0, [0, 0, 0, 0, 0, 0, 0, 0, 0, 0, 0, 0])

  const HALT_CODE: Byte := 14

  function Opcode(op: Op): Byte {
    match op
    case MovRI(_, _) => 0
    case MovRR(_, _) => 2
    case Alu(o, _, _, _) => OperCode(o)
    case Halt => HALT_CODE
    case FCall(_, _) => 15
    case FRet => 16
    case Jmp(_) => 18
    case IfTrue(_, _) => 25
    case IfFalse(_, _) => 26
    case FuncCreate => 27
    case FuncEnd => 28
    case LocalGet(_, _, _) => 29
    case LocalSet(_, _, _) => 30
    case Dec(_) => 34
  }

  function OperCode(o: Oper): Byte {
    match o
    case Add => 8
    case Sub => 9
    case Mul => 10
    case Div => 11
    case Mod => 12
    case Pow => 13
    case Ge => 19
    case Lt => 20
    case Le => 21
    case Gt => 22
    case Eq => 23
    case Ne => 24
    case And => 31
    case Or => 32
  }

  function OperOf(code: Byte): Option<Oper> {
    match code
    case 8 => Some(Add)
    case 9 => Some(Sub)
    case 10 => Some(Mul)
    case 11 => Some(Div)
    case 12 => Some(Mod)
    case 13 => Some(Pow)
    case 19 => Some(Ge)
    case 20 => Some(Lt)
    case 21 => Some(Le)
    case 22 => Some(Gt)
    case 23 => Some(Eq)
    case 24 => Some(Ne)
    case 31 => Some(And)
    case 32 => Some(Or)
    case _ => None
  }

  /** The number of operand bytes a file holds for an opcode; 0 for a byte that is no opcode. */
  function OpcodeLen(code: Byte): (len: nat)
    ensures len <= 10
  {
    match code
    case 0 => 9
    case 1 => 3
    case 2 => 2
    case 3 => 9
    case 4 => 10
    case 5 => 4
    case 6 => 3
    case 7 => 10
    case 15 => 9
    case 17 => 9
    case 18 => 8
    case 25 => 9
    case 26 => 9
    case 29 => 4
    case 30 => 4
    case 33 => 2
    case 34 => 1
    case _ => if 8 <= code <= 13 then 4 else if 19 <= code <= 24 || code == 31 || code == 32 then 3 else 0
  }

  /** Every operand fits the field it is written to. */
  predicate Encodable(op: Op) {
    match op
    case MovRI(d, imm) => d < 256 && InI64(imm)
    case MovRR(d, r) => d < 256 && r < 256
    case Alu(_, d, a, b) => d < 256 && a < 256 && b < 256
    case FCall(t, argc) => t < TWO64 && argc < 256
    case Jmp(t) => t < TWO64
    case IfTrue(r, t) => r < 256 && t < TWO64
    case IfFalse(r, t) => r < 256 && t < TWO64
    case LocalGet(d, depth, slot) => d < 256 && depth < 256 && slot < 65536
    case LocalSet(depth, slot, r) => depth < 256 && slot < 65536 && r < 256
    case Dec(d) => d < 256
    case _ => true
  }

  function OperandBytes(op: Op): (bs: seq<Byte>)
    requires Encodable(op)
    ensures |bs| <= OpcodeLen(Opcode(op))
  {
    match op
    case MovRI(d, imm) => [d] + Little(Unsigned(imm), 8)
    case MovRR(d, r) => [d, r]
    case Alu(_, d, a, b) => [d, a, b]
    case FCall(t, argc) => Little(t, 8) + [argc]
    case Jmp(t) => Little(t, 8)
    case IfTrue(r, t) => [r] + Little(t, 8)
    case IfFalse(r, t) => [r] + Little(t, 8)
    case LocalGet(d, depth, slot) => [d, depth] + Little(slot, 2)
    case LocalSet(depth, slot, r) => [depth] + Little(slot, 2) + [r]
    case Dec(d) => [d]
    case _ => []
  }

  function ZeroBytes(n: nat): (bs: seq<Byte>)
    ensures |bs| == n && forall i :: 0 <= i < n ==> bs[i] == 0
  {
    seq(n, i => 0)
  }

  /** An instruction object starts with all operands zero; the emitter fills in a prefix. */
  function Encode(op: Op): Raw
    requires Encodable(op)
  {
    RawOp(Opcode(op), OperandBytes(op) + ZeroBytes(OPERANDS - |OperandBytes(op)|))
  }

  /** What the machine reads. None: an opcode outside this model. */
  function Decode(r: Raw): Option<Op> {
    var o := r.operands;
    match r.code
    case 0 => Some(MovRI(o[0], Signed(Value(o[1..9]))))
    case 2 => Some(MovRR(o[0], o[1]))
    case 14 => Some(Halt)
    case 15 => Some(FCall(Value(o[0..8]), o[8]))
    case 16 => Some(FRet)
    case 18 => Some(Jmp(Value(o[0..8])))
    case 25 => Some(IfTrue(o[0], Value(o[1..9])))
    case 26 => Some(IfFalse(o[0], Value(o[1..9])))
    case 27 => Some(FuncCreate)
    case 28 => Some(FuncEnd)
    case 29 => Some(LocalGet(o[0], o[1], Value(o[2..4])))
    case 30 => Some(LocalSet(o[0], Value(o[1..3]), o[3]))
    case 34 => Some(Dec(o[0]))
    case _ =>
      match OperOf(r.code)
      case Some(op) => Some(Alu(op, o[0], o[1], o[2]))
      case None => None
  }

  // ----- the machine reads what the emitter wrote -----

  lemma DecodeEncode(op: Op)
    requires Encodable(op)
    ensures Decode(Encode(op)) == Some(op)
  {
    hide Little, Value, Pow256, Unsigned;
    Widths();
    var o := Encode(op).operands;
    match op
    case MovRI(_, imm) =>
      SignedUnsigned(imm);
      ValueLittle(Unsigned(imm), 8);
      assert o[1..9] == Little(Unsigned(imm), 8);
    case FCall(t, _) =>
      ValueLittle(t, 8);
      assert o[0..8] == Little(t, 8);
    case Jmp(t) =>
      ValueLittle(t, 8);
      assert o[0..8] == Little(t, 8);
    case IfTrue(_, t) =>
      ValueLittle(t, 8);
      assert o[1..9] == Little(t, 8);
    case IfFalse(_, t) =>
      ValueLittle(t, 8);
      assert o[1..9] == Little(t, 8);
    case LocalGet(_, _, slot) =>
      ValueLittle(slot, 2);
      assert o[2..4] == Little(slot, 2);
    case LocalSet(_, slot, _) =>
      ValueLittle(slot, 2);
      assert o[1..3] == Little(slot, 2);
    case _ =>
  }

  lemma SignedUnsigned(n: int)
    requires InI64(n)
    ensures Signed(Unsigned(n)) == n && Unsigned(n) < TWO64
  {
  }

  /** The same opcode and the same operand bytes below the length of the opcode. */
  predicate Alike(r: Raw, q: Raw) {
    r.code == q.code && r.operands[..OpcodeLen(r.code)] == q.operands[..OpcodeLen(r.code)]
  }

  /** No operand byte at or past the length of the opcode is read. */
  lemma DecodeAlike(r: Raw, q: Raw)
    requires Alike(r, q)
    ensures Decode(r) == Decode(q)
  {
    hide Value, Signed;
    var len := OpcodeLen(r.code);
    var a, b := r.operands, q.operands;
    forall i | 0 <= i < len
      ensures a[i] == b[i]
    {
      assert a[..len][i] == b[..len][i];
    }
    assert len >= 9 ==> a[0..8] == b[0..8] && a[1..9] == b[1..9];
    assert len >= 8 ==> a[0..8] == b[0..8];
    assert len >= 4 ==> a[1..3] == b[1..3] && a[2..4] == b[2..4];
  }

  // ----- programs -----

  predicate AllEncodable(p: seq<Op>) {
    forall i :: 0 <= i < |p| ==> Encodable(p[i])
  }

  function EncodeAll(p: seq<Op>): (q: seq<Raw>)
    requires AllEncodable(p)
    ensures |q| == |p|
  {
    seq(|p|, i requires 0 <= i < |p| => Encode(p[i]))
  }

  predicate AllDecodable(q: seq<Raw>) {
    forall i :: 0 <= i < |q| ==> Decode(q[i]).Some?
  }

  /** The program as the machine fetches it. */
  function Fetch(q: seq<Raw>): (p: seq<Op>)
    requires AllDecodable(q)
    ensures |p| == |q|
  {
    seq(|q|, i requires 0 <= i < |q| => Decode(q[i]).value)
  }

  /** The byte-level program is the structured one. */
  lemma FetchEncode(p: seq<Op>)
    requires AllEncodable(p)
    ensures AllDecodable(EncodeAll(p)) && Fetch(EncodeAll(p)) == p
  {
    hide Encode, Decode;
    forall i | 0 <= i < |p|
      ensures Decode(EncodeAll(p)[i]) == Some(p[i])
    {
      DecodeEncode(p[i]);
    }
  }

  predicate AllAlike(p: seq<Raw>, q: seq<Raw>) {
    |p| == |q| && forall i :: 0 <= i < |p| ==> Alike(p[i], q[i])
  }

  /** Programs that agree on the bytes that are read have the same runs. */
  lemma AlikeRuns(p: seq<Raw>, q: seq<Raw>, s: State, k: nat)
    requires AllAlike(p, q) && AllDecodable(p)
    ensures AllDecodable(q) && Steps(Fetch(p), s, k) == Steps(Fetch(q), s, k)
  {
    hide Decode, Alike;
    forall i | 0 <= i < |p|
      ensures Decode(p[i]) == Decode(q[i])
    {
      DecodeAlike(p[i], q[i]);
    }
    assert Fetch(p) == Fetch(q);
  }
}
