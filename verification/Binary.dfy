/** The `.lmc` file: how it is written and how it is loaded. */
module Binary {
  import opened Words
  import opened Machine
  import opened Bytes

  const MAGIC: nat := 0x4d4c5451
  const VERSION: nat := 1
  const HEADER_LEN: nat := 8

  const HALT_RAW: Raw := RawOp(HALT_CODE, ZeroBytes(OPERANDS))

  /** Magic number and version, four little-endian bytes each. */
  function Header(): (bs: seq<Byte>)
    ensures |bs| == HEADER_LEN
  {
    Little(MAGIC, 4) + Little(VERSION, 4)
  }

  // ----- writing -----

  /** One instruction: the opcode and as many operand bytes as the opcode has. */
  function OpBytes(r: Raw): (bs: seq<Byte>)
    ensures |bs| == 1 + OpcodeLen(r.code)
  {
    [r.code] + r.operands[..OpcodeLen(r.code)]
  }

  function Serialized(ops: seq<Raw>): seq<Byte> {
    if ops == [] then [] else OpBytes(ops[0]) + Serialized(ops[1..])
  }

  /** The instruction list as `get_ops` hands it out, with a HALT at its end. */
  function WithHalt(ops: seq<Raw>): seq<Raw> {
    if ops != [] && Last(ops).code == HALT_CODE then ops else ops + [HALT_RAW]
  }

  function FileOf(ops: seq<Raw>, pool: seq<Byte>): seq<Byte> {
    Header() + Serialized(ops) + pool
  }

  lemma {:induction false} SerializedConcat(a: seq<Raw>, b: seq<Raw>)
    ensures Serialized(a + b) == Serialized(a) + Serialized(b)
  {
    hide OpBytes;
    if a == [] {
      assert a + b == b;
    } else {
      SerializedConcat(a[1..], b);
      assert (a + b)[1..] == a[1..] + b && (a + b)[0] == a[0];
      assert OpBytes(a[0]) + (Serialized(a[1..]) + Serialized(b)) == OpBytes(a[0]) + Serialized(a[1..]) + Serialized(b);
    }
  }

  /** The generator's side of the file format. */
  class BinaryWriter {
    var ops: seq<Raw>
    var pool: seq<Byte>

    constructor (ops: seq<Raw>, pool: seq<Byte>)
      ensures this.ops == ops && this.pool == pool
    {
      this.ops, this.pool := ops, pool;
    }

    method GetOps()
      modifies `ops
      ensures ops == WithHalt(old(ops))
    {
      if ops == [] || Last(ops).code != HALT_CODE {
        ops := ops + [HALT_RAW];
      }
    }

    method WriteFile() returns (file: seq<Byte>)
      modifies `ops
      ensures ops == WithHalt(old(ops)) && file == FileOf(ops, pool)
    {
      GetOps();
      file := Header();
      var i := 0;
      assert ops[..0] == [];
      while i < |ops|
        invariant 0 <= i <= |ops|
        invariant ops == WithHalt(old(ops)) && file == Header() + Serialized(ops[..i])
      {
        assert ops[..i + 1] == ops[..i] + [ops[i]];
        SerializedConcat(ops[..i], [ops[i]]);
        assert Serialized([ops[i]]) == OpBytes(ops[i]) + Serialized([ops[i]][1..]);
        file := file + [ops[i].code] + ops[i].operands[..OpcodeLen(ops[i].code)];
        i := i + 1;
      }
      assert ops[..|ops|] == ops;
      file := file + pool;
    }
  }

  // ----- loading -----

  /** Operand bytes that are not in the file read as zero. */
  function Padded(code: Byte, operands: seq<Byte>): Raw
    requires |operands| == OpcodeLen(code)
  {
    RawOp(code, operands + ZeroBytes(OPERANDS - |operands|))
  }

  function ZeroTail(r: Raw): Raw {
    Padded(r.code, r.operands[..OpcodeLen(r.code)])
  }

  function ZeroTails(ops: seq<Raw>): (r: seq<Raw>)
    ensures |r| == |ops|
  {
    seq(|ops|, i requires 0 <= i < |ops| => ZeroTail(ops[i]))
  }

  /** The instructions up to and including the first HALT, and where the data begins. None: the file
      ends before a HALT, and the loader, whose reads then fail, never stops. */
  function ReadOps(file: seq<Byte>, pos: nat): (r: Option<(seq<Raw>, nat)>)
    ensures r.Some? ==> pos < r.value.1 <= |file|
    decreases |file| - pos
  {
    if pos >= |file| then None
    else
      var code := file[pos];
      var end := pos + 1 + OpcodeLen(code);
      if end > |file| then None
      else
        var op := Padded(code, file[pos + 1..end]);
        if code == HALT_CODE then Some(([op], end))
        else
          match ReadOps(file, end)
          case Some((ops, n)) => Some(([op] + ops, n))
          case None => None
  }

  /** A file with a good header from which these instructions and this data are loaded. */
  predicate Loads(file: seq<Byte>, ops: seq<Raw>, data: seq<Byte>) {
    && Header() <= file
    && match ReadOps(file, HEADER_LEN)
       case Some((all, n)) => all == ops && file[n..] == data
       case None => false
  }

  /** What is compared with the header: the first eight bytes. The buffer they are read into is zero at
      first, and a shorter file leaves the rest of it so. */
  function Head(file: seq<Byte>): (head: seq<Byte>)
    ensures |head| == HEADER_LEN
  {
    if |file| < HEADER_LEN then file + ZeroBytes(HEADER_LEN - |file|) else file[..HEADER_LEN]
  }

  predicate GoodHead(file: seq<Byte>) {
    Head(file) == Header()
  }

  datatype LoadOutcome = Loaded | BadHeader | Endless

  /** The machine's side of the file format; a cursor moves over the file. */
  class BinaryLoader {
    const file: seq<Byte>
    var pos: nat
    var ops: seq<Raw>
    var data: seq<Byte>

    constructor (file: seq<Byte>)
      ensures this.file == file && pos == 0 && ops == [] && data == []
    {
      this.file, pos, ops, data := file, 0, [], [];
    }

    method CheckHead() returns (ok: bool)
      modifies `pos
      ensures ok == GoodHead(file)
      ensures pos == if |file| < HEADER_LEN then |file| else HEADER_LEN
    {
      var head := Head(file);
      HeaderIs(head);
      pos := if |file| < HEADER_LEN then |file| else HEADER_LEN;
      return Value(head[0..4]) == MAGIC && Value(head[4..8]) == VERSION;
    }

    method Load() returns (r: LoadOutcome)
      requires ops == []
      modifies this
      ensures r == BadHeader <==> !GoodHead(file)
      ensures r == Loaded ==> Loads(file, ops, data)
      ensures r == Endless <==> GoodHead(file) && ReadOps(file, HEADER_LEN) == None
    {
      hide ReadOps, Header, ZeroBytes;
      var ok := CheckHead();
      if !ok {
        return BadHeader;
      }
      NoneYet(ReadOps(file, HEADER_LEN));
      if |file| < HEADER_LEN {
        ReadOne(file, |file|, []);
        PastEnd(file);
      }
      while true
        invariant pos <= |file| && ReadOps(file, HEADER_LEN) == Prepend(ops, ReadOps(file, pos))
        decreases |file| - pos
      {
        ReadOne(file, pos, ops);
        if pos == |file| {
          return Endless;
        }
        var code := file[pos];
        var end := pos + 1 + OpcodeLen(code);
        if end > |file| {
          return Endless;
        }
        ops := ops + [Padded(code, file[pos + 1..end])];
        pos := end;
        if code == HALT_CODE {
          data := file[pos..];
          return Loaded;
        }
      }
    }
  }

  /** The instructions read already, in front of those still to be read. */
  function Prepend(ops: seq<Raw>, r: Option<(seq<Raw>, nat)>): Option<(seq<Raw>, nat)> {
    match r
    case Some((more, n)) => Some((ops + more, n))
    case None => None
  }

  lemma NoneYet(r: Option<(seq<Raw>, nat)>)
    ensures Prepend([], r) == r
  {
    if r.Some? {
      assert [] + r.value.0 == r.value.0;
    }
  }

  lemma ReadOne(file: seq<Byte>, pos: nat, ops: seq<Raw>)
    requires pos <= |file|
    ensures if pos == |file| || pos + 1 + OpcodeLen(file[pos]) > |file| then ReadOps(file, pos) == None
            else
              var code, end := file[pos], pos + 1 + OpcodeLen(file[pos]);
              Prepend(ops, ReadOps(file, pos))
              == if code == HALT_CODE then Some((ops + [Padded(code, file[pos + 1..end])], end))
                 else Prepend(ops + [Padded(code, file[pos + 1..end])], ReadOps(file, end))
  {
    hide Padded, OpcodeLen;
    if pos < |file| && pos + 1 + OpcodeLen(file[pos]) <= |file| && file[pos] != HALT_CODE {
      var end := pos + 1 + OpcodeLen(file[pos]);
      var op := Padded(file[pos], file[pos + 1..end]);
      if ReadOps(file, end).Some? {
        var more := ReadOps(file, end).value.0;
        assert ops + ([op] + more) == ops + [op] + more;
      }
    }
  }

  lemma PastEnd(file: seq<Byte>)
    requires |file| < HEADER_LEN
    ensures ReadOps(file, HEADER_LEN) == None
  {
  }

  /** The magic number and a 1, and nothing else: the header passes and the loader never stops. */
  lemma ShortFile()
    ensures var file := Little(MAGIC, 4) + [1];
            |file| == 5 && GoodHead(file) && ReadOps(file, HEADER_LEN) == None
  {
    hide ReadOps;
    var file := Little(MAGIC, 4) + [1];
    PastEnd(file);
    assert Little(VERSION, 4) == [1, 0, 0, 0] by {
      VersionBytes();
    }
    assert Head(file) == file + [0, 0, 0];
  }

  lemma VersionBytes()
    ensures Little(1, 4) == [1, 0, 0, 0]
  {
    assert Little(0, 0) == [] && Little(0, 1) == [0] && Little(0, 2) == [0, 0] && Little(0, 3) == [0, 0, 0];
  }

  lemma HeaderIs(file: seq<Byte>)
    requires |file| == HEADER_LEN
    ensures (Value(file[0..4]) == MAGIC && Value(file[4..8]) == VERSION) == (file == Header())
  {
    hide Little, Value, Pow256;
    assert Pow256(4) == 0x1_0000_0000 by { Width4(); }
    LittleValue(file[0..4]);
    LittleValue(file[4..8]);
    ValueLittle(MAGIC, 4);
    ValueLittle(VERSION, 4);
    assert file[..8] == file[0..4] + file[4..8];
    if file == Header() {
      assert file[0..4] == Header()[0..4] == Little(MAGIC, 4);
      assert file[4..8] == Header()[4..8] == Little(VERSION, 4);
    }
  }

  lemma Width4()
    ensures Pow256(4) == 0x1_0000_0000
  {
  }

  // ----- round trip -----

  predicate NoHalt(ops: seq<Raw>) {
    forall i :: 0 <= i < |ops| ==> ops[i].code != HALT_CODE
  }

  /** One instruction in a written file, read back. */
  lemma ReadNext(pre: seq<Byte>, r: Raw, tail: seq<Byte>)
    ensures var file, end := pre + OpBytes(r) + tail, |pre + OpBytes(r)|;
            ReadOps(file, |pre|) == if r.code == HALT_CODE then Some(([ZeroTail(r)], end))
                                    else Prepend([ZeroTail(r)], ReadOps(file, end))
  {
    hide ZeroBytes;
    var file, len := pre + OpBytes(r) + tail, OpcodeLen(r.code);
    assert file[|pre|] == r.code;
    assert file[|pre| + 1..|pre| + 1 + len] == OpBytes(r)[1..] == r.operands[..len];
  }

  lemma PrependSome(ops: seq<Raw>, more: seq<Raw>, n: nat)
    ensures Prepend(ops, Some((more, n))) == Some((ops + more, n))
  {
  }

  /** What the loader finds in a written file: the instructions up to the first HALT, then data. */
  lemma {:induction false} ReadBack(pre: seq<Byte>, ops: seq<Raw>, halt: Raw, post: seq<Byte>)
    requires NoHalt(ops) && halt.code == HALT_CODE
    ensures ReadOps(pre + Serialized(ops + [halt]) + post, |pre|)
            == Some((ZeroTails(ops + [halt]), |pre| + |Serialized(ops + [halt])|))
    decreases |ops|
  {
    hide ReadOps, OpBytes, ZeroTail, Prepend;
    var all := ops + [halt];
    var file := pre + Serialized(all) + post;
    var r := all[0];
    assert file == pre + OpBytes(r) + (Serialized(all[1..]) + post);
    ReadNext(pre, r, Serialized(all[1..]) + post);
    if ops == [] {
      assert all[1..] == [];
      assert ZeroTails(all) == [ZeroTail(r)];
    } else {
      assert all[1..] == ops[1..] + [halt];
      ReadBack(pre + OpBytes(r), ops[1..], halt, post);
      assert file == pre + OpBytes(r) + Serialized(ops[1..] + [halt]) + post;
      assert ZeroTails(all) == [ZeroTail(r)] + ZeroTails(all[1..]);
      PrependSome([ZeroTail(r)], ZeroTails(all[1..]), |pre + OpBytes(r)| + |Serialized(all[1..])|);
    }
  }

  /** Loading what was written yields the instructions through the first HALT, their unused operand
      bytes zero, and a data tail made of the remaining instructions and the pool. */
  lemma FileRoundTrip(ops: seq<Raw>, halt: Raw, rest: seq<Raw>, pool: seq<Byte>)
    requires NoHalt(ops) && halt.code == HALT_CODE
    ensures Loads(FileOf(ops + [halt] + rest, pool), ZeroTails(ops + [halt]), Serialized(rest) + pool)
  {
    hide Serialized, ReadOps, Header, ZeroTails;
    SerializedConcat(ops + [halt], rest);
    ReadBack(Header(), ops, halt, Serialized(rest) + pool);
    assert FileOf(ops + [halt] + rest, pool) == Header() + Serialized(ops + [halt]) + (Serialized(rest) + pool);
  }

  predicate Canonical(ops: seq<Raw>) {
    forall i :: 0 <= i < |ops| ==> ZeroTail(ops[i]) == ops[i]
  }

  /** The round trip is the identity exactly when nothing follows the first HALT and no unused
      operand byte is set. */
  lemma FileIdentity(ops: seq<Raw>, halt: Raw, rest: seq<Raw>, pool: seq<Byte>)
    requires NoHalt(ops) && halt.code == HALT_CODE
    ensures var all := ops + [halt] + rest;
            Loads(FileOf(all, pool), all, pool) <==> rest == [] && Canonical(all)
  {
    hide Serialized, ReadOps, FileOf, ZeroTail;
    FileRoundTrip(ops, halt, rest, pool);
    var all := ops + [halt] + rest;
    assert Serialized([]) == [] by { SerializedNil(); }
    assert [] + pool == pool;
    if rest == [] {
      assert all == ops + [halt];
      if Canonical(all) {
        assert ZeroTails(all) == all;
      } else {
        var i :| 0 <= i < |all| && ZeroTail(all[i]) != all[i];
        assert ZeroTails(all)[i] != all[i];
      }
    } else {
      assert |ZeroTails(ops + [halt])| != |all|;
    }
  }

  lemma SerializedNil()
    ensures Serialized([]) == []
  {
  }

  /** Running a file from source appends a second HALT before the file is written. Its opcode byte
      ends up in front of the pool, so every pool offset is one too small. */
  lemma SecondHalt(ops: seq<Raw>, pool: seq<Byte>)
    requires NoHalt(ops)
    ensures Loads(FileOf(ops + [HALT_RAW] + [HALT_RAW], pool), ZeroTails(ops + [HALT_RAW]), [HALT_CODE] + pool)
  {
    hide Serialized, ReadOps, FileOf;
    FileRoundTrip(ops, HALT_RAW, [HALT_RAW], pool);
    assert Serialized([HALT_RAW]) == [HALT_CODE] by { OneHalt(); }
  }

  lemma OneHalt()
    ensures Serialized([HALT_RAW]) == [HALT_CODE]
  {
    assert [HALT_RAW][1..] == [];
    assert OpBytes(HALT_RAW) == [HALT_CODE];
  }

  /** What the emitter writes is canonical, so a compiled program comes back as it was written. */
  lemma EncodedCanonical(p: seq<Op>)
    requires AllEncodable(p)
    ensures Canonical(EncodeAll(p))
  {
    forall i | 0 <= i < |p|
      ensures ZeroTail(EncodeAll(p)[i]) == EncodeAll(p)[i]
    {
      EncodeCanonical(p[i]);
    }
  }

  lemma EncodeCanonical(op: Op)
    requires Encodable(op)
    ensures ZeroTail(Encode(op)) == Encode(op)
  {
    hide OperandBytes, Little, Opcode, OpcodeLen;
    var len, bs := OpcodeLen(Opcode(op)), OperandBytes(op);
    assert (bs + ZeroBytes(OPERANDS - |bs|))[..len] + ZeroBytes(OPERANDS - len) == bs + ZeroBytes(OPERANDS - |bs|);
  }
}
