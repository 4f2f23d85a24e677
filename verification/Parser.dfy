/** The recursive-descent parser as it is written: a position that moves over the tokens, loops that
    rebuild the left operand. Each method computes the function of module Grammar. */
module Parsing {
  import opened Words
  import opened Grammar

  /** How a method ends: normally, with a ParserError, or with the out-of-range exception of advance. */
  datatype Status = Fine | Bad | Out

  class Parser {
    const tokens: seq<Token>
    var pos: nat

    constructor (tokens: seq<Token>)
      requires tokens != [] && tokens[|tokens| - 1] == EndTok
      ensures this.tokens == tokens && pos == 0 && Valid()
    {
      this.tokens, pos := tokens, 0;
    }

    /** The token list of the lexer ends in an end of file. */
    predicate Valid()
      reads this
    {
      pos <= |tokens| && tokens != [] && tokens[|tokens| - 1] == EndTok
    }

    ghost function Rest(): seq<Token>
      requires pos <= |tokens|
      reads this
    {
      tokens[pos..]
    }

    /** The outcome of a method that should return `e` or throw, as `spec` says. */
    ghost predicate Yields<T(!new)>(spec: Parsed<T>, st: Status, e: T)
      requires pos <= |tokens|
      reads this
    {
      match spec
      case Ok(value, rest) => st == Fine && e == value && Rest() == rest
      case Err => st == Bad
      case Range => st == Out
    }

    function Current(): (t: Token)
      requires Valid()
      reads this
      ensures t == Cur(Rest())
    {
      if pos >= |tokens| then tokens[|tokens| - 1] else tokens[pos]
    }

    predicate Match(t: Token)
      requires Valid()
      reads this
    {
      Current() == t
    }

    function IsEof(): (b: bool)
      requires Valid()
      reads this
      ensures b == AtEnd(Rest())
    {
      pos >= |tokens| - 1
    }

    method Step() returns (st: Status)
      requires Valid()
      modifies this
      ensures Valid() && pos >= old(pos)
      ensures Yields(Advance(old(Rest())), st, ())
    {
      if pos >= |tokens| {
        return Out;
      }
      assert tokens[pos..][1..] == tokens[pos + 1..];
      pos := pos + 1;
      if Current() == UnknownTok {
        return Bad;
      }
      return Fine;
    }

    predicate AtOp(k: nat)
      requires Valid()
      reads this
    {
      Current().OpTok? && LevelOf(Current().op) == k
    }

    // ----- the levels -----

    method ParseExpr() returns (st: Status, node: Tree)
      requires Valid()
      modifies this
      ensures Valid() && pos >= old(pos)
      ensures Yields(Parse(0, old(Rest())), st, node)
      ensures st == Fine ==> pos > old(pos)
      decreases |tokens| - pos, 9
    {
      hide Advance;
      st, node := ParseLogicalAnd();
      if st != Fine {
        return;
      }
      while AtOp(0)
        invariant Valid() && pos >= old(pos) && st == Fine
        invariant Loop(0, node, Rest()) == Parse(0, old(Rest()))
        decreases |tokens| - pos
      {
        var op := Current().op;
        st := Step();
        if st != Fine {
          return;
        }
        if IsEof() {
          return Bad, node;
        }
        var right;
        st, right := ParseLogicalAnd();
        if st != Fine {
          return;
        }
        if !right.Call? {
          return Bad, node;
        }
        node := Binary(op, node, right);
      }
      if Match(Colon) {
        st := Step();
        if st != Fine {
          return;
        }
        st := ParseType();
      }
    }

    method ParseLogicalAnd() returns (st: Status, node: Tree)
      requires Valid()
      modifies this
      ensures Valid() && pos >= old(pos)
      ensures Yields(Parse(1, old(Rest())), st, node)
      decreases |tokens| - pos, 8
    {
      hide Advance;
      st, node := ParseLogicalOr();
      if st != Fine {
        return;
      }
      while AtOp(1)
        invariant Valid() && pos >= old(pos) && st == Fine
        invariant Loop(1, node, Rest()) == Parse(1, old(Rest()))
        decreases |tokens| - pos
      {
        var op := Current().op;
        st := Step();
        if st != Fine {
          return;
        }
        if IsEof() {
          return Bad, node;
        }
        var right;
        st, right := ParseLogicalOr();
        if st != Fine {
          return;
        }
        node := Binary(op, node, right);
      }
    }

    method ParseLogicalOr() returns (st: Status, node: Tree)
      requires Valid()
      modifies this
      ensures Valid() && pos >= old(pos)
      ensures Yields(Parse(2, old(Rest())), st, node)
      decreases |tokens| - pos, 7
    {
      hide Advance;
      st, node := ParseRelational();
      if st != Fine {
        return;
      }
      while AtOp(2)
        invariant Valid() && pos >= old(pos) && st == Fine
        invariant Loop(2, node, Rest()) == Parse(2, old(Rest()))
        decreases |tokens| - pos
      {
        var op := Current().op;
        st := Step();
        if st != Fine {
          return;
        }
        if IsEof() {
          return Bad, node;
        }
        var right;
        st, right := ParseRelational();
        if st != Fine {
          return;
        }
        node := Binary(op, node, right);
      }
    }

    method ParseRelational() returns (st: Status, node: Tree)
      requires Valid()
      modifies this
      ensures Valid() && pos >= old(pos)
      ensures Yields(Parse(3, old(Rest())), st, node)
      decreases |tokens| - pos, 6
    {
      hide Advance;
      st, node := ParseSum();
      if st != Fine {
        return;
      }
      while AtOp(3)
        invariant Valid() && pos >= old(pos) && st == Fine
        invariant Loop(3, node, Rest()) == Parse(3, old(Rest()))
        decreases |tokens| - pos
      {
        var op := Current().op;
        st := Step();
        if st != Fine {
          return;
        }
        if IsEof() {
          return Bad, node;
        }
        var right;
        st, right := ParseExpr();
        if st != Fine {
          return;
        }
        node := Binary(op, node, right);
      }
    }

    method ParseSum() returns (st: Status, node: Tree)
      requires Valid()
      modifies this
      ensures Valid() && pos >= old(pos)
      ensures Yields(Parse(4, old(Rest())), st, node)
      decreases |tokens| - pos, 5
    {
      hide Advance;
      st, node := ParseTerm();
      if st != Fine {
        return;
      }
      while AtOp(4)
        invariant Valid() && pos >= old(pos) && st == Fine
        invariant Loop(4, node, Rest()) == Parse(4, old(Rest()))
        decreases |tokens| - pos
      {
        var op := Current().op;
        st := Step();
        if st != Fine {
          return;
        }
        if IsEof() {
          return Bad, node;
        }
        var right;
        st, right := ParseTerm();
        if st != Fine {
          return;
        }
        node := Binary(op, node, right);
      }
    }

    method ParseTerm() returns (st: Status, node: Tree)
      requires Valid()
      modifies this
      ensures Valid() && pos >= old(pos)
      ensures Yields(Parse(5, old(Rest())), st, node)
      decreases |tokens| - pos, 4
    {
      hide Advance;
      st, node := ParseFactor();
      if st != Fine {
        return;
      }
      while AtOp(5)
        invariant Valid() && pos >= old(pos) && st == Fine
        invariant Loop(5, node, Rest()) == Parse(5, old(Rest()))
        decreases |tokens| - pos
      {
        var op := Current().op;
        st := Step();
        if st != Fine {
          return;
        }
        if IsEof() {
          return Bad, node;
        }
        var right;
        st, right := ParseFactor();
        if st != Fine {
          return;
        }
        node := Binary(op, node, right);
      }
    }

    // ----- factors -----

    method ParseFactor() returns (st: Status, fact: Tree)
      requires Valid()
      modifies this
      ensures Valid() && pos >= old(pos)
      ensures Yields(Parse(FACTOR, old(Rest())), st, fact)
      decreases |tokens| - pos, 3
    {
      assert Parse(FACTOR, Rest()) == Factor(Rest());
      fact := Missing;
      var t := Current();
      match t
      case NumTok(text) =>
        fact := Number(text);
        st := Step();
      case TrueTok =>
        fact := Truth(true);
        st := Step();
      case FalseTok =>
        fact := Truth(false);
        st := Step();
      case StrTok(text) =>
        fact := Text(text);
        st := Step();
      case EndTok =>
        st := Step();
      case LParen =>
        st := Step();
        if st == Fine {
          st, fact := ParseExpr();
          if st == Fine {
            if Match(RParen) {
              st := Step();
            } else {
              st := Bad;
            }
          }
        }
      case OpTok(op) =>
        if op != Infix(Sub) {
          return Bad, fact;
        }
        st := Step();
        if st == Fine {
          var e;
          st, e := ParseExpr();
          fact := Minus(e);
        }
      case IdTok(name) =>
        st, fact := ParseNamed();
      case VmcTok =>
        st, fact := ParseVmCall();
      case _ =>
        st := Bad;
    }

    /** The dots behind a name, and what stands between them. */
    method ParseDots(first: string) returns (st: Status, name: string)
      requires Valid()
      modifies this
      ensures Valid() && pos >= old(pos)
      ensures Yields(Dotted(first, old(Rest())), st, name)
    {
      st, name := Fine, first;
      while Match(Dot)
        invariant Valid() && pos >= old(pos) && st == Fine
        invariant Dotted(name, Rest()) == Dotted(first, old(Rest()))
        decreases |tokens| - pos
      {
        name := name + ".";
        st := Step();
        if st != Fine {
          return;
        }
        if Current().IdTok? {
          name := name + Current().text;
          st := Step();
          if st != Fine {
            return;
          }
        }
      }
    }

    /** A variable or a call. */
    method ParseNamed() returns (st: Status, fact: Tree)
      requires Valid() && Current().IdTok?
      modifies this
      ensures Valid() && pos >= old(pos)
      ensures Yields(Factor(old(Rest())), st, fact)
      decreases |tokens| - pos, 2
    {
      hide Parse, Loop, Args, ArgsLoop;
      fact := Missing;
      var name := Current().text;
      st := Step();
      if st != Fine {
        return;
      }
      if Match(LParen) {
        // Back to the name, which a call reads again.
        pos := pos - 1;
        st, fact := ParseFuncCall();
        return;
      }
      st, name := ParseDots(name);
      if st != Fine {
        return;
      }
      if !Match(LParen) {
        fact := Name(name);
      } else {
        var args;
        st, args := ParseArgs();
        fact := Call(name, args);
      }
    }

    method ParseFuncCall() returns (st: Status, fact: Tree)
      requires Valid() && Current().IdTok?
      modifies this
      ensures Valid() && pos >= old(pos)
      ensures match Advance(old(Rest()))
              case Ok(_, rest) =>
                (match Args(rest)
                 case Ok(args, rest1) => st == Fine && fact == Call(old(Current()).text, args) && Rest() == rest1
                 case Err => st == Bad
                 case Range => st == Out)
              case Err => st == Bad
              case Range => st == Out
      decreases |tokens| - pos, 1
    {
      var name := Current().text;
      fact := Missing;
      st := Step();
      if st != Fine {
        return;
      }
      var args;
      st, args := ParseArgs();
      fact := Call(name, args);
    }

    method ParseVmCall() returns (st: Status, fact: Tree)
      requires Valid() && Current() == VmcTok
      modifies this
      ensures Valid() && pos >= old(pos)
      ensures Yields(Factor(old(Rest())), st, fact)
      decreases |tokens| - pos, 2
    {
      fact := Missing;
      st := Step();
      if st != Fine {
        return;
      }
      if !Current().NumTok? {
        st := Step();
        if st == Fine {
          st := Bad;
        }
        return;
      }
      var idx := Current().text;
      st := Step();
      if st != Fine {
        return;
      }
      var args;
      st, args := ParseArgs();
      fact := VmCall(idx, args);
    }

    method ParseArgs() returns (st: Status, args: seq<Tree>)
      requires Valid()
      modifies this
      ensures Valid() && pos >= old(pos)
      ensures Yields(Args(old(Rest())), st, args)
      decreases |tokens| - pos, 1
    {
      args := [];
      if !Match(LParen) {
        st := Step();
        if st == Fine {
          st := Bad;
        }
        return;
      }
      st := Step();
      if st != Fine {
        return;
      }
      while true
        invariant Valid() && pos > old(pos) && st == Fine
        invariant ArgsLoop(args, Rest()) == Args(old(Rest()))
        decreases |tokens| - pos
      {
        if Match(RParen) {
          st := Step();
          return;
        }
        var a;
        st, a := ParseExpr();
        if st != Fine {
          return;
        }
        args := args + [a];
        if Match(Comma) {
          st := Step();
          if st != Fine {
            return;
          }
        } else if Match(RParen) {
          st := Step();
          return;
        } else {
          return Bad, args;
        }
      }
    }

    // ----- types -----

    method ParseType() returns (st: Status)
      requires Valid()
      modifies this
      ensures Valid() && pos >= old(pos)
      ensures Yields(SkipType(old(Rest())), st, ())
      decreases |tokens| - pos, 0
    {
      if !Current().IdTok? {
        return Bad;
      }
      st := Step();
      if st != Fine || !Match(LBrack) {
        return;
      }
      st := Step();
      if st != Fine {
        return;
      }
      while true
        invariant Valid() && pos > old(pos) && st == Fine
        invariant SkipTypes(Rest()) == SkipType(old(Rest()))
        decreases |tokens| - pos
      {
        st := ParseType();
        if st != Fine {
          return;
        }
        if Match(RBrack) {
          break;
        }
        if !Match(Comma) {
          return Bad;
        }
        st := Step();
        if st != Fine {
          return;
        }
      }
      st := Step();
    }
  }
}
