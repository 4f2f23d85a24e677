/** The expression grammar as the parser has it, a printer that adds parentheses only where that
    grammar needs them, and the round trip between the two. */
module Grammar {
  import opened Words

  // ----- tokens and trees -----

  datatype Infix = Pipe | Infix(op: Oper)

  datatype Token =
    | NumTok(text: string)
    | IdTok(text: string)
    | StrTok(text: string)
    | OpTok(op: Infix)  // a minus sign is OpTok(Infix(Sub)) in both its uses
    | TrueTok | FalseTok
    | LParen | RParen | LBrack | RBrack
    | Comma | Colon | Dot
    | VmcTok
    | EndTok
    | UnknownTok
    | OtherTok(text: string)

  const MINUS: Token := OpTok(Infix(Sub))

  datatype Tree =
    | Number(text: string)
    | Truth(b: bool)
    | Text(text: string)
    | Name(text: string)
    | Minus(e: Tree)
    | Binary(op: Infix, l: Tree, r: Tree)
    | Call(f: string, args: seq<Tree>)
    | VmCall(idx: string, args: seq<Tree>)
    | Missing  // the null pointer that an end of file leaves

  // Six levels of operators, from the loosest; || binds tighter than &&. Level 6 is a factor.

  const FACTOR: nat := 6

  const RELATION: nat := 3

  function LevelOf(op: Infix): (k: nat)
    ensures k < FACTOR
  {
    if op.Pipe? then 0
    else if op.op.And? then 1
    else if op.op.Or? then 2
    else if IsCompare(op.op) then RELATION
    else if op.op.Add? || op.op.Sub? then 4
    else 5
  }

  // ----- the token list -----

  /** The current token. Past the end it is the last token, which is an end of file. */
  function Cur(ts: seq<Token>): Token {
    if ts == [] then EndTok else ts[0]
  }

  predicate AtEnd(ts: seq<Token>) {
    |ts| <= 1
  }

  datatype Parsed<+T> = Ok(value: T, rest: seq<Token>) | Err | Range

  function Advance(ts: seq<Token>): (r: Parsed<()>)
    ensures r.Ok? ==> |r.rest| < |ts|
  {
    if ts == [] then Range
    else if Cur(ts[1..]) == UnknownTok then Err
    else Ok((), ts[1..])
  }

  function Fail<T>(p: Parsed<()>): Parsed<T> {
    if p.Range? then Range else Err
  }

  // ----- the parser -----

  /** Level `k` of the grammar: an operand, then a loop over the operators of that level. */
  function Parse(k: nat, ts: seq<Token>): (r: Parsed<Tree>)
    requires k <= FACTOR
    ensures r.Ok? ==> |r.rest| < |ts|
    decreases |ts|, FACTOR + 1 - k
  {
    if k == FACTOR then Factor(ts)
    else
      match Parse(k + 1, ts)
      case Ok(node, rest) => Loop(k, node, rest)
      case fail => fail
  }

  /** The right operand of a relation is a whole expression, that of another operator one level up. */
  function Operand(k: nat): (j: nat)
    requires k < FACTOR
    ensures j <= FACTOR
  {
    if k == RELATION then 0 else k + 1
  }

  function Loop(k: nat, node: Tree, ts: seq<Token>): (r: Parsed<Tree>)
    requires k < FACTOR
    ensures r.Ok? ==> |r.rest| <= |ts|
    decreases |ts|, 0
  {
    if Cur(ts).OpTok? && LevelOf(Cur(ts).op) == k then
      match Advance(ts)
      case Ok(_, ts1) =>
        if AtEnd(ts1) then Err
        else
          (match Parse(Operand(k), ts1)
           case Ok(right, rest) => if k == 0 && !right.Call? then Err
               else Loop(k, Binary(Cur(ts).op, node, right), rest)
           case fail => fail)
      case fail => Fail(fail)
    else if k == 0 && Cur(ts) == Colon then
      match Advance(ts)
      case Ok(_, ts1) =>
        (match SkipType(ts1)
         case Ok(_, rest) => Ok(node, rest)
         case fail => Fail(fail))
      case fail => Fail(fail)
    else Ok(node, ts)
  }

  /** A type annotation is read and dropped. */
  function SkipType(ts: seq<Token>): (r: Parsed<()>)
    ensures r.Ok? ==> |r.rest| < |ts|
    decreases |ts|, 1
  {
    if !Cur(ts).IdTok? then Err
    else
      match Advance(ts)
      case Ok(_, ts1) =>
        if Cur(ts1) == LBrack then
          match Advance(ts1)
          case Ok(_, ts2) => SkipTypes(ts2)
          case fail => fail
        else Ok((), ts1)
      case fail => fail
  }

  function SkipTypes(ts: seq<Token>): (r: Parsed<()>)
    ensures r.Ok? ==> |r.rest| < |ts|
    decreases |ts|, 2
  {
    match SkipType(ts)
    case Ok(_, ts1) =>
      if Cur(ts1) == RBrack then Advance(ts1)
      else if Cur(ts1) == Comma then
        match Advance(ts1)
        case Ok(_, ts2) => SkipTypes(ts2)
        case fail => fail
      else Err
    case fail => fail
  }

  function Factor(ts: seq<Token>): (r: Parsed<Tree>)
    ensures r.Ok? ==> |r.rest| < |ts|
    decreases |ts|, 0
  {
    match Advance(ts)
    case Ok(_, ts1) =>
      (match Cur(ts)
       case NumTok(text) => Ok(Number(text), ts1)
       case TrueTok => Ok(Truth(true), ts1)
       case FalseTok => Ok(Truth(false), ts1)
       case StrTok(text) => Ok(Text(text), ts1)
       case EndTok => Ok(Missing, ts1)
       case LParen =>
         (match Parse(0, ts1)
          case Ok(e, ts2) =>
            if Cur(ts2) == RParen then
              match Advance(ts2)
              case Ok(_, rest) => Ok(e, rest)
              case fail => Fail(fail)
            else Err
          case fail => fail)
       case OpTok(op) =>
         if op == Infix(Sub) then
           match Parse(0, ts1)
           case Ok(e, rest) => Ok(Minus(e), rest)
           case fail => fail
         else Err
       case IdTok(name) =>
         if Cur(ts1) == LParen then
           match Args(ts1)
           case Ok(args, rest) => Ok(Call(name, args), rest)
           case Err => Err
           case Range => Range
         else
           (match Dotted(name, ts1)
            case Ok(full, ts2) =>
              if Cur(ts2) != LParen then Ok(Name(full), ts2)
              else
                (match Args(ts2)
                 case Ok(args, rest) => Ok(Call(full, args), rest)
                 case Err => Err
                 case Range => Range)
            case Err => Err
            case Range => Range)
       case VmcTok =>
         if !Cur(ts1).NumTok? then (if Advance(ts1).Range? then Range else Err)
         else
           (match Advance(ts1)
            case Ok(_, ts2) =>
              (match Args(ts2)
               case Ok(args, rest) => Ok(VmCall(Cur(ts1).text, args), rest)
               case Err => Err
               case Range => Range)
            case fail => Fail(fail))
       case _ => Err)
    case fail => Fail(fail)
  }

  /** A name with dots in it. */
  function Dotted(name: string, ts: seq<Token>): (r: Parsed<string>)
    ensures r.Ok? ==> |r.rest| <= |ts|
    decreases |ts|, 0
  {
    if Cur(ts) != Dot then Ok(name, ts)
    else
      match Advance(ts)
      case Ok(_, ts1) =>
        if !Cur(ts1).IdTok? then Dotted(name + ".", ts1)
        else
          (match Advance(ts1)
           case Ok(_, ts2) => Dotted(name + "." + Cur(ts1).text, ts2)
           case _ => Err)
      case _ => Err
  }

  /** A parenthesised argument list. */
  function Args(ts: seq<Token>): (r: Parsed<seq<Tree>>)
    ensures r.Ok? ==> |r.rest| < |ts|
    decreases |ts|, 1
  {
    if Cur(ts) != LParen then (if Advance(ts).Range? then Range else Err)
    else
      match Advance(ts)
      case Ok(_, ts1) => ArgsLoop([], ts1)
      case fail => Fail(fail)
  }

  function ArgsLoop(args: seq<Tree>, ts: seq<Token>): (r: Parsed<seq<Tree>>)
    ensures r.Ok? ==> |r.rest| < |ts|
    decreases |ts|, FACTOR + 2
  {
    if Cur(ts) == RParen then CloseArgs(args, ts)
    else
      match Parse(0, ts)
      case Ok(a, ts1) =>
        if Cur(ts1) == Comma then
          match Advance(ts1)
          case Ok(_, ts2) => ArgsLoop(args + [a], ts2)
          case fail => Fail(fail)
        else if Cur(ts1) == RParen then CloseArgs(args + [a], ts1)
        else Err
      case Err => Err
      case Range => Range
  }

  function CloseArgs(args: seq<Tree>, ts: seq<Token>): (r: Parsed<seq<Tree>>)
    ensures r.Ok? ==> |r.rest| < |ts|
  {
    match Advance(ts)
    case Ok(_, rest) => Ok(args, rest)
    case fail => Fail(fail)
  }

  // ----- the printer -----

  /** What a tree has to be for some token list to stand for it. */
  predicate Printable(e: Tree) {
    match e
    case Number(_) => true
    case Truth(_) => true
    case Text(_) => true
    case Name(_) => true
    case Minus(e1) => Printable(e1)
    case Binary(op, l, r) => Printable(l) && Printable(r) && (op.Pipe? ==> r.Call?)
    case Call(_, args) => forall i :: 0 <= i < |args| ==> Printable(args[i])
    case VmCall(_, args) => forall i :: 0 <= i < |args| ==> Printable(args[i])
    case Missing => false
  }

  function Level(e: Tree): (k: nat)
    ensures k <= FACTOR
  {
    if e.Binary? then LevelOf(e.op) else FACTOR
  }

  /** Does the code of `e` reach as far to the right as there are operators? A minus and a relation do. */
  predicate OpenEnded(e: Tree) {
    match e
    case Minus(_) => true
    case Binary(op, _, r) => LevelOf(op) == RELATION || (Level(r) > LevelOf(op) && OpenEnded(r))
    case _ => false
  }

  /** Tokens for `e` where the grammar expects level `k`; with `open`, no operator follows. */
  function Print(k: nat, e: Tree, open: bool): seq<Token>
    decreases e, 1
  {
    if Level(e) < k || (OpenEnded(e) && !open) then [LParen] + Raw(e) + [RParen] else Raw(e)
  }

  function Raw(e: Tree): seq<Token>
    decreases e, 0
  {
    match e
    case Number(text) => [NumTok(text)]
    case Truth(b) => [if b then TrueTok else FalseTok]
    case Text(text) => [StrTok(text)]
    case Name(text) => [IdTok(text)]
    case Minus(e1) => [MINUS] + Print(0, e1, true)
    case Binary(op, l, r) =>
      Print(if LevelOf(op) == RELATION then RELATION + 1 else LevelOf(op), l, false) + [OpTok(op)]
          + Print(Operand(LevelOf(op)), r, true)
    case Call(f, args) => [IdTok(f)] + PrintArgs(args)
    case VmCall(idx, args) => [VmcTok, NumTok(idx)] + PrintArgs(args)
    case Missing => []
  }

  function PrintArgs(args: seq<Tree>): seq<Token>
    decreases args, 2
  {
    [LParen] + Listed(args)
  }

  function Listed(args: seq<Tree>): seq<Token>
    decreases args, 1
  {
    if args == [] then [RParen]
    else if |args| == 1 then Print(0, args[0], true) + [RParen]
    else Print(0, args[0], true) + [Comma] + Listed(args[1..])
  }

  // ----- the round trip -----

  /** The next token does not continue a factor, and is no operator above level `k`. */
  predicate Stops(k: nat, ts: seq<Token>) {
    && ts != [] && ts[0] != LParen && ts[0] != Dot && ts[0] != UnknownTok
    && (ts[0].OpTok? ==> LevelOf(ts[0].op) <= k)
  }

  /** The next token extends no expression at all. */
  predicate Follows(ts: seq<Token>) {
    Stops(0, ts) && !ts[0].OpTok? && ts[0] != Colon
  }

  /** What level `k` makes of an operand that is `e`. */
  function After(k: nat, e: Tree, ts: seq<Token>): Parsed<Tree>
    requires k <= FACTOR
  {
    if k == FACTOR then Ok(e, ts) else Loop(k, e, ts)
  }

  predicate Wrapped(k: nat, e: Tree, open: bool) {
    Level(e) < k || (OpenEnded(e) && !open)
  }

  lemma FirstToken(e: Tree)
    requires Printable(e)
    ensures Raw(e) != [] && Raw(e)[0] != UnknownTok && Raw(e)[0] != RParen && !Raw(e)[0].Comma?
    decreases e
  {
    if e.Binary? {
      var k := if LevelOf(e.op) == RELATION then RELATION + 1 else LevelOf(e.op);
      FirstToken(e.l);
      assert Raw(e)[0] == Print(k, e.l, false)[0];
    }
  }

  lemma FirstPrinted(k: nat, e: Tree, open: bool)
    requires Printable(e)
    ensures Print(k, e, open) != [] && Print(k, e, open)[0] != UnknownTok && Print(k, e, open)[0] != RParen
  {
    FirstToken(e);
  }

  lemma NoLoop(k: nat, e: Tree, ts: seq<Token>)
    requires k < FACTOR && Stops(k, ts) && (ts[0].OpTok? ==> LevelOf(ts[0].op) != k) && (k == 0 ==> ts[0] != Colon)
    ensures Loop(k, e, ts) == Ok(e, ts)
  {
  }

  /** A factor climbs through the levels above `k`, whose loops find nothing to do. */
  lemma {:induction false} Climb(k: nat, from: nat, tokens: seq<Token>, e: Tree, ts: seq<Token>)
    requires k <= from <= FACTOR && Stops(k, ts) && Parse(from, tokens) == After(from, e, ts)
    requires from > k && from < FACTOR ==> !(ts[0].OpTok? && LevelOf(ts[0].op) == from)
    ensures Parse(k, tokens) == After(k, e, ts)
    decreases from
  {
    if from > k {
      if from < FACTOR {
        NoLoop(from, e, ts);
      }
      assert Parse(from - 1, tokens) == Loop(from - 1, e, ts);
      Climb(k, from - 1, tokens, e, ts);
    }
  }

  lemma {:induction false} RawParsed(k: nat, e: Tree, ts: seq<Token>)
    requires Printable(e) && k <= Level(e) && Stops(k, ts) && (Follows(ts) || !OpenEnded(e))
    ensures Parse(k, Raw(e) + ts) == After(k, e, ts)
    decreases e, 3
  {
    hide Raw, Print, Printable, OpenEnded;
    if e.Binary? {
      BinaryParsed(e, ts);
      Climb(k, Level(e), Raw(e) + ts, e, ts);
    } else {
      FactorParsed(e, ts);
      Climb(k, FACTOR, Raw(e) + ts, e, ts);
    }
  }

  lemma {:induction false} PrintParsed(k: nat, e: Tree, open: bool, ts: seq<Token>)
    requires Printable(e) && k <= FACTOR && Stops(k, ts) && (Follows(ts) || Wrapped(k, e, open) || !OpenEnded(e))
    ensures Parse(k, Print(k, e, open) + ts) == After(k, e, ts)
    decreases e, 4
  {
    hide Raw, Printable, OpenEnded, Loop;
    if Wrapped(k, e, open) {
      var inner := [RParen] + ts;
      RawParsed(0, e, inner);
      FirstToken(e);
      ParenParsed(e, Raw(e), ts);
      Climb(k, FACTOR, [LParen] + Raw(e) + [RParen] + ts, e, ts);
    } else {
      RawParsed(k, e, ts);
    }
  }

  lemma ParenParsed(e: Tree, raw: seq<Token>, ts: seq<Token>)
    requires raw != [] && raw[0] != UnknownTok && Stops(FACTOR, ts)
             && Parse(0, raw + ([RParen] + ts)) == After(0, e, [RParen] + ts)
    ensures Parse(FACTOR, [LParen] + raw + [RParen] + ts) == Ok(e, ts)
  {
    hide Loop, Args, ArgsLoop, Dotted;
    var all := [LParen] + raw + [RParen] + ts;
    assert all[1..] == raw + ([RParen] + ts);
    NoLoop(0, e, [RParen] + ts);
    assert ([RParen] + ts)[1..] == ts;
  }

  lemma {:induction false} BinaryParsed(e: Tree, ts: seq<Token>)
    requires e.Binary? && Printable(e) && Stops(Level(e), ts) && (Follows(ts) || !OpenEnded(e))
    ensures Parse(Level(e), Raw(e) + ts) == After(Level(e), e, ts)
    decreases e, 2
  {
    hide Loop, Parse, Print;
    var k, op, l, r := Level(e), e.op, e.l, e.r;
    var right := Print(Operand(k), r, true);
    var tail := [OpTok(op)] + right + ts;
    FirstPrinted(Operand(k), r, true);
    if k == RELATION {
      assert Raw(e) + ts == Print(k + 1, l, false) + tail;
      PrintParsed(k + 1, l, false, tail);
      NoLoop(k + 1, l, tail);
      OneDown(k, Raw(e) + ts, l, tail);
      PrintParsed(0, r, true, ts);
    } else {
      assert Raw(e) + ts == Print(k, l, false) + tail;
      PrintParsed(k, l, false, tail);
      PrintParsed(k + 1, r, true, ts);
    }
    OperandParsed(k, op, l, r, right, ts);
  }

  lemma OneDown(k: nat, tokens: seq<Token>, e: Tree, ts: seq<Token>)
    requires k < FACTOR && Parse(k + 1, tokens) == Ok(e, ts)
    ensures Parse(k, tokens) == Loop(k, e, ts)
  {
  }

  /** The loop takes one operator and its right operand. */
  lemma OperandParsed(k: nat, op: Infix, l: Tree, r: Tree, right: seq<Token>, ts: seq<Token>)
    requires k < FACTOR && LevelOf(op) == k && (k == 0 ==> r.Call?)
    requires right != [] && right[0] != UnknownTok && Stops(k, ts) && (k == RELATION ==> Follows(ts))
    requires Parse(Operand(k), right + ts) == After(Operand(k), r, ts)
    ensures Loop(k, l, [OpTok(op)] + right + ts) == Loop(k, Binary(op, l, r), ts)
  {
    hide Parse;
    var tail := [OpTok(op)] + right + ts;
    assert tail[1..] == right + ts;
    if Operand(k) < FACTOR {
      NoLoop(Operand(k), r, ts);
    }
  }

  lemma {:induction false} FactorParsed(e: Tree, ts: seq<Token>)
    requires !e.Binary? && Printable(e) && Stops(FACTOR, ts) && (Follows(ts) || !OpenEnded(e))
    ensures Parse(FACTOR, Raw(e) + ts) == Ok(e, ts)
    decreases e, 2
  {
    hide Loop, Args, ArgsLoop;
    var all := Raw(e) + ts;
    match e
    case Number(_) => assert all[1..] == ts;
    case Truth(_) => assert all[1..] == ts;
    case Text(_) => assert all[1..] == ts;
    case Name(_) => assert all[1..] == ts;
    case Minus(e1) =>
      assert all[1..] == Print(0, e1, true) + ts;
      FirstPrinted(0, e1, true);
      PrintParsed(0, e1, true, ts);
      NoLoop(0, e1, ts);
    case Call(f, args) =>
      assert all[1..] == PrintArgs(args) + ts;
      ArgsParsed(args, ts);
    case VmCall(idx, args) =>
      assert all[1..] == [NumTok(idx)] + PrintArgs(args) + ts;
      assert all[1..][1..] == PrintArgs(args) + ts;
      ArgsParsed(args, ts);
  }

  lemma {:induction false} ArgsParsed(args: seq<Tree>, ts: seq<Token>)
    requires (forall i :: 0 <= i < |args| ==> Printable(args[i])) && Stops(FACTOR, ts)
    ensures Args(PrintArgs(args) + ts) == Ok(args, ts)
    decreases args, 3
  {
    hide ArgsLoop, Listed;
    var all := PrintArgs(args) + ts;
    assert all[1..] == Listed(args) + ts;
    ListedFirst(args);
    ListedParsed([], args, ts);
    assert [] + args == args;
  }

  lemma ListedFirst(args: seq<Tree>)
    requires forall i :: 0 <= i < |args| ==> Printable(args[i])
    ensures Listed(args) != [] && Listed(args)[0] != UnknownTok
  {
    if args != [] {
      FirstPrinted(0, args[0], true);
    }
  }

  /** The last argument. */
  lemma LastArg(done: seq<Tree>, a: Tree, text: seq<Token>, ts: seq<Token>)
    requires text != [] && text[0] != RParen && Stops(FACTOR, ts)
    requires Parse(0, text + ([RParen] + ts)) == After(0, a, [RParen] + ts)
    ensures ArgsLoop(done, text + [RParen] + ts) == Ok(done + [a], ts)
  {
    hide Loop, Parse;
    var after := [RParen] + ts;
    assert text + [RParen] + ts == text + after && after[1..] == ts;
    NoLoop(0, a, after);
  }

  /** An argument before others. */
  lemma NextArg(done: seq<Tree>, a: Tree, text: seq<Token>, more: seq<Token>)
    requires text != [] && text[0] != RParen && more != [] && more[0] != UnknownTok
    requires Parse(0, text + ([Comma] + more)) == After(0, a, [Comma] + more)
    ensures ArgsLoop(done, text + [Comma] + more) == ArgsLoop(done + [a], more)
  {
    hide Loop, Parse;
    var after := [Comma] + more;
    assert text + [Comma] + more == text + after && after[1..] == more;
    NoLoop(0, a, after);
  }

  lemma NoArg(done: seq<Tree>, ts: seq<Token>)
    requires Stops(FACTOR, ts)
    ensures ArgsLoop(done, [RParen] + ts) == Ok(done, ts)
  {
    assert ([RParen] + ts)[1..] == ts;
  }

  lemma {:induction false} ListedParsed(done: seq<Tree>, args: seq<Tree>, ts: seq<Token>)
    requires (forall i :: 0 <= i < |args| ==> Printable(args[i])) && Stops(FACTOR, ts)
    ensures ArgsLoop(done, Listed(args) + ts) == Ok(done + args, ts)
    decreases args, 2
  {
    hide Print, Loop, Parse, ArgsLoop, Printable, OpenEnded, Level, After;
    if args == [] {
      NoArg(done, ts);
      assert done + args == done;
    } else {
      var a, text := args[0], Print(0, args[0], true);
      FirstPrinted(0, a, true);
      if |args| == 1 {
        PrintParsed(0, a, true, [RParen] + ts);
        LastArg(done, a, text, ts);
        assert args == [a];
      } else {
        var more := Listed(args[1..]) + ts;
        ListedFirst(args[1..]);
        PrintParsed(0, a, true, [Comma] + more);
        NextArg(done, a, text, more);
        ListedParsed(done + [a], args[1..], ts);
        assert Listed(args) + ts == text + [Comma] + more;
        assert done + args == done + [a] + args[1..];
      }
    }
  }

  /** Every tree is parsed from its printed form, with parentheses only where the levels need them, and
      the rest is left untouched. */
  lemma RoundTrip(e: Tree, ts: seq<Token>)
    requires Printable(e) && Follows(ts)
    ensures Parse(0, Print(0, e, true) + ts) == Ok(e, ts)
  {
    PrintParsed(0, e, true, ts);
    NoLoop(0, e, ts);
  }

  /** Different trees have different printed forms. */
  lemma PrintInjective(e: Tree, e1: Tree)
    requires Printable(e) && Printable(e1) && Print(0, e, true) == Print(0, e1, true)
    ensures e == e1
  {
    hide Parse, Print;
    RoundTrip(e, [EndTok]);
    RoundTrip(e1, [EndTok]);
  }

  // ----- with all parentheses -----

  /** Every operator and every minus in parentheses of its own. */
  function Full(e: Tree): seq<Token>
    decreases e, 0
  {
    match e
    case Minus(e1) => [LParen] + ([MINUS] + Full(e1)) + [RParen]
    case Binary(op, l, r) => [LParen] + (Full(l) + [OpTok(op)] + Full(r)) + [RParen]
    case Call(f, args) => [IdTok(f), LParen] + FullListed(args)
    case VmCall(idx, args) => [VmcTok, NumTok(idx), LParen] + FullListed(args)
    case _ => Raw(e)
  }

  function FullListed(args: seq<Tree>): seq<Token>
    decreases args, 1
  {
    if args == [] then [RParen]
    else if |args| == 1 then Full(args[0]) + [RParen]
    else Full(args[0]) + [Comma] + FullListed(args[1..])
  }

  lemma FirstFull(e: Tree)
    requires Printable(e)
    ensures Full(e) != [] && Full(e)[0] != UnknownTok && Full(e)[0] != RParen
  {
  }

  lemma {:induction false} FullParsed(k: nat, e: Tree, ts: seq<Token>)
    requires Printable(e) && k <= FACTOR && Stops(k, ts)
    ensures Parse(k, Full(e) + ts) == After(k, e, ts)
    decreases e, 3
  {
    hide Loop, Parse;
    assert Parse(FACTOR, Full(e) + ts) == Ok(e, ts) by {
      if e.Minus? {
        FullMinus(e, ts);
      } else if e.Binary? {
        FullBinary(e, ts);
      } else {
        FullFactor(e, ts);
      }
    }
    Climb(k, FACTOR, Full(e) + ts, e, ts);
  }

  lemma {:induction false} FullMinus(e: Tree, ts: seq<Token>)
    requires e.Minus? && Printable(e) && Stops(FACTOR, ts)
    ensures Parse(FACTOR, Full(e) + ts) == Ok(e, ts)
    decreases e, 2
  {
    hide Loop, Args, ArgsLoop, Dotted;
    var raw, rest := [MINUS] + Full(e.e), [RParen] + ts;
    FirstFull(e.e);
    FullParsed(0, e.e, rest);
    NoLoop(0, e.e, rest);
    assert (raw + rest)[1..] == Full(e.e) + rest;
    Climb(0, FACTOR, raw + rest, e, rest);
    ParenParsed(e, raw, ts);
  }

  lemma {:induction false} FullBinary(e: Tree, ts: seq<Token>)
    requires e.Binary? && Printable(e) && Stops(FACTOR, ts)
    ensures Parse(FACTOR, Full(e) + ts) == Ok(e, ts)
    decreases e, 2
  {
    hide Loop, Parse;
    var k, op, l, r := Level(e), e.op, e.l, e.r;
    var raw, rest := Full(l) + [OpTok(op)] + Full(r), [RParen] + ts;
    var tail := [OpTok(op)] + Full(r) + rest;
    FirstFull(l);
    FirstFull(r);
    assert raw + rest == Full(l) + tail;
    if k == RELATION {
      FullParsed(k + 1, l, tail);
      NoLoop(k + 1, l, tail);
      OneDown(k, raw + rest, l, tail);
    } else {
      FullParsed(k, l, tail);
    }
    FullParsed(Operand(k), r, rest);
    OperandParsed(k, op, l, r, Full(r), rest);
    Climb(0, k, raw + rest, e, rest);
    ParenParsed(e, raw, ts);
  }

  lemma {:induction false} FullFactor(e: Tree, ts: seq<Token>)
    requires !e.Binary? && !e.Minus? && Printable(e) && Stops(FACTOR, ts)
    ensures Parse(FACTOR, Full(e) + ts) == Ok(e, ts)
    decreases e, 2
  {
    hide Loop, Args, ArgsLoop, FullListed;
    var all := Full(e) + ts;
    match e
    case Call(f, args) =>
      assert all[1..] == [LParen] + FullListed(args) + ts;
      FullArgsParsed(args, ts);
    case VmCall(idx, args) =>
      assert all[1..] == [NumTok(idx)] + ([LParen] + FullListed(args) + ts);
      assert all[1..][1..] == [LParen] + FullListed(args) + ts;
      FullArgsParsed(args, ts);
    case Number(_) => assert all[1..] == ts;
    case Truth(_) => assert all[1..] == ts;
    case Text(_) => assert all[1..] == ts;
    case Name(_) => assert all[1..] == ts;
  }

  lemma {:induction false} FullArgsParsed(args: seq<Tree>, ts: seq<Token>)
    requires (forall i :: 0 <= i < |args| ==> Printable(args[i])) && Stops(FACTOR, ts)
    ensures Args([LParen] + FullListed(args) + ts) == Ok(args, ts)
    decreases args, 3
  {
    hide ArgsLoop, FullListed;
    var text := [LParen] + FullListed(args) + ts;
    assert text[1..] == FullListed(args) + ts;
    FullFirst(args);
    FullListParsed([], args, ts);
    assert [] + args == args;
  }

  lemma FullFirst(args: seq<Tree>)
    requires forall i :: 0 <= i < |args| ==> Printable(args[i])
    ensures FullListed(args) != [] && FullListed(args)[0] != UnknownTok
  {
    if args != [] {
      FirstFull(args[0]);
    }
  }

  lemma {:induction false} FullListParsed(done: seq<Tree>, args: seq<Tree>, ts: seq<Token>)
    requires (forall i :: 0 <= i < |args| ==> Printable(args[i])) && Stops(FACTOR, ts)
    ensures ArgsLoop(done, FullListed(args) + ts) == Ok(done + args, ts)
    decreases args, 2
  {
    hide Full, Loop, Parse, ArgsLoop, Printable, After;
    if args == [] {
      NoArg(done, ts);
      assert done + args == done;
    } else {
      var a, text := args[0], Full(args[0]);
      FirstFull(a);
      if |args| == 1 {
        FullParsed(0, a, [RParen] + ts);
        LastArg(done, a, text, ts);
        assert args == [a];
      } else {
        var more := FullListed(args[1..]) + ts;
        FullFirst(args[1..]);
        FullParsed(0, a, [Comma] + more);
        NextArg(done, a, text, more);
        FullListParsed(done + [a], args[1..], ts);
        assert FullListed(args) + ts == text + [Comma] + more;
        assert done + args == done + [a] + args[1..];
      }
    }
  }

  /** With all parentheses, every tree is parsed back too: the parentheses that the printer leaves out change
      nothing. */
  lemma FullRoundTrip(e: Tree, ts: seq<Token>)
    requires Printable(e) && Follows(ts)
    ensures Parse(0, Full(e) + ts) == Ok(e, ts) == Parse(0, Print(0, e, true) + ts)
  {
    hide Parse, Full, Print;
    FullParsed(0, e, ts);
    NoLoop(0, e, ts);
    RoundTrip(e, ts);
  }

  lemma NamePrinted(k: nat, x: string, open: bool)
    requires k <= FACTOR
    ensures Print(k, Name(x), open) == [IdTok(x)]
  {
  }

  /** A minus takes the whole expression behind it: -a + b is -(a + b). */
  lemma MinusReaches(a: string, b: string, ts: seq<Token>)
    requires Follows(ts)
    ensures Parse(0, [MINUS, IdTok(a), OpTok(Infix(Add)), IdTok(b)] + ts)
            == Ok(Minus(Binary(Infix(Add), Name(a), Name(b))), ts)
  {
    hide Parse;
    var sum := Binary(Infix(Add), Name(a), Name(b));
    NamePrinted(4, a, false);
    NamePrinted(5, b, true);
    assert Print(0, sum, true) == [IdTok(a), OpTok(Infix(Add)), IdTok(b)];
    assert Print(0, Minus(sum), true) == [MINUS, IdTok(a), OpTok(Infix(Add)), IdTok(b)];
    RoundTrip(Minus(sum), ts);
  }

  /** So does a relation: a < b && c is a < (b && c). */
  lemma RelationReaches(a: string, b: string, c: string, ts: seq<Token>)
    requires Follows(ts)
    ensures Parse(0, [IdTok(a), OpTok(Infix(Lt)), IdTok(b), OpTok(Infix(And)), IdTok(c)] + ts)
            == Ok(Binary(Infix(Lt), Name(a), Binary(Infix(And), Name(b), Name(c))), ts)
  {
    hide Parse;
    var both := Binary(Infix(And), Name(b), Name(c));
    NamePrinted(4, a, false);
    NamePrinted(1, b, false);
    NamePrinted(2, c, true);
    assert Print(0, both, true) == [IdTok(b), OpTok(Infix(And)), IdTok(c)];
    var all := Binary(Infix(Lt), Name(a), both);
    assert Print(0, all, true) == [IdTok(a), OpTok(Infix(Lt)), IdTok(b), OpTok(Infix(And)), IdTok(c)];
    RoundTrip(all, ts);
  }
}
