/** Which operand an operator gets, on the tokens themselves: for all names and all operators of a group.
    Parentheses, dots, type annotations and argument lists the same way. */
module Precedence {
  import opened Words
  import opened Grammar

  predicate IsSum(o: Oper) {
    o == Add || o == Sub
  }

  predicate IsProduct(o: Oper) {
    o == Mul || o == Div || o == Mod || o == Pow
  }

  predicate IsRelation(o: Oper) {
    o == Ge || o == Lt || o == Le || o == Gt || o == Eq || o == Ne
  }

  /** The expression ends here. */
  predicate Ends(ts: seq<Token>) {
    ts != [] && match ts[0]
                case OpTok(_) => false
                case LParen => false
                case Dot => false
                case Colon => false
                case UnknownTok => false
                case _ => true
  }

  function Sign(o: Oper): Token {
    OpTok(Infix(o))
  }

  function Pair(o: Oper, x: Tree, y: Tree): Tree {
    Binary(Infix(o), x, y)
  }

  /** A tree whose printed form is `tokens` is what they parse to. */
  lemma ParsesTo(e: Tree, tokens: seq<Token>, ts: seq<Token>)
    requires Printable(e) && Print(0, e, true) == tokens && Ends(ts)
    ensures Parse(0, tokens + ts) == Ok(e, ts)
  {
    hide Parse, Print, Printable;
    RoundTrip(e, ts);
  }

  lemma PairPrinted(k: nat, o: Oper, x: string, y: string, open: bool)
    requires if IsProduct(o) then k <= 5 else if IsSum(o) then k <= 4 else k <= (if o == Or then 2 else 1)
    requires !IsRelation(o)
    ensures var e := Pair(o, Name(x), Name(y));
            Printable(e) && Print(k, e, open) == [IdTok(x), Sign(o), IdTok(y)]
  {
    var l := if IsProduct(o) then 5 else if IsSum(o) then 4 else if o == Or then 2 else 1;
    var e := Pair(o, Name(x), Name(y));
    assert LevelOf(Infix(o)) == l && Operand(l) == l + 1 && l != RELATION;
    NamePrinted(l, x, false);
    NamePrinted(l + 1, y, true);
    assert Raw(e) == [IdTok(x)] + [Sign(o)] + [IdTok(y)];
    assert !OpenEnded(Name(y)) && !OpenEnded(e);
  }

  lemma RelationPrinted(k: nat, r: Oper, x: string, y: Tree, text: seq<Token>)
    requires k <= 3 && IsRelation(r) && Printable(y) && Print(0, y, true) == text
    ensures var e := Pair(r, Name(x), y);
            Printable(e) && Print(k, e, true) == [IdTok(x), Sign(r)] + text
  {
    hide Print;
    var e := Pair(r, Name(x), y);
    NamePrinted(4, x, false);
    assert Raw(e) == [IdTok(x)] + [Sign(r)] + text;
    RawPrinted(k, e);
  }

  lemma RawPrinted(k: nat, e: Tree)
    requires k <= Level(e)
    ensures Print(k, e, true) == Raw(e)
  {
  }

  lemma PipePrinted(x: Tree, f: string, text: seq<Token>, open: bool)
    requires Printable(x) && Print(0, x, false) == text
    ensures var e := Binary(Pipe, x, Call(f, []));
            Printable(e) && Print(0, e, open) == text + [PIPE] + Called(f)
  {
    hide Print;
    var e := Binary(Pipe, x, Call(f, []));
    CallPrinted(1, f, true);
    assert Raw(e) == text + [PIPE] + Called(f);
    ClosedPrinted(e, open);
  }

  lemma ClosedPrinted(e: Tree, open: bool)
    requires !OpenEnded(e)
    ensures Print(0, e, open) == Raw(e)
  {
  }

  // ----- sums and products -----

  /** a + b * c is a + (b * c). */
  lemma ProductOnTheRight(a: string, b: string, c: string, o: Oper, q: Oper, ts: seq<Token>)
    requires IsSum(o) && IsProduct(q) && Ends(ts)
    ensures Parse(0, [IdTok(a), Sign(o), IdTok(b), Sign(q), IdTok(c)] + ts)
            == Ok(Pair(o, Name(a), Pair(q, Name(b), Name(c))), ts)
  {
    hide Parse;
    NamePrinted(4, a, false);
    PairPrinted(5, q, b, c, true);
    ParsesTo(Pair(o, Name(a), Pair(q, Name(b), Name(c))), [IdTok(a), Sign(o), IdTok(b), Sign(q), IdTok(c)], ts);
  }

  /** a * b + c is (a * b) + c. */
  lemma ProductOnTheLeft(a: string, b: string, c: string, o: Oper, q: Oper, ts: seq<Token>)
    requires IsSum(o) && IsProduct(q) && Ends(ts)
    ensures Parse(0, [IdTok(a), Sign(q), IdTok(b), Sign(o), IdTok(c)] + ts)
            == Ok(Pair(o, Pair(q, Name(a), Name(b)), Name(c)), ts)
  {
    hide Parse;
    PairPrinted(4, q, a, b, false);
    NamePrinted(5, c, true);
    ParsesTo(Pair(o, Pair(q, Name(a), Name(b)), Name(c)), [IdTok(a), Sign(q), IdTok(b), Sign(o), IdTok(c)], ts);
  }

  /** Operators of one group, `||` with `||` and `&&` with `&&` too, go from left to right: a - b + c is
      (a - b) + c. */
  lemma LeftToRight(a: string, b: string, c: string, o: Oper, q: Oper, ts: seq<Token>)
    requires (IsSum(o) && IsSum(q)) || (IsProduct(o) && IsProduct(q)) || (o == q && (o == Or || o == And))
    requires Ends(ts)
    ensures Parse(0, [IdTok(a), Sign(o), IdTok(b), Sign(q), IdTok(c)] + ts)
            == Ok(Pair(q, Pair(o, Name(a), Name(b)), Name(c)), ts)
  {
    hide Parse;
    var l := if IsProduct(o) then 5 else if IsSum(o) then 4 else if o == Or then 2 else 1;
    var left := Pair(o, Name(a), Name(b));
    PairPrinted(l, o, a, b, false);
    NamePrinted(l + 1, c, true);
    var e := Pair(q, left, Name(c));
    assert Level(e) == l;
    RawPrinted(0, e);
    assert Raw(e) == [IdTok(a), Sign(o), IdTok(b)] + [Sign(q)] + [IdTok(c)];
    hide Print, Printable, Level, LevelOf, Raw;
    ParsesTo(e, [IdTok(a), Sign(o), IdTok(b), Sign(q), IdTok(c)], ts);
  }

  // ----- comparisons -----

  /** a + b < c is (a + b) < c, and so with products. */
  lemma ComparedOnTheLeft(a: string, b: string, c: string, o: Oper, r: Oper, ts: seq<Token>)
    requires (IsSum(o) || IsProduct(o)) && IsRelation(r) && Ends(ts)
    ensures Parse(0, [IdTok(a), Sign(o), IdTok(b), Sign(r), IdTok(c)] + ts)
            == Ok(Pair(r, Pair(o, Name(a), Name(b)), Name(c)), ts)
  {
    hide Parse;
    PairPrinted(4, o, a, b, false);
    NamePrinted(0, c, true);
    ParsesTo(Pair(r, Pair(o, Name(a), Name(b)), Name(c)), [IdTok(a), Sign(o), IdTok(b), Sign(r), IdTok(c)], ts);
  }

  /** The right operand of a comparison is all that follows, whatever the operator: a < b + c is a < (b + c),
      and a < b && c is a < (b && c). */
  lemma ComparedOnTheRight(a: string, b: string, c: string, r: Oper, o: Oper, ts: seq<Token>)
    requires IsRelation(r) && !IsRelation(o) && Ends(ts)
    ensures Parse(0, [IdTok(a), Sign(r), IdTok(b), Sign(o), IdTok(c)] + ts)
            == Ok(Pair(r, Name(a), Pair(o, Name(b), Name(c))), ts)
  {
    hide Parse;
    NamePrinted(4, a, false);
    PairPrinted(0, o, b, c, true);
    ParsesTo(Pair(r, Name(a), Pair(o, Name(b), Name(c))), [IdTok(a), Sign(r), IdTok(b), Sign(o), IdTok(c)], ts);
  }

  /** Comparisons group to the right: a < b == c is a < (b == c). */
  lemma ComparedAgain(a: string, b: string, c: string, r: Oper, q: Oper, ts: seq<Token>)
    requires IsRelation(r) && IsRelation(q) && Ends(ts)
    ensures Parse(0, [IdTok(a), Sign(r), IdTok(b), Sign(q), IdTok(c)] + ts)
            == Ok(Pair(r, Name(a), Pair(q, Name(b), Name(c))), ts)
  {
    hide Parse, Print;
    NamePrinted(0, c, true);
    RelationPrinted(0, q, b, Name(c), [IdTok(c)]);
    RelationPrinted(0, r, a, Pair(q, Name(b), Name(c)), [IdTok(b), Sign(q)] + [IdTok(c)]);
    assert [IdTok(a), Sign(r)] + ([IdTok(b), Sign(q)] + [IdTok(c)]) == [IdTok(a), Sign(r), IdTok(b), Sign(q), IdTok(c)];
    ParsesTo(Pair(r, Name(a), Pair(q, Name(b), Name(c))), [IdTok(a), Sign(r), IdTok(b), Sign(q), IdTok(c)], ts);
  }

  // ----- and, or -----

  /** a && b || c is a && (b || c), and a || b && c is (a || b) && c. */
  lemma OrBeforeAnd(a: string, b: string, c: string, ts: seq<Token>)
    requires Ends(ts)
    ensures Parse(0, [IdTok(a), Sign(And), IdTok(b), Sign(Or), IdTok(c)] + ts)
            == Ok(Pair(And, Name(a), Pair(Or, Name(b), Name(c))), ts)
    ensures Parse(0, [IdTok(a), Sign(Or), IdTok(b), Sign(And), IdTok(c)] + ts)
            == Ok(Pair(And, Pair(Or, Name(a), Name(b)), Name(c)), ts)
  {
    hide Parse;
    NamePrinted(1, a, false);
    PairPrinted(2, Or, b, c, true);
    ParsesTo(Pair(And, Name(a), Pair(Or, Name(b), Name(c))), [IdTok(a), Sign(And), IdTok(b), Sign(Or), IdTok(c)], ts);
    PairPrinted(1, Or, a, b, false);
    NamePrinted(2, c, true);
    ParsesTo(Pair(And, Pair(Or, Name(a), Name(b)), Name(c)), [IdTok(a), Sign(Or), IdTok(b), Sign(And), IdTok(c)], ts);
  }

  /** A comparison is an operand of && and ||, on the left of the rest: a && b < c is a && (b < c). */
  lemma ComparedInLogic(a: string, b: string, c: string, o: Oper, r: Oper, ts: seq<Token>)
    requires (o == And || o == Or) && IsRelation(r) && Ends(ts)
    ensures Parse(0, [IdTok(a), Sign(o), IdTok(b), Sign(r), IdTok(c)] + ts)
            == Ok(Pair(o, Name(a), Pair(r, Name(b), Name(c))), ts)
  {
    hide Parse;
    NamePrinted(if o == And then 1 else 2, a, false);
    NamePrinted(0, c, true);
    RelationPrinted(if o == And then 2 else 3, r, b, Name(c), [IdTok(c)]);
    ParsesTo(Pair(o, Name(a), Pair(r, Name(b), Name(c))), [IdTok(a), Sign(o), IdTok(b), Sign(r), IdTok(c)], ts);
  }

  /** Sums and products are operands of && and ||. */
  lemma SumInLogic(a: string, b: string, c: string, o: Oper, q: Oper, ts: seq<Token>)
    requires (o == And || o == Or) && (IsSum(q) || IsProduct(q)) && Ends(ts)
    ensures Parse(0, [IdTok(a), Sign(o), IdTok(b), Sign(q), IdTok(c)] + ts)
            == Ok(Pair(o, Name(a), Pair(q, Name(b), Name(c))), ts)
    ensures Parse(0, [IdTok(a), Sign(q), IdTok(b), Sign(o), IdTok(c)] + ts)
            == Ok(Pair(o, Pair(q, Name(a), Name(b)), Name(c)), ts)
  {
    hide Parse;
    var l := if o == And then 1 else 2;
    NamePrinted(l, a, false);
    PairPrinted(l + 1, q, b, c, true);
    ParsesTo(Pair(o, Name(a), Pair(q, Name(b), Name(c))), [IdTok(a), Sign(o), IdTok(b), Sign(q), IdTok(c)], ts);
    PairPrinted(l, q, a, b, false);
    NamePrinted(l + 1, c, true);
    ParsesTo(Pair(o, Pair(q, Name(a), Name(b)), Name(c)), [IdTok(a), Sign(q), IdTok(b), Sign(o), IdTok(c)], ts);
  }

  // ----- pipes -----

  function Called(f: string): seq<Token> {
    [IdTok(f), LParen, RParen]
  }

  const PIPE: Token := OpTok(Pipe)

  lemma CallPrinted(k: nat, f: string, open: bool)
    requires k <= FACTOR
    ensures Print(k, Call(f, []), open) == Called(f) && Printable(Call(f, []))
  {
    assert Listed([]) == [RParen];
    assert PrintArgs([]) == [LParen, RParen];
    assert Raw(Call(f, [])) == [IdTok(f)] + [LParen, RParen];
  }

  /** A pipe takes all that stands before it: a && b |> f() is (a && b) |> f(). */
  lemma PipeLast(a: string, b: string, f: string, o: Oper, ts: seq<Token>)
    requires !IsRelation(o) && Ends(ts)
    ensures Parse(0, [IdTok(a), Sign(o), IdTok(b), PIPE] + Called(f) + ts)
            == Ok(Binary(Pipe, Pair(o, Name(a), Name(b)), Call(f, [])), ts)
  {
    hide Parse, Print;
    PairPrinted(0, o, a, b, false);
    PipePrinted(Pair(o, Name(a), Name(b)), f, [IdTok(a), Sign(o), IdTok(b)], true);
    assert [IdTok(a), Sign(o), IdTok(b)] + [PIPE] + Called(f) == [IdTok(a), Sign(o), IdTok(b), PIPE] + Called(f);
    ParsesTo(Binary(Pipe, Pair(o, Name(a), Name(b)), Call(f, [])), [IdTok(a), Sign(o), IdTok(b), PIPE] + Called(f), ts);
  }

  /** Only a comparison takes the pipe with it: a < b |> f() is a < (b |> f()). */
  lemma PipeCompared(a: string, b: string, f: string, r: Oper, ts: seq<Token>)
    requires IsRelation(r) && Ends(ts)
    ensures Parse(0, [IdTok(a), Sign(r), IdTok(b), PIPE] + Called(f) + ts)
            == Ok(Pair(r, Name(a), Binary(Pipe, Name(b), Call(f, []))), ts)
  {
    hide Parse, Print;
    var pipe := Binary(Pipe, Name(b), Call(f, []));
    NamePrinted(0, b, false);
    PipePrinted(Name(b), f, [IdTok(b)], true);
    RelationPrinted(0, r, a, pipe, [IdTok(b)] + [PIPE] + Called(f));
    assert [IdTok(a), Sign(r)] + ([IdTok(b)] + [PIPE] + Called(f)) == [IdTok(a), Sign(r), IdTok(b), PIPE] + Called(f);
    ParsesTo(Pair(r, Name(a), pipe), [IdTok(a), Sign(r), IdTok(b), PIPE] + Called(f), ts);
  }

  /** Pipes go from left to right. */
  lemma PipeTwice(a: string, f: string, g: string, ts: seq<Token>)
    requires Ends(ts)
    ensures Parse(0, [IdTok(a), PIPE] + Called(f) + [PIPE] + Called(g) + ts)
            == Ok(Binary(Pipe, Binary(Pipe, Name(a), Call(f, [])), Call(g, [])), ts)
  {
    hide Parse, Print;
    var one := Binary(Pipe, Name(a), Call(f, []));
    NamePrinted(0, a, false);
    PipePrinted(Name(a), f, [IdTok(a)], false);
    PipePrinted(one, g, [IdTok(a)] + [PIPE] + Called(f), true);
    assert [IdTok(a)] + [PIPE] == [IdTok(a), PIPE];
    ParsesTo(Binary(Pipe, one, Call(g, [])), [IdTok(a), PIPE] + Called(f) + [PIPE] + Called(g), ts);
  }

  /** On its right there has to be a call. */
  lemma PipeNeedsCall(a: string, b: string, ts: seq<Token>)
    requires Ends(ts)
    ensures Parse(0, [IdTok(a), PIPE, IdTok(b)] + ts) == Err
  {
    hide Parse, Loop;
    var right := [IdTok(b)] + ts;
    var tokens := [IdTok(a), PIPE, IdTok(b)] + ts;
    NamePrinted(1, b, true);
    PrintParsed(1, Name(b), true, ts);
    NoLoop(1, Name(b), ts);
    OneName(a, [PIPE] + right);
    assert tokens == [IdTok(a)] + ([PIPE] + right);
    Climb(0, FACTOR, tokens, Name(a), [PIPE] + right);
    PipeFails(a, b, right, ts);
  }

  lemma PipeFails(a: string, b: string, right: seq<Token>, ts: seq<Token>)
    requires |right| > 1 && right[0] == IdTok(b) && Parse(1, right) == Ok(Name(b), ts)
    ensures Loop(0, Name(a), [PIPE] + right) == Err
  {
    hide Parse;
    assert ([PIPE] + right)[1..] == right;
  }

  // ----- names -----

  lemma OneName(a: string, ts: seq<Token>)
    requires ts != [] && ts[0] != Dot && ts[0] != LParen && ts[0] != UnknownTok
    ensures Parse(FACTOR, [IdTok(a)] + ts) == Ok(Name(a), ts)
  {
    hide Loop;
    assert ([IdTok(a)] + ts)[1..] == ts;
  }

  /** What a factor leaves behind ends the expression. */
  lemma FactorEnds(tokens: seq<Token>, e: Tree, ts: seq<Token>)
    requires Parse(FACTOR, tokens) == Ok(e, ts) && Ends(ts)
    ensures Parse(0, tokens) == Ok(e, ts)
  {
    hide Parse;
    Climb(0, FACTOR, tokens, e, ts);
    NoLoop(0, e, ts);
  }

  /** a.b is one name. */
  lemma DottedName(a: string, b: string, ts: seq<Token>)
    requires Ends(ts)
    ensures Parse(0, [IdTok(a), Dot, IdTok(b)] + ts) == Ok(Name(a + "." + b), ts)
  {
    hide Loop;
    var tokens := [IdTok(a), Dot, IdTok(b)] + ts;
    assert tokens[1..] == [Dot, IdTok(b)] + ts && tokens[1..][1..] == [IdTok(b)] + ts && tokens[1..][1..][1..] == ts;
    assert Dotted(a + "." + b, ts) == Ok(a + "." + b, ts);
    assert Dotted(a, tokens[1..]) == Ok(a + "." + b, ts);
    FactorEnds(tokens, Name(a + "." + b), ts);
  }

  /** A dot at the end belongs to the name too. */
  lemma DotAtEnd(a: string, ts: seq<Token>)
    requires Ends(ts) && !ts[0].IdTok?
    ensures Parse(0, [IdTok(a), Dot] + ts) == Ok(Name(a + "."), ts)
  {
    hide Loop;
    var tokens := [IdTok(a), Dot] + ts;
    assert tokens[1..] == [Dot] + ts && tokens[1..][1..] == ts;
    assert Dotted(a + ".", ts) == Ok(a + ".", ts);
    assert Dotted(a, tokens[1..]) == Ok(a + ".", ts);
    FactorEnds(tokens, Name(a + "."), ts);
  }

  // ----- argument lists -----

  lemma NoArguments(ts: seq<Token>)
    requires Ends(ts)
    ensures Args([LParen, RParen] + ts) == Ok([], ts)
  {
    var tokens := [LParen, RParen] + ts;
    assert tokens[1..] == [RParen] + ts && tokens[1..][1..] == ts;
  }

  /** a.b() calls a.b. */
  lemma DottedCall(a: string, b: string, ts: seq<Token>)
    requires Ends(ts)
    ensures Parse(0, [IdTok(a), Dot, IdTok(b), LParen, RParen] + ts) == Ok(Call(a + "." + b, []), ts)
  {
    hide Loop, Args;
    var tokens, rest := [IdTok(a), Dot, IdTok(b), LParen, RParen] + ts, [LParen, RParen] + ts;
    assert tokens[1..] == [Dot, IdTok(b)] + rest && tokens[1..][1..] == [IdTok(b)] + rest;
    assert tokens[1..][1..][1..] == rest;
    assert Dotted(a + "." + b, rest) == Ok(a + "." + b, rest);
    assert Dotted(a, tokens[1..]) == Ok(a + "." + b, rest);
    NoArguments(ts);
    FactorEnds(tokens, Call(a + "." + b, []), ts);
  }

  /** f(a, b): arguments in order, and a comma behind the last is allowed. */
  lemma TwoArguments(f: string, a: string, b: string, ts: seq<Token>)
    requires Ends(ts)
    ensures Parse(0, [IdTok(f), LParen, IdTok(a), Comma, IdTok(b), RParen] + ts) == Ok(Call(f, [Name(a), Name(b)]), ts)
    ensures Parse(0, [IdTok(f), LParen, IdTok(a), Comma, IdTok(b), Comma, RParen] + ts)
            == Ok(Call(f, [Name(a), Name(b)]), ts)
  {
    hide Parse, ArgsLoop;
    var one, two := [RParen] + ts, [Comma] + ([RParen] + ts);
    NameThen(a, [Comma] + ([IdTok(b)] + one));
    NameThen(a, [Comma] + ([IdTok(b)] + two));
    NameThen(b, one);
    NameThen(b, two);
    LastArg([Name(a)], Name(b), [IdTok(b)], ts);
    NextArg([], Name(a), [IdTok(a)], [IdTok(b)] + one);
    NextArg([Name(a)], Name(b), [IdTok(b)], one);
    NoArg([Name(a), Name(b)], ts);
    NextArg([], Name(a), [IdTok(a)], [IdTok(b)] + two);
    assert [IdTok(a)] + [Comma] + ([IdTok(b)] + one) == [IdTok(a), Comma, IdTok(b), RParen] + ts;
    assert [IdTok(a)] + [Comma] + ([IdTok(b)] + two) == [IdTok(a), Comma, IdTok(b), Comma, RParen] + ts;
    assert [IdTok(b)] + [RParen] + ts == [IdTok(b)] + one;
    assert [IdTok(b)] + [Comma] + one == [IdTok(b)] + two;
    assert [] + [Name(a)] == [Name(a)] && [Name(a)] + [Name(b)] == [Name(a), Name(b)];
    CallWith(f, [IdTok(a), Comma, IdTok(b), RParen] + ts, [Name(a), Name(b)], ts);
    CallWith(f, [IdTok(a), Comma, IdTok(b), Comma, RParen] + ts, [Name(a), Name(b)], ts);
    assert [IdTok(f), LParen] + ([IdTok(a), Comma, IdTok(b), RParen] + ts)
           == [IdTok(f), LParen, IdTok(a), Comma, IdTok(b), RParen] + ts;
    assert [IdTok(f), LParen] + ([IdTok(a), Comma, IdTok(b), Comma, RParen] + ts)
           == [IdTok(f), LParen, IdTok(a), Comma, IdTok(b), Comma, RParen] + ts;
  }

  lemma NameThen(a: string, ts: seq<Token>)
    requires ts != [] && ts[0] != LParen && ts[0] != Dot && ts[0] != UnknownTok && !ts[0].OpTok?
    ensures Parse(0, [IdTok(a)] + ts) == After(0, Name(a), ts)
  {
    hide Parse;
    OneName(a, ts);
    Climb(0, FACTOR, [IdTok(a)] + ts, Name(a), ts);
  }

  lemma CallWith(f: string, inner: seq<Token>, args: seq<Tree>, ts: seq<Token>)
    requires inner != [] && inner[0] != UnknownTok && ArgsLoop([], inner) == Ok(args, ts) && Ends(ts)
    ensures Parse(0, [IdTok(f), LParen] + inner) == Ok(Call(f, args), ts)
  {
    hide Loop, ArgsLoop;
    var tokens := [IdTok(f), LParen] + inner;
    assert tokens[1..] == [LParen] + inner && tokens[1..][1..] == inner;
    assert Args(tokens[1..]) == Ok(args, ts);
    assert Factor(tokens) == Ok(Call(f, args), ts);
    assert Parse(FACTOR, tokens) == Factor(tokens);
    FactorEnds(tokens, Call(f, args), ts);
  }

  // ----- type annotations -----

  /** a : t is a, and the annotation is the end of it: what follows is not read, not even an operator. */
  lemma Annotated(a: string, t: string, ts: seq<Token>)
    requires ts != [] && ts[0] != LBrack && ts[0] != UnknownTok
    ensures Parse(0, [IdTok(a), Colon, IdTok(t)] + ts) == Ok(Name(a), ts)
  {
    var tokens, type_ := [IdTok(a), Colon, IdTok(t)] + ts, [IdTok(t)] + ts;
    assert type_[1..] == ts;
    assert SkipType(type_) == Ok((), ts);
    AfterColon(a, type_);
    assert tokens == [IdTok(a), Colon] + type_;
  }

  lemma AfterColon(a: string, type_: seq<Token>)
    requires type_ != [] && type_[0] != UnknownTok
    ensures Parse(0, [IdTok(a), Colon] + type_) == match SkipType(type_)
                                                   case Ok(_, rest) => Ok(Name(a), rest)
                                                   case fail => Fail(fail)
  {
    hide Parse, SkipType;
    NameThen(a, [Colon] + type_);
    assert [IdTok(a)] + ([Colon] + type_) == [IdTok(a), Colon] + type_;
    assert ([Colon] + type_)[1..] == type_;
  }

  /** a : t[u, v] too. */
  lemma AnnotatedWith(a: string, t: string, u: string, v: string, ts: seq<Token>)
    requires ts != [] && ts[0] != UnknownTok
    ensures Parse(0, [IdTok(a), Colon, IdTok(t), LBrack, IdTok(u), Comma, IdTok(v), RBrack] + ts) == Ok(Name(a), ts)
  {
    hide SkipTypes, SkipType, Parse;
    var last := [IdTok(v), RBrack] + ts;
    var both := [IdTok(u), Comma] + last;
    var type_ := [IdTok(t), LBrack] + both;
    LastType(v, ts);
    NextType(u, last);
    OpenType(t, both);
    AfterColon(a, type_);
    assert [IdTok(a), Colon] + type_
           == [IdTok(a), Colon, IdTok(t), LBrack, IdTok(u), Comma, IdTok(v), RBrack] + ts;
  }

  lemma OpenType(t: string, inner: seq<Token>)
    requires inner != [] && inner[0] != UnknownTok
    ensures SkipType([IdTok(t), LBrack] + inner) == SkipTypes(inner)
  {
    hide SkipTypes;
    var tokens := [IdTok(t), LBrack] + inner;
    assert tokens[1..] == [LBrack] + inner && tokens[1..][1..] == inner;
  }

  lemma LastType(v: string, ts: seq<Token>)
    requires ts != [] && ts[0] != UnknownTok
    ensures SkipTypes([IdTok(v), RBrack] + ts) == Ok((), ts)
  {
    var tokens := [IdTok(v), RBrack] + ts;
    assert tokens[1..] == [RBrack] + ts && tokens[1..][1..] == ts;
    assert SkipType(tokens) == Ok((), [RBrack] + ts);
  }

  lemma NextType(u: string, more: seq<Token>)
    requires more != [] && more[0] != UnknownTok
    ensures SkipTypes([IdTok(u), Comma] + more) == SkipTypes(more)
  {
    var tokens := [IdTok(u), Comma] + more;
    assert tokens[1..] == [Comma] + more && tokens[1..][1..] == more;
    assert SkipType(tokens) == Ok((), [Comma] + more);
  }

  /** A type is a name. */
  lemma BadType(a: string, n: string, ts: seq<Token>)
    ensures Parse(0, [IdTok(a), Colon, NumTok(n)] + ts) == Err
  {
    var type_ := [NumTok(n)] + ts;
    assert SkipType(type_) == Err;
    AfterColon(a, type_);
    assert [IdTok(a), Colon] + type_ == [IdTok(a), Colon, NumTok(n)] + ts;
  }

  // ----- parentheses -----

  lemma WrappedPrinted(k: nat, e: Tree, open: bool)
    requires Level(e) < k
    ensures Print(k, e, open) == [LParen] + Raw(e) + [RParen]
  {
  }

  /** (a + b) * c keeps its sum. */
  lemma Parenthesised(a: string, b: string, c: string, o: Oper, q: Oper, ts: seq<Token>)
    requires IsSum(o) && IsProduct(q) && Ends(ts)
    ensures Parse(0, [LParen, IdTok(a), Sign(o), IdTok(b), RParen, Sign(q), IdTok(c)] + ts)
            == Ok(Pair(q, Pair(o, Name(a), Name(b)), Name(c)), ts)
  {
    hide Parse;
    var sum := Pair(o, Name(a), Name(b));
    PairPrinted(0, o, a, b, false);
    NamePrinted(6, c, true);
    assert Level(sum) == 4 && !OpenEnded(sum);
    ClosedPrinted(sum, false);
    WrappedPrinted(5, sum, false);
    assert [LParen] + [IdTok(a), Sign(o), IdTok(b)] + [RParen] == [LParen, IdTok(a), Sign(o), IdTok(b), RParen];
    ParsesTo(Pair(q, sum, Name(c)), [LParen, IdTok(a), Sign(o), IdTok(b), RParen, Sign(q), IdTok(c)], ts);
  }
}
