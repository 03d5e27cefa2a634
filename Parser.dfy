/** The grammar of src/parser.py as a recursive-descent parser over the scanner's tokens.

    Each left-recursive binary level `level : level OP next | next` becomes one operand followed
    by a loop over operators, which builds the same left-leaning tree. Statement lists are
    greedy: the grammar has no block terminator, and the parser generator resolves its
    shift/reduce conflicts by shifting, so a block runs on until `else` or the end of input, and
    an `else` belongs to the innermost open `if`. A syntax error makes the whole parse fail. */
module Parser {
  import opened Wrappers
  import opened Text
  import opened Languages
  import opened Lexer
  import opened Ast

  /** The outcome of parsing a phrase at some position: its value and the next position. */
  datatype Parsed<T> = NoParse | Done(value: T, next: nat)

  /** The kind of the token at pos, or "$end" past the last token. */
  function KindAt(toks: seq<Token>, pos: nat): (k: string)
    ensures pos < |toks| ==> k == toks[pos].kind
  {
    if pos < |toks| then toks[pos].kind else "$end"
  }

  /** The text a token carries (a NUMBER's digits for the numeric case, which only NUMBER
      tokens have). */
  function ValueText(v: TokenValue): string
  {
    match v
    case TextValue(s) => s
    case NumValue(n) => NatStr(n)
  }

  /** The primary-expression action on a single token's value: the strings 'true' and 'false'
      become boolean literals, any other string an identifier, and a number a literal. */
  function Classify(v: TokenValue): (e: Expr)
    ensures e.Literal? <==> v.NumValue? || v == TextValue("true") || v == TextValue("false")
    ensures v.NumValue? ==> e == Literal(IntLit(v.n))
    ensures v.TextValue? && (v.s == "true" || v.s == "false") ==> e == Literal(BoolLit(v.s == "true"))
    ensures e.Identifier? ==> v == TextValue(e.name)
  {
    match v
    case NumValue(n) => Literal(IntLit(n))
    case TextValue(s) => if s == "true" || s == "false" then Literal(BoolLit(s == "true")) else Identifier(s)
  }

  /** The operator token kinds of the binary levels, loosest first: or, and, equality,
      relational, additive, multiplicative. */
  function LevelOps(level: nat): seq<string>
    requires level < 6
  {
    match level
    case 0 => ["OR"]
    case 1 => ["AND"]
    case 2 => ["EQ", "NE"]
    case 3 => ["LT", "LE", "GT", "GE"]
    case 4 => ["PLUS", "MINUS"]
    case _ => ["TIMES", "DIVIDE", "MODULO"]
  }

  /** The operator a binary node records: the fixed words 'or' and 'and', otherwise the token's
      own text. */
  function OpName(level: nat, tok: Token): string
  {
    if level == 0 then "or" else if level == 1 then "and" else ValueText(tok.value)
  }

  // ---------------------------------------------------------------------------------------
  // Expressions

  function ParseExpr(toks: seq<Token>, pos: nat): (r: Parsed<Expr>)
    requires pos <= |toks|
    ensures r.Done? ==> pos < r.next <= |toks|
    decreases |toks| - pos, 9
  {
    ParseLevel(toks, pos, 0)
  }

  /** Level 0 to 5 are the binary levels; level 6 is unary_expression. */
  function ParseLevel(toks: seq<Token>, pos: nat, level: nat): (r: Parsed<Expr>)
    requires pos <= |toks| && level <= 6
    ensures r.Done? ==> pos < r.next <= |toks|
    decreases |toks| - pos, 8 - level
  {
    if level == 6 then
      if KindAt(toks, pos) == "NOT" || KindAt(toks, pos) == "MINUS" then
        match ParseLevel(toks, pos + 1, 6)
        case Done(e, q) => Done(UnaryOp(ValueText(toks[pos].value), e), q)
        case NoParse => NoParse
      else ParsePrimary(toks, pos)
    else
      match ParseLevel(toks, pos, level + 1)
      case Done(left, q) => LevelTail(toks, left, q, level)
      case NoParse => NoParse
  }

  /** The operator loop of a binary level after its left operand has been read. */
  function LevelTail(toks: seq<Token>, left: Expr, pos: nat, level: nat): (r: Parsed<Expr>)
    requires pos <= |toks| && level < 6
    ensures r.Done? ==> pos <= r.next <= |toks|
    decreases |toks| - pos, 8 - level
  {
    if KindAt(toks, pos) in LevelOps(level) then
      match ParseLevel(toks, pos + 1, level + 1)
      case Done(right, q) => LevelTail(toks, BinaryOp(left, OpName(level, toks[pos]), right), q, level)
      case NoParse => NoParse
    else Done(left, pos)
  }

  /** primary_expression and function_call. A call is wrapped in a literal, since the action
      classifies every non-string value as a literal. */
  function ParsePrimary(toks: seq<Token>, pos: nat): (r: Parsed<Expr>)
    requires pos <= |toks|
    ensures r.Done? ==> pos < r.next <= |toks|
    decreases |toks| - pos, 1
  {
    var k := KindAt(toks, pos);
    if k == "NUMBER" || k == "STRING" || k == "TRUE" || k == "FALSE" then
      Done(Classify(toks[pos].value), pos + 1)
    else if k == "IDENTIFIER" then
      if KindAt(toks, pos + 1) == "LPAREN" then
        match ParseArgs(toks, pos + 2)
        case Done(args, q) =>
          if KindAt(toks, q) == "RPAREN" then
            Done(Literal(NodeLit(FunctionCall(ValueText(toks[pos].value), args))), q + 1)
          else NoParse
        case NoParse => NoParse
      else Done(Classify(toks[pos].value), pos + 1)
    else if k == "LPAREN" then
      match ParseExpr(toks, pos + 1)
      case Done(e, q) => if KindAt(toks, q) == "RPAREN" then Done(e, q + 1) else NoParse
      case NoParse => NoParse
    else NoParse
  }

  /** argument_list: empty (before a comma or the closing parenthesis) or one expression,
      followed by any number of `, expression`. */
  function ParseArgs(toks: seq<Token>, pos: nat): (r: Parsed<seq<Expr>>)
    requires pos <= |toks|
    ensures r.Done? ==> pos <= r.next <= |toks|
    decreases |toks| - pos, 11
  {
    if KindAt(toks, pos) == "RPAREN" || KindAt(toks, pos) == "COMMA" then ArgsTail(toks, [], pos)
    else
      match ParseExpr(toks, pos)
      case Done(e, q) => ArgsTail(toks, [e], q)
      case NoParse => NoParse
  }

  function ArgsTail(toks: seq<Token>, acc: seq<Expr>, pos: nat): (r: Parsed<seq<Expr>>)
    requires pos <= |toks|
    ensures r.Done? ==> pos <= r.next <= |toks| && acc <= r.value
    decreases |toks| - pos, 10
  {
    if KindAt(toks, pos) == "COMMA" then
      match ParseExpr(toks, pos + 1)
      case Done(e, q) => ArgsTail(toks, acc + [e], q)
      case NoParse => NoParse
    else Done(acc, pos)
  }

  /** parameter_list: empty or one name, followed by any number of `, name`. */
  function ParseParams(toks: seq<Token>, pos: nat): (r: Parsed<seq<string>>)
    requires pos <= |toks|
    ensures r.Done? ==> pos <= r.next <= |toks|
  {
    if KindAt(toks, pos) == "IDENTIFIER" then ParamsTail(toks, [ValueText(toks[pos].value)], pos + 1)
    else if KindAt(toks, pos) == "RPAREN" || KindAt(toks, pos) == "COMMA" then ParamsTail(toks, [], pos)
    else NoParse
  }

  function ParamsTail(toks: seq<Token>, acc: seq<string>, pos: nat): (r: Parsed<seq<string>>)
    requires pos <= |toks|
    ensures r.Done? ==> pos <= r.next <= |toks| && acc <= r.value
    decreases |toks| - pos
  {
    if KindAt(toks, pos) == "COMMA" then
      if KindAt(toks, pos + 1) == "IDENTIFIER" then
        ParamsTail(toks, acc + [ValueText(toks[pos + 1].value)], pos + 2)
      else NoParse
    else Done(acc, pos)
  }

  // ---------------------------------------------------------------------------------------
  // Statements

  /** expression NEWLINE: the expression, and the position after the line break. */
  function ParseLine(toks: seq<Token>, pos: nat): (r: Parsed<Expr>)
    requires pos <= |toks|
    ensures r.Done? ==> pos < r.next <= |toks| && KindAt(toks, r.next - 1) == "NEWLINE"
  {
    match ParseExpr(toks, pos)
    case Done(e, q) => if KindAt(toks, q) == "NEWLINE" then Done(e, q + 1) else NoParse
    case NoParse => NoParse
  }

  /** `COLON NEWLINE statement_list`, the head of every block. */
  function ParseSuite(toks: seq<Token>, pos: nat): (r: Parsed<seq<Item>>)
    requires pos <= |toks|
    ensures r.Done? ==> pos < r.next <= |toks| && KindAt(toks, r.next - 1) == "NEWLINE"
    decreases |toks| - pos, 3
  {
    if KindAt(toks, pos) == "COLON" && KindAt(toks, pos + 1) == "NEWLINE" then
      ParseBlock(toks, pos + 2)
    else NoParse
  }

  /** One statement. Every statement ends with a line break. */
  function ParseStmt(toks: seq<Token>, pos: nat): (r: Parsed<Item>)
    requires pos <= |toks|
    ensures r.Done? ==> pos < r.next <= |toks| && KindAt(toks, r.next - 1) == "NEWLINE"
    decreases |toks| - pos, 1
  {
    var k := KindAt(toks, pos);
    if k == "VAR" || (k == "IDENTIFIER" && KindAt(toks, pos + 1) == "ASSIGN") then
      ParseAssignment(toks, pos)
    else if k == "IF" then ParseIf(toks, pos)
    else if k == "WHILE" then ParseWhile(toks, pos)
    else if k == "FOR" then ParseFor(toks, pos)
    else if k == "FUNCTION" then ParseFunction(toks, pos)
    else if k == "RETURN" then
      if KindAt(toks, pos + 1) == "NEWLINE" then Done(Node(Return(None)), pos + 2)
      else
        match ParseLine(toks, pos + 1)
        case Done(e, q) => Done(Node(Return(Some(e))), q)
        case NoParse => NoParse
    else if k == "PRINT" then
      match ParseLine(toks, pos + 1)
      case Done(e, q) => Done(Node(Print(e)), q)
      case NoParse => NoParse
    else if k == "NEWLINE" then
      if toks[pos].value == TextValue("\n") then Done(Nothing, pos + 1)
      else Done(Text(ValueText(toks[pos].value)), pos + 1)
    else
      match ParseLine(toks, pos)
      case Done(e, q) => Done(Node(ExpressionStatement(e)), q)
      case NoParse => NoParse
  }

  /** `VAR IDENTIFIER = expression NEWLINE` declares; `IDENTIFIER = expression NEWLINE` does not. */
  function ParseAssignment(toks: seq<Token>, pos: nat): (r: Parsed<Item>)
    requires pos <= |toks|
    ensures r.Done? ==> pos < r.next <= |toks| && KindAt(toks, r.next - 1) == "NEWLINE"
  {
    if KindAt(toks, pos) == "VAR" then
      if KindAt(toks, pos + 1) == "IDENTIFIER" && KindAt(toks, pos + 2) == "ASSIGN" then
        match ParseLine(toks, pos + 3)
        case Done(e, q) => Done(Node(Assignment(ValueText(toks[pos + 1].value), e, true)), q)
        case NoParse => NoParse
      else NoParse
    else if KindAt(toks, pos) == "IDENTIFIER" && KindAt(toks, pos + 1) == "ASSIGN" then
      match ParseLine(toks, pos + 2)
      case Done(e, q) => Done(Node(Assignment(ValueText(toks[pos].value), e, false)), q)
      case NoParse => NoParse
    else NoParse
  }

  /** `IF expression suite` with an optional `ELSE suite`. */
  function ParseIf(toks: seq<Token>, pos: nat): (r: Parsed<Item>)
    requires pos < |toks|
    ensures r.Done? ==> pos < r.next <= |toks| && KindAt(toks, r.next - 1) == "NEWLINE"
    decreases |toks| - pos, 0
  {
    match ParseExpr(toks, pos + 1)
    case NoParse => NoParse
    case Done(c, q) =>
      match ParseSuite(toks, q)
      case NoParse => NoParse
      case Done(thenBody, u) =>
        if KindAt(toks, u) == "ELSE" then
          match ParseSuite(toks, u + 1)
          case Done(elseBody, w) => Done(Node(MakeIf(c, Some(thenBody), Some(elseBody))), w)
          case NoParse => NoParse
        else Done(Node(MakeIf(c, Some(thenBody), None)), u)
  }

  /** `WHILE expression suite`. */
  function ParseWhile(toks: seq<Token>, pos: nat): (r: Parsed<Item>)
    requires pos < |toks|
    ensures r.Done? ==> pos < r.next <= |toks| && KindAt(toks, r.next - 1) == "NEWLINE"
    decreases |toks| - pos, 0
  {
    match ParseExpr(toks, pos + 1)
    case NoParse => NoParse
    case Done(c, q) =>
      match ParseSuite(toks, q)
      case Done(body, u) => Done(Node(While(c, body)), u)
      case NoParse => NoParse
  }

  /** `FOR IDENTIFIER = expression : expression suite`. */
  function ParseFor(toks: seq<Token>, pos: nat): (r: Parsed<Item>)
    requires pos < |toks|
    ensures r.Done? ==> pos < r.next <= |toks| && KindAt(toks, r.next - 1) == "NEWLINE"
    decreases |toks| - pos, 0
  {
    if KindAt(toks, pos + 1) == "IDENTIFIER" && KindAt(toks, pos + 2) == "ASSIGN" then
      match ParseExpr(toks, pos + 3)
      case NoParse => NoParse
      case Done(a, q) =>
        if KindAt(toks, q) == "COLON" then
          match ParseExpr(toks, q + 1)
          case NoParse => NoParse
          case Done(z, u) =>
            match ParseSuite(toks, u)
            case Done(body, w) => Done(Node(For(ValueText(toks[pos + 1].value), a, z, body)), w)
            case NoParse => NoParse
        else NoParse
    else NoParse
  }

  /** `FUNCTION IDENTIFIER ( parameter_list ) suite`. */
  function ParseFunction(toks: seq<Token>, pos: nat): (r: Parsed<Item>)
    requires pos < |toks|
    ensures r.Done? ==> pos < r.next <= |toks| && KindAt(toks, r.next - 1) == "NEWLINE"
    decreases |toks| - pos, 0
  {
    if KindAt(toks, pos + 1) == "IDENTIFIER" && KindAt(toks, pos + 2) == "LPAREN" then
      match ParseParams(toks, pos + 3)
      case NoParse => NoParse
      case Done(ps, q) =>
        if KindAt(toks, q) == "RPAREN" then
          match ParseSuite(toks, q + 1)
          case Done(body, w) => Done(Node(Function(ValueText(toks[pos + 1].value), ps, body)), w)
          case NoParse => NoParse
        else NoParse
    else NoParse
  }

  /** statement_list: at least one statement, then more for as long as the next token is
      neither `else` nor the end of input. */
  function ParseBlock(toks: seq<Token>, pos: nat): (r: Parsed<seq<Item>>)
    requires pos <= |toks|
    ensures r.Done? ==> pos < r.next <= |toks| && KindAt(toks, r.next - 1) == "NEWLINE"
    ensures r.Done? ==> |r.value| > 0
    ensures r.Done? ==> r.next == |toks| || KindAt(toks, r.next) == "ELSE"
    decreases |toks| - pos, 2
  {
    match ParseStmt(toks, pos)
    case Done(item, q) => BlockTail(toks, [item], q)
    case NoParse => NoParse
  }

  function BlockTail(toks: seq<Token>, acc: seq<Item>, pos: nat): (r: Parsed<seq<Item>>)
    requires pos <= |toks|
    ensures r.Done? ==> pos <= r.next <= |toks| && acc <= r.value
    ensures r.Done? && pos < r.next ==> KindAt(toks, r.next - 1) == "NEWLINE"
    ensures r.Done? ==> r.next == |toks| || KindAt(toks, r.next) == "ELSE"
    ensures r.Done? && r.next == pos ==> r.value == acc
    decreases |toks| - pos, 2
  {
    if pos == |toks| || KindAt(toks, pos) == "ELSE" then Done(acc, pos)
    else
      match ParseStmt(toks, pos)
      case Done(item, q) => BlockTail(toks, acc + [item], q)
      case NoParse => NoParse
  }

  /** The program production: a statement list that reaches the end of input. The parser
      returns None instead of raising. */
  function ParseTokens(toks: seq<Token>): (r: Option<Program>)
    ensures r.Some? ==> |toks| > 0 && toks[|toks| - 1].kind == "NEWLINE"
  {
    match ParseBlock(toks, 0)
    case Done(items, p) => if p == |toks| then Some(MakeProgram(items)) else None
    case NoParse => None
  }

  // ---------------------------------------------------------------------------------------
  // Properties of the grammar

  /** A token the primary-expression action turns into an identifier. */
  predicate IsName(t: Token)
  {
    t.kind == "IDENTIFIER" && t.value.TextValue? && t.value.s != "true" && t.value.s != "false"
  }

  /** An operand parsed at an inner level is the whole operand of every looser level whose
      operators do not follow it. */
  lemma {:induction false} LevelsPass(toks: seq<Token>, pos: nat, lo: nat, hi: nat, e: Expr, q: nat)
    requires pos <= |toks| && lo <= hi <= 6
    requires ParseLevel(toks, pos, hi) == Done(e, q)
    requires forall l :: lo <= l < hi ==> KindAt(toks, q) !in LevelOps(l)
    ensures ParseLevel(toks, pos, lo) == Done(e, q)
    decreases hi - lo
  {
    if lo < hi {
      LevelsPass(toks, pos, lo + 1, hi, e, q);
    }
  }

  /** Binary nodes nested to the left: `((left op1 r1) op2 r2) ...`. */
  function FoldLeft(left: Expr, ops: seq<string>, rights: seq<Expr>): Expr
    requires |ops| == |rights|
    decreases |ops|
  {
    if ops == [] then left
    else FoldLeft(BinaryOp(left, ops[0], rights[0]), ops[1..], rights[1..])
  }

  /** The root of a left fold is the last operator, applied to the fold of everything before
      it and to the last operand. */
  lemma {:induction false} FoldLeftLast(left: Expr, ops: seq<string>, rights: seq<Expr>)
    requires |ops| == |rights| && ops != []
    ensures var n := |ops| - 1;
      FoldLeft(left, ops, rights) == BinaryOp(FoldLeft(left, ops[..n], rights[..n]), ops[n], rights[n])
    decreases |ops|
  {
    var n := |ops| - 1;
    if n > 0 {
      var next := BinaryOp(left, ops[0], rights[0]);
      FoldLeftLast(next, ops[1..], rights[1..]);
      assert ops[1..][..n - 1] == ops[..n][1..];
      assert rights[1..][..n - 1] == rights[..n][1..];
    }
  }

  /** One link of an operator chain of a binary level: an operator of that level at q, the
      name the node records for it, and the next operand, read at the next tighter level, ending
      at q'. */
  predicate ChainLink(toks: seq<Token>, level: nat, op: string, right: Expr, q: nat, q': nat)
    requires level < 6
  {
    q < |toks| && KindAt(toks, q) in LevelOps(level) && OpName(level, toks[q]) == op &&
    ParseLevel(toks, q + 1, level + 1) == Done(right, q')
  }

  /** Operators ops and operands rights alternate from qs[0] on, link i running from qs[i] to
      qs[i + 1], and no operator of the level follows the last operand. */
  predicate OperatorChain(toks: seq<Token>, level: nat, ops: seq<string>, rights: seq<Expr>, qs: seq<nat>)
    requires level < 6
  {
    |ops| == |rights| && |qs| == |rights| + 1 && qs[|rights|] <= |toks| &&
    (forall i :: 0 <= i < |rights| ==> ChainLink(toks, level, ops[i], rights[i], qs[i], qs[i + 1])) &&
    KindAt(toks, qs[|rights|]) !in LevelOps(level)
  }

  /** The operator loop of a binary level reads an operator chain into left-nested nodes. */
  lemma {:induction false} LevelTailFolds(toks: seq<Token>, left: Expr, level: nat, ops: seq<string>,
    rights: seq<Expr>, qs: seq<nat>)
    requires level < 6 && OperatorChain(toks, level, ops, rights, qs)
    ensures qs[0] <= |toks|
    ensures LevelTail(toks, left, qs[0], level) == Done(FoldLeft(left, ops, rights), qs[|qs| - 1])
    decreases |rights|
  {
    if rights == [] {
      assert LevelTail(toks, left, qs[0], level) == Done(left, qs[0]);
    } else {
      assert ChainLink(toks, level, ops[0], rights[0], qs[0], qs[1]);
      var next := BinaryOp(left, ops[0], rights[0]);
      assert LevelTail(toks, left, qs[0], level) == LevelTail(toks, next, qs[1], level);
      assert OperatorChain(toks, level, ops[1..], rights[1..], qs[1..]) by {
        forall i | 0 <= i < |rights| - 1
          ensures ChainLink(toks, level, ops[1..][i], rights[1..][i], qs[1..][i], qs[1..][i + 1])
        {
          assert ChainLink(toks, level, ops[i + 1], rights[i + 1], qs[i + 1], qs[i + 2]);
        }
      }
      LevelTailFolds(toks, next, level, ops[1..], rights[1..], qs[1..]);
    }
  }

  /** Every binary level groups to the left, for any operands: when its first operand, read at
      the next tighter level, ends at qs[0] and an operator chain of the level follows, the
      level reads `((first op1 r1) op2 r2) ...` and stops after the last operand. Together
      with the operands being read at the tighter level, this is the grammar's precedence. */
  lemma LevelFoldsLeft(toks: seq<Token>, pos: nat, level: nat, first: Expr, ops: seq<string>,
    rights: seq<Expr>, qs: seq<nat>)
    requires pos <= |toks| && level < 6
    requires |qs| > 0 && ParseLevel(toks, pos, level + 1) == Done(first, qs[0])
    requires OperatorChain(toks, level, ops, rights, qs)
    ensures ParseLevel(toks, pos, level) == Done(FoldLeft(first, ops, rights), qs[|qs| - 1])
  {
    LevelTailFolds(toks, first, level, ops, rights, qs);
  }

  /** A name not followed by a parenthesis is an identifier operand. */
  lemma NameOperand(toks: seq<Token>, pos: nat)
    requires pos < |toks| && IsName(toks[pos]) && KindAt(toks, pos + 1) != "LPAREN"
    ensures ParseLevel(toks, pos, 6) == Done(Identifier(toks[pos].value.s), pos + 1)
  {
  }

  /** Subtraction groups to the left: `a - b - c` is `(a - b) - c`. */
  lemma SubtractionGroupsLeft(toks: seq<Token>)
    requires |toks| == 6 && IsName(toks[0]) && IsName(toks[2]) && IsName(toks[4])
    requires toks[1].kind == "MINUS" && toks[3].kind == "MINUS" && toks[5].kind == "NEWLINE"
    requires toks[1].value == TextValue("-") && toks[3].value == TextValue("-")
    ensures ParseLine(toks, 0) == Done(BinaryOp(BinaryOp(Identifier(toks[0].value.s), "-",
      Identifier(toks[2].value.s)), "-", Identifier(toks[4].value.s)), 6)
  {
    var a, b, c := Identifier(toks[0].value.s), Identifier(toks[2].value.s), Identifier(toks[4].value.s);
    NameOperand(toks, 0);
    NameOperand(toks, 2);
    NameOperand(toks, 4);
    LevelsPass(toks, 0, 5, 6, a, 1);
    LevelsPass(toks, 2, 5, 6, b, 3);
    LevelsPass(toks, 4, 5, 6, c, 5);
    var ab := BinaryOp(a, "-", b);
    assert LevelTail(toks, ab, 3, 4) == LevelTail(toks, BinaryOp(ab, "-", c), 5, 4);
    assert LevelTail(toks, a, 1, 4) == LevelTail(toks, ab, 3, 4);
    LevelsPass(toks, 0, 0, 4, BinaryOp(ab, "-", c), 5);
  }

  /** Multiplication binds tighter than addition: `a + b * c` is `a + (b * c)`. */
  lemma ProductBindsTighter(toks: seq<Token>)
    requires |toks| == 6 && IsName(toks[0]) && IsName(toks[2]) && IsName(toks[4])
    requires toks[1].kind == "PLUS" && toks[3].kind == "TIMES" && toks[5].kind == "NEWLINE"
    requires toks[1].value == TextValue("+") && toks[3].value == TextValue("*")
    ensures ParseLine(toks, 0) == Done(BinaryOp(Identifier(toks[0].value.s), "+",
      BinaryOp(Identifier(toks[2].value.s), "*", Identifier(toks[4].value.s))), 6)
  {
    var a, b, c := Identifier(toks[0].value.s), Identifier(toks[2].value.s), Identifier(toks[4].value.s);
    NameOperand(toks, 0);
    NameOperand(toks, 2);
    NameOperand(toks, 4);
    LevelsPass(toks, 0, 5, 6, a, 1);
    var bc := BinaryOp(b, "*", c);
    assert LevelTail(toks, b, 3, 5) == Done(bc, 5);
    var e := BinaryOp(a, "+", bc);
    assert LevelTail(toks, a, 1, 4) == Done(e, 5);
    LevelsPass(toks, 0, 0, 4, e, 5);
  }

  /** `or` and `and` nodes carry the fixed words whatever the keyword's spelling, and `and`
      binds tighter: `a or b and c` is `a or (b and c)`. */
  lemma LogicalOperators(toks: seq<Token>)
    requires |toks| == 6 && IsName(toks[0]) && IsName(toks[2]) && IsName(toks[4])
    requires toks[1].kind == "OR" && toks[3].kind == "AND" && toks[5].kind == "NEWLINE"
    ensures ParseLine(toks, 0) == Done(BinaryOp(Identifier(toks[0].value.s), "or",
      BinaryOp(Identifier(toks[2].value.s), "and", Identifier(toks[4].value.s))), 6)
  {
    var a, b, c := Identifier(toks[0].value.s), Identifier(toks[2].value.s), Identifier(toks[4].value.s);
    NameOperand(toks, 0);
    NameOperand(toks, 2);
    NameOperand(toks, 4);
    LevelsPass(toks, 0, 1, 6, a, 1);
    LevelsPass(toks, 2, 2, 6, b, 3);
    LevelsPass(toks, 4, 2, 6, c, 5);
    var bc := BinaryOp(b, "and", c);
    assert LevelTail(toks, bc, 5, 1) == Done(bc, 5);
    assert LevelTail(toks, b, 3, 1) == Done(bc, 5);
    assert ParseLevel(toks, 2, 1) == Done(bc, 5);
    var e := BinaryOp(a, "or", bc);
    assert LevelTail(toks, e, 5, 0) == Done(e, 5);
    assert LevelTail(toks, a, 1, 0) == Done(e, 5);
    assert ParseLevel(toks, 0, 0) == Done(e, 5);
  }

  /** A unary operator node carries the operator token's own text, so a localised `not` keeps
      its local spelling. */
  lemma UnaryKeepsSpelling(toks: seq<Token>)
    requires |toks| == 3 && toks[0].kind == "NOT" && IsName(toks[1]) && toks[2].kind == "NEWLINE"
    ensures ParseLine(toks, 0) ==
      Done(UnaryOp(ValueText(toks[0].value), Identifier(toks[1].value.s)), 3)
  {
    NameOperand(toks, 1);
    var e := UnaryOp(ValueText(toks[0].value), Identifier(toks[1].value.s));
    assert ParseLevel(toks, 0, 6) == Done(e, 2);
    LevelsPass(toks, 0, 0, 6, e, 2);
  }

  /** A line-break statement is None exactly when it is a single line break; a longer run is
      kept as its text. */
  lemma NewlineStatement(toks: seq<Token>, pos: nat)
    requires pos < |toks| && toks[pos].kind == "NEWLINE" && toks[pos].value.TextValue?
    ensures ParseStmt(toks, pos).Done? && ParseStmt(toks, pos).next == pos + 1
    ensures ParseStmt(toks, pos).value == Nothing <==> toks[pos].value.s == "\n"
    ensures toks[pos].value.s != "\n" ==> ParseStmt(toks, pos).value == Text(toks[pos].value.s)
  {
  }

  /** `return` followed by a line break has no expression; followed by an expression it has
      that expression. */
  lemma ReturnForms(toks: seq<Token>, pos: nat)
    requires pos + 1 < |toks| && toks[pos].kind == "RETURN"
    ensures toks[pos + 1].kind == "NEWLINE" ==> ParseStmt(toks, pos) == Done(Node(Return(None)), pos + 2)
    ensures toks[pos + 1].kind != "NEWLINE" && ParseLine(toks, pos + 1).Done? ==>
      ParseStmt(toks, pos) == Done(Node(Return(Some(ParseLine(toks, pos + 1).value))), ParseLine(toks, pos + 1).next)
  {
  }

  /** `var x = e` declares and `x = e` assigns; both end at the line break. */
  lemma AssignmentForms(toks: seq<Token>, pos: nat)
    requires pos + 2 < |toks|
    ensures (toks[pos].kind == "VAR" && toks[pos + 1].kind == "IDENTIFIER" && toks[pos + 2].kind == "ASSIGN" &&
             ParseLine(toks, pos + 3).Done?) ==>
      ParseStmt(toks, pos) == Done(Node(Assignment(ValueText(toks[pos + 1].value),
        ParseLine(toks, pos + 3).value, true)), ParseLine(toks, pos + 3).next)
    ensures toks[pos].kind == "IDENTIFIER" && toks[pos + 1].kind == "ASSIGN" && ParseLine(toks, pos + 2).Done? ==>
      ParseStmt(toks, pos) == Done(Node(Assignment(ValueText(toks[pos].value),
        ParseLine(toks, pos + 2).value, false)), ParseLine(toks, pos + 2).next)
  {
  }

  /** The tokens of a parameter list: the names separated by commas. */
  function ParamTokens(names: seq<string>): (toks: seq<Token>)
    ensures names == [] ==> toks == []
    ensures names != [] ==> |toks| == 2 * |names| - 1
  {
    if names == [] then []
    else if |names| == 1 then [Token("IDENTIFIER", TextValue(names[0]), 0, 0)]
    else ParamTokens(names[..|names| - 1]) + [Token("COMMA", TextValue(","), 0, 0),
      Token("IDENTIFIER", TextValue(names[|names| - 1]), 0, 0)]
  }

  lemma {:induction false} ParamTokensLayout(names: seq<string>)
    requires names != []
    ensures forall k :: 0 <= k < |names| ==> ParamTokens(names)[2 * k] == Token("IDENTIFIER", TextValue(names[k]), 0, 0)
    ensures forall k :: 0 <= k < |names| - 1 ==> ParamTokens(names)[2 * k + 1].kind == "COMMA"
  {
    if |names| > 1 {
      ParamTokensLayout(names[..|names| - 1]);
    }
  }

  /** toks holds `, name` for each of names from pos on. */
  predicate CommaNames(toks: seq<Token>, pos: nat, names: seq<string>)
  {
    pos + 2 * |names| <= |toks| &&
    forall k :: 0 <= k < |names| ==> NamePair(toks, pos + 2 * k, names[k])
  }

  predicate NamePair(toks: seq<Token>, pos: nat, name: string)
  {
    pos + 1 < |toks| && toks[pos].kind == "COMMA" &&
    toks[pos + 1] == Token("IDENTIFIER", TextValue(name), 0, 0)
  }

  /** The parameter loop reads `, name` pairs for as long as they come. */
  lemma {:induction false} ParamsTailReads(toks: seq<Token>, acc: seq<string>, pos: nat, names: seq<string>)
    requires CommaNames(toks, pos, names) && pos + 2 * |names| < |toks|
    requires toks[pos + 2 * |names|].kind != "COMMA"
    ensures ParamsTail(toks, acc, pos) == Done(acc + names, pos + 2 * |names|)
    decreases |names|
  {
    if names == [] {
      assert acc + names == acc;
    } else {
      assert NamePair(toks, pos, names[0]);
      assert KindAt(toks, pos) == "COMMA" && KindAt(toks, pos + 1) == "IDENTIFIER";
      assert ValueText(toks[pos + 1].value) == names[0];
      assert ParamsTail(toks, acc, pos) == ParamsTail(toks, acc + [names[0]], pos + 2);
      CommaNamesTail(toks, pos, names);
      ParamsTailReads(toks, acc + [names[0]], pos + 2, names[1..]);
      assert acc + [names[0]] + names[1..] == acc + names;
    }
  }

  /** Past the first `, name` pair come the pairs of the remaining names. */
  lemma CommaNamesTail(toks: seq<Token>, pos: nat, names: seq<string>)
    requires CommaNames(toks, pos, names) && names != []
    ensures CommaNames(toks, pos + 2, names[1..])
  {
    forall k | 0 <= k < |names| - 1
      ensures NamePair(toks, pos + 2 + 2 * k, names[1..][k])
    {
      assert NamePair(toks, pos + 2 * (k + 1), names[k + 1]);
    }
  }

  /** Parameter lists keep their source order: reading the tokens of a list of names,
      followed by the closing parenthesis, gives back the same names. */
  lemma ParamsRoundTrip(names: seq<string>, rest: seq<Token>)
    requires |rest| > 0 && rest[0].kind == "RPAREN"
    ensures ParseParams(ParamTokens(names) + rest, 0) == Done(names, |ParamTokens(names)|)
  {
    var toks := ParamTokens(names) + rest;
    if names != [] {
      ParamListLayout(names, rest);
      assert KindAt(toks, 0) == "IDENTIFIER" && ValueText(toks[0].value) == names[0];
      assert ParseParams(toks, 0) == ParamsTail(toks, [names[0]], 1);
      ParamsTailReads(toks, [names[0]], 1, names[1..]);
      assert [names[0]] + names[1..] == names;
    }
  }

  /** A list of names followed by more tokens: the first name, then `, name` pairs, then the
      first of the following tokens. */
  lemma ParamListLayout(names: seq<string>, rest: seq<Token>)
    requires names != [] && |rest| > 0 && rest[0].kind == "RPAREN"
    ensures var toks := ParamTokens(names) + rest;
      toks[0] == Token("IDENTIFIER", TextValue(names[0]), 0, 0) &&
      CommaNames(toks, 1, names[1..]) && 1 + 2 * |names[1..]| < |toks| &&
      toks[1 + 2 * |names[1..]|].kind != "COMMA"
  {
    var toks := ParamTokens(names) + rest;
    ParamTokensLayout(names);
    var tail := names[1..];
    assert toks[0] == ParamTokens(names)[0];
    forall k | 0 <= k < |tail|
      ensures NamePair(toks, 1 + 2 * k, tail[k])
    {
      assert toks[2 * (k + 1)] == ParamTokens(names)[2 * (k + 1)];
      assert toks[2 * k + 1] == ParamTokens(names)[2 * k + 1];
    }
    assert toks[1 + 2 * |tail|] == rest[0];
  }

  /** The statement parser finds a statement's closing line break: a name followed by a line
      break is an expression statement. */
  lemma NameLine(toks: seq<Token>, pos: nat)
    requires pos + 1 < |toks| && IsName(toks[pos]) && toks[pos + 1].kind == "NEWLINE"
    ensures ParseLine(toks, pos) == Done(Identifier(toks[pos].value.s), pos + 2)
  {
    NameOperand(toks, pos);
    LevelsPass(toks, pos, 0, 6, Identifier(toks[pos].value.s), pos + 1);
  }

  /** A name followed by something that is no operator and no parenthesis is a whole
      expression. */
  lemma NameExpr(toks: seq<Token>, pos: nat)
    requires pos + 1 < |toks| && IsName(toks[pos])
    requires toks[pos + 1].kind in ["COLON", "NEWLINE", "RPAREN", "COMMA"]
    ensures ParseExpr(toks, pos) == Done(Identifier(toks[pos].value.s), pos + 1)
  {
    NameOperand(toks, pos);
    LevelsPass(toks, pos, 0, 6, Identifier(toks[pos].value.s), pos + 1);
  }

  /** `print name` on a line of its own. */
  lemma PrintName(toks: seq<Token>, pos: nat)
    requires pos + 2 < |toks| && toks[pos].kind == "PRINT" && IsName(toks[pos + 1])
    requires toks[pos + 2].kind == "NEWLINE"
    ensures ParseStmt(toks, pos) == Done(Node(Print(Identifier(toks[pos + 1].value.s))), pos + 3)
  {
    NameLine(toks, pos + 1);
  }

  /** Blocks have no terminator, so an `else` goes with the innermost `if`, and a block
      swallows every statement up to `else` or the end of input:
          if c:
          if d:
          print x
          else:
          print y
      is one `if c` whose then-block is `if d … else …` and whose else-block is empty. */
  lemma DanglingElse(toks: seq<Token>)
    requires |toks| == 17
    requires toks[0].kind == "IF" && IsName(toks[1]) && toks[2].kind == "COLON" && toks[3].kind == "NEWLINE"
    requires toks[4].kind == "IF" && IsName(toks[5]) && toks[6].kind == "COLON" && toks[7].kind == "NEWLINE"
    requires toks[8].kind == "PRINT" && IsName(toks[9]) && toks[10].kind == "NEWLINE"
    requires toks[11].kind == "ELSE" && toks[12].kind == "COLON" && toks[13].kind == "NEWLINE"
    requires toks[14].kind == "PRINT" && IsName(toks[15]) && toks[16].kind == "NEWLINE"
    ensures ParseTokens(toks) == Some(Program([Node(If(Identifier(toks[1].value.s),
      [Node(If(Identifier(toks[5].value.s), [Node(Print(Identifier(toks[9].value.s)))],
        [Node(Print(Identifier(toks[15].value.s)))]))], []))]))
  {
    var c, d := Identifier(toks[1].value.s), Identifier(toks[5].value.s);
    var px, py := Node(Print(Identifier(toks[9].value.s))), Node(Print(Identifier(toks[15].value.s)));
    NameExpr(toks, 1);
    NameExpr(toks, 5);
    PrintName(toks, 8);
    PrintName(toks, 14);
    assert ParseBlock(toks, 8) == Done([px], 11);
    assert ParseSuite(toks, 6) == Done([px], 11);
    assert ParseBlock(toks, 14) == Done([py], 17);
    assert ParseSuite(toks, 12) == Done([py], 17);
    var inner := Node(If(d, [px], [py]));
    assert ParseIf(toks, 4) == Done(inner, 17);
    assert ParseBlock(toks, 4) == Done([inner], 17);
    assert ParseSuite(toks, 2) == Done([inner], 17);
    var outer := Node(If(c, [inner], []));
    assert ParseIf(toks, 0) == Done(outer, 17);
    assert ParseBlock(toks, 0) == Done([outer], 17);
    assert DropNothing([outer]) == [outer];
  }

  /** The empty program is a syntax error. */
  lemma EmptyProgramRejected()
    ensures ParseTokens([]) == None
  {
  }

  // ---------------------------------------------------------------------------------------
  // The parser object

  /** MultilingualParser: its own lexer, whose line counter carries over between parses, and
      the language it was last asked to use. */
  class Parser {
    const lexer: Lexer
    var language: string

    constructor (language: string)
      ensures this.language == language && fresh(lexer)
      ensures lexer.language == language && lexer.tokenKinds == TokenKinds(language) && lexer.lineno == 1
    {
      this.language := language;
      lexer := new Lexer(language);
    }

    /** parse: the program the grammar builds from the tokens of code, or None on a syntax
        error. */
    method Parse(code: string) returns (r: Option<Program>)
      modifies lexer`lineno
      ensures r == ParseTokens(ScanFrom(code, 0, old(lexer.lineno), KeywordsFor(lexer.language)).0)
      ensures lexer.lineno == ScanFrom(code, 0, old(lexer.lineno), KeywordsFor(lexer.language)).1
    {
      var toks := lexer.Tokenize(code);
      r := ParseTokens(toks);
    }

    /** change_language: the lexer takes up only a supported language, but the parser records
        whatever it is given. */
    method ChangeLanguage(newLanguage: string)
      modifies this, lexer
      ensures language == newLanguage
      ensures newLanguage in LanguageList() ==>
        lexer.language == newLanguage && lexer.tokenKinds == TokenKinds(newLanguage) && lexer.lineno == 1
      ensures newLanguage !in LanguageList() ==>
        lexer.language == old(lexer.language) && lexer.tokenKinds == old(lexer.tokenKinds) &&
        lexer.lineno == old(lexer.lineno)
    {
      lexer.ChangeLanguage(newLanguage);
      language := newLanguage;
    }
  }
}
