/** The syntax tree (src/ast_nodes.py): fourteen node kinds. The program root, eight statement
    kinds and five expression kinds; each visitor in the rest of the model matches on them
    exhaustively, which takes the place of the accept methods. */
module Ast {
  import opened Wrappers
  import opened Text

  /** Expression nodes: BinaryOpNode, UnaryOpNode, LiteralNode, IdentifierNode and
      FunctionCallNode. */
  datatype Expr =
    | BinaryOp(left: Expr, op: string, right: Expr)
    | UnaryOp(op: string, operand: Expr)
    | Literal(value: LitValue)
    | Identifier(name: string)
    | FunctionCall(name: string, args: seq<Expr>)

  /** What a LiteralNode holds: the integer of a NUMBER token, a boolean, or (as the parser
      builds it for every call) a FunctionCallNode object. */
  datatype LitValue = IntLit(n: int) | BoolLit(b: bool) | NodeLit(node: Expr)

  /** Statement nodes. */
  datatype Stmt =
    | Assignment(name: string, expr: Expr, isDeclaration: bool)
    | If(cond: Expr, thenBody: seq<Item>, elseBody: seq<Item>)
    | While(cond: Expr, body: seq<Item>)
    | For(variable: string, start: Expr, end: Expr, body: seq<Item>)
    | Function(name: string, params: seq<string>, body: seq<Item>)
    | Return(value: Option<Expr>)
    | Print(expr: Expr)
    | ExpressionStatement(expr: Expr)

  /** An element of a statement list: a statement node, Python's None (a lone line break), or
      the raw text of a longer run of line breaks, which the grammar action keeps as it is. */
  datatype Item = Node(stmt: Stmt) | Nothing | Text(run: string)

  /** ProgramNode. */
  datatype Program = Program(statements: seq<Item>)

  /** `xs or []`: a missing list becomes the empty list. */
  function OrEmpty<T>(xs: Option<seq<T>>): (r: seq<T>)
    ensures xs.None? ==> r == []
    ensures xs.Some? ==> r == xs.value
  {
    match xs
    case Some(s) => s
    case None => []
  }

  /** The statements of a list with the None entries removed, in order. */
  function DropNothing(items: seq<Item>): (r: seq<Item>)
    ensures |r| <= |items|
    ensures forall k :: 0 <= k < |r| ==> r[k] != Nothing
    ensures forall k :: 0 <= k < |r| ==> r[k] in items
    decreases |items|
  {
    if items == [] then []
    else
      var rest := DropNothing(items[1..]);
      if items[0] == Nothing then rest else [items[0]] + rest
  }

  /** The ProgramNode constructor: it keeps every statement that is not None. */
  function MakeProgram(items: seq<Item>): (p: Program)
    ensures forall k :: 0 <= k < |p.statements| ==> p.statements[k] != Nothing
  {
    Program(DropNothing(items))
  }

  /** The IfNode constructor: a missing else list becomes empty. */
  function MakeIf(cond: Expr, thenBody: Option<seq<Item>>, elseBody: Option<seq<Item>>): (s: Stmt)
    ensures s.If? && s.cond == cond
    ensures s.thenBody == OrEmpty(thenBody) && s.elseBody == OrEmpty(elseBody)
  {
    If(cond, OrEmpty(thenBody), OrEmpty(elseBody))
  }

  /** The number of entries of items that are not None. */
  function CountNodes(items: seq<Item>): nat
  {
    if items == [] then 0 else (if items[0] == Nothing then 0 else 1) + CountNodes(items[1..])
  }

  /** Filtering keeps exactly the non-None entries, in their order. */
  lemma {:induction false} DropNothingKeeps(items: seq<Item>)
    ensures |DropNothing(items)| == CountNodes(items)
    ensures Nothing !in items ==> DropNothing(items) == items
    ensures DropNothing(DropNothing(items)) == DropNothing(items)
  {
    if items != [] {
      DropNothingKeeps(items[1..]);
      if items[0] != Nothing {
        assert ([items[0]] + DropNothing(items[1..]))[1..] == DropNothing(items[1..]);
      }
    }
  }

  /** Filtering distributes over concatenation. */
  lemma {:induction false} DropNothingAppend(a: seq<Item>, b: seq<Item>)
    ensures DropNothing(a + b) == DropNothing(a) + DropNothing(b)
    decreases |a|
  {
    if a == [] {
      assert a + b == b;
    } else {
      assert (a + b)[1..] == a[1..] + b;
      DropNothingAppend(a[1..], b);
      if a[0] != Nothing {
        assert [a[0]] + DropNothing(a[1..]) + DropNothing(b) ==
          [a[0]] + (DropNothing(a[1..]) + DropNothing(b));
      }
    }
  }

  /** No FunctionCallNode is visited as an expression: a call may only sit inside a literal,
      where the parser puts every call it builds. */
  predicate CallFree(e: Expr)
  {
    match e
    case BinaryOp(l, _, r) => CallFree(l) && CallFree(r)
    case UnaryOp(_, x) => CallFree(x)
    case Literal(_) => true
    case Identifier(_) => true
    case FunctionCall(_, _) => false
  }

  predicate StmtCallFree(s: Stmt)
  {
    match s
    case Assignment(_, e, _) => CallFree(e)
    case If(c, t, f) => CallFree(c) && ItemsCallFree(t) && ItemsCallFree(f)
    case While(c, b) => CallFree(c) && ItemsCallFree(b)
    case For(_, a, z, b) => CallFree(a) && CallFree(z) && ItemsCallFree(b)
    case Function(_, _, b) => ItemsCallFree(b)
    case Return(v) => v.Some? ==> CallFree(v.value)
    case Print(e) => CallFree(e)
    case ExpressionStatement(e) => CallFree(e)
  }

  predicate ItemsCallFree(items: seq<Item>)
  {
    forall k :: 0 <= k < |items| ==> ItemCallFree(items[k])
  }

  predicate ItemCallFree(it: Item)
  {
    it.Node? ==> StmtCallFree(it.stmt)
  }

  // ---------------------------------------------------------------------------------------
  // __str__

  /** Python's str() of a LiteralNode's value. */
  function LitStr(v: LitValue): string
  {
    match v
    case IntLit(n) => IntStr(n)
    case BoolLit(b) => if b then "True" else "False"
    case NodeLit(e) => ExprStr(e)
  }

  /** Text that starts with a class name and an opening parenthesis, and ends by closing it. */
  predicate Headed(s: string, kind: string)
  {
    |s| > |kind| + 1 && s[..|kind| + 1] == kind + "(" && s[|s| - 1] == ')'
  }

  /** `f"{kind}({inner})"`, the shape every node's __str__ has. */
  function Wrap(kind: string, inner: string): (s: string)
    ensures Headed(s, kind)
  {
    var s := kind + "(" + inner + ")";
    assert s[..|kind| + 1] == kind + "(";
    s
  }

  /** The class an expression node's text is headed by. */
  function ExprKind(e: Expr): string
  {
    match e
    case BinaryOp(_, _, _) => "BinaryOp"
    case UnaryOp(_, _) => "UnaryOp"
    case Literal(_) => "Literal"
    case Identifier(_) => "Identifier"
    case FunctionCall(_, _) => "FunctionCall"
  }

  /** An expression node's __str__: its class name, then its parts in parentheses. */
  function ExprStr(e: Expr): (s: string)
    ensures Headed(s, ExprKind(e))
  {
    match e
    case BinaryOp(l, op, r) => Wrap("BinaryOp", ExprStr(l) + " " + op + " " + ExprStr(r))
    case UnaryOp(op, x) => Wrap("UnaryOp", op + ExprStr(x))
    case Literal(v) => Wrap("Literal", LitStr(v))
    case Identifier(n) => Wrap("Identifier", n)
    case FunctionCall(n, args) => Wrap("FunctionCall", n + "(" + ArgsStr(args) + ")")
  }

  /** The arguments of a call, rendered and joined with ", ". */
  function ArgsStr(args: seq<Expr>): (s: string)
    ensures s == "" <==> args == []
    ensures args != [] ==> ExprStr(args[0]) <= s
  {
    if args == [] then ""
    else if |args| == 1 then ExprStr(args[0])
    else ExprStr(args[0]) + ", " + ArgsStr(args[1..])
  }

  /** The class a statement node's text is headed by. */
  function StmtKind(s: Stmt): string
  {
    match s
    case Assignment(_, _, _) => "Assignment"
    case If(_, _, _) => "If"
    case While(_, _) => "While"
    case For(_, _, _, _) => "For"
    case Function(_, _, _) => "Function"
    case Return(_) => "Return"
    case Print(_) => "Print"
    case ExpressionStatement(_) => "ExpressionStatement"
  }

  /** What a statement node's __str__ puts between its parentheses. */
  function StmtInner(s: Stmt): string
  {
    match s
    case Assignment(n, e, d) => (if d then "var " else "") + n + " = " + ExprStr(e)
    case If(c, t, f) => ExprStr(c) + ", " + IntStr(|t|) + " then, " + IntStr(|f|) + " else"
    case While(c, b) => ExprStr(c) + ", " + IntStr(|b|) + " statements"
    case For(v, a, z, b) =>
      v + ": " + ExprStr(a) + " to " + ExprStr(z) + ", " + IntStr(|b|) + " statements"
    case Function(n, ps, b) => n + "(" + Join(ps, ", ") + "), " + IntStr(|b|) + " statements"
    case Return(e) => (match e case Some(x) => ExprStr(x) case None => "void")
    case Print(e) => ExprStr(e)
    case ExpressionStatement(e) => ExprStr(e)
  }

  /** A statement node's __str__: its class name, then its parts in parentheses. */
  function StmtStr(s: Stmt): (t: string)
    ensures Headed(t, StmtKind(s))
  {
    Wrap(StmtKind(s), StmtInner(s))
  }

  /** The statement class a text headed by one reads as, told apart by its first two
      characters. */
  function StmtKindOf(t: string): string
    requires |t| >= 2
  {
    match t[0]
    case 'A' => "Assignment"
    case 'I' => "If"
    case 'W' => "While"
    case 'F' => if t[1] == 'o' then "For" else "Function"
    case 'R' => "Return"
    case 'P' => "Print"
    case _ => "ExpressionStatement"
  }

  /** The expression class a text headed by one reads as, told apart by its first character. */
  function ExprKindOf(t: string): string
    requires |t| >= 1
  {
    match t[0]
    case 'B' => "BinaryOp"
    case 'U' => "UnaryOp"
    case 'L' => "Literal"
    case 'I' => "Identifier"
    case _ => "FunctionCall"
  }

  /** ProgramNode.__str__: the statement count, then " statements", in parentheses. */
  function ProgramStr(p: Program): (s: string)
    ensures Headed(s, "Program")
  {
    Wrap("Program", IntStr(|p.statements|) + " statements")
  }

  /** An assignment's text shows "var " right after the parenthesis exactly when it is a
      declaration, for a target name without spaces (as every parsed name is) other than "var"
      itself, which a language whose declaration keyword is spelt differently can use as a name. */
  lemma AssignmentStrDeclares(n: string, e: Expr, d: bool)
    requires ' ' !in n && n != "var"
    ensures StmtStr(Assignment(n, e, d))[..|"Assignment(var "|] == "Assignment(var " <==> d
  {
    var s := StmtStr(Assignment(n, e, d));
    var inner := StmtInner(Assignment(n, e, d));
    assert s == "Assignment" + "(" + inner + ")";
    assert inner == (if d then "var " else "") + n + " = " + ExprStr(e);
    DeclarationPrefix(s, n, ExprStr(e), d);
  }

  /** The prefix test on the assignment text itself. */
  lemma DeclarationPrefix(s: string, n: string, x: string, d: bool)
    requires ' ' !in n && n != "var"
    requires s == "Assignment" + "(" + ((if d then "var " else "") + n + " = " + x) + ")"
    ensures s[..|"Assignment(var "|] == "Assignment(var " <==> d
  {
    var pre := "Assignment(var ";
    var rest := n + " = " + x + ")";
    if d {
      assert s == pre + rest;
      assert s[..|pre|] == pre;
    } else {
      assert s == "Assignment(" + rest;
      if |n| >= 4 {
        assert s[..|pre|][14] == n[3] != pre[14];
      } else if |n| == 3 {
        assert s[..|pre|][11..14] == n != pre[11..14];
      } else {
        assert s[..|pre|][11 + |n|] == ' ' != pre[11 + |n|];
      }
    }
  }

  /** The program text reports the number of statements: two programs with the same text have
      the same count. */
  lemma ProgramStrCount(p: Program, q: Program)
    requires ProgramStr(p) == ProgramStr(q)
    ensures |p.statements| == |q.statements|
  {
    var a, b := NatStr(|p.statements|), NatStr(|q.statements|);
    CountDigits(ProgramStr(p), a);
    CountDigits(ProgramStr(q), b);
    NatStrInjective(|p.statements|, |q.statements|);
  }

  /** The digits of the count sit at a fixed place in the program's text. */
  lemma CountDigits(s: string, a: string)
    requires s == "Program" + "(" + (a + " statements") + ")"
    ensures |s| == |a| + 20 && s[8..8 + |a|] == a
  {
  }

  /** An expression's class can be read back from its text. */
  lemma ExprKindReadBack(e: Expr)
    ensures ExprKindOf(ExprStr(e)) == ExprKind(e)
  {
    var t, k := ExprStr(e), ExprKind(e);
    assert t[0] == (k + "(")[0] == k[0];
  }

  /** Two expressions that print alike are nodes of the same class. */
  lemma ExprStrKind(a: Expr, b: Expr)
    requires ExprStr(a) == ExprStr(b)
    ensures ExprKind(a) == ExprKind(b)
  {
    ExprKindReadBack(a);
    ExprKindReadBack(b);
  }

  /** A statement's class can be read back from its text. */
  lemma StmtKindReadBack(s: Stmt)
    ensures StmtKindOf(StmtStr(s)) == StmtKind(s)
  {
    KindOfHeaded(StmtStr(s), StmtKind(s));
  }

  /** Text headed by a statement class name reads back as that class. */
  lemma KindOfHeaded(t: string, kind: string)
    requires Headed(t, kind)
    requires kind in {"Assignment", "If", "While", "For", "Function", "Return", "Print",
      "ExpressionStatement"}
    ensures StmtKindOf(t) == kind
  {
    HeadedStart(t, kind);
  }

  /** Headed text starts with the class name's first two characters. */
  lemma HeadedStart(t: string, kind: string)
    requires Headed(t, kind) && |kind| >= 2
    ensures t[0] == kind[0] && t[1] == kind[1]
  {
    assert t[..|kind| + 1][0] == kind[0] && t[..|kind| + 1][1] == kind[1];
  }

  /** Two statements that print alike are nodes of the same class. */
  lemma StmtStrKind(a: Stmt, b: Stmt)
    requires StmtStr(a) == StmtStr(b)
    ensures StmtKind(a) == StmtKind(b)
  {
    StmtKindReadBack(a);
    StmtKindReadBack(b);
  }
}
