/** The code analyzer (src/code_analyzer.py): a read-only walk over the syntax tree that counts
    statements, collects names and control structures and adds up a complexity score; the
    description built from that count; and a keyword heuristic over raw text. */
module Analyzer {
  import opened Wrappers
  import opened Text
  import opened Languages
  import opened Ast

  // ---------------------------------------------------------------------------------------
  // The analysis dict

  /** The dict that _analyze_node fills in; the name collections are still Python sets. */
  datatype Analysis = Analysis(
    totalStatements: nat,
    variables: set<string>,
    functions: set<string>,
    controls: seq<string>,
    score: nat)

  const Zero := Analysis(0, {}, {}, [], 0)

  /** What two parts of a tree contribute together: names united, control structures in
      order, scores added. The statement count is the first operand's. */
  function Plus(a: Analysis, b: Analysis): Analysis
  {
    Analysis(a.totalStatements, a.variables + b.variables, a.functions + b.functions,
      a.controls + b.controls, a.score + b.score)
  }

  function Scored(n: nat): Analysis { Zero.(score := n) }

  function Named(n: string): Analysis { Zero.(variables := {n}) }

  function Control(kind: string, n: nat): Analysis { Zero.(controls := [kind], score := n) }

  // ---------------------------------------------------------------------------------------
  // _analyze_node: the accumulating walk, in the order the source visits the tree

  /** The walk only adds to the dict it is given: the statement count stays, names and
      control structures are kept (new control structures go after the old ones), and the
      score never drops. */
  predicate Grows(a: Analysis, r: Analysis)
  {
    r.totalStatements == a.totalStatements && a.variables <= r.variables && a.functions <= r.functions &&
    |a.controls| <= |r.controls| && r.controls[..|a.controls|] == a.controls && a.score <= r.score
  }

  /** An expression adds variables and score only. */
  function WalkExpr(a: Analysis, e: Expr): (r: Analysis)
    ensures Grows(a, r) && r.functions == a.functions && r.controls == a.controls
    decreases e
  {
    match e
    case BinaryOp(l, _, rhs) => WalkExpr(WalkExpr(a.(score := a.score + 1), l), rhs)
    case UnaryOp(_, x) => WalkExpr(a.(score := a.score + 1), x)
    case Literal(_) => a
    case Identifier(n) => a.(variables := a.variables + {n})
    case FunctionCall(_, args) => WalkArgs(a.(score := a.score + 2), args)
  }

  function WalkArgs(a: Analysis, args: seq<Expr>): (r: Analysis)
    ensures Grows(a, r) && r.functions == a.functions && r.controls == a.controls
    decreases args
  {
    if args == [] then a else WalkArgs(WalkExpr(a, args[0]), args[1..])
  }

  /** `if stmt: self._analyze_node(stmt, analysis)`: None is skipped, and a string entry
      matches none of the node kinds, so it adds nothing either. */
  function WalkItem(a: Analysis, it: Item): (r: Analysis)
    ensures Grows(a, r)
    decreases it
  {
    match it
    case Node(s) => WalkStmt(a, s)
    case Nothing => a
    case Text(_) => a
  }

  function WalkItems(a: Analysis, items: seq<Item>): (r: Analysis)
    ensures Grows(a, r)
    decreases items
  {
    if items == [] then a else WalkItems(WalkItem(a, items[0]), items[1..])
  }

  /** A statement adds its own name or control structure, then what its parts add. */
  function WalkStmt(a: Analysis, s: Stmt): (r: Analysis)
    ensures Grows(a, r)
    ensures s.Function? ==> s.name in r.functions
    ensures s.Assignment? ==> s.name in r.variables
    decreases s
  {
    match s
    case Assignment(n, e, _) => WalkExpr(a.(variables := a.variables + {n}), e)
    case If(c, t, f) =>
      WalkItems(WalkItems(WalkExpr(a.(controls := a.controls + ["if"], score := a.score + 2), c), t), f)
    case While(c, body) =>
      WalkItems(WalkExpr(a.(controls := a.controls + ["while"], score := a.score + 3), c), body)
    case For(v, start, end, body) =>
      var a1 := a.(controls := a.controls + ["for"], score := a.score + 3, variables := a.variables + {v});
      WalkItems(WalkExpr(WalkExpr(a1, start), end), body)
    case Function(n, ps, body) =>
      var a1 := a.(functions := a.functions + {n}, score := a.score + 5);
      WalkItems(a1.(variables := a1.variables + (set p | p in ps)), body)
    case Return(v) => if v.Some? then WalkExpr(a, v.value) else a
    case Print(e) => WalkExpr(a, e)
    case ExpressionStatement(e) => WalkExpr(a, e)
  }

  /** analyze_ast up to the description: the statement count is the length of the program's
      list, then every statement is walked. */
  function Analyze(p: Program): (r: Analysis)
    ensures r.totalStatements == |p.statements|
  {
    WalkItems(Zero.(totalStatements := |p.statements|), p.statements)
  }

  // ---------------------------------------------------------------------------------------
  // What each part of the tree contributes, defined bottom-up

  function ExprPart(e: Expr): (p: Analysis)
    ensures p.totalStatements == 0
    decreases e
  {
    match e
    case BinaryOp(l, _, rhs) => Plus(Plus(Scored(1), ExprPart(l)), ExprPart(rhs))
    case UnaryOp(_, x) => Plus(Scored(1), ExprPart(x))
    case Literal(_) => Zero
    case Identifier(n) => Named(n)
    case FunctionCall(_, args) => Plus(Scored(2), ArgsPart(args))
  }

  function ArgsPart(args: seq<Expr>): (p: Analysis)
    ensures p.totalStatements == 0
    decreases args
  {
    if args == [] then Zero else Plus(ExprPart(args[0]), ArgsPart(args[1..]))
  }

  function ItemPart(it: Item): (p: Analysis)
    ensures p.totalStatements == 0
    decreases it
  {
    match it
    case Node(s) => StmtPart(s)
    case Nothing => Zero
    case Text(_) => Zero
  }

  function ItemsPart(items: seq<Item>): (p: Analysis)
    ensures p.totalStatements == 0
    decreases items
  {
    if items == [] then Zero else Plus(ItemPart(items[0]), ItemsPart(items[1..]))
  }

  function StmtPart(s: Stmt): (p: Analysis)
    ensures p.totalStatements == 0
    decreases s
  {
    match s
    case Assignment(n, e, _) => Plus(Named(n), ExprPart(e))
    case If(c, t, f) => Plus(Plus(Plus(Control("if", 2), ExprPart(c)), ItemsPart(t)), ItemsPart(f))
    case While(c, body) => Plus(Plus(Control("while", 3), ExprPart(c)), ItemsPart(body))
    case For(v, start, end, body) =>
      Plus(Plus(Plus(Plus(Control("for", 3), Named(v)), ExprPart(start)), ExprPart(end)), ItemsPart(body))
    case Function(n, ps, body) =>
      Plus(Zero.(functions := {n}, score := 5, variables := set p | p in ps), ItemsPart(body))
    case Return(v) => if v.Some? then ExprPart(v.value) else Zero
    case Print(e) => ExprPart(e)
    case ExpressionStatement(e) => ExprPart(e)
  }

  lemma PlusAssoc(a: Analysis, b: Analysis, c: Analysis)
    ensures Plus(Plus(a, b), c) == Plus(a, Plus(b, c))
  {
    assert (a.controls + b.controls) + c.controls == a.controls + (b.controls + c.controls);
  }

  lemma PlusZero(a: Analysis)
    ensures Plus(a, Zero) == a
  {
    assert a.controls + [] == a.controls;
  }

  // ---------------------------------------------------------------------------------------
  // The walk adds exactly each part's contribution

  lemma {:induction false} WalkExprSums(a: Analysis, e: Expr)
    ensures WalkExpr(a, e) == Plus(a, ExprPart(e))
    decreases e
  {
    match e
    case BinaryOp(l, _, rhs) =>
      var a1 := a.(score := a.score + 1);
      WalkExprSums(a1, l);
      WalkExprSums(WalkExpr(a1, l), rhs);
      PlusAssoc(a, Scored(1), ExprPart(l));
      PlusAssoc(a, Plus(Scored(1), ExprPart(l)), ExprPart(rhs));
      assert a1 == Plus(a, Scored(1)) by { PlusZero(a); }
    case UnaryOp(_, x) =>
      WalkExprSums(a.(score := a.score + 1), x);
      PlusAssoc(a, Scored(1), ExprPart(x));
      assert a.(score := a.score + 1) == Plus(a, Scored(1)) by { PlusZero(a); }
    case Literal(_) => PlusZero(a);
    case Identifier(n) => assert a.controls + [] == a.controls;
    case FunctionCall(_, args) =>
      WalkArgsSums(a.(score := a.score + 2), args);
      PlusAssoc(a, Scored(2), ArgsPart(args));
      assert a.(score := a.score + 2) == Plus(a, Scored(2)) by { PlusZero(a); }
  }

  lemma {:induction false} WalkArgsSums(a: Analysis, args: seq<Expr>)
    ensures WalkArgs(a, args) == Plus(a, ArgsPart(args))
    decreases args
  {
    if args == [] {
      PlusZero(a);
    } else {
      WalkExprSums(a, args[0]);
      WalkArgsSums(WalkExpr(a, args[0]), args[1..]);
      PlusAssoc(a, ExprPart(args[0]), ArgsPart(args[1..]));
    }
  }

  lemma {:induction false} WalkItemsSums(a: Analysis, items: seq<Item>)
    ensures WalkItems(a, items) == Plus(a, ItemsPart(items))
    decreases items
  {
    if items == [] {
      PlusZero(a);
    } else {
      WalkItemSums(a, items[0]);
      WalkItemsSums(WalkItem(a, items[0]), items[1..]);
      PlusAssoc(a, ItemPart(items[0]), ItemsPart(items[1..]));
    }
  }

  lemma {:induction false} WalkItemSums(a: Analysis, it: Item)
    ensures WalkItem(a, it) == Plus(a, ItemPart(it))
    decreases it
  {
    match it
    case Node(s) => WalkStmtSums(a, s);
    case Nothing => PlusZero(a);
    case Text(_) => PlusZero(a);
  }

  lemma {:induction false} WalkStmtSums(a: Analysis, s: Stmt)
    ensures WalkStmt(a, s) == Plus(a, StmtPart(s))
    decreases s, 1
  {
    match s
    case Assignment(n, e, d) => AssignmentSums(a, n, e, d);
    case If(c, t, f) => IfSums(a, c, t, f);
    case While(c, body) => WhileSums(a, c, body);
    case For(v, start, end, body) => ForSums(a, v, start, end, body);
    case Function(n, ps, body) => FunctionSums(a, n, ps, body);
    case Return(v) =>
      if v.Some? { WalkExprSums(a, v.value); } else { PlusZero(a); }
    case Print(e) => WalkExprSums(a, e);
    case ExpressionStatement(e) => WalkExprSums(a, e);
  }

  lemma AssignmentSums(a: Analysis, n: string, e: Expr, d: bool)
    ensures WalkStmt(a, Assignment(n, e, d)) == Plus(a, StmtPart(Assignment(n, e, d)))
  {
    var a1 := a.(variables := a.variables + {n});
    WalkExprSums(a1, e);
    assert a1 == Plus(a, Named(n)) by { PlusZero(a); }
    PlusAssoc(a, Named(n), ExprPart(e));
  }

  lemma {:induction false} IfSums(a: Analysis, c: Expr, t: seq<Item>, f: seq<Item>)
    ensures WalkStmt(a, If(c, t, f)) == Plus(a, StmtPart(If(c, t, f)))
    decreases If(c, t, f), 0
  {
    var k := Control("if", 2);
    var a1 := a.(controls := a.controls + ["if"], score := a.score + 2);
    assert a1 == Plus(a, k);
    WalkExprSums(a1, c);
    var a2 := WalkExpr(a1, c);
    WalkItemsSums(a2, t);
    WalkItemsSums(WalkItems(a2, t), f);
    PlusAssoc(a, k, ExprPart(c));
    PlusAssoc(a, Plus(k, ExprPart(c)), ItemsPart(t));
    PlusAssoc(a, Plus(Plus(k, ExprPart(c)), ItemsPart(t)), ItemsPart(f));
  }

  lemma {:induction false} WhileSums(a: Analysis, c: Expr, body: seq<Item>)
    ensures WalkStmt(a, While(c, body)) == Plus(a, StmtPart(While(c, body)))
    decreases While(c, body), 0
  {
    var k := Control("while", 3);
    var a1 := a.(controls := a.controls + ["while"], score := a.score + 3);
    assert a1 == Plus(a, k);
    WalkExprSums(a1, c);
    WalkItemsSums(WalkExpr(a1, c), body);
    PlusAssoc(a, k, ExprPart(c));
    PlusAssoc(a, Plus(k, ExprPart(c)), ItemsPart(body));
  }

  lemma {:induction false} ForSums(a: Analysis, v: string, start: Expr, end: Expr, body: seq<Item>)
    ensures WalkStmt(a, For(v, start, end, body)) == Plus(a, StmtPart(For(v, start, end, body)))
    decreases For(v, start, end, body), 0
  {
    var head := Plus(Plus(Plus(Control("for", 3), Named(v)), ExprPart(start)), ExprPart(end));
    var a1 := a.(controls := a.controls + ["for"], score := a.score + 3, variables := a.variables + {v});
    assert WalkStmt(a, For(v, start, end, body)) == WalkItems(WalkExpr(WalkExpr(a1, start), end), body);
    assert StmtPart(For(v, start, end, body)) == Plus(head, ItemsPart(body));
    ForHeadSums(a, v, start, end);
    var x := WalkExpr(WalkExpr(a1, start), end);
    assert x == Plus(a, head);
    WalkItemsSums(x, body);
    PlusAssoc(a, head, ItemsPart(body));
  }

  /** The part of a for statement before its body. */
  lemma ForHeadSums(a: Analysis, v: string, start: Expr, end: Expr)
    ensures var a1 := a.(controls := a.controls + ["for"], score := a.score + 3, variables := a.variables + {v});
      WalkExpr(WalkExpr(a1, start), end) ==
        Plus(a, Plus(Plus(Plus(Control("for", 3), Named(v)), ExprPart(start)), ExprPart(end)))
  {
    var k := Plus(Control("for", 3), Named(v));
    var a1 := a.(controls := a.controls + ["for"], score := a.score + 3, variables := a.variables + {v});
    assert a1 == Plus(a, k);
    WalkExprSums(a1, start);
    WalkExprSums(WalkExpr(a1, start), end);
    PlusAssoc(a, k, ExprPart(start));
    PlusAssoc(a, Plus(k, ExprPart(start)), ExprPart(end));
  }

  lemma {:induction false} FunctionSums(a: Analysis, n: string, ps: seq<string>, body: seq<Item>)
    ensures WalkStmt(a, Function(n, ps, body)) == Plus(a, StmtPart(Function(n, ps, body)))
    decreases Function(n, ps, body), 0
  {
    var k := Zero.(functions := {n}, score := 5, variables := set p | p in ps);
    var a1 := a.(functions := a.functions + {n}, score := a.score + 5);
    var a2 := a1.(variables := a1.variables + (set p | p in ps));
    assert a2 == Plus(a, k);
    WalkItemsSums(a2, body);
    PlusAssoc(a, k, ItemsPart(body));
  }

  /** analyze_ast's walk, stated without the accumulator: the statement count, then what the
      statements contribute. */
  lemma AnalyzeSums(p: Program)
    ensures Analyze(p) == Plus(Zero.(totalStatements := |p.statements|), ItemsPart(p.statements))
  {
    WalkItemsSums(Zero.(totalStatements := |p.statements|), p.statements);
  }

  // ---------------------------------------------------------------------------------------
  // Properties of the contributions

  /** A statement list contributes what its two halves do, in order. */
  lemma {:induction false} ItemsPartAppend(x: seq<Item>, y: seq<Item>)
    ensures ItemsPart(x + y) == Plus(ItemsPart(x), ItemsPart(y))
    decreases |x|
  {
    if x == [] {
      assert x + y == y;
      assert [] + ItemsPart(y).controls == ItemsPart(y).controls;
    } else {
      assert (x + y)[1..] == x[1..] + y;
      ItemsPartAppend(x[1..], y);
      PlusAssoc(ItemPart(x[0]), ItemsPart(x[1..]), ItemsPart(y));
    }
  }

  /** Every recorded control structure adds at least 2 to the score. */
  lemma {:induction false} ScoreCoversControls(items: seq<Item>)
    ensures ItemsPart(items).score >= 2 * |ItemsPart(items).controls|
    decreases items
  {
    if items != [] {
      ScoreCoversControls(items[1..]);
      ItemScoreCoversControls(items[0]);
    }
  }

  lemma {:induction false} ItemScoreCoversControls(it: Item)
    ensures ItemPart(it).score >= 2 * |ItemPart(it).controls|
    decreases it
  {
    if it.Node? {
      StmtScoreCoversControls(it.stmt);
    }
  }

  lemma {:induction false} StmtScoreCoversControls(s: Stmt)
    ensures StmtPart(s).score >= 2 * |StmtPart(s).controls|
    decreases s
  {
    ExprPartShape(s);
    match s
    case If(_, t, f) => ScoreCoversControls(t); ScoreCoversControls(f);
    case While(_, body) => ScoreCoversControls(body);
    case For(_, _, _, body) => ScoreCoversControls(body);
    case Function(_, _, body) => ScoreCoversControls(body);
    case _ =>
  }

  /** The expressions a statement holds record no control structure and no function. */
  lemma ExprPartShape(s: Stmt)
    ensures forall e :: e < s ==> ExprPart(e).controls == [] && ExprPart(e).functions == {}
  {
    forall e | e < s
      ensures ExprPart(e).controls == [] && ExprPart(e).functions == {}
    {
      ExprNoControls(e);
    }
  }

  lemma {:induction false} ExprNoControls(e: Expr)
    ensures ExprPart(e).controls == [] && ExprPart(e).functions == {}
    decreases e
  {
    match e
    case BinaryOp(l, _, rhs) => ExprNoControls(l); ExprNoControls(rhs);
    case UnaryOp(_, x) => ExprNoControls(x);
    case Literal(_) =>
    case Identifier(_) =>
    case FunctionCall(_, args) => ArgsNoControls(args);
  }

  lemma {:induction false} ArgsNoControls(args: seq<Expr>)
    ensures ArgsPart(args).controls == [] && ArgsPart(args).functions == {}
    decreases args
  {
    if args != [] {
      ExprNoControls(args[0]);
      ArgsNoControls(args[1..]);
    }
  }

  /** The weights of expressions: a literal adds nothing (so a call the parser wraps in a
      literal is neither scored nor named), a call adds 2 without recording its name, and an
      operator adds 1. */
  lemma ExprWeights(v: LitValue, n: string, op: string, x: Expr, y: Expr)
    ensures ExprPart(Literal(v)) == Zero
    ensures ExprPart(FunctionCall(n, [])).score == 2 && n !in ExprPart(FunctionCall(n, [])).variables
    ensures ExprPart(UnaryOp(op, x)).score == 1 + ExprPart(x).score
    ensures ExprPart(BinaryOp(x, op, y)).score == 1 + ExprPart(x).score + ExprPart(y).score
  {
  }

  /** The weights of statements: an if adds 2 and a while 3, on top of what their parts
      add. */
  lemma BranchWeights(c: Expr, t: seq<Item>, f: seq<Item>)
    ensures StmtPart(If(c, t, f)).score == 2 + ExprPart(c).score + ItemsPart(t).score + ItemsPart(f).score
    ensures StmtPart(While(c, t)).score == 3 + ExprPart(c).score + ItemsPart(t).score
  {
  }

  /** A for adds 3 and a function 5, on top of what their parts add. */
  lemma DefinitionWeights(n: string, c: Expr, e: Expr, t: seq<Item>, ps: seq<string>)
    ensures StmtPart(For(n, c, e, t)).score == 3 + ExprPart(c).score + ExprPart(e).score + ItemsPart(t).score
    ensures StmtPart(Function(n, ps, t)).score == 5 + ItemsPart(t).score
  {
  }

  /** Control structures are listed in pre-order: an if before the structures of its condition's
      branches, the then branch before the else branch. */
  lemma PreOrder(c: Expr, t: seq<Item>, f: seq<Item>, rest: seq<Item>)
    ensures ItemsPart([Node(If(c, t, f))] + rest).controls ==
      ["if"] + ItemsPart(t).controls + ItemsPart(f).controls + ItemsPart(rest).controls
  {
    ItemsCons(Node(If(c, t, f)), rest);
    IfControls(c, t, f);
  }

  lemma ItemsCons(it: Item, rest: seq<Item>)
    ensures ItemsPart([it] + rest) == Plus(ItemPart(it), ItemsPart(rest))
  {
    assert ([it] + rest)[0] == it && ([it] + rest)[1..] == rest;
  }

  lemma IfControls(c: Expr, t: seq<Item>, f: seq<Item>)
    ensures StmtPart(If(c, t, f)).controls == ["if"] + ItemsPart(t).controls + ItemsPart(f).controls
  {
    ExprNoControls(c);
  }

  /** Assignment targets, for variables, parameters and identifier reads are recorded as
      variables; defined names as functions. */
  lemma NamesRecorded(n: string, e: Expr, d: bool, ps: seq<string>, body: seq<Item>, p: string)
    ensures n in StmtPart(Assignment(n, e, d)).variables
    ensures n in StmtPart(For(n, e, e, body)).variables
    ensures n in ExprPart(Identifier(n)).variables
    ensures p in ps ==> p in StmtPart(Function(n, ps, body)).variables
    ensures n in StmtPart(Function(n, ps, body)).functions
  {
  }

  // ---------------------------------------------------------------------------------------
  // The description

  datatype Band = Simple | Moderate | Complex

  /** The complexity bands every description generator uses. */
  function BandOf(score: int): (b: Band)
    ensures b == Simple <==> score < 5
    ensures b == Complex <==> score >= 15
  {
    if score < 5 then Simple else if score < 15 then Moderate else Complex
  }

  function BandSentence(b: Band): string
  {
    match b
    case Simple => "This is a simple program with low complexity."
    case Moderate => "This is a moderately complex program."
    case Complex => "This is a complex program with advanced logic."
  }

  /** `', '.join(names)` after a count, with the singular for one. */
  function Counted(prefix: string, one: string, many: string, names: seq<string>): string
  {
    if |names| == 1 then prefix + "1 " + one + ": " + Join(names, ", ") + "."
    else prefix + NatStr(|names|) + " " + many + ": " + Join(names, ", ") + "."
  }

  /** _generate_english_description's sentences, given the order in which the name sets and
      the set of control kinds are listed. */
  function EnglishParts(total: nat, vars: seq<string>, funcs: seq<string>, kinds: seq<string>, score: int)
    : (parts: seq<string>)
    ensures |parts| == 2 + (if vars != [] then 1 else 0) + (if funcs != [] then 1 else 0) +
      (if kinds != [] then 1 else 0)
    ensures parts[0] == "This program contains " + NatStr(total) + " statements."
    ensures parts[|parts| - 1] == BandSentence(BandOf(score))
  {
    ["This program contains " + NatStr(total) + " statements."] +
    (if vars != [] then [Counted("It uses ", "variable", "variables", vars)] else []) +
    (if funcs != [] then [Counted("It defines ", "function", "functions", funcs)] else []) +
    (if kinds != [] then ["The program uses control structures: " + Join(kinds, ", ") + "."] else []) +
    [BandSentence(BandOf(score))]
  }

  /** The sentences joined by spaces: the statement count first, the complexity band last. */
  function EnglishDescription(total: nat, vars: seq<string>, funcs: seq<string>, kinds: seq<string>, score: int)
    : (d: string)
    ensures var first := "This program contains " + NatStr(total) + " statements.";
      |d| >= |first| && d[..|first|] == first
    ensures var last := BandSentence(BandOf(score));
      |d| >= |last| && d[|d| - |last|..] == last
  {
    JoinEnds(EnglishParts(total, vars, funcs, kinds, score), " ");
    Join(EnglishParts(total, vars, funcs, kinds, score), " ")
  }

  /** Which generator _generate_description picks: the language's own, or English for a
      language without one. */
  function DescriptionLanguage(lang: string): (d: string)
    ensures d in LanguageList()
    ensures lang in LanguageList() ==> d == lang
    ensures lang !in LanguageList() ==> d == "english"
  {
    match lang
    case "tamil" => "tamil"
    case "malayalam" => "malayalam"
    case "telugu" => "telugu"
    case "hindi" => "hindi"
    case "sanskrit" => "sanskrit"
    case _ => "english"
  }

  /** A description: the English text, or, for the five other languages, which generator was
      used and the band it reports (their sentences are translations of the English ones). */
  datatype Description = English(text: string) | Localised(language: string, band: Band)

  function Describe(lang: string, total: nat, vars: seq<string>, funcs: seq<string>, kinds: seq<string>,
    score: int): (d: Description)
    ensures d.English? <==> DescriptionLanguage(lang) == "english"
    ensures d.Localised? ==> d.language == lang && d.band == BandOf(score)
  {
    if DescriptionLanguage(lang) == "english" then English(EnglishDescription(total, vars, funcs, kinds, score))
    else Localised(DescriptionLanguage(lang), BandOf(score))
  }

  /** The dict analyze_ast returns, its sets turned into lists. */
  datatype Report = Report(
    totalStatements: nat,
    variables: seq<string>,
    functions: seq<string>,
    controls: seq<string>,
    score: nat,
    description: Description)

  /** xs lists the members of s, each once. */
  ghost predicate Enumerates(xs: seq<string>, s: set<string>)
  {
    |xs| == |s| && forall x :: x in xs <==> x in s
  }

  // ---------------------------------------------------------------------------------------
  // analyze_code_string

  /** The dict analyze_code_string returns. */
  datatype TextReport = TextReport(
    lines: nat,
    characters: nat,
    keywordsUsed: seq<string>,
    estimatedComplexity: string,
    potentialIssues: seq<string>,
    suggestions: seq<string>)

  /** The spellings, in table order, that occur somewhere in code. */
  function KeywordsIn(spellings: seq<string>, code: string): (r: seq<string>)
    ensures |r| <= |spellings|
  {
    if spellings == [] then []
    else (if FindIn(code, spellings[0]) then [spellings[0]] else []) + KeywordsIn(spellings[1..], code)
  }

  lemma KeywordsInStep(spellings: seq<string>, i: nat, code: string)
    requires i < |spellings|
    ensures KeywordsIn(spellings[i..], code) ==
      (if FindIn(code, spellings[i]) then [spellings[i]] else []) + KeywordsIn(spellings[i + 1..], code)
  {
    assert spellings[i..][1..] == spellings[i + 1..];
  }

  /** A word is found exactly when it is one of the spellings and occurs in code. */
  lemma {:induction false} KeywordsInMembers(spellings: seq<string>, code: string)
    ensures forall w :: w in KeywordsIn(spellings, code) <==> w in spellings && Contains(code, w)
  {
    if spellings != [] {
      KeywordsInMembers(spellings[1..], code);
      assert spellings == [spellings[0]] + spellings[1..];
    }
  }

  function Estimate(keywordCount: nat): (s: string)
    ensures s == "High" <==> keywordCount > 10
    ensures s == "Low" <==> keywordCount <= 5
    ensures s in {"Low", "Medium", "High"}
  {
    if keywordCount > 10 then "High" else if keywordCount > 5 then "Medium" else "Low"
  }

  const InfiniteLoop := "Potential infinite loop detected"
  const UseFunctions := "Consider breaking large programs into functions"

  /** The infinite-loop check, as written: it looks for the English spellings of while and
      break among the keywords found. */
  function LoopIssues(used: seq<string>): (r: seq<string>)
    ensures r != [] <==> "while" in used && "break" !in used
  {
    if "while" in used && "break" !in used then [InfiniteLoop] else []
  }

  /** The check the analyzer evidently means: the language's own spellings of while and
      break. */
  function LoopIssuesIntended(lang: string, used: seq<string>): (r: seq<string>)
    ensures r != [] <==> (Get(KeywordsFor(lang), "while").Some? &&
      Get(KeywordsFor(lang), "while").value in used &&
      (Get(KeywordsFor(lang), "break").None? || Get(KeywordsFor(lang), "break").value !in used))
  {
    var w := Get(KeywordsFor(lang), "while");
    var b := Get(KeywordsFor(lang), "break");
    if w.Some? && w.value in used && (b.None? || b.value !in used) then [InfiniteLoop] else []
  }

  /** analyze_code_string, with the loop issue computed by the check passed in. */
  function TextAnalysisWith(lang: string, code: string, intended: bool): (r: TextReport)
    ensures r.lines == CountChar(code, '\n') + 1 && r.characters == |code|
    ensures r.estimatedComplexity == Estimate(|r.keywordsUsed|)
    ensures r.suggestions != [] <==> CountChar(code, '\n') >= 50
  {
    SplitCount(code, '\n');
    var used := KeywordsIn(Spellings(KeywordsFor(lang)), code);
    var lines := |Split(code, '\n')|;
    TextReport(lines, |code|, used, Estimate(|used|),
      if intended then LoopIssuesIntended(lang, used) else LoopIssues(used),
      if lines > 50 then [UseFunctions] else [])
  }

  function TextAnalysis(lang: string, code: string): (r: TextReport)
    ensures r.potentialIssues != [] <==> "while" in r.keywordsUsed && "break" !in r.keywordsUsed
  {
    TextAnalysisWith(lang, code, false)
  }

  /** keywords_used holds exactly the language's spellings that occur in code. */
  lemma KeywordsUsed(lang: string, code: string, intended: bool)
    ensures forall w :: w in TextAnalysisWith(lang, code, intended).keywordsUsed <==>
      IsKeyword(w, lang) && Contains(code, w)
  {
    KeywordsInMembers(Spellings(KeywordsFor(lang)), code);
  }

  /** As written, the loop issue needs the word "while" itself to be one of the language's
      spellings. */
  lemma LoopIssueNeedsEnglishWhile(lang: string, code: string)
    requires !IsKeyword("while", lang)
    ensures TextAnalysis(lang, code).potentialIssues == []
  {
    KeywordsUsed(lang, code, false);
  }

  /** The intended check reports code that holds the language's while and not its break. */
  lemma LoopIssueIntendedReports(lang: string, code: string, w: string, b: string)
    requires Get(KeywordsFor(lang), "while") == Some(w) && Get(KeywordsFor(lang), "break") == Some(b)
    requires IsKeyword(w, lang) && Contains(code, w) && !Contains(code, b)
    ensures TextAnalysisWith(lang, code, true).potentialIssues == [InfiniteLoop]
  {
    KeywordsUsed(lang, code, true);
    var used := TextAnalysisWith(lang, code, true).keywordsUsed;
    assert w in used && b !in used;
  }

  /** Tamil code with varaikum (while) and without neekku (break): as written no issue is
      reported, while the intended check reports the loop. */
  lemma TamilLoopMissed(code: string)
    requires Contains(code, "varaikum") && !Contains(code, "neekku")
    ensures TextAnalysis("tamil", code).potentialIssues == []
    ensures TextAnalysisWith("tamil", code, true).potentialIssues == [InfiniteLoop]
  {
    TamilLoopKeywords();
    LoopIssueNeedsEnglishWhile("tamil", code);
    LoopIssueIntendedReports("tamil", code, "varaikum", "neekku");
  }

  /** Tamil spells while as varaikum and break as neekku, and has no keyword spelled while. */
  lemma TamilLoopKeywords()
    ensures Get(KeywordsFor("tamil"), "while") == Some("varaikum")
    ensures Get(KeywordsFor("tamil"), "break") == Some("neekku")
    ensures IsKeyword("varaikum", "tamil") && !IsKeyword("while", "tamil")
  {
    TamilEntry();
    TamilGets();
    TamilSpellingsKeywords();
  }

  lemma TamilSpellingsKeywords()
    ensures IsKeyword("varaikum", "tamil") && !IsKeyword("while", "tamil")
  {
    TamilWhileSpelling();
    TamilSpellingsListed();
    assert Spellings(KeywordsFor("tamil"))[2] == "varaikum";
  }

  lemma TamilWhileSpelling()
    ensures "while" !in TamilSpellings && TamilSpellings[2] == "varaikum"
  {
  }

  /** The Tamil code "varaikum x" meets the conditions above. */
  lemma VaraikumSample()
    ensures Contains("varaikum x", "varaikum") && !Contains("varaikum x", "neekku")
  {
    var code := "varaikum x";
    assert OccursAt(code, "varaikum", 0);
    forall i: nat | i <= |code|
      ensures !OccursAt(code, "neekku", i)
    {
      if i + 6 <= |code| {
        assert code[i..i + 6][0] == code[i];
      }
    }
  }

  // ---------------------------------------------------------------------------------------
  // The analyzer object

  /** CodeAnalyzer: the language descriptions are written in. */
  class CodeAnalyzer {
    var currentLanguage: string

    constructor ()
      ensures currentLanguage == "english"
    {
      currentLanguage := "english";
    }

    /** set_language takes any string. */
    method SetLanguage(language: string)
      modifies this
      ensures currentLanguage == language
    {
      currentLanguage := language;
    }

    /** analyze_ast: the walk's totals, the name sets listed in some order, and the
        description for the current language. */
    method AnalyzeAst(p: Program) returns (r: Report, kinds: seq<string>)
      ensures var a := Analyze(p);
        r.totalStatements == |p.statements| && r.controls == a.controls && r.score == a.score &&
        Enumerates(r.variables, a.variables) && Enumerates(r.functions, a.functions)
      ensures Enumerates(kinds, set k | k in r.controls)
      ensures r.description ==
        Describe(currentLanguage, r.totalStatements, r.variables, r.functions, kinds, r.score)
    {
      var a := Analyze(p);
      var vars := ListOf(a.variables);
      var funcs := ListOf(a.functions);
      kinds := ListOf(set k | k in a.controls);
      r := Report(a.totalStatements, vars, funcs, a.controls, a.score,
        Describe(currentLanguage, a.totalStatements, vars, funcs, kinds, a.score));
    }

    /** analyze_code_string: keywords_used is filled by a loop over the language's
        spellings. */
    method AnalyzeCodeString(code: string) returns (r: TextReport)
      ensures r == TextAnalysis(currentLanguage, code)
    {
      var used := KeywordsFound(Spellings(KeywordsFor(currentLanguage)), code);
      var lines := |Split(code, '\n')|;
      r := TextReport(lines, |code|, used, Estimate(|used|), LoopIssues(used),
        if lines > 50 then [UseFunctions] else []);
    }
  }

  /** The loop of analyze_code_string over keywords.values(): each spelling found in code is
      appended. */
  method KeywordsFound(spellings: seq<string>, code: string) returns (used: seq<string>)
    ensures used == KeywordsIn(spellings, code)
  {
    used := [];
    var i := 0;
    while i < |spellings|
      invariant 0 <= i <= |spellings|
      invariant used + KeywordsIn(spellings[i..], code) == KeywordsIn(spellings, code)
      decreases |spellings| - i
    {
      KeywordsInStep(spellings, i, code);
      var found := if FindIn(code, spellings[i]) then [spellings[i]] else [];
      assert used + (found + KeywordsIn(spellings[i + 1..], code)) ==
        (used + found) + KeywordsIn(spellings[i + 1..], code);
      used := used + found;
      i := i + 1;
    }
    assert spellings[i..] == [];
    assert used + [] == used;
  }

  /** list(s) for a set: its members in some order, each once. */
  method ListOf(s: set<string>) returns (xs: seq<string>)
    ensures Enumerates(xs, s)
  {
    xs := [];
    var rest := s;
    while rest != {}
      invariant forall x :: x in s <==> x in xs || x in rest
      invariant forall x :: x in xs ==> x !in rest
      invariant |xs| + |rest| == |s|
      decreases |rest|
    {
      var x :| x in rest;
      xs := xs + [x];
      rest := rest - {x};
    }
  }
}
