/** The compiler facade (src/compiler.py): one object that owns a lexer, a parser, a bytecode
    generator, a virtual machine and an analyzer, composes them, and remembers the last tree,
    code and constant pool it produced. Errors come back as values: the CompilerError messages
    of parse and compile_to_bytecode, and the result records of execute and validate_syntax. */
module Compiler {
  import opened Wrappers
  import opened Text
  import opened Languages
  import opened Lexer
  import opened Ast
  import opened Parser
  import opened Values
  import opened Generator
  import opened Machine
  import opened MachineProps
  import opened Analyzer
  import opened Samples

  /** vm.execute() is called with its default instruction limit. */
  const DefaultLimit := 10000

  const ParseFailed := "Failed to parse code"
  const NotCompiled := "No bytecode generated yet"

  function UnsupportedLanguage(language: string): string { "Unsupported language: " + language }

  function ParseError(e: string): string { "Parse error: " + e }

  function CompilationError(e: string): string { "Compilation error: " + e }

  /** What the parser makes of code, and its line counter afterwards. */
  function ParsedCode(lang: string, line: nat, code: string): Option<Program>
  {
    ParseTokens(ScanFrom(code, 0, line, KeywordsFor(lang)).0)
  }

  /** parse: the tree, or the CompilerError for a None from the parser. */
  function ParseResult(parsed: Option<Program>): (r: Result<Program>)
    ensures r.Ok? <==> parsed.Some?
    ensures r.Ok? ==> r.value == parsed.value
    ensures r.Err? ==> r.msg == ParseError(ParseFailed)
  {
    match parsed
    case Some(p) => Ok(p)
    case None => Err(ParseError(ParseFailed))
  }

  /** compile_to_bytecode: the generator's state after generate, or the message of the
      CompilerError it raises. A parse failure passes through both wrappers. */
  function Compilation(parsed: Option<Program>): (r: Result<Gen>)
    ensures parsed.None? ==> r == Err(CompilationError(ParseError(ParseFailed)))
    ensures r.Ok? ==> parsed.Some? && GenerateProgram(parsed.value) == Emitted(r.value, Pass)
    ensures parsed.Some? && GenerateProgram(parsed.value).outcome.Fail? ==>
      r == Err(CompilationError(GenerateProgram(parsed.value).outcome.msg))
  {
    match ParseResult(parsed)
    case Err(e) => Err(CompilationError(e))
    case Ok(p) =>
      var e := GenerateProgram(p);
      if e.outcome.Pass? then Ok(e.gen) else Err(CompilationError(e.outcome.msg))
  }

  /** The dict execute returns. */
  datatype ExecResult = ExecResult(
    success: bool,
    output: seq<string>,
    error: Option<string>,
    bytecode: Option<seq<Instr>>,
    constants: Option<seq<Value>>)

  /** The except branch of execute: whatever ran before the error is dropped. */
  function Failure(msg: string): ExecResult
  {
    ExecResult(false, [], Some(msg), None, None)
  }

  /** The machine as execute starts it: code and pool loaded, the state reset, and the input
      lines installed only when some are given. */
  function RunStart(vm: VmState, g: Gen, input: seq<string>): (m: VmState)
    ensures m.pc == Num(0) && m.stack == [] && m.output == [] && !m.halted
    ensures m.instructions == g.instructions && m.constants == g.constants
    ensures m.inputBuffer == if input != [] then input else vm.inputBuffer
  {
    var m0 := Loaded(vm, g.instructions, g.constants);
    if input != [] then m0.(inputBuffer := input) else m0
  }

  /** execute: the result record and the machine afterwards. */
  function Executed(parsed: Option<Program>, vm: VmState, input: seq<string>): (r: (ExecResult, VmState))
    ensures r.0.success <==> r.0.error.None?
    ensures !r.0.success ==> r.0.output == [] && r.0.bytecode.None? && r.0.constants.None?
    ensures Compilation(parsed).Err? ==> r == (Failure(Compilation(parsed).msg), vm)
    ensures r.0.success ==> (Compilation(parsed).Ok? &&
      r.0.bytecode == Some(Compilation(parsed).value.instructions) &&
      r.0.constants == Some(Compilation(parsed).value.constants) &&
      r.0.output == r.1.output)
    ensures Compilation(parsed).Ok? ==>
      var run := Run(RunStart(vm, Compilation(parsed).value, input), 0, DefaultLimit);
      r.1 == run.0 && (r.0.success <==> run.1.Ok?) && (run.1.Err? ==> r.0.error == Some(run.1.msg))
  {
    match Compilation(parsed)
    case Err(e) => (Failure(e), vm)
    case Ok(g) => RunCompiled(vm, g, input)
  }

  /** The run part of execute, once compilation produced the generator state g. */
  function RunCompiled(vm: VmState, g: Gen, input: seq<string>): (r: (ExecResult, VmState))
  {
    var (m, res) := Run(RunStart(vm, g, input), 0, DefaultLimit);
    match res
    case Ok(_) => (ExecResult(true, m.output, None, Some(g.instructions), Some(g.constants)), m)
    case Err(e) => (Failure(e), m)
  }

  /** What compile_to_bytecode leaves in the compiler, from the fields before it (ast0,
      bytecode0, constants0, gen0) to those after it: last_ast is the tree when the code
      parses; last_bytecode and last_constants are the generated code and pool when generation
      succeeds and are otherwise kept; the generator holds whatever state generate reached. */
  predicate Recorded(parsed: Option<Program>, ast0: Option<Program>, bytecode0: Option<seq<Instr>>,
    constants0: Option<seq<Value>>, gen0: Gen, ast: Option<Program>, bytecode: Option<seq<Instr>>,
    constants: Option<seq<Value>>, gen: Gen)
  {
    var c := Compilation(parsed);
    ast == (if parsed.Some? then parsed else ast0) &&
    (c.Ok? ==> gen == c.value && bytecode == Some(c.value.instructions) && constants == Some(c.value.constants)) &&
    (c.Err? ==> bytecode == bytecode0 && constants == constants0) &&
    (parsed.Some? ==> gen == GenerateProgram(parsed.value).gen) &&
    (parsed.None? ==> gen == gen0)
  }

  /** The dict validate_syntax returns. */
  datatype SyntaxCheck = SyntaxCheck(valid: bool, errors: seq<string>, warnings: seq<string>)

  /** analyze_code: a tree analysis when the code parses, else the text heuristic. */
  datatype CodeReport = FromTree(report: Report, kinds: seq<string>) | FromText(text: TextReport)

  // ---------------------------------------------------------------------------------------
  // Properties of the composition

  /** A program that reads a name it never declared fails to compile, so nothing runs: the
      machine is left as it was and the error names the variable. */
  lemma UndeclaredNameFails(n: string, vm: VmState, input: seq<string>)
    ensures var r := Executed(Some(Program([Node(Print(Identifier(n)))])), vm, input);
      r.1 == vm && !r.0.success && r.0.error == Some(CompilationError(NameError(n)))
  {
    var p := Program([Node(Print(Identifier(n)))]);
    var fail := Emitted(EmptyGen, Fail(NameError(n)));
    assert GenExpr(EmptyGen, Identifier(n)) == fail;
    assert GenItem(EmptyGen, p.statements[0]) == fail;
    assert GenItems(EmptyGen, p.statements) == fail;
    assert Compilation(Some(p)) == Err(CompilationError(NameError(n)));
  }

  /** Output printed before a run-time error is dropped from the result: `print 1` runs, then
      the division fails, and the record reports no output although the machine holds "1". */
  lemma OutputDroppedOnError(vm: VmState)
    ensures var r := Executed(Some(PrintThenDivide), vm, []);
      r.1.output == ["1"] && !r.0.success && r.0.output == [] &&
      r.0.error == Some(BinaryFailure(IntV(1), "/", IntV(0), "Division by zero"))
  {
    PrintThenDivideGenerates();
    var g := Gen(DivideCode, DividePool, [], []);
    var m := RunStart(vm, g, []);
    DivideRun(m);
  }

  /** Leftover input carries over: without new input lines the run starts with the machine's
      remaining buffer. */
  lemma InputCarriesOver(vm: VmState, g: Gen)
    ensures RunStart(vm, g, []).inputBuffer == vm.inputBuffer
    ensures RunStart(vm, g, []).variables == map[] && RunStart(vm, g, []).callStack == []
  {
  }

  // ---------------------------------------------------------------------------------------
  // The compiler object

  /** MultilingualCompiler. */
  class MultilingualCompiler {
    var currentLanguage: string
    const lexer: Lexer
    const parser: Parser
    const generator: BytecodeGenerator
    const vm: VirtualMachine
    const analyzer: CodeAnalyzer
    var lastAst: Option<Program>
    var lastBytecode: Option<seq<Instr>>
    var lastConstants: Option<seq<Value>>

    /** The compiler's own lexer is not the one inside its parser. */
    predicate Valid()
      reads this
    {
      lexer != parser.lexer
    }

    constructor (language: string)
      ensures Valid()
      ensures currentLanguage == language && lastAst.None? && lastBytecode.None? && lastConstants.None?
      ensures fresh(lexer) && fresh(parser) && fresh(parser.lexer) && fresh(generator) && fresh(vm) && fresh(analyzer)
      ensures lexer.language == language && parser.language == language && parser.lexer.language == language
      ensures parser.lexer.lineno == 1 && analyzer.currentLanguage == language
      ensures generator.State() == EmptyGen && vm.State() == Initial
    {
      currentLanguage := language;
      lexer := new Lexer(language);
      parser := new Parser(language);
      generator := new BytecodeGenerator();
      vm := new VirtualMachine();
      analyzer := new CodeAnalyzer();
      lastAst := None;
      lastBytecode := None;
      lastConstants := None;
      new;
      analyzer.SetLanguage(language);
    }

    /** change_language: an unsupported language is refused and nothing changes; otherwise
        the compiler, both lexers, the parser and the analyzer switch. */
    method ChangeLanguage(newLanguage: string) returns (out: Outcome)
      requires Valid()
      modifies this, lexer, parser, parser.lexer, analyzer
      ensures newLanguage !in LanguageList() ==> out == Fail(UnsupportedLanguage(newLanguage))
      ensures newLanguage !in LanguageList() ==>
        unchanged(this) && unchanged(lexer) && unchanged(parser) && unchanged(parser.lexer) && unchanged(analyzer)
      ensures newLanguage in LanguageList() ==> (out == Pass &&
        currentLanguage == newLanguage && analyzer.currentLanguage == newLanguage &&
        lexer.language == newLanguage && lexer.tokenKinds == TokenKinds(newLanguage) && lexer.lineno == 1 &&
        parser.language == newLanguage && parser.lexer.language == newLanguage &&
        parser.lexer.tokenKinds == TokenKinds(newLanguage) && parser.lexer.lineno == 1)
      ensures lastAst == old(lastAst) && lastBytecode == old(lastBytecode) && lastConstants == old(lastConstants)
    {
      var supported := LanguageList();
      if newLanguage !in supported {
        return Fail(UnsupportedLanguage(newLanguage));
      }
      currentLanguage := newLanguage;
      lexer.ChangeLanguage(newLanguage);
      parser.ChangeLanguage(newLanguage);
      analyzer.SetLanguage(newLanguage);
      out := Pass;
    }

    /** tokenize. */
    method Tokenize(code: string) returns (tokens: seq<Token>)
      modifies lexer`lineno
      ensures (tokens, lexer.lineno) == ScanFrom(code, 0, old(lexer.lineno), KeywordsFor(lexer.language))
    {
      tokens := lexer.Tokenize(code);
    }

    /** parse: last_ast is replaced only when the parser produced a tree. */
    method Parse(code: string) returns (r: Result<Program>)
      modifies this`lastAst, parser.lexer`lineno
      ensures var parsed := ParsedCode(parser.lexer.language, old(parser.lexer.lineno), code);
        r == ParseResult(parsed) && lastAst == (if parsed.Some? then parsed else old(lastAst))
      ensures parser.lexer.lineno == ScanFrom(code, 0, old(parser.lexer.lineno), KeywordsFor(parser.lexer.language)).1
    {
      var ast := parser.Parse(code);
      if ast.None? {
        return Err(ParseError(ParseFailed));
      }
      lastAst := ast;
      r := Ok(ast.value);
    }

    /** compile_to_bytecode: last_bytecode and last_constants change only when generation
        succeeds; the generator keeps whatever state generation reached. */
    method CompileToBytecode(code: string) returns (r: Result<seq<Instr>>)
      requires Valid()
      modifies this`lastAst, this`lastBytecode, this`lastConstants, parser.lexer`lineno, generator
      ensures Valid()
      ensures var c := Compilation(ParsedCode(parser.lexer.language, old(parser.lexer.lineno), code));
        (c.Ok? ==> r == Ok(c.value.instructions)) && (c.Err? ==> r == Err(c.msg))
      ensures Recorded(ParsedCode(parser.lexer.language, old(parser.lexer.lineno), code),
        old(lastAst), old(lastBytecode), old(lastConstants), old(generator.State()),
        lastAst, lastBytecode, lastConstants, generator.State())
      ensures parser.lexer.lineno == ScanFrom(code, 0, old(parser.lexer.lineno), KeywordsFor(parser.lexer.language)).1
    {
      var ast := Parse(code);
      if ast.Err? {
        return Err(CompilationError(ast.msg));
      }
      var instructions := generator.Generate(ast.value);
      if instructions.Err? {
        return Err(CompilationError(instructions.msg));
      }
      lastBytecode := Some(instructions.value);
      lastConstants := Some(generator.constants);
      r := instructions;
    }

    /** execute with the default instruction limit. */
    method Execute(code: string, input: seq<string>) returns (r: ExecResult)
      requires Valid()
      modifies this`lastAst, this`lastBytecode, this`lastConstants, parser.lexer`lineno, generator, vm
      ensures Valid()
      ensures (r, vm.State()) ==
        Executed(ParsedCode(parser.lexer.language, old(parser.lexer.lineno), code), old(vm.State()), input)
      ensures Recorded(ParsedCode(parser.lexer.language, old(parser.lexer.lineno), code),
        old(lastAst), old(lastBytecode), old(lastConstants), old(generator.State()),
        lastAst, lastBytecode, lastConstants, generator.State())
      ensures parser.lexer.lineno == ScanFrom(code, 0, old(parser.lexer.lineno), KeywordsFor(parser.lexer.language)).1
    {
      var parsed := ParsedCode(parser.lexer.language, parser.lexer.lineno, code);
      var vm0 := vm.State();
      var instructions := CompileToBytecode(code);
      if instructions.Err? {
        return Failure(instructions.msg);
      }
      r := RunProgram(generator.State(), input);
    }

    /** load_bytecode, set_input when input is given, then the run and its result record. */
    method RunProgram(g: Gen, input: seq<string>) returns (r: ExecResult)
      modifies vm
      ensures (r, vm.State()) == RunCompiled(old(vm.State()), g, input)
    {
      var vm0 := vm.State();
      vm.LoadBytecode(g.instructions, g.constants);
      if input != [] {
        vm.SetInput(input);
      }
      assert vm.State() == RunStart(vm0, g, input);
      var res := vm.Execute(DefaultLimit);
      if res.Err? {
        return Failure(res.msg);
      }
      var output := vm.GetOutput();
      r := ExecResult(true, output, None, Some(g.instructions), Some(g.constants));
    }

    /** validate_syntax: valid exactly when parse succeeds, with its message otherwise. */
    method ValidateSyntax(code: string) returns (r: SyntaxCheck)
      modifies this`lastAst, parser.lexer`lineno
      ensures var parsed := ParsedCode(parser.lexer.language, old(parser.lexer.lineno), code);
        (r.valid <==> parsed.Some?) && r.warnings == [] &&
        r.errors == (if parsed.Some? then [] else [ParseError(ParseFailed)]) &&
        lastAst == (if parsed.Some? then parsed else old(lastAst))
      ensures parser.lexer.lineno == ScanFrom(code, 0, old(parser.lexer.lineno), KeywordsFor(parser.lexer.language)).1
    {
      var ast := Parse(code);
      if ast.Ok? {
        r := SyntaxCheck(true, [], []);
      } else {
        r := SyntaxCheck(false, [ast.msg], []);
      }
    }

    /** get_bytecode_listing: the generator's current listing once some compilation has
        succeeded. */
    method GetBytecodeListing() returns (text: string)
      ensures lastBytecode.None? ==> text == NotCompiled
      ensures lastBytecode.Some? ==> text == Listing(generator.State())
    {
      if lastBytecode.None? {
        return NotCompiled;
      }
      text := generator.GetBytecodeListing();
    }

    /** analyze_code: the tree analysis when the code parses; the text analysis otherwise. */
    method AnalyzeCode(code: string) returns (r: CodeReport)
      modifies this`lastAst, parser.lexer`lineno
      ensures var parsed := ParsedCode(parser.lexer.language, old(parser.lexer.lineno), code);
        (parsed.None? ==> r == FromText(TextAnalysis(analyzer.currentLanguage, code))) &&
        (parsed.Some? ==> (r.FromTree? && r.report.totalStatements == |parsed.value.statements| &&
          r.report.score == Analyze(parsed.value).score &&
          r.report.controls == Analyze(parsed.value).controls &&
          Enumerates(r.report.variables, Analyze(parsed.value).variables) &&
          Enumerates(r.report.functions, Analyze(parsed.value).functions) &&
          r.report.description == Describe(analyzer.currentLanguage, r.report.totalStatements,
            r.report.variables, r.report.functions, r.kinds, r.report.score)))
      ensures lastAst == (if ParsedCode(parser.lexer.language, old(parser.lexer.lineno), code).Some?
        then ParsedCode(parser.lexer.language, old(parser.lexer.lineno), code) else old(lastAst))
      ensures parser.lexer.lineno == ScanFrom(code, 0, old(parser.lexer.lineno), KeywordsFor(parser.lexer.language)).1
    {
      var ast := Parse(code);
      if ast.Ok? {
        var report, kinds := analyzer.AnalyzeAst(ast.value);
        r := FromTree(report, kinds);
      } else {
        var text := analyzer.AnalyzeCodeString(code);
        r := FromText(text);
      }
    }
  }
}
