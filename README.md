# Multilingual compiler, modelled in Dafny

This project models the core of a small compiler for one toy language written with the
keywords of six natural languages: English, Tamil, Malayalam, Telugu, Hindi and Sanskrit,
each in Latin transliteration. The pipeline has these stages:

- **Language definitions** (`Languages`): one keyword table per language, mapping canonical
  English keywords to local spellings. Around the tables sit the reverse maps, keyword
  translation, display names and description templates.
- **Lexer** (`Lexer`): the token list each language declares, and a position-by-position
  scanner that follows the rule order of the PLY lexer. Keywords are classified through the
  active table.
- **Abstract syntax tree** (`Ast`): the fourteen node kinds and their text renderings.
- **Parser** (`Parser`): a recursive-descent reading of the grammar, with the same operator
  levels, associativity and block structure. Any syntax error makes the parser return None.
- **Values** (`Values`): the run-time values, and the part of Python's arithmetic,
  comparison, equality, truthiness and `str()` that the machine uses, with the exceptions
  listed under "## Left out".
- **Bytecode generator** (`Generator`, with `GeneratorLayout`, `GeneratorProps` and
  `GeneratorStack`): the specification functions are pure; the class `BytecodeGenerator`
  updates its instruction list, constant pool and name dictionaries in place, and each of its
  methods is proved equal to those functions.
- **Virtual machine** (`Machine`, `MachineProps`): a pure `Step`/`Run` semantics, and the
  class `VirtualMachine` whose methods are proved to follow it.
- **Code analyzer** (`Analyzer`): the tree walk, the description chooser, and the
  keyword-based analysis of raw text.
- **Compiler facade** (`Compiler`, with the worked program in `Samples`): the object that
  owns one of each component and wires tokenize, parse, compile, execute, validate and
  analyze together.

Helpers: `Wrappers` holds Option/Result/Outcome, `Text` holds the Python string built-ins
the source relies on, and `Dicts` holds insertion-ordered string dictionaries.

Some behaviours are proved as they stand in the source. Each is kept in the model as
written:

- **A call inside an expression is wrapped in a literal.** The parser's primary-expression
  action turns every non-string value into a literal. So the generator pools the
  FunctionCallNode itself as a constant, and never emits a CALL for it
  (`Parser.ParsePrimary`, `Analyzer.ExprWeights`).
- **A string literal becomes an identifier.** The same action turns every string value
  other than true/false into an IdentifierNode, so a STRING token such as "Hello " is read
  as a variable name. Unless a variable of that name was declared, generation fails with a
  NameError (`Parser.Classify`, `GeneratorLayout.StringOperandUnbound`).
- **Function parameters are never bound.** A function body that reads a parameter fails to
  compile with a NameError, unless that name was declared before the function
  (`GeneratorLayout.ParameterNotBound`). The program in `tests/test_compiler.py:300-314`
  therefore does not compile as the generator is written. The program in
  `tests/test_compiler.py:75-89` fails earlier: in `print "Hello " + name` the string
  "Hello " is an identifier, and it is lowered before `name`, so generation raises
  "Variable 'Hello ' not defined" first. No corrected generator is modelled; see
  "## Left out".
- **`1 == True` in Python.** Loading the boolean `true` after the integer `1` reuses the
  pool entry of `1` (`GeneratorProps.TrueSharesOnesEntry`).
- **Every instruction carries line 1.** The generator never advances its line counter.

Where the documentation of a function and its code disagree, the model follows the code.
This is the case for `translate_keyword` and the infinite-loop check; both are under
"## Findings".

## Model

| member | source | states |
|---|---|---|
| `Languages.Get` | src/language_definitions.py:215 | dict.get finds a value exactly when the key is present, and the value found is bound to that key |
| `Languages.Lookup` | src/language_definitions.py:213-215 | the language record is found exactly when some configured language has that key |
| `Languages.LookupIn` | src/language_definitions.py:213-215 | the same lookup over any list of language records |
| `Languages.LanguageList` | src/language_definitions.py:209-211 | get_language_list returns exactly ["english", "tamil", "malayalam", "telugu", "hindi", "sanskrit"], the configured keys in declaration order |
| `Languages.KeywordsFor` | src/language_definitions.py:213-215 | get_keywords_for_language gives an empty table for a language that is not configured |
| `Languages.ConfiguredTable` | src/language_definitions.py:12-199 | every configured language's table lists the eighteen canonical keywords in canonical order, each once |
| `Languages.DefinitionsLookup` | src/language_definitions.py:213-215 | each configured language is found under its own key |
| `Languages.LookupAt` | src/language_definitions.py:213-215 | with distinct keys, looking up an entry's key finds that entry |
| `Languages.ReverseKeywords` | src/language_definitions.py:217-220 | get_reverse_keywords maps exactly the language's spellings, each to a canonical keyword |
| `Languages.ReverseDomain` | src/language_definitions.py:217-220 | the reversed dict's keys are exactly the table's values, and each maps back to one of the table's keys |
| `Languages.GetSpelling` | src/language_definitions.py:215 | a value found by dict.get on a keyword table is one of its spellings |
| `Languages.GetCanonical` | src/language_definitions.py:215 | a table that lists every canonical keyword has a spelling for each of them |
| `Languages.TranslateKeyword` | src/language_definitions.py:222-231 | translate_keyword returns the word unchanged or a spelling of the target language, and a spelling of the source language always becomes a keyword of a configured target |
| `Languages.IsKeyword` | src/language_definitions.py:237-240 | is_keyword holds exactly for the words the reverse mapping of the language contains |
| `Languages.LanguageName` | src/language_definitions.py:242-244 | get_language_name gives the configured display name, and for any other code its title-cased form of the same length |
| `Languages.Record` | src/language_definitions.py:205-207 | one assignment into keyword_to_lang creates the inner dict if needed, binds that one entry and changes no other spelling |
| `Languages.AddTableEntries` | src/language_definitions.py:204-207 | adding one language's table records exactly its reverse mapping under that language, and leaves every other language's entries alone |
| `Languages.KeywordToLangKeys` | src/language_definitions.py:202-207 | keyword_to_lang has an entry for exactly the spellings of the configured languages |
| `Languages.KeywordToLangEntry` | src/language_definitions.py:202-207 | a spelling has an entry for a language exactly when that language spells a keyword so, and the entry is that language's canonical keyword (the later entry when the language repeats a spelling) |
| `Languages.LookupSnoc` | src/language_definitions.py:213-215 | looking up a key after a language with a new key is appended finds the earlier entry, or else the new one |
| `Languages.BuildKeywordToLang` | src/language_definitions.py:202-207 | the constructor's two nested loops build exactly the keyword_to_lang specification |
| `Languages.ReverseEntry` | src/language_definitions.py:217-220 | the reverse dict holds a spelling exactly when some entry spells it, and maps it to the canonical keyword of the last such entry |
| `Languages.GetReverse` | src/language_definitions.py:217-220 | mapping a spelling back to its canonical keyword and looking that up again gives the spelling (tables have distinct canonical keywords) |
| `Languages.GetIndex` | src/language_definitions.py:213-215 | looking up an entry's canonical keyword gives that entry's spelling |
| `Languages.CanonicalKeywordsDistinct` | src/language_definitions.py:16-35 | the eighteen canonical keywords are pairwise distinct |
| `Languages.TablesAgree` | src/language_definitions.py:12-199 | every language lists the same eighteen canonical keywords in the same order, none twice, and the language keys are distinct |
| `Languages.UnknownLanguage` | src/language_definitions.py:213-244 | an unknown language has no keywords, an empty reverse map, no keyword words and no templates; its name is its key title-cased, and translating within it changes nothing |
| `Languages.EssentialKeywords` | src/language_definitions.py:12-199 | every language spells each keyword the grammar needs (if, else, while, for, function, return, var, print) |
| `Languages.TeluguEntry` | src/language_definitions.py:106-136 | the Telugu table is the one the dictionary holds under "telugu" |
| `Languages.TamilEntry` | src/language_definitions.py:44-74 | the Tamil table is the one the dictionary holds under "tamil" |
| `Languages.TamilGets` | src/language_definitions.py:50-62 | Tamil spells while as varaikum and break as neekku |
| `Languages.TamilSpellingsListed` | src/language_definitions.py:47-66 | the Tamil spellings in table order |
| `Languages.ReverseLast` | src/language_definitions.py:220 | in the reverse dict a spelling maps to the canonical keyword of its last entry |
| `Languages.TeluguLeda` | src/language_definitions.py:111-122 | Telugu spells both else and or as leda, and the reverse dict maps leda to or |
| `Languages.TranslateKeywordCases` | src/language_definitions.py:222-231 | on a spelling of the source language, translate_keyword agrees with the intended translation; on any other word it looks the word up in the target table as if it were a canonical keyword |
| `Languages.TranslateKeywordAsWritten` | src/language_definitions.py:222-231 | "if" is no Telugu keyword, yet translating it from Telugu to Telugu yields "ayite" |
| `Languages.TeluguIfNotSpelled` | src/language_definitions.py:109-128 | no Telugu entry is spelled "if" |
| `Languages.TranslateKeywordIntendedIdentity` | src/language_definitions.py:222-231 | the intended translation is the identity within one language and on every word that is not a source-language keyword |
| `Text.DigitChar` | src/virtual_machine.py:127 | a decimal digit character denotes the digit it was made from |
| `Text.NatStr` | src/virtual_machine.py:127 | str() of a natural number is a non-empty run of digits without a leading zero |
| `Text.NatStrValue` | src/lexer.py:90-93 | the digits str() prints read back, as int() reads them, to the same number |
| `Text.NatStrInjective` | src/virtual_machine.py:127 | two numbers print alike only when they are equal |
| `Text.DigitZero` | src/lexer.py:90-93 | a digit's block of ten starts at most ten code points below it |
| `Text.DigitValue` | src/lexer.py:90-93 | a decimal digit of any script is worth less than ten, and an ASCII digit its offset from '0' |
| `Text.ScriptDigits` | src/lexer.py:90-93 | the ASCII, Devanagari, Tamil, Telugu and Malayalam digits are all decimal digits, each worth its offset from its script's zero |
| `Text.Strip` | src/virtual_machine.py:244-255 | str.strip() returns a text no longer than its input that neither starts nor ends with a character Python counts as whitespace (the full str.isspace() set, Unicode spaces included) |
| `Text.StripStart` | src/virtual_machine.py:244-255 | the number of characters strip() drops in front leaves room for the kept text |
| `Text.StripTrims` | src/virtual_machine.py:244-255 | strip() keeps one contiguous slice of its input and drops only whitespace before and after it |
| `Text.StripKeeps` | src/virtual_machine.py:244-255 | a text that neither starts nor ends with whitespace is its own strip() |
| `Text.ParseInt` | src/virtual_machine.py:244-249 | int() on a string: a result only for a non-blank text, non-negative unless signed with '-', and the digits' value for a plain run of digits of any script |
| `Text.DropUnderscores` | src/virtual_machine.py:244-249 | removing the underscores keeps every digit and nothing else |
| `Text.PlainDigitGroups` | src/virtual_machine.py:244-249 | a plain run of digits is one digit group worth its digits' value |
| `Text.ParseUnsigned` | src/virtual_machine.py:244-249 | a stripped unsigned text of digit groups parses to the groups' value |
| `Text.IntUnderscoreSample` | src/virtual_machine.py:244-249 | int("1_000") is 1000 |
| `Text.IntUnderscoreRejected` | src/virtual_machine.py:244-249 | int("1__000") and int("_1") raise ValueError |
| `Text.IntScriptSample` | src/virtual_machine.py:244-249 | int() reads Devanagari digits between spaces: the text for one, two is 12 |
| `Text.ParseNegativeDigits` | src/virtual_machine.py:244-249 | a minus sign followed by digits reads as the negated value of the digits |
| `Text.ParseIntStr` | src/virtual_machine.py:244-249 | int(str(i)) == i for every integer i |
| `Text.DotIndex` | src/virtual_machine.py:250-255 | the position of the first '.', or the length when there is none |
| `Text.ParseDecimal` | src/virtual_machine.py:250-255 | float() on a string: a result only for a non-blank text, non-negative unless signed with '-', and the digits' value for a plain run of digits |
| `Text.PlainDecimal` | src/virtual_machine.py:250-255 | a plain run of digits contains no '.' and reads as its digits' value |
| `Text.Upper` | src/lexer.py:56 | str.upper() upper-cases each character in place and keeps the length |
| `Text.UpperEach` | src/lexer.py:56 | upper-casing is determined character by character |
| `Text.Title` | src/language_definitions.py:244 | str.title() on ASCII text: same length; a letter after a non-letter is upper-cased, a letter after a letter lower-cased, and other characters are kept |
| `Text.FindIn` | src/code_analyzer.py:353 | the executable substring search decides Python's `pat in text` |
| `Text.CountChar` | src/code_analyzer.py:342 | a character count never exceeds the length |
| `Text.Split` | src/code_analyzer.py:342 | str.split(sep) yields at least one piece, and no piece contains the separator |
| `Text.SplitCount` | src/code_analyzer.py:342 | splitting yields one more piece than there are separators, so `lines` is the newline count plus one |
| `Lexer.DeclaredKinds` | src/lexer.py:53-58 | the token list keeps the base kinds, contains each upper-cased canonical keyword, and contains nothing else |
| `Lexer.DeclaredKindsDistinct` | src/lexer.py:55-58 | the `not in self.tokens` guard keeps the token list free of duplicates |
| `Lexer.DeclaredKindsAppend` | src/lexer.py:55-58 | new, distinct keyword kinds are appended in table order |
| `Lexer.KeywordKindsUpper` | src/lexer.py:56 | the keyword kinds are the canonical keywords upper-cased |
| `Lexer.AllKindsDistinct` | src/lexer.py:24-58 | no token kind is declared twice among the base and keyword kinds |
| `Lexer.BaseKindsDistinct` | src/lexer.py:24-51 | the 26 base kinds are distinct |
| `Lexer.KeywordKindsDistinct` | src/lexer.py:55-58 | the eighteen keyword kinds are distinct |
| `Lexer.KindsDisjoint` | src/lexer.py:24-58 | no keyword kind is also a base kind |
| `Lexer.ConfiguredTokenKinds` | src/lexer.py:21-58 | every supported language declares the 26 base kinds followed by the eighteen keyword kinds in canonical order, with no kind twice |
| `Lexer.SetupTokens` | src/lexer.py:21-58 | the _setup_tokens loop computes exactly the declared token list |
| `Lexer.DigitRunEnd` | src/lexer.py:90-91 | `\d+` matches the maximal run of decimal digits of any script (every character of Unicode category Nd), not only 0-9 |
| `Lexer.IdentRunEnd` | src/lexer.py:100-101 | `[a-zA-Z_][a-zA-Z_0-9]*` matches the maximal run of identifier characters |
| `Lexer.NewlineRunEnd` | src/lexer.py:112-113 | `\n+` matches the maximal run of line breaks |
| `Lexer.StringEnd` | src/lexer.py:95-96 | a string literal closes on a quote, and the text between the quotes is a well-formed body |
| `Lexer.Operator` | src/lexer.py:64-85 | an operator match is one or two characters long and lies inside the input |
| `Lexer.NextLexeme` | src/lexer.py:88-119 | one scanner step always moves forward, and a token it emits starts at the scan position on the current line; a digit of any script starts a NUMBER |
| `Lexer.Lexer.constructor` | src/lexer.py:13-19 | a new lexer takes the language as given, declares its token list and starts at line 1 |
| `Lexer.Lexer.ChangeLanguage` | src/lexer.py:124-129 | a supported language is taken up with its token list and the line counter restarts; an unsupported one changes nothing |
| `Lexer.Lexer.Tokenize` | src/lexer.py:131-148 | tokenize returns exactly the scanner's tokens, and its line counter carries over to the next call |
| `Lexer.ScanOrdered` | src/lexer.py:131-148 | tokens come out in source order: their offsets strictly increase and lie inside the input |
| `Lexer.ScanFrom` | src/lexer.py:131-148 | the tokens the scanner emits carry line numbers between the starting line and the final line counter, which never goes back |
| `Lexer.ScanLines` | src/lexer.py:112-115 | only NEWLINE tokens move the line counter, by the number of line breaks they hold |
| `Lexer.WordKindDeclared` | src/lexer.py:100-110 | a word's type is a declared kind |
| `Lexer.LexemeKindDeclared` | src/lexer.py:88-119 | the kind of any token emitted at one position is declared |
| `Lexer.KeywordWordKind` | src/lexer.py:103-109 | a spelling of a configured language gets the upper-cased canonical keyword as its type, which is one of the declared keyword kinds |
| `Lexer.ScanKindsDeclared` | src/lexer.py:131-148 | every token kind the scanner emits is declared in the language's token list |
| `Lexer.SkipCharacter` | src/lexer.py:88-119 | spaces, tabs and characters no rule accepts (so not a digit of any script) produce nothing; scanning resumes at the next character on the same line |
| `Lexer.NumberToken` | src/lexer.py:90-93 | a printed number scans to one NUMBER token whose value is that number |
| `Lexer.DigitsToken` | src/lexer.py:90-93 | a run of decimal digits of any script scans to one NUMBER token holding the value int() gives the run |
| `Lexer.DevanagariNumber` | src/lexer.py:90-93 | Devanagari one, two scans to the number 12, as in Hindi or Sanskrit source text |
| `Lexer.MinusNotFolded` | src/lexer.py:65-93 | "-n" scans to MINUS and then NUMBER; numbers are never negative |
| `Lexer.StringEndAt` | src/lexer.py:95-96 | a literal closes at the first quote that follows a well-formed body |
| `Lexer.StringToken` | src/lexer.py:95-98 | a quoted literal is one STRING token whose value is the text between the quotes, escapes kept verbatim |
| `Lexer.WordToken` | src/lexer.py:100-110 | a word is one token whose value is its spelling and whose type is its classification |
| `Lexer.WordKindClassifies` | src/lexer.py:103-109 | in a supported language a keyword spelling is typed by its canonical keyword upper-cased (the later entry when two share it); every other word is an IDENTIFIER |
| `Lexer.NewlineToken` | src/lexer.py:112-115 | a run of n line breaks is one NEWLINE token, and the line counter advances by n |
| `Lexer.TwoCharacterOperators` | src/lexer.py:69-75 | `==`, `!=`, `<=` and `>=` are single tokens, not two one-character ones |
| `Lexer.OperatorPair` | src/lexer.py:64-85 | a two-character operator on its own scans to exactly one token |
| `Ast.OrEmpty` | src/ast_nodes.py:55-56 | `xs or []` turns a missing list into the empty list and keeps a present one |
| `Ast.DropNothing` | src/ast_nodes.py:26 | filtering out None keeps only statements that were already in the list |
| `Ast.MakeProgram` | src/ast_nodes.py:25-26 | a ProgramNode never holds a None statement |
| `Ast.MakeIf` | src/ast_nodes.py:52-56 | an IfNode keeps its condition, and a missing then or else list becomes empty |
| `Ast.DropNothingKeeps` | src/ast_nodes.py:26 | filtering keeps exactly the non-None entries, changes a list without None not at all, and is idempotent |
| `Ast.DropNothingAppend` | src/ast_nodes.py:26 | filtering distributes over concatenation |
| `Ast.AssignmentStrDeclares` | src/ast_nodes.py:45-47 | an assignment's text starts "Assignment(var " exactly when it is a declaration |
| `Ast.ProgramStrCount` | src/ast_nodes.py:31-32 | a program's text determines its statement count |
| `Ast.ExprStr` | src/ast_nodes.py:153-204 | an expression node's text is its class name, an opening parenthesis, its parts and a closing one |
| `Ast.ArgsStr` | src/ast_nodes.py:203-204 | the joined argument text is empty exactly for no arguments, and otherwise starts with the first argument's text |
| `Ast.StmtStr` | src/ast_nodes.py:45-140 | a statement node's text is its class name, an opening parenthesis, its parts and a closing one |
| `Ast.ProgramStr` | src/ast_nodes.py:31-32 | a program's text is "Program(", the count and " statements", closed by a parenthesis |
| `Ast.ExprKindReadBack` | src/ast_nodes.py:153-204 | an expression node's class can be read back from the first character of its text |
| `Ast.ExprStrKind` | src/ast_nodes.py:153-204 | two expressions that print alike are nodes of the same class |
| `Ast.StmtKindReadBack` | src/ast_nodes.py:45-140 | a statement node's class can be read back from the first two characters of its text |
| `Ast.StmtStrKind` | src/ast_nodes.py:45-140 | two statements that print alike are nodes of the same class |
| `Dicts.Find` | src/bytecode_generator.py:225-229 | dict.get finds a value exactly when the key is present, and the pair is in the dict |
| `Dicts.Put` | src/bytecode_generator.py:68-69 | `d[k] = v` keeps the size for an existing key and appends a new key at the end |
| `Dicts.PutFind` | src/bytecode_generator.py:68-69 | after `d[k] = v`, k maps to v and every other key is unaffected |
| `Parser.Classify` | src/parser.py:176-190 | a primary action builds a literal exactly from a number or the words true/false, with their values; every other word becomes an identifier of that word |
| `Parser.ParseExpr` | src/parser.py:108-110 | a parsed expression consumes at least one token and stays inside the input |
| `Parser.ParseLevel` | src/parser.py:112-174 | each precedence level consumes at least one token |
| `Parser.LevelTail` | src/parser.py:112-165 | the left-recursive operator loop of a level never moves backwards |
| `Parser.FoldLeftLast` | src/parser.py:112-165 | the root of a left-nested chain is its last operator applied to the chain before it and the last operand |
| `Parser.LevelTailFolds` | src/parser.py:112-165 | the operator loop of one level reads any operator chain into left-nested nodes and stops after the last operand |
| `Parser.LevelFoldsLeft` | src/parser.py:112-165 | every binary level reads `a op b op c ...` as `((a op b) op c) ...`, each operand read at the next tighter level |
| `Parser.ParsePrimary` | src/parser.py:176-196 | a primary or call consumes at least one token |
| `Parser.ParseArgs` | src/parser.py:198-208 | an argument list stays inside the input |
| `Parser.ArgsTail` | src/parser.py:198-208 | the argument loop keeps the arguments already read as a prefix |
| `Parser.ParseParams` | src/parser.py:80-90 | a parameter list stays inside the input |
| `Parser.ParamsTail` | src/parser.py:80-90 | the parameter loop keeps the names already read as a prefix |
| `Parser.ParseLine` | src/parser.py:104-106 | `expression NEWLINE` ends just after a line break |
| `Parser.ParseSuite` | src/parser.py:61-77 | `COLON NEWLINE statement_list` ends just after a line break |
| `Parser.ParseStmt` | src/parser.py:37-50 | every statement ends just after a line break |
| `Parser.ParseAssignment` | src/parser.py:52-58 | an assignment ends just after its line break |
| `Parser.ParseIf` | src/parser.py:60-66 | an if statement, with or without else, ends just after a line break |
| `Parser.ParseWhile` | src/parser.py:68-70 | a while statement ends just after a line break |
| `Parser.ParseFor` | src/parser.py:72-74 | a for statement ends just after a line break |
| `Parser.ParseFunction` | src/parser.py:76-78 | a function definition ends just after a line break |
| `Parser.ParseBlock` | src/parser.py:29-35 | a statement list holds at least one statement and stops only at `else` or the end of input |
| `Parser.BlockTail` | src/parser.py:29-35 | the statement-list loop extends what it has read and stops only at `else` or the end of input |
| `Parser.ParseTokens` | src/parser.py:25-27 | a program is accepted only when its last token is a line break |
| `Parser.LevelsPass` | src/parser.py:108-174 | an operand read at an inner level is the whole operand of every looser level whose operators do not follow it |
| `Parser.NameOperand` | src/parser.py:176-190 | a name not followed by a parenthesis is an identifier operand |
| `Parser.SubtractionGroupsLeft` | src/parser.py:148-155 | `a - b - c` parses as `(a - b) - c` |
| `Parser.ProductBindsTighter` | src/parser.py:148-165 | `a + b * c` parses as `a + (b * c)` |
| `Parser.LogicalOperators` | src/parser.py:112-126 | `or` and `and` nodes carry the fixed words whatever the local spelling, and `and` binds tighter than `or` |
| `Parser.UnaryKeepsSpelling` | src/parser.py:167-174 | a unary node carries the operator token's own text, so a localised `not` keeps its local spelling |
| `Parser.NewlineStatement` | src/parser.py:37-50 | a line-break statement is None exactly when it is a single line break; a longer run is kept as its text |
| `Parser.ReturnForms` | src/parser.py:92-98 | `return` before a line break has no expression, otherwise it has the expression that follows |
| `Parser.AssignmentForms` | src/parser.py:52-58 | `var x = e` is a declaration and `x = e` is not; both end at the line break |
| `Parser.ParamTokens` | src/parser.py:80-90 | the tokens of a parameter list: one name, or names separated by commas |
| `Parser.ParamTokensLayout` | src/parser.py:80-90 | names sit at even positions and commas at odd positions |
| `Parser.ParamsTailReads` | src/parser.py:80-90 | the parameter loop reads `, name` pairs for as long as they come |
| `Parser.ParamsRoundTrip` | src/parser.py:80-90 | parsing the tokens of a list of names gives back the same names, in order |
| `Parser.NameLine` | src/parser.py:104-106 | a name followed by a line break is an expression statement of that identifier |
| `Parser.NameExpr` | src/parser.py:108-190 | a name followed by a colon, line break, closing parenthesis or comma is a whole expression |
| `Parser.PrintName` | src/parser.py:100-102 | `print name` on a line of its own is a print of that identifier |
| `Parser.DanglingElse` | src/parser.py:29-66 | blocks have no terminator, so an `else` goes with the innermost `if` |
| `Parser.EmptyProgramRejected` | src/parser.py:25-31 | the empty program is a syntax error |
| `Parser.Parser.constructor` | src/parser.py:14-19 | a new parser records its language and owns a fresh lexer for it |
| `Parser.Parser.Parse` | src/parser.py:222-229 | parse returns the tree the grammar builds from the lexer's tokens, or None on a syntax error; the lexer's line counter moves on |
| `Parser.Parser.ChangeLanguage` | src/parser.py:231-235 | the parser records any language, while its lexer takes up only a supported one |
| `Values.PyEqEquivalence` | src/virtual_machine.py:182-190 | Python equality on these values is reflexive, symmetric and transitive |
| `Values.PyEq` | src/virtual_machine.py:187-190 | Python == is reflexive, relates numbers only to numbers, strings only to equal strings, and nodes only to nodes |
| `Values.Truthy` | src/virtual_machine.py:220-228 | is_truthy is false exactly for None, False, numbers equal to zero and the empty string |
| `Values.Str` | src/virtual_machine.py:127 | str() of an int starts with '-' exactly when it is negative, and str() of a string is that string |
| `Values.Add` | src/virtual_machine.py:175-176 | + succeeds exactly on two numbers or two strings; numbers add by value and stay ints for ints, strings concatenate |
| `Values.Divide` | src/virtual_machine.py:181-184 | / by anything equal to 0 is "Division by zero"; otherwise it succeeds exactly on numbers and gives a float whose product with the divisor is the dividend |
| `Values.Modulo` | src/virtual_machine.py:185-186 | % succeeds exactly on numbers with a non-zero divisor; on ints it is the floor remainder, with the divisor's sign |
| `Values.FloorMod` | src/virtual_machine.py:185-186 | floor division and remainder recompose the dividend, and the remainder takes the divisor's sign and is smaller than it in size |
| `Values.Truncate` | src/virtual_machine.py:247 | int() of a float drops the fraction, rounding towards zero |
| `Values.StrLessOrder` | src/virtual_machine.py:191-198 | string comparison is a strict total order |
| `Values.Compare` | src/virtual_machine.py:191-198 | ordering succeeds exactly on two numbers or two strings, gives a bool, agrees with equality, and orders strings lexicographically |
| `Values.Binary` | src/virtual_machine.py:172-206 | only the listed operators succeed, an unknown one raises "Unknown binary operator", the equality and logical ones always give a bool, and != is the negation of == |
| `Values.Unary` | src/virtual_machine.py:208-218 | not gives the negated truthiness, - negates exactly the numbers (keeping ints ints), anything else raises "Unknown unary operator" |
| `Values.IntCall` | src/virtual_machine.py:244-249 | int() succeeds on numbers and strings only: numbers truncate, strings parse as int() does, and a failed parse is a ValueError |
| `Values.FloatCall` | src/virtual_machine.py:250-255 | float() succeeds on numbers and strings only: numbers keep their value, strings parse as float() does |
| `Values.Repeat` | src/virtual_machine.py:179-180 | a string repeated n times has n times its length, and is empty for n <= 0 |
| `Values.ApplyBinary` | src/virtual_machine.py:172-206 | apply_binary_op fails exactly when the operation fails, and re-raises the failure with both operands in the message |
| `Values.ApplyUnary` | src/virtual_machine.py:208-218 | apply_unary_op fails exactly when the operation fails, wrapping the failure in its message |
| `Values.LogicalOperators` | src/virtual_machine.py:199-214 | `not` negates truthiness; `and`/`or` give the boolean of both truthinesses, with both operands evaluated |
| `Values.DivisionByZero` | src/virtual_machine.py:181-184 | dividing by anything equal to 0 (0, False, 0.0) fails with the wrapped division message |
| `Values.IntegerArithmetic` | src/virtual_machine.py:175-186 | integer sums are exact, % has the divisor's sign, and / is true division |
| `Values.LocalisedNotUnknown` | src/virtual_machine.py:208-218 | a unary operator other than `-` and `not` (such as a localised not) is unknown and fails |
| `Values.IntOfStr` | src/virtual_machine.py:241-249 | the built-in int() reads back what str() prints for an integer |
| `Values.IntegralFloatStr` | src/virtual_machine.py:127 | integral floats below 10^16 print with a trailing ".0", as 4 / 2 prints "2.0" |
| `Values.LargeFloatStr` | src/virtual_machine.py:127 | integral floats from 10^16 on print in exponent form, with a mantissa that ends in a non-zero digit and an exponent of at least 16 that together give back the value |
| `Values.PowerOfTenStr` | src/virtual_machine.py:127 | 10^k prints as "1e+k" for every k >= 16, so 10^16 / 1 prints "1e+16" |
| `Text.TrimZeros` | src/virtual_machine.py:127 | dropping trailing zeros keeps a non-empty prefix, removes only zeros, and leaves a non-zero last digit |
| `Text.ExponentDigits` | src/virtual_machine.py:127 | from 10^16 on, the mantissa digits scaled by the exponent give the number back |
| `Generator.Emit` | src/bytecode_generator.py:45-49 | add_instruction appends exactly one instruction and keeps everything emitted before |
| `Generator.PoolIndex` | src/bytecode_generator.py:51-55 | the first pool index holding a value equal to v, or none when no value is equal |
| `Generator.PoolAdd` | src/bytecode_generator.py:51-55 | add_constant returns the first index holding a value equal to v, and appends v only when there is none |
| `Generator.LoadConst` | src/bytecode_generator.py:218-221 | a literal load appends one instruction and keeps the code before it |
| `Generator.GenExpr` | src/bytecode_generator.py:207-243 | expression code only appends, and never binds a variable or function |
| `Generator.GenArgs` | src/bytecode_generator.py:239-240 | argument code only appends, and binds nothing |
| `Generator.GenStmt` | src/bytecode_generator.py:64-205 | statement code only appends to what was already emitted |
| `Generator.GenThen` | src/bytecode_generator.py:197-205 | an expression followed by one instruction only appends |
| `Generator.GenAssignment` | src/bytecode_generator.py:64-79 | the store of an assignment only appends |
| `Generator.GenFor` | src/bytecode_generator.py:134-170 | a for loop's code only appends (apart from its own back-patch) |
| `Generator.GenForLoop` | src/bytecode_generator.py:142-170 | the loop test, the body, the increment and the patched exit of visit_for only append to the generator's state |
| `Generator.Increment` | src/bytecode_generator.py:160-167 | the loop end is LOAD_VAR, LOAD_CONST 1, BINARY_OP +, STORE_VAR and a JUMP back to the test, with 1 pooled once |
| `Generator.GenItem` | src/bytecode_generator.py:59-61 | one block entry's code only appends |
| `Generator.GenItems` | src/bytecode_generator.py:59-61 | a block's code only appends |
| `Generator.PatchAfter` | src/bytecode_generator.py:99-110 | patching an instruction past an earlier state keeps that state's code as a prefix |
| `Generator.PatchGrows` | src/bytecode_generator.py:94-107 | the else-label patch keeps the code before the if |
| `Generator.GenerateProgram` | src/bytecode_generator.py:35-43 | a successful generate ends with HALT |
| `Generator.InstrStr` | src/bytecode_generator.py:17-20 | the text starts with the opcode name, and shows " " and the operand exactly when there is one |
| `Generator.Repr` | src/bytecode_generator.py:249 | repr() quotes a string, shows a FunctionCallNode as an object, and is str() for every other value |
| `Generator.LiteralRepr` | src/bytecode_generator.py:249 | a pooled literal is listed as its text, except a FunctionCallNode, which is listed as an object |
| `Generator.Pad3` | src/bytecode_generator.py:261 | `{i:3d}` pads to at least three columns |
| `Generator.ConstantLines` | src/bytecode_generator.py:248-250 | one listing line per constant |
| `Generator.VariableLines` | src/bytecode_generator.py:252-254 | one listing line per variable |
| `Generator.FunctionLines` | src/bytecode_generator.py:256-258 | one listing line per function |
| `Generator.InstructionLines` | src/bytecode_generator.py:260-262 | one listing line per instruction |
| `Generator.ListingLines` | src/bytecode_generator.py:245-264 | the listing has four section headers plus one line per entry, starting with the constants header |
| `Generator.BytecodeGenerator.constructor` | src/bytecode_generator.py:28-33 | a new generator has no code, constants, variables or functions |
| `Generator.BytecodeGenerator.AddInstruction` | src/bytecode_generator.py:45-49 | add_instruction appends one instruction and returns its index |
| `Generator.BytecodeGenerator.AddConstant` | src/bytecode_generator.py:51-55 | the search loop of add_constant computes the pool specification and touches nothing else |
| `Generator.BytecodeGenerator.Backpatch` | src/bytecode_generator.py:99 | setting one instruction's argument is the patch specification |
| `Generator.BytecodeGenerator.VisitExpr` | src/bytecode_generator.py:207-243 | the expression visitors update the state as the expression specification says, with the same error |
| `Generator.BytecodeGenerator.VisitArgs` | src/bytecode_generator.py:239-240 | the argument loop follows its specification |
| `Generator.BytecodeGenerator.VisitBlock` | src/bytecode_generator.py:59-61 | the block loop follows its specification, stopping at the first error |
| `Generator.BytecodeGenerator.VisitItem` | src/bytecode_generator.py:60-61 | one block entry is visited as specified |
| `Generator.BytecodeGenerator.VisitStmt` | src/bytecode_generator.py:64-205 | the statement visitors follow the statement specification |
| `Generator.BytecodeGenerator.VisitIf` | src/bytecode_generator.py:81-110 | visit_if with its back-patches follows the specification |
| `Generator.BytecodeGenerator.VisitWhile` | src/bytecode_generator.py:112-132 | visit_while follows the specification |
| `Generator.BytecodeGenerator.VisitFor` | src/bytecode_generator.py:134-170 | visit_for follows the specification |
| `Generator.BytecodeGenerator.VisitForLoop` | src/bytecode_generator.py:142-170 | the loop part of visit_for emits exactly what the specification function gives |
| `Generator.BytecodeGenerator.EmitIncrement` | src/bytecode_generator.py:160-167 | the increment emits LOAD_VAR, LOAD_CONST 1, BINARY_OP + and STORE_VAR of the slot, then the jump back, exactly as the specification function gives |
| `Generator.BytecodeGenerator.Generate` | src/bytecode_generator.py:35-43 | generate resets, visits and appends HALT exactly as the program specification does, and returns its instruction list |
| `Generator.BytecodeGenerator.GetBytecodeListing` | src/bytecode_generator.py:245-264 | the listing text is the listing of the current state |
| `Generator.PoolIndexFirst` | src/bytecode_generator.py:52-54 | the index where the search loop stops is the first equal entry |
| `GeneratorLayout.IfLayout` | src/bytecode_generator.py:81-110 | an if without else: condition, JUMP_IF_FALSE to just past the then block, then the block |
| `GeneratorLayout.IfElseLayout` | src/bytecode_generator.py:81-110 | with an else: JUMP_IF_FALSE goes to the first else instruction, after the JUMP that ends the then block, which goes past the else block |
| `GeneratorLayout.WhileLayout` | src/bytecode_generator.py:112-132 | a while loop leaves past its last instruction, which is a JUMP back to the condition |
| `GeneratorLayout.ForLayout` | src/bytecode_generator.py:134-170 | a for loop stores its start in slot len(variables), tests `v <= end`, leaves past the loop, and ends with `v = v + 1` and a JUMP back to the test |
| `GeneratorLayout.ForPieces` | src/bytecode_generator.py:134-170 | the for layout, assembled from the pieces of the lowering |
| `GeneratorLayout.ForHead` | src/bytecode_generator.py:137-153 | the store, load, comparison and conditional jump of a for loop sit where the layout says |
| `GeneratorLayout.IncrementTail` | src/bytecode_generator.py:160-167 | the five increment instructions follow the body and load a pool entry equal to 1 |
| `GeneratorLayout.FunctionLayout` | src/bytecode_generator.py:172-187 | a function's name is bound to its FUNCTION_START address before its body is compiled, its parameters are not bound, and its body ends with the implicit return |
| `GeneratorLayout.CallLowering` | src/bytecode_generator.py:231-243 | a call compiles its arguments left to right, then CALL to a known function's address or CALL_BUILTIN with the name |
| `GeneratorLayout.DeclarationSlot` | src/bytecode_generator.py:64-72 | a declaration binds the name to len(variables) taken before the name is added, and stores into that slot; a redeclared name keeps its place |
| `GeneratorLayout.AssignmentSlot` | src/bytecode_generator.py:73-79 | an assignment to a declared name stores into its slot; to an undeclared name it raises NameError |
| `GeneratorLayout.IdentifierLowering` | src/bytecode_generator.py:223-229 | reading a name is LOAD_VAR of its slot, or a NameError that changes nothing when the name was never declared |
| `GeneratorLayout.DeclareConstant` | src/bytecode_generator.py:64-72 | declaring a name with a literal always compiles, and sets `variables[n] = len(variables)` |
| `GeneratorLayout.RedeclarationSharesSlot` | src/bytecode_generator.py:68-69 | after `var x; var y; var x; var z`, x and z share slot 2 |
| `GeneratorLayout.StringOperandUnbound` | src/parser.py:184-188 | a STRING token other than true/false is classified as an identifier, and printing it as the left operand of a binary operator fails with NameError on that text when no variable of that name is declared |
| `GeneratorLayout.ParameterNotBound` | src/bytecode_generator.py:172-187 | a function body that reads a parameter fails with NameError unless the name was declared before |
| `GeneratorLayout.ReturnUnbound` | src/bytecode_generator.py:189-229 | `return p` for an undeclared p raises NameError |
| `GeneratorProps.PoolAddKeeps` | src/bytecode_generator.py:51-55 | add_constant keeps the pool free of Python-equal duplicates |
| `GeneratorProps.LitConstKeeps` | src/bytecode_generator.py:218-221 | pooling a literal keeps the pool free of duplicates |
| `GeneratorProps.GenExprPool` | src/bytecode_generator.py:207-243 | expression code keeps the pool free of duplicates |
| `GeneratorProps.GenArgsPool` | src/bytecode_generator.py:239-240 | argument code keeps the pool free of duplicates |
| `GeneratorProps.GenStmtPool` | src/bytecode_generator.py:64-205 | statement code keeps the pool free of duplicates |
| `GeneratorProps.GenForPool` | src/bytecode_generator.py:134-170 | for-loop code keeps the pool free of duplicates |
| `GeneratorProps.GenForLoopPool` | src/bytecode_generator.py:142-170 | the loop part of a for statement keeps the constant pool free of equal duplicates |
| `GeneratorProps.GenItemPool` | src/bytecode_generator.py:59-61 | one block entry keeps the pool free of duplicates |
| `GeneratorProps.GenItemsPool` | src/bytecode_generator.py:59-61 | a block keeps the pool free of duplicates |
| `GeneratorProps.GeneratedPoolDistinct` | src/bytecode_generator.py:35-55 | after generate, whether or not it raised, no two pool entries are Python-equal |
| `GeneratorProps.TrueSharesOnesEntry` | src/bytecode_generator.py:51-221 | loading true after 1 reuses the entry of 1, since 1 == True |
| `GeneratorProps.GenExprNoJumps` | src/bytecode_generator.py:207-243 | expression code contains no jump |
| `GeneratorProps.GenArgsNoJumps` | src/bytecode_generator.py:239-240 | argument code contains no jump |
| `GeneratorProps.LoopShape` | src/bytecode_generator.py:112-132 | a conditional jump patched to the end of a loop-like statement keeps every jump inside it |
| `GeneratorProps.IfElseShape` | src/bytecode_generator.py:81-110 | the two patched jumps of an if/else keep every jump inside it |
| `GeneratorProps.GenStmtJumps` | src/bytecode_generator.py:64-205 | a statement's jumps target indices between its first instruction and just past its last |
| `GeneratorProps.GenSimpleJumps` | src/bytecode_generator.py:64-205 | statements without blocks compile to code without jumps |
| `GeneratorProps.GenFunctionJumps` | src/bytecode_generator.py:172-187 | a function definition's jumps stay inside it |
| `GeneratorProps.GenIfJumps` | src/bytecode_generator.py:81-110 | an if statement's jumps stay inside it |
| `GeneratorProps.GenWhileJumps` | src/bytecode_generator.py:112-132 | a while loop's jumps stay inside it |
| `GeneratorProps.ForHeadNoJumps` | src/bytecode_generator.py:134-150 | the head of a for loop has no jump |
| `GeneratorProps.IncrementJumps` | src/bytecode_generator.py:160-167 | the increment's only jump goes back to the loop test |
| `GeneratorProps.ForShape` | src/bytecode_generator.py:134-170 | a for loop's jumps stay inside it, given its parts' jumps do |
| `GeneratorProps.GenForUnfold` | src/bytecode_generator.py:134-170 | the for-loop code named piece by piece |
| `GeneratorProps.GenForJumps` | src/bytecode_generator.py:134-170 | a for loop's jumps stay inside it |
| `GeneratorProps.GenItemJumps` | src/bytecode_generator.py:59-61 | one block entry's jumps stay inside it |
| `GeneratorProps.GenItemsJumps` | src/bytecode_generator.py:59-61 | a block's jumps stay inside it |
| `GeneratorProps.GeneratedJumpsValid` | src/bytecode_generator.py:35-43 | after a successful generate, every jump operand is an index into the instruction list |
| `GeneratorStack.ExprPushesOne` | src/bytecode_generator.py:207-229 | a call-free expression compiles to code that pushes exactly one value |
| `GeneratorStack.SimpleStatementsBalance` | src/bytecode_generator.py:64-205 | an assignment, print or expression statement leaves the stack as it found it |
| `Machine.VirtualMachine.constructor` | src/virtual_machine.py:16-25 | a new machine is the initial state |
| `Machine.VirtualMachine.LoadBytecode` | src/virtual_machine.py:27-31 | load_bytecode installs code and constants and resets |
| `Machine.VirtualMachine.Reset` | src/virtual_machine.py:33-40 | reset clears the run state and keeps the code, constants and input |
| `Machine.VirtualMachine.Push` | src/virtual_machine.py:42-44 | push appends to the stack |
| `Machine.VirtualMachine.Pop` | src/virtual_machine.py:46-50 | pop removes and returns the top, or raises "Stack underflow" and changes nothing |
| `Machine.VirtualMachine.Peek` | src/virtual_machine.py:52-56 | peek returns the top without removing it, or raises on an empty stack |
| `Machine.VirtualMachine.SetInput` | src/virtual_machine.py:58-60 | set_input replaces the input buffer only |
| `Machine.VirtualMachine.GetOutput` | src/virtual_machine.py:62-64 | get_output returns the output lines |
| `Machine.VirtualMachine.Advance` | src/virtual_machine.py:170 | `pc += 1`, or an error when pc is not a number |
| `Machine.VirtualMachine.ExecuteInstruction` | src/virtual_machine.py:80-170 | execute_instruction changes the machine as the one-step semantics says, and raises the same errors |
| `Machine.VirtualMachine.ExecuteData` | src/virtual_machine.py:85-97 | LOAD_CONST, LOAD_VAR and STORE_VAR follow the step semantics |
| `Machine.VirtualMachine.ExecuteOperator` | src/virtual_machine.py:98-107 | BINARY_OP and UNARY_OP follow the step semantics |
| `Machine.VirtualMachine.ExecuteControl` | src/virtual_machine.py:109-162 | jumps, CALL, RETURN and HALT follow the step semantics |
| `Machine.VirtualMachine.CallBuiltin` | src/virtual_machine.py:230-257 | call_builtin follows the built-in semantics |
| `Machine.VirtualMachine.Execute` | src/virtual_machine.py:66-78 | the execute loop reaches the state and result of the run semantics |
| `Machine.Step` | src/virtual_machine.py:80-170 | execute_instruction never writes the program or its constants |
| `Machine.StepData` | src/virtual_machine.py:85-96 | LOAD_CONST, LOAD_VAR and STORE_VAR never write the program or its constants |
| `Machine.StepOperator` | src/virtual_machine.py:98-107 | BINARY_OP and UNARY_OP never write the program or its constants |
| `Machine.StepControl` | src/virtual_machine.py:109-162 | jumps, CALL, RETURN and HALT never write the program or its constants |
| `Machine.StepReturn` | src/virtual_machine.py:147-156 | RETURN never writes the program or its constants |
| `Machine.StepIO` | src/virtual_machine.py:125-137 | PRINT, INPUT and POP never write the program or its constants |
| `Machine.Builtin` | src/virtual_machine.py:230-257 | a built-in never writes the program or its constants and leaves pc where it was |
| `Machine.BuiltinStep` | src/virtual_machine.py:164-165 | CALL_BUILTIN never writes the program or its constants |
| `Machine.Run` | src/virtual_machine.py:66-78 | execute keeps the program; it reports the halted flag when no error is raised, and reports not halted only after pc runs off the end |
| `Machine.VirtualMachine.ExecuteIO` | src/virtual_machine.py:125-137 | PRINT, INPUT and POP change the machine exactly as the step specification gives |
| `Machine.VirtualMachine.ExecuteBuiltin` | src/virtual_machine.py:164-165 | CALL_BUILTIN changes the machine exactly as the step specification gives |
| `Machine.VirtualMachine.ExecuteReturn` | src/virtual_machine.py:147-156 | RETURN changes the machine exactly as the step specification gives |
| `MachineProps.StepAdvances` | src/virtual_machine.py:80-170 | every instruction other than jumps, CALL, RETURN and HALT moves pc on by one on success and leaves the call stack and halted flag alone |
| `MachineProps.DataAdvances` | src/virtual_machine.py:85-96 | data instructions move pc on by one |
| `MachineProps.OperatorAdvances` | src/virtual_machine.py:98-107 | operator instructions move pc on by one |
| `MachineProps.BuiltinKeepsPc` | src/virtual_machine.py:230-257 | built-ins leave pc, call stack and halted flag to the caller |
| `MachineProps.JumpSetsPc` | src/virtual_machine.py:109-111 | JUMP sets pc to its operand and changes nothing else |
| `MachineProps.ConditionalJump` | src/virtual_machine.py:113-123 | conditional jumps pop the condition and jump on falsy (resp. truthy), else go on |
| `MachineProps.PopPush` | src/virtual_machine.py:42-50 | popping what was pushed gives back the value and the machine |
| `MachineProps.PopUnderflow` | src/virtual_machine.py:46-50 | pop fails exactly on an empty stack, with "Stack underflow", and otherwise shrinks the stack by one |
| `MachineProps.CallThenReturn` | src/virtual_machine.py:147-162 | CALL saves the next address and jumps; the matching RETURN comes back there with the call stack restored and the value kept on top |
| `MachineProps.ReturnAtTopHalts` | src/virtual_machine.py:147-156 | RETURN outside any call halts the machine and pops nothing |
| `MachineProps.StoreThenLoad` | src/virtual_machine.py:88-96 | STORE_VAR pops into a slot, and LOAD_VAR of that slot pushes the value back |
| `MachineProps.UndefinedVariable` | src/virtual_machine.py:88-92 | loading an unset slot raises and changes nothing |
| `MachineProps.InputDequeues` | src/virtual_machine.py:129-134 | INPUT pushes and removes the first buffered line, or pushes "" when the buffer is empty |
| `MachineProps.InputBuiltinAgrees` | src/virtual_machine.py:232-237 | the built-in input behaves as INPUT does |
| `MachineProps.UnknownOpcodeOrBuiltin` | src/virtual_machine.py:164-257 | an opcode name the machine does not know (a well-formed `Other` opcode, which never spells a known one) raises "Unknown opcode", and an unknown built-in raises "Unknown built-in function" |
| `MachineProps.DivideByZero` | src/virtual_machine.py:98-184 | dividing by a value equal to 0 raises the wrapped division error with both operands popped |
| `MachineProps.PrintAppends` | src/virtual_machine.py:125-127 | PRINT pops and appends exactly str() of the value to the output |
| `MachineProps.DataKeeps` | src/virtual_machine.py:85-96 | data instructions keep output and code |
| `MachineProps.OperatorKeeps` | src/virtual_machine.py:98-107 | operator instructions keep output and code |
| `MachineProps.ControlKeeps` | src/virtual_machine.py:109-162 | control instructions keep output and code |
| `MachineProps.BuiltinKeeps` | src/virtual_machine.py:230-257 | built-ins keep output and code |
| `MachineProps.StepOutput` | src/virtual_machine.py:80-170 | one instruction adds at most one output line, removes none, and never touches the code or constants |
| `MachineProps.RunOutput` | src/virtual_machine.py:66-78 | a run only adds output, at most one line per executed instruction |
| `MachineProps.LimitReached` | src/virtual_machine.py:70-77 | once max instructions have run, a machine still going raises "Execution limit exceeded" |
| `MachineProps.RunsOffTheEnd` | src/virtual_machine.py:70-78 | running past the last instruction stops without error and not halted |
| `MachineProps.HaltStops` | src/virtual_machine.py:139-141 | a HALT reached within the budget ends the run with True |
| `MachineProps.HaltOnLastStepStillFails` | src/virtual_machine.py:70-77 | with a budget of one instruction even a lone HALT raises the limit error |
| `MachineProps.ResetIdempotent` | src/virtual_machine.py:27-40 | reset is idempotent, keeps code, constants and input, and loading after a reset is loading |
| `MachineProps.RunStep` | src/virtual_machine.py:70-75 | an instruction that passes hands on to the next iteration of the loop |
| `MachineProps.RunStops` | src/virtual_machine.py:70-75 | an instruction that raises ends the run with its message |
| `MachineProps.LoadConstPushes` | src/virtual_machine.py:85-86 | LOAD_CONST of a pool index pushes that constant |
| `Analyzer.Analyze` | src/code_analyzer.py:22-46 | the statement count is the length of the program's list |
| `Analyzer.WalkExpr` | src/code_analyzer.py:90-109 | an expression only adds variables and score: the functions and control structures found so far are unchanged, and nothing found is lost |
| `Analyzer.WalkArgs` | src/code_analyzer.py:101-102 | call arguments only add variables and score |
| `Analyzer.WalkItem` | src/code_analyzer.py:45-46 | one list entry only adds to what was found |
| `Analyzer.WalkItems` | src/code_analyzer.py:44-46 | a statement list only adds to what was found |
| `Analyzer.WalkStmt` | src/code_analyzer.py:48-109 | a statement only adds to what was found; a function definition records its name, an assignment its variable |
| `Analyzer.WalkExprSums` | src/code_analyzer.py:90-109 | walking an expression adds its own contribution, whatever was accumulated before |
| `Analyzer.WalkArgsSums` | src/code_analyzer.py:101-102 | walking arguments adds their contribution |
| `Analyzer.WalkItemsSums` | src/code_analyzer.py:44-46 | walking a statement list adds its contribution |
| `Analyzer.WalkItemSums` | src/code_analyzer.py:45-46 | walking one entry adds its contribution |
| `Analyzer.WalkStmtSums` | src/code_analyzer.py:48-106 | walking a statement adds its contribution |
| `Analyzer.AnalyzeSums` | src/code_analyzer.py:22-46 | analyze_ast's totals are the statement count plus what the statements contribute |
| `Analyzer.ItemsPartAppend` | src/code_analyzer.py:44-46 | a statement list contributes what its halves do, in order |
| `Analyzer.ScoreCoversControls` | src/code_analyzer.py:52-88 | every recorded control structure adds at least 2 to the score |
| `Analyzer.ExprPartShape` | src/code_analyzer.py:90-109 | expressions record no control structure and no function |
| `Analyzer.ExprWeights` | src/code_analyzer.py:90-109 | a literal adds nothing, a call adds 2 without recording its name, an operator adds 1 |
| `Analyzer.BranchWeights` | src/code_analyzer.py:52-69 | an if adds 2 and a while 3 on top of their parts |
| `Analyzer.DefinitionWeights` | src/code_analyzer.py:71-88 | a for adds 3 and a function 5 on top of their parts |
| `Analyzer.PreOrder` | src/code_analyzer.py:52-61 | control structures are listed in pre-order, then branch before else branch |
| `Analyzer.IfControls` | src/code_analyzer.py:52-61 | an if records itself, then its branches' structures |
| `Analyzer.NamesRecorded` | src/code_analyzer.py:48-109 | targets, for variables, parameters and identifier reads are recorded as variables; defined names as functions |
| `Analyzer.BandOf` | src/code_analyzer.py:159-165 | a score below 5 is simple, 15 or more complex, and anything between moderate |
| `Analyzer.EnglishParts` | src/code_analyzer.py:130-167 | the English description has the count sentence first, one sentence per non-empty list, and the band sentence last |
| `Analyzer.EnglishDescription` | src/code_analyzer.py:130-167 | the English description starts with the statement-count sentence and ends with the complexity sentence |
| `Text.JoinEnds` | src/code_analyzer.py:167 | " ".join(parts) starts with the first part and ends with the last |
| `Analyzer.DescriptionLanguage` | src/code_analyzer.py:111-128 | a supported language gets its own generator, anything else English |
| `Analyzer.Describe` | src/code_analyzer.py:111-128 | the description is English exactly for English or an unknown language; otherwise it is in that language with the same complexity band |
| `Analyzer.KeywordsIn` | src/code_analyzer.py:351-354 | no more keywords are found than there are spellings |
| `Analyzer.KeywordsInStep` | src/code_analyzer.py:352-354 | one step of the keyword loop |
| `Analyzer.KeywordsInMembers` | src/code_analyzer.py:351-354 | a word is found exactly when it is a spelling and occurs in the code |
| `Analyzer.Estimate` | src/code_analyzer.py:356-361 | more than 10 keywords is High, at most 5 Low, anything between Medium |
| `Analyzer.LoopIssues` | src/code_analyzer.py:364-365 | a loop issue is reported exactly when "while" is among the keywords found and "break" is not |
| `Analyzer.LoopIssuesIntended` | src/code_analyzer.py:364-365 | the intended check uses the language's own spellings of while and break |
| `Analyzer.TextAnalysisWith` | src/code_analyzer.py:339-370 | lines is the newline count plus one, characters the length, the estimate follows the keyword count, and a suggestion is made exactly beyond 50 lines |
| `Analyzer.TextAnalysis` | src/code_analyzer.py:339-370 | as written, the issue depends on the English words while and break |
| `Analyzer.KeywordsUsed` | src/code_analyzer.py:351-354 | keywords_used holds exactly the language's spellings that occur in the code |
| `Analyzer.LoopIssueNeedsEnglishWhile` | src/code_analyzer.py:364-365 | in a language that does not spell a keyword "while", no loop issue is ever reported |
| `Analyzer.LoopIssueIntendedReports` | src/code_analyzer.py:364-365 | the intended check reports code holding the local while and not the local break |
| `Analyzer.TamilLoopMissed` | src/code_analyzer.py:364-365 | Tamil code with varaikum and without neekku gets no issue as written, but gets one under the intended check |
| `Analyzer.TamilLoopKeywords` | src/language_definitions.py:50-62 | Tamil spells while varaikum and break neekku, and has no keyword spelled while |
| `Analyzer.VaraikumSample` | src/code_analyzer.py:353 | the code "varaikum x" holds varaikum and not neekku |
| `Analyzer.CodeAnalyzer.constructor` | src/code_analyzer.py:14-16 | a new analyzer describes in English |
| `Analyzer.CodeAnalyzer.SetLanguage` | src/code_analyzer.py:18-20 | set_language takes any string |
| `Analyzer.CodeAnalyzer.AnalyzeAst` | src/code_analyzer.py:22-38 | analyze_ast reports the walk's totals, lists each name set in some order, and describes them in the current language |
| `Analyzer.CodeAnalyzer.AnalyzeCodeString` | src/code_analyzer.py:339-370 | analyze_code_string computes the text analysis of the current language |
| `Analyzer.KeywordsFound` | src/code_analyzer.py:351-354 | the loop over keywords.values() appends each spelling found, in table order |
| `Analyzer.ListOf` | src/code_analyzer.py:34-35 | list(s) lists every member of a set once |
| `Compiler.ParseResult` | src/compiler.py:68-77 | parse succeeds exactly when the parser produced a tree, and otherwise raises "Parse error: Failed to parse code" |
| `Compiler.Compilation` | src/compiler.py:79-94 | compile_to_bytecode succeeds exactly with the state of a successful generate, and otherwise raises a compilation error carrying the parse or generation message |
| `Compiler.RunStart` | src/compiler.py:100-107 | a run starts with pc 0, empty stack and output, the new code and pool, and the given input, or the leftover input when none is given |
| `Compiler.Executed` | src/compiler.py:96-128 | success exactly without error; a failure drops output and bytecode; a compile error leaves the machine alone; a success reports the machine's output after the run |
| `Compiler.UndeclaredNameFails` | src/compiler.py:96-128 | printing an undeclared name fails to compile with a NameError and runs nothing |
| `Compiler.OutputDroppedOnError` | src/compiler.py:121-128 | `print 1` then `print 1 / 0`: the machine printed "1", yet the result reports no output and the division error |
| `Compiler.InputCarriesOver` | src/compiler.py:103-107 | without new input, leftover input carries into the next run while variables and calls start empty |
| `Compiler.MultilingualCompiler.constructor` | src/compiler.py:21-33 | a new compiler has fresh components in the given language and nothing compiled yet |
| `Compiler.MultilingualCompiler.ChangeLanguage` | src/compiler.py:35-43 | an unsupported language raises and changes nothing; a supported one switches the compiler, the analyzer, the parser and both lexers, whose token lists are rebuilt and whose line counters restart at 1; the last tree, bytecode and constants are kept |
| `Compiler.MultilingualCompiler.Tokenize` | src/compiler.py:61-66 | tokenize returns the facade lexer's tokens |
| `Compiler.MultilingualCompiler.Parse` | src/compiler.py:68-77 | parse returns the tree or the parse error, and updates last_ast only on success |
| `Compiler.MultilingualCompiler.CompileToBytecode` | src/compiler.py:79-94 | compile_to_bytecode returns the generated code or the compilation error; last_ast, last_bytecode and last_constants change exactly as far as parsing and generation succeeded, the generator keeps the state generation reached, and the parser lexer's line counter moves on by the lines scanned |
| `Compiler.MultilingualCompiler.Execute` | src/compiler.py:96-128 | execute returns the result record and leaves the machine in the state the run specification gives; last_ast, last_bytecode, last_constants and the generator state are recorded as in compile_to_bytecode, and the line counter moves on by the lines scanned |
| `Compiler.MultilingualCompiler.RunProgram` | src/compiler.py:102-119 | loading the bytecode and constants, setting the input when some is given, running and collecting the output leave the machine and the result record exactly as the run specification gives |
| `Compiler.MultilingualCompiler.ValidateSyntax` | src/compiler.py:180-194 | valid exactly when parse succeeds, with parse's message otherwise; last_ast changes only on success, and the line counter moves on by the lines scanned |
| `Compiler.MultilingualCompiler.GetBytecodeListing` | src/compiler.py:144-148 | the fixed message before any compilation, the generator's listing afterwards |
| `Compiler.MultilingualCompiler.AnalyzeCode` | src/compiler.py:130-142 | a tree analysis (statement count, score, controls, names and description) when the code parses, the text analysis otherwise; last_ast is replaced exactly when the parse succeeds, and the line counter moves on by the lines scanned |
| `Samples.PrintThenDivideGenerates` | src/bytecode_generator.py:35-221 | `print 1` then `print 1 / 0` compiles to seven instructions over the pool [1, 0] |
| `Samples.PrintOneRuns` | src/virtual_machine.py:85-127 | the first two instructions print "1" |
| `Samples.OperandsRun` | src/virtual_machine.py:85-86 | the next two push 1 and 0 |
| `Samples.DivisionStops` | src/virtual_machine.py:98-184 | the division pops both and raises the wrapped division error |
| `Samples.DivideRun` | src/virtual_machine.py:66-78 | the whole run prints "1" and then stops with the division error |

## Left out

- PLY machinery. The model does not cover `lex.lex()`/`yacc.yacc()` table building, the
  LALR automaton itself, or `p_error`'s messages; a recursive-descent reading of the same
  grammar takes its place, and PLY's error recovery is not reproduced: any syntax error
  makes `parse` return None.
- Construction failure in Python. `lex.lex()` at src/lexer.py:122 and `yacc.yacc()` at
  src/parser.py:220 are called with no module argument, so PLY collects the rules from the
  calling method's locals and the module's globals. The token list lives only in the
  attribute `self.tokens` (src/lexer.py:16-58, src/parser.py:16), so neither call finds a
  `tokens` in scope. PLY then raises (the lexer fails with "Can't build lexer"), so
  constructing a MultilingualLexer, a MultilingualParser or a MultilingualCompiler fails
  in Python. The model's constructors
  (`Lexer.Lexer.constructor`, `Parser.Parser.constructor`,
  `Compiler.MultilingualCompiler.constructor`) succeed instead: they model the components
  as their rule and grammar definitions describe them, as if the tables had been built.
- Text.Title: only ASCII letters count as letters and are cased. Python's str.title() uses
  Unicode letter categories and case mappings, which are large tables. A non-ASCII
  letter in an unknown language code is kept as it is.
- Text.ParseDecimal: exponents ("1e3"), "inf", "nan" and underscores are not accepted,
  so float() of such a text is a ValueError in the model while Python reads a number.
- Values.Modulo: a str left operand is always the "not all arguments converted during
  string formatting" error. That is Python's behaviour only when the string holds no `%`
  conversion; printf-style formatting (`'%d' % 5` is '5') is not modelled.
- Console output. The prints in `t_error`, `p_error` and `parse` are I/O and are left out.
- Floating point. Floats are exact reals, and IEEE rounding is not modelled. `str()` of an
  integral float is Python's: "n.0" below 10^16 (`Values.IntegralFloatStr`), and the exponent
  form such as "1e+16" from there on (`Values.LargeFloatStr`). Every significant digit is
  kept there, where Python would round to 17. Non-integral floats print up to sixteen
  fractional digits instead of Python's shortest round-trip text, and values below 10^-4
  do not switch to exponent form ("1e-05").
- Host errors are approximated. Python's own TypeError texts for unsupported operand types
  are replaced by a message of the same shape.
- Object identity. The listing prints a pooled FunctionCallNode as
  "<src.ast_nodes.FunctionCallNode object>" (`Generator.Repr`). The " at 0x…" address of
  Python's default repr is dropped. Identity for `==` is modelled by the pool index
  `NodeV.id`.
- Generator.Repr: a string is always shown in single quotes and without escapes. Python's
  repr switches to double quotes for a string holding ' but no ", and escapes backslashes
  and non-printable characters. The generator never pools a string, because literals are
  numbers, booleans and call nodes, so listings are not affected.
- Non-English descriptions. The Tamil, Malayalam, Telugu, Hindi and Sanskrit sentence
  texts are not reproduced: `Analyzer.Describe` records which generator runs and the
  complexity band it states.
- Set iteration order. Python's order for the variable, function and control-kind sets is
  left to the caller: `Analyzer.ListOf` lists the members in some order.
- Trivial getters. These are not modelled: `get_stack_trace`, `get_help_text`, both
  `get_syntax_highlighting_rules`, `get_supported_languages`,
  `get_language_display_name`, `get_keywords_for_current_language`, and
  `LanguageDefinitions.get_description_template`'s Unicode template texts (the lookup
  itself is `Languages.DescriptionTemplate`).
- `translate_code` (src/compiler.py:150-178). It rewrites text with `str.replace` over the
  token stream, and is not modelled.
- Compiler.MultilingualCompiler.Tokenize: the scanner model never raises, so the
  "Tokenization error" wrapper is unreachable and not stated.
- GeneratorStack.ExprPushesOne, GeneratorStack.SimpleStatementsBalance: the stack
  effect is proved only for call-free code and simple statements. A call's net effect
  depends on the callee.
- Compiler.MultilingualCompiler.GetBytecodeListing: the listing shows the generator's
  current state. A later compile that failed inside generation also leaves its partial
  state there, and the contract states exactly this.
- Parameter binding. No corrected generator that binds a function's parameters is
  modelled. `GeneratorLayout.ParameterNotBound` records the behaviour as written.
- The analyzer's accumulator dict is threaded as a value (`Analyzer.Analyze`) rather than
  mutated in place.

## Findings

| source | as written | input that shows it | evidently intended | confidence | as-written member | corrected member |
|---|---|---|---|---|---|---|
| src/language_definitions.py:222-231 | a word that is not a spelling of the source language is looked up in the target table as a canonical English keyword | `translate_keyword("if", "telugu", "telugu")` returns "ayite", although "if" is not a Telugu keyword | only source-language spellings are translated; everything else, and every translation within one language, is unchanged | not executed | `Languages.TranslateKeywordAsWritten` | `Languages.TranslateKeywordIntendedIdentity` |
| src/code_analyzer.py:364-365 | the infinite-loop check tests for the English words "while" and "break" among the keywords found, which only English spells so | Tamil code `varaikum x` (a while without a break) reports no issue | the check uses the current language's spellings of while and break | not executed | `Analyzer.TamilLoopMissed` | `Analyzer.LoopIssueIntendedReports` |
