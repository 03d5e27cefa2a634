/** The tokenizer (src/lexer.py): the declared token kinds, a scanner that applies the token
    rules at each position, and the lexer object whose line counter and active language persist
    between calls. */
module Lexer {
  import opened Wrappers
  import opened Text
  import opened Languages

  /** A token's value: the integer of a NUMBER, the text of every other token. */
  datatype TokenValue = NumValue(n: nat) | TextValue(s: string)

  /** One token as tokenize reports it: type, value, line number and offset in the input. */
  datatype Token = Token(kind: string, value: TokenValue, lineno: nat, lexpos: nat)

  /** The 26 token kinds declared before any keyword kind, written in two halves. */
  const BaseKinds: seq<string> := BaseKindsHead + BaseKindsTail

  const BaseKindsHead: seq<string> := [
    "NUMBER", "STRING", "IDENTIFIER", "PLUS", "MINUS", "TIMES", "DIVIDE", "MODULO", "ASSIGN",
    "EQ", "NE", "LT", "LE"]

  const BaseKindsTail: seq<string> := [
    "GT", "GE", "LPAREN", "RPAREN", "LBRACE", "RBRACE", "LBRACKET", "RBRACKET", "SEMICOLON",
    "COMMA", "DOT", "COLON", "NEWLINE"]

  /** The token kinds of the eighteen canonical keywords, upper-cased, written in two halves. */
  const KeywordKinds: seq<string> := KeywordKindsHead + KeywordKindsTail

  const KeywordKindsHead: seq<string> := [
    "IF", "ELSE", "WHILE", "FOR", "FUNCTION", "RETURN", "VAR", "PRINT", "INPUT"]

  const KeywordKindsTail: seq<string> := [
    "TRUE", "FALSE", "AND", "OR", "NOT", "BREAK", "CONTINUE", "CLASS", "IMPORT"]

  predicate Distinct(s: seq<string>)
  {
    forall a, b :: 0 <= a < b < |s| ==> s[a] != s[b]
  }

  // ---------------------------------------------------------------------------------------
  // Token kinds (_setup_tokens)

  /** kinds followed by the upper-cased canonical keyword of each entry of t that is not yet
      listed, in table order. */
  function DeclaredKinds(kinds: seq<string>, t: Table): (r: seq<string>)
    ensures kinds <= r
    ensures forall i :: 0 <= i < |t| ==> Upper(t[i].0) in r
    ensures forall k :: k in r ==> k in kinds || exists i :: 0 <= i < |t| && k == Upper(t[i].0)
  {
    if t == [] then kinds
    else
      var r := DeclaredKinds(kinds, t[..|t| - 1]);
      var k := Upper(t[|t| - 1].0);
      if k in r then r else r + [k]
  }

  /** Declaring the entries of t up to and including entry i. */
  lemma DeclaredKindsStep(kinds: seq<string>, t: Table, i: nat)
    requires i < |t|
    ensures var r := DeclaredKinds(kinds, t[..i]);
      DeclaredKinds(kinds, t[..i + 1]) == if Upper(t[i].0) in r then r else r + [Upper(t[i].0)]
  {
    assert t[..i + 1][..i] == t[..i];
  }

  /** The token list of a language: the base kinds, then its keyword kinds. */
  function TokenKinds(lang: string): seq<string>
  {
    DeclaredKinds(BaseKinds, KeywordsFor(lang))
  }

  /** The declared token list never names a kind twice. */
  lemma {:induction false} DeclaredKindsDistinct(kinds: seq<string>, t: Table)
    requires Distinct(kinds)
    ensures Distinct(DeclaredKinds(kinds, t))
  {
    if t != [] {
      DeclaredKindsDistinct(kinds, t[..|t| - 1]);
    }
  }

  /** Dropping the last extra kind keeps the list distinct, and that kind is not among the
      others. */
  lemma DistinctLast(kinds: seq<string>, extra: seq<string>)
    requires extra != [] && Distinct(kinds + extra)
    ensures var n := |extra| - 1;
      Distinct(kinds + extra[..n]) && extra[n] !in kinds + extra[..n]
  {
    var n := |extra| - 1;
    assert kinds + extra[..n] == (kinds + extra)[..|kinds| + n];
    assert extra[n] == (kinds + extra)[|kinds| + n];
  }

  /** When the table's keyword kinds are new and distinct, each one is appended in order. */
  lemma {:induction false} DeclaredKindsAppend(kinds: seq<string>, t: Table, extra: seq<string>)
    requires |extra| == |t|
    requires forall i :: 0 <= i < |t| ==> Upper(t[i].0) == extra[i]
    requires Distinct(kinds + extra)
    ensures DeclaredKinds(kinds, t) == kinds + extra
  {
    if t != [] {
      var n := |t| - 1;
      DistinctLast(kinds, extra);
      UppersPrefix(t, extra, n);
      DeclaredKindsAppend(kinds, t[..n], extra[..n]);
      AppendLast(kinds, t, extra);
    }
  }

  /** The upper-cased keywords of a prefix of t are the same prefix of extra. */
  lemma UppersPrefix(t: Table, extra: seq<string>, n: nat)
    requires |extra| == |t| && n <= |t|
    requires forall i :: 0 <= i < |t| ==> Upper(t[i].0) == extra[i]
    ensures forall i :: 0 <= i < n ==> Upper(t[..n][i].0) == extra[..n][i]
  {
  }

  /** The last entry of t adds its kind when that kind is not yet declared. */
  lemma AppendLast(kinds: seq<string>, t: Table, extra: seq<string>)
    requires t != [] && |extra| == |t| && Upper(t[|t| - 1].0) == extra[|t| - 1]
    requires DeclaredKinds(kinds, t[..|t| - 1]) == kinds + extra[..|t| - 1]
    requires extra[|t| - 1] !in kinds + extra[..|t| - 1]
    ensures DeclaredKinds(kinds, t) == kinds + extra
  {
    var n := |t| - 1;
    assert kinds + extra == kinds + extra[..n] + [extra[n]];
  }

  /** Upper-casing the canonical keywords gives the keyword kinds. */
  lemma KeywordKindsUpper(i: nat)
    requires i < 18
    ensures Upper(CanonicalKeywords[i]) == KeywordKinds[i]
  {
    var c, u := CanonicalKeywords[i], KeywordKinds[i];
    assert |c| == |u|;
    forall k | 0 <= k < |c|
      ensures UpperChar(c[k]) == u[k]
    {
    }
    UpperEach(c, u);
  }

  /** No kind is declared twice among the base and keyword kinds. */
  lemma AllKindsDistinct()
    ensures Distinct(BaseKinds + KeywordKinds)
  {
    BaseKindsDistinct();
    KeywordKindsDistinct();
    KindsDisjoint();
    DistinctConcat(BaseKinds, KeywordKinds);
  }

  lemma BaseKindsDistinct()
    ensures Distinct(BaseKinds)
  {
    assert Distinct(BaseKindsHead);
    assert Distinct(BaseKindsTail);
    HalvesDisjoint();
    DistinctConcat(BaseKindsHead, BaseKindsTail);
  }

  lemma HalvesDisjoint()
    ensures forall a, b :: 0 <= a < |BaseKindsHead| && 0 <= b < |BaseKindsTail| ==>
      BaseKindsHead[a] != BaseKindsTail[b]
  {
  }

  lemma KeywordKindsDistinct()
    ensures Distinct(KeywordKinds)
  {
    assert Distinct(KeywordKindsHead);
    assert Distinct(KeywordKindsTail);
    KeywordHalvesDisjoint();
    DistinctConcat(KeywordKindsHead, KeywordKindsTail);
  }

  lemma KeywordHalvesDisjoint()
    ensures forall a, b :: 0 <= a < |KeywordKindsHead| && 0 <= b < |KeywordKindsTail| ==>
      KeywordKindsHead[a] != KeywordKindsTail[b]
  {
  }

  lemma KindsDisjoint()
    ensures forall a, b :: 0 <= a < |BaseKinds| && 0 <= b < |KeywordKinds| ==> BaseKinds[a] != KeywordKinds[b]
  {
  }

  lemma DistinctConcat(x: seq<string>, y: seq<string>)
    requires Distinct(x) && Distinct(y)
    requires forall a, b :: 0 <= a < |x| && 0 <= b < |y| ==> x[a] != y[b]
    ensures Distinct(x + y)
  {
    forall a, b | 0 <= a < b < |x + y|
      ensures (x + y)[a] != (x + y)[b]
    {
      if b < |x| {
        assert (x + y)[a] == x[a] && (x + y)[b] == x[b];
      } else if a < |x| {
        assert (x + y)[a] == x[a] && (x + y)[b] == y[b - |x|];
      } else {
        assert (x + y)[a] == y[a - |x|] && (x + y)[b] == y[b - |x|];
      }
    }
  }

  /** Every configured language declares the 26 base kinds followed by the eighteen keyword
      kinds, in canonical order, with no kind twice. */
  lemma ConfiguredTokenKinds(lang: string)
    requires lang in LanguageList()
    ensures TokenKinds(lang) == BaseKinds + KeywordKinds
    ensures Distinct(TokenKinds(lang))
  {
    var t := KeywordsFor(lang);
    ConfiguredTable(lang);
    forall i | 0 <= i < |t|
      ensures Upper(t[i].0) == KeywordKinds[i]
    {
      assert t[i].0 == Canonicals(t)[i];
      KeywordKindsUpper(i);
    }
    AllKindsDistinct();
    DeclaredKindsAppend(BaseKinds, t, KeywordKinds);
  }

  /** _setup_tokens: the base kinds, then each canonical keyword upper-cased unless already
      listed. */
  method SetupTokens(lang: string) returns (tokens: seq<string>)
    ensures tokens == TokenKinds(lang)
  {
    tokens := BaseKinds;
    var keywords := KeywordsFor(lang);
    var i := 0;
    while i < |keywords|
      invariant 0 <= i <= |keywords|
      invariant tokens == DeclaredKinds(BaseKinds, keywords[..i])
    {
      var tokenName := Upper(keywords[i].0);
      DeclaredKindsStep(BaseKinds, keywords, i);
      if tokenName !in tokens {
        tokens := tokens + [tokenName];
      }
      i := i + 1;
    }
    assert keywords[..i] == keywords;
  }

  // ---------------------------------------------------------------------------------------
  // Token rules

  /** t_ignore: spaces and tabs. */
  predicate IsIgnored(c: char) { c == ' ' || c == '\t' }

  /** The end of the maximal run of digits starting at i (the rule `\d+`). */
  function DigitRunEnd(code: string, i: nat): (j: nat)
    requires i <= |code|
    ensures i <= j <= |code|
    ensures forall k :: i <= k < j ==> IsDigit(code[k])
    ensures j == |code| || !IsDigit(code[j])
    decreases |code| - i
  {
    if i < |code| && IsDigit(code[i]) then DigitRunEnd(code, i + 1) else i
  }

  /** The end of the maximal run of identifier characters starting at i. */
  function IdentRunEnd(code: string, i: nat): (j: nat)
    requires i <= |code|
    ensures i <= j <= |code|
    ensures forall k :: i <= k < j ==> IsIdentChar(code[k])
    ensures j == |code| || !IsIdentChar(code[j])
    decreases |code| - i
  {
    if i < |code| && IsIdentChar(code[i]) then IdentRunEnd(code, i + 1) else i
  }

  /** The end of the maximal run of newlines starting at i (the rule `\n+`). */
  function NewlineRunEnd(code: string, i: nat): (j: nat)
    requires i <= |code|
    ensures i <= j <= |code|
    ensures forall k :: i <= k < j ==> code[k] == '\n'
    ensures j == |code| || code[j] != '\n'
    decreases |code| - i
  {
    if i < |code| && code[i] == '\n' then NewlineRunEnd(code, i + 1) else i
  }

  /** The body of a string literal, `([^"\\]|\\.)*`: characters other than a quote or a
      backslash, and backslash pairs whose second character is not a newline. */
  predicate StringBody(s: string)
  {
    s == [] ||
    (s[0] != '"' && s[0] != '\\' && StringBody(s[1..])) ||
    (|s| >= 2 && s[0] == '\\' && s[1] != '\n' && StringBody(s[2..]))
  }

  /** The index of the closing quote of a string literal whose body starts at i, if the rule
      `"([^"\\]|\\.)*"` matches. */
  function StringEnd(code: string, i: nat): (r: Option<nat>)
    requires i <= |code|
    ensures r.Some? ==>
      i <= r.value < |code| && code[r.value] == '"' && StringBody(code[i..r.value])
    decreases |code| - i
  {
    if i == |code| then None
    else if code[i] == '"' then Some(i)
    else if code[i] != '\\' then
      match StringEnd(code, i + 1)
      case Some(k) =>
        assert code[i..k][1..] == code[i + 1..k];
        Some(k)
      case None => None
    else if i + 1 < |code| && code[i + 1] != '\n' then
      match StringEnd(code, i + 2)
      case Some(k) =>
        assert code[i..k][2..] == code[i + 2..k];
        Some(k)
      case None => None
    else None
  }

  /** The operator rules. PLY tries the longer patterns first, so `==`, `!=`, `<=` and `>=` win
      over `=`, `<` and `>`; the result is the token kind and its length. */
  function Operator(code: string, i: nat): (r: Option<(string, nat)>)
    requires i < |code|
    ensures r.Some? ==> 1 <= r.value.1 <= 2 && i + r.value.1 <= |code|
  {
    var c := code[i];
    var d := if i + 1 < |code| then code[i + 1] else '\0';
    if c == '=' && d == '=' then Some(("EQ", 2))
    else if c == '!' && d == '=' then Some(("NE", 2))
    else if c == '<' && d == '=' then Some(("LE", 2))
    else if c == '>' && d == '=' then Some(("GE", 2))
    else match c
      case '+' => Some(("PLUS", 1))
      case '-' => Some(("MINUS", 1))
      case '*' => Some(("TIMES", 1))
      case '/' => Some(("DIVIDE", 1))
      case '%' => Some(("MODULO", 1))
      case '=' => Some(("ASSIGN", 1))
      case '<' => Some(("LT", 1))
      case '>' => Some(("GT", 1))
      case '(' => Some(("LPAREN", 1))
      case ')' => Some(("RPAREN", 1))
      case '{' => Some(("LBRACE", 1))
      case '}' => Some(("RBRACE", 1))
      case '[' => Some(("LBRACKET", 1))
      case ']' => Some(("RBRACKET", 1))
      case ';' => Some(("SEMICOLON", 1))
      case ',' => Some(("COMMA", 1))
      case '.' => Some(("DOT", 1))
      case ':' => Some(("COLON", 1))
      case _ => None
  }

  /** What the scanner does at one position: skip characters, or emit a token and continue
      at next on line `line`. */
  datatype Lexeme = Skip(skipTo: nat) | Emit(tok: Token, next: nat, line: nat)

  function LexemeEnd(l: Lexeme): nat
  {
    match l
    case Skip(j) => j
    case Emit(_, j, _) => j
  }

  /** The type of a word: its canonical keyword upper-cased when the active table spells some
      keyword so (the later entry when two share a spelling), IDENTIFIER otherwise. */
  function WordKind(w: string, table: Table): string
  {
    var rev := Reverse(table);
    if w in rev then Upper(rev[w]) else "IDENTIFIER"
  }

  /** One step of the scanner at position i with line counter line: the ignored characters,
      then the NUMBER, STRING, IDENTIFIER and NEWLINE rules, then the operators, and finally
      t_error, which skips exactly one character. */
  function NextLexeme(code: string, i: nat, line: nat, table: Table): (r: Lexeme)
    requires i < |code|
    ensures i < LexemeEnd(r) <= |code|
    ensures r.Emit? ==> r.tok.lexpos == i && r.tok.lineno == line && r.line >= line
  {
    var c := code[i];
    if IsIgnored(c) then Skip(i + 1)
    else if IsDigit(c) then
      var j := DigitRunEnd(code, i);
      Emit(Token("NUMBER", NumValue(DigitsValue(code[i..j])), line, i), j, line)
    else if c == '"' && StringEnd(code, i + 1).Some? then
      var k := StringEnd(code, i + 1).value;
      Emit(Token("STRING", TextValue(code[i + 1..k]), line, i), k + 1, line)
    else if IsIdentStart(c) then
      var j := IdentRunEnd(code, i);
      Emit(Token(WordKind(code[i..j], table), TextValue(code[i..j]), line, i), j, line)
    else if c == '\n' then
      var j := NewlineRunEnd(code, i);
      Emit(Token("NEWLINE", TextValue(code[i..j]), line, i), j, line + (j - i))
    else match Operator(code, i)
      case Some((kind, n)) => Emit(Token(kind, TextValue(code[i..i + n]), line, i), i + n, line)
      case None => Skip(i + 1)
  }

  /** The tokens the scanner emits from position i on, and the line counter it ends with. */
  function ScanFrom(code: string, i: nat, line: nat, table: Table): (r: (seq<Token>, nat))
    requires i <= |code|
    ensures r.1 >= line
    ensures forall k :: 0 <= k < |r.0| ==> line <= r.0[k].lineno <= r.1
    decreases |code| - i
  {
    if i == |code| then ([], line)
    else
      match NextLexeme(code, i, line, table)
      case Skip(j) => ScanFrom(code, j, line, table)
      case Emit(tok, j, line') =>
        var rest := ScanFrom(code, j, line', table);
        ([tok] + rest.0, rest.1)
  }

  // ---------------------------------------------------------------------------------------
  // The lexer object

  /** MultilingualLexer: the active language, its declared token kinds and the line counter
      of the underlying scanner, which lexer.input does not reset. */
  class Lexer {
    var language: string
    var tokenKinds: seq<string>
    var lineno: nat

    /** The constructor takes the language as given, supported or not. */
    constructor (language: string)
      ensures this.language == language && tokenKinds == TokenKinds(language) && lineno == 1
    {
      var kinds := SetupTokens(language);
      this.language := language;
      tokenKinds := kinds;
      lineno := 1;
    }

    /** change_language: only a supported language is taken up; the scanner is rebuilt, which
        restarts its line counter. */
    method ChangeLanguage(newLanguage: string)
      modifies this
      ensures newLanguage in LanguageList() ==>
        language == newLanguage && tokenKinds == TokenKinds(newLanguage) && lineno == 1
      ensures newLanguage !in LanguageList() ==>
        language == old(language) && tokenKinds == old(tokenKinds) && lineno == old(lineno)
    {
      var supported := LanguageList();
      if newLanguage in supported {
        language := newLanguage;
        tokenKinds := SetupTokens(newLanguage);
        lineno := 1;
      }
    }

    /** tokenize: the tokens of code in order; the line counter carries over to the next call. */
    method Tokenize(code: string) returns (tokens: seq<Token>)
      modifies this`lineno
      ensures (tokens, lineno) == ScanFrom(code, 0, old(lineno), KeywordsFor(language))
    {
      var table := KeywordsFor(language);
      tokens := [];
      var i := 0;
      assert tokens + ScanFrom(code, i, lineno, table).0 == ScanFrom(code, i, lineno, table).0;
      while i < |code|
        invariant 0 <= i <= |code|
        invariant ScanFrom(code, 0, old(lineno), table) ==
          (tokens + ScanFrom(code, i, lineno, table).0, ScanFrom(code, i, lineno, table).1)
        decreases |code| - i
      {
        match NextLexeme(code, i, lineno, table)
        case Skip(j) =>
          assert ScanFrom(code, i, lineno, table) == ScanFrom(code, j, lineno, table);
          i := j;
        case Emit(tok, j, line') =>
          assert ScanFrom(code, i, lineno, table).0 == [tok] + ScanFrom(code, j, line', table).0;
          assert ScanFrom(code, i, lineno, table).1 == ScanFrom(code, j, line', table).1;
          assert tokens + ([tok] + ScanFrom(code, j, line', table).0) ==
            (tokens + [tok]) + ScanFrom(code, j, line', table).0;
          tokens := tokens + [tok];
          lineno := line';
          i := j;
      }
      assert tokens + ScanFrom(code, i, lineno, table).0 == tokens;
    }
  }

  // ---------------------------------------------------------------------------------------
  // Properties of the scanner

  /** The offsets of toks lie in [lo, hi) and strictly increase. */
  predicate Ordered(toks: seq<Token>, lo: nat, hi: nat)
  {
    (forall a :: 0 <= a < |toks| ==> lo <= toks[a].lexpos < hi) &&
    (forall a, b :: 0 <= a < b < |toks| ==> toks[a].lexpos < toks[b].lexpos)
  }

  /** Tokens come out in source order: their offsets strictly increase and lie in the input. */
  lemma {:induction false} ScanOrdered(code: string, i: nat, line: nat, table: Table)
    requires i <= |code|
    ensures Ordered(ScanFrom(code, i, line, table).0, i, |code|)
    decreases |code| - i
  {
    if i < |code| {
      var l := NextLexeme(code, i, line, table);
      assert i < LexemeEnd(l);
      match l
      case Skip(j) =>
        ScanOrdered(code, j, line, table);
        assert ScanFrom(code, i, line, table) == ScanFrom(code, j, line, table);
      case Emit(tok, j, line') =>
        assert i < j && tok.lexpos == i;
        ScanOrdered(code, j, line', table);
        var rest := ScanFrom(code, j, line', table).0;
        assert Ordered(rest, j, |code|);
        var toks := [tok] + rest;
        assert toks == ScanFrom(code, i, line, table).0;
        forall a, b | 0 <= a < b < |toks|
          ensures toks[a].lexpos < toks[b].lexpos
        {
          assert toks[b] == rest[b - 1];
          if a > 0 {
            assert toks[a] == rest[a - 1];
          }
        }
        forall a | 0 <= a < |toks|
          ensures i <= toks[a].lexpos < |code|
        {
          if a > 0 {
            assert toks[a] == rest[a - 1];
          }
        }
    }
  }

  /** The number of line breaks inside NEWLINE tokens. */
  function NewlineCount(toks: seq<Token>): nat
  {
    if toks == [] then 0
    else
      var first := if toks[0].kind == "NEWLINE" && toks[0].value.TextValue? then CountChar(toks[0].value.s, '\n') else 0;
      first + NewlineCount(toks[1..])
  }

  lemma {:induction false} CountNewlines(s: string)
    requires forall k :: 0 <= k < |s| ==> s[k] == '\n'
    ensures CountChar(s, '\n') == |s|
  {
    if s != [] {
      CountNewlines(s[1..]);
    }
  }

  /** Only NEWLINE tokens move the line counter, by the number of line breaks they hold; a
      line break inside a string literal does not count. */
  lemma {:induction false} ScanLines(code: string, i: nat, line: nat, table: Table)
    requires i <= |code|
    ensures ScanFrom(code, i, line, table).1 == line + NewlineCount(ScanFrom(code, i, line, table).0)
    decreases |code| - i
  {
    if i < |code| {
      match NextLexeme(code, i, line, table)
      case Skip(j) => ScanLines(code, j, line, table);
      case Emit(tok, j, line') =>
        LexemeLines(code, i, line, table);
        ScanLines(code, j, line', table);
        var rest := ScanFrom(code, j, line', table).0;
        assert ([tok] + rest)[1..] == rest;
    }
  }

  /** One emitted lexeme moves the line counter by the line breaks of a NEWLINE token. */
  lemma LexemeLines(code: string, i: nat, line: nat, table: Table)
    requires i < |code|
    ensures var l := NextLexeme(code, i, line, table);
      l.Emit? ==> l.line == line + NewlineCount([l.tok])
  {
    var l := NextLexeme(code, i, line, table);
    if l.Emit? {
      var j := l.next;
      assert NewlineCount([l.tok]) == (if l.tok.kind == "NEWLINE" && l.tok.value.TextValue?
        then CountChar(l.tok.value.s, '\n') else 0);
      if code[i] == '\n' {
        CountNewlines(code[i..j]);
      } else if IsIdentStart(code[i]) {
        assert forall k :: i <= k < j ==> code[k] != '\n';
        CountNone(code[i..j], '\n');
      }
    }
  }

  /** A word's type is declared: IDENTIFIER, or the upper-cased canonical keyword of an entry. */
  lemma WordKindDeclared(w: string, table: Table)
    ensures WordKind(w, table) in DeclaredKinds(BaseKinds, table)
  {
    var rev := Reverse(table);
    if w in rev {
      ReverseEntry(table, w);
    } else {
      assert BaseKinds[2] == "IDENTIFIER";
    }
  }

  /** The kind of the token emitted at one position is declared. */
  lemma LexemeKindDeclared(code: string, i: nat, line: nat, table: Table)
    requires i < |code|
    ensures NextLexeme(code, i, line, table).Emit? ==>
      NextLexeme(code, i, line, table).tok.kind in DeclaredKinds(BaseKinds, table)
  {
    var c := code[i];
    if !IsIgnored(c) && !IsDigit(c) && !(c == '"' && StringEnd(code, i + 1).Some?) &&
       IsIdentStart(c) {
      WordKindDeclared(code[i..IdentRunEnd(code, i)], table);
    }
  }

  /** Every token kind the scanner emits is declared in the token list for that table. */
  lemma {:induction false} ScanKindsDeclared(code: string, i: nat, line: nat, table: Table)
    requires i <= |code|
    ensures forall tok :: tok in ScanFrom(code, i, line, table).0 ==>
      tok.kind in DeclaredKinds(BaseKinds, table)
    decreases |code| - i
  {
    if i < |code| {
      LexemeKindDeclared(code, i, line, table);
      match NextLexeme(code, i, line, table)
      case Skip(j) =>
        ScanKindsDeclared(code, j, line, table);
      case Emit(tok, j, line') =>
        ScanKindsDeclared(code, j, line', table);
    }
  }

  /** Spaces, tabs and characters no rule accepts produce nothing: scanning resumes at the
      next character on the same line. */
  lemma SkipCharacter(code: string, i: nat, line: nat, table: Table)
    requires i < |code|
    requires IsIgnored(code[i]) ||
      (!IsDigit(code[i]) && !IsIdentStart(code[i]) && code[i] != '\n' && code[i] != '"' &&
       Operator(code, i).None?)
    ensures ScanFrom(code, i, line, table) == ScanFrom(code, i + 1, line, table)
  {
  }

  /** A maximal run of digits is one NUMBER token whose value is the integer the digits
      denote; reading back a printed number gives the number. */
  lemma NumberToken(n: nat, line: nat, table: Table)
    ensures ScanFrom(NatStr(n), 0, line, table) == ([Token("NUMBER", NumValue(n), line, 0)], line)
  {
    NatStrValue(n);
    DigitsToken(NatStr(n), line, table);
  }

  /** A run of decimal digits of any script is one NUMBER token holding the value int() gives
      the run (the rule `\d+` matches every Unicode decimal digit). */
  lemma DigitsToken(code: string, line: nat, table: Table)
    requires code != [] && AllDigits(code)
    ensures ScanFrom(code, 0, line, table) == ([Token("NUMBER", NumValue(DigitsValue(code)), line, 0)], line)
  {
    var tok := Token("NUMBER", NumValue(DigitsValue(code)), line, 0);
    assert IsDigit(code[0]);
    DigitRunFull(code, 0);
    assert code[0..|code|] == code;
    assert NextLexeme(code, 0, line, table) == Emit(tok, |code|, line);
    assert ScanFrom(code, |code|, line, table) == ([], line);
    assert [tok] + [] == [tok];
  }

  /** Devanagari one, two scans to the number 12, as in Hindi or Sanskrit source text. */
  lemma DevanagariNumber(line: nat, table: Table)
    ensures ScanFrom("\U{0967}\U{0968}", 0, line, table) == ([Token("NUMBER", NumValue(12), line, 0)], line)
  {
    var code := "\U{0967}\U{0968}";
    assert AllDigits(code) by { assert IsDigit(code[0]) && IsDigit(code[1]); }
    assert code[..1] == "\U{0967}";
    assert DigitsValue(code) == 12;
    DigitsToken(code, line, table);
  }

  lemma {:induction false} DigitRunFull(code: string, i: nat)
    requires i <= |code|
    requires AllDigits(code)
    ensures DigitRunEnd(code, i) == |code|
    decreases |code| - i
  {
    if i < |code| {
      DigitRunFull(code, i + 1);
    }
  }

  /** A minus sign is never part of a number: "-n" is a MINUS token followed by a NUMBER. */
  lemma MinusNotFolded(n: nat, line: nat, table: Table)
    ensures ScanFrom("-" + NatStr(n), 0, line, table).0 ==
      [Token("MINUS", TextValue("-"), line, 0), Token("NUMBER", NumValue(n), line, 1)]
  {
    var code := "-" + NatStr(n);
    assert code[0..1] == "-";
    assert ScanFrom(code, 0, line, table).0 ==
      [Token("MINUS", TextValue("-"), line, 0)] + ScanFrom(code, 1, line, table).0;
    var digits := NatStr(n);
    assert code[1..] == digits;
    DigitRunShift(code, 1);
    assert code[1..|code|] == digits;
    NatStrValue(n);
  }

  /** Digit runs do not depend on what precedes the scan position. */
  lemma {:induction false} DigitRunShift(code: string, k: nat)
    requires k <= |code|
    requires AllDigits(code[k..])
    ensures DigitRunEnd(code, k) == |code|
    decreases |code| - k
  {
    if k < |code| {
      assert IsDigit(code[k..][0]);
      assert code[k + 1..] == code[k..][1..];
      DigitRunShift(code, k + 1);
    }
  }

  /** The string rule matches up to the first unescaped quote: when the text from i to k is a
      well-formed body and a quote follows it, the literal closes at k. */
  lemma {:induction false} StringEndAt(code: string, i: nat, k: nat)
    requires i <= k < |code| && code[k] == '"'
    requires StringBody(code[i..k])
    ensures StringEnd(code, i) == Some(k)
    decreases k - i
  {
    var b := code[i..k];
    if i < k {
      if b[0] != '"' && b[0] != '\\' && StringBody(b[1..]) {
        assert b[1..] == code[i + 1..k];
        StringEndAt(code, i + 1, k);
      } else {
        assert b[2..] == code[i + 2..k];
        StringEndAt(code, i + 2, k);
      }
    }
  }

  /** A STRING token's value is the text between the quotes, escapes kept verbatim. */
  lemma StringToken(body: string, line: nat, table: Table)
    requires StringBody(body)
    ensures ScanFrom("\"" + body + "\"", 0, line, table) ==
      ([Token("STRING", TextValue(body), line, 0)], line)
  {
    var code := "\"" + body + "\"";
    var k := |body| + 1;
    assert code[1..k] == body;
    StringEndAt(code, 1, k);
    assert NextLexeme(code, 0, line, table) ==
      Emit(Token("STRING", TextValue(body), line, 0), |code|, line);
    assert ScanFrom(code, |code|, line, table) == ([], line);
    assert [Token("STRING", TextValue(body), line, 0)] + [] == [Token("STRING", TextValue(body), line, 0)];
  }

  /** A word: a letter or underscore, then letters, digits and underscores. */
  predicate IsWord(w: string)
  {
    |w| > 0 && IsIdentStart(w[0]) && forall k :: 0 < k < |w| ==> IsIdentChar(w[k])
  }

  lemma {:induction false} IdentRunFull(code: string, i: nat)
    requires IsWord(code) && i <= |code|
    ensures IdentRunEnd(code, i) == |code|
    decreases |code| - i
  {
    if i < |code| {
      IdentRunFull(code, i + 1);
    }
  }

  /** A word is one token whose value is its spelling and whose type is WordKind. */
  lemma WordToken(w: string, line: nat, table: Table)
    requires IsWord(w)
    ensures ScanFrom(w, 0, line, table) == ([Token(WordKind(w, table), TextValue(w), line, 0)], line)
  {
    IdentRunFull(w, 0);
    assert w[0..|w|] == w;
    var tok := Token(WordKind(w, table), TextValue(w), line, 0);
    assert NextLexeme(w, 0, line, table) == Emit(tok, |w|, line);
    assert ScanFrom(w, |w|, line, table) == ([], line);
    assert [tok] + [] == [tok];
  }

  /** In a configured language a keyword spelling is typed by its canonical keyword upper-cased
      (the later entry when two share it), and every other word is an IDENTIFIER. */
  lemma WordKindClassifies(w: string, lang: string)
    requires lang in LanguageList()
    ensures IsKeyword(w, lang) ==> w in ReverseKeywords(lang)
    ensures IsKeyword(w, lang) ==>
      WordKind(w, KeywordsFor(lang)) == Upper(ReverseKeywords(lang)[w]) &&
      WordKind(w, KeywordsFor(lang)) in KeywordKinds
    ensures !IsKeyword(w, lang) ==> WordKind(w, KeywordsFor(lang)) == "IDENTIFIER"
  {
    if w in ReverseKeywords(lang) {
      KeywordWordKind(w, lang);
    }
  }

  /** A spelling of the language has the upper-cased canonical keyword as its type. */
  lemma KeywordWordKind(w: string, lang: string)
    requires lang in LanguageList() && w in ReverseKeywords(lang)
    ensures WordKind(w, KeywordsFor(lang)) == Upper(ReverseKeywords(lang)[w])
    ensures Upper(ReverseKeywords(lang)[w]) in KeywordKinds
  {
    var t := KeywordsFor(lang);
    ReverseEntry(t, w);
    ConfiguredTable(lang);
    var i :| 0 <= i < |t| && t[i].1 == w && Reverse(t)[w] == t[i].0;
    assert Canonicals(t)[i] == t[i].0;
    KeywordKindsUpper(i);
  }

  /** A run of n line breaks is one NEWLINE token holding the run; the line counter advances by n. */
  lemma NewlineToken(n: nat, line: nat, table: Table)
    requires n > 0
    ensures ScanFrom(seq(n, _ => '\n'), 0, line, table) ==
      ([Token("NEWLINE", TextValue(seq(n, _ => '\n')), line, 0)], line + n)
  {
    var code: string := seq(n, _ => '\n');
    NewlineRunFull(code, 0);
    assert code[0..n] == code;
    var tok := Token("NEWLINE", TextValue(code), line, 0);
    assert NextLexeme(code, 0, line, table) == Emit(tok, n, line + n);
    assert ScanFrom(code, n, line + n, table) == ([], line + n);
    assert [tok] + [] == [tok];
  }

  lemma {:induction false} NewlineRunFull(code: string, i: nat)
    requires i <= |code|
    requires forall k :: 0 <= k < |code| ==> code[k] == '\n'
    ensures NewlineRunEnd(code, i) == |code|
    decreases |code| - i
  {
    if i < |code| {
      NewlineRunFull(code, i + 1);
    }
  }

  /** `==`, `!=`, `<=` and `>=` are single tokens, not two one-character operators. */
  lemma TwoCharacterOperators(line: nat, table: Table)
    ensures ScanFrom("==", 0, line, table).0 == [Token("EQ", TextValue("=="), line, 0)]
    ensures ScanFrom("!=", 0, line, table).0 == [Token("NE", TextValue("!="), line, 0)]
    ensures ScanFrom("<=", 0, line, table).0 == [Token("LE", TextValue("<="), line, 0)]
    ensures ScanFrom(">=", 0, line, table).0 == [Token("GE", TextValue(">="), line, 0)]
  {
    OperatorPair("==", "EQ", line, table);
    OperatorPair("!=", "NE", line, table);
    OperatorPair("<=", "LE", line, table);
    OperatorPair(">=", "GE", line, table);
  }

  lemma OperatorPair(op: string, kind: string, line: nat, table: Table)
    requires |op| == 2 && Operator(op, 0) == Some((kind, 2))
    requires !IsIgnored(op[0]) && !IsDigit(op[0]) && op[0] != '"' && !IsIdentStart(op[0]) && op[0] != '\n'
    ensures ScanFrom(op, 0, line, table).0 == [Token(kind, TextValue(op), line, 0)]
  {
    assert op[0..2] == op;
    var tok := Token(kind, TextValue(op), line, 0);
    assert NextLexeme(op, 0, line, table) == Emit(tok, 2, line);
    assert ScanFrom(op, 2, line, table) == ([], line);
    assert [tok] + [] == [tok];
  }
}
