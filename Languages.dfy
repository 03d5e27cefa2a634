/** The keyword spelling tables: for each configured natural language, the localised spelling of
    every canonical keyword, plus the lookups derived from them (src/language_definitions.py). */
module Languages {
  import opened Wrappers
  import opened Text

  /** An ordered keyword table: (canonical keyword, localised spelling) pairs in declaration
      order. Order matters: reverse lookups let a later entry win, and the tokenizer declares
      keyword token kinds in this order. */
  type Table = seq<(string, string)>

  /** One configured language: its key in the language dictionary, its display name, its short
      code and its keyword table. Its description templates are given by TemplatesFor. */
  datatype Language = Language(key: string, name: string, code: string, keywords: Table)

  /** Pairs each name with its value, in order (a dict literal with the given keys). */
  function Zip(keys: seq<string>, values: seq<string>): (t: seq<(string, string)>)
    requires |keys| == |values|
    ensures |t| == |keys|
    ensures forall i :: 0 <= i < |keys| ==> t[i] == (keys[i], values[i])
  {
    seq(|keys|, i requires 0 <= i < |keys| => (keys[i], values[i]))
  }

  /** The eighteen canonical keywords, in the order every table declares them. */
  const CanonicalKeywords: seq<string> := [
    "if", "else", "while", "for", "function", "return", "var", "print", "input", "true", "false",
    "and", "or", "not", "break", "continue", "class", "import"]

  const TemplateKeys: seq<string> := ["if_statement", "loop", "function", "variable", "print"]

  const EnglishSpellings: seq<string> := [
    "if", "else", "while", "for", "function", "return", "var", "print", "input", "true", "false",
    "and", "or", "not", "break", "continue", "class", "import"]

  const EnglishKeywords: Table := Zip(CanonicalKeywords, EnglishSpellings)

  const EnglishTemplates: seq<(string, string)> := Zip(TemplateKeys, [
    "This is a conditional statement that executes code if the condition is true.",
    "This is a loop that repeats code multiple times.",
    "This defines a reusable function that can be called with parameters.",
    "This declares a variable to store data.",
    "This outputs text or values to the console."])

  const TamilSpellings: seq<string> := [
    "yenil", "illaiyal", "varaikum", "ondrumuttal", "seyalpaadu", "thiruppu", "maari", "veliyidu",
    "ulle", "unmai", "poi", "mattrum", "allathu", "alla", "neekku", "thodaru", "vagai", "konduvaa"]

  const TamilKeywords: Table := Zip(CanonicalKeywords, TamilSpellings)

  const TamilTemplates: seq<(string, string)> := Zip(TemplateKeys, [
    "இது ஒரு நிபந்தனை கூற்று, நிபந்தனை உண்மையாக இருந்தால் குறியீட்டை செயல்படுத்துகிறது.",
    "இது குறியீட்டை பல முறை மீண்டும் செய்யும் ஒரு சுழற்சி.",
    "இது அளவுருக்களுடன் அழைக்கக்கூடிய மீண்டும் பயன்படுத்தக்கூடிய செயல்பாட்டை வரையறுக்கிறது.",
    "இது தரவை சேமிக்க ஒரு மாறியை அறிவிக்கிறது.",
    "இது உரை அல்லது மதிப்புகளை கன்சோலுக்கு வெளியிடுகிறது."])

  const MalayalamSpellings: seq<string> := [
    "yendaa", "allenkil", "vare", "vendii", "pani", "thiriche", "madhu", "parakuu", "keraluu",
    "sathyam", "jhooth", "koode", "allenguil", "alla", "niruthuu", "thidaruu", "jathi",
    "konduvaru"]

  const MalayalamKeywords: Table := Zip(CanonicalKeywords, MalayalamSpellings)

  const MalayalamTemplates: seq<(string, string)> := Zip(TemplateKeys, [
    "ഇത് ഒരു വ്യവസ്ഥാപിത പ്രസ്താവനയാണ്, വ്യവസ്ഥ സത്യമാണെങ്കിൽ കോഡ് നടപ്പിലാക്കുന്നു.",
    "ഇത് കോഡ് ഒന്നിലധികം തവണ ആവർത്തിക്കുന്ന ഒരു ലൂപ്പാണ്.",
    "ഇത് പാരാമീറ്ററുകളുമായി വിളിക്കാവുന്ന പുനരുപയോഗിക്കാവുന്ന ഫംഗ്ഷൻ നിർവചിക്കുന്നു.",
    "ഇത് ഡാറ്റ സംഭരിക്കാൻ ഒരു വേരിയബിൾ പ്രഖ്യാപിക്കുന്നു.",
    "ഇത് ടെക്സ്റ്റോ മൂല്യങ്ങളോ കൺസോളിലേക്ക് ഔട്ട്പുട്ട് ചെയ്യുന്നു."])

  const TeluguSpellings: seq<string> := [
    "ayite", "leda", "varaku", "kosam", "pani", "tirigi", "chaala", "cheppu", "teesuko", "nijam",
    "abaddham", "mariyu", "leda", "kadu", "aagu", "koniyu", "taram", "techchuko"]

  const TeluguKeywords: Table := Zip(CanonicalKeywords, TeluguSpellings)

  const TeluguTemplates: seq<(string, string)> := Zip(TemplateKeys, [
    "ఇది ఒక షరతు ప్రకటన, షరతు నిజమైతే కోడ్‌ను అమలు చేస్తుంది.",
    "ఇది కోడ్‌ను అనేకసార్లు పునరావృతం చేసే లూప్.",
    "ఇది పరామితులతో పిలవబడే పునర్వినియోగ ఫంక్షన్‌ను నిర్వచిస్తుంది.",
    "ఇది డేటాను నిల్వ చేయడానికి వేరియబల్‌ను ప్రకటిస్తుంది.",
    "ఇది టెక్స్ట్ లేదా విలువలను కన్సోల్‌కు అవుట్‌పుట్ చేస్తుంది."])

  const HindiSpellings: seq<string> := [
    "agar", "warna", "jabtak", "keliye", "kaam", "wapas", "badal", "dikhaao", "input", "sach",
    "jhooth", "aur", "ya", "nahin", "roko", "aage", "varg", "laao"]

  const HindiKeywords: Table := Zip(CanonicalKeywords, HindiSpellings)

  const HindiTemplates: seq<(string, string)> := Zip(TemplateKeys, [
    "यह एक शर्त वाला कथन है जो शर्त सच होने पर कोड चलाता है।",
    "यह एक लूप है जो कोड को कई बार दोहराता है।",
    "यह एक पुन: उपयोग योग्य फ़ंक्शन को परिभाषित करता है जिसे पैरामीटर के साथ बुलाया जा सकता है।",
    "यह डेटा स्टोर करने के लिए एक वेरिएबल घोषित करता है।",
    "यह टेक्स्ट या वैल्यू को कंसोल पर आउटपुट करता है।"])

  const SanskritSpellings: seq<string> := [
    "yadi", "anya", "yavat", "artham", "kriya", "nivrit", "parimaan", "darshaya", "grah", "satyam",
    "asatyam", "cha", "va", "na", "stambha", "chala", "varga", "aaharya"]

  const SanskritKeywords: Table := Zip(CanonicalKeywords, SanskritSpellings)

  const SanskritTemplates: seq<(string, string)> := Zip(TemplateKeys, [
    "एषा एका शर्ता वाक्या अस्ति या शर्ता सत्या भवति चेत् कोडम् चालयति।",
    "एषा एका आवर्तना अस्ति या कोडम् बहुवारं पुनरावृत्ति करोति।",
    "एषा एका पुनः उपयोग योग्या क्रिया परिभाषयति या पैरामीटर सह आह्वायितुम् शक्यते।",
    "एषा डेटा संचयार्थं एकं परिमाणं घोषयति।",
    "एषा पाठं वा मूल्यानि वा कन्सोले निर्गच्छति।"])

  /** All configured languages, in the order the language dictionary declares them. */
  const Definitions: seq<Language> := [
    Language("english", "English", "en", EnglishKeywords),
    Language("tamil", "தமிழ்", "ta", TamilKeywords),
    Language("malayalam", "മലയാളം", "ml", MalayalamKeywords),
    Language("telugu", "తెలుగు", "te", TeluguKeywords),
    Language("hindi", "हिन्दी", "hi", HindiKeywords),
    Language("sanskrit", "संस्कृत", "sa", SanskritKeywords)]

  /** The first value bound to key k in an association list (dict.get). */
  function Get(t: seq<(string, string)>, k: string): (r: Option<string>)
    ensures r.Some? <==> exists i :: 0 <= i < |t| && t[i].0 == k
    ensures r.Some? ==> exists i :: 0 <= i < |t| && t[i].0 == k && t[i].1 == r.value
  {
    if t == [] then None
    else if t[0].0 == k then Some(t[0].1)
    else Get(t[1..], k)
  }

  /** The language whose dictionary key is lang (self.languages.get(language)). */
  function Lookup(lang: string): (r: Option<Language>)
    ensures r.Some? <==> exists i :: 0 <= i < |Definitions| && Definitions[i].key == lang
    ensures r.Some? ==> r.value in Definitions && r.value.key == lang
  {
    LookupIn(Definitions, lang)
  }

  function LookupIn(defs: seq<Language>, lang: string): (r: Option<Language>)
    ensures r.Some? <==> exists i :: 0 <= i < |defs| && defs[i].key == lang
    ensures r.Some? ==> r.value in defs && r.value.key == lang
  {
    if defs == [] then None
    else if defs[0].key == lang then Some(defs[0])
    else LookupIn(defs[1..], lang)
  }

  /** get_language_list: the dictionary keys, in declaration order. */
  function LanguageList(): (r: seq<string>)
    ensures r == ["english", "tamil", "malayalam", "telugu", "hindi", "sanskrit"]
    ensures |r| == |Definitions|
    ensures forall i :: 0 <= i < |r| ==> r[i] == Definitions[i].key
  {
    seq(|Definitions|, i requires 0 <= i < |Definitions| => Definitions[i].key)
  }

  /** get_keywords_for_language: the table configured under lang (ConfiguredTable), or an
      empty one for an unknown language. */
  function KeywordsFor(lang: string): (t: Table)
    ensures lang !in LanguageList() ==> t == []
  {
    match Lookup(lang)
    case Some(l) => l.keywords
    case None => []
  }

  /** The spellings of a table, in order (keywords.values()). */
  function Spellings(t: Table): (r: seq<string>)
    ensures |r| == |t|
    ensures forall i :: 0 <= i < |t| ==> r[i] == t[i].1
  {
    seq(|t|, i requires 0 <= i < |t| => t[i].1)
  }

  /** The dict comprehension {v: k for k, v in t.items()}: every spelling maps to its canonical
      keyword, and when two entries share a spelling the later one wins. */
  function Reverse(t: Table): map<string, string>
  {
    if t == [] then map[]
    else Reverse(t[..|t| - 1])[t[|t| - 1].1 := t[|t| - 1].0]
  }

  /** get_reverse_keywords: every spelling of the language, and nothing else, maps to one of
      the canonical keywords. */
  function ReverseKeywords(lang: string): (m: map<string, string>)
    ensures forall s :: s in m <==> s in Spellings(KeywordsFor(lang))
    ensures forall s :: s in m ==> m[s] in CanonicalKeywords
  {
    ReverseDomain(KeywordsFor(lang));
    ConfiguredTable(lang);
    Reverse(KeywordsFor(lang))
  }

  /** translate_keyword, as written: a word that is not a spelling of the source language is
      looked up in the target table as if it were a canonical keyword. */
  function TranslateKeyword(keyword: string, fromLang: string, toLang: string): (r: string)
    ensures r == keyword || r in Spellings(KeywordsFor(toLang))
    ensures keyword in ReverseKeywords(fromLang) && toLang in LanguageList() ==> IsKeyword(r, toLang)
  {
    var fromKeywords := ReverseKeywords(fromLang);
    var eng := if keyword in fromKeywords then fromKeywords[keyword] else keyword;
    GetSpelling(KeywordsFor(toLang), eng);
    ConfiguredTable(toLang);
    GetCanonical(KeywordsFor(toLang), eng);
    Get(KeywordsFor(toLang), eng).GetOr(keyword)
  }

  /** translate_keyword as its documentation intends it: only a spelling of the source
      language is translated; every other word is returned unchanged. */
  function TranslateKeywordIntended(keyword: string, fromLang: string, toLang: string): string
  {
    var fromKeywords := ReverseKeywords(fromLang);
    if keyword in fromKeywords then Get(KeywordsFor(toLang), fromKeywords[keyword]).GetOr(keyword)
    else keyword
  }

  /** The description_templates entry of a language key ({} for an unknown key). */
  function TemplatesFor(lang: string): seq<(string, string)>
  {
    match lang
    case "english" => EnglishTemplates
    case "tamil" => TamilTemplates
    case "malayalam" => MalayalamTemplates
    case "telugu" => TeluguTemplates
    case "hindi" => HindiTemplates
    case "sanskrit" => SanskritTemplates
    case _ => []
  }

  /** get_description_template: '' for an unknown language or template key. */
  function DescriptionTemplate(lang: string, templateKey: string): string
  {
    Get(TemplatesFor(lang), templateKey).GetOr("")
  }

  /** is_keyword: word is one of the language's spellings. */
  predicate IsKeyword(word: string, lang: string)
    ensures IsKeyword(word, lang) <==> word in ReverseKeywords(lang)
  {
    word in Spellings(KeywordsFor(lang))
  }

  /** get_language_name: the configured display name, else the key title-cased. */
  function LanguageName(languageCode: string): (n: string)
    ensures forall k :: 0 <= k < |Definitions| && Definitions[k].key == languageCode ==> n == Definitions[k].name
    ensures languageCode !in LanguageList() ==> n == Title(languageCode) && |n| == |languageCode|
  {
    TablesAgree();
    DefinitionsLookup();
    match Lookup(languageCode)
    case Some(l) => l.name
    case None => Title(languageCode)
  }

  // ---------------------------------------------------------------------------------------
  // keyword_to_lang, filled by the constructor's nested loops

  predicate DistinctKeys(langs: seq<Language>)
  {
    forall a, b :: 0 <= a < b < |langs| ==> langs[a].key != langs[b].key
  }

  /** One assignment keyword_to_lang[local][lang] = eng, creating the inner dictionary first. */
  function Record(m: map<string, map<string, string>>, lang: string, local: string, eng: string)
    : (r: map<string, map<string, string>>)
    ensures r.Keys == m.Keys + {local}
    ensures lang in r[local] && r[local][lang] == eng
    ensures forall s :: s in m && s != local ==> r[s] == m[s]
    ensures local in m ==> r[local] == m[local][lang := eng]
    ensures local !in m ==> r[local] == map[lang := eng]
  {
    m[local := (if local in m then m[local] else map[])[lang := eng]]
  }

  /** The inner loop of the constructor: the entries of one language's table, in order. */
  function AddTable(m: map<string, map<string, string>>, lang: string, t: Table)
    : map<string, map<string, string>>
  {
    if t == [] then m
    else
      var last := t[|t| - 1];
      Record(AddTable(m, lang, t[..|t| - 1]), lang, last.1, last.0)
  }

  /** keyword_to_lang after the constructor's loops over the given languages. */
  function KeywordToLang(langs: seq<Language>): map<string, map<string, string>>
  {
    if langs == [] then map[]
    else
      var last := langs[|langs| - 1];
      AddTable(KeywordToLang(langs[..|langs| - 1]), last.key, last.keywords)
  }

  /** Adding a table records exactly its reverse mapping under lang and leaves every other
      language's entries as they were. */
  lemma {:induction false} AddTableEntries(m: map<string, map<string, string>>, lang: string,
                                           t: Table, s: string, l: string)
    ensures s in AddTable(m, lang, t) <==> s in m || s in Reverse(t)
    ensures s in Reverse(t) ==>
      lang in AddTable(m, lang, t)[s] && AddTable(m, lang, t)[s][lang] == Reverse(t)[s]
    ensures s in AddTable(m, lang, t) && l != lang ==>
      (l in AddTable(m, lang, t)[s] <==> s in m && l in m[s])
    ensures s in AddTable(m, lang, t) && l != lang && l in AddTable(m, lang, t)[s] ==>
      AddTable(m, lang, t)[s][l] == m[s][l]
    ensures s in AddTable(m, lang, t) && s !in Reverse(t) ==> AddTable(m, lang, t)[s] == m[s]
  {
    if t != [] {
      AddTableEntries(m, lang, t[..|t| - 1], s, l);
    }
  }

  /** keyword_to_lang has an entry for exactly the spellings of the configured languages. */
  lemma {:induction false} KeywordToLangKeys(langs: seq<Language>, s: string)
    ensures s in KeywordToLang(langs) <==>
      exists k :: 0 <= k < |langs| && s in Reverse(langs[k].keywords)
  {
    if langs != [] {
      var init := langs[..|langs| - 1];
      var last := langs[|langs| - 1];
      KeywordToLangKeys(init, s);
      AddTableEntries(KeywordToLang(init), last.key, last.keywords, s, "");
      if s in KeywordToLang(langs) {
        if s in Reverse(last.keywords) {
          assert 0 <= |langs| - 1 < |langs| && s in Reverse(langs[|langs| - 1].keywords);
        } else {
          var k :| 0 <= k < |init| && s in Reverse(init[k].keywords);
          assert langs[k] == init[k];
        }
      } else {
        forall k | 0 <= k < |langs|
          ensures s !in Reverse(langs[k].keywords)
        {
          if k < |init| {
            assert init[k] == langs[k];
          }
        }
      }
    }
  }

  /** Spelling s has an entry for language key l exactly when l is a configured language that
      spells some keyword s, and that entry is the canonical keyword of l's reverse table (the
      later one when l spells two keywords alike). */
  lemma {:induction false} KeywordToLangEntry(langs: seq<Language>, s: string, l: string)
    requires DistinctKeys(langs)
    ensures (s in KeywordToLang(langs) && l in KeywordToLang(langs)[s]) <==>
      LookupIn(langs, l).Some? && s in Reverse(LookupIn(langs, l).value.keywords)
    ensures s in KeywordToLang(langs) && l in KeywordToLang(langs)[s] ==>
      KeywordToLang(langs)[s][l] == Reverse(LookupIn(langs, l).value.keywords)[s]
  {
    if langs != [] {
      var init := langs[..|langs| - 1];
      var last := langs[|langs| - 1];
      assert init + [last] == langs;
      KeywordToLangEntry(init, s, l);
      AddTableEntries(KeywordToLang(init), last.key, last.keywords, s, l);
      LookupSnoc(init, last, l);
      if LookupIn(init, l).Some? {
        assert LookupIn(init, l).value.key == l != last.key;
      }
    }
  }

  /** Looking a key up after appending a language whose key is new. */
  lemma {:induction false} LookupSnoc(init: seq<Language>, last: Language, l: string)
    requires DistinctKeys(init + [last])
    ensures LookupIn(init + [last], l) ==
      if LookupIn(init, l).Some? then LookupIn(init, l)
      else if last.key == l then Some(last) else None
  {
    if init != [] {
      assert (init + [last])[1..] == init[1..] + [last];
      LookupSnoc(init[1..], last, l);
    }
  }

  /** Builds keyword_to_lang with the constructor's two nested loops. */
  method BuildKeywordToLang(langs: seq<Language>) returns (m: map<string, map<string, string>>)
    ensures m == KeywordToLang(langs)
  {
    m := map[];
    var i := 0;
    while i < |langs|
      invariant 0 <= i <= |langs|
      invariant m == KeywordToLang(langs[..i])
    {
      var lang := langs[i].key;
      var table := langs[i].keywords;
      var j := 0;
      while j < |table|
        invariant 0 <= j <= |table|
        invariant m == AddTable(KeywordToLang(langs[..i]), lang, table[..j])
      {
        var (eng, local) := table[j];
        assert table[..j + 1][..j] == table[..j];
        if local !in m {
          m := m[local := map[]];
        }
        m := m[local := m[local][lang := eng]];
        j := j + 1;
      }
      assert table[..j] == table;
      assert langs[..i + 1][..i] == langs[..i];
      i := i + 1;
    }
    assert langs[..i] == langs;
  }

  // ---------------------------------------------------------------------------------------
  // Properties of the tables and lookups

  /** The canonical keywords of a table, in order (keywords.keys()). */
  function Canonicals(t: Table): (r: seq<string>)
    ensures |r| == |t|
    ensures forall i :: 0 <= i < |t| ==> r[i] == t[i].0
  {
    seq(|t|, i requires 0 <= i < |t| => t[i].0)
  }

  /** The table of every supported language lists the eighteen canonical keywords in canonical
      order, each once. */
  lemma ConfiguredTable(lang: string)
    ensures lang in LanguageList() ==>
      Canonicals(KeywordsFor(lang)) == CanonicalKeywords && DistinctCanonicals(KeywordsFor(lang))
  {
    if lang in LanguageList() {
      TablesAgree();
      DefinitionsLookup();
      var k :| 0 <= k < |Definitions| && Definitions[k].key == lang;
      assert KeywordsFor(lang) == Definitions[k].keywords;
    }
  }

  /** Each configured language is found under its own key. */
  lemma DefinitionsLookup()
    ensures forall k :: 0 <= k < |Definitions| ==> Lookup(Definitions[k].key) == Some(Definitions[k])
  {
    TablesAgree();
    forall k | 0 <= k < |Definitions|
      ensures Lookup(Definitions[k].key) == Some(Definitions[k])
    {
      LookupAt(Definitions, k);
    }
  }

  /** With distinct keys, the lookup of an entry's key finds that entry. */
  lemma {:induction false} LookupAt(defs: seq<Language>, k: nat)
    requires DistinctKeys(defs) && k < |defs|
    ensures LookupIn(defs, defs[k].key) == Some(defs[k])
  {
    if k > 0 {
      assert defs[0].key != defs[k].key;
      var tail := defs[1..];
      forall a, b | 0 <= a < b < |tail|
        ensures tail[a].key != tail[b].key
      {
        assert tail[a] == defs[a + 1] && tail[b] == defs[b + 1];
      }
      assert tail[k - 1] == defs[k];
      LookupAt(tail, k - 1);
    }
  }

  /** The reverse mapping's keys are the table's spellings, its values canonical keywords of
      the table. */
  lemma {:induction false} ReverseDomain(t: Table)
    ensures forall s :: s in Reverse(t) <==> s in Spellings(t)
    ensures forall s :: s in Reverse(t) ==> Reverse(t)[s] in Canonicals(t)
  {
    if t != [] {
      var init := t[..|t| - 1];
      ReverseDomain(init);
      assert Spellings(t) == Spellings(init) + [t[|t| - 1].1];
      assert Canonicals(t) == Canonicals(init) + [t[|t| - 1].0];
    }
  }

  /** dict.get returns one of the table's spellings. */
  lemma GetSpelling(t: Table, k: string)
    ensures Get(t, k).Some? ==> Get(t, k).value in Spellings(t)
  {
    if Get(t, k).Some? {
      var i :| 0 <= i < |t| && t[i].0 == k && t[i].1 == Get(t, k).value;
      assert Spellings(t)[i] == t[i].1;
    }
  }

  /** A table that lists every canonical keyword has a spelling for each of them. */
  lemma GetCanonical(t: Table, k: string)
    ensures Canonicals(t) == CanonicalKeywords && k in CanonicalKeywords ==> Get(t, k).Some?
  {
    if Canonicals(t) == CanonicalKeywords && k in CanonicalKeywords {
      var i :| 0 <= i < |CanonicalKeywords| && CanonicalKeywords[i] == k;
      assert t[i].0 == Canonicals(t)[i];
    }
  }

  /** No canonical keyword occurs twice in a table (a Python dict's keys). */
  predicate DistinctCanonicals(t: Table)
  {
    forall a, b :: 0 <= a < b < |t| ==> t[a].0 != t[b].0
  }

  /** The reverse mapping holds a spelling exactly when some entry spells it, and maps it to the
      canonical keyword of the LAST such entry. */
  lemma {:induction false} ReverseEntry(t: Table, s: string)
    ensures s in Reverse(t) <==> exists i :: 0 <= i < |t| && t[i].1 == s
    ensures s in Reverse(t) ==>
      exists i :: 0 <= i < |t| && t[i].1 == s && Reverse(t)[s] == t[i].0 &&
        forall j :: i < j < |t| ==> t[j].1 != s
  {
    if t != [] {
      var init := t[..|t| - 1];
      ReverseEntry(init, s);
      if t[|t| - 1].1 != s {
        if s in Reverse(init) {
          var i :| 0 <= i < |init| && init[i].1 == s && Reverse(init)[s] == init[i].0 &&
            forall j :: i < j < |init| ==> init[j].1 != s;
          assert t[i] == init[i];
        }
        if exists i :: 0 <= i < |t| && t[i].1 == s {
          var i :| 0 <= i < |t| && t[i].1 == s;
          assert init[i] == t[i];
        }
      }
    }
  }

  /** Looking a spelling's canonical keyword back up in the same table gives the spelling
      again, when canonical keywords are distinct. */
  lemma GetReverse(t: Table, s: string)
    requires DistinctCanonicals(t)
    requires s in Reverse(t)
    ensures Get(t, Reverse(t)[s]) == Some(s)
  {
    ReverseEntry(t, s);
    var i :| 0 <= i < |t| && t[i].1 == s && Reverse(t)[s] == t[i].0;
    GetIndex(t, i);
  }

  /** dict.get on a table with distinct canonical keywords returns the entry's spelling. */
  lemma {:induction false} GetIndex(t: Table, i: nat)
    requires DistinctCanonicals(t)
    requires i < |t|
    ensures Get(t, t[i].0) == Some(t[i].1)
  {
    if i > 0 {
      assert t[0].0 != t[i].0;
      GetIndex(t[1..], i - 1);
    }
  }

  /** No canonical keyword is listed twice. */
  lemma CanonicalKeywordsDistinct()
    ensures forall a, b :: 0 <= a < b < |CanonicalKeywords| ==> CanonicalKeywords[a] != CanonicalKeywords[b]
  {
  }

  /** Every configured table lists the same eighteen canonical keywords in the same order, with
      no canonical keyword twice; language keys are distinct. */
  lemma TablesAgree()
    ensures DistinctKeys(Definitions)
    ensures forall k :: 0 <= k < |Definitions| ==>
      Canonicals(Definitions[k].keywords) == CanonicalKeywords
    ensures forall k :: 0 <= k < |Definitions| ==> DistinctCanonicals(Definitions[k].keywords)
  {
    CanonicalKeywordsDistinct();
    forall k | 0 <= k < |Definitions|
      ensures Canonicals(Definitions[k].keywords) == CanonicalKeywords
    {
      assert |Definitions[k].keywords| == |CanonicalKeywords|;
    }
  }

  /** The languages offered are english, tamil, malayalam, telugu, hindi and sanskrit, in that
      order, and an unknown key has no keywords, no templates, no keyword spellings, and is
      displayed title-cased. */
  lemma UnknownLanguage(lang: string, word: string, templateKey: string)
    requires lang !in LanguageList()
    ensures KeywordsFor(lang) == []
    ensures ReverseKeywords(lang) == map[]
    ensures !IsKeyword(word, lang)
    ensures DescriptionTemplate(lang, templateKey) == ""
    ensures LanguageName(lang) == Title(lang)
    ensures TranslateKeyword(word, lang, lang) == word
  {
  }

  /** Every configured language spells each of the keywords the parser needs. */
  lemma EssentialKeywords(k: nat, key: string)
    requires k < |Definitions|
    requires key in ["if", "else", "while", "for", "function", "return", "var", "print"]
    ensures Get(Definitions[k].keywords, key).Some?
  {
    TablesAgree();
    assert CanonicalKeywords[..8] == ["if", "else", "while", "for", "function", "return", "var", "print"];
    var i :| 0 <= i < 8 && key == CanonicalKeywords[i];
    assert Canonicals(Definitions[k].keywords)[i] == key;
  }

  /** The Telugu entry of the language dictionary. */
  lemma TeluguEntry()
    ensures KeywordsFor("telugu") == TeluguKeywords
  {
    assert Definitions[3].key == "telugu";
    assert LookupIn(Definitions, "telugu") == LookupIn(Definitions[1..], "telugu");
    assert LookupIn(Definitions[1..], "telugu") == LookupIn(Definitions[2..], "telugu");
    assert LookupIn(Definitions[2..], "telugu") == LookupIn(Definitions[3..], "telugu");
  }

  /** The Tamil entry of the language dictionary. */
  lemma TamilEntry()
    ensures KeywordsFor("tamil") == TamilKeywords
  {
    assert Definitions[1].key == "tamil";
    assert LookupIn(Definitions, "tamil") == LookupIn(Definitions[1..], "tamil");
  }

  lemma TamilGets()
    ensures Get(TamilKeywords, "while") == Some("varaikum")
    ensures Get(TamilKeywords, "break") == Some("neekku")
  {
    var t := TamilKeywords;
    CanonicalKeywordsDistinct();
    assert DistinctCanonicals(t);
    assert t[2] == ("while", "varaikum") && t[14] == ("break", "neekku");
    GetIndex(t, 2);
    GetIndex(t, 14);
  }

  lemma TamilSpellingsListed()
    ensures Spellings(KeywordsFor("tamil")) == TamilSpellings
  {
    TamilEntry();
    assert Spellings(TamilKeywords) == TamilSpellings;
  }

  /** The reverse mapping sends a spelling to the canonical keyword of its last entry. */
  lemma {:induction false} ReverseLast(t: Table, k: nat)
    requires k < |t|
    requires forall j :: k < j < |t| ==> t[j].1 != t[k].1
    ensures t[k].1 in Reverse(t) && Reverse(t)[t[k].1] == t[k].0
  {
    if k < |t| - 1 {
      ReverseLast(t[..|t| - 1], k);
    }
  }

  /** Telugu spells both else and or as leda; the later entry, or, wins in the reverse table. */
  lemma TeluguLeda()
    ensures TeluguKeywords[1] == ("else", "leda") && TeluguKeywords[12] == ("or", "leda")
    ensures "leda" in ReverseKeywords("telugu") && ReverseKeywords("telugu")["leda"] == "or"
  {
    TeluguLedaEntries();
    TeluguEntry();
    TeluguReverseLeda();
  }

  lemma TeluguLedaEntries()
    ensures TeluguKeywords[1] == ("else", "leda") && TeluguKeywords[12] == ("or", "leda")
  {
  }

  lemma TeluguReverseLeda()
    ensures "leda" in Reverse(TeluguKeywords) && Reverse(TeluguKeywords)["leda"] == "or"
  {
    var t := TeluguKeywords;
    TeluguLedaEntries();
    forall j | 12 < j < |t|
      ensures t[j].1 != t[12].1
    {
      TeluguLateSpellings(j);
    }
    ReverseLast(t, 12);
  }

  lemma TeluguLateSpellings(j: nat)
    requires 13 <= j < 18
    ensures TeluguSpellings[j] != "leda"
  {
    assert TeluguSpellings[13..] == ["kadu", "aagu", "koniyu", "taram", "techchuko"];
    assert TeluguSpellings[j] == TeluguSpellings[13..][j - 13];
  }

  /** translate_keyword as written agrees with the intended translation on every spelling of
      the source language; on any other word it looks the word up as a canonical keyword of
      the target language. */
  lemma TranslateKeywordCases(keyword: string, fromLang: string, toLang: string)
    ensures keyword in ReverseKeywords(fromLang) ==>
      TranslateKeyword(keyword, fromLang, toLang) == TranslateKeywordIntended(keyword, fromLang, toLang)
    ensures keyword !in ReverseKeywords(fromLang) ==>
      TranslateKeyword(keyword, fromLang, toLang) == Get(KeywordsFor(toLang), keyword).GetOr(keyword)
    ensures keyword !in ReverseKeywords(fromLang) ==>
      TranslateKeywordIntended(keyword, fromLang, toLang) == keyword
  {
  }

  /** The discrepancy: translating the word "if" from Telugu to Telugu yields "ayite", although
      "if" is not a Telugu keyword and translating within one language should change nothing. */
  lemma TranslateKeywordAsWritten()
    ensures !IsKeyword("if", "telugu")
    ensures TranslateKeyword("if", "telugu", "telugu") == "ayite"
  {
    TeluguEntry();
    TeluguIfNotSpelled();
    assert TeluguKeywords[0] == ("if", "ayite");
  }

  lemma TeluguIfNotSpelled()
    ensures "if" !in Spellings(TeluguKeywords) && "if" !in Reverse(TeluguKeywords)
  {
    assert "if" !in TeluguSpellings;
    assert Spellings(TeluguKeywords) == TeluguSpellings;
    ReverseEntry(TeluguKeywords, "if");
  }

  /** The intended translation changes nothing within one language, and leaves every word that
      is not a keyword spelling of the source language unchanged. */
  lemma TranslateKeywordIntendedIdentity(keyword: string, fromLang: string, toLang: string)
    ensures TranslateKeywordIntended(keyword, fromLang, fromLang) == keyword
    ensures !IsKeyword(keyword, fromLang) ==> TranslateKeywordIntended(keyword, fromLang, toLang) == keyword
  {
    var t := KeywordsFor(fromLang);
    TablesAgree();
    ReverseEntry(t, keyword);
    if keyword in Reverse(t) {
      assert DistinctCanonicals(t);
      GetReverse(t, keyword);
    }
  }
}
