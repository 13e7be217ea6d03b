/**
 * The language detector of lib/utils.ts: a fast path on literal prefixes,
 * then a score per language from a fixed signature table (+1 per keyword
 * the lower-cased text contains, +2 per pattern it matches), a TypeScript
 * bonus, a JSON confirm-or-zero step, a first-seen arg-max and a threshold.
 *
 * Regular expressions and `JSON.parse` are not modelled: an `Engine` supplies
 * the verdict of every pattern test and of the JSON parser, and everything
 * here holds for every engine. The scoring is stated for any table of the
 * shape of `Signatures` (`WellFormedTable`) and instantiated with it.
 */
module LanguageDetection {
  import opened Common

  /** A regular-expression literal: its source and its flags. */
  datatype Regex = Regex(source: string, flags: string)

  /** The regular-expression engine (`pattern.test(text)`) and `JSON.parse`
      (whether it accepts the text without throwing). */
  datatype Engine = Engine(test: (Regex, string) -> bool, parses: string -> bool)

  datatype Signature = Signature(name: string, keywords: seq<string>, patterns: seq<Regex>)

  /** The signature table, in declaration order (the order `Object.entries` visits it). */
  const Signatures: seq<Signature> := [
    Signature("JavaScript",
      ["const", "let", "var", "function", "return", "export", "import", "from", "=>"],
      [Regex(@"console\.log\(", ""), Regex(@"const\s+\w+\s*=", ""),
       Regex(@"function\s+\w+\s*\(", ""), Regex(@"import\s+.*\s+from\s+", "")]),
    Signature("TypeScript",
      ["interface", "type", "namespace", "readonly", "private", "public", "protected"],
      [Regex(@":\s*string\b", ""), Regex(@":\s*number\b", ""), Regex(@":\s*boolean\b", ""),
       Regex(@"<[\w\s,]+>", ""), Regex(@"interface\s+\w+\s*\{", "")]),
    Signature("Python",
      ["def", "class", "import", "from", "as", "with", "self", "if", "elif", "else"],
      [Regex(@"def\s+\w+\s*\(", ""), Regex(@"class\s+\w+\s*:", ""), Regex(@"if\s+.*:", ""),
       Regex(@"import\s+\w+", ""), Regex(@"#.*$", "m")]),
    Signature("HTML",
      ["div", "span", "class", "href", "src"],
      [Regex(@"<\/?[a-z][\s\S]*>", "i"), Regex(@"<html", "i"), Regex(@"<div", "i"),
       Regex(@"<body", "i"), Regex(@"<head", "i")]),
    Signature("CSS",
      ["margin", "padding", "color", "background", "width", "height", "display"],
      [Regex(@"\{[\s\S]*\}", ""), Regex(@";\s*$", ""), Regex(@"#[a-f0-9]{3,6}", "i"),
       Regex(@"\.\w+\s*\{", "")]),
    Signature("SQL",
      ["select", "from", "where", "join", "group by", "having", "order by", "insert", "update", "delete"],
      [Regex(@"select\s+.*\s+from", "i"), Regex(@"create\s+table", "i"),
       Regex(@"insert\s+into", "i"), Regex(@"update\s+.*\s+set", "i")]),
    Signature("Java",
      ["public", "private", "protected", "class", "interface", "extends", "implements", "void", "static"],
      [Regex(@"public\s+class", ""), Regex(@"public\s+static\s+void\s+main", ""),
       Regex(@"\w+\s+\w+\s*=\s*new\s+\w+", "")]),
    Signature("CSharp",
      ["namespace", "using", "class", "var", "string", "int", "bool", "void", "async", "await"],
      [Regex(@"namespace\s+\w+", ""), Regex(@"class\s+\w+", ""), Regex(@"using\s+\w+;", ""),
       Regex(@"\w+<\w+>", "")]),
    Signature("PHP",
      ["function", "echo", "print", "require", "include", "namespace", "use", "$"],
      [Regex(@"<\?php", ""), Regex(@"\$\w+\s*=", ""), Regex(@"function\s+\w+\s*\(.*\)\s*\{", ""),
       Regex(@"echo\s+", "")]),
    Signature("Ruby",
      ["def", "end", "class", "module", "require", "include", "attr_accessor", "do"],
      [Regex(@"def\s+\w+", ""), Regex(@"class\s+\w+", ""), Regex(@"\w+\.each\s+do", ""),
       Regex(@"attr_accessor\s+:\w+", "")]),
    Signature("Go",
      ["func", "package", "import", "var", "const", "struct", "interface", "go", "chan", "defer"],
      [Regex(@"func\s+\w+\(", ""), Regex(@"package\s+\w+", ""), Regex(@"import\s+\([\s\S]*\)", ""),
       Regex(@"type\s+\w+\s+struct", "")]),
    Signature("Rust",
      ["fn", "let", "mut", "struct", "enum", "impl", "trait", "match", "use", "mod"],
      [Regex(@"fn\s+\w+\s*\(", ""), Regex(@"let\s+mut\s+\w+", ""), Regex(@"impl\s+\w+\s+for", ""),
       Regex(@"use\s+\w+::\w+", "")]),
    Signature("JSON",
      [],
      [Regex(@"^\s*\{[\s\S]*\}\s*$", ""), Regex(@"""[\w\s]+""\s*:\s*[""{\[\d]", ""),
       Regex(@"\[[\s\S]*\]", "")]),
    Signature("Markdown",
      [],
      [Regex(@"^#\s+.*$", "m"), Regex(@"\*\*.*\*\*", ""), Regex(@"\[.*\]\(.*\)", ""),
       Regex(@"```[\s\S]*```", "")])
  ]

  const LanguageCount: nat := 14
  const JavaScriptIndex: nat := 0
  const TypeScriptIndex: nat := 1
  const JsonIndex: nat := 12

  /** The type-annotation test that decides the TypeScript bonus. */
  const TypeAnnotation: Regex := Regex(@"(:\s*\w+|<\w+>)", "")

  const Unknown: string := "Unknown"

  /** The labels the detector returns without consulting the table. */
  const FixedLabels: set<string> := {"XML", "HTML", "PHP", Unknown}

  /** What the scoring relies on about the table: fourteen languages, the three
      the adjustments name at their positions, JSON nowhere else, and no name
      that is empty or could be mistaken for "Unknown". */
  predicate WellFormedTable(table: seq<Signature>) {
    && |table| == LanguageCount
    && table[JavaScriptIndex].name == "JavaScript"
    && table[TypeScriptIndex].name == "TypeScript"
    && table[JsonIndex].name == "JSON"
    && (forall i :: 0 <= i < |table| ==> table[i].name != Unknown && table[i].name != "")
    && (forall i :: 0 <= i < |table| && i != JsonIndex ==> table[i].name != "JSON")
  }

  lemma SignaturesWellFormed()
    ensures WellFormedTable(Signatures)
  {
    SignatureNamesPlaced();
    SignatureNamesProper();
    SignatureJsonOnce();
  }

  lemma SignatureNamesPlaced()
    ensures |Signatures| == LanguageCount
    ensures Signatures[JavaScriptIndex].name == "JavaScript"
    ensures Signatures[TypeScriptIndex].name == "TypeScript"
    ensures Signatures[JsonIndex].name == "JSON"
  {
  }

  lemma SignatureNamesProper()
    ensures forall i :: 0 <= i < |Signatures| ==> Signatures[i].name != Unknown && Signatures[i].name != ""
  {
  }

  lemma SignatureJsonOnce()
    ensures forall i :: 0 <= i < |Signatures| && i != JsonIndex ==> Signatures[i].name != "JSON"
  {
  }

  /** The working copy every test reads: `code.trim().toLowerCase()`. */
  function Normalize(code: string): string {
    Lower(Trim(code))
  }

  /** How many of `patterns` the engine says match `text`. */
  function PatternHits(patterns: seq<Regex>, text: string, engine: Engine): (n: nat)
    ensures n <= |patterns|
  {
    if patterns == [] then 0
    else PatternHits(patterns[..|patterns| - 1], text, engine)
         + (if engine.test(patterns[|patterns| - 1], text) then 1 else 0)
  }

  /** A language's score from its signature alone. */
  function BaseScore(sig: Signature, text: string, engine: Engine): nat {
    KeywordHits(sig.keywords, text) + 2 * PatternHits(sig.patterns, text, engine)
  }

  function BaseScores(table: seq<Signature>, text: string, engine: Engine): (s: seq<nat>)
    ensures |s| == |table|
    ensures forall i :: 0 <= i < |s| ==> s[i] == BaseScore(table[i], text, engine)
  {
    seq(|table|, i requires 0 <= i < |table| => BaseScore(table[i], text, engine))
  }

  /** The TypeScript step: +2 to TypeScript when both script scores are positive
      and the annotation test matches; no other score changes. */
  function WithTypeScriptBonus(s: seq<nat>, text: string, engine: Engine): (r: seq<nat>)
    requires |s| == LanguageCount
    ensures |r| == |s|
    ensures forall j :: 0 <= j < |s| && j != TypeScriptIndex ==> r[j] == s[j]
    ensures r[TypeScriptIndex] ==
      s[TypeScriptIndex] +
        (if s[JavaScriptIndex] > 0 && s[TypeScriptIndex] > 0 && engine.test(TypeAnnotation, text) then 2 else 0)
  {
    if s[JavaScriptIndex] > 0 && s[TypeScriptIndex] > 0 && engine.test(TypeAnnotation, text)
    then s[TypeScriptIndex := s[TypeScriptIndex] + 2]
    else s
  }

  /** The JSON step: a positive JSON score gains 5 when the raw text parses and
      drops to 0 when it does not; no other score changes. */
  function WithJsonCheck(s: seq<nat>, code: string, engine: Engine): (r: seq<nat>)
    requires |s| == LanguageCount
    ensures |r| == |s|
    ensures forall j :: 0 <= j < |s| && j != JsonIndex ==> r[j] == s[j]
    ensures r[JsonIndex] > 0 ==> engine.parses(code)
    ensures s[JsonIndex] > 0 && engine.parses(code) ==> r[JsonIndex] == s[JsonIndex] + 5
    ensures s[JsonIndex] == 0 ==> r[JsonIndex] == 0
  {
    if s[JsonIndex] > 0 then
      if engine.parses(code) then s[JsonIndex := s[JsonIndex] + 5] else s[JsonIndex := 0]
    else s
  }

  /** The scores the arg-max sees. */
  function FinalScores(table: seq<Signature>, code: string, engine: Engine): (s: seq<nat>)
    requires |table| == LanguageCount
    ensures |s| == LanguageCount
  {
    var text := Normalize(code);
    WithJsonCheck(WithTypeScriptBonus(BaseScores(table, text, engine), text, engine), code, engine)
  }

  /** The largest score, or 0 for none. */
  function MaxScore(s: seq<nat>): (m: nat)
    ensures forall j :: 0 <= j < |s| ==> s[j] <= m
    ensures m > 0 ==> exists j :: 0 <= j < |s| && s[j] == m
  {
    if s == [] then 0
    else
      var m := MaxScore(s[..|s| - 1]);
      if s[|s| - 1] > m then s[|s| - 1] else m
  }

  /** One more score raises the maximum exactly when it is larger. */
  lemma MaxScoreStep(s: seq<nat>, i: nat)
    requires i < |s|
    ensures MaxScore(s[..i + 1]) == if s[i] > MaxScore(s[..i]) then s[i] else MaxScore(s[..i])
  {
    assert s[..i + 1][..i] == s[..i];
  }

  /** The first position of `v` in `s`, or `|s|` when it is absent. */
  function FirstIndex(s: seq<nat>, v: nat): (k: nat)
    ensures k <= |s|
    ensures k < |s| ==> s[k] == v
    ensures forall j :: 0 <= j < k ==> s[j] != v
    ensures v in s ==> k < |s|
  {
    if s == [] then 0
    else if s[0] == v then 0
    else 1 + FirstIndex(s[1..], v)
  }

  lemma {:induction false} FirstIndexIsLeast(s: seq<nat>, v: nat, k: nat)
    requires k < |s| && s[k] == v
    requires forall j :: 0 <= j < k ==> s[j] != v
    ensures FirstIndex(s, v) == k
  {
    if k > 0 {
      FirstIndexIsLeast(s[1..], v, k - 1);
    }
  }

  predicate HasFastPathPrefix(code: string) {
    var text := Normalize(code);
    StartsWith(text, "<?xml") || StartsWith(text, "<!doctype html") || StartsWith(text, "<?php")
  }

  /** The label for a scored table: the first language holding the highest
      score when that score exceeds 2, "Unknown" otherwise. */
  function DetectIn(table: seq<Signature>, code: string, engine: Engine): (r: string)
    requires WellFormedTable(table)
    ensures r != ""
    ensures r in FixedLabels || exists i :: 0 <= i < |table| && r == table[i].name
  {
    var text := Normalize(code);
    if StartsWith(text, "<?xml") then "XML"
    else if StartsWith(text, "<!doctype html") then "HTML"
    else if StartsWith(text, "<?php") then "PHP"
    else
      var s := FinalScores(table, code, engine);
      var m := MaxScore(s);
      if m > 2 then table[FirstIndex(s, m)].name else Unknown
  }

  /** `detectLanguage(code)` */
  function Detect(code: string, engine: Engine): (r: string)
    ensures r != ""
    ensures r in FixedLabels || exists i :: 0 <= i < |Signatures| && r == Signatures[i].name
  {
    SignaturesWellFormed();
    DetectIn(Signatures, code, engine)
  }

  /** The prefixes decide the result before any scoring: whatever the engine says. */
  lemma FastPathIgnoresScoring(code: string, e1: Engine, e2: Engine)
    requires HasFastPathPrefix(code)
    ensures Detect(code, e1) == Detect(code, e2)
    ensures Detect(code, e1) == (if StartsWith(Normalize(code), "<?xml") then "XML"
                                 else if StartsWith(Normalize(code), "<!doctype html") then "HTML"
                                 else "PHP")
  {
  }

  /** A signature's score is the number of its keywords that occur in the text
      (each once, however often it occurs) plus twice the number of its patterns
      that match. */
  lemma BaseScoreCountsSignals(sig: Signature, text: string, engine: Engine)
    ensures BaseScore(sig, text, engine) ==
      |HitPositions(sig.keywords, text)| +
      2 * |set k: nat | k < |sig.patterns| && engine.test(sig.patterns[k], text)|
  {
    KeywordHitsCountsPositions(sig.keywords, text);
    PatternHitsCountsPositions(sig.patterns, text, engine);
  }

  lemma {:induction false} PatternHitsCountsPositions(patterns: seq<Regex>, text: string, engine: Engine)
    ensures PatternHits(patterns, text, engine) ==
      |set k: nat | k < |patterns| && engine.test(patterns[k], text)|
  {
    if patterns != [] {
      var n := |patterns| - 1;
      var init := patterns[..n];
      PatternHitsCountsPositions(init, text, engine);
      var before := set k: nat | k < |init| && engine.test(init[k], text);
      var after := set k: nat | k < |patterns| && engine.test(patterns[k], text);
      if engine.test(patterns[n], text) {
        assert after == before + {n};
      } else {
        assert after == before;
      }
    }
  }

  /** "JSON" is only ever returned for text the JSON parser accepts, with a
      JSON score above the threshold. */
  lemma JsonWinsOnlyWhenValid(code: string, engine: Engine)
    requires Detect(code, engine) == "JSON"
    ensures engine.parses(code)
    ensures FinalScores(Signatures, code, engine)[JsonIndex] > 2
  {
    SignaturesWellFormed();
    JsonLabelNeedsValidJson(Signatures, code, engine);
  }

  lemma JsonLabelNeedsValidJson(table: seq<Signature>, code: string, engine: Engine)
    requires WellFormedTable(table)
    requires DetectIn(table, code, engine) == "JSON"
    ensures engine.parses(code)
    ensures FinalScores(table, code, engine)[JsonIndex] > 2
  {
    var s := FinalScores(table, code, engine);
    var k := FirstIndex(s, MaxScore(s));
    assert table[k].name == "JSON";
  }

  /** `r` is "Unknown" exactly when no score exceeds 2; otherwise it is the
      name of the first entry, in table order, whose score is the maximum. */
  ghost predicate FirstMaximumLabel(table: seq<Signature>, s: seq<nat>, r: string)
    requires |s| == |table|
  {
    && (r == Unknown <==> forall j :: 0 <= j < |s| ==> s[j] <= 2)
    && (r != Unknown ==>
          exists i :: 0 <= i < |s| && r == table[i].name
            && (forall j :: 0 <= j < |s| ==> s[j] <= s[i])
            && (forall j :: 0 <= j < i ==> s[j] < s[i]))
  }

  /** Without a fast-path prefix the result is "Unknown" exactly when no score
      exceeds 2; otherwise it is the first language in table order whose score
      is the maximum, and a later language with an equal score never replaces it. */
  lemma DetectIsFirstMaximum(code: string, engine: Engine)
    requires !HasFastPathPrefix(code)
    ensures FirstMaximumLabel(Signatures, FinalScores(Signatures, code, engine), Detect(code, engine))
  {
    SignaturesWellFormed();
    FirstMaximumIn(Signatures, code, engine);
  }

  lemma FirstMaximumIn(table: seq<Signature>, code: string, engine: Engine)
    requires WellFormedTable(table)
    requires !HasFastPathPrefix(code)
    ensures FirstMaximumLabel(table, FinalScores(table, code, engine), DetectIn(table, code, engine))
  {
    var s := FinalScores(table, code, engine);
    var m := MaxScore(s);
    if m > 2 {
      var i := FirstIndex(s, m);
      assert DetectIn(table, code, engine) == table[i].name;
    }
  }

  /** `detectLanguage`, run on the source's own table. */
  method DetectLanguage(code: string, engine: Engine) returns (language: string)
    ensures language == Detect(code, engine)
  {
    SignaturesWellFormed();
    language := DetectLanguageIn(Signatures, code, engine);
  }

  /**
   * The body of `detectLanguage`, as the source runs it: a score record
   * initialised in a loop, incremented in nested loops over keywords and
   * patterns, adjusted for TypeScript and JSON, then scanned for the highest
   * score, which decides the label only above the threshold.
   */
  method DetectLanguageIn(signatures: seq<Signature>, code: string, engine: Engine) returns (language: string)
    requires WellFormedTable(signatures)
    ensures language == DetectIn(signatures, code, engine)
  {
    var trimmedCode := Lower(Trim(code));
    if StartsWith(trimmedCode, "<?xml") { return "XML"; }
    if StartsWith(trimmedCode, "<!doctype html") { return "HTML"; }
    if StartsWith(trimmedCode, "<?php") { return "PHP"; }

    var scores := ScoreSignatures(signatures, trimmedCode, engine);

    scores := AdjustScores(scores, trimmedCode, code, engine);

    var detectedLang, highestScore := HighestScoring(signatures, scores);
    language := if highestScore > 2 then detectedLang.value else Unknown;
  }

  /** The score loops: every language starts at 0 and gains 1 per keyword the
      text contains and 2 per pattern that matches it. */
  method ScoreSignatures(signatures: seq<Signature>, trimmedCode: string, engine: Engine) returns (scores: seq<nat>)
    ensures scores == BaseScores(signatures, trimmedCode, engine)
  {
    scores := [];
    for i := 0 to |signatures|
      invariant |scores| == i
      invariant forall j :: 0 <= j < i ==> scores[j] == 0
    {
      scores := scores + [0];
    }

    for i := 0 to |signatures|
      invariant |scores| == |signatures|
      invariant forall j :: 0 <= j < i ==> scores[j] == BaseScore(signatures[j], trimmedCode, engine)
      invariant forall j :: i <= j < |signatures| ==> scores[j] == 0
    {
      var keywords, patterns := signatures[i].keywords, signatures[i].patterns;
      for k := 0 to |keywords|
        invariant |scores| == |signatures|
        invariant forall j :: 0 <= j < i ==> scores[j] == BaseScore(signatures[j], trimmedCode, engine)
        invariant forall j :: i < j < |signatures| ==> scores[j] == 0
        invariant scores[i] == KeywordHits(keywords[..k], trimmedCode)
      {
        assert keywords[..k + 1][..k] == keywords[..k];
        if Contains(trimmedCode, keywords[k]) {
          scores := scores[i := scores[i] + 1];
        }
      }
      assert keywords[..|keywords|] == keywords;
      for k := 0 to |patterns|
        invariant |scores| == |signatures|
        invariant forall j :: 0 <= j < i ==> scores[j] == BaseScore(signatures[j], trimmedCode, engine)
        invariant forall j :: i < j < |signatures| ==> scores[j] == 0
        invariant scores[i] == KeywordHits(keywords, trimmedCode) + 2 * PatternHits(patterns[..k], trimmedCode, engine)
      {
        assert patterns[..k + 1][..k] == patterns[..k];
        if engine.test(patterns[k], trimmedCode) {
          scores := scores[i := scores[i] + 2];
        }
      }
      assert patterns[..|patterns|] == patterns;
    }
  }

  /** The arg-max loop: the first language, in table order, whose score is
      strictly above every earlier one and at least every later one. */
  method HighestScoring(signatures: seq<Signature>, scores: seq<nat>) returns (detectedLang: Option<string>, highestScore: nat)
    requires |scores| == |signatures|
    ensures highestScore == MaxScore(scores)
    ensures highestScore > 0 ==> detectedLang == Some(signatures[FirstIndex(scores, highestScore)].name)
  {
    detectedLang, highestScore := None, 0;
    ghost var best: nat := 0;
    for i := 0 to |scores|
      invariant highestScore == MaxScore(scores[..i])
      invariant highestScore > 0 ==> best < i && scores[best] == highestScore
      invariant highestScore > 0 ==> forall j :: 0 <= j < best ==> scores[j] < highestScore
      invariant highestScore > 0 ==> detectedLang == Some(signatures[best].name)
    {
      MaxScoreStep(scores, i);
      if scores[i] > highestScore {
        highestScore := scores[i];
        detectedLang := Some(signatures[i].name);
        best := i;
      }
    }
    assert scores[..|scores|] == scores;
    if highestScore > 0 {
      FirstIndexIsLeast(scores, highestScore, best);
    }
  }

  /** The two adjustments after the score loops: the TypeScript bonus on the
      normalized text, then the JSON check on the raw text. */
  method AdjustScores(scores: seq<nat>, trimmedCode: string, code: string, engine: Engine) returns (adjusted: seq<nat>)
    requires |scores| == LanguageCount
    ensures adjusted == WithJsonCheck(WithTypeScriptBonus(scores, trimmedCode, engine), code, engine)
  {
    adjusted := scores;
    if adjusted[JavaScriptIndex] > 0 && adjusted[TypeScriptIndex] > 0 {
      if engine.test(TypeAnnotation, trimmedCode) {
        adjusted := adjusted[TypeScriptIndex := adjusted[TypeScriptIndex] + 2];
      }
    }

    if adjusted[JsonIndex] > 0 {
      if engine.parses(code) {
        adjusted := adjusted[JsonIndex := adjusted[JsonIndex] + 5];
      } else {
        adjusted := adjusted[JsonIndex := 0];
      }
    }
  }
}
