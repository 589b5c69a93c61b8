/** How the analysis route turns the model's free-text reply into the
    `analysis` object it returns: brace extraction, `JSON.parse`, and the two
    fixed fallbacks. */
module ReplyParsing {
  import opened JsText
  import opened Json

  const OpenBrace: CodeUnit := '{' as int
  const CloseBrace: CodeUnit := '}' as int

  /** How many code units of the reply a fallback summary keeps. */
  const SummaryLimit: nat := 300

  /** The safety level both fallbacks report: caution. */
  const Caution: JsString := Lit("주의")

  /** The advisory strings of the two fallbacks. */
  const NotAnalysedRisk: JsString := Lit("AI가 분석하지 못했습니다.")
  const ConsultExpert: JsString := Lit("전문가 자문을 구하세요.")
  const AnalysisErrorRisk: JsString := Lit("분석 중 오류가 발생했습니다.")
  const RetryOrAsk: JsString := Lit("다시 시도하거나 전문가에게 문의하세요.")

  const SummaryKey: JsString := Lit("summary")
  const SafetyLevelKey: JsString := Lit("safetyLevel")
  const RiskFactorsKey: JsString := Lit("riskFactors")
  const RecommendationsKey: JsString := Lit("recommendations")

  /** The shape of an analysis, as the prompt describes it and as the fallbacks build it. */
  datatype AnalysisResult = AnalysisResult(
    summary: JsString,
    safetyLevel: JsString,
    riskFactors: seq<JsString>,
    recommendations: seq<JsString>)

  function Strings(ss: seq<JsString>): (v: Value)
    ensures v.Array? && |v.items| == |ss|
    ensures forall i :: 0 <= i < |ss| ==> v.items[i] == String(ss[i])
  {
    if ss == [] then Array([]) else Array([String(ss[0])] + Strings(ss[1..]).items)
  }

  /** The object literal that the route builds for an analysis. */
  function ToJson(a: AnalysisResult): (v: Value)
    ensures v.Object? && |v.members| == 4
    ensures v.members[0] == (SummaryKey, String(a.summary))
    ensures v.members[1] == (SafetyLevelKey, String(a.safetyLevel))
    ensures v.members[2] == (RiskFactorsKey, Strings(a.riskFactors))
    ensures v.members[3] == (RecommendationsKey, Strings(a.recommendations))
  {
    Object([
      (SummaryKey, String(a.summary)),
      (SafetyLevelKey, String(a.safetyLevel)),
      (RiskFactorsKey, Strings(a.riskFactors)),
      (RecommendationsKey, Strings(a.recommendations))])
  }

  /** Different lists of strings give different arrays. */
  lemma StringsInjective(a: seq<JsString>, b: seq<JsString>)
    requires Strings(a) == Strings(b)
    ensures a == b
  {
  }

  /** The object literal loses nothing: the analysis can be read back from it. */
  lemma ToJsonInjective(a: AnalysisResult, b: AnalysisResult)
    requires ToJson(a) == ToJson(b)
    ensures a == b
  {
  }

  function Min(a: int, b: int): int { if a <= b then a else b }
  function Max(a: int, b: int): int { if a <= b then b else a }

  /** `String.prototype.substring(start, end)`: both bounds clamped to the
      string, and swapped when the first exceeds the second. */
  function Substring(t: JsString, start: int, end: int): (r: JsString)
    ensures var lo := Min(Max(Min(start, end), 0), |t|);
            var hi := Min(Max(Max(start, end), 0), |t|);
            0 <= lo <= hi <= |t| && r == t[lo..hi]
  {
    var a := Min(Max(start, 0), |t|);
    var b := Min(Max(end, 0), |t|);
    if a <= b then t[a..b] else t[b..a]
  }

  /** `text.substring(0, 300)`, the summary both fallbacks carry. */
  function Summary(t: JsString): (s: JsString)
    ensures |s| == Min(SummaryLimit, |t|) && s <= t
  {
    Substring(t, 0, SummaryLimit)
  }

  /** The result when the reply holds no brace-delimited text. */
  function NoMatchFallback(t: JsString): (a: AnalysisResult)
    ensures a.summary <= t && |a.summary| == Min(SummaryLimit, |t|)
    ensures a.safetyLevel == Caution
    ensures a.riskFactors == [NotAnalysedRisk] && a.recommendations == [ConsultExpert]
  {
    AnalysisResult(Summary(t), Caution, [NotAnalysedRisk], [ConsultExpert])
  }

  /** The result when the extracted text is not valid JSON. */
  function ParseErrorFallback(t: JsString): (a: AnalysisResult)
    ensures a.summary <= t && |a.summary| == Min(SummaryLimit, |t|)
    ensures a.safetyLevel == Caution
    ensures a.riskFactors == [AnalysisErrorRisk] && a.recommendations == [RetryOrAsk]
  {
    AnalysisResult(Summary(t), Caution, [AnalysisErrorRisk], [RetryOrAsk])
  }

  /** The index of the first occurrence of `u` in `t`. */
  function IndexOf(t: JsString, u: CodeUnit): (r: Option<nat>)
    ensures r.Some? ==> r.value < |t| && t[r.value] == u && forall k :: 0 <= k < r.value ==> t[k] != u
    ensures r.None? ==> forall k :: 0 <= k < |t| ==> t[k] != u
  {
    if t == [] then None
    else if t[0] == u then Some(0)
    else match IndexOf(t[1..], u)
      case None => None
      case Some(i) => Some(i + 1)
  }

  /** The index of the last occurrence of `u` in `t`. */
  function LastIndexOf(t: JsString, u: CodeUnit): (r: Option<nat>)
    ensures r.Some? ==> r.value < |t| && t[r.value] == u && forall k :: r.value < k < |t| ==> t[k] != u
    ensures r.None? ==> forall k :: 0 <= k < |t| ==> t[k] != u
  {
    if t == [] then None
    else if t[|t| - 1] == u then Some(|t| - 1)
    else LastIndexOf(t[..|t| - 1], u)
  }

  /** `text.match(/\{[\s\S]*\}/)?.[0]`: from the first `{` to the last `}`,
      provided that `}` comes after that `{`. */
  function ExtractBraces(t: JsString): (r: Option<JsString>)
    ensures r.Some? <==> exists i, j :: 0 <= i < j < |t| && t[i] == OpenBrace && t[j] == CloseBrace
    ensures r.Some? ==> 2 <= |r.value| && r.value[0] == OpenBrace && r.value[|r.value| - 1] == CloseBrace
  {
    match IndexOf(t, OpenBrace)
    case None => None
    case Some(i) =>
      match LastIndexOf(t, CloseBrace)
      case None => None
      case Some(j) => if i < j then Some(t[i..j + 1]) else None
  }

  /** `t[i..j]` is a match of the pattern `\{[\s\S]*\}`: a `{`, any code units,
      then a `}`. */
  ghost predicate IsMatch(t: JsString, i: int, j: int)
  {
    0 <= i && i + 2 <= j <= |t| && t[i] == OpenBrace && t[j - 1] == CloseBrace
  }

  /** The match a JavaScript regular expression reports: the leftmost start,
      and for the greedy `*` the longest match from there. */
  ghost predicate IsReportedMatch(t: JsString, i: int, j: int)
  {
    && IsMatch(t, i, j)
    && (forall i', j' :: IsMatch(t, i', j') ==> i <= i')
    && (forall j' :: IsMatch(t, i, j') ==> j' <= j)
  }

  /** Brace extraction agrees with the regular expression's semantics: it finds
      nothing exactly when the pattern has no match, and otherwise returns the
      reported match. */
  lemma ExtractBracesIsRegexMatch(t: JsString)
    ensures ExtractBraces(t).None? <==> forall i, j :: !IsMatch(t, i, j)
    ensures forall i, j :: IsReportedMatch(t, i, j) ==> ExtractBraces(t) == Some(t[i..j])
  {
    match IndexOf(t, OpenBrace)
    case None =>
    case Some(i) =>
      match LastIndexOf(t, CloseBrace)
      case None =>
      case Some(j) =>
        if i < j {
          assert IsMatch(t, i, j + 1);
          assert IsReportedMatch(t, i, j + 1);
          forall i', j' | IsReportedMatch(t, i', j') ensures i' == i && j' == j + 1 {
            assert IsMatch(t, i, j + 1);
          }
        }
  }

  /** What the route assigns to `analysisResult`. It never throws: a reply
      without a match and a reply whose match does not parse each get their
      own fallback. */
  function Interpret(t: JsString, parse: Parser): (v: Value)
    ensures || v == ToJson(NoMatchFallback(t))
            || v == ToJson(ParseErrorFallback(t))
            || exists s :: ExtractBraces(t) == Some(s) && parse(s) == Some(v)
  {
    match ExtractBraces(t)
    case None => ToJson(NoMatchFallback(t))
    case Some(s) =>
      match parse(s)
      case Some(v) => v
      case None => ToJson(ParseErrorFallback(t))
  }

  /** The interpretation follows the regular expression's semantics: with no
      match the first fallback; with a match, the parsed value of exactly the
      reported match, unchanged and unvalidated, or the second fallback when
      that text does not parse. */
  lemma InterpretFollowsRegex(t: JsString, parse: Parser)
    ensures (forall i, j :: !IsMatch(t, i, j)) ==> Interpret(t, parse) == ToJson(NoMatchFallback(t))
    ensures forall i, j :: IsReportedMatch(t, i, j) ==>
              Interpret(t, parse) == match parse(t[i..j])
                                     case Some(v) => v
                                     case None => ToJson(ParseErrorFallback(t))
  {
    ExtractBracesIsRegexMatch(t);
  }

  /** A reply that is itself a brace-delimited text is handed to the parser whole. */
  lemma WholeReplyExtracted(t: JsString)
    requires 2 <= |t| && t[0] == OpenBrace && t[|t| - 1] == CloseBrace
    ensures ExtractBraces(t) == Some(t)
  {
    assert IsReportedMatch(t, 0, |t|);
    ExtractBracesIsRegexMatch(t);
    assert t[0..|t|] == t;
  }

  /** An object wrapped in prose (or a code fence) that has no `{` before it and
      no `}` after it is extracted exactly, whatever braces the object itself
      holds; so two objects with text between them are extracted together. */
  lemma EmbeddedObjectExtracted(before: JsString, o: JsString, after: JsString)
    requires OpenBrace !in before && CloseBrace !in after
    requires 2 <= |o| && o[0] == OpenBrace && o[|o| - 1] == CloseBrace
    ensures ExtractBraces(before + o + after) == Some(o)
  {
    var t := before + o + after;
    assert t[|before|..|before| + |o|] == o;
    assert IsMatch(t, |before|, |before| + |o|);
    forall i', j' | IsMatch(t, i', j') ensures |before| <= i' && j' <= |before| + |o| {
      assert t[i'] == OpenBrace;
    }
    assert IsReportedMatch(t, |before|, |before| + |o|);
    ExtractBracesIsRegexMatch(t);
  }

  /** A reply without any `{` always gets the first fallback: a summary that is
      the reply's first 300 code units and the fixed caution advice. */
  lemma BracelessReplyFallsBack(t: JsString, parse: Parser)
    requires OpenBrace !in t
    ensures Interpret(t, parse) == ToJson(NoMatchFallback(t))
    ensures NoMatchFallback(t).summary == t[..Min(SummaryLimit, |t|)]
  {
  }

  /** Both fallbacks carry the caution level and the same truncated summary. */
  lemma FallbacksAreCautious(t: JsString)
    ensures NoMatchFallback(t).safetyLevel == ParseErrorFallback(t).safetyLevel == Caution
    ensures NoMatchFallback(t).summary == ParseErrorFallback(t).summary == Summary(t)
  {
  }

  /** The two fallbacks can be told apart by their advice. */
  lemma FallbacksDiffer(t: JsString)
    ensures NoMatchFallback(t) != ParseErrorFallback(t)
  {
  }

  /** The two fallback objects a client can receive are different. */
  lemma FallbackRepliesDiffer(t: JsString)
    ensures ToJson(NoMatchFallback(t)) != ToJson(ParseErrorFallback(t))
  {
  }
}
