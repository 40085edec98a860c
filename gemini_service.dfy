/** The post-processing of services/geminiService.ts. The model client is
    foreign: what a call produced is a `ModelReply` (the response text, or
    the call threw), and `JSON.parse` of an extracted substring is the
    `parse` oracle (None when it throws). */
module GeminiService {
  import opened Wrappers
  import opened Types
  import JsText

  /** The outcome of `generateContent(...)` followed by `response.text()`. */
  datatype ModelReply = Replied(text: string) | Threw

  /** The role of one turn of the request contents. */
  datatype Role = UserRole | ModelRole

  /** The role string of a turn: the two roles have distinct names. */
  function RoleName(r: Role): (name: string)
    ensures name == "user" <==> r == UserRole
    ensures name == "model" <==> r == ModelRole
  {
    match r
    case UserRole => "user"
    case ModelRole => "model"
  }

  /** One entry `{role, parts: [{text}]}` of the request contents. */
  datatype Content = Content(role: Role, text: string)

  // --------------------------------------------------------------- chat

  const DidNotCatch: string := "I'm sorry, I didn't catch that. Could you say it again?"
  const ConnectionTrouble: string := "I'm having trouble connecting to the server. Please try again."

  /** The request contents: the history in order, then the new message as a user turn. */
  function ChatContents(history: seq<Content>, message: string): (contents: seq<Content>)
    ensures |contents| == |history| + 1
    ensures contents[..|history|] == history
    ensures contents[|history|] == Content(UserRole, message)
  {
    history + [Content(UserRole, message)]
  }

  /** What `getChatResponse` returns for a reply: the text when it is
      non-empty, a fixed apology when it is empty, a fixed connection
      message when the call threw. The conversation never gets an empty turn. */
  function ChatReply(reply: ModelReply): (r: string)
    ensures r != ""
    ensures reply.Threw? ==> r == ConnectionTrouble
    ensures reply.Replied? && reply.text == "" ==> r == DidNotCatch
    ensures reply.Replied? && reply.text != "" ==> r == reply.text
  {
    match reply
    case Threw => ConnectionTrouble
    case Replied(t) => if t == "" then DidNotCatch else t
  }

  // ------------------------------------------------- regular-expression match

  /** The pattern `open[\s\S]*close` matches `text[i..j+1]`: `[\s\S]*`
      matches any characters at all. */
  ghost predicate SpanMatches(text: string, open: char, close: char, i: int, j: int) {
    0 <= i < j < |text| && text[i] == open && text[j] == close
  }

  /** The match `String.prototype.match` returns for that pattern: the
      leftmost start, and at that start the longest (greedy) match. */
  ghost predicate LeftmostLongest(text: string, open: char, close: char, i: int, j: int) {
    && SpanMatches(text, open, close, i, j)
    && forall i', j' :: SpanMatches(text, open, close, i', j') ==> i <= i' && (i' == i ==> j' <= j)
  }

  /** `text.match(/open[\s\S]*close/)`, giving the matched substring:
      from the first `open` to the last `close`, when the first comes
      before the last. */
  function ExtractSpan(text: string, open: char, close: char): (r: Option<string>)
    ensures r.Some? ==> |r.value| >= 2 && r.value[0] == open && r.value[|r.value| - 1] == close
  {
    SpanBetween(text, JsText.IndexOf(text, open), JsText.LastIndexOf(text, close))
  }

  /** The slice from the `first` position through the `last`, when both
      were found and the first comes before the last. */
  function SpanBetween(text: string, first: Option<nat>, last: Option<nat>): Option<string>
    requires first.Some? ==> first.value < |text|
    requires last.Some? ==> last.value < |text|
  {
    if first.Some? && last.Some? && first.value < last.value then
      Some(text[first.value..last.value + 1])
    else
      None
  }

  /** A search result moved `d` positions to the right. */
  function Shift(position: Option<nat>, d: nat): Option<nat> {
    match position
    case Some(i) => Some(d + i)
    case None => None
  }

  /** The extraction agrees with the regular expression's semantics: it
      succeeds iff the pattern matches somewhere, and then yields exactly the
      leftmost-longest match. */
  lemma ExtractSpanIsMatch(text: string, open: char, close: char)
    ensures ExtractSpan(text, open, close).Some? <==> exists i, j :: SpanMatches(text, open, close, i, j)
    ensures ExtractSpan(text, open, close).Some? ==>
              exists i, j :: LeftmostLongest(text, open, close, i, j)
                             && ExtractSpan(text, open, close).value == text[i..j + 1]
  {
    var first, last := JsText.IndexOf(text, open), JsText.LastIndexOf(text, close);
    if first.Some? && last.Some? && first.value < last.value {
      assert LeftmostLongest(text, open, close, first.value, last.value);
    }
  }

  /** The object extraction `/\{[\s\S]*\}/`. */
  function ExtractObject(text: string): (r: Option<string>)
    ensures r.Some? <==> exists i, j :: SpanMatches(text, '{', '}', i, j)
    ensures r.Some? ==> exists i, j :: LeftmostLongest(text, '{', '}', i, j) && r.value == text[i..j + 1]
  {
    ExtractSpanIsMatch(text, '{', '}');
    ExtractSpan(text, '{', '}')
  }

  /** The array extraction `/\[[\s\S]*\]/`. */
  function ExtractArray(text: string): (r: Option<string>)
    ensures r.Some? <==> exists i, j :: SpanMatches(text, '[', ']', i, j)
    ensures r.Some? ==> exists i, j :: LeftmostLongest(text, '[', ']', i, j) && r.value == text[i..j + 1]
  {
    ExtractSpanIsMatch(text, '[', ']');
    ExtractSpan(text, '[', ']')
  }

  /** Prose around the JSON does not matter: wrapping a text in characters
      that are neither brace leaves the extracted object as it was. */
  lemma ExtractIgnoresProse(before: string, body: string, after: string)
    requires forall k :: 0 <= k < |before| ==> before[k] != '{' && before[k] != '}'
    requires forall k :: 0 <= k < |after| ==> after[k] != '{' && after[k] != '}'
    ensures ExtractSpan(before + body + after, '{', '}') == ExtractSpan(body, '{', '}')
  {
    var first, last := JsText.IndexOf(body, '{'), JsText.LastIndexOf(body, '}');
    IndexOfInContext(before, body, after, '{');
    LastIndexOfInContext(before, body, after, '}');
    SpanShifted(before, body, after, first, last);
  }

  /** Spans found in the middle part are the same spans of the whole text,
      shifted by the length of what precedes the middle. */
  lemma SpanShifted(before: string, body: string, after: string, first: Option<nat>, last: Option<nat>)
    requires first.Some? ==> first.value < |body|
    requires last.Some? ==> last.value < |body|
    ensures SpanBetween(before + body + after, Shift(first, |before|), Shift(last, |before|))
            == SpanBetween(body, first, last)
  {
    if first.Some? && last.Some? && first.value < last.value {
      SliceOfMiddle(before, body, after, first.value, last.value + 1);
    }
  }

  /** A slice of the middle part, read off the concatenation. */
  lemma SliceOfMiddle(before: string, body: string, after: string, i: nat, j: nat)
    requires i <= j <= |body|
    ensures (before + body + after)[|before| + i..|before| + j] == body[i..j]
  {
    var text := before + body + after;
    assert text[|before|..|before| + |body|] == body;
    assert text[|before| + i..|before| + j] == text[|before|..|before| + |body|][i..j];
  }

  /** A character absent from the surrounding text is first found where it
      is first found in the middle part. */
  lemma IndexOfInContext(before: string, body: string, after: string, c: char)
    requires forall k :: 0 <= k < |before| ==> before[k] != c
    requires forall k :: 0 <= k < |after| ==> after[k] != c
    ensures JsText.IndexOf(before + body + after, c) == Shift(JsText.IndexOf(body, c), |before|)
  {
    var r := JsText.IndexOf(body, c);
    if r.Some? {
      FirstFoundInContext(before, body, after, c, r.value);
    } else {
      AbsentInContext(before, body, after, c);
    }
  }

  /** The first occurrence in the middle part, shifted, is the first of the whole. */
  lemma FirstFoundInContext(before: string, body: string, after: string, c: char, i: nat)
    requires forall k :: 0 <= k < |before| ==> before[k] != c
    requires i < |body| && body[i] == c && forall k :: 0 <= k < i ==> body[k] != c
    ensures JsText.IndexOf(before + body + after, c) == Some(|before| + i)
  {
    var text := before + body + after;
    forall k | 0 <= k < |before| + i ensures text[k] != c {
      Locate(before, body, after, k);
    }
    Locate(before, body, after, |before| + i);
    FirstIsUnique(text, c, |before| + i);
  }

  /** A character absent from the surrounding text is last found where it
      is last found in the middle part. */
  lemma LastIndexOfInContext(before: string, body: string, after: string, c: char)
    requires forall k :: 0 <= k < |before| ==> before[k] != c
    requires forall k :: 0 <= k < |after| ==> after[k] != c
    ensures JsText.LastIndexOf(before + body + after, c) == Shift(JsText.LastIndexOf(body, c), |before|)
  {
    var r := JsText.LastIndexOf(body, c);
    if r.Some? {
      LastFoundInContext(before, body, after, c, r.value);
    } else {
      AbsentInContext(before, body, after, c);
    }
  }

  /** The last occurrence in the middle part, shifted, is the last of the whole. */
  lemma LastFoundInContext(before: string, body: string, after: string, c: char, j: nat)
    requires forall k :: 0 <= k < |after| ==> after[k] != c
    requires j < |body| && body[j] == c && forall k :: j < k < |body| ==> body[k] != c
    ensures JsText.LastIndexOf(before + body + after, c) == Some(|before| + j)
  {
    var text := before + body + after;
    forall k | |before| + j < k < |text| ensures text[k] != c {
      Locate(before, body, after, k);
    }
    Locate(before, body, after, |before| + j);
    LastIsUnique(text, c, |before| + j);
  }

  /** A character found in none of the three parts is not found in the whole. */
  lemma AbsentInContext(before: string, body: string, after: string, c: char)
    requires forall k :: 0 <= k < |before| ==> before[k] != c
    requires forall k :: 0 <= k < |body| ==> body[k] != c
    requires forall k :: 0 <= k < |after| ==> after[k] != c
    ensures JsText.IndexOf(before + body + after, c) == None
    ensures JsText.LastIndexOf(before + body + after, c) == None
  {
    var text := before + body + after;
    forall k | 0 <= k < |text| ensures text[k] != c {
      Locate(before, body, after, k);
    }
    AbsentIsNone(text, c);
  }

  /** Neither search finds a character that does not occur. */
  lemma AbsentIsNone(s: string, c: char)
    requires forall k :: 0 <= k < |s| ==> s[k] != c
    ensures JsText.IndexOf(s, c) == None && JsText.LastIndexOf(s, c) == None
  {
  }

  /** Each position of a concatenation lies in one of its three parts. */
  lemma Locate(before: string, body: string, after: string, k: nat)
    requires k < |before + body + after|
    ensures var text := before + body + after;
            if k < |before| then text[k] == before[k]
            else if k < |before| + |body| then text[k] == body[k - |before|]
            else text[k] == after[k - |before| - |body|]
  {
  }

  /** The first occurrence is determined by its two defining facts. */
  lemma FirstIsUnique(s: string, c: char, k: nat)
    requires k < |s| && s[k] == c && forall j :: 0 <= j < k ==> s[j] != c
    ensures JsText.IndexOf(s, c) == Some(k)
  {
    var r := JsText.IndexOf(s, c);
    assert r.Some?;
  }

  /** The last occurrence is determined by its two defining facts. */
  lemma LastIsUnique(s: string, c: char, k: nat)
    requires k < |s| && s[k] == c && forall j :: k < j < |s| ==> s[j] != c
    ensures JsText.LastIndexOf(s, c) == Some(k)
  {
    var r := JsText.LastIndexOf(s, c);
    assert r.Some?;
  }

  // ---------------------------------------------------------- analysis

  /** The zero-score result shown when an analysis fails. */
  function AnalysisFallback(): (r: PronunciationResult)
    ensures r.score == 0 && r.fluencyScore == 0 && r.pronunciationScore == 0
    ensures r.mistakes == ["Error analyzing audio"] && r.correctedVersion == ""
    ensures r.feedback == "Could not analyze at this time."
  {
    PronunciationResult(0, 0, 0, ["Error analyzing audio"], "", "Could not analyze at this time.")
  }

  const TargetPromptHead: string := "User tried to say: \""
  const TargetPromptMiddle: string := "\". They actually said: \""
  const TargetPromptTail: string := "\". Analyze this in JSON format: {score, fluencyScore, pronunciationScore, mistakes: [], correctedVersion, feedback}"
  const FreePromptHead: string := "User said: \""
  const FreePromptTail: string := "\". Analyze the grammar and naturalness in JSON format: {score, fluencyScore, pronunciationScore, mistakes: [], correctedVersion, feedback}"

  /** The prompt `analyzePronunciation` sends: the target-sentence prompt
      iff a non-empty target was given, otherwise the free-analysis prompt;
      both quote the spoken text. */
  function AnalysisPrompt(spokenText: string, targetText: Option<string>): (prompt: string)
    ensures (targetText.Some? && targetText.value != "") ==> TargetPromptHead + targetText.value <= prompt
    ensures !(targetText.Some? && targetText.value != "") ==> FreePromptHead + spokenText <= prompt
    ensures JsText.Includes(prompt, spokenText)
  {
    if targetText.Some? && targetText.value != "" then
      var head := TargetPromptHead + targetText.value + TargetPromptMiddle;
      IncludesMiddle(head, spokenText, TargetPromptTail);
      head + spokenText + TargetPromptTail
    else
      IncludesMiddle(FreePromptHead, spokenText, FreePromptTail);
      FreePromptHead + spokenText + FreePromptTail
  }

  /** The middle of a concatenation occurs in it. */
  lemma IncludesMiddle(a: string, b: string, c: string)
    ensures JsText.Includes(a + b + c, b)
  {
    assert b <= (a + b + c)[|a|..];
  }

  /** What `analyzePronunciation` returns: the parsed object span of the
      reply when there is one and it parses, the fixed fallback otherwise
      (the call threw, the text was empty, it held no object, or parsing it threw). */
  function AnalysisResult(reply: ModelReply, parse: string -> Option<PronunciationResult>): (r: PronunciationResult)
    ensures reply.Threw? ==> r == AnalysisFallback()
    ensures reply.Replied? && ExtractObject(reply.text).None? ==> r == AnalysisFallback()
    ensures reply.Replied? && ExtractObject(reply.text).Some? ==>
              r == parse(ExtractObject(reply.text).value).GetOr(AnalysisFallback())
  {
    match reply
    case Threw => AnalysisFallback()
    case Replied(text) =>
      if text == "" then AnalysisFallback()
      else match ExtractObject(text)
        case None => AnalysisFallback()
        case Some(json) => parse(json).GetOr(AnalysisFallback())
  }

  /** An empty reply text is the fallback whatever the parser would say. */
  lemma EmptyReplyFallsBack(parse: string -> Option<PronunciationResult>)
    ensures AnalysisResult(Replied(""), parse) == AnalysisFallback()
  {
  }

  // -------------------------------------------------------- challenges

  /** What `generateDailyChallenges` returns: the parsed array span of the
      reply, or the empty list on any failure. */
  function ChallengeList(reply: ModelReply, parse: string -> Option<seq<DailyChallenge>>): (r: seq<DailyChallenge>)
    ensures reply.Threw? ==> r == []
    ensures reply.Replied? && ExtractArray(reply.text).None? ==> r == []
    ensures reply.Replied? && ExtractArray(reply.text).Some? ==>
              r == parse(ExtractArray(reply.text).value).GetOr([])
  {
    match reply
    case Threw => []
    case Replied(text) =>
      if text == "" then []
      else match ExtractArray(text)
        case None => []
        case Some(json) => parse(json).GetOr([])
  }
}
