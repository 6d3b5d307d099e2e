/**
 * The `analyze-mood` edge function: it validates the request, asks the
 * model gateway for an assessment, classifies the gateway's outcome,
 * extracts and parses a JSON object from the reply text, fills in every
 * missing field with a default and guards the final `insight`.
 *
 * The gateway call and `JSON.parse` are not modelled: the gateway's
 * outcome is an input (`Upstream`) and the parser is the parameter
 * `parse`.  The text handed to `parse` always begins with `{` and ends
 * with `}`, so a successful parse yields an object (`JsObject`).
 * The reply's `content` is any JSON value: `content.match` throws for a
 * value that is not a string, and that error takes the same fallback
 * path as a reply without a parsable span.
 */
module AnalyzeMood {
  import opened Wrappers
  import opened JsValues

  // ---------------------------------------------------------------------
  // Constants

  const UserMessagePrefix := "Here's how I'm feeling: "

  const DefaultMoodScore := 5
  const DefaultEmotions: seq<JsValue> := [Str("thoughtful")]
  const DefaultTips: seq<JsValue> :=
    [Str("Take a deep breath"), Str("Practice mindfulness"), Str("Reach out to a friend")]
  const DefaultClosing := "We're here for you."

  const MoodTextRequired := "Mood text is required"
  const ConfigurationError := "Service configuration error. Please try again later."
  const TimedOut := "Request timed out. Please try again."
  const RateLimited := "Rate limit exceeded. Please try again in a moment."
  const PaymentRequired := "Service temporarily unavailable. Please try again later."
  const AnalysisFailed := "Failed to analyze mood. Please try again."
  const NoResponse := "No response from AI. Please try again."
  const IncompleteResponse := "AI returned incomplete response. Please try again."

  // ---------------------------------------------------------------------
  // Data

  /**
   * What the gateway call produced: the request was aborted by the
   * 30-second timeout, or a response arrived with an HTTP status and the value at
   * `choices[0].message.content` of its JSON body (`Undefined` when any
   * step of that path is missing).
   */
  datatype Upstream =
    | Aborted
    | Responded(status: int, content: JsValue)

  /** The object the function returns with status 200. */
  datatype Assessment = Assessment(
    insight: JsValue,
    moodScore: int,
    emotions: seq<JsValue>,
    tips: seq<JsValue>,
    closing: JsValue)

  datatype Body = ErrorBody(error: string) | AssessmentBody(assessment: Assessment)

  datatype Reply = Reply(status: int, body: Body)

  /** One invocation: the user message sent to the gateway, if any, and the reply. */
  datatype Exchange = Exchange(request: Option<string>, reply: Reply)

  /** Either the reply content to work on, or the error reply the gateway outcome maps to. */
  datatype Classified = Content(content: JsValue) | Failed(reply: Reply)

  // ---------------------------------------------------------------------
  // Request check and outcome classification

  /** `moodText && typeof moodText === "string"`: exactly the non-empty strings pass. */
  predicate AcceptedMoodText(moodText: JsValue)
    ensures AcceptedMoodText(moodText) <==> moodText.Str? && moodText.s != ""
  {
    Truthy(moodText) && moodText.Str?
  }

  function UserMessage(moodText: string): (m: string)
    ensures |m| == |UserMessagePrefix| + |moodText|
    ensures m[..|UserMessagePrefix|] == UserMessagePrefix
    ensures m[|UserMessagePrefix|..] == moodText
  {
    UserMessagePrefix + moodText
  }

  /** `response.ok`: a 2xx status, which is never one of the statuses mapped to their own errors. */
  predicate IsOk(status: int)
    ensures IsOk(status) ==> status != 429 && status != 402 && status != 500 && status != 504
  {
    200 <= status <= 299
  }

  /** Maps the gateway outcome to an error reply, or passes on truthy reply content. */
  function Classify(u: Upstream): (c: Classified)
    ensures c.Content? <==> u.Responded? && IsOk(u.status) && Truthy(u.content)
    ensures c.Content? ==> c.content == u.content
    ensures c.Failed? ==> c.reply.status in {402, 429, 500, 504} && c.reply.body.ErrorBody?
  {
    match u
    case Aborted => Failed(Reply(504, ErrorBody(TimedOut)))
    case Responded(status, content) =>
      if !IsOk(status) then
        if status == 429 then Failed(Reply(429, ErrorBody(RateLimited)))
        else if status == 402 then Failed(Reply(402, ErrorBody(PaymentRequired)))
        else Failed(Reply(500, ErrorBody(AnalysisFailed)))
      else if !Truthy(content) then Failed(Reply(500, ErrorBody(NoResponse)))
      else Content(content)
  }

  // ---------------------------------------------------------------------
  // JSON span extraction: `content.match(/\{[\s\S]*\}/)`

  function FirstIndexOf(s: string, c: char): (r: Option<nat>)
    ensures r.Some? ==> r.value < |s| && s[r.value] == c
    ensures r.Some? ==> forall k :: 0 <= k < r.value ==> s[k] != c
    ensures r.None? ==> c !in s
  {
    if s == [] then None
    else if s[0] == c then Some(0)
    else match FirstIndexOf(s[1..], c)
      case None => None
      case Some(i) => Some(i + 1)
  }

  function LastIndexOf(s: string, c: char): (r: Option<nat>)
    ensures r.Some? ==> r.value < |s| && s[r.value] == c
    ensures r.Some? ==> forall k :: r.value < k < |s| ==> s[k] != c
    ensures r.None? ==> c !in s
  {
    if s == [] then None
    else if s[|s| - 1] == c then Some(|s| - 1)
    else LastIndexOf(s[..|s| - 1], c)
  }

  /** `s[i..j+1]` is a text the pattern `\{[\s\S]*\}` matches as a whole. */
  predicate MatchesAt(s: string, i: int, j: int) {
    0 <= i < j < |s| && s[i] == '{' && s[j] == '}'
  }

  /**
   * The matched span: from the first `{` to the last `}`, present exactly
   * when the first `{` comes before the last `}`.
   */
  function ExtractSpan(s: string): (r: Option<string>)
    ensures r.Some? <==> exists i, j :: MatchesAt(s, i, j)
  {
    match (FirstIndexOf(s, '{'), LastIndexOf(s, '}'))
    case (Some(i), Some(j)) =>
      if i < j then
        assert MatchesAt(s, i, j);
        Some(s[i..j + 1])
      else
        assert forall i', j' :: MatchesAt(s, i', j') ==> i <= i' && j' <= j;
        None
    case _ => None
  }

  /**
   * The span is the one a backtracking regular-expression engine picks:
   * the leftmost start that can match, then the longest match from it.
   */
  lemma ExtractSpanIsLeftmostLongest(s: string, i: int, j: int)
    requires MatchesAt(s, i, j)
    requires forall i', j' :: MatchesAt(s, i', j') ==> i <= i'
    requires forall j' :: MatchesAt(s, i, j') ==> j' <= j
    ensures ExtractSpan(s) == Some(s[i..j + 1])
  {
    var first := FirstIndexOf(s, '{');
    var last := LastIndexOf(s, '}');
    assert first.Some? && first.value <= i;
    assert MatchesAt(s, first.value, j);
    assert first.value == i;
    assert last.Some? && j <= last.value;
    assert MatchesAt(s, i, last.value);
  }

  // ---------------------------------------------------------------------
  // Parsing, fallback and per-field defaulting

  /** The object used when no span was found, it failed to parse, or `content` is not a string. */
  function Fallback(content: JsValue): (o: JsObject)
    ensures Get(o, "insight") == content
    ensures Get(o, "moodScore") == Number(DefaultMoodScore)
    ensures Get(o, "emotions") == Array(DefaultEmotions)
    ensures Get(o, "tips") == Array(DefaultTips)
    ensures Get(o, "closing") == Str(DefaultClosing)
  {
    map["insight" := content, "moodScore" := Number(DefaultMoodScore),
        "emotions" := Array(DefaultEmotions), "tips" := Array(DefaultTips),
        "closing" := Str(DefaultClosing)]
  }

  /**
   * `parsedResponse`: the parsed span, or the fallback object on any
   * failure, a non-string `content` included.
   */
  function ParseOrFallback(content: JsValue, parse: string -> Option<JsObject>): (o: JsObject)
    ensures !content.Str? ==> o == Fallback(content)
    ensures content.Str? && ExtractSpan(content.s).None? ==> o == Fallback(content)
    ensures content.Str? && ExtractSpan(content.s).Some? && parse(ExtractSpan(content.s).value).None? ==>
              o == Fallback(content)
    ensures content.Str? && ExtractSpan(content.s).Some? && parse(ExtractSpan(content.s).value).Some? ==>
              o == parse(ExtractSpan(content.s).value).value
  {
    if !content.Str? then Fallback(content)
    else match ExtractSpan(content.s)
      case None => Fallback(content)
      case Some(span) =>
        match parse(span)
        case None => Fallback(content)
        case Some(parsed) => parsed
  }

  predicate IsNonEmptyArray(v: JsValue) {
    v.Array? && |v.items| > 0
  }

  /** `finalResponse`: each field taken from `parsed` when usable, else defaulted. */
  function Normalise(parsed: JsObject, content: JsValue): (a: Assessment)
    ensures Truthy(a.insight) <==> Truthy(Get(parsed, "insight")) || Truthy(Get(parsed, "response")) || Truthy(content)
    ensures Truthy(Get(parsed, "insight")) ==> a.insight == Get(parsed, "insight")
    ensures !Truthy(Get(parsed, "insight")) && Truthy(Get(parsed, "response")) ==> a.insight == Get(parsed, "response")
    ensures !Truthy(Get(parsed, "insight")) && !Truthy(Get(parsed, "response")) ==> a.insight == content
    ensures |a.tips| > 0 && Truthy(a.closing)
    ensures Truthy(Get(parsed, "closing")) ==> a.closing == Get(parsed, "closing")
    ensures !Truthy(Get(parsed, "closing")) ==> a.closing == Str(DefaultClosing)
    ensures Get(parsed, "moodScore").Number? ==> a.moodScore == Get(parsed, "moodScore").n
    ensures !Get(parsed, "moodScore").Number? ==> a.moodScore == DefaultMoodScore
    ensures Get(parsed, "emotions").Array? ==> a.emotions == Get(parsed, "emotions").items
    ensures !Get(parsed, "emotions").Array? ==> a.emotions == DefaultEmotions
    ensures IsNonEmptyArray(Get(parsed, "tips")) ==> a.tips == Get(parsed, "tips").items
    ensures !IsNonEmptyArray(Get(parsed, "tips")) ==> a.tips == DefaultTips
  {
    var score := Get(parsed, "moodScore");
    var emotions := Get(parsed, "emotions");
    var tips := Get(parsed, "tips");
    Assessment(
      insight := Or(Or(Get(parsed, "insight"), Get(parsed, "response")), content),
      moodScore := if score.Number? then score.n else DefaultMoodScore,
      emotions := if emotions.Array? then emotions.items else DefaultEmotions,
      tips := if IsNonEmptyArray(tips) then tips.items else DefaultTips,
      closing := Or(Get(parsed, "closing"), Str(DefaultClosing)))
  }

  /** The JSON object a client receives for an assessment. */
  function ToObject(a: Assessment): (o: JsObject)
    ensures Get(o, "insight") == a.insight && Get(o, "moodScore") == Number(a.moodScore)
    ensures Get(o, "emotions") == Array(a.emotions) && Get(o, "tips") == Array(a.tips)
    ensures Get(o, "closing") == a.closing && Get(o, "response") == Undefined
    ensures o.Keys == {"insight", "moodScore", "emotions", "tips", "closing"}
  {
    map["insight" := a.insight, "moodScore" := Number(a.moodScore),
        "emotions" := Array(a.emotions), "tips" := Array(a.tips), "closing" := a.closing]
  }

  /** The final guard: only an assessment whose insight is a non-empty string is sent with 200. */
  function Respond(a: Assessment): (r: Reply)
    ensures r.status == 200 <==> a.insight.Str? && a.insight.s != ""
    ensures r.status == 200 ==> r.body == AssessmentBody(a)
    ensures r.status != 200 ==> r == Reply(500, ErrorBody(IncompleteResponse))
  {
    if !Truthy(a.insight) || !a.insight.Str? then Reply(500, ErrorBody(IncompleteResponse))
    else Reply(200, AssessmentBody(a))
  }

  // ---------------------------------------------------------------------
  // The handler

  /**
   * One POST with body `{ moodText }` (its `moodText` property given),
   * whether the gateway key is configured, the gateway outcome and the
   * JSON parser.
   */
  function Handle(moodText: JsValue, keyConfigured: bool, upstream: Upstream,
                  parse: string -> Option<JsObject>): (x: Exchange)
    ensures x.request.Some? <==> AcceptedMoodText(moodText) && keyConfigured
    ensures x.request.Some? ==> x.request.value == UserMessage(moodText.s)
  {
    if !Truthy(moodText) || !moodText.Str? then
      Exchange(None, Reply(400, ErrorBody(MoodTextRequired)))
    else if !keyConfigured then
      Exchange(None, Reply(500, ErrorBody(ConfigurationError)))
    else
      var request := Some(UserMessage(moodText.s));
      match Classify(upstream)
      case Failed(reply) => Exchange(request, reply)
      case Content(content) =>
        Exchange(request, Respond(Normalise(ParseOrFallback(content, parse), content)))
  }
}
