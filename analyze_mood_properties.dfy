/** What the `analyze-mood` handler promises its callers, stated over `Handle`. */
module AnalyzeMoodProperties {
  import opened Wrappers
  import opened JsValues
  import opened JsText
  import opened AnalyzeMood

  /**
   * A falsy or non-string `moodText` is answered with 400 before the
   * gateway is contacted: the reply does not depend on the gateway or the
   * parser, and no other path answers 400.
   */
  lemma RejectionIsExactlyBadMoodText(moodText: JsValue, keyConfigured: bool,
                                      u: Upstream, parse: string -> Option<JsObject>)
    ensures Handle(moodText, keyConfigured, u, parse).reply.status == 400
            <==> !AcceptedMoodText(moodText)
    ensures !AcceptedMoodText(moodText) ==>
              Handle(moodText, keyConfigured, u, parse)
              == Exchange(None, Reply(400, ErrorBody(MoodTextRequired)))
  {
    if AcceptedMoodText(moodText) && keyConfigured {
      match Classify(u)
      case Failed(reply) =>
      case Content(content) =>
        var a := Normalise(ParseOrFallback(content, parse), content);
        assert Respond(a).status in {200, 500};
    }
  }

  /** A white-space-only `moodText` is a non-empty string, so it is sent on. */
  lemma WhiteSpaceMoodTextIsSent(moodText: string, u: Upstream, parse: string -> Option<JsObject>)
    requires moodText != [] && AllWhiteSpace(moodText)
    ensures Handle(Str(moodText), true, u, parse).request == Some(UserMessage(moodText))
  {
  }

  /** How each gateway failure reaches the caller. */
  lemma GatewayStatusMapping(moodText: string, u: Upstream, parse: string -> Option<JsObject>)
    requires moodText != ""
    ensures var r := Handle(Str(moodText), true, u, parse).reply;
      && (u.Aborted? ==> r == Reply(504, ErrorBody(TimedOut)))
      && (u.Responded? && u.status == 429 ==> r == Reply(429, ErrorBody(RateLimited)))
      && (u.Responded? && u.status == 402 ==> r == Reply(402, ErrorBody(PaymentRequired)))
      && (u.Responded? && !IsOk(u.status) && u.status != 429 && u.status != 402 ==>
            r == Reply(500, ErrorBody(AnalysisFailed)))
      && (u.Responded? && IsOk(u.status) && !Truthy(u.content) ==>
            r == Reply(500, ErrorBody(NoResponse)))
  {
  }

  /** Every 200 reply carries a non-empty string insight, at least one tip and a truthy closing. */
  lemma SuccessfulReplyShape(moodText: JsValue, keyConfigured: bool,
                             u: Upstream, parse: string -> Option<JsObject>)
    ensures var r := Handle(moodText, keyConfigured, u, parse).reply;
      r.status == 200 ==>
        && r.body.AssessmentBody?
        && r.body.assessment.insight.Str? && r.body.assessment.insight.s != ""
        && |r.body.assessment.tips| > 0
        && Truthy(r.body.assessment.closing)
  {
  }

  /** A truthy insight that is not a string ends in the "incomplete response" error. */
  lemma NonStringInsightIsIncomplete(moodText: string, u: Upstream, parse: string -> Option<JsObject>)
    requires moodText != ""
    requires Classify(u).Content?
    requires var p := ParseOrFallback(Classify(u).content, parse);
      Truthy(Get(p, "insight")) && !Get(p, "insight").Str?
    ensures Handle(Str(moodText), true, u, parse).reply == Reply(500, ErrorBody(IncompleteResponse))
  {
  }

  /**
   * Truthy reply content that is not a string (a number, an array of
   * parts, an object) makes `content.match` throw; the fallback then
   * carries it as the insight, and the final guard refuses it.
   */
  lemma NonStringContentIsIncomplete(moodText: string, status: int, content: JsValue,
                                     parse: string -> Option<JsObject>)
    requires moodText != ""
    requires IsOk(status) && Truthy(content) && !content.Str?
    ensures Handle(Str(moodText), true, Responded(status, content), parse).reply
            == Reply(500, ErrorBody(IncompleteResponse))
  {
  }

  /**
   * Reply text with no `{ ... }` span, or with one that does not parse,
   * comes back with 200 as the normalised fallback object: the text
   * itself plus the fixed defaults.
   */
  lemma UnparsableReplyFallsBack(moodText: string, u: Upstream, parse: string -> Option<JsObject>)
    requires moodText != ""
    requires Classify(u).Content? && Classify(u).content.Str?
    requires var span := ExtractSpan(Classify(u).content.s); span.None? || parse(span.value).None?
    ensures var c := Classify(u).content;
      Handle(Str(moodText), true, u, parse).reply == Reply(200, AssessmentBody(Normalise(Fallback(c), c)))
    ensures var c := Classify(u).content;
      Normalise(Fallback(c), c) == Assessment(c, DefaultMoodScore, DefaultEmotions, DefaultTips, Str(DefaultClosing))
  {
  }

  /** Reply text without any `{` never yields a span. */
  lemma NoBraceNoSpan(content: string)
    requires '{' !in content
    ensures ExtractSpan(content) == None
  {
  }

  /** All five fields usable: the parsed object comes out field for field. */
  predicate Usable(parsed: JsObject) {
    && Truthy(Get(parsed, "insight"))
    && Get(parsed, "moodScore").Number?
    && Get(parsed, "emotions").Array?
    && IsNonEmptyArray(Get(parsed, "tips"))
    && Truthy(Get(parsed, "closing"))
  }

  lemma PassThrough(parsed: JsObject, content: JsValue)
    requires Usable(parsed)
    ensures Normalise(parsed, content) == Assessment(
              Get(parsed, "insight"), Get(parsed, "moodScore").n, Get(parsed, "emotions").items,
              Get(parsed, "tips").items, Get(parsed, "closing"))
  {
  }

  /** The same at the level of the handler, when the usable object came from the reply text. */
  lemma PassThroughReply(moodText: string, u: Upstream, parse: string -> Option<JsObject>)
    requires moodText != ""
    requires Classify(u).Content? && Classify(u).content.Str?
    requires var span := ExtractSpan(Classify(u).content.s);
      span.Some? && parse(span.value).Some? && Usable(parse(span.value).value)
      && Get(parse(span.value).value, "insight").Str?
    ensures var p := parse(ExtractSpan(Classify(u).content.s).value).value;
      Handle(Str(moodText), true, u, parse).reply == Reply(200, AssessmentBody(Assessment(
        Get(p, "insight"), Get(p, "moodScore").n, Get(p, "emotions").items,
        Get(p, "tips").items, Get(p, "closing"))))
  {
    PassThrough(parse(ExtractSpan(Classify(u).content.s).value).value, Classify(u).content);
  }

  /** A normalised assessment, sent through normalisation again, is unchanged. */
  lemma NormaliseIdempotent(parsed: JsObject, content: JsValue, otherContent: JsValue)
    requires Truthy(content)
    ensures Normalise(ToObject(Normalise(parsed, content)), otherContent) == Normalise(parsed, content)
  {
    var a := Normalise(parsed, content);
    assert Usable(ToObject(a));
    PassThrough(ToObject(a), otherContent);
  }

  /** Each output field depends only on the input fields it is computed from. */
  lemma FieldsAreIndependent(p: JsObject, q: JsObject, content: JsValue)
    ensures Get(p, "insight") == Get(q, "insight") && Get(p, "response") == Get(q, "response") ==>
              Normalise(p, content).insight == Normalise(q, content).insight
    ensures Get(p, "moodScore") == Get(q, "moodScore") ==>
              Normalise(p, content).moodScore == Normalise(q, content).moodScore
    ensures Get(p, "emotions") == Get(q, "emotions") ==>
              Normalise(p, content).emotions == Normalise(q, content).emotions
    ensures Get(p, "tips") == Get(q, "tips") ==>
              Normalise(p, content).tips == Normalise(q, content).tips
    ensures Get(p, "closing") == Get(q, "closing") ==>
              Normalise(p, content).closing == Normalise(q, content).closing
  {
  }
}
