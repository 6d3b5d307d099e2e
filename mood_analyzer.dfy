/**
 * The mood analyzer page: the guards in front of the edge function, the
 * three-step progress indicator and the saving of the result to the
 * journal.  `handleAnalyze` awaits the function; the model splits it at
 * that point into `Submit` (up to the call) and `Resolve` (what runs
 * when the call returns), with `pending` holding what the suspended
 * call has captured.  The function call and the insert are not
 * modelled: the call's outcome is an input, the insert is returned.
 */
module MoodAnalyzer {
  import opened Wrappers
  import opened JsText

  /** What `supabase.functions.invoke` returned: an error, or the fields of `data` the page reads. */
  datatype InvokeResult = InvokeError | InvokeData(aiResponse: Option<string>, moodScore: Option<int>)

  /** What `handleAnalyze` did before awaiting. */
  datatype SubmitOutcome = RedirectToLogin | NeedsText | Invoked(moodText: string)

  /** The suspended `handleAnalyze` call: the user and the trimmed text it sent. */
  datatype Pending = Pending(userId: string, moodText: string)

  /** The row saved to the journal after a successful analysis. */
  datatype MoodLogInsert = MoodLogInsert(
    userId: string, moodText: string, aiResponse: Option<string>, moodScore: Option<int>)

  const ProcessingStep := 1
  const InsightsStep := 2

  /** The results panel shows only when both the response and the score are truthy. */
  predicate ResultsVisible(aiResponse: Option<string>, moodScore: Option<int>)
    ensures aiResponse.None? || aiResponse == Some("") ==> !ResultsVisible(aiResponse, moodScore)
    ensures moodScore.None? || moodScore == Some(0) ==> !ResultsVisible(aiResponse, moodScore)
    ensures aiResponse.Some? && aiResponse.value != "" && moodScore.Some? && moodScore.value != 0
            ==> ResultsVisible(aiResponse, moodScore)
  {
    aiResponse.Some? && aiResponse.value != "" && moodScore.Some? && moodScore.value != 0
  }

  class AnalyzerPage {
    var moodText: string
    var aiResponse: Option<string>
    var moodScore: Option<int>
    var isAnalyzing: bool
    var currentStep: nat
    var pending: Option<Pending>

    /** An analysis is in flight exactly while the page shows step 1 as analyzing. */
    ghost predicate Valid()
      reads this
    {
      && (pending.Some? <==> isAnalyzing)
      && currentStep <= InsightsStep
      && (isAnalyzing ==> currentStep == ProcessingStep && !ResultsVisible(aiResponse, moodScore))
    }

    constructor ()
      ensures Valid()
      ensures moodText == "" && aiResponse == None && moodScore == None
      ensures !isAnalyzing && currentStep == 0 && pending == None
    {
      moodText := "";
      aiResponse := None;
      moodScore := None;
      isAnalyzing := false;
      currentStep := 0;
      pending := None;
    }

    /** The text area's `onChange`; the area is disabled while analyzing. */
    method SetMoodText(text: string)
      requires Valid() && !isAnalyzing
      modifies this`moodText
      ensures Valid() && moodText == text
    {
      moodText := text;
    }

    /**
     * `handleAnalyze()` up to the call: without a user the page sends the
     * visitor to the login page, with empty trimmed text it only warns;
     * otherwise it starts step 1, clears the last result and invokes the
     * function with the trimmed text.  The button is disabled while an
     * analysis is in flight.
     */
    method Submit(user: Option<string>) returns (outcome: SubmitOutcome)
      requires Valid() && !isAnalyzing
      modifies this`isAnalyzing, this`currentStep, this`aiResponse, this`moodScore, this`pending
      ensures Valid()
      ensures user.None? ==> outcome == RedirectToLogin
      ensures user.Some? && Trim(old(moodText)) == "" ==> outcome == NeedsText
      ensures user.Some? && Trim(old(moodText)) != "" ==> outcome == Invoked(Trim(old(moodText)))
      ensures !outcome.Invoked? ==>
                aiResponse == old(aiResponse) && moodScore == old(moodScore)
                && !isAnalyzing && currentStep == old(currentStep) && pending == None
      ensures outcome.Invoked? ==>
                isAnalyzing && currentStep == ProcessingStep
                && aiResponse == None && moodScore == None
                && pending == Some(Pending(user.value, outcome.moodText))
      ensures moodText == old(moodText)
    {
      var text := Trim(moodText);
      if user.None? {
        return RedirectToLogin;
      } else if text == "" {
        return NeedsText;
      }
      isAnalyzing := true;
      currentStep := ProcessingStep;
      aiResponse := None;
      moodScore := None;
      pending := Some(Pending(user.value, text));
      outcome := Invoked(text);
    }

    /**
     * The rest of `handleAnalyze()` once the call returns: on success,
     * step 2, the returned response and score, and the row saved with the
     * text that was sent; on failure, back to step 0.  Either way the
     * analysis is over.
     */
    method Resolve(result: InvokeResult) returns (saved: Option<MoodLogInsert>)
      requires Valid() && pending.Some?
      modifies this
      ensures Valid()
      ensures !isAnalyzing && pending == None
      ensures result.InvokeData? ==>
                currentStep == InsightsStep
                && aiResponse == result.aiResponse && moodScore == result.moodScore
                && saved == Some(MoodLogInsert(old(pending).value.userId, old(pending).value.moodText,
                                               result.aiResponse, result.moodScore))
      ensures result.InvokeError? ==>
                currentStep == 0 && saved == None
                && aiResponse == old(aiResponse) && moodScore == old(moodScore)
                && !ResultsVisible(aiResponse, moodScore)
      ensures moodText == old(moodText)
    {
      var call := pending.value;
      match result {
        case InvokeError =>
          currentStep := 0;
          saved := None;
        case InvokeData(response, score) =>
          currentStep := InsightsStep;
          aiResponse := response;
          moodScore := score;
          saved := Some(MoodLogInsert(call.userId, call.moodText, response, score));
      }
      isAnalyzing := false;
      pending := None;
    }
  }
}
