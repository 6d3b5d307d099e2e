/**
 * The two `getMoodLabel` functions: the journal's (which also labels a
 * missing or zero score) and the analyzer's (which always receives a
 * score).  Colours are styling and are not modelled.
 */
module MoodBands {
  import opened Wrappers

  datatype Label = Unknown | NeedsSupport | Struggling | Neutral | Thriving

  /** The band's caption; only a missing or zero score reads "Unknown". */
  function LabelText(l: Label): (s: string)
    ensures s == "Unknown" <==> l == Unknown
    ensures s != ""
  {
    match l
    case Unknown => "Unknown"
    case NeedsSupport => "Needs Support"
    case Struggling => "Struggling"
    case Neutral => "Neutral"
    case Thriving => "Thriving"
  }

  /** No two bands share a caption. */
  lemma LabelTextInjective(a: Label, b: Label)
    requires LabelText(a) == LabelText(b)
    ensures a == b
  {
  }

  /** The position of a band on the scale from low mood to high mood. */
  function Rank(l: Label): nat {
    match l
    case Unknown => 0
    case NeedsSupport => 1
    case Struggling => 2
    case Neutral => 3
    case Thriving => 4
  }

  /** The analyzer's bands: at most 3, at most 5, at most 7, above 7. */
  function AnalyzerLabel(score: int): (l: Label)
    ensures l != Unknown
    ensures l == NeedsSupport <==> score <= 3
    ensures l == Struggling <==> 3 < score <= 5
    ensures l == Neutral <==> 5 < score <= 7
    ensures l == Thriving <==> 7 < score
  {
    if score <= 3 then NeedsSupport
    else if score <= 5 then Struggling
    else if score <= 7 then Neutral
    else Thriving
  }

  /** The journal's bands: a falsy score (missing or 0) is Unknown, the rest as in the analyzer. */
  function DashboardLabel(score: Option<int>): (l: Label)
    ensures l == Unknown <==> score.None? || score.value == 0
    ensures l == NeedsSupport <==> score.Some? && score.value != 0 && score.value <= 3
    ensures l == Struggling <==> score.Some? && 3 < score.value <= 5
    ensures l == Neutral <==> score.Some? && 5 < score.value <= 7
    ensures l == Thriving <==> score.Some? && 7 < score.value
  {
    if score.None? || score.value == 0 then Unknown
    else if score.value <= 3 then NeedsSupport
    else if score.value <= 5 then Struggling
    else if score.value <= 7 then Neutral
    else Thriving
  }

  /** A higher score never lands in a lower band. */
  lemma AnalyzerLabelMonotone(a: int, b: int)
    requires a <= b
    ensures Rank(AnalyzerLabel(a)) <= Rank(AnalyzerLabel(b))
  {
  }

  /** The two pages agree on every truthy score and differ only on 0, which the journal calls Unknown. */
  lemma LabelsAgree(score: int)
    ensures score != 0 ==> DashboardLabel(Some(score)) == AnalyzerLabel(score)
    ensures score == 0 ==> DashboardLabel(Some(score)) == Unknown && AnalyzerLabel(score) == NeedsSupport
  {
  }

  /** Every score the model is asked for (1 to 10) gets a real band on both pages. */
  lemma PromptScoresAreLabelled(score: int)
    requires 1 <= score <= 10
    ensures DashboardLabel(Some(score)) != Unknown
    ensures DashboardLabel(Some(score)) == AnalyzerLabel(score)
  {
  }
}
