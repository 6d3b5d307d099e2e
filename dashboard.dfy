/**
 * The journal page: the list of the user's mood logs, editing the text
 * of one entry, deleting one entry, and the average score shown above
 * the list.  The database calls are not modelled: their outcomes are
 * inputs of the methods that await them.
 */
module Dashboard {
  import opened Wrappers
  import opened JsText
  import opened Sequences

  datatype MoodLog = MoodLog(
    id: string,
    moodText: string,
    aiResponse: Option<string>,
    moodScore: Option<int>,
    createdAt: string,
    updatedAt: string)

  /** The update sent for a saved edit: the entry's id and its new text. */
  datatype TextUpdate = TextUpdate(id: string, moodText: string)

  // ---------------------------------------------------------------------
  // List updates

  /** `logs.map(log => log.id === id ? { ...log, mood_text: text } : log)`. */
  function WithEditedText(logs: seq<MoodLog>, id: string, text: string): (r: seq<MoodLog>)
    ensures |r| == |logs|
    ensures forall k :: 0 <= k < |logs| && logs[k].id == id ==> r[k] == logs[k].(moodText := text)
    ensures forall k :: 0 <= k < |logs| && logs[k].id != id ==> r[k] == logs[k]
  {
    if logs == [] then []
    else [if logs[0].id == id then logs[0].(moodText := text) else logs[0]]
         + WithEditedText(logs[1..], id, text)
  }

  /** `logs.filter(log => log.id !== id)`. */
  function WithoutEntry(logs: seq<MoodLog>, id: string): (r: seq<MoodLog>)
    ensures forall log :: log in r <==> log in logs && log.id != id
    ensures |r| <= |logs|
  {
    Filter(logs, (log: MoodLog) => log.id != id)
  }

  /** Saving the same text twice is saving it once. */
  lemma EditIsIdempotent(logs: seq<MoodLog>, id: string, text: string)
    ensures WithEditedText(WithEditedText(logs, id, text), id, text) == WithEditedText(logs, id, text)
  {
  }

  /** An edit of an id that is not in the list changes nothing. */
  lemma EditOfAbsentIdIsNoop(logs: seq<MoodLog>, id: string, text: string)
    requires forall k :: 0 <= k < |logs| ==> logs[k].id != id
    ensures WithEditedText(logs, id, text) == logs
  {
  }

  /** Deleting keeps the remaining entries in their order. */
  lemma DeleteKeepsOrder(a: seq<MoodLog>, b: seq<MoodLog>, id: string)
    ensures WithoutEntry(a + b, id) == WithoutEntry(a, id) + WithoutEntry(b, id)
  {
    FilterAppend(a, b, (log: MoodLog) => log.id != id);
  }

  /** Deleting an id that is not in the list changes nothing. */
  lemma DeleteOfAbsentIdIsNoop(logs: seq<MoodLog>, id: string)
    requires forall k :: 0 <= k < |logs| ==> logs[k].id != id
    ensures WithoutEntry(logs, id) == logs
  {
    FilterKeepsAll(logs, (log: MoodLog) => log.id != id);
  }

  // ---------------------------------------------------------------------
  // The average score

  predicate ScoreTruthy(score: Option<int>) {
    score.Some? && score.value != 0
  }

  /** `log.mood_score || 0`. */
  function ScoreOrZero(score: Option<int>): int {
    if ScoreTruthy(score) then score.value else 0
  }

  function ScoreSum(logs: seq<MoodLog>): int {
    if logs == [] then 0 else ScoreOrZero(logs[0].moodScore) + ScoreSum(logs[1..])
  }

  function ScoredCount(logs: seq<MoodLog>): nat {
    if logs == [] then 0 else (if ScoreTruthy(logs[0].moodScore) then 1 else 0) + ScoredCount(logs[1..])
  }

  /** The average shown on the page: `null`, `NaN` (0 / 0), or a rounded mean. */
  datatype Average = NoLogs | NotANumber | Rounded(value: int)

  lemma {:induction false} ZeroCountZeroSum(logs: seq<MoodLog>)
    requires ScoredCount(logs) == 0
    ensures ScoreSum(logs) == 0
  {
    if logs != [] {
      ZeroCountZeroSum(logs[1..]);
    }
  }

  /**
   * `Math.round(sum / count)` over the truthy scores, which rounds the
   * mean to the nearest integer with halves going up.
   */
  function AverageScore(logs: seq<MoodLog>): (r: Average)
    ensures r == NoLogs <==> logs == []
    ensures r == NotANumber <==> logs != [] && ScoredCount(logs) == 0
    ensures r.Rounded? ==>
              var sum, count := ScoreSum(logs), ScoredCount(logs);
              count > 0 && 2 * count * r.value - count <= 2 * sum < 2 * count * r.value + count
  {
    if logs == [] then NoLogs
    else
      var sum, count := ScoreSum(logs), ScoredCount(logs);
      if count == 0 then
        ZeroCountZeroSum(logs);
        NotANumber
      else
        var q := (2 * sum + count) / (2 * count);
        assert 2 * sum + count == 2 * count * q + (2 * sum + count) % (2 * count);
        Rounded(q)
  }

  lemma {:induction false} ScoreSumBounds(logs: seq<MoodLog>, lo: int, hi: int)
    requires forall k :: 0 <= k < |logs| && ScoreTruthy(logs[k].moodScore) ==>
               lo <= logs[k].moodScore.value <= hi
    ensures ScoredCount(logs) * lo <= ScoreSum(logs) <= ScoredCount(logs) * hi
  {
    if logs != [] {
      var rest := logs[1..];
      assert forall k :: 0 <= k < |rest| ==> rest[k] == logs[k + 1];
      ScoreSumBounds(rest, lo, hi);
      var c, s := ScoredCount(rest), ScoreSum(rest);
      if ScoreTruthy(logs[0].moodScore) {
        assert ScoredCount(logs) == c + 1 && ScoreSum(logs) == logs[0].moodScore.value + s;
        assert (c + 1) * lo == c * lo + lo && (c + 1) * hi == c * hi + hi;
      } else {
        assert ScoredCount(logs) == c && ScoreSum(logs) == s;
      }
    }
  }

  lemma ProductAtLeastOne(a: int, b: int)
    requires a >= 1 && b >= 1
    ensures a * b >= 1
  {
    assert a * b == a * (b - 1) + a;
  }

  /** A value within half of the mean of numbers in a range lies in the range. */
  lemma RoundedMeanWithin(v: int, sum: int, count: int, lo: int, hi: int)
    requires count > 0
    requires 2 * count * v - count <= 2 * sum < 2 * count * v + count
    requires count * lo <= sum <= count * hi
    ensures lo <= v <= hi
  {
    assert count * (2 * v - 2 * hi - 1) == 2 * count * v - count - 2 * (count * hi);
    assert count * (2 * lo - 2 * v - 1) == 2 * (count * lo) - 2 * count * v - count;
    if v > hi {
      ProductAtLeastOne(count, 2 * v - 2 * hi - 1);
    }
    if v < lo {
      ProductAtLeastOne(count, 2 * lo - 2 * v - 1);
    }
  }

  /** When every recorded score lies within a range, so does the average. */
  lemma AverageWithinRange(logs: seq<MoodLog>, lo: int, hi: int)
    requires forall k :: 0 <= k < |logs| && ScoreTruthy(logs[k].moodScore) ==>
               lo <= logs[k].moodScore.value <= hi
    ensures AverageScore(logs).Rounded? ==> lo <= AverageScore(logs).value <= hi
  {
    if AverageScore(logs).Rounded? {
      ScoreSumBounds(logs, lo, hi);
      RoundedMeanWithin(AverageScore(logs).value, ScoreSum(logs), ScoredCount(logs), lo, hi);
    }
  }

  // ---------------------------------------------------------------------
  // The page's state

  class DashboardPage {
    var moodLogs: seq<MoodLog>
    var isLoading: bool
    var editingLog: Option<MoodLog>
    var editText: string
    var isSaving: bool
    var deletingId: Option<string>

    constructor ()
      ensures moodLogs == [] && isLoading && editingLog == None && editText == ""
      ensures !isSaving && deletingId == None
    {
      moodLogs := [];
      isLoading := true;
      editingLog := None;
      editText := "";
      isSaving := false;
      deletingId := None;
    }

    /** `fetchMoodLogs()`: on an error the list stays, otherwise it becomes the rows or `[]`. */
    method FetchMoodLogs(result: FetchResult<MoodLog>)
      modifies this
      ensures result.FetchError? ==> moodLogs == old(moodLogs)
      ensures result.Fetched? ==> moodLogs == result.data.GetOr([])
      ensures !isLoading
      ensures editingLog == old(editingLog) && editText == old(editText)
      ensures isSaving == old(isSaving) && deletingId == old(deletingId)
    {
      isLoading := true;
      if result.Fetched? {
        moodLogs := result.data.GetOr([]);
      }
      isLoading := false;
    }

    /** `handleEdit(log)`: open the editor on `log` with its text. */
    method HandleEdit(log: MoodLog)
      modifies this
      ensures editingLog == Some(log) && editText == log.moodText
      ensures moodLogs == old(moodLogs) && isLoading == old(isLoading)
      ensures isSaving == old(isSaving) && deletingId == old(deletingId)
    {
      editingLog := Some(log);
      editText := log.moodText;
    }

    /** The text field's `onChange`. */
    method SetEditText(text: string)
      modifies this`editText
      ensures editText == text
    {
      editText := text;
    }

    /** The delete button of an entry: ask to confirm deleting `id`. */
    method AskDelete(id: string)
      modifies this`deletingId
      ensures deletingId == Some(id)
    {
      deletingId := Some(id);
    }

    /**
     * `handleSaveEdit()`.  Nothing happens when no entry is being edited
     * or the trimmed text is empty; otherwise the update is sent and, when
     * it succeeds (`updateOk`), exactly the entries with the edited id
     * get the trimmed text and the editor closes.
     */
    method HandleSaveEdit(updateOk: bool) returns (sent: Option<TextUpdate>)
      modifies this
      ensures old(editingLog).None? || Trim(old(editText)) == "" ==> sent == None
      ensures old(editingLog).Some? && Trim(old(editText)) != "" ==>
                sent == Some(TextUpdate(old(editingLog).value.id, Trim(old(editText))))
      ensures sent.Some? && updateOk ==>
                moodLogs == WithEditedText(old(moodLogs), sent.value.id, sent.value.moodText)
                && editingLog == None
      ensures sent.None? || !updateOk ==> moodLogs == old(moodLogs) && editingLog == old(editingLog)
      ensures sent.Some? ==> !isSaving
      ensures sent.None? ==> isSaving == old(isSaving)
      ensures editText == old(editText) && deletingId == old(deletingId) && isLoading == old(isLoading)
    {
      var text := Trim(editText);
      if editingLog.None? || text == "" {
        return None;
      }
      isSaving := true;
      var id := editingLog.value.id;
      sent := Some(TextUpdate(id, text));
      if updateOk {
        moodLogs := WithEditedText(moodLogs, id, text);
        editingLog := None;
      }
      isSaving := false;
    }

    /**
     * `handleDelete()`.  Nothing happens without a truthy pending id (none,
     * or the empty string); otherwise the delete is sent, when it succeeds
     * exactly the entries with that id leave the list, and the pending id
     * is cleared either way.
     */
    method HandleDelete(deleteOk: bool) returns (sent: Option<string>)
      modifies this
      ensures old(deletingId).None? || old(deletingId) == Some("") ==>
                sent == None && deletingId == old(deletingId)
      ensures old(deletingId).Some? && old(deletingId).value != "" ==>
                sent == old(deletingId) && deletingId == None
      ensures sent.Some? && deleteOk ==> moodLogs == WithoutEntry(old(moodLogs), sent.value)
      ensures sent.None? || !deleteOk ==> moodLogs == old(moodLogs)
      ensures editingLog == old(editingLog) && editText == old(editText)
      ensures isSaving == old(isSaving) && isLoading == old(isLoading)
    {
      if deletingId.None? || deletingId.value == "" {
        return None;
      }
      sent := deletingId;
      if deleteOk {
        moodLogs := WithoutEntry(moodLogs, deletingId.value);
      }
      deletingId := None;
    }
  }
}
