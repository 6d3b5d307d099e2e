/** Properties of the pledge board's change-feed fold and status toggle. */
module CommunityProperties {
  import opened Wrappers
  import opened Sequences
  import opened Community

  lemma {:induction false} CountIdAbsent(pledges: seq<Pledge>, id: string)
    requires forall p :: p in pledges ==> p.id != id
    ensures CountId(pledges, id) == 0
  {
    if pledges != [] {
      assert pledges[0] in pledges;
      assert forall p :: p in pledges[1..] ==> p in pledges;
      CountIdAbsent(pledges[1..], id);
    }
  }

  /** A DELETE event leaves no entry with the deleted id and keeps the others in order. */
  lemma DeleteRemovesEveryMatch(a: seq<Pledge>, b: seq<Pledge>, id: string)
    ensures CountId(WithoutId(a + b, id), id) == 0
    ensures WithoutId(a + b, id) == WithoutId(a, id) + WithoutId(b, id)
  {
    CountIdAbsent(WithoutId(a + b, id), id);
    FilterAppend(a, b, (p: Pledge) => p.id != id);
  }

  /** After an insert's fetch returns the pledge, exactly one entry carries its id. */
  lemma InsertLeavesOneEntry(pledges: seq<Pledge>, p: Pledge)
    ensures CountId(PrependFetched(pledges, p.id, Some(p)), p.id) == 1
  {
    var r := PrependFetched(pledges, p.id, Some(p));
    CountIdAbsent(WithoutId(pledges, p.id), p.id);
    assert r[1..] == WithoutId(pledges, p.id);
  }

  lemma WithoutIdTwice(pledges: seq<Pledge>, id: string)
    ensures WithoutId(WithoutId(pledges, id), id) == WithoutId(pledges, id)
  {
    FilterNarrowing(pledges, (p: Pledge) => p.id != id, (p: Pledge) => p.id != id);
  }

  /**
   * Delivering the same event twice in a row has the effect of delivering
   * it once (for an insert, the fetch returns the row with the event's id).
   */
  lemma ApplyIsIdempotent(pledges: seq<Pledge>, e: Change)
    requires e.Inserted? && e.fetched.Some? ==> e.fetched.value.id == e.id
    ensures Apply(Apply(pledges, e), e) == Apply(pledges, e)
  {
    match e
    case Inserted(id, fetched) =>
      if fetched.Some? {
        var rest := WithoutId(pledges, id);
        FilterAppend([fetched.value], rest, (p: Pledge) => p.id != id);
        assert WithoutId([fetched.value], id) == [];
        WithoutIdTwice(pledges, id);
      }
    case Updated(row) =>
      var once := ApplyUpdate(pledges, row);
      var twice := ApplyUpdate(once, row);
      assert forall k :: 0 <= k < |once| ==> twice[k] == once[k];
    case Deleted(id) =>
      WithoutIdTwice(pledges, id);
  }

  /** Toggling twice restores exactly the statuses "active" and "completed". */
  lemma ToggleTwiceRestores(status: string)
    ensures NextStatus(NextStatus(status)) == status <==> status == "active" || status == "completed"
  {
  }

  /** The toggle never produces a cancelled pledge. */
  lemma ToggleNeverCancels(status: string)
    ensures StatusBadge(NextStatus(status)) != CancelledBadge
  {
  }

  /**
   * The toggle changes the badge exactly for the three known statuses: an
   * unknown status already shows as Active and becomes "active".
   */
  lemma ToggleChangesBadge(status: string)
    ensures StatusBadge(NextStatus(status)) != StatusBadge(status)
            <==> status == "active" || status == "completed" || status == "cancelled"
  {
  }
}
