/**
 * The community pledge board: the list of pledges kept in step with the
 * database's change feed, creating a pledge, the owner's status toggle
 * and the status badge.  Queries and the feed subscription are not
 * modelled: what they deliver is an input.
 */
module Community {
  import opened Wrappers
  import opened JsText
  import opened Sequences

  datatype Profile = Profile(username: Option<string>, avatarUrl: Option<string>)

  /** A pledge as the page holds it; `profile` is only present on rows fetched with it. */
  datatype Pledge = Pledge(
    id: string,
    userId: string,
    title: string,
    status: string,
    createdAt: string,
    profile: Option<Profile>)

  /** A bare table row, as the change feed delivers it in `payload.new`. */
  datatype PledgeRow = PledgeRow(id: string, userId: string, title: string, status: string, createdAt: string)

  /** One change-feed event, with the result of the follow-up fetch for an insert. */
  datatype Change =
    | Inserted(id: string, fetched: Option<Pledge>)
    | Updated(row: PledgeRow)
    | Deleted(id: string)

  /** The row `handleCreatePledge` inserts. */
  datatype NewPledge = NewPledge(userId: string, title: string, status: string)

  /** The update `handleToggleStatus` sends. */
  datatype StatusUpdate = StatusUpdate(id: string, status: string)

  datatype Badge = ActiveBadge | CompletedBadge | CancelledBadge

  // ---------------------------------------------------------------------
  // Folding change-feed events into the list

  /** `{ ...p, ...row }`: every column of the row replaces the pledge's, the profile stays. */
  function Overlay(p: Pledge, row: PledgeRow): (r: Pledge)
    ensures r.id == row.id && r.userId == row.userId && r.title == row.title
    ensures r.status == row.status && r.createdAt == row.createdAt
    ensures r.profile == p.profile
  {
    Pledge(row.id, row.userId, row.title, row.status, row.createdAt, p.profile)
  }

  /** An UPDATE event: only the entries with the row's id change. */
  function ApplyUpdate(pledges: seq<Pledge>, row: PledgeRow): (r: seq<Pledge>)
    ensures |r| == |pledges|
    ensures forall k :: 0 <= k < |pledges| && pledges[k].id == row.id ==> r[k] == Overlay(pledges[k], row)
    ensures forall k :: 0 <= k < |pledges| && pledges[k].id != row.id ==> r[k] == pledges[k]
  {
    if pledges == [] then []
    else [if pledges[0].id == row.id then Overlay(pledges[0], row) else pledges[0]]
         + ApplyUpdate(pledges[1..], row)
  }

  /** The entries whose id differs from `id`, in order. */
  function WithoutId(pledges: seq<Pledge>, id: string): (r: seq<Pledge>)
    ensures forall p :: p in r <==> p in pledges && p.id != id
    ensures |r| <= |pledges|
  {
    Filter(pledges, (p: Pledge) => p.id != id)
  }

  /** `fetchSinglePledge(id)`: the fetched pledge goes first and replaces any entry with its id. */
  function PrependFetched(pledges: seq<Pledge>, id: string, fetched: Option<Pledge>): (r: seq<Pledge>)
    ensures fetched.None? ==> r == pledges
    ensures fetched.Some? ==> |r| > 0 && r[0] == fetched.value
    ensures fetched.Some? ==> forall p :: p in r[1..] <==> p in pledges && p.id != id
    ensures fetched.Some? ==> r == [fetched.value] + WithoutId(pledges, id)
  {
    match fetched
    case None => pledges
    case Some(p) => [p] + WithoutId(pledges, id)
  }

  /** The change-feed callback's update of the list, by event type. */
  function Apply(pledges: seq<Pledge>, e: Change): (r: seq<Pledge>)
    ensures e.Inserted? && e.fetched.None? ==> r == pledges
    ensures e.Inserted? && e.fetched.Some? ==> |r| > 0 && r[0] == e.fetched.value
    ensures e.Inserted? && e.fetched.Some? ==> forall p :: p in r[1..] <==> p in pledges && p.id != e.id
    ensures e.Inserted? && e.fetched.Some? ==> r == [e.fetched.value] + WithoutId(pledges, e.id)
    ensures e.Updated? ==> r == ApplyUpdate(pledges, e.row)
    ensures e.Updated? ==> |r| == |pledges| && forall k :: 0 <= k < |r| ==> r[k].id == pledges[k].id
    ensures e.Updated? ==> forall k :: 0 <= k < |r| && pledges[k].id != e.row.id ==> r[k] == pledges[k]
    ensures e.Deleted? ==> forall p :: p in r <==> p in pledges && p.id != e.id
    ensures e.Deleted? ==> r == WithoutId(pledges, e.id)
  {
    match e
    case Inserted(id, fetched) => PrependFetched(pledges, id, fetched)
    case Updated(row) => ApplyUpdate(pledges, row)
    case Deleted(id) => WithoutId(pledges, id)
  }

  /** The number of entries with id `id`. */
  function CountId(pledges: seq<Pledge>, id: string): nat {
    if pledges == [] then 0 else (if pledges[0].id == id then 1 else 0) + CountId(pledges[1..], id)
  }

  // ---------------------------------------------------------------------
  // Status

  /** The status the toggle sets: "active" becomes "completed", anything else "active". */
  function NextStatus(status: string): (r: string)
    ensures r == "completed" <==> status == "active"
    ensures r == "active" <==> status != "active"
  {
    if status == "active" then "completed" else "active"
  }

  /**
   * `handleToggleStatus(pledge)`: only the pledge's owner may toggle it,
   * and without a signed-in user nobody is its owner.
   */
  function ToggleStatus(pledge: Pledge, currentUser: Option<string>): (r: Option<StatusUpdate>)
    ensures r.Some? <==> currentUser == Some(pledge.userId)
    ensures r.Some? ==> r.value == StatusUpdate(pledge.id, NextStatus(pledge.status))
  {
    if currentUser.None? || pledge.userId != currentUser.value then None
    else Some(StatusUpdate(pledge.id, NextStatus(pledge.status)))
  }

  /** `getStatusBadge(status)`. */
  function StatusBadge(status: string): (b: Badge)
    ensures b == CompletedBadge <==> status == "completed"
    ensures b == CancelledBadge <==> status == "cancelled"
    ensures b == ActiveBadge <==> status != "completed" && status != "cancelled"
  {
    if status == "completed" then CompletedBadge
    else if status == "cancelled" then CancelledBadge
    else ActiveBadge
  }

  // ---------------------------------------------------------------------
  // The page's state

  class CommunityPage {
    var pledges: seq<Pledge>
    var isLoading: bool
    var newPledge: string
    var isSubmitting: bool
    var isDialogOpen: bool

    constructor ()
      ensures pledges == [] && isLoading && newPledge == "" && !isSubmitting && !isDialogOpen
    {
      pledges := [];
      isLoading := true;
      newPledge := "";
      isSubmitting := false;
      isDialogOpen := false;
    }

    /** `fetchPledges()`: on an error the list stays, otherwise it becomes the rows or `[]`. */
    method FetchPledges(result: FetchResult<Pledge>)
      modifies this
      ensures result.FetchError? ==> pledges == old(pledges)
      ensures result.Fetched? ==> pledges == result.data.GetOr([])
      ensures !isLoading
      ensures newPledge == old(newPledge) && isSubmitting == old(isSubmitting)
      ensures isDialogOpen == old(isDialogOpen)
    {
      isLoading := true;
      if result.Fetched? {
        pledges := result.data.GetOr([]);
      }
      isLoading := false;
    }

    /** The change-feed callback (for an insert: once its follow-up fetch has returned). */
    method OnChange(e: Change)
      modifies this`pledges
      ensures pledges == Apply(old(pledges), e)
    {
      pledges := Apply(pledges, e);
    }

    method SetNewPledge(text: string)
      modifies this`newPledge
      ensures newPledge == text
    {
      newPledge := text;
    }

    method SetDialogOpen(open: bool)
      modifies this`isDialogOpen
      ensures isDialogOpen == open
    {
      isDialogOpen := open;
    }

    /**
     * `handleCreatePledge()`: refused without a user or with an empty
     * trimmed title; otherwise the row is inserted and, when that
     * succeeds, the form is cleared and the dialog closed.  The list
     * itself changes only through the change feed.
     */
    method HandleCreatePledge(user: Option<string>, insertOk: bool) returns (sent: Option<NewPledge>)
      modifies this
      ensures user.None? || Trim(old(newPledge)) == "" ==> sent == None
      ensures user.Some? && Trim(old(newPledge)) != "" ==>
                sent == Some(NewPledge(user.value, Trim(old(newPledge)), "active"))
      ensures sent.Some? && insertOk ==> newPledge == "" && !isDialogOpen
      ensures sent.None? || !insertOk ==> newPledge == old(newPledge) && isDialogOpen == old(isDialogOpen)
      ensures sent.Some? ==> !isSubmitting
      ensures sent.None? ==> isSubmitting == old(isSubmitting)
      ensures pledges == old(pledges) && isLoading == old(isLoading)
    {
      if user.None? {
        return None;
      }
      var title := Trim(newPledge);
      if title == "" {
        return None;
      }
      isSubmitting := true;
      sent := Some(NewPledge(user.value, title, "active"));
      if insertOk {
        newPledge := "";
        isDialogOpen := false;
      }
      isSubmitting := false;
    }
  }
}
