/**
 * The announcement inbox (src/Screen/FetchAnnouncements.js): the fetched
 * list, the error text, the list of expanded announcement ids that a tap
 * toggles, and which of spinner / error / "No new messages" / list is shown.
 */
module FetchAnnouncements {
  import opened Common

  datatype Announcement = Announcement(id: string, title: string, content: string, createdAt: string)

  /** Each id occurs at most once. */
  ghost predicate NoDuplicates(ids: seq<string>)
  {
    forall x :: multiset(ids)[x] <= 1
  }

  /** `item => item !== id` */
  function NotId(id: string): string -> bool
  {
    (item: string) => item != id
  }

  /**
   * `toggleAnnouncement(id)`: a present id is removed (every occurrence),
   * an absent one is appended.  Exactly the membership of `id` flips; the
   * other ids keep their relative order, and a list without duplicates
   * stays without duplicates.
   */
  function ToggleAnnouncement(ids: seq<string>, id: string): (next: seq<string>)
    ensures id in next <==> id !in ids
    ensures forall other :: other != id ==> (other in next <==> other in ids)
    ensures forall other :: other != id ==> multiset(next)[other] == multiset(ids)[other]
    ensures id in ids ==> IsSubsequence(next, ids) && |next| < |ids|
    ensures id !in ids ==> |next| == |ids| + 1 && next[..|ids|] == ids && next[|ids|] == id
    ensures NoDuplicates(ids) ==> NoDuplicates(next)
  {
    if id in ids then
      Filter(ids, NotId(id))
    else
      var next := ids + [id];
      assert next[..|ids|] == ids;
      assert multiset(next) == multiset(ids) + multiset{id};
      next
  }

  /** Expanding an announcement and collapsing it again restores the list exactly. */
  lemma {:induction false} ToggleAbsentTwice(ids: seq<string>, id: string)
    requires id !in ids
    ensures ToggleAnnouncement(ToggleAnnouncement(ids, id), id) == ids
  {
    var p := NotId(id);
    assert id in ids + [id];
    FilterAppend(ids, [id], p);
    FilterKeepsAll(ids, p);
    assert Filter([id], p) == [];
  }

  /** Toggling twice restores the membership of every id (for a present id, its position may change). */
  lemma ToggleTwiceMembership(ids: seq<string>, id: string, x: string)
    ensures x in ToggleAnnouncement(ToggleAnnouncement(ids, id), id) <==> x in ids
  {
  }

  /** One row of the list: the content is shown only while the row is expanded. */
  datatype Row = Row(id: string, title: string, expanded: bool, content: Option<string>, createdAt: string)

  datatype View = Spinner | ErrorView(message: string) | NoMessages | List(rows: seq<Row>)

  function RenderRow(a: Announcement, expandedIds: seq<string>): (row: Row)
    ensures row.expanded <==> a.id in expandedIds
    ensures row.content.Some? <==> row.expanded
    ensures row.content.Some? ==> row.content.value == a.content
  {
    var expanded := a.id in expandedIds;
    Row(a.id, a.title, expanded, if expanded then Some(a.content) else None, a.createdAt)
  }

  /**
   * What the screen shows: the spinner while loading (unless refreshing),
   * then the error view, then "No new messages" for an empty list, else
   * the list.  `error` is the empty string when there is none.
   */
  function Render(loading: bool, refreshing: bool, error: string,
                  announcements: seq<Announcement>, expandedIds: seq<string>): (v: View)
    ensures v.Spinner? <==> loading && !refreshing
    ensures v.ErrorView? <==> !(loading && !refreshing) && error != ""
    ensures v.ErrorView? ==> v.message == error
    ensures v.NoMessages? <==> !(loading && !refreshing) && error == "" && announcements == []
    ensures v.List? ==> |v.rows| == |announcements| > 0
    ensures v.List? ==> forall i :: 0 <= i < |v.rows| ==> v.rows[i] == RenderRow(announcements[i], expandedIds)
  {
    if loading && !refreshing then Spinner
    else if error != "" then ErrorView(error)
    else if |announcements| == 0 then NoMessages
    else List(seq(|announcements|, i requires 0 <= i < |announcements| => RenderRow(announcements[i], expandedIds)))
  }

  /**
   * The toast one run of `fetchAnnouncements` shows.  `captured` is the
   * `refreshing` value the closure saw: the callback is memoised on
   * `[refreshing]`, so it reads the value of the render that created it.
   */
  function FetchToast(res: Outcome<Option<seq<Announcement>>>, captured: bool): (toast: Option<Alert>)
    ensures toast.None? <==> res.Success? && captured
    ensures toast.Some? && res.Success? ==> toast.value == Alert("success", "Announcements fetched successfully")
    ensures toast.Some? && !res.Success? ==> toast.value.title == "error"
    ensures res.Failure? ==> toast == Some(Alert("error", res.message))
    ensures res.Threw? ==> toast == Some(Alert("error", "Failed to fetch announcements"))
  {
    match res
    case Success(_) => if captured then None else Some(Alert("success", "Announcements fetched successfully"))
    case Failure(message) => Some(Alert("error", message))
    case Threw(_) => Some(Alert("error", "Failed to fetch announcements"))
  }

  /**
   * Only the captured flag silences a successful fetch: a closure made while
   * the screen was idle toasts the success, one made while refreshing does not.
   */
  lemma StaleClosureToasts(res: Outcome<Option<seq<Announcement>>>)
    requires res.Success?
    ensures FetchToast(res, false).Some? && FetchToast(res, true).None?
  {
  }

  class AnnouncementsScreen {
    var announcements: seq<Announcement>
    var loading: bool
    var error: string
    var expandedIds: seq<string>
    var refreshing: bool

    constructor ()
      ensures announcements == [] && loading && error == "" && expandedIds == [] && !refreshing
    {
      announcements := [];
      loading := true;
      error := "";
      expandedIds := [];
      refreshing := false;
    }

    /**
     * `fetchAnnouncements`, run by a closure that captured `captured` as
     * `refreshing`: the error is cleared first; a success stores the list
     * (empty when absent); a refusal or exception records its message as the
     * error and keeps the list.  The toast is `FetchToast`.  Loading and
     * refreshing end in every case.
     */
    method FetchAnnouncements(res: Outcome<Option<seq<Announcement>>>, captured: bool) returns (toast: Option<Alert>)
      modifies this
      ensures !loading && !refreshing
      ensures toast == FetchToast(res, captured)
      ensures res.Success? ==> error == "" && announcements == match res.data case Some(list) => list case None => []
      ensures !res.Success? ==> error == res.message && announcements == old(announcements)
      ensures expandedIds == old(expandedIds)
    {
      loading := true;
      error := "";
      toast := FetchToast(res, captured);
      match res {
        case Success(data) =>
          announcements := match data case Some(list) => list case None => [];
        case Failure(message) =>
          error := message;
        case Threw(message) =>
          error := message;
      }
      loading := false;
      refreshing := false;
    }

    /**
     * Pull-to-refresh as written: `refreshing` is set, but the fetch that
     * runs is the closure of the current render, which captured the old
     * `refreshing`.  So a refresh started from an idle screen toasts its
     * success like any other fetch.
     */
    method HandleRefresh(res: Outcome<Option<seq<Announcement>>>) returns (toast: Option<Alert>)
      modifies this
      ensures !loading && !refreshing
      ensures toast == FetchToast(res, old(refreshing))
      ensures !old(refreshing) && res.Success? ==> toast == Some(Alert("success", "Announcements fetched successfully"))
      ensures res.Success? ==> error == "" && announcements == match res.data case Some(list) => list case None => []
      ensures !res.Success? ==> error == res.message && announcements == old(announcements)
      ensures expandedIds == old(expandedIds)
    {
      var captured := refreshing;
      refreshing := true;
      toast := FetchAnnouncements(res, captured);
    }

    /**
     * Pull-to-refresh as evidently intended: the fetch sees `refreshing`
     * set, so a successful refresh is silent and only failures toast.
     */
    method HandleRefreshIntended(res: Outcome<Option<seq<Announcement>>>) returns (toast: Option<Alert>)
      modifies this
      ensures !loading && !refreshing
      ensures toast.None? <==> res.Success?
      ensures res.Success? ==> error == "" && announcements == match res.data case Some(list) => list case None => []
      ensures !res.Success? ==> error == res.message && announcements == old(announcements)
      ensures expandedIds == old(expandedIds)
    {
      refreshing := true;
      toast := FetchAnnouncements(res, true);
    }

    /** Tapping an announcement. */
    method Toggle(id: string)
      modifies this
      ensures expandedIds == ToggleAnnouncement(old(expandedIds), id)
      ensures announcements == old(announcements) && loading == old(loading)
      ensures error == old(error) && refreshing == old(refreshing)
    {
      expandedIds := ToggleAnnouncement(expandedIds, id);
    }

    function View(): View
      reads this
    {
      Render(loading, refreshing, error, announcements, expandedIds)
    }
  }
}
