/**
 * A student's own leave/OD request list (src/Screen/StudentLeaveStatus.js):
 * the status filter, the case-insensitive status icon, the per-request
 * "Read More" flag and the filter button captions.
 */
module StudentLeaveStatus {
  import opened Common

  datatype StudentRequest = StudentRequest(id: string, kind: string, status: string, reason: string)

  /** The filter buttons, in the order they are shown. */
  const Filters: seq<string> := ["all", "pending", "approved", "rejected"]

  /** The request passes filter `f` (a filter other than "all" compares the lower-cased status). */
  function MatchesFilter(f: string): StudentRequest -> bool
  {
    (req: StudentRequest) => ToLower(req.status) == f
  }

  /**
   * `filteredRequests`: under "all" every request; under any other filter
   * the requests whose lower-cased status equals it, in their fetched order.
   */
  function FilteredRequests(requests: seq<StudentRequest>, filter: string): (visible: seq<StudentRequest>)
    ensures filter == "all" ==> visible == requests
    ensures filter != "all" ==> forall r :: r in visible <==> r in requests && ToLower(r.status) == filter
    ensures filter != "all" ==>
      forall r :: multiset(visible)[r] == if ToLower(r.status) == filter then multiset(requests)[r] else 0
    ensures IsSubsequence(visible, requests)
  {
    if filter == "all" then
      FilterKeepsAll(requests, (req: StudentRequest) => true);
      Filter(requests, (req: StudentRequest) => true)
    else
      Filter(requests, MatchesFilter(filter))
  }

  /**
   * A request whose status is "pendingHod" is visible only under "all":
   * none of the other offered filters equals its lower-cased status.
   */
  lemma PendingHodOnlyUnderAll(requests: seq<StudentRequest>, filter: string, req: StudentRequest)
    requires filter in Filters && req in requests && req.status == "pendingHod"
    ensures req in FilteredRequests(requests, filter) <==> filter == "all"
  {
    assert |ToLower(req.status)| == 10;
  }

  datatype StatusIcon = StatusIcon(color: string, icon: string)

  /** `getStatusStyle`: chosen by the lower-cased status; anything unknown gets the grey info icon. */
  function GetStatusStyle(status: string): (style: StatusIcon)
    ensures ToLower(status) == "approved" ==> style == StatusIcon("#28A745", "check-circle")
    ensures ToLower(status) == "pending" ==> style == StatusIcon("#FFC107", "hourglass-empty")
    ensures ToLower(status) == "rejected" ==> style == StatusIcon("#DC3545", "cancel")
    ensures ToLower(status) !in {"approved", "pending", "rejected"} ==> style == StatusIcon("#6C757D", "info")
  {
    var s := ToLower(status);
    if s == "approved" then StatusIcon("#28A745", "check-circle")
    else if s == "pending" then StatusIcon("#FFC107", "hourglass-empty")
    else if s == "rejected" then StatusIcon("#DC3545", "cancel")
    else StatusIcon("#6C757D", "info")
  }

  /** The icon does not depend on the case of the status. */
  lemma GetStatusStyleCaseInsensitive(status: string)
    ensures GetStatusStyle(ToLower(status)) == GetStatusStyle(status)
  {
    ToLowerIdempotent(status);
  }

  /** "pendingHod" (the status a forwarded request shows) gets the grey info icon. */
  lemma PendingHodIsInfo()
    ensures GetStatusStyle("pendingHod") == StatusIcon("#6C757D", "info")
  {
    assert |ToLower("pendingHod")| == 10;
  }

  /** `expandedReasons[id]` read as a boolean (a missing entry is falsy). */
  function IsExpanded(expanded: map<string, bool>, id: string): bool
  {
    id in expanded && expanded[id]
  }

  /** `toggleReason(id)`: the entry for `id` becomes the negation of its truthiness; the rest stay. */
  function ToggleReason(expanded: map<string, bool>, id: string): (next: map<string, bool>)
    ensures IsExpanded(next, id) == !IsExpanded(expanded, id)
    ensures forall other :: other != id ==> (other in next <==> other in expanded)
    ensures forall other :: other != id && other in expanded ==> next[other] == expanded[other]
  {
    expanded[id := !IsExpanded(expanded, id)]
  }

  /** Toggling one id twice gives back the truthiness of every entry. */
  lemma ToggleReasonTwice(expanded: map<string, bool>, id: string, other: string)
    ensures IsExpanded(ToggleReason(ToggleReason(expanded, id), id), other) == IsExpanded(expanded, other)
  {
  }

  /** "Read More" / "Show Less" is offered only for a reason longer than 100 characters. */
  function OffersReadMore(reason: string): bool
  {
    |reason| > 100
  }

  /** `numberOfLines`: three lines when collapsed, unlimited (0) when expanded. */
  function NumberOfLines(expanded: map<string, bool>, id: string): (n: nat)
    ensures n == 0 <==> IsExpanded(expanded, id)
    ensures n != 0 ==> n == 3
  {
    if IsExpanded(expanded, id) then 0 else 3
  }

  /** The caption of a filter button: the name with its first character upper-cased. */
  function Capitalize(s: string): (r: string)
    ensures |r| == |s|
    ensures |s| > 0 ==> r[0] == UpperChar(s[0]) && r[1..] == s[1..]
  {
    if |s| == 0 then "" else [UpperChar(s[0])] + s[1..]
  }

  lemma FilterCaptions()
    ensures Capitalize("all") == "All" && Capitalize("pending") == "Pending"
    ensures Capitalize("approved") == "Approved" && Capitalize("rejected") == "Rejected"
  {
  }

  /** What one request card shows. */
  datatype Card = Card(kind: string, status: string, icon: StatusIcon, reason: string,
                       numberOfLines: nat, toggle: Option<string>)

  function RenderCard(req: StudentRequest, expanded: map<string, bool>): (card: Card)
    ensures card.toggle.Some? <==> OffersReadMore(req.reason)
    ensures card.toggle.Some? ==> card.toggle.value == if IsExpanded(expanded, req.id) then "Show Less" else "Read More"
    ensures card.icon == GetStatusStyle(req.status)
  {
    Card(req.kind, req.status, GetStatusStyle(req.status), req.reason,
         NumberOfLines(expanded, req.id),
         if OffersReadMore(req.reason) then Some(if IsExpanded(expanded, req.id) then "Show Less" else "Read More") else None)
  }

  datatype View = Spinner | NoRequests | Cards(cards: seq<Card>)

  /** Spinner while loading; otherwise the cards of the visible requests, or a notice when there are none. */
  function Render(loading: bool, requests: seq<StudentRequest>, filter: string, expanded: map<string, bool>): (v: View)
    ensures v.Spinner? <==> loading
    ensures v.NoRequests? <==> !loading && FilteredRequests(requests, filter) == []
    ensures v.Cards? ==> |v.cards| == |FilteredRequests(requests, filter)| > 0
    ensures v.Cards? ==>
      forall i :: 0 <= i < |v.cards| ==> v.cards[i] == RenderCard(FilteredRequests(requests, filter)[i], expanded)
  {
    if loading then Spinner
    else
      var visible := FilteredRequests(requests, filter);
      if |visible| == 0 then NoRequests
      else Cards(seq(|visible|, i requires 0 <= i < |visible| => RenderCard(visible[i], expanded)))
  }

  class StudentLeaveStatusScreen {
    var requests: seq<StudentRequest>
    var loading: bool
    var filter: string
    var expandedReasons: map<string, bool>

    /** The offered filters are the only values `filter` takes. */
    ghost predicate Valid()
      reads this
    {
      filter in Filters
    }

    constructor ()
      ensures Valid()
      ensures requests == [] && loading && filter == "all" && expandedReasons == map[]
    {
      requests := [];
      loading := true;
      filter := "all";
      expandedReasons := map[];
    }

    /** The list under the current filter. */
    function Visible(): (visible: seq<StudentRequest>)
      reads this
      ensures IsSubsequence(visible, requests)
    {
      FilteredRequests(requests, filter)
    }

    /**
     * `fetchRequests`: the stored token is read first, and a falsy one (no
     * token, or "") throws before any request.  Then a success stores the
     * list (empty when absent); a refusal alerts the server's message; a
     * missing token or an exception alerts a fixed error.  Only a success
     * changes the list, and loading ends in every case.
     */
    method FetchRequests(token: string, res: Outcome<Option<seq<StudentRequest>>>)
      returns (alert: Option<string>)
      modifies this
      ensures !loading
      ensures token != "" && res.Success? ==> requests == (match res.data case Some(list) => list case None => [])
      ensures token != "" && res.Success? ==> alert.None?
      ensures token == "" || !res.Success? ==> requests == old(requests)
      ensures token != "" && res.Failure? ==> alert == Some(res.message)
      ensures token == "" || res.Threw? ==> alert == Some("Error fetching leave requests")
      ensures filter == old(filter) && expandedReasons == old(expandedReasons)
    {
      loading := true;
      if token == "" {
        alert := Some("Error fetching leave requests");
      } else {
        match res {
          case Success(data) =>
            requests := match data case Some(list) => list case None => [];
            alert := None;
          case Failure(message) =>
            alert := Some(message);
          case Threw(_) =>
            alert := Some("Error fetching leave requests");
        }
      }
      loading := false;
    }

    /** Pressing the filter button at `index`. */
    method SetFilter(index: nat)
      requires Valid() && index < |Filters|
      modifies this
      ensures Valid() && filter == Filters[index]
      ensures requests == old(requests) && loading == old(loading) && expandedReasons == old(expandedReasons)
    {
      filter := Filters[index];
    }

    method ToggleReasonOf(id: string)
      modifies this
      ensures expandedReasons == ToggleReason(old(expandedReasons), id)
      ensures requests == old(requests) && loading == old(loading) && filter == old(filter)
    {
      expandedReasons := ToggleReason(expandedReasons, id);
    }
  }
}
