/**
 * The instructor support page: the complaint filter, the reply button and
 * the send-reply handler.
 */
module SupportPage {
  import opened Base
  import opened Strings
  import opened Seqs
  import opened Search
  import opened Browser
  import Api

  const PendingStatus: string := "PENDING"
  const ResolvedStatus: string := "RESOLVED"
  const AllStatuses: string := "ALL"

  datatype StudentRef = StudentRef(id: string, name: Option<string>, email: string)

  /** A complaint as the backend returns it; every field the page defaults is optional. */
  datatype Complaint = Complaint(
    id: string,
    subject: Option<string>,
    description: Option<string>,
    status: Option<string>,
    student: Option<StudentRef>)

  /** `c.student?.name || ""`. */
  function StudentName(c: Complaint): string {
    if c.student.Some? then OrElse(c.student.value.name, "") else ""
  }

  /** The searched fields, missing ones read as `""`. */
  function SearchFields(c: Complaint): seq<string> {
    [OrElse(c.subject, ""), OrElse(c.description, ""), StudentName(c)]
  }

  /** `c.status || "PENDING"`: the status the badge shows and the filter compares. */
  function EffectiveStatus(c: Complaint): (s: string)
    ensures s != ""
    ensures c.status.None? ==> s == PendingStatus
  {
    OrElse(c.status, PendingStatus)
  }

  predicate MatchesStatus(c: Complaint, statusFilter: string) {
    statusFilter == AllStatuses || EffectiveStatus(c) == statusFilter
  }

  /** The filter's test for a normalised query `q`. */
  function Keeper(q: string, statusFilter: string): Complaint -> bool {
    c => Matches(q, SearchFields(c)) && MatchesStatus(c, statusFilter)
  }

  /** `filteredComplaints`. */
  function FilteredComplaints(cs: seq<Complaint>, query: string, statusFilter: string): (r: seq<Complaint>)
    ensures IsSubsequence(r, cs)
    ensures forall i :: 0 <= i < |r| ==>
              Matches(Normalize(query), SearchFields(r[i])) && MatchesStatus(r[i], statusFilter)
    ensures forall i :: 0 <= i < |cs| ==>
              (Matches(Normalize(query), SearchFields(cs[i])) && MatchesStatus(cs[i], statusFilter) ==> cs[i] in r)
    ensures forall x :: multiset(r)[x] ==
              if Matches(Normalize(query), SearchFields(x)) && MatchesStatus(x, statusFilter) then multiset(cs)[x] else 0
  {
    FilterIsSubsequence(cs, Keeper(Normalize(query), statusFilter));
    FilterCounts(cs, Keeper(Normalize(query), statusFilter));
    Filter(cs, Keeper(Normalize(query), statusFilter))
  }

  /** A blank search box with status `ALL` shows every complaint, in order. */
  lemma BlankSearchShowsAll(cs: seq<Complaint>, query: string)
    requires AllSpace(query)
    ensures FilteredComplaints(cs, query, AllStatuses) == cs
  {
    FilterKeepsAll(cs, Keeper(Normalize(query), AllStatuses));
  }

  /** Choosing a status narrows the `ALL` list without reordering it. */
  lemma StatusNarrowsAll(cs: seq<Complaint>, query: string, statusFilter: string)
    ensures FilteredComplaints(cs, query, statusFilter) ==
              Filter(FilteredComplaints(cs, query, AllStatuses), c => MatchesStatus(c, statusFilter))
  {
    var q := Normalize(query);
    FilterFilter(cs, Keeper(q, AllStatuses), c => MatchesStatus(c, statusFilter), Keeper(q, statusFilter));
  }

  /**
   * When every complaint's shown status is PENDING or RESOLVED, the two
   * status tabs split the `ALL` list between them.
   */
  lemma StatusTabsPartition(cs: seq<Complaint>, query: string)
    requires forall i :: 0 <= i < |cs| ==>
               EffectiveStatus(cs[i]) == PendingStatus || EffectiveStatus(cs[i]) == ResolvedStatus
    ensures |FilteredComplaints(cs, query, AllStatuses)| ==
              |FilteredComplaints(cs, query, PendingStatus)| + |FilteredComplaints(cs, query, ResolvedStatus)|
  {
    var q := Normalize(query);
    FilterPartition(cs, Keeper(q, AllStatuses), Keeper(q, PendingStatus), Keeper(q, ResolvedStatus));
  }

  /** `c.status !== "RESOLVED"`: whether the Reply button is offered. */
  predicate ReplyOffered(c: Complaint) {
    c.status != Some(ResolvedStatus)
  }

  /** The button and the badge agree: a complaint with a missing or empty status shows PENDING and can be answered. */
  lemma ReplyOfferedIffNotResolved(c: Complaint)
    ensures ReplyOffered(c) <==> EffectiveStatus(c) != ResolvedStatus
  {
  }

  /** Every complaint under the PENDING tab can be answered; none under RESOLVED can. */
  lemma ReplyOfferedByTab(cs: seq<Complaint>, query: string)
    ensures forall i :: 0 <= i < |FilteredComplaints(cs, query, PendingStatus)| ==>
              ReplyOffered(FilteredComplaints(cs, query, PendingStatus)[i])
    ensures forall i :: 0 <= i < |FilteredComplaints(cs, query, ResolvedStatus)| ==>
              !ReplyOffered(FilteredComplaints(cs, query, ResolvedStatus)[i])
  {
    var pending := FilteredComplaints(cs, query, PendingStatus);
    forall i | 0 <= i < |pending| ensures ReplyOffered(pending[i]) {
      ReplyOfferedIffNotResolved(pending[i]);
    }
    var resolved := FilteredComplaints(cs, query, ResolvedStatus);
    forall i | 0 <= i < |resolved| ensures !ReplyOffered(resolved[i]) {
      ReplyOfferedIffNotResolved(resolved[i]);
    }
  }

  /** The Reply button: it opens the reply box of its complaint, or closes it when already open. */
  function ToggleReply(activeReplyId: Option<string>, id: string): (r: Option<string>)
    ensures r == Some(id) <==> activeReplyId != Some(id)
    ensures r != Some(id) ==> r.None?
  {
    if activeReplyId == Some(id) then None else Some(id)
  }

  /** The reply box's state. */
  datatype ReplyState = ReplyState(activeReplyId: Option<string>, replyText: string)

  /** The body of `respondToComplaint`. */
  datatype ResponseBody = ResponseBody(responseText: string, status: string)

  /**
   * After `handleSendReply`: the request made (complaint id and body), the
   * browser after the response interceptor, any hard navigation, the reply
   * box, and whether the list is fetched again.
   */
  datatype Sent = Sent(
    request: Option<(string, ResponseBody)>,
    client: Client,
    navigate: Option<string>,
    state: ReplyState,
    refetch: bool)

  /** `handleSendReply`; a rejected call is swallowed. */
  function SendReply(c: Client, st: ReplyState, complaintId: string, reply: Api.Outcome<()>): (r: Sent)
    ensures r.request.None? <==> AllSpace(st.replyText)
    ensures r.request.None? ==> r.client == c && r.navigate.None? && r.state == st && !r.refetch
    ensures r.request.Some? ==>
              && r.request.value.0 == complaintId
              && r.request.value.1.status == ResolvedStatus
              && r.request.value.1.responseText == Trim(st.replyText)
              && r.request.value.1.responseText != ""
              && r.client == Api.Intercept(c, reply).client
              && r.navigate == Api.Intercept(c, reply).navigate
    ensures r.request.Some? && reply.Resolved? ==> r.state == ReplyState(None, "") && r.refetch
    ensures r.request.Some? && reply.Rejected? ==> r.state == st && !r.refetch
  {
    TrimEmptyIffAllSpace(st.replyText);
    var text := Trim(st.replyText);
    if text == "" then Sent(None, c, None, st, false)
    else
      var call := Api.Intercept(c, reply);
      var request := Some((complaintId, ResponseBody(text, ResolvedStatus)));
      if call.outcome.Resolved? then Sent(request, call.client, call.navigate, ReplyState(None, ""), true)
      else Sent(request, call.client, call.navigate, st, false)
  }
}
