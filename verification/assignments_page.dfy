/**
 * The instructor assignments page: the placeholder list it builds from the
 * instructor's courses, and its search and status filter.
 */
module AssignmentsPage {
  import opened Base
  import opened Strings
  import opened Seqs
  import opened Search
  import opened Courses

  const AllStatuses: string := "ALL"
  const PendingStatus: string := "PENDING"
  const GradedStatus: string := "GRADED"

  /** How many courses get a placeholder assignment. */
  const SyntheticLimit: nat := 3

  /** An assignment summary; the due date, derived from the clock, is not modelled. */
  datatype Assignment = Assignment(
    id: string,
    title: string,
    courseTitle: Option<string>,
    submissionsCount: Option<int>,
    pendingCount: Option<int>)

  /** A missing course id interpolates as the text `undefined`. */
  function IdText(id: Option<string>): string {
    if id.Some? then id.value else "undefined"
  }

  /** The placeholder for the course at position `idx`. */
  function SyntheticEntry(c: Course, idx: nat): (a: Assignment)
    ensures a.id == "a-" + IdText(c.id) + "-" + NatToString(idx)
    ensures a.title == "Assignment " + NatToString(idx + 1)
    ensures a.courseTitle == Some(CourseTitle(c, idx))
    ensures a.submissionsCount == Some(10 * (idx + 1)) && a.pendingCount == Some(3 * (idx + 1))
  {
    Assignment("a-" + IdText(c.id) + "-" + NatToString(idx), "Assignment " + NatToString(idx + 1),
               Some(CourseTitle(c, idx)), Some(10 * (idx + 1)), Some(3 * (idx + 1)))
  }

  /** The list `fetchAssignments` stores: one placeholder for each of the first three courses. */
  function Synthetic(courses: seq<Course>): (r: seq<Assignment>)
    ensures |r| == Min(SyntheticLimit, |courses|)
    ensures |courses| == 0 ==> r == []
    ensures forall i :: 0 <= i < |r| ==> r[i] == SyntheticEntry(courses[i], i)
    ensures forall i :: 0 <= i < |r| ==> r[i].pendingCount.Some? && r[i].pendingCount.value > 0
  {
    seq(Min(SyntheticLimit, |courses|), i requires 0 <= i < Min(SyntheticLimit, |courses|) =>
      SyntheticEntry(courses[i], i))
  }

  /**
   * The placeholder ids are pairwise distinct, whatever the course ids:
   * each ends in its own single-digit position.
   */
  lemma SyntheticIdsDistinct(courses: seq<Course>)
    ensures var r := Synthetic(courses);
            forall i, j :: 0 <= i < j < |r| ==> r[i].id != r[j].id
  {
    var r := Synthetic(courses);
    forall i, j | 0 <= i < j < |r| ensures r[i].id != r[j].id {
      assert r[i].id[|r[i].id| - 1] == DigitChar(i);
      assert r[j].id[|r[j].id| - 1] == DigitChar(j);
    }
  }

  /** `a.pendingCount || 0`. */
  function Pending(a: Assignment): int {
    if a.pendingCount.Some? then a.pendingCount.value else 0
  }

  /** The status test: PENDING wants work to grade, any other non-ALL choice wants none. */
  predicate MatchesStatus(a: Assignment, status: string) {
    if status == AllStatuses then true
    else if status == PendingStatus then Pending(a) > 0
    else Pending(a) == 0
  }

  /** The searched fields: the title and the course title, a missing one read as `""`. */
  function SearchFields(a: Assignment): seq<string> {
    [a.title, OrElse(a.courseTitle, "")]
  }

  function Keeper(q: string, status: string): Assignment -> bool {
    a => Matches(q, SearchFields(a)) && MatchesStatus(a, status)
  }

  /** `filtered`. */
  function Filtered(xs: seq<Assignment>, query: string, status: string): (r: seq<Assignment>)
    ensures IsSubsequence(r, xs)
    ensures forall i :: 0 <= i < |r| ==>
              Matches(Normalize(query), SearchFields(r[i])) && MatchesStatus(r[i], status)
    ensures forall i :: 0 <= i < |xs| ==>
              (Matches(Normalize(query), SearchFields(xs[i])) && MatchesStatus(xs[i], status)
               ==> xs[i] in r)
    ensures forall x :: multiset(r)[x] ==
              if Matches(Normalize(query), SearchFields(x)) && MatchesStatus(x, status) then multiset(xs)[x] else 0
  {
    FilterIsSubsequence(xs, Keeper(Normalize(query), status));
    FilterCounts(xs, Keeper(Normalize(query), status));
    Filter(xs, Keeper(Normalize(query), status))
  }

  /** A blank search box with status `ALL` lists everything. */
  lemma BlankSearchShowsAll(xs: seq<Assignment>, query: string)
    requires AllSpace(query)
    ensures Filtered(xs, query, AllStatuses) == xs
  {
    FilterKeepsAll(xs, Keeper(Normalize(query), AllStatuses));
  }

  /**
   * With no negative pending counts, PENDING and GRADED split the `ALL`
   * list between them.
   */
  lemma StatusTabsPartition(xs: seq<Assignment>, query: string)
    requires forall i :: 0 <= i < |xs| ==> Pending(xs[i]) >= 0
    ensures |Filtered(xs, query, AllStatuses)| ==
              |Filtered(xs, query, PendingStatus)| + |Filtered(xs, query, GradedStatus)|
  {
    var q := Normalize(query);
    FilterPartition(xs, Keeper(q, AllStatuses), Keeper(q, PendingStatus), Keeper(q, GradedStatus));
  }

  /** A negative pending count is listed under ALL but under neither status tab. */
  lemma NegativePendingFallsBetweenTabs(a: Assignment)
    requires a.pendingCount == Some(-1)
    ensures MatchesStatus(a, AllStatuses)
    ensures !MatchesStatus(a, PendingStatus) && !MatchesStatus(a, GradedStatus)
  {
  }

  /** Every placeholder has work to grade: all of them show under PENDING and none under GRADED. */
  lemma SyntheticAllPending(courses: seq<Course>, query: string)
    ensures Filtered(Synthetic(courses), query, PendingStatus) == Filtered(Synthetic(courses), query, AllStatuses)
    ensures Filtered(Synthetic(courses), query, GradedStatus) == []
  {
    var r := Synthetic(courses);
    var q := Normalize(query);
    FilterFilter(r, Keeper(q, AllStatuses), a => MatchesStatus(a, PendingStatus), Keeper(q, PendingStatus));
    FilterKeepsAll(Filter(r, Keeper(q, AllStatuses)), a => MatchesStatus(a, PendingStatus));
    FilterKeepsNone(r, Keeper(q, GradedStatus));
  }
}
