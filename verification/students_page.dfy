/**
 * The instructor students page: the placeholder roster it builds from the
 * instructor's courses, the course picker's options, and its filter.
 */
module StudentsPage {
  import opened Base
  import opened Strings
  import opened Seqs
  import opened Search
  import opened Courses

  const AllCourses: string := "ALL"
  const EmailDomain: string := "@edu.test"

  /** A roster row; the enrolment date, derived from the clock, is not modelled. */
  datatype Row = Row(id: string, name: string, email: string, course: string, progress: int)

  /** How many placeholder students the course at position `idx` gets. */
  function PerCourse(idx: nat): (k: nat)
    ensures 2 <= k <= 5 && k < 5 + idx
  {
    Min(5, 2 + idx)
  }

  /** The total number of rows `n` courses produce. */
  function RowCount(n: nat): nat {
    if n == 0 then 0 else RowCount(n - 1) + PerCourse(n - 1)
  }

  /** The row count grows 2, 3, 4 and then 5 per course. */
  lemma {:induction false} RowCountClosedForm(n: nat)
    ensures n <= 3 ==> RowCount(n) == 2 * n + n * (n - 1) / 2
    ensures n >= 3 ==> RowCount(n) == 9 + 5 * (n - 3)
    decreases n
  {
    if n > 0 {
      RowCountClosedForm(n - 1);
    }
  }

  /** `student${idx + 1}${sIdx + 1}@edu.test`. */
  function Email(idx: nat, sIdx: nat): string {
    "student" + NatToString(idx + 1) + NatToString(sIdx + 1) + EmailDomain
  }

  /** A quotient of something below `m * d` by `d` is below `m`. */
  lemma QuotientBelow(a: nat, d: nat, m: nat)
    requires d > 0 && a < m * d
    ensures a / d < m
  {
    if a / d >= m {
      assert d * (a / d) >= d * m by {
        var q := a / d;
        assert q - m >= 0;
        assert d * (q - m) >= 0;
      }
    }
  }

  /**
   * `Math.floor((sIdx + 1) / (5 + idx) * 100)`, computed on integers: the
   * share of the course's placeholder students up to this one, in percent.
   */
  function Progress(idx: nat, sIdx: nat): (p: int)
    requires sIdx < PerCourse(idx)
    ensures 0 <= p < 100
  {
    QuotientBelow(100 * (sIdx + 1), 5 + idx, 100);
    100 * (sIdx + 1) / (5 + idx)
  }

  /** The row for student `sIdx` of the course at position `idx`. */
  function RowFor(c: Course, idx: nat, sIdx: nat): (r: Row)
    requires sIdx < PerCourse(idx)
    ensures r.id == OrElse(c.id, NatToString(idx)) + "-s-" + NatToString(sIdx)
    ensures r.name == "Student " + NatToString(idx + 1) + "-" + NatToString(sIdx + 1)
    ensures r.email == Email(idx, sIdx)
    ensures r.course == CourseTitle(c, idx)
    ensures r.progress == Progress(idx, sIdx)
  {
    Row(OrElse(c.id, NatToString(idx)) + "-s-" + NatToString(sIdx),
        "Student " + NatToString(idx + 1) + "-" + NatToString(sIdx + 1),
        Email(idx, sIdx),
        CourseTitle(c, idx),
        Progress(idx, sIdx))
  }

  /** The position of a row: its course's index and its index within the course. */
  type Slot = (nat, nat)

  /** Orders slots course by course: course `idx` gets the block 10(idx+1)+1 .. 10(idx+1)+5. */
  function Key(slot: Slot): nat {
    10 * (slot.0 + 1) + slot.1 + 1
  }

  /** Every slot `n` courses fill, in the order the rows are produced. */
  function Slots(n: nat): (r: seq<Slot>)
    ensures |r| == RowCount(n)
    ensures forall k :: 0 <= k < |r| ==> r[k].0 < n && r[k].1 < PerCourse(r[k].0)
    ensures forall k, l :: 0 <= k < l < |r| ==> Key(r[k]) < Key(r[l])
    decreases n
  {
    if n == 0 then []
    else Slots(n - 1) + seq(PerCourse(n - 1), s requires 0 <= s < PerCourse(n - 1) => (n - 1, s))
  }

  /** Every student index of every course has its slot. */
  lemma {:induction false} SlotsComplete(n: nat, idx: nat, sIdx: nat)
    requires idx < n && sIdx < PerCourse(idx)
    ensures (idx, sIdx) in Slots(n)
    decreases n
  {
    var block := seq(PerCourse(n - 1), s requires 0 <= s < PerCourse(n - 1) => (n - 1, s));
    assert Slots(n) == Slots(n - 1) + block;
    if idx < n - 1 {
      SlotsComplete(n - 1, idx, sIdx);
    } else {
      assert block[sIdx] == (idx, sIdx);
    }
  }

  /** `courses.flatMap(...)`: each course's block of rows, course after course. */
  function Synthetic(courses: seq<Course>): (r: seq<Row>)
    ensures |r| == RowCount(|courses|)
    decreases |courses|
  {
    if |courses| == 0 then []
    else
      var n := |courses| - 1;
      Synthetic(courses[..n]) + seq(PerCourse(n), s requires 0 <= s < PerCourse(n) => RowFor(courses[n], n, s))
  }

  /** Row `k` of the roster is the row for the `k`-th slot. */
  predicate RowAtSlot(courses: seq<Course>, rows: seq<Row>, k: nat)
    requires |rows| == RowCount(|courses|) && k < |rows|
  {
    var slot := Slots(|courses|)[k];
    rows[k] == RowFor(courses[slot.0], slot.0, slot.1)
  }

  /** The flattened roster lists, at each position, the row of the matching course and student. */
  lemma {:induction false} SyntheticBySlot(courses: seq<Course>)
    ensures forall k :: 0 <= k < |Synthetic(courses)| ==> RowAtSlot(courses, Synthetic(courses), k)
    decreases |courses|
  {
    if |courses| > 0 {
      var n := |courses| - 1;
      var init := courses[..n];
      SyntheticBySlot(init);
      var prefix := Synthetic(init);
      var block := seq(PerCourse(n), s requires 0 <= s < PerCourse(n) => RowFor(courses[n], n, s));
      var slotBlock: seq<Slot> := seq(PerCourse(n), s requires 0 <= s < PerCourse(n) => (n, s));
      var r := Synthetic(courses);
      assert r == prefix + block;
      assert Slots(n + 1) == Slots(n) + slotBlock;
      forall k | 0 <= k < |r| ensures RowAtSlot(courses, r, k) {
        if k < |prefix| {
          assert RowAtSlot(init, prefix, k);
          var slot := Slots(n)[k];
          assert Slots(n + 1)[k] == slot;
          assert init[slot.0] == courses[slot.0];
        } else {
          assert Slots(n + 1)[k] == (n, k - |prefix|);
        }
      }
    }
  }

  /** Every synthetic student shows less than full progress. */
  lemma ProgressBelowHundred(courses: seq<Course>)
    ensures forall k :: 0 <= k < |Synthetic(courses)| ==> 0 <= Synthetic(courses)[k].progress < 100
  {
    SyntheticBySlot(courses);
  }

  /** `p + a + s == p + b + s` only when `a == b`. */
  lemma CancelAffixes(p: string, a: string, b: string, s: string)
    requires p + a + s == p + b + s
    ensures a == b
  {
    var x := p + a + s;
    assert |a| == |b|;
    assert a == x[|p|..|p| + |a|];
    assert b == x[|p|..|p| + |b|];
  }

  /** The two numbers run together in the address read as one number, course block first. */
  lemma EmailIsKey(idx: nat, sIdx: nat)
    requires sIdx < PerCourse(idx)
    ensures Email(idx, sIdx) == "student" + NatToString(Key((idx, sIdx))) + EmailDomain
  {
    NatToStringAppendDigit(idx + 1, sIdx + 1);
    assert NatToString(sIdx + 1) == [DigitChar(sIdx + 1)];
  }

  /** No two synthetic students share an e-mail address. */
  lemma EmailsDistinct(courses: seq<Course>)
    ensures var r := Synthetic(courses);
            forall k, l :: 0 <= k < l < |r| ==> r[k].email != r[l].email
  {
    var r := Synthetic(courses);
    var slots := Slots(|courses|);
    SyntheticBySlot(courses);
    forall k, l | 0 <= k < l < |r| ensures r[k].email != r[l].email {
      assert RowAtSlot(courses, r, k) && RowAtSlot(courses, r, l);
      EmailIsKey(slots[k].0, slots[k].1);
      EmailIsKey(slots[l].0, slots[l].1);
      if r[k].email == r[l].email {
        CancelAffixes("student", NatToString(Key(slots[k])), NatToString(Key(slots[l])), EmailDomain);
        NatToStringInjective(Key(slots[k]), Key(slots[l]));
      }
    }
  }

  /** Every course contributes its whole block: each student index of each course has its row. */
  lemma RosterComplete(courses: seq<Course>, idx: nat, sIdx: nat)
    requires idx < |courses| && sIdx < PerCourse(idx)
    ensures RowFor(courses[idx], idx, sIdx) in Synthetic(courses)
  {
    SlotsComplete(|courses|, idx, sIdx);
    var slots := Slots(|courses|);
    var k :| 0 <= k < |slots| && slots[k] == (idx, sIdx);
    SyntheticBySlot(courses);
    assert RowAtSlot(courses, Synthetic(courses), k);
    assert Synthetic(courses)[k] == RowFor(courses[idx], idx, sIdx);
  }

  /** Each row's course name. */
  function CourseNames(rows: seq<Row>): (names: seq<string>)
    ensures |names| == |rows|
    ensures forall k :: 0 <= k < |rows| ==> names[k] == rows[k].course
  {
    seq(|rows|, k requires 0 <= k < |rows| => rows[k].course)
  }

  /** `courseOptions`: `ALL`, then each course name once, in order of first appearance. */
  function CourseOptions(rows: seq<Row>): (r: seq<string>)
    ensures |r| >= 1 && r[0] == AllCourses
    ensures forall i :: 1 <= i < |r| ==> r[i] in CourseNames(rows)
    ensures forall k :: 0 <= k < |rows| ==> rows[k].course in r[1..]
    ensures NoDuplicates(r[1..])
    ensures forall i, j :: 1 <= i < j < |r| ==>
              FirstIndex(CourseNames(rows), r[i]) < FirstIndex(CourseNames(rows), r[j])
  {
    var names := CourseNames(rows);
    DistinctFirstAppearance(names);
    var r := [AllCourses] + Distinct(names);
    assert r[1..] == Distinct(names);
    r
  }

  /** The picker lists no option twice iff no course is itself named `ALL`. */
  lemma CourseOptionsDistinctIff(rows: seq<Row>)
    ensures NoDuplicates(CourseOptions(rows)) <==> forall k :: 0 <= k < |rows| ==> rows[k].course != AllCourses
  {
    var r := CourseOptions(rows);
    var names := CourseNames(rows);
    if forall k :: 0 <= k < |rows| ==> rows[k].course != AllCourses {
      forall i, j | 0 <= i < j < |r| ensures r[i] != r[j] {
        if i == 0 {
          assert r[j] in names;
          var k :| 0 <= k < |names| && names[k] == r[j];
        } else {
          assert r[i] == r[1..][i - 1] && r[j] == r[1..][j - 1];
        }
      }
    } else {
      var k :| 0 <= k < |rows| && rows[k].course == AllCourses;
      assert AllCourses in r[1..];
      var j :| 0 <= j < |r[1..]| && r[1..][j] == AllCourses;
      assert r[0] == r[j + 1];
    }
  }

  /** The course test: `ALL` passes every row, any other choice only rows of exactly that course. */
  predicate MatchesCourse(row: Row, courseFilter: string) {
    courseFilter == AllCourses || row.course == courseFilter
  }

  /** The searched fields: the student's name and e-mail address. */
  function SearchFields(row: Row): seq<string> {
    [row.name, row.email]
  }

  function Keeper(q: string, courseFilter: string): Row -> bool {
    row => Matches(q, SearchFields(row)) && MatchesCourse(row, courseFilter)
  }

  /** `filtered`. */
  function Filtered(rows: seq<Row>, query: string, courseFilter: string): (r: seq<Row>)
    ensures IsSubsequence(r, rows)
    ensures forall i :: 0 <= i < |r| ==>
              Matches(Normalize(query), SearchFields(r[i])) && MatchesCourse(r[i], courseFilter)
    ensures forall i :: 0 <= i < |rows| ==>
              (Matches(Normalize(query), SearchFields(rows[i])) && MatchesCourse(rows[i], courseFilter)
               ==> rows[i] in r)
    ensures forall x :: multiset(r)[x] ==
              if Matches(Normalize(query), SearchFields(x)) && MatchesCourse(x, courseFilter) then multiset(rows)[x] else 0
  {
    FilterIsSubsequence(rows, Keeper(Normalize(query), courseFilter));
    FilterCounts(rows, Keeper(Normalize(query), courseFilter));
    Filter(rows, Keeper(Normalize(query), courseFilter))
  }

  /** A blank search box with course `ALL` lists every row. */
  lemma BlankSearchShowsAll(rows: seq<Row>, query: string)
    requires AllSpace(query)
    ensures Filtered(rows, query, AllCourses) == rows
  {
    FilterKeepsAll(rows, Keeper(Normalize(query), AllCourses));
  }

  /** Picking a course narrows the `ALL` list without reordering it. */
  lemma CourseNarrowsAll(rows: seq<Row>, query: string, courseFilter: string)
    ensures Filtered(rows, query, courseFilter) ==
              Filter(Filtered(rows, query, AllCourses), row => MatchesCourse(row, courseFilter))
  {
    var q := Normalize(query);
    FilterFilter(rows, Keeper(q, AllCourses), row => MatchesCourse(row, courseFilter), Keeper(q, courseFilter));
  }
}
