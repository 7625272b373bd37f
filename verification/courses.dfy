/** The course records `getMyCourses` returns, as the instructor list pages read them. */
module Courses {
  import opened Base
  import opened Strings

  /** Only the two fields the pages read; either may be missing. */
  datatype Course = Course(id: Option<string>, title: Option<string>)

  function Min(a: nat, b: nat): nat {
    if a <= b then a else b
  }

  /** `c.title || \`Course ${idx + 1}\``: the title shown for the course at position `idx`. */
  function CourseTitle(c: Course, idx: nat): (t: string)
    ensures t != ""
    ensures Truthy(c.title) ==> t == c.title.value
  {
    OrElse(c.title, "Course " + NatToString(idx + 1))
  }
}
