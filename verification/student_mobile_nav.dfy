/** `StudentMobileNav`: the bottom bar of the student area on small screens. */
module StudentMobileNav {
  import opened Base
  import opened Strings
  import opened Users

  datatype NavItem = NavItem(href: string, caption: string)

  const Items: seq<NavItem> := [
    NavItem("/student/dashboard", "Home"),
    NavItem("/student/courses", "Courses"),
    NavItem("/student/assignments", "Tasks"),
    NavItem("/student/support", "Support"),
    NavItem("/student/settings", "Settings")
  ]

  /** A rendered entry: the item and whether it is highlighted. */
  datatype Entry = Entry(item: NavItem, active: bool)

  /**
   * The bar is rendered for any `/student`-prefixed pathname (a plain string
   * prefix) unless a signed-in user's role is not STUDENT; a missing
   * pathname hides it. Each item is active iff the pathname is its href.
   */
  function Render(pathname: Option<string>, user: Option<User>): (r: Option<seq<Entry>>)
    ensures r.Some? <==>
              pathname.Some? && StartsWith(pathname.value, "/student") && (user.None? || user.value.role == StudentRole)
    ensures r.Some? ==> |r.value| == 5
    ensures r.Some? ==> forall i :: 0 <= i < 5 ==>
              r.value[i].item == Items[i] && (r.value[i].active <==> pathname == Some(Items[i].href))
  {
    if pathname.None? || !StartsWith(pathname.value, "/student") || (user.Some? && user.value.role != StudentRole) then None
    else Some(seq(5, i requires 0 <= i < 5 => Entry(Items[i], pathname.value == Items[i].href)))
  }

  /** The five hrefs are pairwise distinct, so at most one entry is ever active. */
  lemma AtMostOneActive(pathname: Option<string>, user: Option<User>)
    ensures var r := Render(pathname, user);
            r.Some? ==> forall i, j :: 0 <= i < j < 5 ==> !(r.value[i].active && r.value[j].active)
  {
    assert Items[0].href[9] == 'd' && Items[1].href[9] == 'c' && Items[2].href[9] == 'a';
    assert Items[3].href[9] == 's' && Items[4].href[9] == 's';
    assert Items[3].href[10] == 'u' && Items[4].href[10] == 'e';
  }

  /** Anonymous visitors see the bar, including on look-alike paths such as `/studentx`; staff never do. */
  lemma Visibility(u: User)
    requires u.role != StudentRole
    ensures Render(Some("/studentx"), None).Some?
    ensures Render(Some("/student/courses"), None).Some?
    ensures Render(Some("/student/courses"), Some(u)).None?
    ensures Render(None, None).None?
    ensures Render(Some("/stud"), None).None?
  {
    assert "/studentx"[..8] == "/student";
    assert "/student/courses"[..8] == "/student";
  }
}
