/** The desktop sidebar (src/components/Sidebar.tsx): a fixed list of links, the
    one whose path equals the current pathname highlighted, and an
    expand/collapse toggle. */
module Sidebar {
  import opened Types

  datatype NavItem = NavItem(to: string, caption: string)

  const NavItems: seq<NavItem> := [
    NavItem("/", "Discover"),
    NavItem("/create-event", "Create Event"),
    NavItem("/my-events", "My Events"),
    NavItem("/Listyourevent", "List Your Event"),
    NavItem("/play", "Play"),
    NavItem("/offers", "Offers"),
    NavItem("/premium", "Premium Plan")
  ]

  /** A link is highlighted iff the pathname is exactly its path: no prefix match. */
  predicate IsActive(pathname: string, path: string)
    ensures IsActive(pathname, path) <==> pathname == path
  {
    pathname == path
  }

  /** No two links share a path. */
  lemma NavPathsDistinct()
    ensures forall i, j :: 0 <= i < j < |NavItems| ==> NavItems[i].to != NavItems[j].to
  {
    assert NavItems[0].to[1..] == "";
    assert NavItems[1].to[1] == 'c' && NavItems[2].to[1] == 'm' && NavItems[3].to[1] == 'L';
    assert NavItems[4].to[1] == 'p' && NavItems[5].to[1] == 'o' && NavItems[6].to[1] == 'p';
    assert NavItems[4].to[2] == 'l' && NavItems[6].to[2] == 'r';
  }

  /** For any pathname at most one link is highlighted. */
  lemma AtMostOneActive(pathname: string, i: int, j: int)
    requires 0 <= i < |NavItems| && 0 <= j < |NavItems|
    requires IsActive(pathname, NavItems[i].to) && IsActive(pathname, NavItems[j].to)
    ensures i == j
  {
    NavPathsDistinct();
    if i < j {
    } else if j < i {
    }
  }

  /** The home link is not highlighted on an event page. */
  lemma HomeNotActiveOnEventPage(id: string)
    ensures !IsActive("/event/" + id, NavItems[0].to)
  {
    assert ("/event/" + id)[1] == 'e';
  }

  /** The rendered link list: each item with its highlight. */
  function Links(pathname: string): (r: seq<(NavItem, bool)>)
    ensures |r| == |NavItems|
    ensures forall i :: 0 <= i < |r| ==> r[i].0 == NavItems[i] && (r[i].1 <==> pathname == NavItems[i].to)
  {
    seq(|NavItems|, i requires 0 <= i < |NavItems| => (NavItems[i], IsActive(pathname, NavItems[i].to)))
  }

  datatype SidebarView = SidebarView(links: seq<(NavItem, bool)>, labelsVisible: bool,
                                     supportShown: bool, toggleCaption: Option<string>)

  class SidebarState {
    var isExpanded: bool

    constructor ()
      ensures isExpanded
    {
      isExpanded := true;
    }

    /** The collapse/expand button. */
    method Toggle()
      modifies this
      ensures isExpanded == !old(isExpanded)
    {
      isExpanded := !isExpanded;
    }

    /** Two clicks on the toggle restore the state. */
    method ToggleTwice()
      modifies this
      ensures isExpanded == old(isExpanded)
    {
      Toggle();
      Toggle();
    }

    /** The rendered sidebar: the links with their highlights; labels, the
        support section and the "Collapse" caption only while expanded. */
    function View(pathname: string): (v: SidebarView)
      reads this
      ensures v.links == Links(pathname)
      ensures v.labelsVisible <==> isExpanded
      ensures v.supportShown <==> isExpanded
      ensures v.toggleCaption == (if isExpanded then Some("Collapse") else None)
    {
      SidebarView(Links(pathname), isExpanded, isExpanded, if isExpanded then Some("Collapse") else None)
    }
  }
}
