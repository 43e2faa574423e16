/** The navigation bar (src/components/Navbar.tsx): the search box and its
    results panel, the profile dropdown (desktop) and drop-up (mobile), the
    mobile search overlay, and the cached session. */
module Navbar {
  import opened Types
  import opened Effects
  import opened Storage

  /** Terms shorter than this, in UTF-16 code units as `.length` counts them,
      clear the results instead of searching. */
  const MinSearchLength := 2

  /** A single character outside the Basic Multilingual Plane (an emoji, say)
      already has length 2, so it is a searchable term. */
  lemma AstralCharacterIsSearchable(c: char)
    requires c as int > 0xFFFF
    ensures Utf16Length([c]) >= MinSearchLength && |[c]| < MinSearchLength
  {
  }

  /** The request the debounced search issues for a term. */
  function SearchRequest(term: string): Effect {
    Request(Get, "/events?search=" + term + "&limit=5", NoBody)
  }

  /** The desktop results panel. */
  datatype Panel = Hidden | Searching | ResultList(items: seq<SearchResult>) | NoEventsFound

  /** The mobile overlay's body: an optional "Searching..." note, an optional
      "No results found" note, and the list, which is rendered from the results
      whether or not the panel flag is set. */
  datatype MobileBody = MobileBody(searchingNote: bool, noResultsNote: bool, items: seq<SearchResult>)

  class NavbarState {
    var user: Option<User>
    var showMobileSearch: bool
    var showProfileDropUp: bool
    var searchTerm: string
    var searchResults: seq<SearchResult>
    var isSearching: bool
    var showResults: bool
    var showProfileDropdown: bool

    constructor ()
      ensures user.None? && !showMobileSearch && !showProfileDropUp && searchTerm == ""
      ensures searchResults == [] && !isSearching && !showResults && !showProfileDropdown
    {
      user := None;
      showMobileSearch := false;
      showProfileDropUp := false;
      searchTerm := "";
      searchResults := [];
      isSearching := false;
      showResults := false;
      showProfileDropdown := false;
    }

    /** `loadUser`: the cached user, or none. */
    method LoadUser(st: Store)
      modifies this`user
      ensures user == StoredUser(st)
    {
      user := StoredUser(st);
    }

    /** Typing in either search box, followed by the effect on the new term: a
        short term clears the results and hides the panel; a longer one arms the
        debounce timer (`scheduled`). An unchanged term does not re-run the effect. */
    method SetSearchTerm(term: string) returns (scheduled: bool)
      modifies this`searchTerm, this`searchResults, this`showResults
      ensures searchTerm == term
      ensures scheduled <==> term != old(searchTerm) && Utf16Length(term) >= MinSearchLength
      ensures term != old(searchTerm) && Utf16Length(term) < MinSearchLength ==> searchResults == [] && !showResults
      ensures term == old(searchTerm) || Utf16Length(term) >= MinSearchLength ==>
                searchResults == old(searchResults) && showResults == old(showResults)
    {
      scheduled := false;
      if term == searchTerm {
        return;
      }
      searchTerm := term;
      if Utf16Length(term) < MinSearchLength {
        searchResults := [];
        showResults := false;
      } else {
        scheduled := true;
      }
    }

    /** The debounce timer fires: the search starts and the request is issued.
        A timer exists only for a term of at least two characters. */
    method BeginSearch() returns (fx: Effect)
      requires Utf16Length(searchTerm) >= MinSearchLength
      modifies this`isSearching
      ensures isSearching
      ensures fx == SearchRequest(searchTerm)
    {
      isSearching := true;
      fx := SearchRequest(searchTerm);
    }

    /** The search request settled: results are shown on success; searching ends either way. */
    method FinishSearch(reply: Reply<seq<SearchResult>>)
      modifies this`searchResults, this`showResults, this`isSearching
      ensures !isSearching
      ensures reply.Success? ==> searchResults == reply.data && showResults
      ensures reply.Failure? ==> searchResults == old(searchResults) && showResults == old(showResults)
    {
      if reply.Success? {
        searchResults := reply.data;
        showResults := true;
      }
      isSearching := false;
    }

    /** Focusing the desktop box re-opens the panel only for a long enough term. */
    method Focus()
      modifies this`showResults
      ensures Utf16Length(searchTerm) >= MinSearchLength ==> showResults
      ensures Utf16Length(searchTerm) < MinSearchLength ==> showResults == old(showResults)
    {
      if Utf16Length(searchTerm) >= MinSearchLength {
        showResults := true;
      }
    }

    /** The desktop results panel: hidden, "Searching...", the list, or "No events found.". */
    function DesktopPanel(): (p: Panel)
      reads this
      ensures p == Hidden <==> !showResults
      ensures p == Searching <==> showResults && isSearching
      ensures p.ResultList? <==> showResults && !isSearching && |searchResults| > 0
      ensures p.ResultList? ==> p.items == searchResults
      ensures p == NoEventsFound <==> showResults && !isSearching && searchResults == []
    {
      if !showResults then Hidden
      else if isSearching then Searching
      else if |searchResults| > 0 then ResultList(searchResults)
      else NoEventsFound
    }

    /** The mobile overlay's body, which tests the flags separately. */
    function MobilePanel(): (b: MobileBody)
      reads this
      ensures b.searchingNote <==> isSearching
      ensures b.noResultsNote <==> !isSearching && showResults && searchResults == []
      ensures b.items == searchResults
      ensures !(b.searchingNote && b.noResultsNote)
    {
      MobileBody(isSearching, !isSearching && showResults && |searchResults| == 0, searchResults)
    }

    /** A mousedown anywhere. The profile area exists only while a user is
        shown; a press outside it closes both profile menus. A press outside the
        desktop search box hides the results. */
    method MouseDown(inProfileArea: bool, inSearchBox: bool)
      modifies this`showProfileDropdown, this`showProfileDropUp, this`showResults
      ensures user.Some? && !inProfileArea ==> !showProfileDropdown && !showProfileDropUp
      ensures !(user.Some? && !inProfileArea) ==>
                showProfileDropdown == old(showProfileDropdown) && showProfileDropUp == old(showProfileDropUp)
      ensures !inSearchBox ==> !showResults
      ensures inSearchBox ==> showResults == old(showResults)
    {
      if user.Some? && !inProfileArea {
        showProfileDropdown := false;
        showProfileDropUp := false;
      }
      if !inSearchBox {
        showResults := false;
      }
    }

    /** The mobile search button opens the overlay. */
    method OpenMobileSearch()
      modifies this`showMobileSearch
      ensures showMobileSearch
    {
      showMobileSearch := true;
    }

    /** The overlay's back button: close it, clear the term, hide the results.
        Clearing a non-empty term runs the search effect, which empties the results. */
    method Back()
      modifies this`showMobileSearch, this`searchTerm, this`showResults, this`searchResults
      ensures !showMobileSearch && searchTerm == "" && !showResults
      ensures old(searchTerm) != "" ==> searchResults == []
      ensures old(searchTerm) == "" ==> searchResults == old(searchResults)
    {
      showMobileSearch := false;
      var scheduled := SetSearchTerm("");
      showResults := false;
    }

    /** Choosing a desktop result hides the panel and opens the event. */
    method ChooseDesktopResult(r: SearchResult) returns (fx: Effect)
      modifies this`showResults
      ensures !showResults && fx == Navigate("/event/" + r.docId, false)
    {
      showResults := false;
      fx := Navigate("/event/" + r.docId, false);
    }

    /** Choosing a mobile result closes the overlay and opens the event. */
    method ChooseMobileResult(r: SearchResult) returns (fx: Effect)
      modifies this`showMobileSearch
      ensures !showMobileSearch && fx == Navigate("/event/" + r.docId, false)
    {
      showMobileSearch := false;
      fx := Navigate("/event/" + r.docId, false);
    }

    /** The desktop profile button. */
    method ToggleProfileDropdown()
      modifies this`showProfileDropdown
      ensures showProfileDropdown == !old(showProfileDropdown)
    {
      showProfileDropdown := !showProfileDropdown;
    }

    /** The mobile profile button. */
    method ToggleProfileDropUp()
      modifies this`showProfileDropUp
      ensures showProfileDropUp == !old(showProfileDropUp)
    {
      showProfileDropUp := !showProfileDropUp;
    }

    /** A link of the desktop dropdown (profile, settings, premium) closes it. */
    method DropdownLink(target: string) returns (fx: Effect)
      requires target in {"/profile-update", "/settings", "/premium"}
      modifies this`showProfileDropdown
      ensures !showProfileDropdown && fx == Navigate(target, false)
    {
      showProfileDropdown := false;
      fx := Navigate(target, false);
    }

    /** The drop-up's Premium link clears the desktop dropdown flag; the drop-up
        itself stays as it was. */
    method DropUpPremium() returns (fx: Effect)
      modifies this`showProfileDropdown
      ensures !showProfileDropdown && fx == Navigate("/premium", false)
    {
      showProfileDropdown := false;
      fx := Navigate("/premium", false);
    }

    /** The drop-up's Login link, shown without a user. */
    method DropUpLogin() returns (fx: Effect)
      modifies this`showProfileDropUp
      ensures !showProfileDropUp && fx == Navigate("/login", false)
    {
      showProfileDropUp := false;
      fx := Navigate("/login", false);
    }

    /** `handleLogout`: clear all storage, broadcast `auth-change` (whose listener
        reloads the now absent user) and go to the login page. */
    method Logout(st: Store) returns (st': Store, fx: seq<Effect>)
      modifies this`user
      ensures st' == Cleared && StoredUser(st').None? && !Present(st', TokenKey)
      ensures user.None?
      ensures fx == [AuthChange, Navigate("/login", false)]
    {
      st' := Cleared;
      ClearedHasNoSession();
      LoadUser(st');
      fx := [AuthChange, Navigate("/login", false)];
    }

    /** The drop-up's Sign out button: close the drop-up, then log out. */
    method DropUpSignOut(st: Store) returns (st': Store, fx: seq<Effect>)
      modifies this`showProfileDropUp, this`user
      ensures !showProfileDropUp && user.None? && st' == Cleared
      ensures fx == [AuthChange, Navigate("/login", false)]
    {
      showProfileDropUp := false;
      st', fx := Logout(st);
    }
  }
}
