/**
 * The site header: the cart badge, the search box and the two menu toggles.
 */
module Header {
  import opened Wrappers
  import opened Text

  /** The badge over the cart icon: hidden for an empty cart, "99+" above 99, the count otherwise. */
  function BadgeText(cartCount: int): (r: Option<string>)
    ensures r.None? <==> cartCount <= 0
    ensures r == Some("99+") <==> cartCount > 99
    ensures 0 < cartCount <= 99 ==> r == Some(NatToString(cartCount))
  {
    if cartCount <= 0 then None
    else if cartCount > 99 then Some("99+")
    else
      assert NatToString(cartCount) != "99+" by {
        assert !IsDigit("99+"[2]);
      }
      Some(NatToString(cartCount))
  }

  /** A badge that shows a number shows the exact count, read back as digits. */
  lemma BadgeCountsExactly(cartCount: nat)
    requires 0 < cartCount <= 99
    ensures BadgeText(cartCount).Some?
    ensures var t := BadgeText(cartCount).value; |t| <= 2 && DigitsValue(t) == cartCount
  {
    NatToStringRoundTrip(cartCount);
    NatToStringLength(cartCount);
  }

  class HeaderState {
    var isMenuOpen: bool
    var isUserMenuOpen: bool
    var searchQuery: string
    /** The queries of the searches navigated to, oldest first. */
    var searches: seq<string>

    constructor()
      ensures !isMenuOpen && !isUserMenuOpen && searchQuery == "" && searches == []
    {
      isMenuOpen := false;
      isUserMenuOpen := false;
      searchQuery := "";
      searches := [];
    }

    /** Typing in the search box. */
    method SetQuery(text: string)
      modifies this
      ensures searchQuery == text && searches == old(searches)
      ensures isMenuOpen == old(isMenuOpen) && isUserMenuOpen == old(isUserMenuOpen)
    {
      searchQuery := text;
    }

    /** `handleSearch`: a query that is not all whitespace navigates with the trimmed query and
        clears the box; an all-whitespace one does nothing. */
    method HandleSearch()
      modifies this
      ensures Trim(old(searchQuery)) == "" ==> searchQuery == old(searchQuery) && searches == old(searches)
      ensures Trim(old(searchQuery)) != "" ==>
        searchQuery == "" && searches == old(searches) + [Trim(old(searchQuery))]
      ensures isMenuOpen == old(isMenuOpen) && isUserMenuOpen == old(isUserMenuOpen)
    {
      var q := Trim(searchQuery);
      if q != "" {
        searches := searches + [q];
        searchQuery := "";
      }
    }

    /** The account button. */
    method ToggleUserMenu()
      modifies this
      ensures isUserMenuOpen == !old(isUserMenuOpen)
      ensures isMenuOpen == old(isMenuOpen) && searchQuery == old(searchQuery) && searches == old(searches)
    {
      isUserMenuOpen := !isUserMenuOpen;
    }

    /** Any link of the user menu closes it. */
    method FollowUserMenuLink()
      modifies this
      ensures !isUserMenuOpen
      ensures isMenuOpen == old(isMenuOpen) && searchQuery == old(searchQuery) && searches == old(searches)
    {
      isUserMenuOpen := false;
    }

    /** The mobile menu button. */
    method ToggleMenu()
      modifies this
      ensures isMenuOpen == !old(isMenuOpen)
      ensures isUserMenuOpen == old(isUserMenuOpen) && searchQuery == old(searchQuery) && searches == old(searches)
    {
      isMenuOpen := !isMenuOpen;
    }
  }

  /** A navigated query is never blank and has no surrounding whitespace. */
  lemma SearchedQueryIsTrimmed(query: string)
    requires Trim(query) != ""
    ensures !AllWhitespace(query)
    ensures !IsWhitespace(Trim(query)[0]) && !IsWhitespace(Trim(query)[|Trim(query)| - 1])
  {
  }
}
