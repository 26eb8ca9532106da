/**
 * The site header: which navigation link is highlighted for the current
 * route, whether the page has scrolled far enough for the solid background,
 * and the mobile menu that opens and closes.
 */
module Header {
  import opened JsString

  datatype NavItem = NavItem(text: string, href: string)

  /** The navigation links, in display order. */
  const NavItems: seq<NavItem> := [
    NavItem("Home", "/"),
    NavItem("Facilities", "/facilities"),
    NavItem("Process", "/process"),
    NavItem("Impact", "/impact"),
    NavItem("Reports", "/reports"),
    NavItem("Industries", "/clients"),
    NavItem("Blogs", "/blogs"),
    NavItem("Contact", "/contact")
  ]

  /** `isActive(path)`: the link to `path` is highlighted while the browser is at `pathname`. */
  function IsActive(path: string, pathname: string): (r: bool)
    ensures path == "/" ==> (r <==> pathname == "/")
    ensures path != "/" ==> (r <==> StartsWith(pathname, path))
  {
    if path == "/" && pathname != "/" then false else StartsWith(pathname, path)
  }

  /** The scroll distance, in pixels, past which the header counts as scrolled. */
  const ScrollThreshold: real := 20.0

  /** The header uses the solid background when scrolled or away from the home page. */
  function HasSolidBackground(isScrolled: bool, pathname: string): (r: bool)
    ensures !r <==> pathname == "/" && !isScrolled
  {
    isScrolled || pathname != "/"
  }

  /** A section link is highlighted on its own sub-pages too. */
  lemma FacilitiesActiveOnSubpage()
    ensures IsActive("/facilities", "/facilities/aac")
    ensures !IsActive("/", "/facilities/aac")
  {
  }

  /** Every link is highlighted when the browser is exactly at its target. */
  lemma EachLinkActiveOnItsRoute(i: int)
    requires 0 <= i < |NavItems|
    ensures IsActive(NavItems[i].href, NavItems[i].href)
  {
  }

  /** When both `a` and `b` start `s`, the shorter one starts the longer one. */
  lemma PrefixesNest(s: string, a: string, b: string)
    requires StartsWith(s, a) && StartsWith(s, b) && |a| <= |b|
    ensures StartsWith(b, a)
  {
  }

  /** The targets of the section links (all but Home) are pairwise not prefixes of one another. */
  lemma SectionHrefsUnrelated(i: int, j: int)
    requires 1 <= i < |NavItems| && 1 <= j < |NavItems| && i != j
    ensures !StartsWith(NavItems[j].href, NavItems[i].href)
  {
    var a, b := NavItems[i].href, NavItems[j].href;
    if a[1] != b[1] {
      DifferenceBlocksPrefix(a, b, 1);
    } else {
      DifferenceBlocksPrefix(a, b, 2);
    }
  }

  /** A string that differs from `s` at a position both have does not start `s`. */
  lemma DifferenceBlocksPrefix(a: string, s: string, k: int)
    requires 0 <= k < |a| && k < |s| && a[k] != s[k]
    ensures !StartsWith(s, a)
  {
  }

  /** At most one navigation link is highlighted, whatever the route. */
  lemma AtMostOneActive(pathname: string, i: int, j: int)
    requires 0 <= i < |NavItems| && 0 <= j < |NavItems|
    requires IsActive(NavItems[i].href, pathname) && IsActive(NavItems[j].href, pathname)
    ensures i == j
  {
    var a, b := NavItems[i].href, NavItems[j].href;
    if i != j {
      if i == 0 {
        assert false;
      } else if j == 0 {
        assert false;
      } else if |a| <= |b| {
        PrefixesNest(pathname, a, b);
        SectionHrefsUnrelated(i, j);
        assert false;
      } else {
        PrefixesNest(pathname, b, a);
        SectionHrefsUnrelated(j, i);
        assert false;
      }
    }
  }

  /** The header component's two state hooks. */
  class HeaderState {
    var isScrolled: bool
    var isMobileMenuOpen: bool

    /** Both flags start off. */
    constructor ()
      ensures !isScrolled && !isMobileMenuOpen
    {
      isScrolled := false;
      isMobileMenuOpen := false;
    }

    /** The window scroll listener. */
    method HandleScroll(scrollY: real)
      modifies this
      ensures isScrolled <==> scrollY > ScrollThreshold
      ensures isMobileMenuOpen == old(isMobileMenuOpen)
    {
      isScrolled := scrollY > ScrollThreshold;
    }

    /** The menu button flips the mobile menu. */
    method ToggleMobileMenu()
      modifies this
      ensures isMobileMenuOpen == !old(isMobileMenuOpen)
      ensures isScrolled == old(isScrolled)
    {
      isMobileMenuOpen := !isMobileMenuOpen;
    }

    /** A mobile navigation link or the mobile "Get Started" link closes the menu. */
    method CloseMobileMenu()
      modifies this
      ensures !isMobileMenuOpen
      ensures isScrolled == old(isScrolled)
    {
      isMobileMenuOpen := false;
    }

    /** The background class chosen on render. */
    method SolidBackground(pathname: string) returns (solid: bool)
      ensures solid == HasSolidBackground(isScrolled, pathname)
      ensures !solid ==> pathname == "/"
    {
      solid := HasSolidBackground(isScrolled, pathname);
    }
  }
}
