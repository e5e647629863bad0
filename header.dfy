/**
 * The site header (`Header`): the navigation table, the rule that marks the
 * current section active, the submenu highlighting, the dropdown and cart
 * badge visibility, and the mobile menu's open/closed state.
 *
 * The pathname and the cart's item count are inputs; the mobile menu's
 * `isMenuOpen` state is a class.
 */
module Header {

  import opened Text

  datatype SubItem = SubItem(name: string, href: string)
  datatype MenuItem = MenuItem(name: string, href: string, submenu: seq<SubItem>)

  /** The navigation table. Icons are not modelled. */
  const MenuItems: seq<MenuItem> := [
    MenuItem("Home", "/", []),
    MenuItem("Literacy", "/literacy", [
      SubItem("Blog", "/literacy/blog"),
      SubItem("Reading Resources", "/literacy/reading"),
      SubItem("Writing Tools", "/literacy/writing")]),
    MenuItem("Numeracy", "/numeracy", [
      SubItem("Gallery", "/numeracy/gallery"),
      SubItem("Articles", "/numeracy/articles"),
      SubItem("Books", "/numeracy/books")]),
    MenuItem("Career Development", "/career", [
      SubItem("Career Paths", "/career/paths"),
      SubItem("Skills Development", "/career/skills"),
      SubItem("Success Stories", "/career/stories")]),
    MenuItem("Store", "/store", [
      SubItem("Books", "/store/books"),
      SubItem("Materials", "/store/materials"),
      SubItem("Free Downloads", "/store/free")]),
    MenuItem("About", "/about", []),
    MenuItem("Contact Us", "/contact", [])
  ]

  /** `isActive(href)`: the root only on exactly "/", every other entry on any pathname it starts. */
  predicate IsActive(pathname: string, href: string)
    ensures pathname == href ==> IsActive(pathname, href)
    ensures IsActive(pathname, href) ==> |href| <= |pathname|
  {
    if href == "/" then pathname == "/" else StartsWith(pathname, href)
  }

  /**
   * A submenu entry is highlighted only on its exact path: where the
   * top-level prefix rule would mark it and the pathname goes no further.
   */
  predicate SubItemHighlighted(pathname: string, sub: SubItem)
    ensures SubItemHighlighted(pathname, sub) <==> IsActive(pathname, sub.href) && |pathname| == |sub.href|
  {
    pathname == sub.href
  }

  /** The dropdown (desktop) and the indented list (mobile) appear only for a non-empty submenu. */
  predicate ShowsSubmenu(item: MenuItem)
    ensures item in MenuItems ==> (ShowsSubmenu(item) <==> item.href in {"/literacy", "/numeracy", "/career", "/store"})
  {
    |item.submenu| > 0
  }

  /** The cart badge appears only when the cart holds at least one item. */
  predicate ShowsCartBadge(totalItems: int)
    ensures totalItems >= 0 ==> (ShowsCartBadge(totalItems) <==> totalItems != 0)
  {
    totalItems > 0
  }

  /** The indices of the top-level entries active on `pathname`, in menu order. */
  function ActiveIndices(pathname: string): (r: seq<nat>)
    ensures forall k :: 0 <= k < |r| ==> r[k] < |MenuItems| && IsActive(pathname, MenuItems[r[k]].href)
    ensures forall i :: 0 <= i < |MenuItems| && IsActive(pathname, MenuItems[i].href) ==> i in r
    ensures |r| <= 1
  {
    AtMostOneActive(pathname);
    ActiveFromAtMostOne(pathname, 0);
    ActiveFrom(pathname, 0)
  }

  function ActiveFrom(pathname: string, i: nat): (r: seq<nat>)
    requires i <= |MenuItems|
    ensures forall k :: 0 <= k < |r| ==> i <= r[k] < |MenuItems| && IsActive(pathname, MenuItems[r[k]].href)
    ensures forall j :: i <= j < |MenuItems| && IsActive(pathname, MenuItems[j].href) ==> j in r
    ensures r != [] ==> IsActive(pathname, MenuItems[r[0]].href)
    decreases |MenuItems| - i
  {
    if i == |MenuItems| then []
    else if IsActive(pathname, MenuItems[i].href) then [i] + ActiveFrom(pathname, i + 1)
    else ActiveFrom(pathname, i + 1)
  }

  lemma {:induction false} ActiveFromAtMostOne(pathname: string, i: nat)
    requires i <= |MenuItems|
    requires forall j, l :: 0 <= j < l < |MenuItems| ==>
      !(IsActive(pathname, MenuItems[j].href) && IsActive(pathname, MenuItems[l].href))
    ensures |ActiveFrom(pathname, i)| <= 1
    decreases |MenuItems| - i
  {
    if i < |MenuItems| {
      var rest := ActiveFrom(pathname, i + 1);
      if IsActive(pathname, MenuItems[i].href) {
        // every later entry is inactive, so `rest`, which lists only active entries, is empty
      } else {
        ActiveFromAtMostOne(pathname, i + 1);
      }
    }
  }

  /** The root entry is active exactly on "/". */
  lemma RootActiveOnlyAtRoot(pathname: string)
    ensures IsActive(pathname, MenuItems[0].href) <==> pathname == "/"
  {
  }

  /** Every other entry is active on its own path and on every path below it. */
  lemma ActiveBelowOwnPath(href: string, rest: string)
    requires href != "/"
    ensures IsActive(href + rest, href)
  {
    assert (href + rest)[0..|href|] == href;
  }

  /** The prefix rule does not stop at a segment boundary: "/storefront" marks "Store". */
  lemma StorefrontMarksStore()
    ensures IsActive("/storefront", "/store")
    ensures !IsActive("/storefront", "/")
  {
    ActiveBelowOwnPath("/store", "front");
    assert "/storefront" == "/store" + "front";
  }

  /** Two prefixes of the same string: the shorter is a prefix of the longer. */
  lemma PrefixesNest(s: string, a: string, b: string)
    requires StartsWith(s, a) && StartsWith(s, b) && |a| <= |b|
    ensures StartsWith(b, a)
  {
    assert b[0..|a|] == s[0..|b|][0..|a|] == s[0..|a|];
  }

  /** No non-root href is a prefix of another, and each is longer than the root's "/". */
  lemma HrefsPrefixFree()
    ensures forall i, j :: 1 <= i < |MenuItems| && 1 <= j < |MenuItems| && i != j
                           && |MenuItems[i].href| <= |MenuItems[j].href|
                           ==> !StartsWith(MenuItems[j].href, MenuItems[i].href)
    ensures forall i :: 1 <= i < |MenuItems| ==> |MenuItems[i].href| > 1
  {
    forall i, j | 1 <= i < |MenuItems| && 1 <= j < |MenuItems| && i != j
                  && |MenuItems[i].href| <= |MenuItems[j].href|
      ensures !StartsWith(MenuItems[j].href, MenuItems[i].href)
    {
      // the non-root hrefs differ pairwise in their third character
      assert MenuItems[i].href[2] != MenuItems[j].href[2];
    }
  }

  /** At most one top-level entry is active on any pathname. */
  lemma AtMostOneActive(pathname: string)
    ensures forall i, j :: 0 <= i < j < |MenuItems| ==>
      !(IsActive(pathname, MenuItems[i].href) && IsActive(pathname, MenuItems[j].href))
  {
    HrefsPrefixFree();
    forall i, j | 0 <= i < j < |MenuItems|
      ensures !(IsActive(pathname, MenuItems[i].href) && IsActive(pathname, MenuItems[j].href))
    {
      if IsActive(pathname, MenuItems[i].href) && IsActive(pathname, MenuItems[j].href) {
        var a, b := MenuItems[i].href, MenuItems[j].href;
        if i == 0 {
          // pathname is "/", too short for any other href
        } else if |a| <= |b| {
          PrefixesNest(pathname, a, b);
        } else {
          PrefixesNest(pathname, b, a);
        }
      }
    }
  }

  /** Exactly the Literacy, Numeracy, Career Development and Store entries have a dropdown. */
  lemma DropdownEntries()
    ensures forall i :: 0 <= i < |MenuItems| ==> (ShowsSubmenu(MenuItems[i]) <==> 1 <= i <= 4)
  {
  }

  /** At most one submenu entry in the whole table is highlighted on any pathname. */
  lemma AtMostOneSubItemHighlighted(pathname: string)
    ensures forall i, k, j, l ::
      0 <= i < |MenuItems| && 0 <= k < |MenuItems[i].submenu|
      && 0 <= j < |MenuItems| && 0 <= l < |MenuItems[j].submenu|
      && SubItemHighlighted(pathname, MenuItems[i].submenu[k]) && SubItemHighlighted(pathname, MenuItems[j].submenu[l])
      ==> i == j && k == l
  {
  }

  /** The mobile menu's open/closed state. */
  class MobileMenu {
    var isMenuOpen: bool

    constructor ()
      ensures !isMenuOpen
    {
      isMenuOpen := false;
    }

    /** The mobile menu button: `setIsMenuOpen(!isMenuOpen)`. */
    method Toggle()
      modifies this
      ensures isMenuOpen == !old(isMenuOpen)
    {
      isMenuOpen := !isMenuOpen;
    }

    /** Any link in the mobile navigation, top-level or submenu: `setIsMenuOpen(false)`. */
    method LinkClicked()
      modifies this
      ensures !isMenuOpen
    {
      isMenuOpen := false;
    }
  }

  /**
   * Opening the mobile menu shows the navigation (rendered while `isMenuOpen`
   * holds); following one of its links closes it again.
   */
  method OpenThenNavigate() returns (menu: MobileMenu)
    ensures !menu.isMenuOpen
  {
    menu := new MobileMenu();
    menu.Toggle();
    assert menu.isMenuOpen;
    menu.LinkClicked();
  }
}
