/** The site's navigation bar: the fixed table of links, which of them is
    highlighted for the current path, and the open/closed state of the
    mobile menu. */
module Navigation {

  /** A link of the bar: its target and the caption shown for it. */
  datatype NavItem = NavItem(href: string, caption: string)

  const Root := "/"

  /** The five links, in display order. */
  const NavItems: seq<NavItem> := [
    NavItem("/", "About"),
    NavItem("/experience", "Experience"),
    NavItem("/projects", "Projects"),
    NavItem("/blog", "Research"),
    NavItem("/contact", "Contact")
  ]

  /** `isActive`: the root link only on the root path itself, any other link
      whenever its href is a prefix of the path (`startsWith`). */
  predicate IsActive(currentPath: string, href: string) {
    if href == Root then currentPath == Root else href <= currentPath
  }

  /** What makes "at most one highlighted link" hold for a table: no empty
      href, the root at most once, and no href other than the root a prefix
      of another. */
  predicate Separated(items: seq<NavItem>) {
    forall i, j :: 0 <= i < |items| && 0 <= j < |items| && i != j ==>
      && items[i].href != []
      && (items[i].href == Root ==> items[j].href != Root)
      && (items[i].href != Root && items[j].href != Root ==> !(items[i].href <= items[j].href))
  }

  /** The highlight flags the bar renders, one per link in table order. */
  function ActiveFlags(currentPath: string, items: seq<NavItem>): (flags: seq<bool>)
    ensures |flags| == |items|
    ensures forall i :: 0 <= i < |items| ==> flags[i] == IsActive(currentPath, items[i].href)
  {
    if items == [] then []
    else [IsActive(currentPath, items[0].href)] + ActiveFlags(currentPath, items[1..])
  }

  /** Two prefixes of one string are comparable. */
  lemma PrefixesComparable(a: string, b: string, s: string)
    requires a <= s && b <= s && |a| <= |b|
    ensures a <= b
  {
    assert forall k :: 0 <= k < |a| ==> a[k] == s[k] == b[k];
  }

  /** Only the root itself and the empty string are prefixes of the root. */
  lemma NotPrefixOfRoot(h: string)
    requires h != [] && h != Root
    ensures !(h <= Root)
  {
    assert |h| > 1 || h[0] != Root[0] by {
      if |h| == 1 {
        assert h == [h[0]];
      }
    }
  }

  /** In a separated table, no two links are highlighted at once. */
  lemma AtMostOneActive(currentPath: string, items: seq<NavItem>, i: nat, j: nat)
    requires Separated(items)
    requires i < |items| && j < |items| && i != j
    ensures !(IsActive(currentPath, items[i].href) && IsActive(currentPath, items[j].href))
  {
    var a, b := items[i].href, items[j].href;
    if a == Root {
      NotPrefixOfRoot(b);
    } else if b == Root {
      NotPrefixOfRoot(a);
    } else if a <= currentPath && b <= currentPath {
      if |a| <= |b| {
        PrefixesComparable(a, b, currentPath);
      } else {
        PrefixesComparable(b, a, currentPath);
      }
    }
  }

  /** The site's own table is separated: every href but the root starts
      with '/' and a letter, and those letters differ. */
  lemma NavItemsSeparated()
    ensures Separated(NavItems)
  {
    forall i, j | 0 <= i < |NavItems| && 0 <= j < |NavItems| && i != j
      ensures NavItems[i].href != []
      ensures NavItems[i].href == Root ==> NavItems[j].href != Root
      ensures NavItems[i].href != Root && NavItems[j].href != Root ==> !(NavItems[i].href <= NavItems[j].href)
    {
      var a, b := NavItems[i].href, NavItems[j].href;
      assert i == 0 <==> a == Root;
      assert j == 0 <==> b == Root;
      if i != 0 && j != 0 {
        assert |a| > 1 && |b| > 1 && a[1] != b[1];
      }
    }
  }

  /** For any path, at most one of the site's links is highlighted. */
  lemma AtMostOneNavItemActive(currentPath: string, i: nat, j: nat)
    requires i < |NavItems| && j < |NavItems| && i != j
    ensures !(ActiveFlags(currentPath, NavItems)[i] && ActiveFlags(currentPath, NavItems)[j])
  {
    NavItemsSeparated();
    AtMostOneActive(currentPath, NavItems, i, j);
  }

  /** A page below a section highlights that section, and the root link is
      highlighted on the root path only. */
  lemma SectionPagesActivateSection(section: string, rest: string)
    requires section != Root
    ensures IsActive(section + rest, section)
    ensures IsActive(Root, Root)
    ensures rest != [] ==> !IsActive(Root + rest, Root)
  {
    assert section <= section + rest;
  }

  /** The mobile menu's `isOpen` flag and its click handlers. */
  class Menu {
    var isOpen: bool

    constructor()
      ensures !isOpen
    {
      isOpen := false;
    }

    /** The menu button flips the flag. */
    method ToggleMenu()
      modifies this
      ensures isOpen == !old(isOpen)
    {
      isOpen := !isOpen;
    }

    /** Following a link in the mobile menu closes it. */
    method CloseFromLink()
      modifies this
      ensures !isOpen
    {
      isOpen := false;
    }

    /** Clicking the backdrop closes the menu. */
    method CloseFromBackdrop()
      modifies this
      ensures !isOpen
    {
      isOpen := false;
    }
  }
}
