/**
 * The navigation shell: which sidebar entries are highlighted for the
 * current location, which groups start open, toggling a group, and hiding
 * the sidebar on the point-of-sale routes.
 */
module AppShell {
  import opened Text

  datatype NavChild = NavChild(name: string, href: string)

  datatype NavItem = NavItem(name: string, href: string, children: seq<NavChild>)

  /** `NAV_ITEMS`. */
  const NavItems: seq<NavItem> := [
    NavItem("Dashboard", "/", []),
    NavItem("Purchasing", "/purchasing", [
      NavChild("Overview", "/purchasing"), NavChild("Purchase Orders", "/purchasing/orders"),
      NavChild("Invoices", "/purchasing/invoices"), NavChild("Bills", "/purchasing/bills"),
      NavChild("Vendors", "/purchasing/vendors")]),
    NavItem("Inventory", "/inventory", [
      NavChild("Overview", "/inventory"), NavChild("Item Lookup", "/inventory/lookup"),
      NavChild("Postings", "/inventory/posting"), NavChild("Wastage", "/inventory/waste"),
      NavChild("Worksheet", "/inventory/worksheet")]),
    NavItem("Recipes", "/recipes", [
      NavChild("Overview", "/recipes/overview"), NavChild("Menu Items", "/recipes/menu"),
      NavChild("Prep Items", "/recipes/prep")]),
    NavItem("Settings", "/settings", [])]

  /** A top-level entry: an exact match, or a prefix match for every entry but "/". */
  predicate IsActive(location: string, href: string)
  {
    location == href || (href != "/" && StartsWith(location, href))
  }

  /** The dashboard entry is highlighted on "/" only. */
  lemma RootOnlyExact(location: string)
    ensures IsActive(location, "/") <==> location == "/"
  {
  }

  /** Any other entry is highlighted exactly when the location starts with its href. */
  lemma ActiveIsPrefix(location: string, href: string)
    requires href != "/"
    ensures IsActive(location, href) <==> StartsWith(location, href)
  {
    if location == href {
      assert location[..|href|] == href;
    }
  }

  /** A child link: `location === href || location.startsWith(href)`. */
  predicate ChildActive(location: string, href: string)
  {
    location == href || StartsWith(location, href)
  }

  /** The exact test adds nothing to the prefix test. */
  lemma ChildActiveIsPrefix(location: string, href: string)
    ensures ChildActive(location, href) <==> StartsWith(location, href)
  {
    if location == href {
      assert location[..|href|] == href;
    }
  }

  /**
   * On every page under /purchasing/ the Purchasing entry is highlighted,
   * and so is its "Overview" child, whichever other child is open.
   */
  lemma OverviewActiveUnderPurchasing(location: string)
    requires StartsWith(location, "/purchasing/")
    ensures NavItems[1].name == "Purchasing" && NavItems[1].children[0].name == "Overview"
    ensures IsActive(location, NavItems[1].href)
    ensures ChildActive(location, NavItems[1].children[0].href)
  {
    assert location[..11] == location[..12][..11];
  }

  /** The prefix test does not stop at a path segment: "/purchasingX" highlights Purchasing too. */
  lemma PrefixIgnoresSegments()
    ensures IsActive("/purchasingX", "/purchasing")
  {
    assert "/purchasingX"[..11] == "/purchasing";
  }

  /** `isPOS`: the location starts with "/pos". */
  predicate IsPos(location: string)
  {
    StartsWith(location, "/pos")
  }

  /** The desktop sidebar is drawn off the point-of-sale routes only. */
  predicate ShowsSidebar(location: string)
  {
    !IsPos(location)
  }

  /** The shell's state: the open flag of each group and of the mobile menu. */
  class Shell {
    var openGroups: map<string, bool>
    var isOpen: bool

    /** A group starts open exactly when the location is under its path. */
    constructor (location: string)
      ensures openGroups.Keys == {"Purchasing", "Inventory", "Recipes"}
      ensures openGroups["Purchasing"] == StartsWith(location, "/purchasing")
      ensures openGroups["Inventory"] == StartsWith(location, "/inventory")
      ensures openGroups["Recipes"] == StartsWith(location, "/recipes")
      ensures !isOpen
    {
      openGroups := map["Purchasing" := StartsWith(location, "/purchasing"),
                        "Inventory" := StartsWith(location, "/inventory"),
                        "Recipes" := StartsWith(location, "/recipes")];
      isOpen := false;
    }

    /** `!!openGroups[groupKey]`. */
    predicate IsOpenGroup(key: string)
      reads this
    {
      key in openGroups && openGroups[key]
    }

    /** Clicking a group flips its flag and no other. */
    method Toggle(key: string)
      modifies this`openGroups
      ensures openGroups == old(openGroups)[key := !old(IsOpenGroup(key))]
      ensures IsOpenGroup(key) == !old(IsOpenGroup(key))
      ensures forall k :: k != key ==> IsOpenGroup(k) == old(IsOpenGroup(k))
    {
      openGroups := openGroups[key := !IsOpenGroup(key)];
    }

    /** Opening or closing the mobile menu; following a link in it closes it. */
    method SetOpen(open: bool)
      modifies this`isOpen
      ensures isOpen == open
    {
      isOpen := open;
    }
  }
}
