/**
 * The mobile tab bar: three tabs, and the rule that marks the tab for the
 * current path as active. Unlike the side navigation, home covers only the
 * chat page itself, not its sub-pages.
 */
module TabBar {
  import opened Text
  import SideNav

  datatype Tab = Tab(href: string, labelText: string)

  const Tabs: seq<Tab> := [
    Tab("/", "ホーム"),
    Tab("/my-appliances", "マイ家電"),
    Tab("/mypage", "マイページ")
  ]

  /** `isActive` for the tab linking to `href`. */
  predicate IsActive(href: string, pathname: string) {
    if href == "/" then pathname == "/" || pathname == "/chat"
    else StartsWith(pathname, href)
  }

  /**
   * Chat sub-pages activate no tab: unlike the side navigation, home covers
   * only the chat page itself.
   */
  lemma ChatSubPagesActivateNothing(pathname: string)
    requires StartsWith(pathname, "/chat/")
    ensures forall i :: 0 <= i < |Tabs| ==> !IsActive(Tabs[i].href, pathname)
  {
    PrefixesExclusive(pathname, "/chat/", "/my-appliances", 1);
    PrefixesExclusive(pathname, "/chat/", "/mypage", 1);
  }

  /** Going deeper within a section keeps its tab, and only it, active. */
  lemma SubPagesKeepTab(pathname: string, suffix: string, i: nat)
    requires 1 <= i < |Tabs| && IsActive(Tabs[i].href, pathname)
    ensures forall j :: 0 <= j < |Tabs| ==> (IsActive(Tabs[j].href, pathname + suffix) <==> j == i)
  {
    var href := Tabs[i].href;
    assert (pathname + suffix)[..|href|] == pathname[..|href|];
    AtMostOneActive(pathname + suffix);
  }

  /**
   * The two navigations agree: whenever a tab is active, the side-navigation
   * item with the same link is active too.
   */
  lemma TabActiveImpliesSideNavActive(pathname: string, i: nat)
    requires i < |Tabs| && IsActive(Tabs[i].href, pathname)
    ensures exists j :: 0 <= j < |SideNav.NavItems| && SideNav.NavItems[j].href == Tabs[i].href
                         && SideNav.IsActive(SideNav.NavItems[j].href, pathname)
  {
    var j := if i == 0 then 0 else if i == 1 then 1 else 3;
    if i == 0 && pathname == "/chat" {
      assert StartsWith(pathname, "/chat");
    }
    assert SideNav.NavItems[j].href == Tabs[i].href;
  }

  /** No path activates two tabs. */
  lemma AtMostOneActive(pathname: string)
    ensures forall i, j :: 0 <= i < j < |Tabs| ==>
      !(IsActive(Tabs[i].href, pathname) && IsActive(Tabs[j].href, pathname))
  {
    PrefixesExclusive(pathname, "/chat", "/my-appliances", 1);
    PrefixesExclusive(pathname, "/chat", "/mypage", 1);
    PrefixesExclusive(pathname, "/my-appliances", "/mypage", 3);
    if pathname == "/chat" {
      assert StartsWith(pathname, "/chat");
    }
  }

  /** A chat sub-page and the sharing page activate no tab; the chat page activates home. */
  lemma Examples()
    ensures forall i :: 0 <= i < |Tabs| ==> !IsActive(Tabs[i].href, "/chat/abc")
    ensures forall i :: 0 <= i < |Tabs| ==> !IsActive(Tabs[i].href, "/share")
    ensures IsActive(Tabs[0].href, "/chat")
  {
    PrefixesExclusive("/chat/abc", "/my-appliances", "/chat/abc", 1);
    PrefixesExclusive("/chat/abc", "/mypage", "/chat/abc", 1);
    PrefixesExclusive("/share", "/my-appliances", "/share", 1);
    PrefixesExclusive("/share", "/mypage", "/share", 1);
    assert StartsWith("/chat/abc", "/chat/abc") && StartsWith("/share", "/share");
  }
}
