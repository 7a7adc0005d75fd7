/**
 * Tabs kept in the URL: the profile page and the host dashboard both read
 * the initial tab from the `tab` search parameter and, on a tab change,
 * replace the URL with the bare page for the overview or `?tab=<name>`.
 */
module Tabs {
  import opened Wrappers
  import opened Text

  const OVERVIEW := "overview"
  const TAB_PARAM := "?tab="

  /** `searchParams.get("tab") || "overview"`. */
  function InitialTab(tabParam: Option<string>): (t: string)
    ensures t != ""
    ensures Truthy(tabParam) ==> t == tabParam.value
    ensures !Truthy(tabParam) ==> t == OVERVIEW
  {
    OrElse(tabParam, OVERVIEW)
  }

  /** The URL a tab change on `page` replaces the current one with. */
  function TabUrl(page: string, tab: string): string {
    if tab == OVERVIEW then page else page + TAB_PARAM + tab
  }

  /** The `tab` parameter of a URL of `page` of the two shapes `TabUrl` produces. */
  function TabParamOf(page: string, url: string): Option<string> {
    if page + TAB_PARAM <= url then Some(url[|page + TAB_PARAM|..]) else None
  }

  /** Reloading the URL a tab change wrote opens the same tab, for every non-empty tab name. */
  lemma TabUrlRoundTrip(page: string, tab: string)
    requires tab != ""
    ensures InitialTab(TabParamOf(page, TabUrl(page, tab))) == tab
  {
    var prefix := page + TAB_PARAM;
    if tab != OVERVIEW {
      assert page + TAB_PARAM + tab == prefix + tab;
      assert prefix <= prefix + tab;
      assert (prefix + tab)[|prefix|..] == tab;
    } else {
      assert !(prefix <= page) by { assert |page| < |prefix|; }
    }
  }

  /** Distinct non-empty tabs are written as distinct URLs. */
  lemma TabUrlInjective(page: string, t1: string, t2: string)
    requires t1 != "" && t2 != ""
    requires TabUrl(page, t1) == TabUrl(page, t2)
    ensures t1 == t2
  {
    TabUrlRoundTrip(page, t1);
    TabUrlRoundTrip(page, t2);
  }
}
