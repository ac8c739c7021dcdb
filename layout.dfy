/** The layout's choice of the highlighted sidebar entry from the current path. */
module Layout {
  const Home := "home"
  const DMs := "dms"
  const Search := "search"

  /** `getCurrentNav`: "/dms" and "/search" select their entries; every other path, "/home"
      and "/" included, selects "home". */
  function CurrentNav(path: string): (nav: string)
    ensures nav in {Home, DMs, Search}
    ensures nav == DMs <==> path == "/dms"
    ensures nav == Search <==> path == "/search"
    ensures nav == Home <==> path != "/dms" && path != "/search"
  {
    if path == "/home" || path == "/" then Home
    else if path == "/dms" then DMs
    else if path == "/search" then Search
    else Home
  }

  /** Each entry's own path selects it, so the choice is a left inverse of the entry paths. */
  lemma OwnPathSelects(nav: string)
    requires nav in {Home, DMs, Search}
    ensures CurrentNav("/" + nav) == nav
  {
  }
}
