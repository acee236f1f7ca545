/**
 * The two tabs of an entity page (`components/entity/entity-nav.tsx`):
 * which of Overview and Repositories is active, and when the repository
 * count badge shows.
 */
module EntityNav {
  import opened Common

  datatype Tab = Overview | Repositories

  /** The page the Repositories tab links to, and the path that activates it. */
  function RepositoriesPath(owner: string): string {
    "/" + owner + "/repositories"
  }

  /**
   * `active ?? (pathname === /owner/repositories ? "Repositories" : "Overview")`:
   * an explicit choice from the page wins over the path.
   */
  function ActiveTab(owner: string, active: Option<Tab>, pathname: string): (r: Tab)
    ensures active.Some? ==> r == active.value
    ensures active.None? ==> (r == Repositories <==> pathname == RepositoriesPath(owner))
  {
    match active
    case Some(t) => t
    case None => if pathname == RepositoriesPath(owner) then Repositories else Overview
  }

  /** The highlight of the two tabs, Overview first. */
  function Highlights(owner: string, active: Option<Tab>, pathname: string): (r: (bool, bool))
    ensures r.0 != r.1
    ensures r.1 <==> ActiveTab(owner, active, pathname) == Repositories
  {
    var t := ActiveTab(owner, active, pathname);
    (t == Overview, t == Repositories)
  }

  /** Without a choice from the page, only the exact repositories path selects that tab. */
  lemma OverviewByDefault(owner: string, pathname: string)
    requires pathname != RepositoriesPath(owner)
    ensures Highlights(owner, None, pathname) == (true, false)
  {
  }

  /**
   * `!!counts?.repos && …`: the badge holds the count when it is a
   * non-zero number; a missing count or 0 shows nothing.
   */
  function RepoBadge(repos: Option<int>): (r: Option<int>)
    ensures r.Some? <==> repos.Some? && repos.value != 0
    ensures r.Some? ==> r == repos
  {
    if repos.Some? && repos.value != 0 then repos else None
  }
}
