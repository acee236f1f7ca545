/**
 * The tab bar of a project page (`components/project/project-nav.tsx`):
 * six tabs under `/owner/project/repo`, each active exactly when the
 * current path is its link.
 */
module ProjectNav {
  import opened Text

  datatype Tab = Tab(name: string, slug: string)

  const Tabs: seq<Tab> := [
    Tab("Workspace", ""),
    Tab("Issues", "issues"),
    Tab("Experiments", "experiments"),
    Tab("Links", "links"),
    Tab("Wiki", "wiki"),
    Tab("Settings", "settings")
  ]

  /** `/${owner}/project/${repo}` */
  function Base(owner: string, repo: string): (r: string)
    ensures StartsWith(r, "/" + owner + "/project/")
  {
    "/" + owner + "/project/" + repo
  }

  /** The link of a tab: the base path itself for the empty slug, else base/slug. */
  function Href(base: string, slug: string): (r: string)
    ensures slug == "" ==> r == base
    ensures slug != "" ==> |r| == |base| + 1 + |slug| && StartsWith(r, base + "/") && r[|base| + 1..] == slug
  {
    if slug == "" then base else base + "/" + slug
  }

  datatype NavLink = NavLink(name: string, href: string, active: bool)

  /** `isActive`: the Workspace tab compares with the base, every other with its link. */
  function IsActive(pathname: string, base: string, slug: string): (r: bool)
    ensures r <==> pathname == Href(base, slug)
  {
    if slug == "" then pathname == base else pathname == Href(base, slug)
  }

  function Links(owner: string, repo: string, pathname: string): (r: seq<NavLink>)
    ensures |r| == |Tabs|
    ensures forall i :: 0 <= i < |r| ==>
      && r[i].name == Tabs[i].name
      && r[i].href == Href(Base(owner, repo), Tabs[i].slug)
      && (r[i].active <==> pathname == r[i].href)
  {
    var base := Base(owner, repo);
    seq(|Tabs|, i requires 0 <= i < |Tabs| =>
      NavLink(Tabs[i].name, Href(base, Tabs[i].slug), IsActive(pathname, base, Tabs[i].slug)))
  }

  /** Different slugs give different links under the same base. */
  lemma HrefInjective(base: string, a: string, b: string)
    requires a != b
    ensures Href(base, a) != Href(base, b)
  {
    if a != "" && b != "" {
      assert Href(base, a)[|base| + 1..] == a;
      assert Href(base, b)[|base| + 1..] == b;
    }
  }

  lemma SlugsDistinct()
    ensures forall i, j :: 0 <= i < j < |Tabs| ==> Tabs[i].slug != Tabs[j].slug
  {
  }

  /** At most one tab is active, whatever the path. */
  lemma AtMostOneActive(owner: string, repo: string, pathname: string)
    ensures var r := Links(owner, repo, pathname);
      forall i, j :: 0 <= i < |r| && 0 <= j < |r| && r[i].active && r[j].active ==> i == j
  {
    var r := Links(owner, repo, pathname);
    forall i, j | 0 <= i < |r| && 0 <= j < |r| && r[i].active && r[j].active
      ensures i == j
    {
      if i != j {
        SlugsDistinct();
        HrefInjective(Base(owner, repo), Tabs[i].slug, Tabs[j].slug);
      }
    }
  }

  /**
   * The match is exact: a tab is active exactly on its own link, so the
   * base with a trailing "/" activates no tab, and a path below a tab's
   * link ("…/issues/7") activates none either.
   */
  lemma TrailingSlashActivatesNone(owner: string, repo: string)
    ensures var r := Links(owner, repo, Base(owner, repo) + "/");
      forall i :: 0 <= i < |r| ==> !r[i].active
  {
    var base := Base(owner, repo);
    var r := Links(owner, repo, base + "/");
    forall i | 0 <= i < |r| ensures !r[i].active {
      if Tabs[i].slug != "" {
        assert |Href(base, Tabs[i].slug)| > |base + "/"|;
      }
    }
  }

  lemma DeeperNotHref(base: string, s: string, t: string, rest: string)
    requires s != "" && '/' !in t
    ensures Href(base, s) + "/" + rest != Href(base, t)
  {
    var p := Href(base, s) + "/" + rest;
    var q := Href(base, t);
    if t != "" && |q| == |p| {
      var k := |base| + 1 + |s|;
      assert p[k] == '/';
      assert q[k] == t[|s|];
      assert t[|s|] in t;
    }
  }

  lemma NoSlashInSlugs()
    ensures forall i :: 0 <= i < |Tabs| ==> '/' !in Tabs[i].slug
  {
  }

  lemma DeeperPathActivatesNone(owner: string, repo: string, tab: int, rest: string)
    requires 0 <= tab < |Tabs| && Tabs[tab].slug != ""
    ensures var p := Href(Base(owner, repo), Tabs[tab].slug) + "/" + rest;
      var r := Links(owner, repo, p);
      forall i :: 0 <= i < |r| ==> !r[i].active
  {
    var base := Base(owner, repo);
    var p := Href(base, Tabs[tab].slug) + "/" + rest;
    var r := Links(owner, repo, p);
    NoSlashInSlugs();
    forall i | 0 <= i < |r| ensures !r[i].active {
      DeeperNotHref(base, Tabs[tab].slug, Tabs[i].slug, rest);
    }
  }
}
