/**
 * The header bar of an entity page (`components/entity/entity-header.tsx`):
 * the displayed name, the brand crumb with its repository link, the
 * social buttons and the website button's host title.
 *
 * `getEntity` lives in `lib/data/entities.ts`, which is not part of this
 * model: its answer is a parameter, reduced to the fields the header reads.
 */
module EntityHeaderView {
  import opened Common
  import opened Text
  import opened SearchTypes
  import Orgs
  import MockData
  import Cards

  /** The fields of a `getEntity` record that the header reads. */
  datatype Profile = Profile(
    displayName: string,
    website: Option<string>,
    socials: Option<Socials>,
    logoUrl: Option<string>)

  /** `org?.displayName ?? owner` */
  function DisplayName(owner: string, entity: Option<Profile>): (r: string)
    ensures entity.Some? ==> r == entity.value.displayName
    ensures entity.None? ==> r == owner
  {
    match entity
    case Some(e) => e.displayName
    case None => owner
  }

  /**
   * `socials ?? {...}`: an explicit prop wins as a whole; otherwise the
   * website is the entity's social website, else its plain website, and
   * the other three links come from the entity's socials.
   */
  function ResolveSocials(prop: Option<Socials>, entity: Option<Profile>): (r: Socials)
    ensures prop.Some? ==> r == prop.value
    ensures prop.None? && entity.None? ==> r == Socials(None, None, None, None)
    ensures prop.None? && entity.Some? && entity.value.socials.Some? ==>
      var s := entity.value.socials.value;
      r.twitter == s.twitter && r.instagram == s.instagram && r.linkedin == s.linkedin
      && r.website == (if s.website.Some? then s.website else entity.value.website)
    ensures prop.None? && entity.Some? && entity.value.socials.None? ==>
      r == Socials(entity.value.website, None, None, None)
  {
    if prop.Some? then prop.value
    else match entity
      case None => Socials(None, None, None, None)
      case Some(e) =>
        match e.socials
        case None => Socials(e.website, None, None, None)
        case Some(s) => Socials(if s.website.Some? then s.website else e.website, s.twitter, s.instagram, s.linkedin)
  }

  /** An organisation record seen through `getEntity`. */
  function ProfileOf(org: Orgs.OrgData): Profile {
    Profile(org.displayName, org.website, org.socials, None)
  }

  /**
   * The header resolves an organisation's socials exactly as the search
   * entity builder does when no socials are passed to it.
   */
  lemma SocialsAgreeWithEntityBuilder(org: Orgs.OrgData)
    ensures ResolveSocials(None, Some(ProfileOf(org))) == MockData.FallbackSocials(org)
  {
  }

  /**
   * The buttons on the right: exactly the truthy resolved links, each with
   * its value, in the order website, Twitter, Instagram, LinkedIn.
   */
  function SocialButtons(prop: Option<Socials>, entity: Option<Profile>): (r: seq<(string, string)>)
    ensures Cards.ListsSocials(ResolveSocials(prop, entity), r)
    ensures |r| <= 4
    ensures forall i :: 0 <= i < |r| ==> r[i].1 != ""
    ensures var w := ResolveSocials(prop, entity).website;
      Truthy(w) ==> |r| > 0 && r[0] == ("Website", w.value)
    ensures !Truthy(ResolveSocials(prop, entity).website) ==> forall i :: 0 <= i < |r| ==> r[i].0 != "Website"
  {
    Cards.SocialLinks(Some(ResolveSocials(prop, entity)))
  }

  /** The repository link: `/owner/type/repo` with a type, `/owner/repo` without. */
  function RepoHref(owner: string, kind: Option<string>, repo: string): (r: string)
    ensures StartsWith(r, "/" + owner + "/")
    ensures Truthy(kind) ==> r == "/" + owner + "/" + kind.value + "/" + repo
    ensures !Truthy(kind) ==> r == "/" + owner + "/" + repo
  {
    if Truthy(kind) then "/" + owner + "/" + kind.value + "/" + repo
    else "/" + owner + "/" + repo
  }

  /** With a type, the header links a repository where the organisation pages do. */
  lemma RepoHrefMatchesOrgHref(owner: string, repo: Orgs.TypedRepo)
    requires repo.kind != ""
    ensures RepoHref(owner, Some(repo.kind), repo.name) == Orgs.BuildRepoHref(owner, repo)
  {
  }

  datatype Crumb = Crumb(text: string, href: Option<string>)

  /**
   * The crumb: the display name linking to `/owner`, then, only for a
   * non-empty repository, the type (unlinked, when given) and the
   * repository linking to its page.
   */
  function Crumbs(owner: string, entity: Option<Profile>, repo: Option<string>, kind: Option<string>): (r: seq<Crumb>)
    ensures 1 <= |r| <= 3
    ensures r[0] == Crumb(DisplayName(owner, entity), Some("/" + owner))
    ensures |r| == 1 <==> !Truthy(repo)
    ensures |r| == 3 <==> Truthy(repo) && Truthy(kind)
    ensures |r| == 3 ==> r[1] == Crumb(kind.value, None)
    ensures Truthy(repo) ==> r[|r| - 1] == Crumb(repo.value, Some(RepoHref(owner, kind, repo.value)))
  {
    var head := [Crumb(DisplayName(owner, entity), Some("/" + owner))];
    if !Truthy(repo) then head
    else
      var middle := if Truthy(kind) then [Crumb(kind.value, None)] else [];
      head + middle + [Crumb(repo.value, Some(RepoHref(owner, kind, repo.value)))]
  }

  /**
   * `cleanHost(url)`: the host of a URL with one leading "www." removed,
   * or the input when it does not parse. Parsing is the URL standard's,
   * passed in as `host`.
   */
  function CleanHost(url: string, host: string -> Option<string>): (r: string)
    ensures host(url).None? ==> r == url
    ensures host(url).Some? && StartsWith(host(url).value, "www.") ==> "www." + r == host(url).value
    ensures host(url).Some? && !StartsWith(host(url).value, "www.") ==> r == host(url).value
  {
    match host(url)
    case None => url
    case Some(h) => if StartsWith(h, "www.") then h[4..] else h
  }

  /** Only one "www." goes: a host "www.www.x" is shown as "www.x". */
  lemma CleanHostStripsOnce(url: string, host: string -> Option<string>, rest: string)
    requires host(url) == Some("www." + "www." + rest)
    ensures CleanHost(url, host) == "www." + rest
  {
    var h := "www." + "www." + rest;
    assert StartsWith(h, "www.");
    assert h[4..] == "www." + rest;
  }
}
