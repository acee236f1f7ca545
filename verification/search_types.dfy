/**
 * The records the search feature passes around: an entity header (the
 * company, organisation or user that owns an item) and a search record.
 * Every optional property of the TypeScript types is an `Option`; scopes
 * and kinds are plain strings because the code uses more literals than
 * its `Scope` type lists ("projects", "processes", "entities").
 */
module SearchTypes {
  import opened Common

  datatype Socials = Socials(
    website: Option<string>,
    twitter: Option<string>,
    instagram: Option<string>,
    linkedin: Option<string>)

  datatype Meta = Meta(
    hq: Option<string>,
    founded: Option<int>,
    size: Option<string>,
    focus: Option<string>)

  datatype Stats = Stats(
    products: Option<int>,
    repos: Option<int>,
    followers: Option<int>,
    stars: Option<int>)

  /** `EntityHeader`; the TypeScript property `type` is `kind` here. */
  datatype EntityHeader = EntityHeader(
    id: string,
    name: string,
    logoUrl: Option<string>,
    verified: Option<bool>,
    kind: Option<string>,
    subtitle: Option<string>,
    description: Option<string>,
    socials: Option<Socials>,
    meta: Option<Meta>,
    stats: Option<Stats>)

  /** `rawItem`; `type` is `kind` here. */
  datatype RawItem = RawItem(kind: Option<string>, role: Option<string>)

  /** A `{ label, value }` spec row; `label` is a Dafny keyword, so `key` here. */
  datatype Spec = Spec(key: string, value: string)

  /**
   * `SearchEntity`. `updatedAt` is held as milliseconds since the epoch,
   * the value `new Date(updatedAt).getTime()` yields for the ISO strings
   * the data uses.
   */
  datatype SearchEntity = SearchEntity(
    id: string,
    title: string,
    subtitle: Option<string>,
    href: string,
    scope: string,
    entity: Option<EntityHeader>,
    tags: Option<seq<string>>,
    updatedAt: Option<int>,
    rawItem: Option<RawItem>,
    stars: Option<int>,
    specs: Option<seq<Spec>>,
    badges: Option<seq<string>>,
    images: Option<seq<string>>)

  /** `e.rawItem?.type` */
  function RawKind(e: SearchEntity): (r: Option<string>)
    ensures r.Some? <==> e.rawItem.Some? && e.rawItem.value.kind.Some?
  {
    if e.rawItem.Some? then e.rawItem.value.kind else None
  }

  /** `e.rawItem?.role` */
  function RawRole(e: SearchEntity): (r: Option<string>)
    ensures r.Some? <==> e.rawItem.Some? && e.rawItem.value.role.Some?
  {
    if e.rawItem.Some? then e.rawItem.value.role else None
  }

  /** `e.entity?.name` */
  function EntityName(e: SearchEntity): (r: Option<string>)
    ensures r.Some? <==> e.entity.Some?
  {
    if e.entity.Some? then Some(e.entity.value.name) else None
  }

  /** `e.entity?.subtitle` */
  function EntitySubtitle(e: SearchEntity): (r: Option<string>)
    ensures r.Some? ==> e.entity.Some?
  {
    if e.entity.Some? then e.entity.value.subtitle else None
  }
}
