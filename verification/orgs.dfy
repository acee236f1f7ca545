/**
 * The in-memory organisation table (`lib/data/orgs.ts`): repository links,
 * the case-insensitive `getOrg` lookup and `getReposForOwner`.
 *
 * The table is a plain JavaScript object, so `demoData[key]` also finds the
 * members every object inherits from `Object.prototype`. `GetOrgAsWritten`
 * models that lookup; `GetOrg` is the own-key lookup the function's
 * `OrgData | null` type promises, and the rest of the model uses it.
 */
module Orgs {
  import opened Common
  import opened Text
  import opened SearchTypes

  /** `TypedRepo`; the property `type` is `kind` here. */
  datatype TypedRepo = TypedRepo(
    name: string,
    kind: string,
    description: Option<string>,
    stars: Option<int>,
    updatedAt: Option<string>)

  datatype Link = Link(text: string, href: string)

  datatype Readme = Readme(
    title: string,
    body: seq<string>,
    badges: Option<seq<string>>,
    links: Option<seq<Link>>)

  datatype Person = Person(name: string, role: Option<string>)

  datatype MaterialShare = MaterialShare(material: string, pct: int)

  /**
   * `OrgData`. The TypeScript type has no `socials` property, yet callers
   * read `org.socials?.…`; the field is here so that those reads can be
   * stated, and every record of the table leaves it `None`.
   */
  datatype OrgData = OrgData(
    handle: string,
    displayName: string,
    bio: string,
    website: Option<string>,
    location: Option<string>,
    followers: Option<string>,
    contact: Option<string>,
    readme: Readme,
    pinnedRepos: seq<TypedRepo>,
    people: seq<Person>,
    sponsors: seq<string>,
    materials: seq<MaterialShare>,
    tags: seq<string>,
    socials: Option<Socials>)

  /** The href of a repository: `/owner/type/name`. */
  function BuildRepoHref(owner: string, repo: TypedRepo): (r: string)
    ensures StartsWith(r, "/" + owner + "/")
    ensures |r| == |owner| + |repo.kind| + |repo.name| + 3
  {
    "/" + owner + "/" + repo.kind + "/" + repo.name
  }

  /**
   * When no part contains a slash, the href splits back into its parts:
   * owner, type and name can be recovered from the link.
   */
  lemma BuildRepoHrefSplit(owner: string, repo: TypedRepo)
    requires '/' !in owner && '/' !in repo.kind && '/' !in repo.name
    ensures Split(BuildRepoHref(owner, repo), '/') == ["", owner, repo.kind, repo.name]
  {
    var parts := ["", owner, repo.kind, repo.name];
    assert Join(parts[3..], '/') == repo.name;
    assert Join(parts[2..], '/') == repo.kind + "/" + repo.name;
    assert Join(parts[1..], '/') == owner + "/" + repo.kind + "/" + repo.name;
    assert Join(parts, '/') == BuildRepoHref(owner, repo);
    SplitJoin(parts, '/');
  }

  const Iso := OrgData(
    "iso", "ISO", "International Organization for Standardization.",
    Some("https://www.iso.org"), Some("Global"), Some("250k"), Some("info@iso.org"),
    Readme(
      "ISO Standards",
      ["Global standards for technology, manufacturing, and safety.",
       "Used as references for consistent quality and interoperability."],
      Some(["standards", "global"]),
      Some([Link("Website", "https://www.iso.org"), Link("Docs", "/orgs/iso/repositories")])),
    [TypedRepo("iso-4017", "standard", Some("Hex head bolts \U{E2}\U{20AC}\U{201D} Metric thread"), Some(150), Some("2025-01-05T12:00:00Z")),
     TypedRepo("iso-26262", "standard", Some("Functional safety for automotive"), Some(97), Some("2025-02-10T12:00:00Z"))],
    [Person("Standardization Team", None)],
    [], [],
    ["standards", "safety", "manufacturing"],
    None)

  const Apple := OrgData(
    "apple", "Apple Inc.", "Designing innovative consumer electronics and software.",
    Some("https://www.apple.com"), Some("Cupertino, USA"), Some("12M"), Some("contact@apple.com"),
    Readme(
      "Apple Engineering",
      ["Projects and component standards powering Apple products.",
       "Collaborations across suppliers and manufacturing partners."],
      Some(["hardware", "design", "innovation"]),
      Some([Link("Website", "https://www.apple.com"), Link("Docs", "/orgs/apple/repositories")])),
    [TypedRepo("iphone-15-pro", "product", Some("Titanium iPhone with A17 Pro chip"), Some(900), Some("2025-02-01T12:00:00Z")),
     TypedRepo("m3-chip", "product", Some("Apple Silicon M3"), Some(760), Some("2025-01-15T12:00:00Z"))],
    [Person("J. Ive", Some("Design"))],
    [], [MaterialShare("Titanium", 50)],
    ["consumer", "electronics", "design"],
    None)

  const RaspberryPi := OrgData(
    "raspberrypi", "Raspberry Pi Foundation", "Accessible computing for everyone.",
    Some("https://www.raspberrypi.org"), Some("UK"), Some("500k"), Some("info@raspberrypi.org"),
    Readme(
      "Raspberry Pi Projects",
      ["Open hardware computing boards and educational kits.",
       "Driving open collaboration between hardware and software communities."],
      Some(["open source", "education"]),
      Some([Link("Website", "https://www.raspberrypi.org"), Link("Docs", "/orgs/raspberrypi/repositories")])),
    [TypedRepo("raspberrypi-5", "product", Some("Latest Raspberry Pi board with enhanced CPU"), Some(420), Some("2025-03-01T12:00:00Z")),
     TypedRepo("camera-module-3", "product", Some("High-resolution camera module."), Some(210), Some("2025-01-12T12:00:00Z"))],
    [Person("Eben Upton", Some("Founder"))],
    [], [],
    ["hardware", "education", "opensource"],
    None)

  /** `demoData`, by own key. */
  const DemoData: map<string, OrgData> :=
    map["iso" := Iso, "apple" := Apple, "raspberrypi" := RaspberryPi]

  /** Every key of the table is the handle of the record stored under it. */
  lemma TableKeysAreHandles()
    ensures forall k :: k in DemoData ==> DemoData[k].handle == k
    ensures DemoData.Keys == {"iso", "apple", "raspberrypi"}
  {
  }

  /** `getOrg`: look up the lower-cased handle; `None` is `null`. */
  function GetOrg(handle: string): (r: Option<OrgData>)
    ensures r.Some? <==> LowerStr(handle) in DemoData
    ensures r.Some? ==> r.value.handle == LowerStr(handle) && r.value == DemoData[LowerStr(handle)]
  {
    var key := LowerStr(handle);
    if key in DemoData then Some(DemoData[key]) else None
  }

  /** The lookup ignores ASCII case: `getOrg(h) == getOrg(h.toLowerCase())`. */
  lemma GetOrgCaseInsensitive(handle: string)
    ensures GetOrg(handle) == GetOrg(LowerStr(handle))
  {
    LowerStrIdempotent(handle);
  }

  /** `getReposForOwner`: the org's pinned repositories, or none. */
  function GetReposForOwner(handle: string): (r: seq<TypedRepo>)
    ensures GetOrg(handle).None? ==> r == []
    ensures GetOrg(handle).Some? ==> r == GetOrg(handle).value.pinnedRepos
  {
    match GetOrg(handle)
    case Some(org) => org.pinnedRepos
    case None => []
  }

  /** Each org's pinned repositories link under that org's handle. */
  lemma PinnedReposLinkUnderOwner(handle: string, i: int)
    requires 0 <= i < |GetReposForOwner(handle)|
    ensures StartsWith(BuildRepoHref(LowerStr(handle), GetReposForOwner(handle)[i]),
                       "/" + GetOrg(handle).value.handle + "/")
  {
  }

  // ---- The lookup as written: plain object indexing ----

  /** The own and inherited property names of `Object.prototype`. */
  const PrototypeMembers: set<string> := {
    "constructor", "__proto__", "__defineGetter__", "__defineSetter__",
    "__lookupGetter__", "__lookupSetter__", "hasOwnProperty", "isPrototypeOf",
    "propertyIsEnumerable", "toString", "toLocaleString", "valueOf"
  }

  /** What `demoData[key]` yields: an own record, an inherited member, or `undefined`. */
  datatype Lookup = Own(org: OrgData) | Inherited(member: string) | Undefined

  /**
   * `demoData[handle.toLowerCase()] ?? null` as written. An inherited
   * member (a function, or `Object.prototype` itself) is not nullish, so
   * `??` passes it through.
   */
  function GetOrgAsWritten(handle: string): (r: Lookup)
    ensures r.Own? <==> LowerStr(handle) in DemoData
    ensures r.Inherited? ==> r.member in PrototypeMembers && r.member == LowerStr(handle)
  {
    var key := LowerStr(handle);
    if key in DemoData then Own(DemoData[key])
    else if key in PrototypeMembers then Inherited(key)
    else Undefined
  }

  /**
   * The handle "constructor" names no organisation, yet the lookup as
   * written returns a non-null value for it (the `Object` constructor),
   * where the corrected lookup returns `null`.
   */
  lemma ConstructorIsNotAnOrg()
    ensures GetOrgAsWritten("constructor") == Inherited("constructor")
    ensures GetOrg("constructor") == None
  {
    assert LowerStr("constructor") == "constructor";
  }

  /** A position of an upper-case letter in every other prototype member. */
  function UpperPosition(m: string): (i: nat)
    requires m in PrototypeMembers && m != "constructor" && m != "__proto__"
    ensures i < |m| && IsAsciiUpper(m[i])
  {
    if m == "hasOwnProperty" then 3
    else if m == "isPrototypeOf" || m == "toString" || m == "toLocaleString" then 2
    else if m == "valueOf" then 5
    else 8
  }

  /**
   * Since the key is lower-cased first, only the two all-lower-case
   * prototype members are reachable; on every other handle the lookup as
   * written and the corrected lookup agree.
   */
  lemma AsWrittenAgreesElsewhere(handle: string)
    requires LowerStr(handle) != "constructor" && LowerStr(handle) != "__proto__"
    ensures GetOrgAsWritten(handle).Inherited? == false
    ensures GetOrgAsWritten(handle).Own? <==> GetOrg(handle).Some?
    ensures GetOrg(handle).Some? ==> GetOrgAsWritten(handle) == Own(GetOrg(handle).value)
  {
    var key := LowerStr(handle);
    forall m | m in PrototypeMembers && m != "constructor" && m != "__proto__"
      ensures key != m
    {
      var i := UpperPosition(m);
      assert |key| != |m| || key[i] != m[i];
    }
  }
}
