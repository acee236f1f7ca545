/**
 * The search feature's stored data (`lib/search/mockData.ts`): entity
 * headers built from the organisation table, the `ENTITIES` table and the
 * `MOCK_DATA` records.
 *
 * Building `ENTITIES` stops at the first handle the organisation table
 * lacks: against the table shipped with the organisations it throws at
 * "omnitudedesign", so `MOCK_DATA` is never produced. The records are
 * therefore stated over an entity table passed in; `updatedAt` values are
 * the epoch milliseconds of the ISO strings in the source.
 */
module MockData {
  import opened Common
  import opened Text
  import opened SearchTypes
  import opened Orgs
  import opened SearchQuery

  /** The properties `buildEntityFromOrg` takes from its caller; `type` is `kind`. */
  datatype Extra = Extra(
    kind: Option<string>,
    verified: Option<bool>,
    subtitle: Option<string>,
    logoUrl: Option<string>,
    description: Option<string>,
    socials: Option<Socials>,
    meta: Option<Meta>,
    stats: Option<Stats>)

  /** `a ?? b` on two optional values. */
  function OrOpt<T>(a: Option<T>, b: Option<T>): (r: Option<T>)
    ensures a.Some? ==> r == a
    ensures a.None? ==> r == b
  {
    if a.Some? then a else b
  }

  /**
   * The socials of a built header when the caller gives none: the org's
   * own socials, with its website as the fallback for `website`.
   */
  function FallbackSocials(org: OrgData): (s: Socials)
    ensures org.socials.Some? ==> s.website == OrOpt(org.socials.value.website, org.website)
                                  && s.twitter == org.socials.value.twitter
                                  && s.instagram == org.socials.value.instagram
                                  && s.linkedin == org.socials.value.linkedin
    ensures org.socials.None? ==> s == Socials(org.website, None, None, None)
  {
    match org.socials
    case Some(o) => Socials(OrOpt(o.website, org.website), o.twitter, o.instagram, o.linkedin)
    case None => Socials(org.website, None, None, None)
  }

  function NotFoundMessage(id: string, handle: string): string {
    "Org \"" + handle + "\" not found for entity \"" + id + "\""
  }

  /**
   * `buildEntityFromOrg`: a `Failure` carries the message the source
   * throws when the handle names no organisation.
   */
  function BuildEntityFromOrg(id: string, handle: string, extra: Extra): (r: Result<EntityHeader, string>)
    ensures r.Failure? <==> GetOrg(handle).None?
    ensures r.Failure? ==> r.error == NotFoundMessage(id, handle)
    ensures r.Success? ==>
      var org := GetOrg(handle).value;
      && r.value.id == id
      && r.value.name == org.displayName
      && r.value.kind == extra.kind && r.value.verified == extra.verified
      && r.value.subtitle == extra.subtitle && r.value.logoUrl == extra.logoUrl
      && r.value.meta == extra.meta && r.value.stats == extra.stats
      && r.value.description == Some(if extra.description.Some? then extra.description.value else org.bio)
      && r.value.socials == Some(if extra.socials.Some? then extra.socials.value else FallbackSocials(org))
  {
    match GetOrg(handle)
    case None => Failure(NotFoundMessage(id, handle))
    case Some(org) =>
      Success(EntityHeader(
        id, org.displayName, extra.logoUrl, extra.verified, extra.kind, extra.subtitle,
        Some(OrElse(extra.description, org.bio)),
        Some(OrElse(extra.socials, FallbackSocials(org))),
        extra.meta, extra.stats))
  }

  /** The error message names both the handle and the entity id. */
  lemma NotFoundNamesBoth(id: string, handle: string)
    ensures StartsWith(NotFoundMessage(id, handle), "Org \"" + handle + "\"")
    ensures Contains(NotFoundMessage(id, handle), id)
  {
    var m := NotFoundMessage(id, handle);
    var head := "Org \"" + handle + "\"";
    assert m == head + (" not found for entity \"" + id + "\"");
    assert m[..|head|] == head;
    var i := |"Org \"" + handle + "\" not found for entity \""|;
    assert m[i..i + |id|] == id;
    ContainsIff(m, id);
    assert OccursAt(m, id, i);
  }

  /** An `ENTITIES` entry: built from an organisation, or written out in full. */
  datatype EntitySource = FromOrg(id: string, handle: string, extra: Extra) | Literal(header: EntityHeader)

  /** One entry's value: a built header, or the build's error. */
  function BuildOne(src: EntitySource): (r: Result<EntityHeader, string>)
    ensures r.Failure? <==> src.FromOrg? && GetOrg(src.handle).None?
    ensures r.Failure? ==> r.error == NotFoundMessage(src.id, src.handle)
    ensures src.Literal? ==> r == Success(src.header)
  {
    match src
    case FromOrg(id, handle, extra) => BuildEntityFromOrg(id, handle, extra)
    case Literal(h) => Success(h)
  }

  /**
   * The entries of `ENTITIES` evaluated in order; the first build that
   * throws ends the evaluation with its message.
   */
  function BuildAll(sources: seq<(string, EntitySource)>): (r: Result<map<string, EntityHeader>, string>)
    ensures r.Failure? <==> exists i :: 0 <= i < |sources| && sources[i].1.FromOrg?
                                        && GetOrg(sources[i].1.handle).None?
    ensures r.Success? ==> forall i :: 0 <= i < |sources| ==> sources[i].0 in r.value
    decreases |sources|
  {
    if |sources| == 0 then Success(map[])
    else
      var (key, src) := sources[0];
      var head := BuildOne(src);
      if head.Failure? then Failure(head.error)
      else
        var rest := BuildAll(sources[1..]);
        assert forall i :: 1 <= i < |sources| ==> sources[i] == sources[1..][i - 1];
        if rest.Failure? then
          var j :| 0 <= j < |sources[1..]| && sources[1..][j].1.FromOrg? && GetOrg(sources[1..][j].1.handle).None?;
          assert sources[j + 1] == sources[1..][j];
          Failure(rest.error)
        else
          Success(rest.value[key := head.value])
  }

  /** The first failing entry decides the message. */
  lemma {:induction false} BuildAllFirstFailure(sources: seq<(string, EntitySource)>, i: int)
    requires 0 <= i < |sources| && sources[i].1.FromOrg? && GetOrg(sources[i].1.handle).None?
    requires forall j :: 0 <= j < i ==> sources[j].1.Literal? || GetOrg(sources[j].1.handle).Some?
    ensures BuildAll(sources) == Failure(NotFoundMessage(sources[i].1.id, sources[i].1.handle))
    decreases i
  {
    if i > 0 {
      assert BuildOne(sources[0].1).Success?;
      var rest := sources[1..];
      assert rest[i - 1] == sources[i];
      assert forall j :: 0 <= j < i - 1 ==> rest[j] == sources[j + 1];
      BuildAllFirstFailure(rest, i - 1);
    }
  }

  const AppleExtra := Extra(
    Some("company"), Some(true), Some("apple.com"), Some("/Apple_Icon_1.webp"),
    Some("Apple Inc. is an American multinational corporation and technology company headquartered and incorporated in Cupertino, California, in Silicon Valley."),
    Some(Socials(Some("https://apple.com"), Some("https://twitter.com/Apple"),
                 Some("https://instagram.com/apple"), Some("https://www.linkedin.com/company/apple"))),
    Some(Meta(Some("Cupertino, CA"), Some(1976), Some("160k+"), Some("Consumer electronics"))),
    Some(Stats(Some(120), Some(38), Some(20000000), Some(120000))))

  const OmnitudeExtra := Extra(
    Some("company"), Some(true), Some("omnitudedesign.com"), Some("/omnitudedesign1.png"),
    Some("OmnitudeDesign is a Dutch fashion and technology company headquartered in the Netherlands. It operates at the intersection of apparel, storytelling, and innovation, developing limited-edition garments, creator-driven collaborations, and long-term smart-wearable technologies that integrate seamlessly into its expanding digital ecosystem."),
    Some(Socials(Some("https://omnitudedesign.com"), Some("https://twitter.com/OmnitudeDesign"),
                 Some("https://instagram.com/omnnitudedesign"), Some("https://www.linkedin.com/company/omnitudedesign"))),
    Some(Meta(Some("Roosendaal, NL"), Some(2025), Some("1-10"), Some("Fashion & Design"))),
    Some(Stats(Some(2), Some(4), Some(9000), Some(1000))))

  const RaspberryExtra := Extra(
    Some("company"), Some(true), Some("raspberrypi.com"), Some("/Raspberry Pi Foundation_idwbF1-REU_0.jpeg"),
    Some("Raspberry Pi Ltd. designs and sells low-cost, high-performance single-board computers for education, makers, and industry."),
    Some(Socials(Some("https://raspberrypi.com"), Some("https://twitter.com/raspberrypi"),
                 Some("https://instagram.com/raspberrypi"), Some("https://www.linkedin.com/company/raspberrypi"))),
    Some(Meta(Some("Cambridge, UK"), Some(2012), Some("500+"), Some("SBCs & modules"))),
    Some(Stats(Some(25), Some(60), Some(1800000), Some(64000))))

  const IsoExtra := Extra(
    Some("organisation"), Some(true), Some("iso.org"), Some("/images/logos/Icon.jpeg"),
    Some("The International Organization for Standardization is an independent, non-governmental, international standard development organization composed of representatives from the national standards organizations of member countries."),
    Some(Socials(Some("https://iso.org"), Some("https://twitter.com/isostandards"),
                 Some("https://www.instagram.com/isostandards"), Some("https://www.linkedin.com/company/isostandards"))),
    Some(Meta(Some("Geneva, CH"), Some(1947), Some("150-200"), Some("International standards development"))),
    Some(Stats(Some(0), Some(1800), Some(20000), Some(14000))))

  const AluminumExtra := Extra(
    Some("organisation"), Some(true), Some("aluminum.com"), Some("/images/logos/AA.webp"),
    Some("Through the work of our standards team and the Technical Committee on Product Standards (TCPS), the association serves as the major standard setting organization for the global aluminum industry. This includes registering new aluminum alloys and products, managing and updating publications, and more."),
    Some(Socials(Some("https://aluminum.org"), Some("https://twitter.com/AluminumNews"),
                 Some("http://www.instagram.com/aluminumnews"), Some("https://www.linkedin.com/company/the-aluminum-association"))),
    Some(Meta(Some("Arlington, VA"), Some(1935), Some("10-30"), Some("Aluminum"))),
    Some(Stats(Some(0), Some(12), Some(2000), Some(200))))

  const LucasHeader := EntityHeader(
    "@lucasveenman", "Lucas Veenman", Some("https://i.pravatar.cc/300"), Some(false), Some("user"),
    Some("@lucasveenman"), None, None, None, Some(Stats(None, Some(7), Some(340), Some(120))))

  /** The entries of `ENTITIES`, in source order, over the properties each entry is given. */
  function SourcesOf(apple: Extra, omnitude: Extra, raspberry: Extra, iso: Extra, aluminum: Extra,
                     lucas: EntityHeader): seq<(string, EntitySource)>
  {
    [
      ("ent-apple", FromOrg("ent-apple", "apple", apple)),
      ("ent-omnitudedesign", FromOrg("ent-omnitudedesign", "omnitudedesign", omnitude)),
      ("ent-raspberry", FromOrg("ent-raspberry", "raspberrypi", raspberry)),
      ("ent-iso", FromOrg("ent-iso", "iso", iso)),
      ("ent-aluminum_association", FromOrg("ent-aluminum_association", "aluminumassociation", aluminum)),
      ("@lucasveenman", Literal(lucas))
    ]
  }

  /** `ENTITIES` */
  const EntitySources: seq<(string, EntitySource)> :=
    SourcesOf(AppleExtra, OmnitudeExtra, RaspberryExtra, IsoExtra, AluminumExtra, LucasHeader)

  /** Which of the handles `ENTITIES` uses the organisation table knows. */
  lemma EntityHandles()
    ensures GetOrg("apple").Some? && GetOrg("raspberrypi").Some? && GetOrg("iso").Some?
    ensures GetOrg("omnitudedesign").None? && GetOrg("aluminumassociation").None?
  {
    KnownHandles();
    UnknownHandles();
  }

  lemma KnownHandles()
    ensures GetOrg("apple").Some? && GetOrg("raspberrypi").Some? && GetOrg("iso").Some?
  {
    assert LowerStr("apple") == "apple";
    assert LowerStr("raspberrypi") == "raspberrypi";
    assert LowerStr("iso") == "iso";
  }

  lemma UnknownHandles()
    ensures GetOrg("omnitudedesign").None? && GetOrg("aluminumassociation").None?
  {
    assert LowerStr("omnitudedesign") == "omnitudedesign";
    assert LowerStr("aluminumassociation") == "aluminumassociation";
  }

  /**
   * Whatever properties the entries carry, evaluating them throws at the
   * second entry, with the message naming "omnitudedesign"; `EntitySources`
   * is one such instance.
   */
  lemma SourcesThrow(apple: Extra, omnitude: Extra, raspberry: Extra, iso: Extra, aluminum: Extra,
                     lucas: EntityHeader)
    ensures BuildAll(SourcesOf(apple, omnitude, raspberry, iso, aluminum, lucas))
         == Failure(NotFoundMessage("ent-omnitudedesign", "omnitudedesign"))
  {
    var src := SourcesOf(apple, omnitude, raspberry, iso, aluminum, lucas);
    KnownHandles();
    UnknownHandles();
    BuildAllFirstFailure(src, 1);
  }

  /** `MOCK_DATA`, over a given entity table. */
  function MockRecords(entities: map<string, EntityHeader>): (r: seq<SearchEntity>)
    ensures |r| == 5
    ensures forall i :: 0 <= i < |r| ==> r[i].scope != "companies"
    ensures forall i :: 0 <= i < |r| ==> r[i].scope in {"standards", "products", "projects"}
  {
    [
      SearchEntity("iso/iso-7380-1:2022", "ISO-7380-1:2022", Some("Button Head Screws \U{2022} Hexagon Socket"),
        "/iso/iso-7380-1:2022", "standards", Get(entities, "ent-iso"), Some(["bolts", "iso", "standards"]),
        Some(1664625600000), Some(RawItem(Some("standard"), None)), Some(21), None, None, Some([])),
      SearchEntity("aluminumassociation/6061-t6", "Aluminum 6061-T6", Some("Aluminum \U{2022} 6061-T6 \U{2022} Material"),
        "/aluminumassociation/material/6061-t6", "standards", Get(entities, "ent-aluminum_association"),
        Some(["aluminum", "material", "standards"]),
        Some(1696161600000), Some(RawItem(Some("standard"), None)), Some(22), None, None, Some([])),
      SearchEntity("prd-iphone15", "iPhone 15 Pro", Some("phone by Apple"),
        "/apple/product/iphone-15-pro", "products", Get(entities, "ent-apple"), Some(["phone", "apple"]),
        Some(1739188800000), Some(RawItem(Some("product"), None)), Some(1864), None, None,
        Some(["/images/products/iphone-15-pro.png"])),
      SearchEntity("prd-pi5", "Raspberry Pi 5", Some("Raspberry Pi 5 8GB RAM"),
        "/raspberrypi/product/pi-5-8gb", "products", Get(entities, "ent-raspberry"), Some(["raspberry", "sbcs"]),
        Some(1735732800000), Some(RawItem(Some("product"), None)), Some(2210), None, None,
        Some(["/images/products/raspberrypi-5.png"])),
      SearchEntity("opensource-glasess", "OS-Glasess", Some("Open product repo"),
        "/@lucasveenman/project/os-glasess", "projects", Get(entities, "@lucasveenman"),
        Some(["open source", "eyewear", "repo"]),
        Some(1759320000000), Some(RawItem(Some("project"), None)), Some(58), None, None,
        Some(["/images/products/glasess.png"]))
    ]
  }

  /** The entity keys the stored records refer to. */
  const RecordEntityKeys: set<string> :=
    {"ent-iso", "ent-aluminum_association", "ent-apple", "ent-raspberry", "@lucasveenman"}

  /**
   * Over an entity table that holds every key the records use, as the
   * records evidently intend, every stored record carries its entity.
   */
  lemma MockRecordsCarryEntities(entities: map<string, EntityHeader>)
    requires RecordEntityKeys <= entities.Keys
    ensures forall i :: 0 <= i < |MockRecords(entities)| ==> MockRecords(entities)[i].entity.Some?
  {
  }

  /** Each stored record's raw type is its scope in the singular, with no role. */
  lemma MockRecordKinds(entities: map<string, EntityHeader>, i: int)
    requires 0 <= i < |MockRecords(entities)|
    ensures var r := MockRecords(entities)[i];
      r.rawItem == Some(RawItem(Some(if r.scope == "standards" then "standard"
                                     else if r.scope == "products" then "product"
                                     else "project"), None))
  {
  }

  /**
   * No stored record is a "companies" record, so the index synthesises a
   * record for every company entity and for nothing else.
   */
  lemma EveryCompanyIsSynthesised(entities: map<string, EntityHeader>, values: seq<EntityHeader>, eh: EntityHeader)
    ensures ExistingCompanyIds(MockRecords(entities)) == {}
    ensures NeedsCompanyRecord(eh, MockRecords(entities)) <==> eh.kind == Some("company")
    ensures eh in values && eh.kind == Some("company") ==> CompanyRecord(eh) in Index(MockRecords(entities), values)
  {
    var mock := MockRecords(entities);
    assert forall e :: e in mock ==> e.scope != "companies";
    if eh in values && eh.kind == Some("company") {
      SynthesizeComplete(values, mock, eh);
    }
  }
}
