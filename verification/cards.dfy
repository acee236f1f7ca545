/**
 * Result cards: which card renders a search record
 * (`components/search/card-registry.tsx`) and what the three card
 * components show (`components/search/result-card.tsx`,
 * `components/search/cards/item-card.tsx`,
 * `components/search/cards/entity-card.tsx`): profile links, the image
 * carousel, and which pills, KPIs and links are visible. Markup is left
 * out; each card is reduced to the decisions it makes.
 */
module Cards {
  import opened Common
  import opened Text
  import opened Seqs
  import opened SearchTypes
  import SearchQuery
  import GlobalSearch
  import MockData

  /** The icons the cards use. */
  datatype Icon = ScrollText | Layers | Puzzle | Package | FolderGit2 | Orbit | Building2 | Store

  /** `TYPE_ICON` of the card registry. */
  const RegistryIcons: map<string, Icon> := map[
    "standard" := ScrollText, "material" := Layers, "component" := Puzzle,
    "product" := Package, "project" := FolderGit2, "process" := Orbit]

  /** `ITEM_TYPE_ICON` of the result card; note the plural "standards". */
  const ResultIcons: map<string, Icon> := map[
    "standards" := ScrollText, "material" := Layers, "component" := Puzzle,
    "product" := Package, "company" := Building2, "supplier" := Store]

  /** `table[key] ?? Package` */
  function IconOr(table: map<string, Icon>, key: string): (i: Icon)
    ensures key in table ==> i == table[key]
    ensures key !in table ==> i == Package
  {
    if key in table then table[key] else Package
  }

  // ---- card-registry ----

  /** The icon key: a component role wins over the raw type, which defaults to "product". */
  function TypeKey(item: SearchEntity): (k: string)
    ensures RawRole(item) == Some("component") ==> k == "component"
    ensures RawRole(item) != Some("component") && RawKind(item).Some? ==> k == RawKind(item).value
    ensures RawRole(item) != Some("component") && RawKind(item).None? ==> k == "product"
  {
    if RawRole(item) == Some("component") then "component" else OrElse(RawKind(item), "product")
  }

  datatype Card = EntityCard | ItemCard(typeIcon: Icon)

  /** `getCardForItem` */
  function GetCardForItem(item: SearchEntity): (c: Card)
    ensures c.EntityCard? <==> item.scope == "entities" || RawKind(item) == Some("entity")
    ensures c.ItemCard? ==> c.typeIcon == IconOr(RegistryIcons, TypeKey(item))
  {
    if item.scope == "entities" || RawKind(item) == Some("entity") then EntityCard
    else ItemCard(IconOr(RegistryIcons, TypeKey(item)))
  }

  /**
   * A component-role product gets the component icon, and the palette
   * files it under "components": the two views agree even though its
   * stored scope is "products".
   */
  lemma ComponentCardAgreesWithPalette(item: SearchEntity)
    requires item.scope == "products" && RawRole(item) == Some("component") && RawKind(item) != Some("entity")
    ensures GetCardForItem(item) == ItemCard(Puzzle)
    ensures GlobalSearch.ToSuggestion(item).scope == "components"
  {
  }

  /** Every stored record renders as an item card, with the icon of its raw type. */
  lemma StoredRecordsAreItemCards(entities: map<string, EntityHeader>, i: int)
    requires 0 <= i < |MockData.MockRecords(entities)|
    ensures var r := MockData.MockRecords(entities)[i];
      GetCardForItem(r) == ItemCard(if r.scope == "standards" then ScrollText
                                    else if r.scope == "products" then Package
                                    else FolderGit2)
  {
    var r := MockData.MockRecords(entities)[i];
    MockData.MockRecordKinds(entities, i);
    var kind := if r.scope == "standards" then "standard" else if r.scope == "products" then "product" else "project";
    ItemCardOfKind(r, kind);
  }

  lemma ItemCardOfKind(r: SearchEntity, kind: string)
    requires r.scope != "entities" && kind != "entity" && kind != "component"
    requires r.rawItem == Some(RawItem(Some(kind), None))
    ensures GetCardForItem(r) == ItemCard(IconOr(RegistryIcons, kind))
  {
  }

  // ---- profile links ----

  /** `slugifyName`: lower-case, then drop every character outside [a-z0-9]. */
  function SlugifyName(name: Option<string>): (r: string)
    ensures forall k :: 0 <= k < |r| ==> IsLowerAlnum(r[k])
    ensures |r| <= |OrElse(name, "")|
  {
    Filter(LowerStr(OrElse(name, "")), IsLowerAlnum)
  }

  /** A name already made of [a-z0-9] is its own slug; and slugging is idempotent. */
  lemma SlugifyNameKeeps(s: string)
    ensures (forall k :: 0 <= k < |s| ==> IsLowerAlnum(s[k])) ==> SlugifyName(Some(s)) == s
    ensures SlugifyName(Some(SlugifyName(Some(s)))) == SlugifyName(Some(s))
  {
    var t := SlugifyName(Some(s));
    forall k | 0 <= k < |t| ensures LowerStr(t)[k] == t[k] {
    }
    assert LowerStr(t) == t;
    FilterAll(t, IsLowerAlnum);
    if forall k :: 0 <= k < |s| ==> IsLowerAlnum(s[k]) {
      assert LowerStr(s) == s;
      FilterAll(s, IsLowerAlnum);
    }
  }

  /** Names that differ only in ASCII case share a slug. */
  lemma SlugifyNameCaseInsensitive(s: string)
    ensures SlugifyName(Some(LowerStr(s))) == SlugifyName(Some(s))
  {
    LowerStrIdempotent(s);
  }

  /** `profileHref`: "/" without an entity, "/"+id for "@" handles, else "/"+slug of the name. */
  function ProfileHref(entity: Option<EntityHeader>): (r: string)
    ensures |r| >= 1 && r[0] == '/'
    ensures entity.None? ==> r == "/"
    ensures entity.Some? && StartsWith(entity.value.id, "@") ==> r[1..] == entity.value.id
    ensures entity.Some? && !StartsWith(entity.value.id, "@") ==> r == "/" + SlugifyName(Some(entity.value.name))
    ensures entity.Some? && !StartsWith(entity.value.id, "@") ==> forall k :: 1 <= k < |r| ==> IsLowerAlnum(r[k])
  {
    match entity
    case None => "/"
    case Some(e) =>
      if e.id != "" && StartsWith(e.id, "@") then "/" + e.id
      else "/" + SlugifyName(Some(e.name))
  }

  /**
   * A handle link and a name link never collide: the first keeps its "@",
   * the second holds only [a-z0-9] after the slash.
   */
  lemma ProfileLinksDisjoint(a: EntityHeader, b: EntityHeader)
    requires StartsWith(a.id, "@") && !StartsWith(b.id, "@")
    ensures ProfileHref(Some(a)) != ProfileHref(Some(b))
  {
    var ra := ProfileHref(Some(a));
    var rb := ProfileHref(Some(b));
    assert ra[1] == '@';
    assert !IsLowerAlnum('@');
    if |rb| > 1 {
      assert IsLowerAlnum(rb[1]);
    }
  }

  // ---- image carousel ----

  const Placeholder: string := "https://dummyimage.com/1200x800/1f2937/ffffff.png&text=No+image"

  /** The images a card cycles through: the record's own unless it is a profile card or has none. */
  function Images(item: SearchEntity, profile: bool): (r: seq<string>)
    ensures |r| >= 1
    ensures !profile && item.images.Some? && |item.images.value| > 0 ==> r == item.images.value
    ensures profile || item.images.None? || item.images.value == [] ==> r == [Placeholder]
  {
    if !profile && item.images.Some? && |item.images.value| > 0 then item.images.value else [Placeholder]
  }

  /** The carousel controls appear only for more than one image. */
  predicate HasMany(images: seq<string>) {
    |images| > 1
  }

  /**
   * A card shows carousel controls exactly when it is not a profile card
   * and its record holds at least two images: the placeholder alone never
   * gets them.
   */
  lemma CarouselControls(item: SearchEntity, profile: bool)
    ensures HasMany(Images(item, profile)) <==> !profile && item.images.Some? && |item.images.value| > 1
  {
  }

  /** Previous image: `(n - 1 + len) % len`. */
  function PrevImage(n: int, len: int): (r: int)
    requires 0 <= n < len
    ensures 0 <= r < len
    ensures n > 0 ==> r == n - 1
    ensures n == 0 ==> r == len - 1
  {
    (n - 1 + len) % len
  }

  /** Next image: `(n + 1) % len`. */
  function NextImage(n: int, len: int): (r: int)
    requires 0 <= n < len
    ensures 0 <= r < len
    ensures n < len - 1 ==> r == n + 1
    ensures n == len - 1 ==> r == 0
  {
    (n + 1) % len
  }

  /** A dot click selects its own image. */
  function DotImage(i: int, len: int): (r: int)
    requires 0 <= i < len
    ensures 0 <= r < len
  {
    i
  }

  /** Prev and Next undo each other. */
  lemma PrevNextInverse(n: int, len: int)
    requires 0 <= n < len
    ensures NextImage(PrevImage(n, len), len) == n
    ensures PrevImage(NextImage(n, len), len) == n
  {
  }

  /** The image index after any run of carousel clicks, starting at 0. */
  datatype Click = Prev | Next | Dot(i: int)

  function Carousel(len: int, clicks: seq<Click>): (r: int)
    requires len >= 1
    requires forall k :: 0 <= k < |clicks| && clicks[k].Dot? ==> 0 <= clicks[k].i < len
    ensures 0 <= r < len
    decreases |clicks|
  {
    if |clicks| == 0 then 0
    else
      var n := Carousel(len, clicks[..|clicks| - 1]);
      match clicks[|clicks| - 1]
      case Prev => PrevImage(n, len)
      case Next => NextImage(n, len)
      case Dot(i) => DotImage(i, len)
  }

  /** `k` clicks on Next. */
  function Nexts(k: nat): (r: seq<Click>)
    ensures |r| == k && forall i :: 0 <= i < k ==> r[i] == Next
  {
    if k == 0 then [] else Nexts(k - 1) + [Next]
  }

  /** Fewer than `len` Next clicks step through the images one by one. */
  lemma {:induction false} NextsStep(len: int, k: nat)
    requires k < len
    ensures Carousel(len, Nexts(k)) == k
  {
    if k > 0 {
      NextsStep(len, k - 1);
      assert Nexts(k)[..k - 1] == Nexts(k - 1);
    }
  }

  /** `len` Next clicks bring the carousel back to the first image. */
  lemma NextCycles(len: int)
    requires len >= 1
    ensures Carousel(len, Nexts(len)) == 0
  {
    NextsStep(len, len - 1);
    var cs := Nexts(len);
    assert cs[..len - 1] == Nexts(len - 1);
    assert cs[len - 1] == Next;
    assert Carousel(len, cs) == NextImage(Carousel(len, cs[..len - 1]), len);
  }

  // ---- visibility rules ----

  /** The card is a profile card for company and supplier records. */
  predicate IsProfile(item: SearchEntity) {
    var t := OrElse(RawKind(item), "");
    t == "company" || t == "supplier"
  }

  /** Follow shows for company and user entities. */
  predicate ShowFollow(item: SearchEntity) {
    item.entity.Some? && (item.entity.value.kind == Some("company") || item.entity.value.kind == Some("user"))
  }

  /** The result card's type icon: none for an empty raw type, else its own with a `Package` fallback. */
  function ResultTypeIcon(item: SearchEntity): (r: Option<Icon>)
    ensures r.None? <==> OrElse(RawKind(item), "") == ""
  {
    var t := OrElse(RawKind(item), "");
    if t == "" then None else Some(IconOr(ResultIcons, t))
  }

  /**
   * The two icon tables disagree on standards: the registry gives a
   * "standard" record the scroll icon, the result card (keyed "standards")
   * falls back to the package icon.
   */
  lemma StandardIconsDisagree(item: SearchEntity)
    requires RawKind(item) == Some("standard") && RawRole(item) != Some("component") && item.scope != "entities"
    ensures GetCardForItem(item) == ItemCard(ScrollText)
    ensures ResultTypeIcon(item) == Some(Package)
  {
  }

  /** An `InfoPill` value: absent, a string, a number, or `NaN`. */
  datatype PillValue = Absent | Text(s: string) | Number(n: int) | NotANumber

  /** `!value && value !== 0` hides the pill. */
  predicate PillShown(v: PillValue) {
    (v.Text? && v.s != "") || v.Number?
  }

  /** Of the falsy values only 0 survives the pill's guard: absent, "" and `NaN` are hidden. */
  lemma PillShownValues(s: string, n: int)
    ensures PillShown(Number(0)) && PillShown(Number(n))
    ensures !PillShown(Absent) && !PillShown(Text("")) && !PillShown(NotANumber)
    ensures PillShown(Text(s)) <==> s != ""
  {
  }

  /** A KPI is shown iff its value is defined: 0 is shown. */
  function Kpis(rows: seq<(string, Option<int>)>): (r: seq<(string, int)>)
    ensures |r| <= |rows|
    ensures forall i :: 0 <= i < |r| ==> (r[i].0, Some(r[i].1)) in rows
    ensures forall i :: 0 <= i < |rows| && rows[i].1.Some? ==> (rows[i].0, rows[i].1.value) in r
    decreases |rows|
  {
    if |rows| == 0 then []
    else
      var rest := Kpis(rows[1..]);
      assert forall i :: 1 <= i < |rows| ==> rows[i] == rows[1..][i - 1];
      match rows[0].1
      case Some(v) => [(rows[0].0, v)] + rest
      case None => rest
  }

  function StatsOf(item: SearchEntity): Option<Stats> {
    if item.entity.Some? then item.entity.value.stats else None
  }

  function MetaOf(item: SearchEntity): Option<Meta> {
    if item.entity.Some? then item.entity.value.meta else None
  }

  function Stat(s: Option<Stats>, f: Stats -> Option<int>): Option<int> {
    if s.Some? then f(s.value) else None
  }

  /** The meta pills a profile shows: "Founded" whenever defined (0 too); hq and size only when non-empty. */
  datatype MetaPills = MetaPills(hq: Option<string>, founded: Option<int>, size: Option<string>, focus: Option<string>)

  function ShownMeta(m: Option<Meta>): (r: MetaPills)
    ensures m.Some? ==> r.founded == m.value.founded
    ensures m.None? ==> r == MetaPills(None, None, None, None)
    ensures (r.hq.Some? ==> r.hq.value != "") && (r.size.Some? ==> r.size.value != "")
    ensures m.Some? && Truthy(m.value.hq) ==> r.hq == m.value.hq
    ensures m.Some? && Truthy(m.value.size) ==> r.size == m.value.size
    ensures m.Some? && !Truthy(m.value.hq) ==> r.hq.None?
    ensures m.Some? && !Truthy(m.value.size) ==> r.size.None?
    ensures r.focus.Some? ==> m.Some? && r.focus == m.value.focus && PillShown(Text(r.focus.value))
    ensures m.Some? && m.value.focus.Some? && PillShown(Text(m.value.focus.value)) ==> r.focus == m.value.focus
  {
    match m
    case None => MetaPills(None, None, None, None)
    case Some(mm) =>
      MetaPills(if Truthy(mm.hq) then mm.hq else None, mm.founded,
                if Truthy(mm.size) then mm.size else None,
                if Truthy(mm.focus) then mm.focus else None)
  }

  /** The social links in the order a card lists them. */
  const SocialTags: seq<string> := ["Website", "Twitter", "Instagram", "LinkedIn"]

  /** A social link's place in the row: website, Twitter, Instagram, LinkedIn. */
  function SocialRank(tag: string): int {
    if tag == "Website" then 0 else if tag == "Twitter" then 1 else if tag == "Instagram" then 2 else 3
  }

  /** The field behind a social link's tag. */
  function SocialField(so: Socials, tag: string): Option<string> {
    if tag == "Website" then so.website
    else if tag == "Twitter" then so.twitter
    else if tag == "Instagram" then so.instagram
    else so.linkedin
  }

  /** Each link a row lists is one of `tags`, truthy in `so`, and carries its own value. */
  predicate LinksOf(so: Socials, tags: seq<string>, r: seq<(string, string)>) {
    forall i :: 0 <= i < |r| ==>
      r[i].0 in tags && Truthy(SocialField(so, r[i].0)) && r[i].1 == SocialField(so, r[i].0).value
  }

  /** The row's links stand in strictly increasing rank, so none repeats. */
  predicate RankOrdered(r: seq<(string, string)>) {
    forall i, j :: 0 <= i < j < |r| ==> SocialRank(r[i].0) < SocialRank(r[j].0)
  }

  /** Every truthy link of `so` among `tags` is listed with its value. */
  predicate AllLinked(so: Socials, tags: seq<string>, r: seq<(string, string)>) {
    forall t :: t in tags && Truthy(SocialField(so, t)) ==> (t, SocialField(so, t).value) in r
  }

  /**
   * `r` shows exactly the truthy links of `so`, each with its own value and
   * tag, in the order website, Twitter, Instagram, LinkedIn.
   */
  predicate ListsSocials(so: Socials, r: seq<(string, string)>) {
    LinksOf(so, SocialTags, r) && RankOrdered(r) && AllLinked(so, SocialTags, r)
  }

  /** The truthy links among `tags`, in the order of `tags`. */
  function LinksFrom(so: Socials, tags: seq<string>): (r: seq<(string, string)>)
    ensures |r| <= |tags|
    decreases |tags|
  {
    if |tags| == 0 then []
    else
      var rest := LinksFrom(so, tags[1..]);
      var f := SocialField(so, tags[0]);
      if Truthy(f) then [(tags[0], f.value)] + rest else rest
  }

  /** Over tags in increasing rank, the listed links are truthy, carry their values and keep rank order. */
  lemma {:induction false} LinksFromListed(so: Socials, tags: seq<string>)
    requires forall i, j :: 0 <= i < j < |tags| ==> SocialRank(tags[i]) < SocialRank(tags[j])
    ensures LinksOf(so, tags, LinksFrom(so, tags))
    ensures RankOrdered(LinksFrom(so, tags))
    decreases |tags|
  {
    if |tags| > 0 {
      var rest := LinksFrom(so, tags[1..]);
      LinksFromListed(so, tags[1..]);
      forall i | 0 <= i < |rest| ensures SocialRank(tags[0]) < SocialRank(rest[i].0) {
        var k :| 0 <= k < |tags[1..]| && tags[1..][k] == rest[i].0;
        assert tags[k + 1] == rest[i].0;
      }
    }
  }

  /** Every truthy link among `tags` is listed with its value. */
  lemma {:induction false} LinksFromComplete(so: Socials, tags: seq<string>)
    ensures AllLinked(so, tags, LinksFrom(so, tags))
    decreases |tags|
  {
    if |tags| > 0 {
      LinksFromComplete(so, tags[1..]);
      forall t | t in tags && t != tags[0] ensures t in tags[1..] {
        var k :| 0 <= k < |tags| && tags[k] == t;
        assert tags[1..][k - 1] == t;
      }
    }
  }

  /** The social links shown: one anchor per truthy link, website first. */
  function SocialLinks(s: Option<Socials>): (r: seq<(string, string)>)
    ensures s.None? ==> r == []
    ensures s.Some? ==> ListsSocials(s.value, r)
    ensures |r| <= 4
    ensures forall i :: 0 <= i < |r| ==> r[i].1 != ""
  {
    match s
    case None => []
    case Some(so) =>
      LinksFromListed(so, SocialTags);
      LinksFromComplete(so, SocialTags);
      LinksFrom(so, SocialTags)
  }

  // ---- the three cards ----

  /** The profile card's KPI rows: it asks for a standards count that stats never carry. */
  function ProfileKpiRows(item: SearchEntity): seq<(string, Option<int>)> {
    [("Products", Stat(StatsOf(item), (s: Stats) => s.products)),
     ("Standards", None),
     ("Followers", Stat(StatsOf(item), (s: Stats) => s.followers)),
     ("Stars", Stat(StatsOf(item), (s: Stats) => s.stars))]
  }

  /** The entity card's KPI rows. */
  function EntityKpiRows(e: EntityHeader): seq<(string, Option<int>)> {
    [("Products", Stat(e.stats, (s: Stats) => s.products)),
     ("Repos", Stat(e.stats, (s: Stats) => s.repos)),
     ("Followers", Stat(e.stats, (s: Stats) => s.followers)),
     ("Stars", Stat(e.stats, (s: Stats) => s.stars))]
  }

  /** `specs.slice(0, n)`: the first `n` entries, or all of them when fewer. */
  predicate FirstOf<T(==)>(r: seq<T>, s: seq<T>, n: nat) {
    r <= s && |r| == (if n < |s| then n else |s|)
  }

  /** What `ResultCard` decides to show. */
  datatype ResultView = ResultView(
    profile: bool,
    header: bool,
    headerLink: string,
    follow: bool,
    typeIcon: Option<Icon>,
    images: seq<string>,
    specs: seq<Spec>,
    badges: seq<string>,
    kpis: seq<(string, int)>,
    meta: MetaPills,
    socials: seq<(string, string)>)

  function ResultCard(item: SearchEntity): (v: ResultView)
    ensures v.profile <==> IsProfile(item)
    ensures v.header <==> v.profile || item.entity.Some?
    ensures v.headerLink == ProfileHref(item.entity)
    ensures v.follow <==> ShowFollow(item)
    ensures v.typeIcon == ResultTypeIcon(item)
    ensures v.images == Images(item, v.profile)
    ensures !v.profile ==> FirstOf(v.specs, OrElse(item.specs, []), 3) && FirstOf(v.badges, OrElse(item.badges, []), 2)
    ensures v.profile ==> v.specs == [] && v.badges == []
    ensures !v.profile ==> v.kpis == [] && v.meta == MetaPills(None, None, None, None) && v.socials == []
    ensures v.profile ==> v.kpis == Kpis(ProfileKpiRows(item)) && v.meta == ShownMeta(MetaOf(item))
    ensures v.profile && item.entity.Some? ==> v.socials == SocialLinks(item.entity.value.socials)
    ensures v.profile && item.entity.None? ==> v.socials == []
    ensures |v.images| >= 1 && |v.specs| <= 3 && |v.badges| <= 2
    ensures forall i :: 0 <= i < |v.kpis| ==> v.kpis[i].0 != "Standards"
  {
    var profile := IsProfile(item);
    var e := item.entity;
    ResultView(
      profile,
      profile || e.Some?,
      ProfileHref(e),
      ShowFollow(item),
      ResultTypeIcon(item),
      Images(item, profile),
      if profile then [] else Take(OrElse(item.specs, []), 3),
      if profile then [] else Take(OrElse(item.badges, []), 2),
      if profile then Kpis(ProfileKpiRows(item)) else [],
      if profile then ShownMeta(MetaOf(item)) else MetaPills(None, None, None, None),
      if profile && e.Some? then SocialLinks(e.value.socials) else [])
  }

  /**
   * A profile card shows the products, followers and stars counts exactly
   * when they are defined (0 included), and never a standards count.
   */
  lemma ProfileKpisShown(item: SearchEntity, n: int)
    requires IsProfile(item)
    ensures ("Products", n) in ResultCard(item).kpis <==> Stat(StatsOf(item), (s: Stats) => s.products) == Some(n)
    ensures ("Followers", n) in ResultCard(item).kpis <==> Stat(StatsOf(item), (s: Stats) => s.followers) == Some(n)
    ensures ("Stars", n) in ResultCard(item).kpis <==> Stat(StatsOf(item), (s: Stats) => s.stars) == Some(n)
    ensures ("Standards", n) !in ResultCard(item).kpis
  {
    var rows := ProfileKpiRows(item);
    assert (("Products", Some(n)) in rows) <==> rows[0].1 == Some(n);
    assert (("Followers", Some(n)) in rows) <==> rows[2].1 == Some(n);
    assert (("Stars", Some(n)) in rows) <==> rows[3].1 == Some(n);
    assert ("Standards", Some(n)) !in rows;
  }

  /** What `ItemCard` decides to show. */
  datatype ItemView = ItemView(header: bool, headerLink: string, images: seq<string>, specs: seq<Spec>, badges: seq<string>)

  function ItemCardView(item: SearchEntity): (v: ItemView)
    ensures v.header <==> item.entity.Some?
    ensures v.headerLink == ProfileHref(item.entity)
    ensures v.images == Images(item, false)
    ensures FirstOf(v.specs, OrElse(item.specs, []), 3) && FirstOf(v.badges, OrElse(item.badges, []), 2)
    ensures |v.images| >= 1 && |v.specs| <= 3 && |v.badges| <= 2
  {
    ItemView(item.entity.Some?, ProfileHref(item.entity), Images(item, false),
             Take(OrElse(item.specs, []), 3), Take(OrElse(item.badges, []), 2))
  }

  /**
   * The item card and the non-profile result card agree on the header,
   * its link, the images, the specs and the badges.
   */
  lemma ItemCardMatchesResultCard(item: SearchEntity)
    requires !IsProfile(item)
    ensures var a := ItemCardView(item); var b := ResultCard(item);
      a.header == b.header && a.headerLink == b.headerLink && a.images == b.images
      && a.specs == b.specs && a.badges == b.badges
  {
  }

  /** What `EntityCard` decides to show; nothing at all without an entity. */
  datatype EntityView = EntityView(link: string, kpis: seq<(string, int)>, meta: MetaPills, socials: seq<(string, string)>)

  function EntityCardView(item: SearchEntity): (v: Option<EntityView>)
    ensures v.None? <==> item.entity.None?
    ensures v.Some? ==> v.value.link == ProfileHref(item.entity) && |v.value.kpis| <= 4
    ensures v.Some? ==> v.value.kpis == Kpis(EntityKpiRows(item.entity.value))
    ensures v.Some? ==> v.value.meta == ShownMeta(item.entity.value.meta)
    ensures v.Some? && item.entity.value.socials.Some? ==> ListsSocials(item.entity.value.socials.value, v.value.socials)
    ensures v.Some? && item.entity.value.socials.None? ==> v.value.socials == []
  {
    match item.entity
    case None => None
    case Some(e) =>
      Some(EntityView(ProfileHref(item.entity), Kpis(EntityKpiRows(e)), ShownMeta(e.meta), SocialLinks(e.socials)))
  }

  /** The entity card shows each of its four counts exactly when it is defined, 0 included. */
  lemma EntityKpisShown(item: SearchEntity, e: EntityHeader, n: int)
    requires item.entity == Some(e)
    ensures ("Products", n) in EntityCardView(item).value.kpis <==> Stat(e.stats, (s: Stats) => s.products) == Some(n)
    ensures ("Repos", n) in EntityCardView(item).value.kpis <==> Stat(e.stats, (s: Stats) => s.repos) == Some(n)
    ensures ("Followers", n) in EntityCardView(item).value.kpis <==> Stat(e.stats, (s: Stats) => s.followers) == Some(n)
    ensures ("Stars", n) in EntityCardView(item).value.kpis <==> Stat(e.stats, (s: Stats) => s.stars) == Some(n)
  {
    var rows := EntityKpiRows(e);
    assert (("Products", Some(n)) in rows) <==> rows[0].1 == Some(n);
    assert (("Repos", Some(n)) in rows) <==> rows[1].1 == Some(n);
    assert (("Followers", Some(n)) in rows) <==> rows[2].1 == Some(n);
    assert (("Stars", Some(n)) in rows) <==> rows[3].1 == Some(n);
  }

  /** A zero count is shown on the entity card, and a founding year of 0 too. */
  lemma EntityCardShowsZeros(item: SearchEntity, e: EntityHeader)
    requires item.entity == Some(e)
    requires e.stats == Some(Stats(Some(0), None, None, None))
    requires e.meta.Some? && e.meta.value.founded == Some(0)
    ensures EntityCardView(item).value.kpis == [("Products", 0)]
    ensures EntityCardView(item).value.meta.founded == Some(0)
  {
    var rows := EntityKpiRows(e);
    assert rows[0].1 == Some(0) && rows[1].1.None? && rows[2].1.None? && rows[3].1.None?;
    assert Kpis(rows[3..]) == [];
    assert rows[2..][1..] == rows[3..];
    assert Kpis(rows[2..]) == [];
    assert rows[1..][1..] == rows[2..];
    assert Kpis(rows[1..]) == [];
    assert Kpis(rows) == [("Products", 0)];
  }
}
