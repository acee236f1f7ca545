/**
 * The in-memory project table (`lib/data/projects.ts`) and its two
 * case-insensitive lookups. The lookups take the table as a parameter;
 * `DemoProjects` is the table the source ships.
 */
module Projects {
  import opened Common
  import opened Text
  import opened Seqs

  /** `ProjectVariant`; its `label` is `name` here (`label` is a Dafny keyword), and `kind` is one of "base", "variant", "prototype". */
  datatype Variant = Variant(id: string, name: string, kind: string)

  datatype LinkGroup = LinkGroup(
    products: Option<seq<string>>,
    materials: Option<seq<string>>,
    processes: Option<seq<string>>,
    standards: Option<seq<string>>)

  /** `ProjectData` */
  datatype ProjectData = ProjectData(
    owner: string,
    slug: string,
    name: string,
    description: string,
    baseVariantId: string,
    variants: seq<Variant>,
    stage: string,
    updatedAt: string,
    links: Option<LinkGroup>)

  const DemoProjects: seq<ProjectData> := [
    ProjectData(
      "apple", "iphone-15", "iPhone 15",
      "End-to-end development workspace for the iPhone 15 series hardware: enclosure, PCB stack, optics, and mechanical integration.",
      "iphone-15",
      [Variant("iphone-15", "iPhone 15", "base"),
       Variant("iphone-15-pro", "iPhone 15 Pro", "variant"),
       Variant("iphone-15-pro-max", "iPhone 15 Pro Max", "variant"),
       Variant("prototype-15231", "Prototype 15231", "prototype"),
       Variant("prototype-15232", "Prototype 15232", "prototype")],
      "production", "2025-02-01T12:00:00Z",
      Some(LinkGroup(Some(["A16 Bionic"]), Some(["titanium-ti-6al-4v"]), Some(["cnc-ti-frame-v1"]), Some(["iso-4017"])))),
    ProjectData(
      "raspberrypi", "raspberrypi-5-mainboard", "Raspberry Pi 5 Mainboard",
      "Mainboard layout, mechanical stack-up, and assembly flow for the Raspberry Pi 5 platform.",
      "rev-a",
      [Variant("rev-a", "Rev A", "base"),
       Variant("rev-b", "Rev B", "variant"),
       Variant("proto-01", "Proto 01", "prototype")],
      "production", "2025-03-01T12:00:00Z",
      Some(LinkGroup(Some(["raspberrypi-5"]), Some(["fr4-core-stackup-a"]), Some(["smt-line-std-profile"]), Some(["ipc-2221"]))))
  ]

  /** Owner and slug both match once lower-cased. */
  predicate Matches(p: ProjectData, owner: string, slug: string) {
    LowerStr(p.owner) == LowerStr(owner) && LowerStr(p.slug) == LowerStr(slug)
  }

  predicate OwnedBy(p: ProjectData, owner: string) {
    LowerStr(p.owner) == LowerStr(owner)
  }

  /** `getProject`: the first matching entry (`find`), or `null`. */
  function GetProject(table: seq<ProjectData>, owner: string, slug: string): (r: Option<ProjectData>)
    ensures r.None? <==> forall i :: 0 <= i < |table| ==> !Matches(table[i], owner, slug)
    ensures r.Some? ==> exists i :: 0 <= i < |table| && table[i] == r.value
                          && (forall j :: 0 <= j < i ==> !Matches(table[j], owner, slug))
    ensures r.Some? ==> Matches(r.value, owner, slug)
    decreases |table|
  {
    if |table| == 0 then None
    else if Matches(table[0], owner, slug) then Some(table[0])
    else
      var r := GetProject(table[1..], owner, slug);
      assert forall i :: 1 <= i < |table| ==> table[i] == table[1..][i - 1];
      if r.Some? then
        var i :| 0 <= i < |table[1..]| && table[1..][i] == r.value
                  && (forall j :: 0 <= j < i ==> !Matches(table[1..][j], owner, slug));
        assert table[i + 1] == r.value;
        r
      else r
  }

  /** `getProjectsForOwner`: the entries of that owner, in table order. */
  function GetProjectsForOwner(table: seq<ProjectData>, owner: string): (r: seq<ProjectData>)
    ensures r == Filter(table, OwnerKeyIs(LowerStr(owner)))
    ensures forall i :: 0 <= i < |r| ==> OwnedBy(r[i], owner)
    ensures forall p :: p in r <==> p in table && OwnedBy(p, owner)
  {
    FilterMembers(table, OwnerKeyIs(LowerStr(owner)));
    Filter(table, OwnerKeyIs(LowerStr(owner)))
  }

  /** The filter `getProjectsForOwner` applies, for the lower-cased owner `key`. */
  function OwnerKeyIs(key: string): ProjectData -> bool {
    (p: ProjectData) => LowerStr(p.owner) == key
  }

  /** A project found by owner and slug is among that owner's projects. */
  lemma GetProjectInOwnerList(table: seq<ProjectData>, owner: string, slug: string)
    requires GetProject(table, owner, slug).Some?
    ensures GetProject(table, owner, slug).value in GetProjectsForOwner(table, owner)
  {
    var p := GetProject(table, owner, slug).value;
    var i :| 0 <= i < |table| && table[i] == p;
  }

  /** Both lookups ignore ASCII case. */
  lemma LookupsCaseInsensitive(table: seq<ProjectData>, owner: string, slug: string)
    ensures GetProject(table, owner, slug) == GetProject(table, LowerStr(owner), LowerStr(slug))
    ensures GetProjectsForOwner(table, owner) == GetProjectsForOwner(table, LowerStr(owner))
  {
    LowerStrIdempotent(owner);
    LowerStrIdempotent(slug);
  }

  /** The base variant of a project: its `baseVariantId` names exactly one variant, of kind "base". */
  predicate BaseVariantConsistent(p: ProjectData) {
    && (exists i :: 0 <= i < |p.variants| && p.variants[i].id == p.baseVariantId && p.variants[i].kind == "base")
    && (forall i :: 0 <= i < |p.variants| && p.variants[i].kind == "base" ==> p.variants[i].id == p.baseVariantId)
    && (forall i, j :: 0 <= i < j < |p.variants| ==> p.variants[i].id != p.variants[j].id)
  }

  /** Every shipped project names its unique base variant. */
  lemma DemoProjectsConsistent()
    ensures forall i :: 0 <= i < |DemoProjects| ==> BaseVariantConsistent(DemoProjects[i])
  {
    assert DemoProjects[0].variants[0].id == DemoProjects[0].baseVariantId;
    assert DemoProjects[1].variants[0].id == DemoProjects[1].baseVariantId;
  }
}
