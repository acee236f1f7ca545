/**
 * The data side of the exploded-assembly hero (`components/HeroImage.tsx`):
 * the part records, the URL each part links to (`makePartUrl`), the
 * one-time URL assignment, and the motion groups that tie follower parts
 * to a leader. Rendering is not modelled.
 */
module Hero {
  import opened Common
  import opened Text
  import opened Slugs

  /** Where a part's page lives; absent means the OEM default. */
  datatype Origin = FuyuGeneric | Build | Standard | SupplierStd | Oem

  /** `PieceDef`, without the image paths and motion data. */
  datatype Piece = Piece(
    name: string,
    title: string,
    partNumber: string,
    company: string,
    url: string,
    specs: Option<seq<(string, string)>>,
    origin: Option<Origin>,
    supplierOrg: Option<string>,
    standardSpec: Option<string>,
    fuyuRepo: Option<string>)

  /** `slug(p.title || p.partNumber)`: the part's own segment. */
  function Item(p: Piece): string {
    Slug(Or(p.title, p.partNumber))
  }

  /** The standard-spec segment: the given spec, else the part's own segment. */
  function Spec(p: Piece): string {
    Slug(OrStr(p.standardSpec, Item(p)))
  }

  /** `p.origin === "supplierStd" && p.supplierOrg` */
  predicate SupplierHosted(p: Piece) {
    p.origin == Some(SupplierStd) && Truthy(p.supplierOrg)
  }

  /** `makePartUrl(p)`: the first matching origin rule wins, the OEM path is the default. */
  function MakePartUrl(p: Piece): (u: string)
    ensures |u| > 0 && u[0] == '/'
  {
    var org := Slug(Or(p.company, ""));
    var repo := Slug(Or(p.title, p.partNumber));
    if p.origin == Some(FuyuGeneric) then
      "/fuyutechnology/" + Slug(OrStr(p.fuyuRepo, "library")) + "/" + Slug(Or(p.title, p.partNumber))
    else if p.origin == Some(Build) then
      "/fuyutechnology/LPS-42/components/" + Slug(Or(p.title, p.partNumber))
    else if p.origin == Some(Standard) then
      "/metric/fasteners/bolts/" + Slug(OrStr(p.standardSpec, repo))
    else if p.origin == Some(SupplierStd) && Truthy(p.supplierOrg) then
      "/" + Slug(p.supplierOrg.value) + "/metric/fasteners/bolts/" + Slug(OrStr(p.standardSpec, repo))
    else
      "/" + org + "/" + repo
  }

  /** The path segments each origin rule produces, stated independently of the string building. */
  function Segments(p: Piece): (segs: seq<string>)
    ensures |segs| >= 2
  {
    if p.origin == Some(FuyuGeneric) then ["fuyutechnology", Slug(OrStr(p.fuyuRepo, "library")), Item(p)]
    else if p.origin == Some(Build) then ["fuyutechnology", "LPS-42", "components", Item(p)]
    else if p.origin == Some(Standard) then ["metric", "fasteners", "bolts", Spec(p)]
    else if SupplierHosted(p) then [Slug(p.supplierOrg.value), "metric", "fasteners", "bolts", Spec(p)]
    else [Slug(p.company), Item(p)]
  }

  lemma Join2(a: string, b: string)
    ensures Join([a, b], '/') == a + "/" + b
  {
    assert [a, b][1..] == [b];
  }

  lemma Join3(a: string, b: string, c: string)
    ensures Join([a, b, c], '/') == a + "/" + b + "/" + c
  {
    assert [a, b, c][1..] == [b, c];
    Join2(b, c);
  }

  lemma Join4(a: string, b: string, c: string, d: string)
    ensures Join([a, b, c, d], '/') == a + "/" + b + "/" + c + "/" + d
  {
    assert [a, b, c, d][1..] == [b, c, d];
    Join3(b, c, d);
  }

  lemma Join5(a: string, b: string, c: string, d: string, e: string)
    ensures Join([a, b, c, d, e], '/') == a + "/" + b + "/" + c + "/" + d + "/" + e
  {
    assert [a, b, c, d, e][1..] == [b, c, d, e];
    Join4(b, c, d, e);
  }

  lemma SplitBack(u: string, segs: seq<string>)
    requires |segs| >= 1 && u == "/" + Join(segs, '/')
    requires forall i :: 0 <= i < |segs| ==> '/' !in segs[i]
    ensures Split(u[1..], '/') == segs
  {
    SplitJoin(segs, '/');
    assert u[1..] == Join(segs, '/');
  }

  lemma LiteralsHaveNoSlash()
    ensures '/' !in "fuyutechnology" && '/' !in "LPS-42" && '/' !in "components"
    ensures '/' !in "metric" && '/' !in "fasteners" && '/' !in "bolts"
  {
  }

  lemma FuyuSplit(u: string, a: string, b: string)
    requires u == "/fuyutechnology/" + a + "/" + b && '/' !in a && '/' !in b
    ensures Split(u[1..], '/') == ["fuyutechnology", a, b]
  {
    Join3("fuyutechnology", a, b);
    LiteralsHaveNoSlash();
    SplitBack(u, ["fuyutechnology", a, b]);
  }

  /** A path of four fixed-or-slugged segments splits back into them. */
  lemma Split4(u: string, prefix: string, a: string, b: string, c: string, d: string)
    requires prefix == "/" + a + "/" + b + "/" + c + "/" && u == prefix + d
    requires '/' !in a && '/' !in b && '/' !in c && '/' !in d
    ensures Split(u[1..], '/') == [a, b, c, d]
  {
    Join4(a, b, c, d);
    SplitBack(u, [a, b, c, d]);
  }

  /** The fixed prefix of build parts, segment by segment. */
  lemma BuildPrefix()
    ensures "/fuyutechnology/LPS-42/components/" == "/" + "fuyutechnology" + "/" + "LPS-42" + "/" + "components" + "/"
  {
  }

  /** The fixed prefix of standard parts, segment by segment. */
  lemma StandardPrefix()
    ensures "/metric/fasteners/bolts/" == "/" + "metric" + "/" + "fasteners" + "/" + "bolts" + "/"
  {
  }

  lemma SupplierSplit(u: string, o: string, a: string)
    requires u == "/" + o + "/metric/fasteners/bolts/" + a && '/' !in o && '/' !in a
    ensures Split(u[1..], '/') == [o, "metric", "fasteners", "bolts", a]
  {
    Join5(o, "metric", "fasteners", "bolts", a);
    LiteralsHaveNoSlash();
    SplitBack(u, [o, "metric", "fasteners", "bolts", a]);
  }

  lemma OemSplit(u: string, o: string, a: string)
    requires u == "/" + o + "/" + a && '/' !in o && '/' !in a
    ensures Split(u[1..], '/') == [o, a]
  {
    Join2(o, a);
    SplitBack(u, [o, a]);
  }

  /**
   * Every part URL starts with "/", and splitting the rest at "/" gives
   * back the segments of its origin rule: no segment spills into the next.
   */
  lemma PartUrlSegments(p: Piece)
    ensures Split(MakePartUrl(p)[1..], '/') == Segments(p)
  {
    var item := Item(p);
    var u := MakePartUrl(p);
    SlugHasNoSlash(Or(p.title, p.partNumber));
    if p.origin == Some(FuyuGeneric) {
      var lib := Slug(OrStr(p.fuyuRepo, "library"));
      SlugHasNoSlash(OrStr(p.fuyuRepo, "library"));
      assert u == "/fuyutechnology/" + lib + "/" + item;
      FuyuSplit(u, lib, item);
    } else if p.origin == Some(Build) {
      assert u == "/fuyutechnology/LPS-42/components/" + item;
      LiteralsHaveNoSlash();
      BuildPrefix();
      Split4(u, "/fuyutechnology/LPS-42/components/", "fuyutechnology", "LPS-42", "components", item);
    } else if p.origin == Some(Standard) {
      SlugHasNoSlash(OrStr(p.standardSpec, item));
      assert u == "/metric/fasteners/bolts/" + Spec(p);
      LiteralsHaveNoSlash();
      StandardPrefix();
      Split4(u, "/metric/fasteners/bolts/", "metric", "fasteners", "bolts", Spec(p));
    } else if SupplierHosted(p) {
      var o := Slug(p.supplierOrg.value);
      SlugHasNoSlash(OrStr(p.standardSpec, item));
      SlugHasNoSlash(p.supplierOrg.value);
      assert u == "/" + o + "/metric/fasteners/bolts/" + Spec(p);
      SupplierSplit(u, o, Spec(p));
    } else {
      SlugHasNoSlash(p.company);
      assert u == "/" + Slug(p.company) + "/" + item;
      OemSplit(u, Slug(p.company), item);
    }
  }

  /**
   * A standard part without its own spec falls back to its own segment,
   * which `slug` leaves alone, so the two rules agree.
   */
  lemma SpecFallsBackToItem(p: Piece)
    requires !Truthy(p.standardSpec)
    ensures Spec(p) == Item(p)
  {
    SlugIdempotent(Or(p.title, p.partNumber));
  }

  /** `if (!p.url) p.url = makePartUrl(p)` */
  function AssignUrl(p: Piece): (q: Piece)
    ensures q.url != ""
    ensures q == p.(url := q.url)
    ensures p.url != "" ==> q == p
    ensures p.url == "" ==> q.url == MakePartUrl(p)
  {
    if p.url == "" then p.(url := MakePartUrl(p)) else p
  }

  /** `PIECES.forEach(...)` */
  function AssignUrls(ps: seq<Piece>): (qs: seq<Piece>)
    ensures |qs| == |ps|
    ensures forall i :: 0 <= i < |ps| ==> qs[i] == AssignUrl(ps[i])
  {
    seq(|ps|, i requires 0 <= i < |ps| => AssignUrl(ps[i]))
  }

  /**
   * Every piece literal leaves `url` empty, so after the assignment each
   * part links to its `makePartUrl`; running the assignment again changes
   * nothing.
   */
  lemma AssignUrlsOnce(ps: seq<Piece>)
    requires forall i :: 0 <= i < |ps| ==> ps[i].url == ""
    ensures forall i :: 0 <= i < |ps| ==> AssignUrls(ps)[i].url == MakePartUrl(ps[i])
    ensures AssignUrls(AssignUrls(ps)) == AssignUrls(ps)
  {
  }

  // ---- motion groups ----

  /** A motion group: the leader part and its followers (offsets left out). */
  datatype Group = Group(leader: string, followers: seq<string>)

  const Groups: seq<Group> := [
    Group("motor", ["m4-washer"]),
    Group("rail", ["t-slot-nut"]),
    Group("motorplate", ["carriage", "iso7380-m6x25-t30"]),
    Group("motorrail", ["ballscrew", "ballscrewplate", "linear-carriage"])
  ]

  /** `LEADERS` */
  function Leaders(gs: seq<Group>): (r: set<string>)
    ensures forall i :: 0 <= i < |gs| ==> gs[i].leader in r
    ensures forall n :: n in r ==> exists i :: 0 <= i < |gs| && gs[i].leader == n
  {
    set i | 0 <= i < |gs| :: gs[i].leader
  }

  /** `f.name -> g.leader` for each follower of one group, later entries overwriting earlier ones. */
  function SetAll(m: map<string, string>, followers: seq<string>, leader: string): (r: map<string, string>)
    ensures r.Keys == m.Keys + set k | k in followers
    ensures forall k :: k in r && k !in followers ==> r[k] == m[k]
    ensures forall k :: k in followers ==> r[k] == leader
    decreases |followers|
  {
    if |followers| == 0 then m
    else SetAll(m[followers[0] := leader], followers[1..], leader)
  }

  /** `FOLLOWER_TO_LEADER`, built by running the groups in order from `m`. */
  function FollowerMapFrom(m: map<string, string>, gs: seq<Group>): map<string, string>
    decreases |gs|
  {
    if |gs| == 0 then m
    else FollowerMapFrom(SetAll(m, gs[0].followers, gs[0].leader), gs[1..])
  }

  function FollowerMap(gs: seq<Group>): map<string, string> {
    FollowerMapFrom(map[], gs)
  }

  /** The group that lists `n` as a follower, if one does. */
  predicate Follows(gs: seq<Group>, n: string, i: int) {
    0 <= i < |gs| && n in gs[i].followers
  }

  /** No name follows in two groups. */
  ghost predicate FollowersDistinct(gs: seq<Group>) {
    forall n, i, j :: Follows(gs, n, i) && Follows(gs, n, j) ==> i == j
  }

  lemma {:induction false} FollowerMapFromSpec(m: map<string, string>, gs: seq<Group>, n: string)
    requires FollowersDistinct(gs)
    ensures n in FollowerMapFrom(m, gs) <==> n in m || exists i :: Follows(gs, n, i)
    ensures forall i :: Follows(gs, n, i) ==> FollowerMapFrom(m, gs)[n] == gs[i].leader
    ensures n in m && (forall i :: !Follows(gs, n, i)) ==> FollowerMapFrom(m, gs)[n] == m[n]
    decreases |gs|
  {
    if |gs| > 0 {
      var m' := SetAll(m, gs[0].followers, gs[0].leader);
      assert FollowersDistinct(gs[1..]) by {
        forall x, i, j | Follows(gs[1..], x, i) && Follows(gs[1..], x, j) ensures i == j {
          assert Follows(gs, x, i + 1) && Follows(gs, x, j + 1);
        }
      }
      FollowerMapFromSpec(m', gs[1..], n);
      var r := FollowerMapFrom(m, gs);
      assert r == FollowerMapFrom(m', gs[1..]);
      assert n in m' <==> n in m || Follows(gs, n, 0);
      assert (exists i :: Follows(gs, n, i)) <==> Follows(gs, n, 0) || exists i :: Follows(gs[1..], n, i) by {
        if exists i :: Follows(gs[1..], n, i) {
          var i :| Follows(gs[1..], n, i);
          assert Follows(gs, n, i + 1);
        }
        if exists i :: Follows(gs, n, i) && i > 0 {
          var i :| Follows(gs, n, i) && i > 0;
          assert Follows(gs[1..], n, i - 1);
        }
      }
      if Follows(gs, n, 0) {
        forall j | 0 <= j < |gs[1..]| ensures !Follows(gs[1..], n, j) {
          assert gs[1..][j] == gs[j + 1];
          assert !Follows(gs, n, j + 1);
        }
        assert r[n] == m'[n] == gs[0].leader;
      }
      forall i | Follows(gs, n, i) && i > 0 ensures r[n] == gs[i].leader {
        assert Follows(gs[1..], n, i - 1);
      }
    }
  }

  /**
   * `FOLLOWER_TO_LEADER.get(name) || (LEADERS.has(name) ? name : null)`:
   * the group leader that moves a part, if any.
   */
  function LeaderOf(gs: seq<Group>, n: string): Option<string> {
    var fm := FollowerMap(gs);
    if n in fm && fm[n] != "" then Some(fm[n])
    else if n in Leaders(gs) then Some(n)
    else None
  }

  /**
   * With followers listed in one group only and non-empty leader names,
   * a follower moves with its group's leader, a leader with itself, and
   * any other part with no group.
   */
  lemma LeaderOfSpec(gs: seq<Group>, n: string)
    requires FollowersDistinct(gs)
    requires forall i :: 0 <= i < |gs| ==> gs[i].leader != ""
    ensures forall i :: Follows(gs, n, i) ==> LeaderOf(gs, n) == Some(gs[i].leader)
    ensures (forall i :: !Follows(gs, n, i)) && n in Leaders(gs) ==> LeaderOf(gs, n) == Some(n)
    ensures (forall i :: !Follows(gs, n, i)) && n !in Leaders(gs) ==> LeaderOf(gs, n).None?
  {
    FollowerMapFromSpec(map[], gs, n);
  }

  /** The `name` and `partNumber` of each entry of `PIECES`, in order. */
  const PieceIds: seq<(string, string)> := [
    ("iso7380-m6x25-t30", "ISO7380-M6-1.0X25-T30"),
    ("ballscrew", "BALLSCREW"),
    ("rail", "MGNR15R110CM-Rail"),
    ("motorrail", "MOTORRAIL"),
    ("ballscrewplate", "BALLSCREWPLATE"),
    ("motorplate", "MOTORPLATE"),
    ("carriage", "ENDPLATE"),
    ("linear-carriage", "LINEAR_CARRIAGE"),
    ("motor", "57HS"),
    ("m3x30", "M3X30"),
    ("m4x10", "M4X10"),
    ("m4-washer", "M4-0.7x10-S2.5-ISO7380"),
    ("din-471-1", "DIN-471-1"),
    ("t-slot-nut", "TSlotNut_HammerHead_M5")
  ]

  predicate IsPieceName(n: string) {
    exists i :: 0 <= i < |PieceIds| && PieceIds[i].0 == n
  }

  /** In the hero's groups no part follows twice and no follower also leads. */
  lemma GroupsWellFormed()
    ensures FollowersDistinct(Groups)
    ensures forall i, j, n :: Follows(Groups, n, i) && 0 <= j < |Groups| ==> n != Groups[j].leader
    ensures forall i :: 0 <= i < |Groups| ==> Groups[i].leader != ""
  {
  }

  /** Every leader and follower names a part of the assembly. */
  lemma GroupNamesArePieces()
    ensures forall i :: 0 <= i < |Groups| ==> IsPieceName(Groups[i].leader)
    ensures forall i, n :: Follows(Groups, n, i) ==> IsPieceName(n)
  {
    assert PieceIds[8].0 == "motor" && PieceIds[2].0 == "rail" && PieceIds[5].0 == "motorplate" && PieceIds[3].0 == "motorrail";
    assert PieceIds[11].0 == "m4-washer" && PieceIds[13].0 == "t-slot-nut" && PieceIds[6].0 == "carriage";
    assert PieceIds[0].0 == "iso7380-m6x25-t30" && PieceIds[1].0 == "ballscrew" && PieceIds[4].0 == "ballscrewplate";
    assert PieceIds[7].0 == "linear-carriage";
  }
}
