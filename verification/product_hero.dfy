/**
 * The product showcase around the hero (`components/product-example-hero.tsx`):
 * the repository and supplier links, avatar initials, the supplier shown
 * for a hovered part, and the specs listed in the hover dock.
 */
module ProductHero {
  import opened Common
  import opened Text
  import opened Seqs
  import opened Slugs
  import Hero

  /** `buildRepoPath(orgOrUser, productTitleOrRepoName)` */
  function BuildRepoPath(orgOrUser: string, title: string): (r: string)
    ensures |r| >= 3 && r[0] == '/' && r[|r| - 1] == '/'
  {
    "/" + Slug(orgOrUser) + "/" + Slug(title) + "/"
  }

  lemma RepoPathSplit(u: string, a: string, b: string)
    requires u == "/" + a + "/" + b + "/" && '/' !in a && '/' !in b
    ensures Split(u[1..], '/') == [a, b, ""]
  {
    Hero.Join3(a, b, "");
    SplitJoin([a, b, ""], '/');
    assert u[1..] == Join([a, b, ""], '/');
  }

  /**
   * A repository path has exactly two segments, the slugs of its two
   * arguments, and ends in "/".
   */
  lemma RepoPathSegments(orgOrUser: string, title: string)
    ensures Split(BuildRepoPath(orgOrUser, title)[1..], '/') == [Slug(orgOrUser), Slug(title), ""]
  {
    SlugHasNoSlash(orgOrUser);
    SlugHasNoSlash(title);
    RepoPathSplit(BuildRepoPath(orgOrUser, title), Slug(orgOrUser), Slug(title));
  }

  const ProductTitle: string := "LPS-42"
  const ProductCompany: string := "FUYU Technology Co."
  const ProductUser: string := "fuyutechnology"

  /** `repoUrl` */
  function RepoUrl(): string {
    BuildRepoPath(ProductUser, ProductTitle)
  }

  /** The supplier page of a repository: its path followed by "suppliers". */
  function SupplierPath(orgOrUser: string, title: string): (r: string)
    ensures StartsWith(r, BuildRepoPath(orgOrUser, title))
  {
    BuildRepoPath(orgOrUser, title) + "suppliers"
  }

  /** `supplyUrl` */
  function SupplyUrl(): string {
    SupplierPath(ProductUser, ProductTitle)
  }

  lemma SupplierSplit(u: string, a: string, b: string)
    requires u == "/" + a + "/" + b + "/" + "suppliers" && '/' !in a && '/' !in b
    ensures Split(u[1..], '/') == [a, b, "suppliers"]
  {
    Hero.Join3(a, b, "suppliers");
    assert '/' !in "suppliers";
    SplitJoin([a, b, "suppliers"], '/');
    assert u[1..] == Join([a, b, "suppliers"], '/');
  }

  /** The supplier page is the "suppliers" segment directly under the repository. */
  lemma SupplierPathSegments(orgOrUser: string, title: string)
    ensures Split(SupplierPath(orgOrUser, title)[1..], '/') == [Slug(orgOrUser), Slug(title), "suppliers"]
  {
    SlugHasNoSlash(orgOrUser);
    SlugHasNoSlash(title);
    SupplierSplit(SupplierPath(orgOrUser, title), Slug(orgOrUser), Slug(title));
  }

  /** `s[0]?.toUpperCase() ?? ""` over each word, joined. */
  function FirstLetters(words: seq<string>): (r: string)
    ensures |r| <= |words|
    decreases |words|
  {
    if |words| == 0 then ""
    else (if words[0] == "" then "" else [Upper(words[0][0])]) + FirstLetters(words[1..])
  }

  lemma {:induction false} FirstLettersOfWords(words: seq<string>)
    requires forall i :: 0 <= i < |words| ==> words[i] != ""
    ensures |FirstLetters(words)| == |words|
    ensures forall k :: 0 <= k < |words| ==> FirstLetters(words)[k] == Upper(words[k][0])
    decreases |words|
  {
    if |words| > 0 {
      FirstLettersOfWords(words[1..]);
    }
  }

  /**
   * `initials(name)`: split at whitespace runs, drop empty pieces, keep
   * two words. The result has one upper-cased first letter per word, so
   * at most two characters.
   */
  function Initials(name: string): (r: string)
    ensures |r| == Min(2, |Tokens(name)|)
    ensures forall k :: 0 <= k < |r| ==> r[k] == Upper(Tokens(name)[k][0])
  {
    var words := Take(Tokens(name), 2);
    FirstLettersOfWords(words);
    FirstLetters(words)
  }

  /**
   * Runs of whitespace separate words like a single space does: two
   * words with any blank run between them give both initials.
   */
  lemma InitialsAcrossSpaceRun(a: string, b: string, gap: char)
    requires a != "" && NoSpace(a) && b != "" && NoSpace(b) && IsSpace(gap)
    ensures Initials(a + [gap, gap] + b) == [Upper(a[0]), Upper(b[0])]
  {
    TokensAcrossSpaceRun(a, b, gap);
    var r := Initials(a + [gap, gap] + b);
    assert r[0] == Upper(a[0]) && r[1] == Upper(b[0]);
  }

  lemma TokensAcrossSpaceRun(a: string, b: string, gap: char)
    requires a != "" && NoSpace(a) && b != "" && NoSpace(b) && IsSpace(gap)
    ensures Tokens(a + [gap, gap] + b) == [a, b]
  {
    var u := [gap, gap] + b;
    assert a + [gap, gap] + b == a + u;
    TokensAfterGap(b, gap);
    TokensWordFirst(a, u);
    assert [a] + [b] == [a, b];
  }

  lemma TokensAfterGap(b: string, gap: char)
    requires b != "" && NoSpace(b) && IsSpace(gap)
    ensures Tokens([gap, gap] + b) == [b]
  {
    TokensOfWord(b);
    TokensSkipSpace(gap, b);
    TokensSkipSpace(gap, [gap] + b);
    assert [gap, gap] + b == [gap] + ([gap] + b);
  }

  /** The hover dock's avatar: `initials(hoverPart.company || "CO")`. */
  function HoverInitials(company: string): (r: string)
    ensures company == "" ==> r == "C"
    ensures |r| <= 2
  {
    TokensOfWord("CO");
    Initials(Or(company, "CO"))
  }

  /** `SUPPLIER_BY_PART` */
  const SupplierByPart: map<string, string> := map[
    "57HS" := "Transmotec",
    "MGNR15R110CM-Rail" := "LinearX",
    "BALLSCREW" := "MotionParts",
    "MOTORPLATE" := "OmniParts Cloud",
    "ISO7380-M6-1.0X25-T30" := "BoltCo Distributor",
    "ENDPLATE" := "FUYU Direct",
    "DIN-471-1" := "BoltCo Distributor",
    "M3X30" := "BoltCo Distributor",
    "M4X10" := "BoltCo Distributor",
    "M4-0.7x10-S2.5-ISO7380" := "BoltCo Distributor",
    "TSlotNut_HammerHead_M5" := "FastenAll",
    "LINEAR_CARRIAGE" := "FUYU Direct",
    "MOTORRAIL" := "FUYU Direct",
    "BALLSCREWPLATE" := "FUYU Direct"
  ]

  const NoSupplier: string := "—"

  /** `SUPPLIER_BY_PART[partNumber] ?? "—"` (own keys only). */
  function SupplierOf(partNumber: string): (r: string)
    ensures partNumber in SupplierByPart ==> r == SupplierByPart[partNumber]
    ensures partNumber !in SupplierByPart ==> r == NoSupplier
  {
    if partNumber in SupplierByPart then SupplierByPart[partNumber] else NoSupplier
  }

  /** Every part of the assembly has a listed supplier, so the dock never shows "—" for one. */
  lemma EveryPartHasSupplier()
    ensures forall i :: 0 <= i < |Hero.PieceIds| ==> SupplierOf(Hero.PieceIds[i].1) != NoSupplier
  {
    forall i | 0 <= i < |Hero.PieceIds| ensures Hero.PieceIds[i].1 in SupplierByPart {
    }
  }

  /** The spec rows of the hover dock: the first six entries, if the part has specs. */
  function DockSpecs(specs: Option<seq<(string, string)>>): (r: seq<(string, string)>)
    ensures |r| <= 6
    ensures specs.None? ==> r == []
    ensures specs.Some? ==> r <= specs.value && |r| == Min(6, |specs.value|)
  {
    if specs.None? then [] else Take(specs.value, 6)
  }
}
