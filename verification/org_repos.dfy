/**
 * The repositories section of an organisation page (`app/orgs/org-repos.tsx`):
 * repositories are pushed into one bucket per type, in input order, and the
 * non-empty buckets are shown as sections in a fixed order, each with its
 * size, under a header giving the total.
 */
module OrgRepos {
  import opened Common
  import opened Seqs
  import opened Orgs

  /** The bucket keys in display order; also the repository types the TypeScript type allows. */
  const Order: seq<string> := ["project", "product", "material", "standard", "process"]

  function Title(k: string): string {
    match k
    case "project" => "Projects"
    case "product" => "Products"
    case "material" => "Materials"
    case "standard" => "Standards"
    case _ => "Processes"
  }

  type Buckets = map<string, seq<TypedRepo>>

  const EmptyBuckets: Buckets := map["project" := [], "product" := [], "material" := [], "standard" := [], "process" := []]

  function OfKind(k: string): TypedRepo -> bool {
    (r: TypedRepo) => r.kind == k
  }

  /** The repositories of a type, in input order. */
  function OfType(repos: seq<TypedRepo>, k: string): seq<TypedRepo> {
    Filter(repos, OfKind(k))
  }

  predicate KnownKinds(repos: seq<TypedRepo>) {
    forall i :: 0 <= i < |repos| ==> repos[i].kind in Order
  }

  /** The buckets hold exactly the five keys, each with the repositories of its type. */
  ghost predicate Holds(b: Buckets, repos: seq<TypedRepo>) {
    && (forall k :: k in b <==> k in Order)
    && (forall k :: k in b ==> b[k] == OfType(repos, k))
  }

  lemma {:induction false} PushStep(b: Buckets, init: seq<TypedRepo>, last: TypedRepo)
    requires Holds(b, init) && last.kind in b
    ensures Holds(b[last.kind := b[last.kind] + [last]], init + [last])
  {
    var r := b[last.kind := b[last.kind] + [last]];
    forall k | k in r ensures r[k] == OfType(init + [last], k) {
      FilterConcat(init, [last], OfKind(k));
    }
  }

  lemma EmptyHolds()
    ensures Holds(EmptyBuckets, [])
  {
  }

  /**
   * The `for` loop over `repos`. A repository whose type is not a bucket
   * key makes `buckets[r.type].push` throw, modelled as `None`.
   */
  function Bucket(repos: seq<TypedRepo>): (r: Option<Buckets>)
    ensures r.Some? <==> KnownKinds(repos)
    ensures r.Some? ==> Holds(r.value, repos)
    decreases |repos|
  {
    if |repos| == 0 then EmptyHolds(); Some(EmptyBuckets)
    else
      var init := repos[..|repos| - 1];
      var last := repos[|repos| - 1];
      assert repos == init + [last];
      assert KnownKinds(repos) <==> KnownKinds(init) && last.kind in Order;
      match Bucket(init)
      case None => None
      case Some(b) =>
        if last.kind in b then
          PushStep(b, init, last);
          Some(b[last.kind := b[last.kind] + [last]])
        else None
  }

  datatype Section = Section(key: string, title: string, repos: seq<TypedRepo>)

  function Keys(ss: seq<Section>): seq<string> {
    seq(|ss|, i requires 0 <= i < |ss| => ss[i].key)
  }

  function Occupied(b: Buckets): string -> bool {
    (k: string) => k in b && |b[k]| > 0
  }

  /** `order.map(...)`: one section per non-empty bucket, in `keys` order. */
  function Sections(b: Buckets, keys: seq<string>): (r: seq<Section>)
    ensures Keys(r) == Filter(keys, Occupied(b))
    ensures forall i :: 0 <= i < |r| ==> r[i].key in b && r[i].repos == b[r[i].key] && r[i].title == Title(r[i].key)
    decreases |keys|
  {
    if |keys| == 0 then []
    else
      var rest := Sections(b, keys[1..]);
      if Occupied(b)(keys[0]) then
        var r := [Section(keys[0], Title(keys[0]), b[keys[0]])] + rest;
        assert Keys(r) == [keys[0]] + Keys(rest);
        r
      else rest
  }

  function HasType(repos: seq<TypedRepo>): string -> bool {
    (k: string) => |OfType(repos, k)| > 0
  }

  /** The sections rendered for `repos`, or `None` where the loop throws. */
  function Render(repos: seq<TypedRepo>): (r: Option<seq<Section>>)
    ensures r.Some? <==> KnownKinds(repos)
  {
    match Bucket(repos)
    case None => None
    case Some(b) => Some(Sections(b, Order))
  }

  /**
   * A section is shown exactly for each type that has repositories, in the
   * fixed order project, product, material, standard, process, and it holds
   * exactly the repositories of that type, in input order.
   */
  lemma RenderSections(repos: seq<TypedRepo>)
    requires KnownKinds(repos)
    ensures var r := Render(repos).value;
      && Keys(r) == Filter(Order, HasType(repos))
      && forall i :: 0 <= i < |r| ==> r[i].repos == OfType(repos, r[i].key) && |r[i].repos| > 0
  {
    var b := Bucket(repos).value;
    var r := Sections(b, Order);
    assert Render(repos).value == r;
    forall i | 0 <= i < |Order| ensures Occupied(b)(Order[i]) == HasType(repos)(Order[i]) {
      assert Order[i] in b;
    }
    FilterSame(Order, Occupied(b), HasType(repos));
    forall i | 0 <= i < |r| ensures r[i].repos == OfType(repos, r[i].key) && |r[i].repos| > 0 {
      assert Keys(r)[i] == r[i].key;
      assert Occupied(b)(r[i].key);
    }
  }

  lemma {:induction false} FilterSame<T>(s: seq<T>, p: T -> bool, q: T -> bool)
    requires forall i :: 0 <= i < |s| ==> p(s[i]) == q(s[i])
    ensures Filter(s, p) == Filter(s, q)
    decreases |s|
  {
    if |s| > 0 {
      FilterSame(s[1..], p, q);
    }
  }

  function SectionTotal(ss: seq<Section>): nat
    decreases |ss|
  {
    if |ss| == 0 then 0 else |ss[0].repos| + SectionTotal(ss[1..])
  }

  function BucketSum(b: Buckets, keys: seq<string>): nat
    requires forall i :: 0 <= i < |keys| ==> keys[i] in b
    decreases |keys|
  {
    if |keys| == 0 then 0 else |b[keys[0]]| + BucketSum(b, keys[1..])
  }

  lemma {:induction false} SectionsTotal(b: Buckets, keys: seq<string>)
    requires forall i :: 0 <= i < |keys| ==> keys[i] in b
    ensures SectionTotal(Sections(b, keys)) == BucketSum(b, keys)
    decreases |keys|
  {
    if |keys| > 0 {
      SectionsTotal(b, keys[1..]);
    }
  }

  /** Counting the repositories of each of the five types counts every repository once. */
  lemma {:induction false} KindCounts(repos: seq<TypedRepo>)
    requires KnownKinds(repos)
    ensures |OfType(repos, "project")| + |OfType(repos, "product")| + |OfType(repos, "material")|
          + |OfType(repos, "standard")| + |OfType(repos, "process")| == |repos|
    decreases |repos|
  {
    if |repos| > 0 {
      var init := repos[..|repos| - 1];
      assert KnownKinds(init) by {
        assert forall i :: 0 <= i < |init| ==> init[i] == repos[i];
      }
      KindCounts(init);
      assert repos[|repos| - 1].kind in Order;
      OfTypeLast(repos, "project");
      OfTypeLast(repos, "product");
      OfTypeLast(repos, "material");
      OfTypeLast(repos, "standard");
      OfTypeLast(repos, "process");
    }
  }

  lemma OfTypeLast(repos: seq<TypedRepo>, k: string)
    requires |repos| > 0
    ensures |OfType(repos, k)| == |OfType(repos[..|repos| - 1], k)| + (if repos[|repos| - 1].kind == k then 1 else 0)
  {
    FilterLast(repos, OfKind(k));
  }

  /**
   * The buckets partition the input: the section sizes add up to the
   * "N public" total, `repos.length`.
   */
  lemma SectionsPartition(repos: seq<TypedRepo>)
    requires KnownKinds(repos)
    ensures SectionTotal(Render(repos).value) == |repos|
  {
    var b := Bucket(repos).value;
    SectionsTotal(b, Order);
    KindCounts(repos);
  }

  /** A repository of an unknown type makes the whole section throw. */
  lemma UnknownTypeThrows(repos: seq<TypedRepo>, i: int)
    requires 0 <= i < |repos| && repos[i].kind !in Order
    ensures Render(repos).None?
  {
  }
}
