/**
 * The local search engine: text normalisation, the scoring ladder, the
 * synthetic company records, the unified index, `searchLocal` (filter,
 * score, sort, page) and the per-scope tally `countByScope`.
 */
module SearchQuery {
  import opened Common
  import opened Text
  import opened Seqs
  import opened SearchTypes

  /* ----------------------------- string helpers ----------------------------- */

  /** `normalize(s)`: lower-casing; NFKD decomposition is the identity here. */
  function Normalize(s: string): (r: string)
    ensures |r| == |s|
    ensures forall k :: 0 <= k < |r| ==> r[k] == Lower(s[k])
    ensures forall k :: 0 <= k < |r| ==> !IsAsciiUpper(r[k])
  {
    LowerStr(s)
  }

  /** `\w` without the `u` flag: ASCII letters, digits and underscore. */
  predicate IsWordChar(c: char) {
    IsAsciiUpper(c) || IsAsciiLower(c) || IsDigit(c) || c == '_'
  }

  /** What `slugify` keeps from a lower-cased string: `[\w\s-]`. */
  predicate IsKeptChar(c: char) {
    IsWordChar(c) || IsSpace(c) || c == '-'
  }

  /** The characters a slug can contain: `[a-z0-9_-]`. */
  predicate IsSlugChar(c: char) {
    IsAsciiLower(c) || IsDigit(c) || c == '_' || c == '-'
  }

  /** `.replace(/[^\w\s-]/g, "")` */
  function KeepSlugChars(s: string): (r: string)
    ensures forall k :: 0 <= k < |r| ==> IsKeptChar(r[k]) && r[k] in s
    ensures (forall k :: 0 <= k < |s| ==> IsKeptChar(s[k])) ==> r == s
    decreases |s|
  {
    if |s| == 0 then ""
    else if IsKeptChar(s[0]) then
      assert s == [s[0]] + s[1..];
      [s[0]] + KeepSlugChars(s[1..])
    else KeepSlugChars(s[1..])
  }

  /** `.replace(/\s+/g, "-")`: every maximal whitespace run becomes one dash. */
  function DashSpaceRuns(s: string): (r: string)
    ensures forall k :: 0 <= k < |r| ==> r[k] == '-' || (r[k] in s && !IsSpace(r[k]))
    ensures NoSpace(s) ==> r == s
    decreases |s|
  {
    if |s| == 0 then ""
    else if IsSpace(s[0]) then "-" + DashSpaceRuns(s[LeadingSpaces(s)..])
    else
      assert s == [s[0]] + s[1..];
      [s[0]] + DashSpaceRuns(s[1..])
  }

  /** `slugify(s)`: lower-case, drop `[^\w\s-]`, trim, dash the whitespace runs. */
  function Slugify(s: string): (r: string)
    ensures forall k :: 0 <= k < |r| ==> IsSlugChar(r[k])
  {
    var kept := KeepSlugChars(LowerStr(s));
    var trimmed := Trim(kept);
    assert forall k :: 0 <= k < |trimmed| ==> IsKeptChar(trimmed[k]) && !IsAsciiUpper(trimmed[k]);
    DashSpaceRuns(trimmed)
  }

  lemma SlugifyOfSlug(s: string)
    requires forall k :: 0 <= k < |s| ==> IsSlugChar(s[k])
    ensures Slugify(s) == s
  {
    forall k | 0 <= k < |s| ensures Lower(s[k]) == s[k] && IsKeptChar(s[k]) && !IsSpace(s[k]) {
      assert IsSlugChar(s[k]);
    }
    assert LowerStr(s) == s;
    assert KeepSlugChars(s) == s;
    TrimOfTrimmed(s);
    assert NoSpace(s);
    assert DashSpaceRuns(s) == s;
  }

  /** Slugifying a slug changes nothing. */
  lemma SlugifyIdempotent(s: string)
    ensures Slugify(Slugify(s)) == Slugify(s)
  {
    SlugifyOfSlug(Slugify(s));
  }

  /* --------------------------------- scoring -------------------------------- */

  /** How many query tokens (duplicates included) occur in the title or subtitle. */
  function TokenHits(tokens: seq<string>, t: string, sub: string): (h: nat)
    ensures h <= |tokens|
    decreases |tokens|
  {
    if |tokens| == 0 then 0
    else (if Contains(t, tokens[0]) || Contains(sub, tokens[0]) then 1 else 0)
         + TokenHits(tokens[1..], t, sub)
  }

  /**
   * `baseStringScore(n, t, sub)`: the first rung that applies wins —
   * exact title 100, title prefix 85, title substring 70, subtitle prefix
   * 55, subtitle substring 40, else 30 + 5 per token hit, else 0.
   */
  function BaseStringScore(n: string, t: string, sub: string): (r: int)
    ensures r >= 0
    ensures n == "" ==> r == 0
    ensures n != "" && t == n ==> r == 100
    ensures n != "" && t != n && StartsWith(t, n) ==> r == 85
    ensures n != "" && !StartsWith(t, n) && Contains(t, n) ==> r == 70
    ensures n != "" && !Contains(t, n) && StartsWith(sub, n) ==> r == 55
    ensures n != "" && !Contains(t, n) && !StartsWith(sub, n) && Contains(sub, n) ==> r == 40
    ensures n != "" && Contains(t, n) ==> 70 <= r <= 100
    ensures n != "" && !Contains(t, n) && Contains(sub, n) ==> 40 <= r <= 55
    ensures n != "" && !Contains(t, n) && !Contains(sub, n) ==>
      var h := TokenHits(Tokens(n), t, sub);
      r == if h > 0 then 30 + 5 * h else 0
    ensures r > 0 <==> n != "" && (Contains(t, n) || Contains(sub, n) || TokenHits(Tokens(n), t, sub) > 0)
  {
    if n == "" then 0
    else if t == n then 100
    else if StartsWith(t, n) then 85
    else if Contains(t, n) then 70
    else if StartsWith(sub, n) then 55
    else if Contains(sub, n) then 40
    else
      var hits := TokenHits(Tokens(n), t, sub);
      if hits > 0 then 30 + hits * 5 else 0
  }

  /** The item's own score: query against its title and subtitle. */
  function ItemScore(q: string, e: SearchEntity): int {
    BaseStringScore(Normalize(q), Normalize(e.title), Normalize(OrStr(e.subtitle, "")))
  }

  /** The owning entity's name and subtitle are both empty or absent. */
  predicate NoEntityText(e: SearchEntity) {
    Normalize(OrStr(EntityName(e), "")) == "" && Normalize(OrStr(EntitySubtitle(e), "")) == ""
  }

  /** The score of the query against the entity's name and subtitle, before the discount. */
  function RawEntityScore(q: string, e: SearchEntity): int {
    BaseStringScore(Normalize(q), Normalize(OrStr(EntityName(e), "")), Normalize(OrStr(EntitySubtitle(e), "")))
  }

  /** The entity contribution: 0 without entity text, else the raw score less 5, floored at 0. */
  function EntityScore(q: string, e: SearchEntity): (r: int)
    ensures r >= 0
    ensures NoEntityText(e) ==> r == 0
    ensures !NoEntityText(e) ==> r == Max(0, RawEntityScore(q, e) - 5)
  {
    if NoEntityText(e) then 0 else Max(0, RawEntityScore(q, e) - 5)
  }

  /** `score(q, e)`: the better of the item score and the discounted entity score. */
  function Score(q: string, e: SearchEntity): (r: int)
    ensures r >= ItemScore(q, e) && r >= EntityScore(q, e)
    ensures r == ItemScore(q, e) || r == EntityScore(q, e)
  {
    Max(ItemScore(q, e), EntityScore(q, e))
  }

  /** An empty query scores every record 0. */
  lemma EmptyQueryScoresZero(e: SearchEntity)
    ensures Score("", e) == 0
  {
    assert Normalize("") == "";
  }

  /**
   * A record scores above 0 exactly when the query hits its own text, or
   * the owning entity has text and the query hits that.
   */
  lemma ScorePositiveIff(q: string, e: SearchEntity)
    ensures Score(q, e) > 0 <==> ItemScore(q, e) > 0 || (!NoEntityText(e) && RawEntityScore(q, e) > 0)
  {
    var raw := RawEntityScore(q, e);
    assert raw > 0 ==> raw >= 35;
  }

  /** A record whose title equals the query scores 100, unless the entity fallback exceeds 105. */
  lemma ExactTitleScores100(q: string, e: SearchEntity)
    requires Normalize(q) != "" && Normalize(e.title) == Normalize(q)
    requires RawEntityScore(q, e) <= 105
    ensures Score(q, e) == 100
  {
  }

  /** An exact hit on the entity name alone scores 95: below an exact title hit. */
  lemma ExactEntityNameScores95(q: string, e: SearchEntity)
    requires Normalize(q) != ""
    requires Normalize(OrStr(EntityName(e), "")) == Normalize(q)
    requires ItemScore(q, e) <= 95
    ensures Score(q, e) == 95
  {
  }

  lemma {:induction false} TokenHitsAll(tokens: seq<string>, t: string)
    requires forall i :: 0 <= i < |tokens| ==> Contains(t, tokens[i])
    ensures TokenHits(tokens, t, "") == |tokens|
    decreases |tokens|
  {
    if |tokens| > 0 {
      assert forall i :: 0 <= i < |tokens[1..]| ==> tokens[1..][i] == tokens[i + 1];
      TokenHitsAll(tokens[1..], t);
    }
  }

  /** `k` copies of `w`. */
  function Copies(w: string, k: nat): (r: seq<string>)
    ensures |r| == k && forall i :: 0 <= i < k ==> r[i] == w
  {
    if k == 0 then [] else [w] + Copies(w, k - 1)
  }

  /**
   * The token fallback is not capped: a query of fifteen or more words,
   * each found in the title but not as one run, scores above the 100 of
   * an exact title match.
   */
  lemma FallbackExceedsExact(ws: seq<string>, t: string)
    requires |ws| >= 15 && Words(ws)
    requires forall i :: 0 <= i < |ws| ==> Contains(t, ws[i])
    requires !Contains(t, Join(ws, ' '))
    ensures BaseStringScore(Join(ws, ' '), t, "") == 30 + 5 * |ws| > 100
  {
    TokensOfJoin(ws);
    TokenHitsAll(ws, t);
    assert Join(ws, ' ') != "" by { assert Join(ws, ' ') == ws[0] + " " + Join(ws[1..], ' '); }
    assert !Contains("", Join(ws, ' ')) by { assert !StartsWith("", Join(ws, ' ')); }
  }

  /** Such queries exist: "a a … a" against the title "a". */
  lemma FallbackExceedsExactMatch(k: nat)
    requires k >= 15
    ensures var n := Join(Copies("a", k), ' ');
      BaseStringScore(n, "a", "") == 30 + 5 * k > 100 && BaseStringScore(n, n, "") == 100
  {
    var ws := Copies("a", k);
    var n := Join(ws, ' ');
    assert Words(ws);
    assert Contains("a", "a");
    assert n == "a" + " " + Join(ws[1..], ' ');
    assert !Contains("a", n) by {
      assert !StartsWith("a", n);
      assert !StartsWith("", n);
    }
    FallbackExceedsExact(ws, "a");
  }

  /* --------------------------- synthetic companies --------------------------- */

  /** `new Date("2000-01-01T00:00:00Z").getTime()` */
  const SyntheticUpdatedAt: int := 946684800000

  /** The entity ids that already have a "companies" record (a truthy `entity.id`). */
  function ExistingCompanyIds(existing: seq<SearchEntity>): (ids: set<string>)
    ensures forall e :: e in existing && e.scope == "companies" && e.entity.Some? && e.entity.value.id != ""
              ==> e.entity.value.id in ids
    ensures forall id :: id in ids ==> id != "" && exists e :: e in existing && e.scope == "companies" && e.entity.Some? && e.entity.value.id == id
  {
    set e | e in existing && e.scope == "companies" && e.entity.Some? && e.entity.value.id != "" :: e.entity.value.id
  }

  /** The record synthesised for one company entity. */
  function CompanyRecord(eh: EntityHeader): (r: SearchEntity)
    ensures r.scope == "companies" && r.entity == Some(eh)
    ensures r.id == "co-" + eh.id && r.title == eh.name
    ensures r.updatedAt == Some(SyntheticUpdatedAt)
  {
    SearchEntity(
      "co-" + eh.id, eh.name, Some(OrStr(eh.subtitle, "")), "/companies/" + Slugify(eh.name),
      "companies", Some(eh), Some(["company"]), Some(SyntheticUpdatedAt),
      Some(RawItem(Some("company"), None)), None, None, None, None)
  }

  /** The entity needs a synthetic record: it is a company without a companies record. */
  predicate NeedsCompanyRecord(eh: EntityHeader, existing: seq<SearchEntity>) {
    eh.kind == Some("company") && eh.id !in ExistingCompanyIds(existing)
  }

  /** A record is the synthetic record of one of `entities` that needs one. */
  predicate SyntheticFor(rec: SearchEntity, entities: seq<EntityHeader>, existing: seq<SearchEntity>) {
    && rec.entity.Some? && rec.entity.value in entities
    && NeedsCompanyRecord(rec.entity.value, existing)
    && rec == CompanyRecord(rec.entity.value)
  }

  /** `synthesizeCompaniesIndex(entities, existing)`, over the entity values in order. */
  function Synthesize(entities: seq<EntityHeader>, existing: seq<SearchEntity>): (r: seq<SearchEntity>)
    ensures |r| <= |entities|
    ensures forall i :: 0 <= i < |r| ==> SyntheticFor(r[i], entities, existing)
    decreases |entities|
  {
    if |entities| == 0 then []
    else
      var rest := Synthesize(entities[1..], existing);
      if NeedsCompanyRecord(entities[0], existing) then [CompanyRecord(entities[0])] + rest else rest
  }

  /** Every company entity without a companies record receives a synthetic record. */
  lemma {:induction false} SynthesizeComplete(entities: seq<EntityHeader>, existing: seq<SearchEntity>, eh: EntityHeader)
    requires eh in entities && NeedsCompanyRecord(eh, existing)
    ensures CompanyRecord(eh) in Synthesize(entities, existing)
    decreases |entities|
  {
    if entities[0] != eh {
      assert eh in entities[1..];
      SynthesizeComplete(entities[1..], existing, eh);
    }
  }

  /** Users and organisations never receive a synthetic record. */
  lemma SynthesizeOnlyCompanies(entities: seq<EntityHeader>, existing: seq<SearchEntity>, r: SearchEntity)
    requires r in Synthesize(entities, existing)
    ensures r.entity.Some? && r.entity.value.kind == Some("company")
  {
  }

  /** `INDEX`: the stored records followed by the synthesised company records. */
  function Index(mock: seq<SearchEntity>, entities: seq<EntityHeader>): (r: seq<SearchEntity>)
    ensures mock <= r
    ensures forall i :: |mock| <= i < |r| ==> r[i].scope == "companies"
  {
    mock + Synthesize(entities, mock)
  }

  /* --------------------------------- search --------------------------------- */

  /** The scope and role filters: scope "all" keeps everything; a role only drops records with a different, set role. */
  predicate PassesFilter(e: SearchEntity, scope: string, role: Option<string>) {
    && (scope == "all" || e.scope == scope)
    && !(Truthy(role) && Truthy(RawRole(e)) && RawRole(e).value != role.value)
  }

  function Candidates(index: seq<SearchEntity>, scope: string, role: Option<string>): (r: seq<SearchEntity>)
    ensures forall i :: 0 <= i < |r| ==> PassesFilter(r[i], scope, role)
    ensures forall e :: e in r <==> e in index && PassesFilter(e, scope, role)
  {
    FilterMembers(index, e => PassesFilter(e, scope, role));
    Filter(index, e => PassesFilter(e, scope, role))
  }

  /** A record with its `_score`. */
  datatype Scored = Scored(item: SearchEntity, score: int)

  function ScoreAll(s: seq<SearchEntity>, qn: string): (r: seq<Scored>)
    ensures |r| == |s|
    ensures forall i :: 0 <= i < |r| ==> r[i].item == s[i] && r[i].score == Score(qn, s[i])
  {
    seq(|s|, i requires 0 <= i < |s| => Scored(s[i], Score(qn, s[i])))
  }

  /** `stripScore` over a list: the records without their scores. */
  function Items(hs: seq<Scored>): (r: seq<SearchEntity>)
    ensures |r| == |hs|
    ensures forall i :: 0 <= i < |r| ==> r[i] == hs[i].item
  {
    seq(|hs|, i requires 0 <= i < |hs| => hs[i].item)
  }

  predicate Positive(h: Scored) { h.score > 0 }

  /** A non-empty query keeps only records that score; an empty one keeps all. */
  function KeepHits(scored: seq<Scored>, qn: string): (r: seq<Scored>)
    ensures qn == "" ==> r == scored
    ensures qn != "" ==> forall i :: 0 <= i < |r| ==> r[i].score > 0
  {
    if qn != "" then Filter(scored, Positive) else scored
  }

  /** `b.updatedAt || 0`, as a time in milliseconds. */
  function DateOf(e: SearchEntity): int {
    OrElse(e.updatedAt, 0)
  }

  /** "recent": `dateB - dateA <= 0`, newer first. */
  predicate RecentLe(a: Scored, b: Scored) {
    DateOf(a.item) >= DateOf(b.item)
  }

  /** relevance: `b._score - a._score <= 0`, higher first. */
  predicate RelevanceLe(a: Scored, b: Scored) {
    a.score >= b.score
  }

  /**
   * The order `hits.sort(cmp)` establishes, as `cmp(a, b) <= 0`. The "a-z"
   * order is `localeCompare`, passed in as `titleLe(x, y)` for
   * `x.localeCompare(y) <= 0`.
   */
  function OrderFor(sort: Option<string>, titleLe: (string, string) -> bool): (Scored, Scored) -> bool {
    if sort == Some("recent") then RecentLe
    else if sort == Some("a-z") then (a: Scored, b: Scored) => titleLe(a.item.title, b.item.title)
    else RelevanceLe
  }

  /** `pageSize || 24` */
  function PageSize(pageSize: Option<int>): (ps: int)
    ensures ps != 0
    ensures pageSize.Some? && pageSize.value != 0 ==> ps == pageSize.value
  {
    if pageSize.None? || pageSize.value == 0 then 24 else pageSize.value
  }

  /** `Math.max(1, Math.ceil(total / ps))` */
  function TotalPages(total: nat, ps: int): (r: int)
    requires ps != 0
    ensures r >= 1
    ensures ps > 0 ==> total <= r * ps
    ensures ps > 0 && total > 0 ==> (r - 1) * ps < total
    ensures ps < 0 ==> r == 1
  {
    if ps > 0 then Max(1, (total + ps - 1) / ps) else 1
  }

  /** `page || 1` */
  function RequestedPage(page: Option<int>): int {
    if page.None? || page.value == 0 then 1 else page.value
  }

  /** `Math.min(Math.max(1, page || 1), totalPages) - 1` */
  function PageIndex(page: Option<int>, totalPages: int): (r: int)
    requires totalPages >= 1
    ensures 0 <= r < totalPages
    ensures 1 <= RequestedPage(page) <= totalPages ==> r == RequestedPage(page) - 1
    ensures RequestedPage(page) < 1 ==> r == 0
    ensures RequestedPage(page) > totalPages ==> r == totalPages - 1
  {
    Min(Max(1, RequestedPage(page)), totalPages) - 1
  }

  datatype SearchResult = SearchResult(
    hits: seq<SearchEntity>,
    total: int,
    totalPages: int,
    allHits: seq<SearchEntity>)

  /** The scored hits of a query in the requested order, before paging. */
  function RankedHits(index: seq<SearchEntity>, q: string, scope: string, role: Option<string>,
                      sort: Option<string>, titleLe: (string, string) -> bool): seq<Scored>
  {
    var qn := Trim(q);
    SortBy(KeepHits(ScoreAll(Candidates(index, scope, role), qn), qn), OrderFor(sort, titleLe))
  }

  lemma PageStartBound(pi: nat, ps: int)
    ensures ps > 0 ==> pi * ps >= 0
  {
  }

  /**
   * The requested page of `all`: `all.slice(start, start + ps)` with
   * `start = (page - 1) * ps` after the page is clamped to the page count;
   * for a positive size it holds at most one page of records.
   */
  function PageOf(all: seq<SearchEntity>, page: Option<int>, pageSize: Option<int>): (r: seq<SearchEntity>)
    ensures var ps := PageSize(pageSize);
      var start := PageIndex(page, TotalPages(|all|, ps)) * ps;
      r == Slice(all, start, start + ps) && (ps > 0 ==> |r| <= ps)
  {
    var ps := PageSize(pageSize);
    var pi := PageIndex(page, TotalPages(|all|, ps));
    PageStartBound(pi, ps);
    Slice(all, pi * ps, pi * ps + ps)
  }

  /** `searchLocal({q, scope, role, sort, page, pageSize})` */
  function SearchLocal(index: seq<SearchEntity>, q: string, scope: string, role: Option<string>,
                       sort: Option<string>, page: Option<int>, pageSize: Option<int>,
                       titleLe: (string, string) -> bool): (r: SearchResult)
    ensures r.total == |r.allHits|
    ensures r.totalPages >= 1
    ensures r.totalPages == TotalPages(r.total, PageSize(pageSize))
    ensures r.hits == PageOf(r.allHits, page, pageSize)
    ensures PageSize(pageSize) > 0 ==> |r.hits| <= PageSize(pageSize) && r.total <= r.totalPages * PageSize(pageSize)
  {
    var all := Items(RankedHits(index, q, scope, role, sort, titleLe));
    SearchResult(PageOf(all, page, pageSize), |all|, TotalPages(|all|, PageSize(pageSize)), all)
  }

  /* --------------------------- searchLocal lemmas --------------------------- */

  /** A ranked hit is a filtered index record carrying its own score, positive for a non-empty query. */
  lemma RankedMember(index: seq<SearchEntity>, q: string, scope: string, role: Option<string>,
                     sort: Option<string>, titleLe: (string, string) -> bool, h: Scored)
    ensures h in RankedHits(index, q, scope, role, sort, titleLe) <==>
      && h.item in index && PassesFilter(h.item, scope, role)
      && h.score == Score(Trim(q), h.item)
      && (Trim(q) != "" ==> h.score > 0)
  {
    var qn := Trim(q);
    var c := Candidates(index, scope, role);
    var kh := KeepHits(ScoreAll(c, qn), qn);
    SortByPermutes(kh, OrderFor(sort, titleLe));
    assert h in RankedHits(index, q, scope, role, sort, titleLe) <==> h in kh by {
      assert h in multiset(SortBy(kh, OrderFor(sort, titleLe))) <==> h in multiset(kh);
    }
    KeepHitsMember(ScoreAll(c, qn), qn, h);
    ScoreAllMember(c, qn, h);
    FilterMember(index, e => PassesFilter(e, scope, role), h.item);
  }

  lemma KeepHitsMember(sc: seq<Scored>, qn: string, h: Scored)
    ensures h in KeepHits(sc, qn) <==> h in sc && (qn != "" ==> h.score > 0)
  {
    if qn != "" {
      FilterMember(sc, Positive, h);
    }
  }

  lemma ScoreAllMember(c: seq<SearchEntity>, qn: string, h: Scored)
    ensures h in ScoreAll(c, qn) <==> h.item in c && h.score == Score(qn, h.item)
  {
    var sc := ScoreAll(c, qn);
    if h in sc {
      var i :| 0 <= i < |sc| && sc[i] == h;
      assert h.item == c[i];
    }
    if h.item in c && h.score == Score(qn, h.item) {
      var i :| 0 <= i < |c| && c[i] == h.item;
      assert sc[i] == h;
    }
  }

  /**
   * `allHits` holds exactly the index records that pass the scope and role
   * filters and, for a non-empty trimmed query, score above 0.
   */
  lemma SearchLocalMembers(index: seq<SearchEntity>, q: string, scope: string, role: Option<string>,
                           sort: Option<string>, page: Option<int>, pageSize: Option<int>,
                           titleLe: (string, string) -> bool, x: SearchEntity)
    ensures x in SearchLocal(index, q, scope, role, sort, page, pageSize, titleLe).allHits <==>
      x in index && PassesFilter(x, scope, role) && (Trim(q) != "" ==> Score(Trim(q), x) > 0)
  {
    var ranked := RankedHits(index, q, scope, role, sort, titleLe);
    var all := Items(ranked);
    if x in all {
      var i :| 0 <= i < |all| && all[i] == x;
      RankedMember(index, q, scope, role, sort, titleLe, ranked[i]);
    }
    var h := Scored(x, Score(Trim(q), x));
    RankedMember(index, q, scope, role, sort, titleLe, h);
    if h in ranked {
      var i :| 0 <= i < |ranked| && ranked[i] == h;
      assert all[i] == x;
    }
  }

  lemma ItemsConcat(a: seq<Scored>, b: seq<Scored>)
    ensures Items(a + b) == Items(a) + Items(b)
  {
  }

  /** Dropping the scores of two permuted lists gives permuted records. */
  lemma {:induction false} ItemsPermutes(a: seq<Scored>, b: seq<Scored>)
    requires multiset(a) == multiset(b)
    ensures multiset(Items(a)) == multiset(Items(b))
    decreases |a|
  {
    if |a| == 0 {
      assert |b| == |multiset(b)| == 0;
    } else {
      var x := a[0];
      assert x in multiset(b);
      var j :| 0 <= j < |b| && b[j] == x;
      var b' := b[..j] + b[j + 1..];
      PermRemove(a, b, j);
      ItemsPermutes(a[1..], b');
      ItemsSplit(b, j);
      assert Items(a) == [x.item] + Items(a[1..]);
    }
  }

  lemma ItemsSplit(b: seq<Scored>, j: int)
    requires 0 <= j < |b|
    ensures multiset(Items(b)) == multiset(Items(b[..j] + b[j + 1..])) + multiset{b[j].item}
  {
    var l, m, r := b[..j], [b[j]], b[j + 1..];
    assert b == l + (m + r);
    ItemsConcat(l, m + r);
    ItemsConcat(m, r);
    ItemsConcat(l, r);
    assert Items(m) == [b[j].item];
    calc {
      multiset(Items(b));
      multiset(Items(l) + (Items(m) + Items(r)));
      multiset(Items(l)) + multiset(Items(m)) + multiset(Items(r));
      multiset(Items(l) + Items(r)) + multiset{b[j].item};
    }
  }

  lemma ItemsOfScoreAll(s: seq<SearchEntity>, qn: string)
    ensures Items(ScoreAll(s, qn)) == s
  {
  }

  /** The records a trimmed query scores above 0. */
  function ScoresUnder(qn: string): SearchEntity -> bool {
    e => Score(qn, e) > 0
  }

  /** Keeping the positive scores then dropping them keeps the records whose score `p` says is positive. */
  lemma {:induction false} ItemsOfPositiveBy(sc: seq<Scored>, s: seq<SearchEntity>, p: SearchEntity -> bool)
    requires |sc| == |s|
    requires forall i :: 0 <= i < |s| ==> sc[i].item == s[i]
    requires forall i :: 0 <= i < |s| ==> Positive(sc[i]) == p(s[i])
    ensures Items(Filter(sc, Positive)) == Filter(s, p)
    decreases |s|
  {
    if |s| > 0 {
      ItemsOfPositiveBy(sc[1..], s[1..], p);
      if Positive(sc[0]) {
        ItemsConcat([sc[0]], Filter(sc[1..], Positive));
      }
    }
  }

  lemma ItemsOfPositive(s: seq<SearchEntity>, qn: string)
    ensures Items(Filter(ScoreAll(s, qn), Positive)) == Filter(s, ScoresUnder(qn))
  {
    ItemsOfPositiveBy(ScoreAll(s, qn), s, ScoresUnder(qn));
  }

  /**
   * The returned records are a permutation of the filtered index records
   * (an empty query) or of those among them that score (a non-empty one).
   */
  lemma SearchLocalPermutes(index: seq<SearchEntity>, q: string, scope: string, role: Option<string>,
                            sort: Option<string>, page: Option<int>, pageSize: Option<int>,
                            titleLe: (string, string) -> bool)
    ensures Trim(q) == "" ==>
      multiset(SearchLocal(index, q, scope, role, sort, page, pageSize, titleLe).allHits)
      == multiset(Candidates(index, scope, role))
    ensures Trim(q) != "" ==>
      multiset(SearchLocal(index, q, scope, role, sort, page, pageSize, titleLe).allHits)
      == multiset(Filter(Candidates(index, scope, role), ScoresUnder(Trim(q))))
  {
    var qn := Trim(q);
    var c := Candidates(index, scope, role);
    var kh := KeepHits(ScoreAll(c, qn), qn);
    SortByPermutes(kh, OrderFor(sort, titleLe));
    ItemsPermutes(SortBy(kh, OrderFor(sort, titleLe)), kh);
    if qn == "" {
      ItemsOfScoreAll(c, qn);
    } else {
      ItemsOfPositive(c, qn);
    }
  }

  lemma RelevanceTotal()
    ensures TotalPreorder(RelevanceLe)
  {
  }

  lemma RecentTotal()
    ensures TotalPreorder(RecentLe)
  {
  }

  lemma TitleOrderTotal(titleLe: (string, string) -> bool)
    requires TotalPreorder(titleLe)
    ensures TotalPreorder((a: Scored, b: Scored) => titleLe(a.item.title, b.item.title))
  {
    var le := (a: Scored, b: Scored) => titleLe(a.item.title, b.item.title);
    forall a: Scored, b: Scored
      ensures le(a, b) || le(b, a)
    {
      assert titleLe(a.item.title, b.item.title) || titleLe(b.item.title, a.item.title);
    }
    forall a: Scored, b: Scored, c: Scored | le(a, b) && le(b, c)
      ensures le(a, c)
    {
      assert titleLe(a.item.title, b.item.title) && titleLe(b.item.title, c.item.title);
    }
  }

  /** Every sort option yields a total preorder, given one for `localeCompare`. */
  lemma OrderForTotal(sort: Option<string>, titleLe: (string, string) -> bool)
    requires TotalPreorder(titleLe)
    ensures TotalPreorder(OrderFor(sort, titleLe))
  {
    RelevanceTotal();
    RecentTotal();
    TitleOrderTotal(titleLe);
  }

  /**
   * The order of `allHits`: newest first for "recent", ascending title for
   * "a-z", highest score first otherwise.
   */
  lemma SearchLocalOrdered(index: seq<SearchEntity>, q: string, scope: string, role: Option<string>,
                           sort: Option<string>, page: Option<int>, pageSize: Option<int>,
                           titleLe: (string, string) -> bool, i: int, j: int)
    requires TotalPreorder(titleLe)
    requires 0 <= i < j < |SearchLocal(index, q, scope, role, sort, page, pageSize, titleLe).allHits|
    ensures var all := SearchLocal(index, q, scope, role, sort, page, pageSize, titleLe).allHits;
      if sort == Some("recent") then DateOf(all[i]) >= DateOf(all[j])
      else if sort == Some("a-z") then titleLe(all[i].title, all[j].title)
      else Score(Trim(q), all[i]) >= Score(Trim(q), all[j])
  {
    var ranked := RankedHits(index, q, scope, role, sort, titleLe);
    var qn := Trim(q);
    OrderForTotal(sort, titleLe);
    SortBySorted(KeepHits(ScoreAll(Candidates(index, scope, role), qn), qn), OrderFor(sort, titleLe));
    assert OrderFor(sort, titleLe)(ranked[i], ranked[j]);
    RankedMember(index, q, scope, role, sort, titleLe, ranked[i]);
    RankedMember(index, q, scope, role, sort, titleLe, ranked[j]);
  }

  /**
   * Ties keep their index order: for every hit `t`, the hits that compare
   * equal to `t` appear in the ranking in the order the filter produced them.
   */
  lemma SearchLocalStable(index: seq<SearchEntity>, q: string, scope: string, role: Option<string>,
                          sort: Option<string>, titleLe: (string, string) -> bool, t: Scored)
    requires TotalPreorder(titleLe)
    ensures var le := OrderFor(sort, titleLe);
      Equivalents(RankedHits(index, q, scope, role, sort, titleLe), t, le)
      == Equivalents(KeepHits(ScoreAll(Candidates(index, scope, role), Trim(q)), Trim(q)), t, le)
  {
    OrderForTotal(sort, titleLe);
    SortByStable(KeepHits(ScoreAll(Candidates(index, scope, role), Trim(q)), Trim(q)), t, OrderFor(sort, titleLe));
  }

  /* ------------------------------ countByScope ------------------------------ */

  /** A JavaScript number slot: a count, or `NaN` after `undefined++`. */
  datatype Tally = N(n: int) | NaN

  /** The keys `countByScope` initialises. */
  const CountKeys: set<string> := {"all", "repos", "materials", "components", "products", "companies", "suppliers"}

  function InitialCounts(total: nat): (m: map<string, Tally>)
    ensures m.Keys == CountKeys
    ensures m["all"] == N(total)
    ensures forall k :: k in m && k != "all" ==> m[k] == N(0)
  {
    map k | k in CountKeys :: if k == "all" then N(total) else N(0)
  }

  /** Number of records with the given stored scope. */
  function CountScope(s: seq<SearchEntity>, k: string): (n: nat)
    ensures n <= |s|
    decreases |s|
  {
    if |s| == 0 then 0 else (if s[0].scope == k then 1 else 0) + CountScope(s[1..], k)
  }

  /** `counts[k]++`: a missing slot reads `undefined`, and `undefined + 1` is `NaN`. */
  function Bump(counts: map<string, Tally>, k: string): (r: map<string, Tally>)
    ensures r.Keys == counts.Keys + {k}
    ensures forall j :: j in counts && j != k ==> r[j] == counts[j]
  {
    if k in counts && counts[k].N? then counts[k := N(counts[k].n + 1)] else counts[k := NaN]
  }

  /** The `for` loop of `countByScope`, from a given starting map. */
  function TallyAll(counts: map<string, Tally>, s: seq<SearchEntity>): (r: map<string, Tally>)
    ensures counts.Keys <= r.Keys
    decreases |s|
  {
    if |s| == 0 then counts else TallyAll(Bump(counts, s[0].scope), s[1..])
  }

  /** One slot after the loop: counts add up, `NaN` stays `NaN`, and a fresh slot becomes `NaN`. */
  lemma {:induction false} TallySlot(counts: map<string, Tally>, s: seq<SearchEntity>, k: string)
    ensures k in TallyAll(counts, s) <==> k in counts || CountScope(s, k) > 0
    ensures k in counts && counts[k].N? ==> TallyAll(counts, s)[k] == N(counts[k].n + CountScope(s, k))
    ensures k in counts && counts[k].NaN? ==> TallyAll(counts, s)[k] == NaN
    ensures k !in counts && CountScope(s, k) > 0 ==> TallyAll(counts, s)[k] == NaN
    decreases |s|
  {
    if |s| > 0 {
      TallySlot(Bump(counts, s[0].scope), s[1..], k);
    }
  }

  /** `countByScope(all)` */
  function CountByScope(all: seq<SearchEntity>): (r: map<string, Tally>)
    ensures CountKeys <= r.Keys
  {
    TallyAll(InitialCounts(|all|), all)
  }

  /**
   * What each slot of `countByScope` holds: "all" is the input length (plus
   * any record whose scope is literally "all"), every other initialised key
   * counts the records with that stored scope, and a scope without an
   * initialised slot reads `NaN`.
   */
  lemma CountByScopeSlot(all: seq<SearchEntity>, k: string)
    ensures k in CountByScope(all) <==> k in CountKeys || CountScope(all, k) > 0
    ensures k == "all" ==> CountByScope(all)[k] == N(|all| + CountScope(all, "all"))
    ensures k in CountKeys && k != "all" ==> CountByScope(all)[k] == N(CountScope(all, k))
    ensures k !in CountKeys && k in CountByScope(all) ==> CountByScope(all)[k] == NaN
  {
    TallySlot(InitialCounts(|all|), all, k);
  }

  lemma {:induction false} CountScopePositive(s: seq<SearchEntity>, k: string)
    ensures CountScope(s, k) > 0 <==> exists e :: e in s && e.scope == k
    decreases |s|
  {
    if |s| > 0 {
      CountScopePositive(s[1..], k);
      if CountScope(s[1..], k) > 0 {
        var e :| e in s[1..] && e.scope == k;
        assert e in s;
      }
      forall e | e in s && e.scope == k && e != s[0]
        ensures e in s[1..]
      {
      }
    }
  }

  /** "standards" and "projects" records get a `NaN` slot, never a count. */
  lemma UninitialisedScopesAreNaN(all: seq<SearchEntity>, i: int)
    requires 0 <= i < |all| && (all[i].scope == "standards" || all[i].scope == "projects")
    ensures all[i].scope in CountByScope(all) && CountByScope(all)[all[i].scope] == NaN
  {
    CountScopePositive(all, all[i].scope);
    assert all[i] in all;
    CountByScopeSlot(all, all[i].scope);
  }

  /**
   * The evidently intended tally, `counts[k] = (counts[k] ?? 0) + 1`: a
   * scope without an initialised slot starts from 0.
   */
  function BumpIntended(counts: map<string, Tally>, k: string): (r: map<string, Tally>)
    requires forall j :: j in counts ==> counts[j].N?
    ensures r.Keys == counts.Keys + {k}
    ensures forall j :: j in r ==> r[j].N?
    ensures forall j :: j in counts && j != k ==> r[j] == counts[j]
    ensures r[k] == N((if k in counts then counts[k].n else 0) + 1)
  {
    counts[k := N((if k in counts then counts[k].n else 0) + 1)]
  }

  function TallyAllIntended(counts: map<string, Tally>, s: seq<SearchEntity>): (r: map<string, Tally>)
    requires forall j :: j in counts ==> counts[j].N?
    ensures counts.Keys <= r.Keys
    ensures forall j :: j in r ==> r[j].N?
    decreases |s|
  {
    if |s| == 0 then counts else TallyAllIntended(BumpIntended(counts, s[0].scope), s[1..])
  }

  /** One slot after the intended loop: its start (0 when absent) plus the records with that scope. */
  lemma {:induction false} TallySlotIntended(counts: map<string, Tally>, s: seq<SearchEntity>, k: string)
    requires forall j :: j in counts ==> counts[j].N?
    ensures k in TallyAllIntended(counts, s) <==> k in counts || CountScope(s, k) > 0
    ensures k in TallyAllIntended(counts, s) ==>
      TallyAllIntended(counts, s)[k] == N((if k in counts then counts[k].n else 0) + CountScope(s, k))
    decreases |s|
  {
    if |s| > 0 {
      TallySlotIntended(BumpIntended(counts, s[0].scope), s[1..], k);
    }
  }

  /** `countByScope` with every slot counted from 0. */
  function CountByScopeIntended(all: seq<SearchEntity>): (r: map<string, Tally>)
    ensures CountKeys <= r.Keys
    ensures forall k :: k in r ==> r[k].N?
  {
    TallyAllIntended(InitialCounts(|all|), all)
  }

  /**
   * Every slot of the intended tally is a count: "all" adds the input
   * length, and every other scope counts exactly its records.
   */
  lemma CountByScopeIntendedSlot(all: seq<SearchEntity>, k: string)
    ensures k in CountByScopeIntended(all) <==> k in CountKeys || CountScope(all, k) > 0
    ensures k == "all" ==> CountByScopeIntended(all)[k] == N(|all| + CountScope(all, "all"))
    ensures k != "all" && k in CountByScopeIntended(all) ==> CountByScopeIntended(all)[k] == N(CountScope(all, k))
  {
    TallySlotIntended(InitialCounts(|all|), all, k);
  }

  /** With the intended tally a "standards" or "projects" record is counted, never `NaN`. */
  lemma UninitialisedScopesCounted(all: seq<SearchEntity>, i: int)
    requires 0 <= i < |all| && (all[i].scope == "standards" || all[i].scope == "projects")
    ensures all[i].scope in CountByScopeIntended(all)
    ensures CountByScopeIntended(all)[all[i].scope] == N(CountScope(all, all[i].scope))
    ensures CountScope(all, all[i].scope) >= 1
  {
    CountScopePositive(all, all[i].scope);
    assert all[i] in all;
    CountByScopeIntendedSlot(all, all[i].scope);
  }

  /** The two tallies agree on every initialised key, so the tab badges are the same under either. */
  lemma TalliesAgreeOnTabs(all: seq<SearchEntity>, k: string)
    requires k in CountKeys
    ensures CountByScopeIntended(all)[k] == CountByScope(all)[k]
  {
    CountByScopeSlot(all, k);
    CountByScopeIntendedSlot(all, k);
  }
}
