/**
 * The results page (`components/search/search-shell.tsx`): reading the URL
 * parameters, the shown search and the badge-count search, the parameter
 * merge behind every navigation, and the pager.
 *
 * `URLSearchParams` is a map from key to value (one value per key; the
 * encoding of the query string is not modelled), and the router push is
 * the resulting map.
 */
module SearchShell {
  import opened Common
  import opened Text
  import opened Numbers
  import opened Seqs
  import opened SearchTypes
  import opened SearchQuery

  type Params = map<string, string>

  function QueryParam(params: Params, initialQuery: string): string {
    OrElse(Get(params, "q"), initialQuery)
  }

  function ScopeParam(params: Params, initialScope: string): string {
    OrElse(Get(params, "scope"), initialScope)
  }

  function RoleParam(params: Params): string {
    OrElse(Get(params, "role"), "")
  }

  function SortParam(params: Params): string {
    OrElse(Get(params, "sort"), "relevance")
  }

  /** A JavaScript number read from the URL: an integer, or `NaN`. */
  datatype PageNum = Page(n: int) | PageNaN

  /** `Math.max(1, parseInt(params.get("page") ?? "1", 10))`; `NaN` survives `Math.max`. */
  function PageParam(params: Params): (p: PageNum)
    ensures "page" !in params ==> p == Page(1)
    ensures p.Page? ==> p.n >= 1
    ensures p.PageNaN? <==> "page" in params && ParseInt(params["page"]).None?
    ensures "page" in params && ParseInt(params["page"]).Some? ==> p == Page(Max(1, ParseInt(params["page"]).value))
  {
    var raw := OrElse(Get(params, "page"), "1");
    assert "page" !in params ==> ParseInt(raw) == Some(1) by {
      if "page" !in params {
        ParseIntToString(1, "");
        assert IntToString(1) + "" == "1";
      }
    }
    match ParseInt(raw)
    case None => PageNaN
    case Some(v) => Page(Max(1, v))
  }

  /** The page handed to `searchLocal`: `page || 1` reads `NaN` as 1, like an absent page. */
  function PageArg(p: PageNum): (r: Option<int>)
    ensures RequestedPage(r) == (if p.Page? && p.n != 0 then p.n else 1)
  {
    match p
    case Page(n) => Some(n)
    case PageNaN => None
  }

  /** The search whose hits the page shows: 24 per page. */
  function Shown(index: seq<SearchEntity>, params: Params, initialQuery: string, initialScope: string,
                 titleLe: (string, string) -> bool): (r: SearchResult)
    ensures |r.hits| <= 24
  {
    SearchLocal(index, QueryParam(params, initialQuery), ScopeParam(params, initialScope),
                Some(RoleParam(params)), Some(SortParam(params)), PageArg(PageParam(params)), Some(24), titleLe)
  }

  /** The tabs after "All", in the order `SCOPES_FOR_UI` lists them. */
  const TabKeys: seq<string> := ["standards", "materials", "components", "products", "projects", "companies"]

  /** The badge search: every scope, the selected query and role, first page of 9999. */
  function BadgeHits(index: seq<SearchEntity>, params: Params, initialQuery: string,
                     titleLe: (string, string) -> bool): seq<SearchEntity> {
    SearchLocal(index, QueryParam(params, initialQuery), "all", Some(RoleParam(params)),
                Some("relevance"), Some(1), Some(9999), titleLe).allHits
  }

  /** The badge counts: `countByScope` over the badge search, with its `NaN` slots. */
  function Counts(index: seq<SearchEntity>, params: Params, initialQuery: string,
                  titleLe: (string, string) -> bool): (r: map<string, Tally>)
    ensures CountKeys <= r.Keys
  {
    CountByScope(BadgeHits(index, params, initialQuery, titleLe))
  }

  /** The badge counts under the corrected tally, which counts every scope from 0. */
  function CountsIntended(index: seq<SearchEntity>, params: Params, initialQuery: string,
                          titleLe: (string, string) -> bool): (r: map<string, Tally>)
    ensures CountKeys <= r.Keys
    ensures forall k :: k in r ==> r[k].N?
  {
    CountByScopeIntended(BadgeHits(index, params, initialQuery, titleLe))
  }

  /** `counts[k] ?? 0`: a missing slot shows 0, a present slot (`NaN` included) shows as stored. */
  function Badge(counts: map<string, Tally>, k: string): (t: Tally)
    ensures k !in counts ==> t == N(0)
    ensures k in counts ==> t == counts[k]
  {
    if k in counts then counts[k] else N(0)
  }

  /** The badges ignore the selected scope, sort and page: only the query and role matter. */
  lemma CountsIndependent(index: seq<SearchEntity>, p1: Params, p2: Params, initialQuery: string,
                          titleLe: (string, string) -> bool)
    requires QueryParam(p1, initialQuery) == QueryParam(p2, initialQuery) && RoleParam(p1) == RoleParam(p2)
    ensures Counts(index, p1, initialQuery, titleLe) == Counts(index, p2, initialQuery, titleLe)
  {
  }

  function HasScope(k: string): SearchEntity -> bool {
    (e: SearchEntity) => e.scope == k
  }

  lemma {:induction false} CountScopeIsCount(s: seq<SearchEntity>, k: string)
    ensures CountScope(s, k) == Count(s, HasScope(k))
    decreases |s|
  {
    if |s| > 0 {
      CountScopeIsCount(s[1..], k);
    }
  }

  /** The records the badge search keeps: those the role admits and, for a non-blank query, that score. */
  function BadgeRecords(index: seq<SearchEntity>, q: string, role: string): seq<SearchEntity> {
    var c := Candidates(index, "all", Some(role));
    if Trim(q) == "" then c else Filter(c, ScoresUnder(Trim(q)))
  }

  /** Each scope occurs as often among the badge hits as among the records the badge search keeps. */
  lemma BadgeHitsCount(index: seq<SearchEntity>, params: Params, initialQuery: string,
                       titleLe: (string, string) -> bool, k: string)
    ensures CountScope(BadgeHits(index, params, initialQuery, titleLe), k)
            == CountScope(BadgeRecords(index, QueryParam(params, initialQuery), RoleParam(params)), k)
  {
    var q := QueryParam(params, initialQuery);
    var role := RoleParam(params);
    var all := BadgeHits(index, params, initialQuery, titleLe);
    SearchLocalPermutes(index, q, "all", Some(role), Some("relevance"), Some(1), Some(9999), titleLe);
    CountPermutes(all, BadgeRecords(index, q, role), HasScope(k));
    CountScopeIsCount(all, k);
    CountScopeIsCount(BadgeRecords(index, q, role), k);
  }

  /**
   * Each initialised badge other than "all" counts exactly the matching
   * records whose stored scope is that tab, whatever tab, sort or page is
   * selected.
   */
  lemma BadgeCount(index: seq<SearchEntity>, params: Params, initialQuery: string,
                   titleLe: (string, string) -> bool, k: string)
    requires k in CountKeys - {"all"}
    ensures Badge(Counts(index, params, initialQuery, titleLe), k)
            == N(CountScope(BadgeRecords(index, QueryParam(params, initialQuery), RoleParam(params)), k))
  {
    CountByScopeSlot(BadgeHits(index, params, initialQuery, titleLe), k);
    BadgeHitsCount(index, params, initialQuery, titleLe, k);
  }

  /**
   * A badge whose scope the tally never initialises shows `NaN` as soon as
   * one matching record has that scope, and 0 otherwise.
   */
  lemma BadgeUninitialised(index: seq<SearchEntity>, params: Params, initialQuery: string,
                           titleLe: (string, string) -> bool, k: string)
    requires k !in CountKeys
    ensures Badge(Counts(index, params, initialQuery, titleLe), k)
            == if CountScope(BadgeRecords(index, QueryParam(params, initialQuery), RoleParam(params)), k) > 0
               then NaN else N(0)
  {
    CountByScopeSlot(BadgeHits(index, params, initialQuery, titleLe), k);
    BadgeHitsCount(index, params, initialQuery, titleLe, k);
  }

  /** The Standards and Projects tabs are shown but their slots are never initialised. */
  lemma NaNTabs()
    ensures TabKeys[0] == "standards" && TabKeys[0] !in CountKeys
    ensures TabKeys[4] == "projects" && TabKeys[4] !in CountKeys
    ensures forall i :: 0 <= i < |TabKeys| && i != 0 && i != 4 ==> TabKeys[i] in CountKeys
  {
  }

  /** Under the corrected tally every tab badge, Standards and Projects included, is a count. */
  lemma BadgeCountIntended(index: seq<SearchEntity>, params: Params, initialQuery: string,
                           titleLe: (string, string) -> bool, k: string)
    requires k != "all"
    ensures Badge(CountsIntended(index, params, initialQuery, titleLe), k)
            == N(CountScope(BadgeRecords(index, QueryParam(params, initialQuery), RoleParam(params)), k))
  {
    var all := BadgeHits(index, params, initialQuery, titleLe);
    var n := CountScope(BadgeRecords(index, QueryParam(params, initialQuery), RoleParam(params)), k);
    CountByScopeIntendedSlot(all, k);
    BadgeHitsCount(index, params, initialQuery, titleLe, k);
    assert CountScope(all, k) == n;
    if k in CountByScopeIntended(all) {
      assert CountByScopeIntended(all)[k] == N(n);
    } else {
      assert n == 0;
    }
  }

  // ---- updateParam ----

  /** A patch value: `undefined`, a string, a number, or `NaN`. */
  datatype Value = Undefined | Str(s: string) | Num(n: int) | NumNaN

  /** `String(v)` */
  function ValueString(v: Value): (r: string)
    requires !v.Undefined?
    ensures v.Str? ==> r == v.s
    ensures v.Num? ==> ParseInt(r) == Some(v.n)
  {
    match v
    case Str(s) => s
    case Num(n) => ParseIntToString(n, ""); assert IntToString(n) + "" == IntToString(n); IntToString(n)
    case NumNaN => "NaN"
  }

  /** `v === undefined || v === ""` */
  predicate Deletes(v: Value) {
    v.Undefined? || v == Str("")
  }

  predicate DistinctKeys(patch: seq<(string, Value)>) {
    forall i, j :: 0 <= i < j < |patch| ==> patch[i].0 != patch[j].0
  }

  /** The patch applied entry by entry: delete for `undefined` or "", set `String(v)` otherwise. */
  function UpdateParam(params: Params, patch: seq<(string, Value)>): (r: Params)
    decreases |patch|
  {
    if |patch| == 0 then params
    else
      var (k, v) := patch[0];
      UpdateParam(if Deletes(v) then params - {k} else params[k := ValueString(v)], patch[1..])
  }

  /**
   * What `updateParam` leaves in each key: keys outside the patch keep
   * their value (or absence); a deleting entry removes its key; any other
   * entry sets it to the value's string.
   */
  lemma {:induction false} UpdateParamSlot(params: Params, patch: seq<(string, Value)>, k: string)
    requires DistinctKeys(patch)
    ensures var r := UpdateParam(params, patch);
      && ((forall i :: 0 <= i < |patch| ==> patch[i].0 != k) ==> (k in r <==> k in params) && (k in r ==> r[k] == params[k]))
      && (forall i :: 0 <= i < |patch| && patch[i].0 == k ==>
            (Deletes(patch[i].1) ==> k !in r) && (!Deletes(patch[i].1) ==> k in r && r[k] == ValueString(patch[i].1)))
    decreases |patch|
  {
    if |patch| > 0 {
      var (k0, v) := patch[0];
      var next := if Deletes(v) then params - {k0} else params[k0 := ValueString(v)];
      assert DistinctKeys(patch[1..]) by {
        forall i, j | 0 <= i < j < |patch[1..]| ensures patch[1..][i].0 != patch[1..][j].0 {
          assert patch[1..][i] == patch[i + 1] && patch[1..][j] == patch[j + 1];
        }
      }
      UpdateParamSlot(next, patch[1..], k);
      assert forall i :: 1 <= i < |patch| ==> patch[i] == patch[1..][i - 1];
      if k0 == k {
        assert forall i :: 1 <= i < |patch| ==> patch[i].0 != k;
      }
    }
  }

  lemma PageOneReadsBack(r: Params)
    requires "page" in r && r["page"] == ValueString(Num(1))
    ensures PageParam(r) == Page(1)
  {
  }

  /** A tab switch: `{scope: v, page: 1}`. */
  function SwitchTab(params: Params, v: string): Params {
    UpdateParam(params, [("scope", Str(v)), ("page", Num(1))])
  }

  function OptValue(o: Option<string>): Value {
    match o
    case Some(s) => Str(s)
    case None => Undefined
  }

  /** A filter change: `{...patch, page: 1}` with the patch's role and sort. */
  function ChangeFilters(params: Params, role: Option<string>, sort: Option<string>): Params {
    UpdateParam(params, FilterPatch(role, sort))
  }

  /** Switching tab selects that tab (a blank tab falls back to the initial scope) and returns to page 1, keeping the query. */
  lemma SwitchTabResets(params: Params, v: string, initialScope: string, initialQuery: string)
    ensures PageParam(SwitchTab(params, v)) == Page(1)
    ensures v != "" ==> ScopeParam(SwitchTab(params, v), initialScope) == v
    ensures v == "" ==> ScopeParam(SwitchTab(params, v), initialScope) == initialScope
    ensures QueryParam(SwitchTab(params, v), initialQuery) == QueryParam(params, initialQuery)
  {
    SwitchTabPage(params, v);
    var patch := [("scope", Str(v)), ("page", Num(1))];
    UpdateParamSlot(params, patch, "scope");
    UpdateParamSlot(params, patch, "q");
  }

  lemma SwitchTabPage(params: Params, v: string)
    ensures PageParam(SwitchTab(params, v)) == Page(1)
  {
    var patch := [("scope", Str(v)), ("page", Num(1))];
    UpdateParamSlot(params, patch, "page");
    assert patch[1].0 == "page" && !Deletes(patch[1].1);
    ParseIntToString(1, "");
    assert IntToString(1) + "" == "1";
    PageOneReadsBack(UpdateParam(params, patch));
  }

  /** Applying filters sets role and sort (absent or "" clears them) and returns to page 1, keeping the query and scope. */
  lemma ChangeFiltersResets(params: Params, role: Option<string>, sort: Option<string>,
                            initialQuery: string, initialScope: string)
    ensures var r := ChangeFilters(params, role, sort);
      && PageParam(r) == Page(1)
      && RoleParam(r) == OrElse(role, "")
      && SortParam(r) == (if sort.None? || sort == Some("") then "relevance" else sort.value)
      && QueryParam(r, initialQuery) == QueryParam(params, initialQuery)
      && ScopeParam(r, initialScope) == ScopeParam(params, initialScope)
  {
    ChangeFiltersPage(params, role, sort);
    ChangeFiltersRoleSort(params, role, sort);
    ChangeFiltersKeeps(params, role, sort, initialQuery, initialScope);
  }

  function FilterPatch(role: Option<string>, sort: Option<string>): (patch: seq<(string, Value)>)
    ensures DistinctKeys(patch)
  {
    [("role", OptValue(role)), ("sort", OptValue(sort)), ("page", Num(1))]
  }

  lemma ChangeFiltersPage(params: Params, role: Option<string>, sort: Option<string>)
    ensures PageParam(ChangeFilters(params, role, sort)) == Page(1)
  {
    var patch := FilterPatch(role, sort);
    UpdateParamSlot(params, patch, "page");
    assert patch[2].0 == "page" && !Deletes(patch[2].1);
    ParseIntToString(1, "");
    assert IntToString(1) + "" == "1";
    PageOneReadsBack(UpdateParam(params, patch));
  }

  lemma ChangeFiltersRoleSort(params: Params, role: Option<string>, sort: Option<string>)
    ensures RoleParam(ChangeFilters(params, role, sort)) == OrElse(role, "")
    ensures SortParam(ChangeFilters(params, role, sort)) == (if sort.None? || sort == Some("") then "relevance" else sort.value)
  {
    var patch := FilterPatch(role, sort);
    UpdateParamSlot(params, patch, "role");
    UpdateParamSlot(params, patch, "sort");
    assert patch[0].0 == "role" && patch[1].0 == "sort";
  }

  lemma ChangeFiltersKeeps(params: Params, role: Option<string>, sort: Option<string>,
                           initialQuery: string, initialScope: string)
    ensures QueryParam(ChangeFilters(params, role, sort), initialQuery) == QueryParam(params, initialQuery)
    ensures ScopeParam(ChangeFilters(params, role, sort), initialScope) == ScopeParam(params, initialScope)
  {
    var patch := FilterPatch(role, sort);
    UpdateParamSlot(params, patch, "q");
    UpdateParamSlot(params, patch, "scope");
  }

  // ---- pager ----

  /** The pager is rendered only for more than one page. */
  predicate PagerShown(totalPages: int) {
    totalPages > 1
  }

  /** Prev's target `Math.max(1, page - 1)`. */
  function PrevTarget(p: PageNum): (r: PageNum)
    ensures p.Page? && p.n > 1 ==> r == Page(p.n - 1)
    ensures p.Page? && p.n <= 1 ==> r == Page(1)
    ensures p.PageNaN? ==> r == PageNaN
  {
    match p
    case Page(n) => Page(Max(1, n - 1))
    case PageNaN => PageNaN
  }

  /** `page <= 1`; comparisons with `NaN` are false. */
  predicate PrevDisabled(p: PageNum) {
    p.Page? && p.n <= 1
  }

  /** Next's target `Math.min(totalPages, page + 1)`. */
  function NextTarget(p: PageNum, totalPages: int): (r: PageNum)
    ensures p.Page? && p.n < totalPages ==> r == Page(p.n + 1)
    ensures p.Page? && p.n >= totalPages ==> r == Page(totalPages)
    ensures p.PageNaN? ==> r == PageNaN
  {
    match p
    case Page(n) => Page(Min(totalPages, n + 1))
    case PageNaN => PageNaN
  }

  predicate NextDisabled(p: PageNum, totalPages: int) {
    p.Page? && p.n >= totalPages
  }

  function PageValue(p: PageNum): Value {
    match p
    case Page(n) => Num(n)
    case PageNaN => NumNaN
  }

  /** A page number written to the URL reads back, raised to at least 1. */
  lemma PageWritten(params: Params, p: PageNum)
    requires p.Page?
    ensures PageParam(UpdateParam(params, [("page", PageValue(p))])) == Page(Max(1, p.n))
  {
    UpdateParamSlot(params, [("page", PageValue(p))], "page");
  }

  /**
   * From a page read off the URL, an enabled Prev moves back exactly one
   * page, never below 1, and its target reads back from the URL it writes.
   */
  lemma PrevStep(params: Params)
    ensures var p := PageParam(params);
      && (p.Page? && !PrevDisabled(p) ==> PrevTarget(p) == Page(p.n - 1) && PrevTarget(p).n >= 1)
      && (p.Page? ==> PageParam(UpdateParam(params, [("page", PageValue(PrevTarget(p)))])) == PrevTarget(p))
  {
    var p := PageParam(params);
    if p.Page? {
      PageWritten(params, PrevTarget(p));
    }
  }

  /**
   * An enabled Next moves forward exactly one page, never past the last,
   * and its target reads back from the URL it writes.
   */
  lemma NextStep(params: Params, totalPages: int)
    requires totalPages >= 1
    ensures var p := PageParam(params);
      && (p.Page? && !NextDisabled(p, totalPages) ==> NextTarget(p, totalPages) == Page(p.n + 1) && p.n + 1 <= totalPages)
      && (p.Page? && p.n < totalPages ==> PageParam(UpdateParam(params, [("page", PageValue(NextTarget(p, totalPages)))])) == NextTarget(p, totalPages))
  {
    var p := PageParam(params);
    if p.Page? && p.n < totalPages {
      PageWritten(params, NextTarget(p, totalPages));
    }
  }

  /**
   * A page that does not parse stays `NaN` through both buttons: neither is
   * disabled, and each writes "NaN" back, while the search itself serves
   * page 1.
   */
  lemma NaNPageSticks(params: Params, totalPages: int)
    requires PageParam(params).PageNaN?
    ensures !PrevDisabled(PageParam(params)) && !NextDisabled(PageParam(params), totalPages)
    ensures PageParam(UpdateParam(params, [("page", PageValue(NextTarget(PageParam(params), totalPages)))])).PageNaN?
    ensures RequestedPage(PageArg(PageParam(params))) == 1
  {
    var patch := [("page", PageValue(NextTarget(PageParam(params), totalPages)))];
    UpdateParamSlot(params, patch, "page");
    var r := UpdateParam(params, patch);
    assert r["page"] == "NaN";
    assert "NaN"[LeadingSpaces("NaN")..] == "NaN";
  }
}
