/**
 * The command palette (`components/search/global-search.tsx`): the
 * suggestion list derived from the stored records, its own scoring ladder,
 * the top-8 selection grouped by scope, and the submit target.
 *
 * `encodeURIComponent` is the parameter `enc`; router navigation is the
 * returned URL.
 */
module GlobalSearch {
  import opened Common
  import opened Text
  import opened Seqs
  import opened SearchTypes
  import opened SearchQuery
  import opened MockData

  /** `Suggestion` */
  datatype Suggestion = Suggestion(id: string, title: string, subtitle: Option<string>, href: string, scope: string)

  /** `item.entity?.name?.trim()` */
  function TrimmedEntityName(item: SearchEntity): (r: Option<string>)
    ensures r.Some? <==> item.entity.Some?
  {
    match EntityName(item)
    case Some(n) => Some(Trim(n))
    case None => None
  }

  /**
   * The suggestion subtitle: "entity • subtitle" when both trimmed parts
   * are non-empty, else whichever one is, else absent.
   */
  function SuggestionSubtitle(item: SearchEntity): (r: Option<string>)
    ensures var en := TrimmedEntityName(item); var sub := Trim(OrStr(item.subtitle, ""));
      && (r.None? <==> !Truthy(en) && sub == "")
      && (Truthy(en) && sub != "" ==> r == Some(en.value + " \U{2022} " + sub))
      && (Truthy(en) && sub == "" ==> r == en)
      && (!Truthy(en) && sub != "" ==> r == Some(sub))
  {
    var en := TrimmedEntityName(item);
    var sub := Trim(OrStr(item.subtitle, ""));
    if Truthy(en) && sub != "" then Some(en.value + " \U{2022} " + sub)
    else if Truthy(en) then en
    else if sub != "" then Some(sub)
    else None
  }

  lemma AroundSeparator(a: string, sep: string, b: string)
    requires a != "" && b != ""
    ensures var r := a + sep + b;
      StartsWith(r, a) && r[|a|..] == sep + b && r[0] == a[0] && r[|r| - 1] == b[|b| - 1]
  {
    var r := a + sep + b;
    assert r[..|a|] == a;
    assert r[|a|..] == sep + b;
  }

  /** A combined subtitle reads back as its two parts around the separator. */
  lemma SubtitleParts(item: SearchEntity)
    requires Truthy(TrimmedEntityName(item)) && Trim(OrStr(item.subtitle, "")) != ""
    ensures var r := SuggestionSubtitle(item).value; var en := TrimmedEntityName(item).value;
      && StartsWith(r, en)
      && r[|en|..] == " \U{2022} " + Trim(OrStr(item.subtitle, ""))
      && !IsSpace(r[0]) && !IsSpace(r[|r| - 1])
  {
    var en := TrimmedEntityName(item).value;
    var sub := Trim(OrStr(item.subtitle, ""));
    assert en == Trim(EntityName(item).value);
    assert !IsSpace(en[0]) && !IsSpace(sub[|sub| - 1]);
    assert SuggestionSubtitle(item) == Some(en + " \U{2022} " + sub);
    AroundSeparator(en, " \U{2022} ", sub);
  }

  /** The palette scope: component-role products move to "components". */
  function SuggestionScope(item: SearchEntity): (s: string)
    ensures s != item.scope ==> item.scope == "products" && s == "components"
  {
    if item.scope == "products" && RawRole(item) == Some("component") then "components" else item.scope
  }

  function ToSuggestion(item: SearchEntity): (s: Suggestion)
    ensures s.id == item.id && s.title == item.title && s.href == item.href
  {
    Suggestion(item.id, item.title, SuggestionSubtitle(item), item.href, SuggestionScope(item))
  }

  /** `SUGGESTIONS`: one suggestion per stored record, in order. */
  function Suggestions(records: seq<SearchEntity>): (r: seq<Suggestion>)
    ensures |r| == |records|
    ensures forall i :: 0 <= i < |r| ==> r[i] == ToSuggestion(records[i])
  {
    seq(|records|, i requires 0 <= i < |records| => ToSuggestion(records[i]))
  }

  /**
   * The two rankers disagree on component products: the palette files
   * such a record under "components", while `searchLocal` with scope
   * "components" drops it and `countByScope` does not count it there.
   */
  lemma ComponentsDiverge(item: SearchEntity, role: Option<string>)
    requires item.scope == "products" && RawRole(item) == Some("component")
    ensures ToSuggestion(item).scope == "components"
    ensures !PassesFilter(item, "components", role)
    ensures CountScope([item], "components") == 0 && CountScope([item], "products") == 1
  {
  }

  /** Suggestions come from the stored records only, so no suggestion carries the "companies" scope of a synthesised record. */
  lemma SuggestionsFromStoredRecordsOnly(entities: map<string, EntityHeader>, i: int)
    requires 0 <= i < |Suggestions(MockRecords(entities))|
    ensures Suggestions(MockRecords(entities))[i].scope in {"standards", "products", "components", "projects"}
  {
    var r := MockRecords(entities);
    assert Suggestions(r)[i] == ToSuggestion(r[i]);
  }

  /** `scoreSuggestion(q, s)`: the base ladder on the suggestion's title and subtitle, no entity part. */
  function ScoreSuggestion(q: string, s: Suggestion): (r: int)
    ensures r >= 0
    ensures q == "" ==> r == 0
    ensures r > 0 <==> q != "" && var n := Normalize(q); var t := Normalize(s.title); var sub := Normalize(OrStr(s.subtitle, ""));
      Contains(t, n) || Contains(sub, n) || TokenHits(Tokens(n), t, sub) > 0
  {
    if q == "" then 0
    else BaseStringScore(Normalize(q), Normalize(s.title), Normalize(OrStr(s.subtitle, "")))
  }

  /** The palette score of a suggestion is the item score of any record with the same title and subtitle. */
  lemma ScoreSuggestionIsItemScore(q: string, s: Suggestion, e: SearchEntity)
    requires e.title == s.title && e.subtitle == s.subtitle
    ensures ScoreSuggestion(q, s) == ItemScore(q, e)
  {
    assert q == "" ==> Normalize(q) == "";
  }

  // ---- matches ----

  /** The palette's seven groups. */
  const GroupKeys: set<string> := {"standards", "materials", "components", "products", "projects", "processes", "entities"}

  const EmptyGroups: map<string, seq<Suggestion>> := map k | k in GroupKeys :: []

  datatype Ranked = Ranked(s: Suggestion, score: int)

  function ScoreEach(ss: seq<Suggestion>, q: string): (r: seq<Ranked>)
    ensures |r| == |ss|
    ensures forall i :: 0 <= i < |r| ==> r[i] == Ranked(ss[i], ScoreSuggestion(q, ss[i]))
  {
    seq(|ss|, i requires 0 <= i < |ss| => Ranked(ss[i], ScoreSuggestion(q, ss[i])))
  }

  function Unranked(rs: seq<Ranked>): (r: seq<Suggestion>)
    ensures |r| == |rs|
    ensures forall i :: 0 <= i < |r| ==> r[i] == rs[i].s
  {
    seq(|rs|, i requires 0 <= i < |rs| => rs[i].s)
  }

  predicate Scores(r: Ranked) { r.score > 0 }

  /** `(a, b) => b.score - a.score`, as `cmp(a, b) <= 0`. */
  predicate ScoreLe(a: Ranked, b: Ranked) { a.score >= b.score }

  lemma ScoreLeTotal()
    ensures TotalPreorder(ScoreLe)
  {
  }

  function InScope(scope: string): Suggestion -> bool {
    (s: Suggestion) => s.scope == scope
  }

  /** The suggestions the selected scope admits: all of them for "all". */
  function InSelectedScope(ss: seq<Suggestion>, scope: string): (r: seq<Suggestion>)
    ensures scope == "all" ==> r == ss
  {
    if scope == "all" then ss else Filter(ss, InScope(scope))
  }

  /** The scoring suggestions, highest score first, stable on ties. */
  function RankAll(ss: seq<Suggestion>, scope: string, q: string): seq<Ranked> {
    SortBy(Filter(ScoreEach(InSelectedScope(ss, scope), q), Scores), ScoreLe)
  }

  /** The suggestions kept for a trimmed query: the first 8 of the ranking. */
  function Kept(ss: seq<Suggestion>, scope: string, q: string): (r: seq<Suggestion>)
    ensures |r| <= 8
  {
    Take(Unranked(RankAll(ss, scope, q)), 8)
  }

  /**
   * `groups[item.scope].push(item)` for each kept item in order. A scope
   * that is not one of the group keys makes `push` throw (`None`).
   */
  function GroupInto(groups: map<string, seq<Suggestion>>, items: seq<Suggestion>): (r: Option<map<string, seq<Suggestion>>>)
    ensures r.Some? <==> forall i :: 0 <= i < |items| ==> items[i].scope in groups
    ensures r.Some? ==> r.value.Keys == groups.Keys
    decreases |items|
  {
    if |items| == 0 then Some(groups)
    else
      var k := items[0].scope;
      assert forall i :: 1 <= i < |items| ==> items[i] == items[1..][i - 1];
      if k in groups then GroupInto(groups[k := groups[k] + [items[0]]], items[1..])
      else None
  }

  /** Each group receives exactly the items of its scope, in order. */
  lemma {:induction false} GroupIntoSlot(groups: map<string, seq<Suggestion>>, items: seq<Suggestion>, k: string)
    requires k in groups
    requires GroupInto(groups, items).Some?
    ensures GroupInto(groups, items).value[k] == groups[k] + Filter(items, InScope(k))
    decreases |items|
  {
    if |items| > 0 {
      var k0 := items[0].scope;
      var g' := groups[k0 := groups[k0] + [items[0]]];
      GroupIntoSlot(g', items[1..], k);
      assert items == [items[0]] + items[1..];
      FilterConcat([items[0]], items[1..], InScope(k));
      assert Filter([items[0]], InScope(k)) == if k0 == k then [items[0]] else [] by {
        assert [items[0]][1..] == [];
      }
    }
  }

  /**
   * `matches`: seven empty groups for a blank input; otherwise the kept
   * suggestions filed by scope. `None` where the source throws.
   */
  function Matches(value: string, scope: string, ss: seq<Suggestion>): (r: Option<map<string, seq<Suggestion>>>)
    ensures Trim(value) == "" ==> r == Some(EmptyGroups)
    ensures r.Some? ==> r.value.Keys == GroupKeys
  {
    var q := Trim(value);
    if q == "" then Some(EmptyGroups)
    else GroupInto(EmptyGroups, Kept(ss, scope, q))
  }

  /** A ranked entry is a scoring suggestion of the selected scope, with its own score. */
  lemma RankAllMember(ss: seq<Suggestion>, scope: string, q: string, x: Ranked)
    ensures x in RankAll(ss, scope, q) <==>
      x.s in InSelectedScope(ss, scope) && x.score == ScoreSuggestion(q, x.s) && x.score > 0
  {
    var scored := ScoreEach(InSelectedScope(ss, scope), q);
    var kept := Filter(scored, Scores);
    SortByPermutes(kept, ScoreLe);
    assert x in RankAll(ss, scope, q) <==> x in kept by {
      assert x in multiset(RankAll(ss, scope, q)) <==> x in multiset(kept);
    }
    FilterMember(scored, Scores, x);
    if x.s in InSelectedScope(ss, scope) && x.score == ScoreSuggestion(q, x.s) {
      var i :| 0 <= i < |InSelectedScope(ss, scope)| && InSelectedScope(ss, scope)[i] == x.s;
      assert scored[i] == x;
    }
  }

  /**
   * The kept suggestions: at most 8, each of the selected scope with a
   * positive score, in non-increasing score order, and no dropped scoring
   * suggestion outscores a kept one.
   */
  lemma KeptSpec(ss: seq<Suggestion>, scope: string, q: string)
    ensures var ranked := RankAll(ss, scope, q); var kept := Kept(ss, scope, q);
      && |kept| == Min(8, |ranked|)
      && (forall i :: 0 <= i < |kept| ==> kept[i] == ranked[i].s && ranked[i].score > 0
                                          && ranked[i].score == ScoreSuggestion(q, kept[i])
                                          && (scope == "all" || kept[i].scope == scope))
      && (forall i, j :: 0 <= i < j < |ranked| ==> ranked[i].score >= ranked[j].score)
      && (forall i, j :: 0 <= i < |kept| && |kept| <= j < |ranked| ==> ranked[i].score >= ranked[j].score)
  {
    var ranked := RankAll(ss, scope, q);
    var kept := Kept(ss, scope, q);
    ScoreLeTotal();
    SortBySorted(Filter(ScoreEach(InSelectedScope(ss, scope), q), Scores), ScoreLe);
    forall i | 0 <= i < |kept|
      ensures kept[i] == ranked[i].s && ranked[i].score > 0
              && ranked[i].score == ScoreSuggestion(q, kept[i])
              && (scope == "all" || kept[i].scope == scope)
    {
      RankAllMember(ss, scope, q, ranked[i]);
      if scope != "all" {
        FilterMember(ss, InScope(scope), ranked[i].s);
      }
    }
  }

  /**
   * For a non-blank input every kept suggestion whose scope is a group key
   * lands in the group of its scope, and each group lists its members in
   * ranked order.
   */
  lemma MatchesGroups(value: string, scope: string, ss: seq<Suggestion>, k: string)
    requires Trim(value) != ""
    requires Matches(value, scope, ss).Some?
    requires k in GroupKeys
    ensures Matches(value, scope, ss).value[k] == Filter(Kept(ss, scope, Trim(value)), InScope(k))
  {
    GroupIntoSlot(EmptyGroups, Kept(ss, scope, Trim(value)), k);
  }

  /** `matches` throws exactly when a kept suggestion's scope is not one of the seven groups. */
  lemma MatchesThrowsIff(value: string, scope: string, ss: seq<Suggestion>)
    requires Trim(value) != ""
    ensures Matches(value, scope, ss).None? <==>
      exists i :: 0 <= i < |Kept(ss, scope, Trim(value))| && Kept(ss, scope, Trim(value))[i].scope !in GroupKeys
  {
  }

  /** On the stored records every suggestion scope is a group key, so `matches` never throws there. */
  lemma StoredSuggestionsGroup(entities: map<string, EntityHeader>, value: string, scope: string)
    ensures Matches(value, scope, Suggestions(MockRecords(entities))).Some?
  {
    var ss := Suggestions(MockRecords(entities));
    assert forall i :: 0 <= i < |ss| ==> ss[i].scope in GroupKeys;
    var q := Trim(value);
    if q != "" {
      var kept := Kept(ss, scope, q);
      forall i | 0 <= i < |kept| ensures kept[i].scope in GroupKeys {
        KeptSpec(ss, scope, q);
        var ranked := RankAll(ss, scope, q);
        RankAllMember(ss, scope, q, ranked[i]);
        if scope != "all" {
          FilterMember(ss, InScope(scope), ranked[i].s);
        }
      }
    }
  }

  // ---- submit ----

  /**
   * `submit(q, s)`: nothing for a blank query; otherwise the search URL
   * with the encoded query and scope (the arguments, else the current
   * input and scope).
   */
  function Submit(q: Option<string>, s: Option<string>, value: string, scope: string, enc: string -> string): (r: Option<string>)
    ensures r.None? <==> Blank(OrElse(q, value))
    ensures r.Some? ==> StartsWith(r.value, "/search?q=")
  {
    var raw := OrElse(q, value);
    if Trim(raw) == "" then None
    else Some("/search?q=" + enc(raw) + "&scope=" + enc(OrElse(s, scope)))
  }

  /**
   * When the encoding never emits "&", the query string splits into
   * exactly the two parameters, `q` first.
   */
  lemma SubmitParameters(q: Option<string>, s: Option<string>, value: string, scope: string, enc: string -> string)
    requires Submit(q, s, value, scope, enc).Some?
    requires '&' !in enc(OrElse(q, value)) && '&' !in enc(OrElse(s, scope))
    ensures var url := Submit(q, s, value, scope, enc).value;
      Split(url[|"/search?"|..], '&') == ["q=" + enc(OrElse(q, value)), "scope=" + enc(OrElse(s, scope))]
  {
    var a := "q=" + enc(OrElse(q, value));
    var b := "scope=" + enc(OrElse(s, scope));
    assert '&' !in a && '&' !in b;
    var url := Submit(q, s, value, scope, enc).value;
    assert url[|"/search?"|..] == Join([a, b], '&') by {
      assert [a, b][1..] == [b];
    }
    SplitJoin([a, b], '&');
  }
}
