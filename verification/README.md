# Trace front end: search, sign-in gate, API tokens and page logic in Dafny

This project models the logic inside the Trace web front end, a site that
presents organisations and their typed repositories (projects, products,
materials, standards, processes), a scoped search and the sign-in pages.
All data comes from in-memory tables. The model covers:

- **Search** (`lib/search`). Normalising and slugifying queries, scoring a
  record against a query, filtering by scope and role, sorting by relevance,
  title or date, paginating, and tallying per-scope counts for the tab
  badges. The search page's URL parameters are handled by `SearchShell`
  and the facet sidebar by `SearchFilters`. The header's global search is
  `GlobalSearch`.
- **Data tables** (`lib/data`, `lib/search/mockData.ts`). Organisations,
  projects, the per-project file listings, and the entity headers built
  from organisations.
- **Access** (`proxy.ts`, `lib/auth/trace-api.ts`). The sign-in redirect for
  protected paths. The short-lived HS256 service token, with its key
  rotation, and the API call that carries it.
- **Page logic**. The file explorers' parent walk, breadcrumb, folder
  listing and "time ago" labels (`FileTree`), applied in `ExplorerData` to
  the two fixed listings the explorers show. The organisation's repository sections,
  repository slugs, the part-hero URL split, and the cards, navigation
  bars, toolbar and integrations picker.

Each module is a set of pure functions over immutable datatypes. Foreign
behaviour enters as parameters:

- JWT signing is `sign`.
- `JSON.parse` is `parseJson`.
- `fetch` is `fetch`.
- The URL parser is `host`.
- `localeCompare` is a total preorder, `titleLe` or `nameLe`.
- The clock is `nowMs` or `nowIso`.
- Date parsing is `parse`.

Lemmas tie each operation to a partner: an inverse, an invariant it keeps,
or an independent reference definition. Where the source has a bug, the
operation follows the code as written, and a definition marked "Intended"
beside it carries the correction (see "## Findings").

## Model

| member | source | states |
|---|---|---|
| SearchQuery.Normalize | lib/search/query.ts:7-9 | every character is replaced by its lower-case form, so the length is kept and no ASCII capital is left |
| SearchQuery.KeepSlugChars | lib/search/query.ts:15 | removing the characters outside word characters, whitespace and dashes keeps only such characters of the input, and leaves a string made of them unchanged |
| SearchQuery.DashSpaceRuns | lib/search/query.ts:17 | every whitespace run becomes a dash and nothing else changes, so a string without whitespace is unchanged |
| SearchQuery.Slugify | lib/search/query.ts:11-18 | a company slug holds only word characters and dashes |
| SearchQuery.SlugifyOfSlug | lib/search/query.ts:11-18 | a string already made of slug characters is its own slug |
| SearchQuery.SlugifyIdempotent | lib/search/query.ts:11-18 | slugging a slug changes nothing |
| SearchQuery.BaseStringScore | lib/search/query.ts:22-34 | the first applicable rung wins: empty query 0, exact title 100, title prefix 85, title substring 70, subtitle prefix 55, subtitle substring 40, else 30 + 5 per token hit or 0; the score is positive iff the query occurs in either text or some token hits |
| SearchQuery.TokenHitsAll | lib/search/query.ts:30-33 | when every token occurs in the title, every token counts as a hit |
| SearchQuery.FallbackExceedsExact | lib/search/query.ts:22-34 | a query of 15 or more words whose words all occur in the title, but not the query as a whole, scores 30 + 5 per word, which beats the 100 of an exact title |
| SearchQuery.FallbackExceedsExactMatch | lib/search/query.ts:22-34 | a concrete instance: "a a … a" (k ≥ 15 words) scores 30 + 5k > 100 against the title "a" but exactly 100 against itself |
| SearchQuery.EntityScore | lib/search/query.ts:50-57 | the entity score is 0 when the entity has neither name nor subtitle text, else the raw entity score less 5, floored at 0 |
| SearchQuery.Score | lib/search/query.ts:41-60 | an item's score is the larger of its own score and its entity score |
| SearchQuery.EmptyQueryScoresZero | lib/search/query.ts:23 | the empty query scores every record 0 |
| SearchQuery.ScorePositiveIff | lib/search/query.ts:41-60 | a record scores above 0 exactly when its own text or its entity's text matches |
| SearchQuery.ExactTitleScores100 | lib/search/query.ts:41-60 | an exact title match scores 100 unless the entity side scores higher |
| SearchQuery.ExactEntityNameScores95 | lib/search/query.ts:54-56 | an exact entity-name match scores 95, five below an exact title |
| SearchQuery.ExistingCompanyIds | lib/search/query.ts:75-79 | the set holds exactly the non-empty entity ids of the stored "companies" records |
| SearchQuery.CompanyRecord | lib/search/query.ts:86-97 | a synthetic record is a "companies" record for the entity, with id "co-"+id, the entity's name as title and the fixed 2000-01-01 date |
| SearchQuery.Synthesize | lib/search/query.ts:71-100 | every synthesised record is the company record of one of the entities that is a company without an existing companies record |
| SearchQuery.SynthesizeComplete | lib/search/query.ts:82-97 | every company entity without a companies record receives its synthetic record |
| SearchQuery.SynthesizeOnlyCompanies | lib/search/query.ts:83 | users and organisations never receive a synthetic record |
| SearchQuery.Index | lib/search/query.ts:104-107 | the index starts with the stored records and everything after them is a "companies" record |
| SearchQuery.Candidates | lib/search/query.ts:135-140 | the candidates are exactly the index records whose scope matches (or "all") and whose role does not conflict with the requested one |
| SearchQuery.ScoreAll | lib/search/query.ts:141 | each record is paired with its own score, in order |
| SearchQuery.KeepHits | lib/search/query.ts:143-144 | a blank query keeps every candidate; otherwise only positive scores survive |
| SearchQuery.PageSize | lib/search/query.ts:159 | `pageSize \|\| 24`: a given non-zero size is used, otherwise 24; never 0 |
| SearchQuery.TotalPages | lib/search/query.ts:160 | at least one page, and the pages cover every hit without an empty last page |
| SearchQuery.PageIndex | lib/search/query.ts:161 | the requested page is clamped to 1..totalPages and made zero-based |
| SearchQuery.PageOf | lib/search/query.ts:162-172 | the page is the slice of the ordered hits starting at pageIndex × pageSize, at most one page long |
| SearchQuery.SearchLocal | lib/search/query.ts:113-176 | total is the number of hits, the page count covers them, and the page is the clamped slice of all hits |
| SearchQuery.RankedMember | lib/search/query.ts:135-156 | a scored record is ranked iff it passes the filter, carries its own score and, for a non-blank query, scores above 0 |
| SearchQuery.SearchLocalMembers | lib/search/query.ts:135-173 | a record is among all hits iff it is in the index, passes the scope/role filter and, for a non-blank query, scores above 0 |
| SearchQuery.SearchLocalPermutes | lib/search/query.ts:135-173 | all hits are a permutation of the candidates (blank query) or of the positively scored candidates |
| SearchQuery.ItemsOfPositive | lib/search/query.ts:141-144 | stripping the scores of the kept hits gives the records whose score is positive, in index order |
| SearchQuery.OrderForTotal | lib/search/query.ts:146-156 | each of the three comparators is a total preorder, as a stable sort needs |
| SearchQuery.SearchLocalOrdered | lib/search/query.ts:146-156 | any two hits are in order: newer first for "recent", by title for "a-z", by score descending otherwise |
| SearchQuery.SearchLocalStable | lib/search/query.ts:146-156 | records that compare equal keep their index order, as the stable `Array.prototype.sort` does |
| SearchQuery.InitialCounts | lib/search/query.ts:179-187 | the initial map has exactly the seven keys, "all" at the input length and the rest at 0 |
| SearchQuery.Bump | lib/search/query.ts:188 | `counts[k]++` adds slot k when it is missing and leaves every other slot as it was |
| SearchQuery.TallySlot | lib/search/query.ts:188 | after the loop a counted slot has grown by the number of records with its scope, a NaN slot stays NaN, and a fresh scope's slot is NaN |
| SearchQuery.CountByScope | lib/search/query.ts:178-190 | the counts cover every initial key |
| SearchQuery.CountByScopeSlot | lib/search/query.ts:178-190 | "all" is the input length (plus records literally scoped "all"), every other initialised key counts its records, and every other scope that occurs reads NaN |
| SearchQuery.CountScopePositive | lib/search/query.ts:188 | a scope has a positive count iff some record carries it |
| SearchQuery.UninitialisedScopesAreNaN | lib/search/query.ts:178-190 | a "standards" or "projects" record leaves a NaN slot in the counts |
| SearchQuery.CountByScopeIntendedSlot | lib/search/query.ts:178-190 | with slots counted from 0, every slot other than "all" is the number of records with that scope |
| SearchQuery.UninitialisedScopesCounted | lib/search/query.ts:178-190 | with slots counted from 0, a "standards" or "projects" record's slot is its positive count, not NaN |
| SearchQuery.TalliesAgreeOnTabs | lib/search/query.ts:179-188 | the as-written and the intended tally agree on every initialised key |
| SearchShell.PageParam | components/search/search-shell.tsx:37 | a missing page reads as 1, a number below 1 is raised to 1, and text that `parseInt` rejects gives NaN |
| SearchShell.PageArg | components/search/search-shell.tsx:37-46 | the page handed to the search is the parsed page, with NaN (and 0) falling back to page 1 |
| SearchShell.Shown | components/search/search-shell.tsx:39-50 | the visible page never holds more than 24 results |
| SearchShell.Counts | components/search/search-shell.tsx:52-68 | the badge counts are the as-written `countByScope` of the badge search: the seven initialised keys are always present, and BadgeCount and BadgeUninitialised give each slot's value |
| SearchShell.Badge | components/search/search-shell.tsx:92-105 | a tab without a slot shows 0, and a present slot, `NaN` included, is shown as stored |
| SearchShell.CountsIndependent | components/search/search-shell.tsx:52-63 | the badge counts depend only on the query and the role, not on scope, sort or page |
| SearchShell.CountScopeIsCount | lib/search/query.ts:188 | counting a scope slot is counting the records with that scope |
| SearchShell.BadgeCount | components/search/search-shell.tsx:52-105 | each initialised tab badge other than "all" is the number of records of that scope among all role-matching hits of the query |
| SearchShell.BadgeHitsCount | lib/search/query.ts:130-174 | the badge search keeps, scope by scope, exactly as many records as the role and query admit |
| SearchShell.BadgeUninitialised | components/search/search-shell.tsx:65-105 | a badge whose scope the tally never initialises shows `NaN` iff some matching record has that scope, and 0 otherwise |
| SearchShell.NaNTabs | lib/search/types.ts:58-69 | the Standards and Projects tabs are shown although the tally never initialises their slots, while every other tab is initialised |
| SearchShell.CountsIntended | lib/search/query.ts:178-190 | the corrected badge counts hold a number in every slot and cover the seven initial keys |
| SearchShell.BadgeCountIntended | components/search/search-shell.tsx:92-105 | under the corrected tally every tab badge other than "all", Standards and Projects included, counts its matching records |
| SearchShell.ValueString | components/search/search-shell.tsx:74 | `String(v)` keeps a string as is and writes a number so that `parseInt` reads it back |
| SearchShell.UpdateParamSlot | components/search/search-shell.tsx:70-77 | a key not in the patch keeps its value, a patched key is deleted for undefined or "" and otherwise set to the written value |
| SearchShell.PageOneReadsBack | components/search/search-shell.tsx:70-83 | writing page 1 reads back as page 1 |
| SearchShell.SwitchTabResets | components/search/search-shell.tsx:83 | switching tabs returns to page 1, selects the new scope (or the initial one for an empty value) and keeps the query |
| SearchShell.FilterPatch | components/search/search-shell.tsx:116 | the filter patch never names a key twice |
| SearchShell.ChangeFiltersResets | components/search/search-shell.tsx:116 | changing the filters returns to page 1, applies role and sort, and keeps query and scope |
| SearchShell.PrevTarget | components/search/search-shell.tsx:150 | Prev goes one page back, never below 1; NaN stays NaN |
| SearchShell.NextTarget | components/search/search-shell.tsx:164 | Next goes one page forward, never beyond the last page; NaN stays NaN |
| SearchShell.PageWritten | components/search/search-shell.tsx:70-77 | a page number written into the URL reads back as itself, raised to at least 1 |
| SearchShell.PrevStep | components/search/search-shell.tsx:146-155 | an enabled Prev lands on the previous page and that page reads back from the URL |
| SearchShell.NextStep | components/search/search-shell.tsx:159-170 | an enabled Next lands on the next page, still within range, and it reads back from the URL |
| SearchShell.NaNPageSticks | components/search/search-shell.tsx:144-171 | with an unparsable page both buttons are enabled, Next writes NaN again, and the search shows page 1 |
| SearchFilters.Apply | components/search/search-filters.tsx:43-45 | Apply sends the local role and sort, an empty value becoming undefined |
| SearchFilters.ApplySettles | components/search/search-filters.tsx:38-44 | once the applied parameters come back as props the panel is no longer dirty |
| SearchFilters.ClearSettles | components/search/search-filters.tsx:47-51 | after Reset the parameters read back as no role and relevance order, matching the cleared local state |
| SearchFilters.RoleLabel | components/search/search-filters.tsx:153 | the empty role is labelled "Any"; any other label keeps the role's length and all but its first character |
| SearchFilters.RoleLabelCaseOnly | components/search/search-filters.tsx:153 | for a role without capitals the label differs only in case, its first letter capitalised |
| SearchFilters.OneRoleChecked | components/search/search-filters.tsx:152-155 | a listed local role checks exactly one radio item |
| SearchFilters.ActiveKey | components/search/search-filters.tsx:72 | the hovered role wins; otherwise the helper text follows the local role |
| SearchFilters.DescAt | components/search/search-filters.tsx:55-70 | looking up a listed key yields the length of its own description |
| SearchFilters.LongestKeySpec | components/search/search-filters.tsx:66-70 | the reduce yields a key whose description is at least as long as every other and strictly longer than every earlier one |
| SearchFilters.LongestRoleIsRetailer | components/search/search-filters.tsx:55-70 | for the four shipped descriptions the reserved height is the retailer's |
| Cards.IconOr | components/search/card-registry.tsx:42 | a registered type key gives its icon, any other key the package icon |
| Cards.TypeKey | components/search/card-registry.tsx:37-40 | the component role wins, then the raw type, then "product" |
| Cards.GetCardForItem | components/search/card-registry.tsx:29-48 | entity hits (by scope or raw type) render as entity cards; everything else as item cards with the icon of its type key |
| Cards.ComponentCardAgreesWithPalette | components/search/card-registry.tsx:37-42 | a product in the component role gets the puzzle icon, and the command palette files it under "components" |
| Cards.ItemCardOfKind | components/search/card-registry.tsx:37-42 | a non-entity record whose raw item names only a type gets that type's registered icon |
| Cards.StoredRecordsAreItemCards | components/search/card-registry.tsx:29-48 | every stored record renders as an item card: standards with the scroll, products with the package, projects with the folder icon |
| Cards.SlugifyName | components/search/result-card.tsx:45-47 | a name slug keeps only lower-case letters and digits and is never longer than the name |
| Cards.SlugifyNameKeeps | components/search/result-card.tsx:45-47 | a slug made only of lower-case letters and digits is its own slug, so slugging twice changes nothing |
| Cards.SlugifyNameCaseInsensitive | components/search/result-card.tsx:46 | names differing only in ASCII case get the same slug |
| Cards.ProfileHref | components/search/result-card.tsx:49-53 | no entity links to "/"; an "@" id links to "/" + id; any other entity links to "/" + the slug of its name |
| Cards.ProfileLinksDisjoint | components/search/result-card.tsx:49-53 | an "@" profile never links where a name-slug profile does |
| Cards.Images | components/search/result-card.tsx:142-145 | a non-profile card with images shows them; otherwise the single placeholder |
| Cards.CarouselControls | components/search/result-card.tsx:142-147 | the carousel controls show iff the card is not a profile and has more than one image |
| Cards.PrevImage | components/search/result-card.tsx:224 | Prev moves one image back and wraps from the first to the last |
| Cards.NextImage | components/search/result-card.tsx:240 | Next moves one image forward and wraps from the last to the first |
| Cards.DotImage | components/search/result-card.tsx:249-256 | a dot selects an image within range |
| Cards.PrevNextInverse | components/search/result-card.tsx:221-241 | Prev undoes Next and Next undoes Prev |
| Cards.Carousel | components/search/result-card.tsx:221-257 | any sequence of clicks leaves the index within the images |
| Cards.NextsStep | components/search/result-card.tsx:240 | k Next clicks from the first image land on image k while k is in range |
| Cards.NextCycles | components/search/result-card.tsx:240 | as many Next clicks as images return to the first image |
| Cards.ResultTypeIcon | components/search/result-card.tsx:134-135 | no type icon exactly when the raw type is missing or empty |
| Cards.StandardIconsDisagree | components/search/result-card.tsx:33-40 | a "standard" record gets the scroll icon from the registry but the package icon from the result card, whose table is keyed "standards" |
| Cards.PillShownValues | components/search/result-card.tsx:80-92 | the pill hides absent, empty and NaN values but shows 0 and every non-empty string |
| Cards.Kpis | components/search/result-card.tsx:96-117 | a KPI is shown iff its value is defined, 0 included, and only defined values appear |
| Cards.ShownMeta | components/search/result-card.tsx:302-332 | "Founded" shows whenever defined, 0 included; focus, hq and size show exactly when non-empty |
| Cards.SocialLinks | components/search/result-card.tsx:343-386 | exactly the truthy social links are shown, each once with its own address, in the order website, Twitter, Instagram, LinkedIn; none without socials |
| Cards.ResultCard | components/search/result-card.tsx:132-390 | a card is a profile iff its raw type is company or supplier; the header links to the profile href and shows for profiles or records with an entity; images are the record's or the placeholder; a non-profile shows the first 3 specs and first 2 badges and no KPIs, meta or socials; a profile shows the defined KPIs (never Standards), the shown meta and the entity's social links |
| Cards.ProfileKpisShown | components/search/result-card.tsx:335-340 | a profile card shows the products, followers and stars counts exactly when defined, 0 included, and never a standards count |
| Cards.ItemCardView | components/search/cards/item-card.tsx:68-130 | the item card has a header iff the record has an entity, links it to the profile href, shows the record's images or the placeholder, and the first 3 specs and first 2 badges |
| Cards.ItemCardMatchesResultCard | components/search/cards/item-card.tsx:44-130 | for a non-profile record the item card shows the same header, link, images, specs and badges as the result card |
| Cards.EntityCardView | components/search/cards/entity-card.tsx:32-115 | the entity card renders iff there is an entity, links to its profile, and shows its defined KPIs, its shown meta and exactly its truthy social links in order |
| Cards.EntityKpisShown | components/search/cards/entity-card.tsx:84-89 | the entity card shows each of the products, repos, followers and stars counts exactly when defined, 0 included |
| Cards.EntityCardShowsZeros | components/search/cards/entity-card.tsx:70-88 | a zero product count and a founding year of 0 are shown |
| GlobalSearch.TrimmedEntityName | components/search/global-search.tsx:62 | the trimmed entity name exists exactly when the record has an entity |
| GlobalSearch.SuggestionSubtitle | components/search/global-search.tsx:62-68 | with both parts non-empty the subtitle is "name • subtitle"; with one part, that part; with neither, none |
| GlobalSearch.SubtitleParts | components/search/global-search.tsx:65-68 | a joined subtitle starts with the entity name, continues with the separator and the trimmed subtitle, and neither starts nor ends with whitespace |
| GlobalSearch.SuggestionScope | components/search/global-search.tsx:70-73 | the palette keeps the record's scope except that component-role products move to "components" |
| GlobalSearch.ToSuggestion | components/search/global-search.tsx:61-82 | a suggestion keeps the record's id, title and href |
| GlobalSearch.Suggestions | components/search/global-search.tsx:61 | one suggestion per record, in order |
| GlobalSearch.ComponentsDiverge | components/search/global-search.tsx:70-73 | a component-role product is listed under "components" in the palette, but the search page filters and counts it under "products" |
| GlobalSearch.SuggestionsFromStoredRecordsOnly | components/search/global-search.tsx:61-82 | the palette is built from the stored records only, so it never offers companies or other entities |
| GlobalSearch.ScoreSuggestion | components/search/global-search.tsx:88-106 | a blank query scores 0; a suggestion scores above 0 iff the query occurs in its title or subtitle or some token hits |
| GlobalSearch.ScoreSuggestionIsItemScore | components/search/global-search.tsx:88-106 | the palette's ranker gives the same score as the search page's item score on the same title and subtitle |
| GlobalSearch.ScoreEach | components/search/global-search.tsx:181 | each suggestion is paired with its own score, in order |
| GlobalSearch.Unranked | components/search/global-search.tsx:185 | dropping the scores keeps the suggestions in order |
| GlobalSearch.ScoreLeTotal | components/search/global-search.tsx:183 | ordering by descending score is a total preorder |
| GlobalSearch.InSelectedScope | components/search/global-search.tsx:175-178 | "all" admits every suggestion |
| GlobalSearch.Kept | components/search/global-search.tsx:184 | at most 8 suggestions are kept |
| GlobalSearch.GroupInto | components/search/global-search.tsx:197 | grouping succeeds iff every item's scope is a group key, and adds no keys |
| GlobalSearch.GroupIntoSlot | components/search/global-search.tsx:197 | each group ends with the items of its scope, in order, after what it held |
| GlobalSearch.Matches | components/search/global-search.tsx:160-199 | a blank input gives the seven empty groups; any result has exactly the seven group keys |
| GlobalSearch.RankAllMember | components/search/global-search.tsx:175-183 | a ranked entry is exactly a suggestion of the selected scope paired with its own positive score |
| GlobalSearch.KeptSpec | components/search/global-search.tsx:175-185 | the kept list is the first min(8, n) of the ranking, each of the selected scope with its own positive score, the ranking is by non-increasing score, and nothing dropped outscores anything kept |
| GlobalSearch.MatchesGroups | components/search/global-search.tsx:187-198 | for a non-blank input each group holds exactly the kept suggestions of its scope, in ranked order |
| GlobalSearch.MatchesThrowsIff | components/search/global-search.tsx:197 | grouping fails exactly when some kept suggestion has a scope that is not a group key |
| GlobalSearch.StoredSuggestionsGroup | components/search/global-search.tsx:187-198 | for the stored records grouping never fails |
| GlobalSearch.Submit | components/search/global-search.tsx:130-137 | a blank query navigates nowhere; otherwise the target starts with "/search?q=" |
| GlobalSearch.SubmitParameters | components/search/global-search.tsx:133-135 | the target's query string carries exactly the encoded query and the encoded scope, in that order |
| MockData.OrOpt | lib/search/mockData.ts:27 | `a ?? b` on optional values: the first when present, else the second |
| MockData.FallbackSocials | lib/search/mockData.ts:26-31 | the fallback socials take the website from the org's socials, else from its website, and the other three from the org's socials |
| MockData.BuildEntityFromOrg | lib/search/mockData.ts:5-35 | the builder throws, naming handle and id, exactly when the org is unknown; otherwise the header carries the id, the org's display name and the extra fields, with the description and socials falling back to the org's |
| MockData.NotFoundNamesBoth | lib/search/mockData.ts:15 | the error message starts with the quoted handle and mentions the entity id |
| MockData.BuildOne | lib/search/mockData.ts:37-141 | an entry built from an org fails exactly when the org is unknown; a literal entry is taken as written |
| MockData.BuildAll | lib/search/mockData.ts:37-141 | the table fails exactly when some entry names an unknown org; otherwise it holds every key |
| MockData.BuildAllFirstFailure | lib/search/mockData.ts:37-141 | evaluation stops at the first unknown org, whose message is the one thrown |
| MockData.KnownHandles | lib/data/orgs.ts:36-129 | "apple", "raspberrypi" and "iso" resolve |
| MockData.UnknownHandles | lib/data/orgs.ts:36-129 | "omnitudedesign" and "aluminumassociation" do not resolve |
| MockData.EntityHandles | lib/search/mockData.ts:38-131 | of the five handles the table builds from, three resolve and two do not |
| MockData.SourcesThrow | lib/search/mockData.ts:37-141 | whatever the entries' extra fields, building the table throws at its second entry, naming "omnitudedesign" |
| MockData.MockRecords | lib/search/mockData.ts:143-215 | five stored records, all standards, products or projects, none a companies record |
| MockData.MockRecordsCarryEntities | lib/search/mockData.ts:143-215 | over a table holding the five keys the records name, every record carries its entity |
| MockData.MockRecordKinds | lib/search/mockData.ts:143-215 | each record's raw type is its scope in the singular, with no role |
| MockData.EveryCompanyIsSynthesised | lib/search/query.ts:71-107 | no stored record is a companies record, so exactly the company entities receive synthetic records in the index |
| Orgs.BuildRepoHref | lib/data/orgs.ts:31-33 | the href starts with "/owner/" and has the length of its three parts plus three slashes |
| Orgs.BuildRepoHrefSplit | lib/data/orgs.ts:31-33 | split at "/", the href gives back "", owner, type and name |
| Orgs.TableKeysAreHandles | lib/data/orgs.ts:36-124 | the table holds "iso", "apple" and "raspberrypi", each under its own handle |
| Orgs.GetOrg | lib/data/orgs.ts:126-129 | an org is found exactly when the lower-cased handle is an own key of the table, and it is that entry |
| Orgs.GetOrgCaseInsensitive | lib/data/orgs.ts:127 | the lookup ignores ASCII case |
| Orgs.GetReposForOwner | lib/data/orgs.ts:131-134 | an unknown owner has no repositories; a known one has its pinned repositories |
| Orgs.PinnedReposLinkUnderOwner | lib/data/orgs.ts:131-134 | every pinned repository's href lies under its owner's handle |
| Orgs.GetOrgAsWritten | lib/data/orgs.ts:126-129 | the indexing also finds members inherited from `Object.prototype`: an own key gives its entry, an inherited member name gives that member |
| Orgs.ConstructorIsNotAnOrg | lib/data/orgs.ts:126-129 | "constructor" yields the inherited function as written, but no org in the corrected lookup |
| Orgs.AsWrittenAgreesElsewhere | lib/data/orgs.ts:126-129 | apart from "constructor" and "__proto__", the as-written and the corrected lookup agree |
| Projects.GetProject | lib/data/projects.ts:79-87 | the lookup finds the first project matching owner and slug case-insensitively, and nothing iff none matches |
| Projects.GetProjectsForOwner | lib/data/projects.ts:89-92 | the owner's projects are exactly the table's projects whose owner matches case-insensitively, in table order |
| Projects.GetProjectInOwnerList | lib/data/projects.ts:79-92 | a project found by owner and slug is among that owner's projects |
| Projects.LookupsCaseInsensitive | lib/data/projects.ts:79-92 | both lookups ignore ASCII case in their arguments |
| Projects.DemoProjectsConsistent | lib/data/projects.ts:32-77 | every shipped project names a base variant that exists, is the only base, and variant ids are distinct |
| ProjectFiles.ProjectKey | lib/data/project-files.ts:88 | the key starts with the lower-cased owner and a slash and keeps the combined length |
| ProjectFiles.ProjectKeySplit | lib/data/project-files.ts:88 | split at "/", the key gives back the lower-cased owner and slug |
| ProjectFiles.GetProjectFiles | lib/data/project-files.ts:87-129 | Apple's iPhone 15, in any ASCII case, gets the stored listing with top folder "iphone-15"; every other project gets the skeleton; the result is never empty |
| ProjectFiles.FilesFrom | lib/data/project-files.ts:87-129 | a key in the table gets its stored listing, any other the skeleton |
| ProjectFiles.GetProjectFilesIntended | lib/data/project-files.ts:17-18 | the corrected table serves the iPhone listing whose top folder is "root", and the skeleton elsewhere |
| ProjectFiles.IphoneServedAsStored | lib/data/project-files.ts:17-18 | as written, the iPhone project is served a listing with top folder "iphone-15" whose parent links do not resolve |
| ProjectFiles.IntendedListingsResolve | lib/data/project-files.ts:17-18 | under the corrected table every project's listing has distinct ids and resolving parents |
| ProjectFiles.GetProjectFilesCaseInsensitive | lib/data/project-files.ts:88 | the listing ignores ASCII case in owner and slug |
| ProjectFiles.SkeletonWellFormed | lib/data/project-files.ts:92-126 | the skeleton is a root folder and four children of it, with distinct ids and resolving parents |
| ProjectFiles.IphoneFilesDoNotResolve | lib/data/project-files.ts:17-83 | the iPhone listing has no "root" node although its children name "root" as their parent |
| ProjectFiles.IphoneIdsDistinct | lib/data/project-files.ts:17-83 | the iPhone listing's ids are distinct |
| ProjectFiles.DanglingParent | lib/data/project-files.ts:9 | a parent link naming no node breaks parent resolution |
| ProjectFiles.IphoneFilesIntendedResolve | lib/data/project-files.ts:17-83 | with the top folder given the id "root", the listing's parents all resolve |
| ProjectFiles.IphoneFilesIntendedDistinct | lib/data/project-files.ts:17-83 | the corrected listing keeps distinct ids |
| FileTree.AgeOf | components/project/file-explorer.tsx:13-23 | no date and an unparsable date are told apart; otherwise the age is whole minutes below an hour, whole hours below a day, else whole days, each rounded down |
| FileTree.FormatTimeAgo | components/project/file-explorer.tsx:13-14 | the dash is shown exactly when there is no date |
| FileTree.FormatTimeAgoReadsBack | components/project/file-explorer.tsx:17-22 | the label starts with the count, which reads back as itself, followed by "m ago", "h ago" or "d ago" for its unit |
| FileTree.ParentKey | components/project/file-explorer.tsx:46 | a node is grouped under its parent, a parentless node under "root" |
| FileTree.GroupByParent | components/project/file-explorer.tsx:43-51 | no group is empty |
| FileTree.Children | components/project/file-explorer.tsx:74 | a folder without a group has no children |
| FileTree.GroupKeys | components/project/file-explorer.tsx:43-51 | a group exists exactly for the parent keys that occur |
| FileTree.GroupContents | components/project/file-explorer.tsx:43-51 | each group holds exactly the files with that parent key, in input order |
| FileTree.FileInOneGroup | components/project/file-explorer.tsx:43-51 | a file is in the group of its own parent key and in no other |
| FileTree.ById | components/project/file-explorer.tsx:53-57 | the index holds exactly the ids that occur, each under its own id |
| FileTree.ByIdLast | components/project/file-explorer.tsx:55 | for a repeated id the last node wins |
| FileTree.ByIdAt | components/project/file-explorer.tsx:53-57 | with distinct ids every node is indexed under its own id |
| FileTree.Next | components/project/file-explorer.tsx:64-65 | a step of the walk follows a non-empty parent link into the index |
| FileTree.Chain | components/project/file-explorer.tsx:59-66 | a finished chain ends with the current node when it is indexed and is empty when it is not |
| FileTree.ChainIsLoop | components/project/file-explorer.tsx:60-66 | a finished chain is exactly the cursors the loop visits, in reverse, after which the loop stops |
| FileTree.CursorFromTable | components/project/file-explorer.tsx:61-65 | every cursor the loop visits is an indexed node |
| FileTree.ChainMissRepeats | components/project/file-explorer.tsx:62-66 | when the chain cannot finish, the loop revisits a cursor |
| FileTree.WalkEndsIffChain | components/project/file-explorer.tsx:62-66 | the loop ends after as many steps as the chain is long, and never ends when the parent links form a cycle |
| FileTree.Breadcrumb | components/project/file-explorer.tsx:59-72 | a breadcrumb exists iff the walk ends; it ends with the current node when indexed, starts with the root when there is one, and adds at most the root to the chain |
| FileTree.BreadcrumbUnknown | components/project/file-explorer.tsx:59-72 | with neither the folder nor a "root" node indexed, the breadcrumb is empty |
| FileTree.BreadcrumbOrphan | components/project/file-explorer.tsx:59-72 | a node whose parent is not indexed, with no "root" node, is its own whole breadcrumb |
| FileTree.BreadcrumbUnderRoot | components/project/file-explorer.tsx:59-72 | a node directly under a parentless "root" node has the breadcrumb root, node |
| FileTree.BreadcrumbAtRoot | components/project/file-explorer.tsx:59-72 | at a parentless "root" node the breadcrumb is that node alone |
| FileTree.FoldersFirstTotal | components/project/file-explorer.tsx:125-130 | folders-first then by name is a total preorder whenever the name order is |
| FileTree.Rows | components/github-file-explorer.tsx:62 | the corrected rows of a folder, for the finding at this line: its group without the folder itself |
| FileTree.RowsAreFilter | components/github-file-explorer.tsx:62 | the corrected rows are exactly the files whose parent key is the folder, other than the folder, in input order |
| FileTree.RowsMember | components/github-file-explorer.tsx:62 | a file is a corrected row iff it is in the folder's group and is not the folder |
| FileTree.RowsMemberAt | components/github-file-explorer.tsx:62 | the i-th file is a corrected row iff its parent key is the folder and it is not the folder |
| FileTree.Listing | components/project/file-explorer.tsx:74-130 | the listing sorts the whole group of the current folder, as `filesByParent.get(currentFolderId) ?? []`, keeping its size |
| FileTree.ListingOrdered | components/project/file-explorer.tsx:74-130 | the listing is a permutation of the files whose parent key is the folder, the folder itself included when that is its own key, with every folder before every non-folder and each kind ordered by name |
| FileTree.ListingIntended | components/github-file-explorer.tsx:62 | the corrected listing sorts the corrected rows, keeping their number |
| FileTree.ListingIntendedOrdered | components/github-file-explorer.tsx:62 | the corrected listing is a permutation of the folder's files other than the folder, ordered folders first and by name |
| FileTree.ListingMember | components/project/file-explorer.tsx:74-130 | the listing holds exactly the folder's group |
| FileTree.ListingIntendedMember | components/github-file-explorer.tsx:62 | the corrected listing holds exactly the corrected rows |
| FileTree.Click | components/project/file-explorer.tsx:135-137 | a click opens a folder and leaves the view unchanged for anything else |
| ExplorerData.MockFilesDistinct | components/github-file-explorer.tsx:19-29 | the fixed listing's ids are distinct |
| ExplorerData.MockFilesParentsAreFolders | components/github-file-explorer.tsx:19-29 | every parent link of the fixed listing names a folder of the list |
| ExplorerData.RootListsItself | components/github-file-explorer.tsx:19-90 | as written, the parentless root falls into the "root" group and the root folder's listing shows it inside itself |
| ExplorerData.RootRowsOmitRoot | components/github-file-explorer.tsx:19-90 | in the corrected listing the root no longer lists itself while its children still appear |
| ExplorerData.IphoneTopUnderRoot | lib/data/project-files.ts:17-18 | in the stored iPhone listing the parentless top folder "iphone-15" falls under the key "root", beside the nodes that name "root" |
| ExplorerData.IphoneTopOpensEmpty | lib/data/project-files.ts:17-18 | no stored iPhone node names "iphone-15" as parent, so opening that folder shows an empty listing |
| ExplorerData.IphoneIndexLacksRoot | lib/data/project-files.ts:17-18 | the stored iPhone index has no "root" node |
| ExplorerData.IphoneBreadcrumbAtStart | components/project/file-explorer.tsx:59-72 | over the stored iPhone listing the breadcrumb at the start folder is empty |
| ExplorerData.IphoneBreadcrumbAtDocs | components/project/file-explorer.tsx:59-72 | over the stored iPhone listing the breadcrumb from "docs" is "docs" alone, never reaching the top folder |
| ExplorerData.IphoneIntendedBreadcrumbs | lib/data/project-files.ts:17-18 | with the corrected top id the start folder leaves the top folder out and the breadcrumbs start at it |
| Proxy.AnyUnder | proxy.ts:18-20 | a path is protected iff it equals some protected prefix or lies below it |
| Proxy.Decide | proxy.ts:13-35 | a protected path without a session goes to sign-in carrying the original URL; a signed-in visit to a "/sign-in…" path goes home; everything else passes through |
| Proxy.PrefixBoundaries | proxy.ts:5-31 | "/me" and "/me/profile" are protected but "/meow" is not, while "/sign-inx" still bounces a signed-in user home |
| Proxy.NoRedirectLoop | proxy.ts:13-35 | the target of any redirect passes through on the next request with the same session |
| TraceApi.KeyMap | lib/auth/trace-api.ts:31-41 | no key configuration gives no key map; otherwise the map is whatever JSON parsing yields, nothing for a parse failure |
| TraceApi.GetActiveKey | lib/auth/trace-api.ts:43-51 | a key is active exactly when a map and a kid exist and the map holds a non-empty secret for the kid, and it carries that kid and secret |
| TraceApi.Seconds | lib/auth/trace-api.ts:69 | the issue time is the current time in whole seconds, rounded down |
| TraceApi.TokenParts | lib/auth/trace-api.ts:55-100 | nothing is signed without a user id or an active key; otherwise the claims name the user, issuer "trace-nextjs", audience "trace-api", version 1, and expire 300 seconds after issue, under an HS256 header with the key's kid |
| TraceApi.MintToken | lib/auth/trace-api.ts:55-108 | a token exists exactly when the parts do, and it is their signature |
| TraceApi.TokenWindow | lib/auth/trace-api.ts:90-91 | the token is acceptable exactly during the five minutes from its issue second, the issue second included |
| TraceApi.ErrorMessage | lib/auth/trace-api.ts:151-155 | a failure message starts with "Trace API error " |
| TraceApi.ErrorNamesStatus | lib/auth/trace-api.ts:150-155 | without a body the message names the status and its text and ends with "No body" |
| TraceApi.BuildRequest | lib/auth/trace-api.ts:133-147 | the request goes to base + path, uncached, with the caller's method and body, adding "Bearer <token>" authorisation only when there is a token |
| TraceApi.CallTraceApi | lib/auth/trace-api.ts:118-159 | an unset URL throws first; no token with authRequired throws before sending; otherwise the request is sent, a 2xx response is returned and any other throws the error built from the response |
| TraceApi.UrlCheckedFirst | lib/auth/trace-api.ts:122-124 | with the URL unset the outcome does not depend on who is signed in |
| TraceApi.AuthorizationIffToken | lib/auth/trace-api.ts:133-140 | a sent request carries the bearer header exactly when a token was minted, and otherwise the caller's headers unchanged |
| TraceApi.SignedInUserGetsToken | lib/auth/trace-api.ts:55-108 | a user with an id gets a token whenever the configured kid has a non-empty secret |
| OrgRepos.PushStep | app/orgs/org-repos.tsx:38-40 | pushing a repository onto its type's bucket keeps every bucket equal to the repositories of its type seen so far |
| OrgRepos.Bucket | app/orgs/org-repos.tsx:30-40 | bucketing succeeds iff every repository's type is one of the five, and then each bucket holds exactly that type's repositories in input order |
| OrgRepos.Sections | app/orgs/org-repos.tsx:52-69 | the sections are the non-empty buckets, in key order, each titled and listing its bucket |
| OrgRepos.Render | app/orgs/org-repos.tsx:23-72 | the section list exists iff every type is known |
| OrgRepos.RenderSections | app/orgs/org-repos.tsx:30-69 | the sections follow the fixed order, one per type that occurs, each listing that type's repositories |
| OrgRepos.SectionsTotal | app/orgs/org-repos.tsx:52-69 | the section sizes add up to the bucket sizes |
| OrgRepos.KindCounts | app/orgs/org-repos.tsx:38-40 | with known types the five type counts add up to the number of repositories |
| OrgRepos.SectionsPartition | app/orgs/org-repos.tsx:43-69 | the sections together list as many repositories as the header's total |
| OrgRepos.UnknownTypeThrows | app/orgs/org-repos.tsx:39 | a repository of a type outside the five makes the push throw |
| Slugs.DashRuns | components/HeroImage.tsx:19 | every run of characters outside a–z and 0–9 becomes a single dash, keeping the letters and digits in order |
| Slugs.DashRunsAlnums | components/HeroImage.tsx:19 | replacing the runs keeps the letters and digits in order |
| Slugs.CollapseDashes | components/HeroImage.tsx:20 | collapsing leaves no two dashes in a row and keeps a slug-character string one |
| Slugs.CollapseFixes | components/HeroImage.tsx:20 | a string without double dashes is left unchanged |
| Slugs.CollapseAlnums | components/HeroImage.tsx:20 | collapsing keeps the letters and digits |
| Slugs.DropLeadingDashes | components/HeroImage.tsx:21 | the result does not start with a dash, keeps slug characters, adds no double dash and keeps the letters and digits |
| Slugs.DropTrailingDashes | components/HeroImage.tsx:21 | the result is a prefix that does not end with a dash, and keeps the letters and digits |
| Slugs.TrimDashes | components/HeroImage.tsx:21 | neither end is a dash, a string already without end dashes is unchanged, and the result is a slug when the input has only slug characters and no double dash |
| Slugs.Slug | components/HeroImage.tsx:16-21 | the slug consists of lower-case letters, digits and single inner dashes |
| Slugs.SlugKeepsAlnums | components/HeroImage.tsx:16-21 | the slug keeps exactly the letters and digits of the lower-cased text, in order |
| Slugs.SlugFixesSlugs | components/HeroImage.tsx:16-21 | a slug is its own slug |
| Slugs.SlugIdempotent | components/HeroImage.tsx:16-21 | slugging twice changes nothing |
| Slugs.SlugHasNoSlash | components/HeroImage.tsx:16-21 | a slug never contains "/", so it is always a single path segment |
| Hero.MakePartUrl | components/HeroImage.tsx:46-73 | a part's URL is an absolute path |
| Hero.Segments | components/HeroImage.tsx:46-73 | every part URL has at least two segments |
| Hero.SplitBack | components/HeroImage.tsx:46-73 | joining slash-free segments behind "/" and splitting again gives them back |
| Hero.PartUrlSegments | components/HeroImage.tsx:46-73 | the URL's segments are: fuyutechnology, library, item for generic parts; fuyutechnology, LPS-42, components, item for build parts; metric, fasteners, bolts, spec for standards; the supplier org before those for supplier-hosted standards; and org, repo for everything else, including a supplier standard without an org |
| Hero.SpecFallsBackToItem | components/HeroImage.tsx:61-68 | without a standard spec the spec segment is the repo slug |
| Hero.AssignUrl | components/HeroImage.tsx:116-118 | an existing URL is kept, an empty one replaced by the built URL, and nothing else changes |
| Hero.AssignUrls | components/HeroImage.tsx:116-118 | the assignment runs once per part, in order |
| Hero.AssignUrlsOnce | components/HeroImage.tsx:116-118 | parts that start without URLs all get their built URL, and assigning again changes nothing |
| Hero.Leaders | components/HeroImage.tsx:199 | the leader set is exactly the groups' leaders |
| Hero.SetAll | components/HeroImage.tsx:201-203 | setting a group's followers maps each of them to its leader and leaves the other keys alone |
| Hero.FollowerMapFromSpec | components/HeroImage.tsx:200-203 | with distinct followers, a name is mapped iff it was already or follows some group, and it maps to that group's leader |
| Hero.LeaderOfSpec | components/HeroImage.tsx:715-717 | a follower moves with its leader, a leader with itself, and any other part with none |
| Hero.GroupsWellFormed | components/HeroImage.tsx:122-137 | the shipped groups have distinct followers, no follower is also a leader, and no leader is empty |
| Hero.GroupNamesArePieces | components/HeroImage.tsx:86-137 | every leader and follower names a part of the assembly |
| ProductHero.BuildRepoPath | components/product-example-hero.tsx:26-27 | the repository path starts and ends with "/" |
| ProductHero.RepoPathSegments | components/product-example-hero.tsx:26-27 | the path's segments are the owner slug, the title slug and a trailing empty one |
| ProductHero.SupplierPath | components/product-example-hero.tsx:75-77 | the suppliers link extends the repository path |
| ProductHero.SupplierPathSegments | components/product-example-hero.tsx:75-77 | the suppliers link's segments are the owner slug, the title slug and "suppliers" |
| ProductHero.FirstLettersOfWords | components/product-example-hero.tsx:64 | each non-empty word contributes its first letter in upper case |
| ProductHero.Initials | components/product-example-hero.tsx:59-65 | the initials are the upper-cased first letters of the first two whitespace-separated words |
| ProductHero.InitialsAcrossSpaceRun | components/product-example-hero.tsx:61-62 | a run of whitespace between two words still yields both initials |
| ProductHero.HoverInitials | components/product-example-hero.tsx:159 | an empty company shows "C", from the "CO" fallback; never more than two letters |
| ProductHero.SupplierOf | components/product-example-hero.tsx:42-57 | a listed part number shows its supplier, any other the dash |
| ProductHero.EveryPartHasSupplier | components/product-example-hero.tsx:42-57 | every part of the assembly has a listed supplier |
| ProductHero.DockSpecs | components/product-example-hero.tsx:182-184 | the dock shows the first six specs, none when there are none |
| OrgSidebar.Initials | components/org/org-sidebar.tsx:111-117 | the initials are the upper-cased first letters of the first two pieces of a split at single spaces, in order, an empty piece contributing nothing |
| OrgSidebar.DoubleSpaceDropsSecondInitial | components/org/org-sidebar.tsx:111-117 | with two spaces between the words the sidebar shows one initial where the product hero shows two |
| OrgSidebar.WebsiteDisplay | components/org/org-sidebar.tsx:33 | one leading "https://" or "http://" is removed, nothing else |
| OrgSidebar.WebsiteDisplayStripsOnce | components/org/org-sidebar.tsx:33 | only the first scheme is stripped |
| OrgSidebar.WebsiteLine | components/org/org-sidebar.tsx:30-33 | the website line shows iff a website is set, and shows it without its scheme |
| OrgSidebar.PersonTitle | components/org/org-sidebar.tsx:58 | a person's tooltip is the name, followed by the separator and the role when a role is set |
| OrgSidebar.FollowersLine | components/org/org-sidebar.tsx:24-27 | the followers line shows iff a count is set, as the count followed by " followers" |
| EntityHeaderView.DisplayName | components/entity/entity-header.tsx:39 | a known entity shows its display name, an unknown one the owner handle |
| EntityHeaderView.ResolveSocials | components/entity/entity-header.tsx:41-47 | a socials prop wins; otherwise the entity's socials, the website falling back to the entity's website; with neither, no links |
| EntityHeaderView.SocialsAgreeWithEntityBuilder | components/entity/entity-header.tsx:41-47 | for an org-built entity the header resolves the same links as the search entity builder |
| EntityHeaderView.SocialButtons | components/entity/entity-header.tsx:108-160 | exactly the truthy resolved links get a button, each with its own address, in the order website, Twitter, Instagram, LinkedIn |
| EntityHeaderView.RepoHref | components/entity/entity-header.tsx:96-98 | the repository link lies under the owner, with the type segment only when a type is given |
| EntityHeaderView.RepoHrefMatchesOrgHref | components/entity/entity-header.tsx:96-98 | with a type, the header's repository link is the one the org overview builds |
| EntityHeaderView.Crumbs | components/entity/entity-header.tsx:76-105 | the crumb is the owner alone, owner and repository, or owner, type and repository, the owner and repository crumbs linking to their pages |
| EntityHeaderView.CleanHost | components/entity/entity-header.tsx:168-175 | an unparsable URL is shown as is; otherwise its host, without one leading "www." |
| EntityHeaderView.CleanHostStripsOnce | components/entity/entity-header.tsx:171 | only one "www." is removed |
| EntityNav.ActiveTab | components/entity/entity-nav.tsx:21-23 | an explicit tab wins; otherwise Repositories is active exactly on the owner's repositories path |
| EntityNav.Highlights | components/entity/entity-nav.tsx:25-26 | exactly one tab is highlighted |
| EntityNav.OverviewByDefault | components/entity/entity-nav.tsx:21-26 | off the repositories path, without an explicit tab, Overview is highlighted |
| EntityNav.RepoBadge | components/entity/entity-nav.tsx:54-56 | the count badge shows exactly when a non-zero count is given, and shows that count |
| ProjectNav.Base | components/project/project-nav.tsx:18 | the base lies under "/owner/project/" |
| ProjectNav.Href | components/project/project-nav.tsx:25-26 | the workspace tab links to the base, every other tab to base + "/" + its slug |
| ProjectNav.IsActive | components/project/project-nav.tsx:28-31 | a tab is active exactly when the path is its link |
| ProjectNav.Links | components/project/project-nav.tsx:7-31 | one link per tab, in order, each with its name, its link and its active flag |
| ProjectNav.HrefInjective | components/project/project-nav.tsx:25-26 | different slugs give different links |
| ProjectNav.SlugsDistinct | components/project/project-nav.tsx:7-14 | the six tab slugs are distinct |
| ProjectNav.AtMostOneActive | components/project/project-nav.tsx:24-31 | at most one tab is active for any path |
| ProjectNav.TrailingSlashActivatesNone | components/project/project-nav.tsx:28-31 | the base with a trailing slash activates no tab, the workspace included |
| ProjectNav.DeeperPathActivatesNone | components/project/project-nav.tsx:28-31 | a path below a tab's link activates no tab |
| ProjectToolbar.FindVariant | components/project/project-toolbar.tsx:28 | the search finds the first variant with the id, and nothing iff none has it |
| ProjectToolbar.Selected | components/project/project-toolbar.tsx:27-28 | the selected variant has the chosen id, falling back to the first variant, and there is none only for an empty list |
| ProjectToolbar.Init | components/project/project-toolbar.tsx:26 | the picker starts on the base variant id |
| ProjectToolbar.Choose | components/project/project-toolbar.tsx:45 | choosing a variant selects its id |
| ProjectToolbar.ChooseShowsChoice | components/project/project-toolbar.tsx:26-45 | with distinct ids the chosen variant is the one shown |
| ProjectToolbar.PickerStartsOnBase | components/project/project-toolbar.tsx:26-28 | for a consistent project the picker first shows its base variant |
| ProjectToolbar.DemoPickersStartOnBase | components/project/project-toolbar.tsx:26-28 | every shipped project's picker first shows its base variant |
| ProjectToolbar.PathSpans | components/project/project-toolbar.tsx:58-61 | one span per segment, each followed by a slash except the last |
| ProjectToolbar.PathChainText | components/project/project-toolbar.tsx:58-61 | the path reads as the segments joined by "/" |
| Integrations.FindKey | components/integrations-1.tsx:199 | `findIndex` gives the first member with the key, or -1 when none has it |
| Integrations.DefaultIndex | components/integrations-1.tsx:199 | the card starts on the default member, or on the first when the default key is missing |
| Integrations.OnshapeGroupFallsBack | components/integrations-1.tsx:145-171 | the Onshape group's default key names none of its members, so it starts on the first |
| Integrations.Indexed | components/integrations-1.tsx:203 | each member is paired with its position |
| Integrations.AlternatesAllButActive | components/integrations-1.tsx:203 | the alternates are all members except the active one, in order |
| Integrations.InitCard | components/integrations-1.tsx:199-200 | a card starts on its default index |
| Integrations.Swap | components/integrations-1.tsx:217-226 | clicking an alternate makes it active |
| Integrations.SwapStaysInRange | components/integrations-1.tsx:217-226 | a swap lands on another member within range |
| Integrations.Rendered | components/integrations-1.tsx:186 | the first five groups are shown |
| Integrations.ShippedGroups | components/integrations-1.tsx:40-171 | all shipped groups are shown, each starting on its first member |
| Text.Lower | lib/search/query.ts:8 | lower-casing leaves no ASCII capital and changes nothing else |
| Text.Upper | components/product-example-hero.tsx:64 | upper-casing leaves no ASCII small letter, is undone by lower-casing, and changes nothing else |
| Text.LowerStr | lib/data/orgs.ts:127 | lower-casing a string keeps its length and lowers each character |
| Text.LowerStrIdempotent | lib/data/orgs.ts:127 | lower-casing twice changes nothing |
| Text.Trim | components/search/global-search.tsx:62-63 | the trim is the input without its leading and trailing whitespace: "" exactly for blank text, otherwise the slice after the leading whitespace, followed only by whitespace, with no whitespace at either end |
| Text.TrimIdempotent | components/search/global-search.tsx:161 | trimming twice changes nothing |
| Text.Tokens | lib/search/query.ts:30 | splitting on whitespace runs and dropping empties yields non-empty words without whitespace, and none exactly for blank text |
| Text.TokensOfJoin | lib/search/query.ts:30 | words joined by single spaces tokenise back to themselves |
| Text.Split | components/org/org-sidebar.tsx:113 | `split` yields at least one piece and no piece contains the separator |
| Text.JoinSplit | components/org/org-sidebar.tsx:113-116 | joining the pieces of a split gives the string back |
| Text.SplitJoin | components/HeroImage.tsx:46-73 | splitting separator-free pieces joined by the separator gives them back |
| Numbers.NatToStringValue | components/search/search-shell.tsx:74 | a rendered number reads back as its value |
| Numbers.IntToString | components/search/search-shell.tsx:74 | a rendered number is non-empty and starts with "-" exactly when negative |
| Numbers.ParseInt | components/search/search-shell.tsx:37 | `parseInt` fails exactly when, after leading whitespace and one optional sign, no digit follows |
| Numbers.ParseIntToString | components/search/search-shell.tsx:70-77 | a rendered number, followed by anything that does not start with a digit, parses back to itself |
| Numbers.ParseIntSkipsSpace | components/search/search-shell.tsx:37 | leading whitespace is skipped |
| Seqs.SortByPermutes | lib/search/query.ts:146-156 | sorting permutes its input |
| Seqs.SortBySorted | lib/search/query.ts:146-156 | under a total preorder the result is sorted |
| Seqs.SortByStable | lib/search/query.ts:146-156 | sorting keeps the relative order of equivalent elements, as the stable `Array.prototype.sort` does |
| Seqs.Slice | lib/search/query.ts:172-173 | `slice` with in-range bounds is the subsequence, and never longer than the distance between the bounds |
| Common.Get | lib/search/mockData.ts:151 | a map lookup yields the stored value exactly for an own key, absent otherwise |

## Left out

- Text.LowerStr: `toLowerCase` is modelled on ASCII letters only. Every other character is unchanged, so ProjectFiles.ProjectKey's length ensures holds only for this reading. Unicode case mappings that change length (such as "İ") are not modelled.
- Text.Upper: `toUpperCase` is modelled on ASCII letters only, for the same reason.
- SearchQuery.Normalize: `normalize("NFKD")` (Unicode Standard Annex #15) is the identity. Only the lower-casing is modelled. GlobalSearch's matching and scoring share this reading.
- SearchQuery.Slugify: NFKD decomposition before the slug rules is the identity, so accented letters are not split into base letter plus mark.
- Slugs.Slug: lower-casing is ASCII only, as in Text.LowerStr.
- Cards.SlugifyName: lower-casing is ASCII only, as in Text.LowerStr.
- SearchQuery.DateOf: `updatedAt` is an `Option<int>` of epoch milliseconds. The ISO strings of the tables are converted by hand, and `new Date(...)` parsing is not modelled.
- FileTree.AgeOf: there is one injected clock, `nowMs` for `Date.now()`. `new Date(iso).getTime()` is the parameter `parse`, with `None` for an invalid date.
- ProjectFiles.Skeleton: the default listing's `new Date().toISOString()` is the parameter `nowIso`.
- SearchShell.UpdateParam: `URLSearchParams` is a map from key to one value. Repeated keys and parameter order are lost, and `encodeURIComponent` is not modelled.
- SearchShell.PageParam: reads the page from the same map model of `URLSearchParams`.
- ProductHero.SupplierOf: looks up `SUPPLIER_BY_PART` by own key only. An inherited member such as "constructor" is not modelled (compare Orgs.GetOrgAsWritten).
- TraceApi.GetActiveKey: looks up `KEY_MAP[ACTIVE_KID]` by own key only. An inherited member of the parsed object is not modelled.
- TraceApi.CallTraceApi: exceptions thrown by `fetch`, `res.text()` or `auth()` are not modelled. The session is the parameter `user`, and the response is what `fetch` returns.
- TraceApi.BuildRequest: header names are case-sensitive map keys. `new Headers(...)` folds names to lower case, so the source's `headers.set("Authorization", ...)` replaces a caller's "authorization" header, while the model keeps both. The `RequestInit` fields other than method, headers and body that `...init` forwards (such as `credentials` or `signal`) are not modelled.
- EntityNav.RepoBadge: the count is an `Option<int>`, which cannot hold `NaN`. The source guards the badge with `!!counts?.repos`, and `!!NaN` is false, so a `NaN` count would show no badge, just like 0 or a missing count.
- `getTraceApiJson` (lib/auth/trace-api.ts:162-168) is not modelled. It only forwards to `callTraceApi` and `res.json()`, which is foreign.
- `components/HeroImage.tsx` rendering is not modelled: three.js/WebGL, shaders, float motion, raycasting and canvas alpha maps are floating point and DOM work.
- React state, router pushes, theme persistence and markup-only components are not modelled. Their logic is stated as pure functions of their inputs.
- Icons, descriptions and styling in the integrations and card components are not modelled. Only the selection and visibility rules are.
- `getEntity` in `lib/data/entities.ts` is not part of this model.
- The `proxy.ts` matcher regex is routing configuration and is not modelled. Only the decision function is.
- MockData.SourcesThrow: the failure of building `ENTITIES` is proved against the shipped organisation table and the shipped handles, for any extra fields the entries carry and any literal header. The shipped `ENTITIES` is one instance of it. It is not stated for other organisation tables.

## Findings

| source | as written | input that shows it | evidently intended | confidence | as-written member | corrected member |
|---|---|---|---|---|---|---|
| lib/data/orgs.ts:126-129 | `getOrg` returns `demoData[key] ?? null` on a plain object, so inherited members of `Object.prototype` also count as organisations | `getOrg("constructor")` returns the `Object` function instead of `null` | only the table's own keys are organisations | not executed | Orgs.GetOrgAsWritten | Orgs.GetOrg |
| lib/data/project-files.ts:18 | the top folder of the iPhone listing has id "iphone-15", while its children name "root" as their parent | `getProjectFiles("apple", "iphone-15")` in the project explorer: the start folder "root" lists the children together with the parentless "iphone-15" folder itself; its breadcrumb is empty; from "docs" the breadcrumb is "docs" alone and never leads back; opening "iphone-15" shows an empty listing (ExplorerData.IphoneTopUnderRoot, ExplorerData.IphoneBreadcrumbAtStart, ExplorerData.IphoneBreadcrumbAtDocs, ExplorerData.IphoneTopOpensEmpty) | the top folder has id "root" | not executed | ProjectFiles.IphoneServedAsStored | ProjectFiles.IntendedListingsResolve |
| components/github-file-explorer.tsx:62 | a parentless node is grouped under "root", which is also the id of the root folder itself, and the listing sorts that whole group | the mock files viewed at "root" list the root folder "repo-root" among its own children | a folder's listing leaves out the folder itself (FileTree.ListingIntended) | not executed | ExplorerData.RootListsItself | ExplorerData.RootRowsOmitRoot |
| lib/search/query.ts:179-188 | the tally starts repos, materials, components, products, companies and suppliers at 0, but records carry the scopes "standards" and "projects", and `undefined + 1` is NaN | one "standards" record among the hits: the Standards tab badge shows NaN (SearchShell.BadgeUninitialised, SearchShell.NaNTabs) | every scope is counted from 0 (SearchShell.BadgeCountIntended) | not executed | SearchQuery.UninitialisedScopesAreNaN | SearchQuery.CountByScopeIntendedSlot |
| lib/search/mockData.ts:55 | `ENTITIES` is built from handles such as "omnitudedesign" that the organisation table does not contain, and `buildEntityFromOrg` throws on a missing handle | loading the module throws `Org "omnitudedesign" not found for entity "ent-omnitudedesign"` | every handle resolves, so every record carries its entity | not executed | MockData.SourcesThrow | MockData.MockRecordsCarryEntities |
