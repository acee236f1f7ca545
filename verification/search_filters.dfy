/**
 * The filter panel (`components/search/search-filters.tsx`): local role and
 * sort state against the props, the patches Apply and Reset emit, the role
 * labels, the helper-text key, and the description that reserves height.
 */
module SearchFilters {
  import opened Common
  import opened Text
  import SearchShell

  /** Local edits differ from the props. Apply is disabled exactly when this fails. */
  predicate IsDirty(localRole: string, localSort: string, role: string, sort: string) {
    localRole != role || localSort != sort
  }

  predicate ApplyDisabled(localRole: string, localSort: string, role: string, sort: string) {
    !IsDirty(localRole, localSort, role, sort)
  }

  /** The patch `onChange` receives. */
  datatype Patch = Patch(role: Option<string>, sort: Option<string>)

  /** `apply`: the local values, with "" sent as `undefined`. */
  function Apply(localRole: string, localSort: string): (p: Patch)
    ensures p.role.None? <==> localRole == ""
    ensures p.sort.None? <==> localSort == ""
    ensures p.role.Some? ==> p.role.value == localRole
    ensures p.sort.Some? ==> p.sort.value == localSort
  {
    Patch(NonEmpty(localRole), NonEmpty(localSort))
  }

  /** The local state `clear` leaves: any role, relevance order. */
  datatype Local = Local(role: string, sort: string)

  const Cleared: Local := Local("", "relevance")

  /** `clear`: the patch it emits. */
  const ClearPatch: Patch := Patch(None, Some("relevance"))

  /**
   * Once the page re-renders with the applied parameters, the props equal
   * the local state again (unless the sort was blank, which reads back as
   * "relevance"), so the panel is no longer dirty.
   */
  lemma ApplySettles(params: SearchShell.Params, localRole: string, localSort: string)
    requires localSort != ""
    ensures var p := Apply(localRole, localSort);
      var next := SearchShell.ChangeFilters(params, p.role, p.sort);
      !IsDirty(localRole, localSort, SearchShell.RoleParam(next), SearchShell.SortParam(next))
  {
    var p := Apply(localRole, localSort);
    SearchShell.ChangeFiltersResets(params, p.role, p.sort, "", "");
  }

  /** After Reset the parameters carry no role and relevance order, matching the cleared state. */
  lemma ClearSettles(params: SearchShell.Params)
    ensures var next := SearchShell.ChangeFilters(params, ClearPatch.role, ClearPatch.sort);
      && SearchShell.RoleParam(next) == Cleared.role
      && SearchShell.SortParam(next) == Cleared.sort
      && !IsDirty(Cleared.role, Cleared.sort, SearchShell.RoleParam(next), SearchShell.SortParam(next))
  {
    SearchShell.ChangeFiltersResets(params, ClearPatch.role, ClearPatch.sort, "", "");
  }

  // ---- roles ----

  const Roles: seq<string> := ["", "manufacturer", "distributor", "retailer"]

  /** The label of a role option: "Any" for "", else the role with its first letter upper-cased. */
  function RoleLabel(r: string): (shown: string)
    ensures r == "" ==> shown == "Any"
    ensures r != "" ==> |shown| == |r| && shown[1..] == r[1..]
  {
    if r == "" then "Any" else [Upper(r[0])] + r[1..]
  }

  /** A label differs from its lower-case role only in case. */
  lemma RoleLabelCaseOnly(r: string)
    requires r != "" && forall k :: 0 <= k < |r| ==> !IsAsciiUpper(r[k])
    ensures LowerStr(RoleLabel(r)) == r
    ensures IsAsciiLower(r[0]) ==> IsAsciiUpper(RoleLabel(r)[0])
  {
    var shown := RoleLabel(r);
    forall k | 0 <= k < |r| ensures LowerStr(shown)[k] == r[k] {
      if k > 0 {
        assert shown[k] == shown[1..][k - 1] == r[1..][k - 1] == r[k];
      }
    }
  }

  /** The option shown checked: the local role. */
  predicate IsChecked(localRole: string, r: string) {
    localRole == r
  }

  /** Exactly one option of the panel is checked when the local role is one of them. */
  lemma OneRoleChecked(localRole: string)
    requires localRole in Roles
    ensures exists i :: 0 <= i < |Roles| && IsChecked(localRole, Roles[i])
    ensures forall i, j :: 0 <= i < j < |Roles| && IsChecked(localRole, Roles[i]) ==> !IsChecked(localRole, Roles[j])
  {
  }

  /** `hoveredRole ?? (localRole || "")`: the hovered role wins, even "". */
  function ActiveKey(hovered: Option<string>, localRole: string): (k: string)
    ensures hovered.Some? ==> k == hovered.value
    ensures hovered.None? ==> k == localRole
  {
    OrElse(hovered, localRole)
  }

  // ---- longestKey ----

  type Entries = seq<(string, string)>

  predicate DistinctKeys(entries: Entries) {
    forall i, j :: 0 <= i < j < |entries| ==> entries[i].0 != entries[j].0
  }

  /** `roleDescriptions[k]?.length ?? 0` */
  function Desc(entries: Entries, k: string): (n: nat)
    decreases |entries|
  {
    if |entries| == 0 then 0
    else if entries[0].0 == k then |entries[0].1|
    else Desc(entries[1..], k)
  }

  lemma {:induction false} DescAt(entries: Entries, i: int)
    requires DistinctKeys(entries)
    requires 0 <= i < |entries|
    ensures Desc(entries, entries[i].0) == |entries[i].1|
    decreases |entries|
  {
    if i > 0 {
      assert DistinctKeys(entries[1..]) by {
        forall a, b | 0 <= a < b < |entries[1..]| ensures entries[1..][a].0 != entries[1..][b].0 {
          assert entries[1..][a] == entries[a + 1] && entries[1..][b] == entries[b + 1];
        }
      }
      assert entries[0].0 != entries[i].0;
      DescAt(entries[1..], i - 1);
    }
  }

  /** The `reduce` from entry `i` on, with accumulator `acc`. */
  function LongestFrom(entries: Entries, i: nat, acc: string): string
    requires i <= |entries|
    decreases |entries| - i
  {
    if i == |entries| then acc
    else LongestFrom(entries, i + 1, if |entries[i].1| > Desc(entries, acc) then entries[i].0 else acc)
  }

  /** `longestKey` */
  function LongestKey(entries: Entries): string {
    LongestFrom(entries, 0, "")
  }

  /**
   * The loop invariant of the `reduce`: the accumulator's description is
   * at least as long as every one seen and as the initial key's; a
   * non-initial accumulator is a seen key, strictly longer than every
   * entry before it.
   */
  ghost predicate Leading(entries: Entries, i: nat, acc: string)
    requires i <= |entries|
  {
    && (forall j :: 0 <= j < i ==> |entries[j].1| <= Desc(entries, acc))
    && Desc(entries, "") <= Desc(entries, acc)
    && (acc != "" ==> exists p :: 0 <= p < i && entries[p].0 == acc && Desc(entries, "") < Desc(entries, acc)
                       && forall j :: 0 <= j < p ==> |entries[j].1| < Desc(entries, acc))
  }

  lemma {:induction false} LongestFromLeads(entries: Entries, i: nat, acc: string)
    requires DistinctKeys(entries)
    requires i <= |entries| && Leading(entries, i, acc)
    ensures Leading(entries, |entries|, LongestFrom(entries, i, acc))
    decreases |entries| - i
  {
    if i < |entries| {
      var next := if |entries[i].1| > Desc(entries, acc) then entries[i].0 else acc;
      DescAt(entries, i);
      if |entries[i].1| > Desc(entries, acc) && next != "" {
        assert entries[i].0 == next;
      }
      assert Leading(entries, i + 1, next);
      LongestFromLeads(entries, i + 1, next);
    }
  }

  /**
   * `longestKey` has a description of maximal length; unless it is the
   * initial "", it is the earliest such key, strictly longer than every
   * entry before it (ties keep the earlier key).
   */
  lemma LongestKeySpec(entries: Entries)
    requires DistinctKeys(entries)
    ensures var r := LongestKey(entries);
      && (forall j :: 0 <= j < |entries| ==> |entries[j].1| <= Desc(entries, r))
      && (r != "" ==> exists p :: 0 <= p < |entries| && entries[p].0 == r
                       && forall j :: 0 <= j < p ==> |entries[j].1| < Desc(entries, r))
  {
    LongestFromLeads(entries, 0, "");
  }

  const RoleDescriptions: Entries := [
    ("", "Show results from any supplier type."),
    ("manufacturer", "Creates goods directly. Best for custom orders, MOQs, and raw production."),
    ("distributor", "Buys from manufacturers and resells in bulk. Good for scale and logistics."),
    ("retailer", "Sells to end-customers. Helpful for market references and smaller quantities.")
  ]

  /** The panel reserves the height of the "retailer" description, the longest. */
  lemma LongestRoleIsRetailer()
    ensures LongestKey(RoleDescriptions) == "retailer"
  {
    var e := RoleDescriptions;
    assert |e[0].1| == 36 && |e[1].1| == 73 && |e[2].1| == 74 && |e[3].1| == 77;
    assert Desc(e, "") == 36;
    assert Desc(e, "manufacturer") == 73;
    assert Desc(e, "distributor") == 74;
  }
}
