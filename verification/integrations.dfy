/**
 * The integrations grid on the landing page (`components/integrations-1.tsx`):
 * each group is a card that starts on its default member and can swap to
 * any other member, and at most five groups are shown.
 */
module Integrations {
  import opened Common
  import opened Seqs

  /** `Integration`, without its icon and description. */
  datatype Integration = Integration(key: string, title: string, href: string)

  /** `IntegrationGroup` */
  datatype Group = Group(defaultKey: string, members: seq<Integration>)

  /** `GROUPS` */
  const Groups: seq<Group> := [
    Group("github", [
      Integration("github", "GitHub", "/integrations/github"),
      Integration("gitlab", "GitLab", "/integrations/gitlab"),
      Integration("bitbucket", "Bitbucket", "/integrations/bitbucket")]),
    Group("solidworks", [
      Integration("solidworks", "SOLIDWORKS", "/integrations/solidworks"),
      Integration("onshape", "Onshape", "/integrations/onshape"),
      Integration("fusion", "Fusion 360", "/integrations/fusion-360")]),
    Group("slack", [
      Integration("slack", "Slack", "/integrations/slack"),
      Integration("teams", "Microsoft Teams", "/integrations/teams"),
      Integration("discord", "Discord", "/integrations/discord")]),
    Group("octopart", [
      Integration("octopart", "Octopart", "/integrations/octopart"),
      Integration("mouser", "Mouser", "/integrations/mouser"),
      Integration("digikey", "Digi-Key", "/integrations/digikey")]),
    Group("onshape", [
      Integration("onshape2", "Onshape", "/integrations/onshape"),
      Integration("freecad", "FreeCAD", "/integrations/freecad"),
      Integration("altium", "Altium", "/integrations/altium")])
  ]

  /** `members.findIndex(m => m.key === key)`: -1 when no member has the key. */
  function FindKey(members: seq<Integration>, key: string): (r: int)
    ensures -1 <= r < |members|
    ensures r == -1 <==> forall i :: 0 <= i < |members| ==> members[i].key != key
    ensures r >= 0 ==> members[r].key == key && forall j :: 0 <= j < r ==> members[j].key != key
    decreases |members|
  {
    if |members| == 0 then -1
    else if members[0].key == key then 0
    else
      var k := FindKey(members[1..], key);
      if k == -1 then -1 else k + 1
  }

  /** `Math.max(0, findIndex(...))`: the default member's position, else 0. */
  function DefaultIndex(g: Group): (r: nat)
    ensures |g.members| > 0 ==> r < |g.members|
    ensures FindKey(g.members, g.defaultKey) >= 0 ==> g.members[r].key == g.defaultKey
    ensures FindKey(g.members, g.defaultKey) == -1 ==> r == 0
  {
    Max(0, FindKey(g.members, g.defaultKey))
  }

  /** The "onshape" group has no member keyed "onshape" (its member is "onshape2"), so it starts on its first member. */
  lemma OnshapeGroupFallsBack()
    ensures Groups[4].defaultKey == "onshape"
    ensures forall i :: 0 <= i < |Groups[4].members| ==> Groups[4].members[i].key != "onshape"
    ensures DefaultIndex(Groups[4]) == 0
  {
  }

  /** `members.map((m, i) => ({ m, i }))` */
  function Indexed(members: seq<Integration>): (r: seq<(Integration, nat)>)
    ensures |r| == |members|
    ensures forall i :: 0 <= i < |r| ==> r[i] == (members[i], i)
  {
    seq(|members|, i requires 0 <= i < |members| => (members[i], i as nat))
  }

  function NotAt(active: int): ((Integration, nat)) -> bool {
    (e: (Integration, nat)) => e.1 != active
  }

  /** `.filter(({ i }) => i !== active)` */
  function Alternates(members: seq<Integration>, active: int): seq<(Integration, nat)> {
    Filter(Indexed(members), NotAt(active))
  }

  lemma {:induction false} FilterKeepsAll(s: seq<(Integration, nat)>, active: int)
    requires forall i :: 0 <= i < |s| ==> s[i].1 != active
    ensures Filter(s, NotAt(active)) == s
  {
    FilterAll(s, NotAt(active));
  }

  /**
   * The alternates are every member except the active one, with their
   * positions, in the original order; so there is one fewer than members.
   */
  lemma AlternatesAllButActive(members: seq<Integration>, active: int)
    requires 0 <= active < |members|
    ensures var ix := Indexed(members);
      Alternates(members, active) == ix[..active] + ix[active + 1..]
    ensures |Alternates(members, active)| == |members| - 1
  {
    var ix := Indexed(members);
    FilterKeepsAll(ix[..active], active);
    FilterKeepsAll(ix[active + 1..], active);
    assert ix == ix[..active] + [ix[active]] + ix[active + 1..];
    FilterDropsOne(ix[..active], ix[active], ix[active + 1..], NotAt(active));
  }

  /** The card's state: the position of the member shown. */
  datatype Card = Card(active: nat)

  /** `useState(defaultIdx)` */
  function InitCard(g: Group): (c: Card)
    ensures c.active == DefaultIndex(g)
  {
    Card(DefaultIndex(g))
  }

  /** `setActive(i)` from an alternate's button; `k` picks the alternate. */
  function Swap(g: Group, c: Card, k: nat): (d: Card)
    requires k < |Alternates(g.members, c.active)|
    ensures d.active == Alternates(g.members, c.active)[k].1
  {
    Card(Alternates(g.members, c.active)[k].1)
  }

  /**
   * The shown member is always a real member: the start is in range for
   * a non-empty group, and every swap moves to another member.
   */
  lemma SwapStaysInRange(g: Group, c: Card, k: nat)
    requires c.active < |g.members|
    requires k < |Alternates(g.members, c.active)|
    ensures Swap(g, c, k).active < |g.members|
    ensures Swap(g, c, k).active != c.active
  {
    var alt := Alternates(g.members, c.active);
    FilterMember(Indexed(g.members), NotAt(c.active), alt[k]);
    assert alt[k] in Indexed(g.members);
    assert NotAt(c.active)(alt[k]);
  }

  /** `GROUPS.slice(0, 5)` */
  function Rendered(groups: seq<Group>): (r: seq<Group>)
    ensures |r| == Min(5, |groups|)
    ensures r <= groups
  {
    Take(groups, 5)
  }

  /** All five shipped groups fit under the cut, and each starts on its first member. */
  lemma ShippedGroups()
    ensures Rendered(Groups) == Groups
    ensures forall i :: 0 <= i < |Groups| ==> DefaultIndex(Groups[i]) == 0
  {
  }
}
