/**
 * The organisation sidebar (`components/org/org-sidebar.tsx`): the
 * displayed website, the person tooltip, and the avatar initials, which
 * here split on single spaces rather than on whitespace runs.
 */
module OrgSidebar {
  import opened Common
  import opened Text
  import ProductHero

  /** `name.split(" ").map(s => s[0]?.toUpperCase()).slice(0, 2).join("")`; `undefined` joins as "". */
  function Initials(name: string): (r: string)
    ensures |r| <= 2
    ensures var pieces := Split(name, ' ');
      |r| == (if pieces[0] != "" then 1 else 0) + (if |pieces| > 1 && pieces[1] != "" then 1 else 0)
    ensures Split(name, ' ')[0] != "" ==> r[0] == Upper(Split(name, ' ')[0][0])
    ensures var pieces := Split(name, ' ');
      |pieces| > 1 && pieces[1] != "" ==> r[|r| - 1] == Upper(pieces[1][0])
  {
    var pieces := Split(name, ' ');
    var first := if pieces[0] != "" then [Upper(pieces[0][0])] else "";
    var second := if |pieces| > 1 && pieces[1] != "" then [Upper(pieces[1][0])] else "";
    first + second
  }

  lemma SplitSpaceFirst(a: char, s: string)
    requires a != ' '
    ensures Split([a] + s, ' ') == [[a] + Split(s, ' ')[0]] + Split(s, ' ')[1..]
  {
    assert ([a] + s)[1..] == s;
  }

  lemma SplitSpaceAt(s: string)
    ensures Split([' '] + s, ' ') == [""] + Split(s, ' ')
  {
    assert ([' '] + s)[1..] == s;
  }

  /**
   * A doubled space takes a slot: the empty piece between the two spaces
   * is the second "word", so "A  B" gives "A" alone, where the product
   * hero's whitespace-run split gives "AB".
   */
  lemma DoubleSpaceDropsSecondInitial(a: char, b: char)
    requires a != ' ' && b != ' ' && !IsSpace(a) && !IsSpace(b)
    ensures Initials([a, ' ', ' ', b]) == [Upper(a)]
    ensures ProductHero.Initials([a, ' ', ' ', b]) == [Upper(a), Upper(b)]
  {
    SplitDoubleSpace(a, b);
    assert [a] + [' ', ' '] + [b] == [a, ' ', ' ', b];
    ProductHero.InitialsAcrossSpaceRun([a], [b], ' ');
  }

  /** "a  b" splits on single spaces into "a", an empty piece, and "b". */
  lemma SplitDoubleSpace(a: char, b: char)
    requires a != ' ' && b != ' '
    ensures Split([a, ' ', ' ', b], ' ') == [[a], "", [b]]
  {
    assert [a, ' ', ' ', b] == [a] + [' ', ' ', b];
    assert [' ', ' ', b] == [' '] + [' ', b];
    assert [' ', b] == [' '] + [b];
    assert [a] + "" == [a];
    SplitOneChar(b);
    SplitSpaceAt([b]);
    SplitSpaceAt([' ', b]);
    SplitSpaceFirst(a, [' ', ' ', b]);
  }

  lemma SplitOneChar(b: char)
    requires b != ' '
    ensures Split([b], ' ') == [[b]]
  {
    assert [b][1..] == "";
    assert Split("", ' ') == [""];
    assert [b] + "" == [b];
  }

  /** `website.replace(/^https?:\/\//, "")`: at most one scheme prefix is removed. */
  function WebsiteDisplay(website: string): (r: string)
    ensures StartsWith(website, "https://") ==> "https://" + r == website
    ensures !StartsWith(website, "https://") && StartsWith(website, "http://") ==> "http://" + r == website
    ensures !StartsWith(website, "https://") && !StartsWith(website, "http://") ==> r == website
  {
    if StartsWith(website, "https://") then website[8..]
    else if StartsWith(website, "http://") then website[7..]
    else website
  }

  /** Only the first scheme goes: a doubled prefix keeps its second copy. */
  lemma WebsiteDisplayStripsOnce(rest: string)
    ensures WebsiteDisplay("https://" + "http://" + rest) == "http://" + rest
  {
    var w := "https://" + "http://" + rest;
    assert StartsWith(w, "https://");
    assert w[8..] == "http://" + rest;
  }

  /** The website line is shown only for a truthy website. */
  function WebsiteLine(website: Option<string>): (r: Option<string>)
    ensures r.Some? <==> Truthy(website)
    ensures r.Some? ==> r.value == WebsiteDisplay(website.value)
  {
    if Truthy(website) then Some(WebsiteDisplay(website.value)) else None
  }

  /** The separator between a person's name and role, as the file spells it. */
  const RoleSeparator: string := " â€¢ "

  /** The person tooltip: the name, then the separator and role only for a truthy role. */
  function PersonTitle(name: string, role: Option<string>): (r: string)
    ensures StartsWith(r, name)
    ensures Truthy(role) ==> r == name + RoleSeparator + role.value
    ensures !Truthy(role) ==> r == name
  {
    name + (if Truthy(role) then RoleSeparator + role.value else "")
  }

  /** `{org.followers} followers`, only for a truthy count. */
  function FollowersLine(followers: Option<string>): (r: Option<string>)
    ensures r.Some? <==> Truthy(followers)
    ensures r.Some? ==> r.value == followers.value + " followers"
  {
    if Truthy(followers) then Some(followers.value + " followers") else None
  }
}
