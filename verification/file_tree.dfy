/**
 * The tree logic shared by both file explorers
 * (`components/project/file-explorer.tsx` over `getProjectFiles`, and
 * `components/github-file-explorer.tsx` over its own `MOCK_FILES`): the
 * "time ago" label, grouping by parent, the id index, the breadcrumb walk
 * up the parent links, the folders-first listing and row clicks.
 *
 * `Date.now()` is the parameter `nowMs`, `new Date(iso).getTime()` is the
 * parameter `parse` (`None` for an invalid date), and `localeCompare` on
 * names is the total preorder `nameLe`.
 */
module FileTree {
  import opened Common
  import opened Text
  import opened Numbers
  import opened Seqs
  import opened ProjectFiles

  // ---- "time ago" ----

  const MinuteMs := 60000
  const HourMs := 3600000
  const DayMs := 86400000

  /** What `formatTimeAgo` shows: nothing, `NaN` days, or a whole count of one unit. */
  datatype Age = NoDate | InvalidDate | Minutes(n: int) | Hours(n: int) | Days(n: int)

  /**
   * The age of `iso` at `nowMs`: whole minutes below an hour, whole hours
   * below a day, whole days otherwise, each rounded down (so a date in the
   * future gives a negative count of minutes).
   */
  function AgeOf(iso: Option<string>, nowMs: int, parse: string -> Option<int>): (a: Age)
    ensures a.NoDate? <==> !Truthy(iso)
    ensures a.InvalidDate? <==> Truthy(iso) && parse(iso.value).None?
    ensures Truthy(iso) && parse(iso.value).Some? ==>
      var diff := nowMs - parse(iso.value).value;
      && (a.Minutes? <==> diff < HourMs)
      && (a.Hours? <==> HourMs <= diff < DayMs)
      && (a.Days? <==> DayMs <= diff)
      && (a.Minutes? ==> a.n * MinuteMs <= diff < a.n * MinuteMs + MinuteMs)
      && (a.Hours? ==> a.n * HourMs <= diff < a.n * HourMs + HourMs)
      && (a.Days? ==> a.n * DayMs <= diff < a.n * DayMs + DayMs)
  {
    if !Truthy(iso) then NoDate
    else match parse(iso.value)
      case None => InvalidDate
      case Some(t) =>
        var diff := nowMs - t;
        var mins := diff / 60000;
        if mins < 60 then Minutes(mins)
        else
          var hrs := mins / 60;
          if hrs < 24 then Hours(hrs)
          else Days(hrs / 24)
  }

  /** `formatTimeAgo` */
  function FormatTimeAgo(iso: Option<string>, nowMs: int, parse: string -> Option<int>): (r: string)
    ensures AgeOf(iso, nowMs, parse).NoDate? <==> r == "\U{2014}"
  {
    match AgeOf(iso, nowMs, parse)
    case NoDate => "\U{2014}"
    case InvalidDate => "NaNd ago"
    case Minutes(n) => IntToString(n) + "m ago"
    case Hours(n) => IntToString(n) + "h ago"
    case Days(n) => IntToString(n) + "d ago"
  }

  /**
   * The label reads back: `parseInt` of it is the count, and the character
   * after the digits names the unit.
   */
  lemma FormatTimeAgoReadsBack(iso: Option<string>, nowMs: int, parse: string -> Option<int>)
    requires AgeOf(iso, nowMs, parse).Minutes? || AgeOf(iso, nowMs, parse).Hours? || AgeOf(iso, nowMs, parse).Days?
    ensures ParseInt(FormatTimeAgo(iso, nowMs, parse)) == Some(AgeOf(iso, nowMs, parse).n)
    ensures var r := FormatTimeAgo(iso, nowMs, parse);
      var a := AgeOf(iso, nowMs, parse);
      r[|IntToString(a.n)|..] == (if a.Minutes? then "m ago" else if a.Hours? then "h ago" else "d ago")
  {
    var a := AgeOf(iso, nowMs, parse);
    var suffix := if a.Minutes? then "m ago" else if a.Hours? then "h ago" else "d ago";
    ParseIntToString(a.n, suffix);
    assert FormatTimeAgo(iso, nowMs, parse) == IntToString(a.n) + suffix;
  }

  // ---- grouping and the id index ----

  /** `f.parentId ?? "root"`: only an absent parent falls back. */
  function ParentKey(f: FileNode): (p: string)
    ensures f.parentId.Some? ==> p == f.parentId.value
    ensures f.parentId.None? ==> p == "root"
  {
    OrElse(f.parentId, "root")
  }

  function InGroup(p: string): FileNode -> bool {
    f => ParentKey(f) == p
  }

  /** `filesByParent`: each file appended to the list of its parent key. */
  function GroupByParent(files: seq<FileNode>): (r: map<string, seq<FileNode>>)
    ensures forall p :: p in r ==> r[p] != []
    decreases |files|
  {
    if |files| == 0 then map[]
    else
      var m := GroupByParent(files[..|files| - 1]);
      var f := files[|files| - 1];
      var p := ParentKey(f);
      m[p := (if p in m then m[p] else []) + [f]]
  }

  /** `filesByParent.get(id) ?? []` */
  function Children(groups: map<string, seq<FileNode>>, id: string): (r: seq<FileNode>)
    ensures id !in groups ==> r == []
  {
    if id in groups then groups[id] else []
  }

  lemma {:induction false} GroupKeys(files: seq<FileNode>, p: string)
    ensures p in GroupByParent(files) <==> exists i :: 0 <= i < |files| && ParentKey(files[i]) == p
    decreases |files|
  {
    if |files| > 0 {
      var init := files[..|files| - 1];
      var f := files[|files| - 1];
      GroupKeys(init, p);
      if p in GroupByParent(init) {
        var i :| 0 <= i < |init| && ParentKey(init[i]) == p;
        assert files[i] == init[i];
      } else if ParentKey(f) != p {
        forall i | 0 <= i < |files| ensures ParentKey(files[i]) != p {
          if i < |init| { assert files[i] == init[i]; }
        }
      }
    }
  }

  lemma {:induction false} GroupContents(files: seq<FileNode>, p: string)
    ensures Children(GroupByParent(files), p) == Filter(files, InGroup(p))
    decreases |files|
  {
    if |files| > 0 {
      var init := files[..|files| - 1];
      var f := files[|files| - 1];
      var last := if ParentKey(f) == p then [f] else [];
      GroupContents(init, p);
      FilterLast(files, InGroup(p));
      assert Children(GroupByParent(files), p) == Children(GroupByParent(init), p) + last;
    }
  }

  /**
   * A parent key has a group exactly when some file names it, and the
   * group holds exactly the files with that key, in input order.
   */
  lemma GroupSlot(files: seq<FileNode>, p: string)
    ensures p in GroupByParent(files) <==> exists i :: 0 <= i < |files| && ParentKey(files[i]) == p
    ensures Children(GroupByParent(files), p) == Filter(files, InGroup(p))
  {
    GroupKeys(files, p);
    GroupContents(files, p);
  }

  /** Each file is listed under its own parent key and under no other. */
  lemma FileInOneGroup(files: seq<FileNode>, i: int, p: string)
    requires 0 <= i < |files|
    ensures files[i] in Children(GroupByParent(files), p) <==> p == ParentKey(files[i])
  {
    GroupSlot(files, p);
    FilterMember(files, InGroup(p), files[i]);
  }

  /** `byId`: each id mapped to its node, a later node overwriting an earlier one. */
  function ById(files: seq<FileNode>): (r: map<string, FileNode>)
    ensures forall k :: k in r ==> r[k].id == k
    ensures forall k :: k in r <==> HasId(files, k)
    decreases |files|
  {
    if |files| == 0 then map[]
    else
      var init := files[..|files| - 1];
      var m := ById(init);
      assert forall k :: HasId(init, k) ==> HasId(files, k) by {
        forall k | HasId(init, k) ensures HasId(files, k) {
          var j :| 0 <= j < |init| && init[j].id == k;
          assert files[j] == init[j];
        }
      }
      assert forall k :: HasId(files, k) ==> HasId(init, k) || k == files[|files| - 1].id by {
        forall k | HasId(files, k) && k != files[|files| - 1].id ensures HasId(init, k) {
          var j :| 0 <= j < |files| && files[j].id == k;
          assert init[j] == files[j];
        }
      }
      m[files[|files| - 1].id := files[|files| - 1]]
  }

  /** The node stored under an id is the last node carrying it. */
  lemma {:induction false} ByIdLast(files: seq<FileNode>, i: int)
    requires 0 <= i < |files|
    requires forall j :: i < j < |files| ==> files[j].id != files[i].id
    ensures ById(files)[files[i].id] == files[i]
    decreases |files|
  {
    if i < |files| - 1 {
      var init := files[..|files| - 1];
      assert init[i] == files[i];
      ByIdLast(init, i);
    }
  }

  /** With distinct ids every node is stored under its own id. */
  lemma ByIdAt(files: seq<FileNode>, i: int)
    requires IdsDistinct(files) && 0 <= i < |files|
    ensures files[i].id in ById(files) && ById(files)[files[i].id] == files[i]
  {
    ByIdLast(files, i);
  }

  // ---- breadcrumb ----

  /** Every entry is stored under its own id, as `byId` guarantees. */
  predicate WellKeyed(byId: map<string, FileNode>) {
    forall k :: k in byId ==> byId[k].id == k
  }

  /** One step of the walk: `if (!cursor.parentId) break; cursor = byId.get(cursor.parentId)`. */
  function Next(byId: map<string, FileNode>, c: FileNode): (r: Option<FileNode>)
    ensures r.Some? ==> Truthy(c.parentId) && r == Get(byId, c.parentId.value)
  {
    if Truthy(c.parentId) then Get(byId, c.parentId.value) else None
  }

  /** The cursor of the source's loop after `k` iterations; `None` ends the loop. */
  function CursorAfter(byId: map<string, FileNode>, start: string, k: nat): Option<FileNode>
    decreases k
  {
    if k == 0 then Get(byId, start)
    else match CursorAfter(byId, start, k - 1)
      case None => None
      case Some(c) => Next(byId, c)
  }

  /**
   * The breadcrumb chain from `id` upwards, listed top-down. Ids already
   * passed are collected in `visited`; reaching one again means the
   * parent links form a cycle, on which the source's loop never ends
   * (`None`).
   */
  function Chain(byId: map<string, FileNode>, id: string, visited: set<string>): (r: Option<seq<FileNode>>)
    ensures r.Some? && id in byId ==> r.value != [] && r.value[|r.value| - 1] == byId[id]
    ensures r.Some? && id !in byId ==> r.value == []
    decreases byId.Keys - visited
  {
    if id !in byId then Some([])
    else if id in visited then None
    else
      var n := byId[id];
      if !Truthy(n.parentId) then Some([n])
      else match Chain(byId, n.parentId.value, visited + {id})
        case None => None
        case Some(up) => Some(up + [n])
  }

  /** Starting one link higher is the same as taking one more step. */
  lemma {:induction false} Shift(byId: map<string, FileNode>, id: string, n: FileNode, k: nat)
    requires Get(byId, id) == Some(n) && Truthy(n.parentId)
    ensures CursorAfter(byId, id, k + 1) == CursorAfter(byId, n.parentId.value, k)
    decreases k
  {
    if k > 0 {
      Shift(byId, id, n, k - 1);
    }
  }

  /**
   * A chain that is found is exactly what the loop builds: the loop stops
   * after `|c|` iterations, and the i-th cursor is the i-th node from the
   * end of the chain.
   */
  lemma {:induction false} ChainIsLoop(byId: map<string, FileNode>, id: string, visited: set<string>)
    requires Chain(byId, id, visited).Some?
    ensures var c := Chain(byId, id, visited).value;
      && CursorAfter(byId, id, |c|) == None
      && forall i :: 0 <= i < |c| ==> CursorAfter(byId, id, i) == Some(c[|c| - 1 - i])
    decreases byId.Keys - visited
  {
    var c := Chain(byId, id, visited).value;
    if id in byId {
      var n := byId[id];
      if Truthy(n.parentId) {
        var p := n.parentId.value;
        ChainIsLoop(byId, p, visited + {id});
        var up := Chain(byId, p, visited + {id}).value;
        assert c == up + [n];
        Shift(byId, id, n, |up|);
        forall i | 0 <= i < |c| ensures CursorAfter(byId, id, i) == Some(c[|c| - 1 - i]) {
          if i > 0 {
            Shift(byId, id, n, i - 1);
            assert c[|c| - 1 - i] == up[|up| - 1 - (i - 1)];
          }
        }
      }
    }
  }

  /** Every cursor is a node stored under its own id. */
  lemma {:induction false} CursorFromTable(byId: map<string, FileNode>, start: string, k: nat)
    requires WellKeyed(byId)
    requires CursorAfter(byId, start, k).Some?
    ensures var c := CursorAfter(byId, start, k).value; c.id in byId && byId[c.id] == c
    decreases k
  {
    if k > 0 {
      CursorFromTable(byId, start, k - 1);
    }
  }

  /**
   * When no chain is found, some cursor either returns to an id passed
   * before the walk started (`i == j`) or repeats an earlier cursor.
   */
  lemma {:induction false} ChainMissRepeats(byId: map<string, FileNode>, id: string, visited: set<string>)
    returns (i: nat, j: nat)
    requires WellKeyed(byId)
    requires Chain(byId, id, visited).None?
    ensures i <= j && CursorAfter(byId, id, j).Some?
    ensures i == j ==> CursorAfter(byId, id, j).value.id in visited
    ensures i < j ==> CursorAfter(byId, id, i) == CursorAfter(byId, id, j)
    decreases byId.Keys - visited
  {
    if id in visited {
      i, j := 0, 0;
    } else {
      var n := byId[id];
      var p := n.parentId.value;
      var i', j' := ChainMissRepeats(byId, p, visited + {id});
      Shift(byId, id, n, j');
      Shift(byId, id, n, i');
      if i' < j' {
        i, j := i' + 1, j' + 1;
      } else if CursorAfter(byId, p, j').value.id in visited {
        i, j := j' + 1, j' + 1;
      } else {
        CursorFromTable(byId, p, j');
        i, j := 0, j' + 1;
      }
    }
  }

  /** Once the loop has stopped it stays stopped. */
  lemma {:induction false} EarlierSome(byId: map<string, FileNode>, start: string, k: nat, j: nat)
    requires k <= j && CursorAfter(byId, start, j).Some?
    ensures CursorAfter(byId, start, k).Some?
    decreases j - k
  {
    if k < j {
      EarlierSome(byId, start, k, j - 1);
    }
  }

  /** Two equal cursors are followed by equal cursors. */
  lemma {:induction false} Periodic(byId: map<string, FileNode>, start: string, i: nat, j: nat, m: nat)
    requires CursorAfter(byId, start, i) == CursorAfter(byId, start, j)
    ensures CursorAfter(byId, start, i + m) == CursorAfter(byId, start, j + m)
    decreases m
  {
    if m > 0 {
      Periodic(byId, start, i, j, m - 1);
    }
  }

  lemma {:induction false} SomeForever(byId: map<string, FileNode>, start: string, i: nat, j: nat, k: nat)
    requires i < j && CursorAfter(byId, start, i) == CursorAfter(byId, start, j)
    requires CursorAfter(byId, start, j).Some?
    ensures CursorAfter(byId, start, k).Some?
    decreases k
  {
    if k <= j {
      EarlierSome(byId, start, k, j);
    } else {
      Periodic(byId, start, i, j, k - j);
      SomeForever(byId, start, i, j, k - (j - i));
    }
  }

  /**
   * The walk ends exactly when a chain is found: a found chain stops the
   * loop after as many steps as it has nodes, and on a miss the loop's
   * cursor is never empty, so the source's `while` never exits.
   */
  lemma WalkEndsIffChain(byId: map<string, FileNode>, id: string)
    requires WellKeyed(byId)
    ensures Chain(byId, id, {}).Some? ==> CursorAfter(byId, id, |Chain(byId, id, {}).value|).None?
    ensures Chain(byId, id, {}).None? ==> forall k: nat :: CursorAfter(byId, id, k).Some?
  {
    if Chain(byId, id, {}).Some? {
      ChainIsLoop(byId, id, {});
    } else {
      var i, j := ChainMissRepeats(byId, id, {});
      forall k: nat ensures CursorAfter(byId, id, k).Some? {
        SomeForever(byId, id, i, j, k);
      }
    }
  }

  /**
   * The breadcrumb: the chain to the current folder, with the "root" node
   * put in front when the chain does not already start there. `None`
   * where the source's loop does not end.
   */
  function Breadcrumb(byId: map<string, FileNode>, current: string): (r: Option<seq<FileNode>>)
    ensures r.Some? <==> Chain(byId, current, {}).Some?
    ensures r.Some? && current in byId ==> r.value != [] && r.value[|r.value| - 1] == byId[current]
    ensures r.Some? && "root" in byId ==> r.value != [] && (r.value[0].id == "root" || r.value[0] == byId["root"])
    ensures r.Some? ==> |r.value| <= |Chain(byId, current, {}).value| + 1
  {
    match Chain(byId, current, {})
    case None => None
    case Some(c) =>
      if (c == [] || c[0].id != "root") && "root" in byId then Some([byId["root"]] + c) else Some(c)
  }

  // ---- listing and clicks ----

  /** The row order: folders before other kinds, then `localeCompare` on names. */
  function FoldersFirstLe(nameLe: (string, string) -> bool): (FileNode, FileNode) -> bool {
    (a: FileNode, b: FileNode) =>
      if IsFolder(a) && !IsFolder(b) then true
      else if IsFolder(b) && !IsFolder(a) then false
      else nameLe(a.name, b.name)
  }

  lemma FoldersFirstTotal(nameLe: (string, string) -> bool)
    requires TotalPreorder(nameLe)
    ensures TotalPreorder(FoldersFirstLe(nameLe))
  {
    var le := FoldersFirstLe(nameLe);
    forall a: FileNode, b: FileNode ensures le(a, b) || le(b, a) {
      assert nameLe(a.name, b.name) || nameLe(b.name, a.name);
    }
    forall a: FileNode, b: FileNode, c: FileNode | le(a, b) && le(b, c) ensures le(a, c) {
      if IsFolder(a) == IsFolder(b) && IsFolder(b) == IsFolder(c) {
        assert nameLe(a.name, b.name) && nameLe(b.name, c.name);
      }
    }
  }

  function NotSelf(id: string): FileNode -> bool {
    (f: FileNode) => f.id != id
  }

  function InRows(current: string): FileNode -> bool {
    (f: FileNode) => ParentKey(f) == current && f.id != current
  }

  /**
   * The files a folder lists, as evidently intended: its group without the
   * folder itself, which the `?? "root"` fallback would otherwise put among
   * the root folder's own children.
   */
  function Rows(files: seq<FileNode>, current: string): (r: seq<FileNode>)
    ensures |r| <= |Children(GroupByParent(files), current)|
    ensures forall i :: 0 <= i < |r| ==> r[i].id != current
  {
    Filter(Children(GroupByParent(files), current), NotSelf(current))
  }

  /** The rows are the files whose parent key is the folder, other than the folder, in input order. */
  lemma RowsAreFilter(files: seq<FileNode>, current: string)
    ensures Rows(files, current) == Filter(files, InRows(current))
  {
    GroupSlot(files, current);
    FilterFilter(files, InGroup(current), NotSelf(current), InRows(current));
  }

  /** Only the folder itself is dropped from its group. */
  lemma RowsMember(files: seq<FileNode>, current: string, f: FileNode)
    ensures f in Rows(files, current) <==> f in Children(GroupByParent(files), current) && f.id != current
  {
    FilterMember(Children(GroupByParent(files), current), NotSelf(current), f);
  }

  /** The rows shown for the current folder: its whole group, sorted folders first. */
  function Listing(files: seq<FileNode>, current: string, nameLe: (string, string) -> bool): (r: seq<FileNode>)
    ensures |r| == |Children(GroupByParent(files), current)|
  {
    SortBy(Children(GroupByParent(files), current), FoldersFirstLe(nameLe))
  }

  /**
   * The listing is a permutation of the files whose parent key is the
   * current folder, the folder itself included when that is its own key,
   * with folders first and names ascending within each kind class.
   */
  lemma ListingOrdered(files: seq<FileNode>, current: string, nameLe: (string, string) -> bool)
    requires TotalPreorder(nameLe)
    ensures var r := Listing(files, current, nameLe);
      && multiset(r) == multiset(Filter(files, InGroup(current)))
      && (forall i, j :: 0 <= i < j < |r| && IsFolder(r[j]) ==> IsFolder(r[i]))
      && (forall i, j :: 0 <= i < j < |r| && IsFolder(r[i]) == IsFolder(r[j]) ==> nameLe(r[i].name, r[j].name))
  {
    var g := Children(GroupByParent(files), current);
    GroupSlot(files, current);
    SortByPermutes(g, FoldersFirstLe(nameLe));
    FoldersFirstTotal(nameLe);
    SortBySorted(g, FoldersFirstLe(nameLe));
  }

  /** The listing as evidently intended: the folder's rows, without the folder itself, sorted the same way. */
  function ListingIntended(files: seq<FileNode>, current: string, nameLe: (string, string) -> bool): (r: seq<FileNode>)
    ensures |r| == |Rows(files, current)|
  {
    SortBy(Rows(files, current), FoldersFirstLe(nameLe))
  }

  /**
   * The intended listing is a permutation of the files whose parent key is
   * the current folder, other than the folder, ordered as the listing is.
   */
  lemma ListingIntendedOrdered(files: seq<FileNode>, current: string, nameLe: (string, string) -> bool)
    requires TotalPreorder(nameLe)
    ensures var r := ListingIntended(files, current, nameLe);
      && multiset(r) == multiset(Filter(files, InRows(current)))
      && (forall i, j :: 0 <= i < j < |r| && IsFolder(r[j]) ==> IsFolder(r[i]))
      && (forall i, j :: 0 <= i < j < |r| && IsFolder(r[i]) == IsFolder(r[j]) ==> nameLe(r[i].name, r[j].name))
  {
    var g := Rows(files, current);
    RowsAreFilter(files, current);
    SortByPermutes(g, FoldersFirstLe(nameLe));
    FoldersFirstTotal(nameLe);
    SortBySorted(g, FoldersFirstLe(nameLe));
  }

  /** A row click (or double click) opens the row only when it is a folder. */
  function Click(current: string, f: FileNode): (r: string)
    ensures r != current ==> IsFolder(f) && r == f.id
    ensures IsFolder(f) ==> r == f.id
  {
    if IsFolder(f) then f.id else current
  }

  // ---- membership of the listings ----

  /** The listing holds exactly the folder's group. */
  lemma ListingMember(files: seq<FileNode>, current: string, nameLe: (string, string) -> bool, f: FileNode)
    ensures f in Listing(files, current, nameLe) <==> f in Children(GroupByParent(files), current)
  {
    var g := Children(GroupByParent(files), current);
    SortByPermutes(g, FoldersFirstLe(nameLe));
    assert f in Listing(files, current, nameLe) <==> f in multiset(g);
  }

  /** The intended listing holds exactly the folder's rows. */
  lemma ListingIntendedMember(files: seq<FileNode>, current: string, nameLe: (string, string) -> bool, f: FileNode)
    ensures f in ListingIntended(files, current, nameLe) <==> f in Rows(files, current)
  {
    var g := Rows(files, current);
    SortByPermutes(g, FoldersFirstLe(nameLe));
    assert f in ListingIntended(files, current, nameLe) <==> f in multiset(g);
  }

  /** A file is a row of a folder exactly when its parent key is the folder and it is not the folder. */
  lemma RowsMemberAt(files: seq<FileNode>, current: string, i: int)
    requires 0 <= i < |files|
    ensures files[i] in Rows(files, current) <==> ParentKey(files[i]) == current && files[i].id != current
  {
    FileInOneGroup(files, i, current);
    RowsMember(files, current, files[i]);
  }

  // ---- breadcrumbs of simple shapes ----

  /** With neither the folder nor "root" in the index, the breadcrumb is empty. */
  lemma BreadcrumbUnknown(byId: map<string, FileNode>, current: string)
    requires current !in byId && "root" !in byId
    ensures Breadcrumb(byId, current) == Some([])
  {
  }

  /** A node whose parent is missing, with no "root" node, is its own whole breadcrumb. */
  lemma BreadcrumbOrphan(byId: map<string, FileNode>, n: FileNode)
    requires n.id in byId && byId[n.id] == n && n.id != "root" && "root" !in byId
    requires n.parentId.Some? && n.parentId.value !in byId
    ensures Breadcrumb(byId, n.id) == Some([n])
  {
    var visited: set<string> := {};
    assert visited + {n.id} == {n.id};
    if Truthy(n.parentId) {
      assert Chain(byId, n.parentId.value, visited + {n.id}) == Some([]);
      assert [] + [n] == [n];
    }
    assert Chain(byId, n.id, visited) == Some([n]);
  }

  /** A node whose parent is the "root" node, which has no parent, has the breadcrumb root then node. */
  lemma BreadcrumbUnderRoot(byId: map<string, FileNode>, n: FileNode)
    requires "root" in byId && byId["root"].id == "root" && byId["root"].parentId.None?
    requires n.id in byId && byId[n.id] == n && n.id != "root" && n.parentId == Some("root")
    ensures Breadcrumb(byId, n.id) == Some([byId["root"], n])
  {
    var visited: set<string> := {};
    assert visited + {n.id} == {n.id};
    assert Chain(byId, "root", visited + {n.id}) == Some([byId["root"]]);
    assert [byId["root"]] + [n] == [byId["root"], n];
    assert Chain(byId, n.id, visited) == Some([byId["root"], n]);
  }

  /** The "root" node without a parent is its own whole breadcrumb. */
  lemma BreadcrumbAtRoot(byId: map<string, FileNode>)
    requires "root" in byId && byId["root"].id == "root" && byId["root"].parentId.None?
    ensures Breadcrumb(byId, "root") == Some([byId["root"]])
  {
  }
}
