/**
 * File nodes of a project repository (`lib/data/project-files.ts`): the
 * stored listings, keyed by `owner/slug`, and the skeleton returned for any
 * other project. The clock behind `new Date().toISOString()` is the
 * parameter `nowIso`.
 */
module ProjectFiles {
  import opened Common
  import opened Text

  /** `FileNode`; `kind` is one of "folder", "doc", "code", "other". */
  datatype FileNode = FileNode(
    id: string,
    name: string,
    kind: string,
    parentId: Option<string>,
    latestCommit: Option<string>,
    updatedAt: Option<string>)

  predicate IsFolder(f: FileNode) {
    f.kind == "folder"
  }

  /** No two nodes share an id. */
  predicate IdsDistinct(files: seq<FileNode>) {
    forall i, j :: 0 <= i < j < |files| ==> files[i].id != files[j].id
  }

  /** Some node of the list has id `id`. */
  predicate HasId(files: seq<FileNode>, id: string) {
    exists j :: 0 <= j < |files| && files[j].id == id
  }

  /** Every parent link names a node of the list. */
  predicate ParentsResolve(files: seq<FileNode>) {
    forall i :: 0 <= i < |files| && files[i].parentId.Some? ==> HasId(files, files[i].parentId.value)
  }

  function Node(id: string, name: string, kind: string, parent: string, commit: string, at: string): FileNode {
    FileNode(id, name, kind, Some(parent), Some(commit), Some(at))
  }

  /** The stored listing of "apple/iphone-15". */
  const IphoneFiles: seq<FileNode> := [
    FileNode("iphone-15", "iphone-15", "folder", None, None, None),
    Node("docs", "docs", "folder", "root", "Add hardware spec", "2025-10-02T12:00:00Z"),
    Node("models", "models", "folder", "root", "STL: frame rev B", "2025-10-10T09:00:00Z"),
    Node("bom", "bom", "folder", "root", "Add LDO regulator", "2025-10-12T08:30:00Z"),
    Node("materials", "materials", "folder", "root", "Update titanium spec", "2025-10-11T17:10:00Z"),
    Node("readme", "README.md", "doc", "root", "Add intro", "2025-10-01T08:00:00Z"),
    Node("spec", "spec.pdf", "doc", "docs", "v0.3", "2025-10-02T12:00:00Z"),
    Node("case", "enclosure.step", "other", "models", "wall 2.8mm", "2025-10-10T09:00:00Z"),
    Node("bomfile", "bom.yaml", "code", "bom", "Add bearings", "2025-10-12T08:30:00Z")
  ]

  /**
   * The stored listing as evidently intended: its top folder carries the id
   * "root" that the other nodes name as their parent (as in the skeleton),
   * keeping its name "iphone-15"; every other node is unchanged.
   */
  const IphoneFilesIntended: seq<FileNode> :=
    [FileNode("root", "iphone-15", "folder", None, None, None)] + IphoneFiles[1..]

  /** `demoProjectFiles`, as stored. */
  const DemoProjectFiles: map<string, seq<FileNode>> := map["apple/iphone-15" := IphoneFiles]

  /** `demoProjectFiles` with the corrected iPhone listing. */
  const DemoProjectFilesIntended: map<string, seq<FileNode>> := map["apple/iphone-15" := IphoneFilesIntended]

  /** The listing for a project the table does not know, stamped `nowIso`. */
  function Skeleton(nowIso: string): seq<FileNode> {
    [
      FileNode("root", "repo-root", "folder", None, None, None),
      Node("docs", "docs", "folder", "root", "Initial docs", nowIso),
      Node("models", "models", "folder", "root", "Initial models", nowIso),
      Node("bom", "bom", "folder", "root", "Initial BOM", nowIso),
      Node("readme", "README.md", "doc", "root", "Init README", nowIso)
    ]
  }

  /** The table key of a project: lower-cased owner and slug joined by "/". */
  function ProjectKey(owner: string, slug: string): (k: string)
    ensures StartsWith(k, LowerStr(owner) + "/")
    ensures |k| == |owner| + |slug| + 1
  {
    LowerStr(owner) + "/" + LowerStr(slug)
  }

  /** Owner and slug without slashes can be read back from the key. */
  lemma ProjectKeySplit(owner: string, slug: string)
    requires '/' !in owner && '/' !in slug
    ensures Split(ProjectKey(owner, slug), '/') == [LowerStr(owner), LowerStr(slug)]
  {
    var parts := [LowerStr(owner), LowerStr(slug)];
    forall i | 0 <= i < 2 ensures '/' !in parts[i] {
      var s := if i == 0 then owner else slug;
      forall k | 0 <= k < |s| ensures LowerStr(s)[k] != '/' {
        assert s[k] != '/' by { assert s[k] in s; }
      }
    }
    assert Join(parts[1..], '/') == LowerStr(slug);
    SplitJoin(parts, '/');
  }

  /** The stored listing under the project's key, or the skeleton for an unknown project. */
  function FilesFrom(table: map<string, seq<FileNode>>, owner: string, slug: string, nowIso: string): (r: seq<FileNode>)
    ensures ProjectKey(owner, slug) in table ==> r == table[ProjectKey(owner, slug)]
    ensures ProjectKey(owner, slug) !in table ==> r == Skeleton(nowIso)
  {
    var key := ProjectKey(owner, slug);
    if key in table then table[key] else Skeleton(nowIso)
  }

  /** `getProjectFiles`: Apple's iPhone 15 gets its stored listing, every other project the skeleton. */
  function GetProjectFiles(owner: string, slug: string, nowIso: string): (r: seq<FileNode>)
    ensures ProjectKey(owner, slug) == "apple/iphone-15" ==> r == IphoneFiles
    ensures ProjectKey(owner, slug) != "apple/iphone-15" ==> r == Skeleton(nowIso)
    ensures r != []
  {
    FilesFrom(DemoProjectFiles, owner, slug, nowIso)
  }

  /** `getProjectFiles` over the corrected table. */
  function GetProjectFilesIntended(owner: string, slug: string, nowIso: string): (r: seq<FileNode>)
    ensures ProjectKey(owner, slug) == "apple/iphone-15" ==> r == IphoneFilesIntended
    ensures ProjectKey(owner, slug) != "apple/iphone-15" ==> r == Skeleton(nowIso)
    ensures r != []
  {
    FilesFrom(DemoProjectFilesIntended, owner, slug, nowIso)
  }

  /** The lookup ignores ASCII case in both owner and slug. */
  lemma GetProjectFilesCaseInsensitive(owner: string, slug: string, nowIso: string)
    ensures GetProjectFiles(owner, slug, nowIso) == GetProjectFiles(LowerStr(owner), LowerStr(slug), nowIso)
  {
    LowerStrIdempotent(owner);
    LowerStrIdempotent(slug);
  }

  /**
   * The skeleton is a well-formed tree: five nodes with distinct ids, one
   * parentless folder "root", and four nodes whose parent is "root".
   */
  lemma SkeletonWellFormed(nowIso: string)
    ensures var s := Skeleton(nowIso);
      && |s| == 5
      && s[0].id == "root" && s[0].parentId.None? && IsFolder(s[0])
      && (forall i :: 1 <= i < 5 ==> s[i].parentId == Some("root"))
      && IdsDistinct(s)
      && ParentsResolve(s)
  {
    var s := Skeleton(nowIso);
    assert HasId(s, "root") by { assert s[0].id == "root"; }
  }

  /**
   * The stored listing is not: its parentless node is "iphone-15", yet five
   * nodes name "root" as their parent and no node has that id.
   */
  lemma IphoneFilesDoNotResolve()
    ensures !HasId(IphoneFiles, "root")
    ensures IphoneFiles[1].parentId == Some("root")
    ensures !ParentsResolve(IphoneFiles)
  {
    IphoneHasNoRoot();
    DanglingParent(IphoneFiles, 1);
  }

  /** The stored listing's ids are distinct, so only the parent links are broken. */
  lemma IphoneIdsDistinct()
    ensures IdsDistinct(IphoneFiles)
  {
  }

  lemma IphoneHasNoRoot()
    ensures !HasId(IphoneFiles, "root")
  {
  }

  /** One parent link naming no node of the list breaks resolution. */
  lemma DanglingParent(files: seq<FileNode>, i: int)
    requires 0 <= i < |files| && files[i].parentId.Some? && !HasId(files, files[i].parentId.value)
    ensures !ParentsResolve(files)
  {
  }

  /**
   * The intended listing is a well-formed tree: distinct ids, a parentless
   * "root" folder, and every parent link resolving.
   */
  lemma IphoneFilesIntendedResolve()
    ensures IphoneFilesIntended[0].id == "root" && IphoneFilesIntended[0].parentId.None?
    ensures IphoneFilesIntended[1..] == IphoneFiles[1..]
    ensures HasId(IphoneFilesIntended, "root")
    ensures ParentsResolve(IphoneFilesIntended)
  {
    var f := IphoneFilesIntended;
    assert f[0].id == "root";
    forall i | 0 <= i < |f| && f[i].parentId.Some? ensures HasId(f, f[i].parentId.value) {
      var p := f[i].parentId.value;
      if p == "root" { assert f[0].id == p; }
      else if p == "docs" { assert f[1].id == p; }
      else if p == "models" { assert f[2].id == p; }
      else { assert f[3].id == p; }
    }
  }

  /** The intended listing keeps the stored ids distinct. */
  lemma IphoneFilesIntendedDistinct()
    ensures IdsDistinct(IphoneFilesIntended)
  {
  }

  /**
   * As stored, the iPhone project is served a listing whose top folder is
   * "iphone-15" and whose parent links do not resolve.
   */
  lemma IphoneServedAsStored(nowIso: string)
    ensures GetProjectFiles("apple", "iphone-15", nowIso)[0].id == "iphone-15"
    ensures !ParentsResolve(GetProjectFiles("apple", "iphone-15", nowIso))
  {
    assert ProjectKey("apple", "iphone-15") == "apple/iphone-15";
    IphoneFilesDoNotResolve();
  }

  /** With the corrected table every project's listing, stored or skeleton, resolves. */
  lemma IntendedListingsResolve(owner: string, slug: string, nowIso: string)
    ensures ParentsResolve(GetProjectFilesIntended(owner, slug, nowIso))
    ensures IdsDistinct(GetProjectFilesIntended(owner, slug, nowIso))
  {
    if ProjectKey(owner, slug) == "apple/iphone-15" {
      IphoneFilesIntendedResolve();
      IphoneFilesIntendedDistinct();
    } else {
      SkeletonWellFormed(nowIso);
    }
  }
}
