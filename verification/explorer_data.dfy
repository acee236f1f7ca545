/**
 * The two fixed listings the explorers show: the GitHub-style explorer's
 * own `MOCK_FILES`, and the stored iPhone listing that the project
 * explorer receives from `getProjectFiles`, with what the shared tree
 * logic makes of each.
 */
module ExplorerData {
  import opened Common
  import opened Seqs
  import opened ProjectFiles
  import opened FileTree

  // ---- the GitHub-style explorer's fixed listing ----

  /** `MOCK_FILES` */
  const MockFiles: seq<FileNode> := [
    FileNode("root", "repo-root", "folder", None, None, None),
    Node("docs", "docs", "folder", "root", "Add spec", "2025-10-02T12:00:00Z"),
    Node("models", "models", "folder", "root", "STL: rev B", "2025-10-10T09:00:00Z"),
    Node("bom", "bom", "folder", "root", "Add LDO", "2025-10-12T08:30:00Z"),
    Node("materials", "materials", "folder", "root", "Al 6061", "2025-10-11T17:10:00Z"),
    Node("readme", "README.md", "doc", "root", "Intro", "2025-10-01T08:00:00Z"),
    Node("spec", "spec.pdf", "doc", "docs", "v0.3", "2025-10-02T12:00:00Z"),
    Node("case", "enclosure.stl", "other", "models", "wall 2.8mm", "2025-10-10T09:00:00Z"),
    Node("bomfile", "bom.yaml", "code", "bom", "add bearings", "2025-10-12T08:30:00Z")
  ]

  /** The ids of the stored listing are distinct. */
  lemma MockFilesDistinct()
    ensures IdsDistinct(MockFiles)
  {
  }

  /** Every parent link of the stored listing names a folder of the list. */
  lemma MockFilesParentsAreFolders()
    ensures forall i :: 0 <= i < |MockFiles| && MockFiles[i].parentId.Some? ==>
      exists j :: 0 <= j < |MockFiles| && MockFiles[j].id == MockFiles[i].parentId.value && IsFolder(MockFiles[j])
  {
    forall i | 0 <= i < |MockFiles| && MockFiles[i].parentId.Some?
      ensures exists j :: 0 <= j < |MockFiles| && MockFiles[j].id == MockFiles[i].parentId.value && IsFolder(MockFiles[j])
    {
      var p := MockFiles[i].parentId.value;
      if p == "root" { assert MockFiles[0].id == p; }
      else if p == "docs" { assert MockFiles[1].id == p; }
      else if p == "models" { assert MockFiles[2].id == p; }
      else { assert MockFiles[3].id == p; }
    }
  }

  /**
   * The parentless "root" node has parent key "root", so the root folder
   * lists itself ("repo-root") among its own children.
   */
  lemma RootListsItself(nameLe: (string, string) -> bool)
    ensures MockFiles[0] in Children(GroupByParent(MockFiles), "root")
    ensures MockFiles[0] in Listing(MockFiles, "root", nameLe)
  {
    FileInOneGroup(MockFiles, 0, "root");
    ListingMember(MockFiles, "root", nameLe, MockFiles[0]);
  }

  /**
   * With the folder itself left out, the root folder no longer lists
   * itself, and still lists the nodes under it.
   */
  lemma RootRowsOmitRoot(nameLe: (string, string) -> bool)
    ensures MockFiles[0] !in Rows(MockFiles, "root")
    ensures MockFiles[1] in Rows(MockFiles, "root")
    ensures MockFiles[0] !in ListingIntended(MockFiles, "root", nameLe)
  {
    RowsMemberAt(MockFiles, "root", 1);
    ListingIntendedMember(MockFiles, "root", nameLe, MockFiles[0]);
  }

  // ---- the stored iPhone listing as the project explorer shows it ----

  /**
   * The parentless top folder "iphone-15" falls under the key "root", so
   * the explorer's start folder lists it beside the nodes that name "root".
   */
  lemma IphoneTopUnderRoot()
    ensures IphoneFiles[0] in Children(GroupByParent(IphoneFiles), "root")
    ensures IphoneFiles[1] in Children(GroupByParent(IphoneFiles), "root")
  {
    FileInOneGroup(IphoneFiles, 0, "root");
    FileInOneGroup(IphoneFiles, 1, "root");
  }

  /** No node names "iphone-15" as its parent, so opening that folder shows nothing. */
  lemma IphoneTopOpensEmpty()
    ensures Children(GroupByParent(IphoneFiles), "iphone-15") == []
  {
    GroupKeys(IphoneFiles, "iphone-15");
  }

  /** The stored iPhone index has no "root" node. */
  lemma IphoneIndexLacksRoot()
    ensures "root" !in ById(IphoneFiles)
  {
    IphoneHasNoRoot();
  }

  /** Without a "root" node the breadcrumb at the start folder is empty. */
  lemma IphoneBreadcrumbAtStart()
    ensures Breadcrumb(ById(IphoneFiles), "root") == Some([])
  {
    IphoneIndexLacksRoot();
    BreadcrumbUnknown(ById(IphoneFiles), "root");
  }

  /** From "docs" the breadcrumb holds "docs" alone, never leading back to the top folder. */
  lemma IphoneBreadcrumbAtDocs()
    ensures Breadcrumb(ById(IphoneFiles), "docs") == Some([IphoneFiles[1]])
  {
    var byId := ById(IphoneFiles);
    var docs := IphoneFiles[1];
    IphoneIndexLacksRoot();
    IphoneIdsDistinct();
    ByIdAt(IphoneFiles, 1);
    assert docs.id == "docs" && docs.parentId == Some("root");
    BreadcrumbOrphan(byId, docs);
  }

  /** With the corrected listing the top folder is the root: the start folder leaves it out and the breadcrumb starts there. */
  lemma IphoneIntendedBreadcrumbs()
    ensures IphoneFilesIntended[0] !in Rows(IphoneFilesIntended, "root")
    ensures Breadcrumb(ById(IphoneFilesIntended), "root") == Some([IphoneFilesIntended[0]])
    ensures Breadcrumb(ById(IphoneFilesIntended), "docs") == Some([IphoneFilesIntended[0], IphoneFilesIntended[1]])
  {
    var f := IphoneFilesIntended;
    var byId := ById(f);
    RowsMemberAt(f, "root", 0);
    IphoneFilesIntendedDistinct();
    ByIdAt(f, 0);
    ByIdAt(f, 1);
    BreadcrumbAtRoot(byId);
    BreadcrumbUnderRoot(byId, f[1]);
  }
}
