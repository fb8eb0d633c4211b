/**
 * A project's version list (`components/versioning/version-history.tsx`):
 * the versions newest first, which entry offers which buttons, the diff's
 * previous-version pane, and the dialog state the buttons set.
 */
module VersionHistory {
  import opened Wrappers
  import opened Lists
  import opened Sorting
  import opened Types

  function VersionNumber(v: ProjectVersion): int {
    v.versionNumber
  }

  /** `sortedVersions`: a copy of the versions, highest number first. */
  function SortedVersions(vs: seq<ProjectVersion>): (r: seq<ProjectVersion>)
    ensures |r| == |vs| && multiset(r) == multiset(vs)
    ensures Descending(r, VersionNumber)
  {
    SortDesc(vs, VersionNumber)
  }

  /** What one row of the list shows. */
  datatype Row = Row(version: ProjectVersion, currentBadge: bool, restoreAndView: bool, compare: bool)

  /** The rows in display order. */
  function Rows(vs: seq<ProjectVersion>, currentVersion: int): (r: seq<Row>)
    ensures |r| == |vs|
    ensures forall i :: 0 <= i < |r| ==> r[i].version == SortedVersions(vs)[i]
    ensures forall i :: 0 <= i < |r| ==> (r[i].restoreAndView <==> r[i].version.versionNumber != currentVersion)
    ensures forall i :: 0 <= i < |r| ==> r[i].currentBadge == !r[i].restoreAndView
    ensures forall i :: 0 <= i < |r| ==> (r[i].compare <==> i != |r| - 1)
  {
    var sorted := SortedVersions(vs);
    seq(|sorted|, i requires 0 <= i < |sorted| =>
      Row(sorted[i], sorted[i].versionNumber == currentVersion, sorted[i].versionNumber != currentVersion, i < |sorted| - 1))
  }

  /** Every version other than the current one appears in a row that offers Restore and View. */
  lemma RestoreOffered(vs: seq<ProjectVersion>, currentVersion: int)
    ensures forall v :: v in vs && v.versionNumber != currentVersion ==>
      exists i :: 0 <= i < |Rows(vs, currentVersion)| && Rows(vs, currentVersion)[i].version == v && Rows(vs, currentVersion)[i].restoreAndView
  {
    var r := Rows(vs, currentVersion);
    var sorted := SortedVersions(vs);
    forall v | v in vs && v.versionNumber != currentVersion
      ensures exists i :: 0 <= i < |r| && r[i].version == v && r[i].restoreAndView {
      assert v in multiset(sorted);
      var i :| 0 <= i < |sorted| && sorted[i] == v;
      assert r[i].version == v;
    }
  }

  const NoCode: string := "No code available"

  /**
   * The left pane of the diff: the code of the first version numbered one
   * below the selected one, or the placeholder when there is none or its
   * code is empty (`?.code || "No code available"`).
   */
  function PreviousCode(vs: seq<ProjectVersion>, selected: ProjectVersion): (r: string)
    ensures (forall i :: 0 <= i < |vs| ==> vs[i].versionNumber != selected.versionNumber - 1) ==> r == NoCode
    ensures forall k ::
      (&& 0 <= k < |vs| && vs[k].versionNumber == selected.versionNumber - 1 && vs[k].code != ""
       && (forall j :: 0 <= j < k ==> vs[j].versionNumber != selected.versionNumber - 1))
      ==> r == vs[k].code
    ensures r == NoCode || exists k :: 0 <= k < |vs| && vs[k].versionNumber == selected.versionNumber - 1 && r == vs[k].code
  {
    match FirstIndex(vs, (v: ProjectVersion) => v.versionNumber == selected.versionNumber - 1)
    case None => NoCode
    case Some(k) => if vs[k].code != "" then vs[k].code else NoCode
  }

  /** The selected version and which dialog is open. */
  class VersionList {
    const projectId: string
    var selectedVersion: Option<ProjectVersion>
    var showRevertDialog: bool
    var showDiffDialog: bool

    constructor (projectId: string)
      ensures this.projectId == projectId && selectedVersion.None? && !showRevertDialog && !showDiffDialog
    {
      this.projectId := projectId;
      selectedVersion, showRevertDialog, showDiffDialog := None, false, false;
    }

    /** The Restore button of a row: select it and ask for confirmation. */
    method PressRestore(v: ProjectVersion)
      modifies this`selectedVersion, this`showRevertDialog
      ensures selectedVersion == Some(v) && showRevertDialog
    {
      selectedVersion := Some(v);
      showRevertDialog := true;
    }

    /** `handleRevert`: fires `onRevertToVersion(projectId, id)` and closes the dialog, when a version is selected. */
    method HandleRevert() returns (fired: Option<(string, string)>)
      modifies this`showRevertDialog
      ensures old(selectedVersion).None? ==> fired.None? && showRevertDialog == old(showRevertDialog)
      ensures old(selectedVersion).Some? ==> fired == Some((projectId, old(selectedVersion).value.id)) && !showRevertDialog
    {
      fired := None;
      if selectedVersion.Some? {
        fired := Some((projectId, selectedVersion.value.id));
        showRevertDialog := false;
      }
    }

    /** `handleCompare`: select the version and open the diff. */
    method HandleCompare(v: ProjectVersion)
      modifies this`selectedVersion, this`showDiffDialog
      ensures selectedVersion == Some(v) && showDiffDialog
    {
      selectedVersion := Some(v);
      showDiffDialog := true;
    }
  }
}
