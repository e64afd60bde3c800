/** The per-row edits of the Packages dock's context menu. */
module Packages {
  import opened Wrappers

  /** A package row of the packages model: its available versions, the
      version it is overridden to, and whether it is disabled. */
  datatype PackageRow = PackageRow(versions: seq<string>, override: Option<string>, disabled: bool)

  /** The menu entry the user picked, or `Cancelled` when the menu was dismissed. */
  datatype Pick = Cancelled | Edit | Disable | SetDefault | SetEarliest | SetLatest | OpenFileLocation

  /** Why a right-click raises instead of editing: no row under the cursor
      (the model of an invalid index is absent), or a version pick on a row
      without versions (indexing an empty list). */
  datatype Fault = NoRowUnderCursor | NoVersions

  datatype Result<T> = Ok(value: T) | Err(fault: Fault)

  /** `on_right_click`, applied to the row under the cursor. */
  function RightClick(row: Option<PackageRow>, pick: Pick): (r: Result<PackageRow>)
    ensures row.None? ==> r == Err(NoRowUnderCursor)
    ensures row.Some? && pick in {Cancelled, Edit, OpenFileLocation} ==> r == Ok(row.value)
    ensures r.Ok? ==> r.value.versions == row.value.versions
    ensures row.Some? && pick == SetDefault ==> r.Ok? && r.value.override == None && !r.value.disabled
    ensures row.Some? && pick == SetEarliest ==>
      if row.value.versions == [] then r == Err(NoVersions)
      else r.Ok? && r.value.override == Some(row.value.versions[0]) && !r.value.disabled
    ensures row.Some? && pick == SetLatest ==>
      if row.value.versions == [] then r == Err(NoVersions)
      else r.Ok? && r.value.override == Some(row.value.versions[|row.value.versions| - 1]) && !r.value.disabled
    // the checkable "Disable" entry starts as the row's flag and flips when picked
    ensures row.Some? && pick == Disable ==>
      r.Ok? && r.value.override == None && r.value.disabled == !row.value.disabled
  {
    match row
    case None => Err(NoRowUnderCursor)
    case Some(p) =>
      match pick
      case Cancelled => Ok(p)
      case Edit => Ok(p)
      case OpenFileLocation => Ok(p)
      case SetDefault => Ok(p.(override := None, disabled := false))
      case SetEarliest =>
        if |p.versions| == 0 then Err(NoVersions) else Ok(p.(override := Some(p.versions[0]), disabled := false))
      case SetLatest =>
        if |p.versions| == 0 then Err(NoVersions)
        else Ok(p.(override := Some(p.versions[|p.versions| - 1]), disabled := false))
      case Disable => Ok(p.(override := None, disabled := !p.disabled))
  }

  /** A row's override, when it has one, is one of its versions. */
  predicate OverrideListed(p: PackageRow) {
    p.override.Some? ==> p.override.value in p.versions
  }

  /** No menu pick can leave a row overridden to a version it does not list. */
  lemma RightClickKeepsOverrideListed(p: PackageRow, pick: Pick)
    requires OverrideListed(p)
    ensures RightClick(Some(p), pick).Ok? ==> OverrideListed(RightClick(Some(p), pick).value)
  {
  }

  /** Picking "Disable" twice restores the flag and leaves no override. */
  lemma DisableTwice(p: PackageRow)
    ensures var once := RightClick(Some(p), Disable).value;
      RightClick(Some(once), Disable) == Ok(p.(override := None))
  {
  }
}
