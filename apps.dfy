/** `on_apps_reset`: which row of the apps table is selected after the
    applications model is reset. */
module AppsList {
  import opened Wrappers
  import opened Search

  /** What the source hands to the table's `selectRow`: a row number, or the
      model index object of a row (its loop variable), which is not a row number. */
  datatype RowArgument = RowNumber(row: nat) | ModelIndexOf(row: nat)

  /** The row search as the source writes it. The loop reuses `index` for the
      model index of each row it inspects, so when rows exist and none matches
      the startup application, the last row's model index is what reaches
      `selectRow`. An empty `app` stands for an unset preference. */
  function SelectRowArgumentAsWritten(app: string, rows: seq<string>): (r: RowArgument)
    ensures app == "" || |rows| == 0 ==> r == RowNumber(0)
    ensures app != "" && app in rows ==> r.RowNumber? && r.row < |rows| && rows[r.row] == app
    ensures r.RowNumber? ==> forall j :: 0 <= j < r.row && j < |rows| ==> rows[j] != app
    ensures app != "" && app !in rows && |rows| > 0 ==> r == ModelIndexOf(|rows| - 1)
  {
    if app == "" then RowNumber(0)
    else match FirstIndex(rows, app)
      case Some(row) => RowNumber(row)
      case None => if |rows| == 0 then RowNumber(0) else ModelIndexOf(|rows| - 1)
  }

  /** An input that shows it: startup application "maya" and a table holding only "nuke". */
  lemma UnmatchedStartupPassesModelIndex()
    ensures SelectRowArgumentAsWritten("maya", ["nuke"]) == ModelIndexOf(0)
  {
  }

  /** The evidently intended search: the first row whose name is the startup
      application, and row 0 when the preference is unset or nothing matches. */
  function StartupRow(app: string, rows: seq<string>): (r: nat)
    ensures app != "" && app in rows ==> r < |rows| && rows[r] == app
    ensures forall j :: 0 <= j < r && j < |rows| ==> rows[j] != app
    ensures app == "" || app !in rows ==> r == 0
  {
    if app == "" then 0
    else match FirstIndex(rows, app)
      case Some(row) => row
      case None => 0
  }

  /** Wherever the source hands over a row number, it is the intended row. */
  lemma StartupRowAgreesWithSource(app: string, rows: seq<string>)
    ensures SelectRowArgumentAsWritten(app, rows).RowNumber? ==>
      SelectRowArgumentAsWritten(app, rows).row == StartupRow(app, rows)
  {
  }
}
