/** `on_project_changed`: the console message and the window title. */
module Projects {
  import opened Ui

  /** The console message: "Changing" when the project differs, "Refreshing"
      when the same project was reloaded (for example after editing its
      requirements). */
  function ChangeMessage(before: string, after: string): (m: string)
    ensures before != after ==> m == "Changing " + before + " -> " + after
    ensures before == after ==> m == "Refreshing " + before + " -> " + after
  {
    (if before != after then "Changing" else "Refreshing") + " " + before + " -> " + after
  }

  /** The message's action word tells a real change from a refresh. */
  lemma MessageTellsChange(before: string, after: string)
    ensures ChangeMessage(before, after)[..8] == "Changing" <==> before != after
    ensures ChangeMessage(before, after)[..10] == "Refreshing" <==> before == after
  {
    var m := ChangeMessage(before, after);
    if before != after {
      assert m[..10][0] == 'C';
    } else {
      assert m[..8][0] == 'R';
    }
  }

  /** `on_project_changed(before, after)`: announce, retitle the window after
      the new project and show its name. */
  function ProjectChanged(s: UiState, before: string, after: string): (r: UiState)
    requires Wf(s)
    ensures Wf(r) && r == s.(console := r.console, windowTitle := r.windowTitle, projectName := after)
    ensures r.console == Told(s, ChangeMessage(before, after)).console
    ensures r.windowTitle == WindowTitle + " - " + after
  {
    Told(s, ChangeMessage(before, after)).(windowTitle := WindowTitle + " - " + after, projectName := after)
  }
}
