/** The first-match search over a list of display strings that the window
    uses both for tab texts and for application names. */
module Search {
  import opened Wrappers

  /** Index of the first element of `xs` equal to `x`, scanning from the front
      (the inner `find_dock` helper of `on_dock_toggled`). */
  function FirstIndex(xs: seq<string>, x: string): (r: Option<nat>)
    ensures r.None? <==> x !in xs
    ensures r.Some? ==> r.value < |xs| && xs[r.value] == x
    ensures r.Some? ==> forall j :: 0 <= j < r.value ==> xs[j] != x
  {
    if |xs| == 0 then None
    else if xs[0] == x then Some(0)
    else match FirstIndex(xs[1..], x)
      case None => None
      case Some(i) => Some(i + 1)
  }
}
