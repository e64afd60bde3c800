/** Which rendered tab bar, if any, holds a dock: tab bars are matched to
    docks only through their tab texts. */
module TabGroupResolver {
  import opened Wrappers
  import opened Search

  /** Every position of the host's enumeration names an existing tab bar. */
  predicate OrderFits(order: seq<nat>, bars: seq<seq<string>>) {
    forall j :: 0 <= j < |order| ==> order[j] < |bars|
  }

  /** Position, in the host's enumeration `order`, of the first tab bar that
      has a tab titled `title` (the `for bar in bars ... else` of
      `on_dock_toggled`); `None` when no bar has one. */
  function FirstBar(bars: seq<seq<string>>, order: seq<nat>, title: string): (r: Option<nat>)
    requires OrderFits(order, bars)
    ensures r.None? <==> forall j :: 0 <= j < |order| ==> title !in bars[order[j]]
    ensures r.Some? ==> r.value < |order| && title in bars[order[r.value]]
    ensures r.Some? ==> forall j :: 0 <= j < r.value ==> title !in bars[order[j]]
  {
    if |order| == 0 then None
    else if FirstIndex(bars[order[0]], title).Some? then Some(0)
    else match FirstBar(bars, order[1..], title)
      case None => None
      case Some(j) => Some(j + 1)
  }

  /** The first match is the only position that satisfies FirstBar's contract. */
  lemma FirstBarUnique(bars: seq<seq<string>>, order: seq<nat>, title: string, n: nat)
    requires OrderFits(order, bars)
    requires n < |order| && title in bars[order[n]]
    requires forall j :: 0 <= j < n ==> title !in bars[order[j]]
    ensures FirstBar(bars, order, title) == Some(n)
  {
  }

  /** Groups [["App", "Packages"], ["Console"]] enumerated in that order:
      "Console" is found in the second bar at its first tab, "Missing" nowhere. */
  lemma ResolverExample()
    ensures FirstBar([["App", "Packages"], ["Console"]], [0, 1], "Console") == Some(1)
    ensures FirstIndex(["Console"], "Console") == Some(0)
    ensures FirstBar([["App", "Packages"], ["Console"]], [0, 1], "Missing") == None
  {
  }
}
