/** The static allow-lists that decide, per sidebar side, which panels get a
    button and in which group. */
module Classifier {
  import opened SidebarTypes

  /** Persistent names of the panels shown in the top group. */
  function TopPanelNames(side: SidebarSide): (names: seq<string>)
    ensures |names| > 0
    ensures forall i, j :: 0 <= i < j < |names| ==> names[i] != names[j]
  {
    match side
    case Left => ["Project Panel", "GitPanel", "Outline Panel", "CollabPanel"]
    case Right => ["AgentPanel", "AgentsPanel", "NotificationPanel"]
  }

  /** Persistent names of the panels shown in the bottom group. */
  function BottomPanelNames(side: SidebarSide): (names: seq<string>)
    ensures names == [] <==> side == SidebarSide.Right
    ensures forall i, j :: 0 <= i < j < |names| ==> names[i] != names[j]
  {
    match side
    case Left => ["TerminalPanel", "DebugPanel"]
    case Right => []
  }

  /** Whether a name is on either list of a side. */
  predicate Listed(side: SidebarSide, name: string)
  {
    name in TopPanelNames(side) || name in BottomPanelNames(side)
  }

  /** No name is on both lists of a side, so a panel never qualifies for
      both groups. */
  lemma NameListsDisjoint(side: SidebarSide, name: string)
    ensures !(name in TopPanelNames(side) && name in BottomPanelNames(side))
  {
  }

  /** Every listed name belongs to one side only, so a panel gets a button
      in at most one of the two sidebars. */
  lemma ListedOnOneSide(name: string)
    ensures !(Listed(SidebarSide.Left, name) && Listed(SidebarSide.Right, name))
  {
  }
}
