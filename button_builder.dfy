/** Turns one panel, in the context of its dock, into an optional launcher
    button. */
module ButtonBuilder {
  import opened SidebarTypes
  import opened RelocateMenu

  /** The corners the relocate menu is anchored at and attached to: the menu
      opens away from the screen edge the sidebar sits on. */
  function MenuCorners(side: SidebarSide): (corners: (Corner, Corner))
    ensures corners.0 != corners.1
    ensures corners.0 == (if side == SidebarSide.Left then TopLeft else TopRight)
  {
    match side
    case Left => (TopLeft, TopRight)
    case Right => (TopRight, TopLeft)
  }

  /** The tooltip of an active button, which closes the dock. */
  function CloseDockTooltip(p: DockPosition): string
  {
    "Close " + Label(p) + " Dock"
  }

  /** Whether a panel can be shown at all: it needs an icon and an icon
      tooltip. */
  predicate HasButton(panel: Panel)
  {
    panel.icon.Some? && panel.iconTooltip.Some?
  }

  /** The button of `panel`, hosted by a dock at `position` whose toggle
      action is `dockToggle` and whose focus handle is `focus`. A panel
      without an icon or without an icon tooltip has no button. An active
      button closes the dock; an inactive one toggles the panel. */
  function PanelButton(side: SidebarSide, panel: Panel, isActive: bool, position: DockPosition,
                       dockToggle: Action, focus: FocusHandle): (r: Option<Button>)
    ensures r.Some? <==> HasButton(panel)
    ensures r.Some? ==> r.value.name == panel.name && r.value.isActive == isActive
    ensures r.Some? ==> r.value.action == (if isActive then dockToggle else panel.toggleAction)
    ensures r.Some? ==> r.value.tooltip == (if isActive then CloseDockTooltip(position) else panel.iconTooltip.value)
    ensures r.Some? ==> r.value.focus == focus && r.value.menu == RelocateEntries(panel, position)
    ensures r.Some? ==> r.value.icon == panel.icon.value
    ensures r.Some? ==> (r.value.menuAnchor, r.value.menuAttach) == MenuCorners(side)
  {
    match panel.icon
    case None => None
    case Some(icon) =>
      match panel.iconTooltip
      case None => None
      case Some(iconTooltip) =>
        var (action, tooltip) :=
          if isActive then (dockToggle, CloseDockTooltip(position))
          else (panel.toggleAction, iconTooltip);
        var (anchor, attach) := MenuCorners(side);
        Some(Button(panel.name, icon, isActive, action, tooltip, focus,
                    RelocateEntries(panel, position), anchor, attach))
  }
}
