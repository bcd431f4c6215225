/** The plain records the sidebar reads from its collaborators (docks and
    panels) and the values it produces (buttons, menu entries, layout). */
module SidebarTypes {

  datatype Option<T> = None | Some(value: T)

  /** Which screen edge a sidebar renders for. */
  datatype SidebarSide = Left | Right

  /** The region a dock (and so each of its panels) occupies. */
  datatype DockPosition = Left | Right | Bottom

  /** The text a dock position shows in menus and tooltips. */
  function Label(p: DockPosition): (s: string)
    ensures |s| > 0
  {
    match p
    case Left => "Left"
    case Bottom => "Bottom"
    case Right => "Right"
  }

  /** Distinct positions have distinct labels, so a label names one position. */
  lemma LabelInjective(p: DockPosition, q: DockPosition)
    ensures Label(p) == Label(q) <==> p == q
  {
  }

  /** An action that can be dispatched on the host's action bus. */
  datatype Action = Action(id: string)

  /** The focus target of a dock. */
  datatype FocusHandle = FocusHandle(id: nat)

  /** The fields of a panel this widget reads: its persistent name, its
      optional icon and icon tooltip, the positions it may move to and the
      action that toggles it. */
  datatype Panel = Panel(
    name: string,
    icon: Option<string>,
    iconTooltip: Option<string>,
    validPositions: set<DockPosition>,
    toggleAction: Action)

  predicate PositionIsValid(panel: Panel, p: DockPosition)
  {
    p in panel.validPositions
  }

  /** The state of a dock as read during one render. */
  datatype Dock = Dock(
    position: DockPosition,
    isOpen: bool,
    activeIndex: Option<nat>,
    toggleAction: Action,
    focus: FocusHandle,
    panels: seq<Panel>)

  /** Corners of a context menu's anchor and attachment point. */
  datatype Corner = TopLeft | TopRight

  /** One entry of a panel's relocate menu: its text and the position that
      selecting it moves the panel to. */
  datatype MenuEntry = MenuEntry(text: string, target: DockPosition)

  /** What the host observes when the user interacts with a button. */
  datatype Effect =
    | Focus(handle: FocusHandle)
    | Dispatch(action: Action)
    | SetPosition(panel: string, position: DockPosition)

  /** A panel's launcher button with its right-click relocate menu. */
  datatype Button = Button(
    name: string,
    icon: string,
    isActive: bool,
    action: Action,
    tooltip: string,
    focus: FocusHandle,
    menu: seq<MenuEntry>,
    menuAnchor: Corner,
    menuAttach: Corner)

  /** An externally injected view, appended to the bottom group. */
  datatype View = View(id: nat)

  /** A child of one of the two groups. */
  datatype Element = ButtonElement(button: Button) | ViewElement(view: View)

  /** The rendered sidebar: the top group, whether a divider separates the
      groups, and the bottom group. */
  datatype Layout = Layout(top: seq<Element>, divider: bool, bottom: seq<Element>)
}
