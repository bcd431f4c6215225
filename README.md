# Sidebar buttons of the workspace, modelled in Dafny

The workspace shows, on each side of the window, a column of launcher
buttons for the panels hosted in its three docks (left, bottom, right).
`SidebarButtons` decides which panels get a button (by a static allow-list
of persistent names per side), whether a button goes to the top or the
bottom group, whether it is active (its panel is the open dock's active
panel), what a click does (close the dock, or toggle the panel), which
positions its right-click menu offers for relocating the panel, and
whether a divider separates the two groups. Extra views can be injected at
the end of the bottom group.

The model keeps that decision logic and drops the UI toolkit:

- `types.dfy` (`SidebarTypes`): panels and docks as the plain records the
  widget reads, and buttons, menu entries, effects and the layout as
  values.
- `classifier.dfy` (`Classifier`): the top and bottom name lists per side.
- `relocate_menu.dfy` (`RelocateMenu`): the relocate menu, as a loop
  (`BuildRelocateMenu`) proved equal to a specification function.
- `button_builder.dfy` (`ButtonBuilder`): the button of one panel.
- `collector.dfy` (`Collector`): the walk over one dock's panels,
  appending to the two accumulated groups. It is a loop, proved against
  `Collected`, and the lemmas characterise `Collected` index by index.
- `composer.dfy` (`Composer`): the `SidebarButtons` class (its side, handles
  to the three docks, the injected items), `AddBottomItem` and `Render`, and
  lemmas about the composed layout.
- `scenarios.dfy` (`Scenarios`): two concrete sidebars and the layouts they
  render.

A dock is a shared entity that other components change between renders.
It is modelled as a class `DockEntity` holding the current `Dock` record,
and `Render` is proved to produce `Compose` of the docks' current states.

The persistent names of the project and outline panels, `"Project Panel"`
and `"Outline Panel"`, contain a space.

## Model

| member | source | states |
|---|---|---|
| `Classifier.TopPanelNames` | crates/workspace/src/sidebar.rs:57-62 | every side has a non-empty top list, without repeated names |
| `Classifier.BottomPanelNames` | crates/workspace/src/sidebar.rs:64-69 | the bottom list is empty exactly for the right side, and has no repeated names |
| `Classifier.NameListsDisjoint` | crates/workspace/src/sidebar.rs:57-69 | no persistent name is on both the top and the bottom list of a side |
| `Classifier.ListedOnOneSide` | crates/workspace/src/sidebar.rs:57-69 | a name listed for the left sidebar is not listed for the right one, so a panel gets a button in at most one sidebar |
| `SidebarTypes.LabelInjective` | crates/workspace/src/sidebar.rs:116 | distinct dock positions have distinct labels |
| `RelocateMenu.BuildRelocateMenu` | crates/workspace/src/sidebar.rs:103-125 | the loop over Left, Right, Bottom produces exactly `RelocateEntries(panel, current)` |
| `RelocateMenu.EntriesForSound` | crates/workspace/src/sidebar.rs:110-122 | every entry is "Dock <label>" for a position of the list that differs from the current one and that the panel accepts; no more entries than positions considered |
| `RelocateMenu.EntriesForComplete` | crates/workspace/src/sidebar.rs:110-122 | every considered position that differs from the current one and that the panel accepts gets its entry |
| `RelocateMenu.EntriesForOrdered` | crates/workspace/src/sidebar.rs:103-122 | entries follow the order of the positions considered |
| `RelocateMenu.RelocateEntriesExact` | crates/workspace/src/sidebar.rs:103-123 | the menu offers `p` iff `p` is not the current position and `position_is_valid(p)`; each entry is labelled "Dock <label>"; entries are in the order Left, Right, Bottom with no repetition |
| `RelocateMenu.NeverOffersCurrent` | crates/workspace/src/sidebar.rs:111-116 | no entry's text names the panel's current position |
| `ButtonBuilder.MenuCorners` | crates/workspace/src/sidebar.rs:95-98 | the menu anchors at the sidebar's own top corner and attaches at the opposite one |
| `ButtonBuilder.PanelButton` | crates/workspace/src/sidebar.rs:81-130 | a button exists iff the panel has both an icon and an icon tooltip; it shows the panel's icon; an active button carries the dock's toggle action and "Close <label> Dock", an inactive one the panel's toggle action and its icon tooltip; its menu is the relocate menu for the dock's position, anchored at the sidebar's own top corner |
| `RelocateMenu.SelectEffects` | crates/workspace/src/sidebar.rs:110-121 | choosing any entry of the menu has the single effect of moving the panel to a position it accepts other than its current one, the one the entry's text names |
| `Collector.IsActiveButton` | crates/workspace/src/sidebar.rs:171 | a button is active only if its dock is open and its index is the dock's active index; a closed dock, or one without an active panel, has no active button |
| `Collector.ClickEffects` | crates/workspace/src/sidebar.rs:86-140 | a click first focuses the dock, then dispatches the dock's toggle when the button is active and the panel's toggle otherwise |
| `Collector.CollectButtonsFromDock` | crates/workspace/src/sidebar.rs:152-196 | appends, in panel order, the dock's top buttons to the top accumulator and its bottom buttons to the bottom accumulator, leaving what was accumulated before in place |
| `Collector.IndicesExact` | crates/workspace/src/sidebar.rs:169-194 | a panel index is selected for a group iff its name routes to that group (top list first) and it has icon and tooltip; selected indices strictly increase |
| `Collector.CollectedExact` | crates/workspace/src/sidebar.rs:169-194 | each group is exactly the buttons of its selected panel indices, one per index, in increasing index order; a panel on neither list or without icon or tooltip adds nothing |
| `Collector.GroupsClassified` | crates/workspace/src/sidebar.rs:173-193 | top buttons have names on the top list; bottom buttons have names on the bottom list and not on the top list |
| `Collector.EmptyBottomListCollectsNothing` | crates/workspace/src/sidebar.rs:173-193 | with an empty bottom list the bottom group of a dock is empty |
| `Collector.Origins` | crates/workspace/src/sidebar.rs:169-194 | the buttons of both groups come from pairwise distinct panels, and every panel that qualifies for a group contributes one |
| `Collector.ActiveButtonUnique` | crates/workspace/src/sidebar.rs:171 | at most one button of a dock is active, only when the dock is open, and the button of the active panel of an open dock, when the panel is shown, is in the groups and is active |
| `Composer.SidebarButtons.constructor` | crates/workspace/src/sidebar.rs:29-50 | a new sidebar keeps its side and dock handles and has no injected items |
| `Composer.SidebarButtons.AddBottomItem` | crates/workspace/src/sidebar.rs:52-55 | appends the item to the injected items and changes nothing else |
| `Composer.SidebarButtons.Render` | crates/workspace/src/sidebar.rs:199-257 | the layout is the collection over the left, bottom and right docks' current states in that order, followed in the bottom group by the injected items, with a divider iff both groups are non-empty |
| `Composer.ComposeGroupsClassified` | crates/workspace/src/sidebar.rs:201-237 | the top group holds only buttons named on the side's top list; bottom-group buttons are named on the bottom list and not on the top list |
| `Composer.ComposeExtrasLast` | crates/workspace/src/sidebar.rs:239-241 | the injected items end the bottom group in insertion order, after every panel button |
| `Composer.ComposeDivider` | crates/workspace/src/sidebar.rs:243-255 | the divider shows iff both groups are non-empty; with an injected item, iff the top group is non-empty |
| `Composer.RightBottomIsExtras` | crates/workspace/src/sidebar.rs:64-69 | a right sidebar's bottom group is exactly its injected items |
| `Scenarios.LeftSidebarScenario` | crates/workspace/src/sidebar.rs:199-257 | left sidebar with Project (active, open dock) and Outline panels left, Terminal bottom, Agent right: top group Project (closes the left dock, "Close Left Dock") then Outline (panel toggle), bottom group Terminal, divider shown |
| `Scenarios.EmptyRightSidebarScenario` | crates/workspace/src/sidebar.rs:199-257 | a right sidebar over empty docks without injected items has no buttons and no divider |

## Left out

- Element construction and styling (`v_flex`, gaps, padding, `IconButton`, `IconSize`, the divider's colour): toolkit code with no decision in it besides the divider condition, which is modelled.
- The subscriptions to the three docks and the settings store, and `cx.notify()`: they only schedule a re-render. Each `Render` recomputes everything from the docks' current state.
- The tooltip is attached only while the right-click menu is closed, and it shows the action's key binding. The menu's open state belongs to the toolkit's menu trigger, so the model keeps only the tooltip text.
- The button's element id `(name, is_active_button)`, which is used only for diffing.
- `window.focus` and `dispatch_action` are foreign calls. A click is recorded as the ordered effect list `ClickEffects`, and choosing a menu entry as `SelectEffects` (the call to `set_position`).
- The source builds the relocate menu lazily, when it is opened, and `position_is_valid` is asked at that moment. The model computes the entries at render time from the panel's set of valid positions.
- `DockPosition::label` is defined in `crates/workspace/src/dock.rs`, which is not part of this model. Its labels are taken to be "Left", "Bottom" and "Right".
- Icons are modelled as names. Icon loading, `Arc`/trait-object mechanics and the internals of `Dock` and `PanelHandle` are not modelled: only the fields the widget reads are.
