/** Concrete sidebars and the layouts they render. */
module Scenarios {
  import opened SidebarTypes
  import opened ButtonBuilder
  import opened Classifier
  import opened Collector
  import opened Composer

  function NamedPanel(name: string): Panel
  {
    Panel(name, Some(name + " icon"), Some(name), {DockPosition.Left, DockPosition.Right, DockPosition.Bottom},
          Action("toggle " + name))
  }

  const LeftToggle := Action("toggle left dock")

  const ScenarioLeft := Dock(DockPosition.Left, true, Some(0), LeftToggle, FocusHandle(0),
                             [NamedPanel("Project Panel"), NamedPanel("Outline Panel")])
  const ScenarioBottom := Dock(DockPosition.Bottom, false, Some(0), Action("toggle bottom dock"), FocusHandle(1),
                               [NamedPanel("TerminalPanel")])
  const ScenarioRight := Dock(DockPosition.Right, true, Some(0), Action("toggle right dock"), FocusHandle(2),
                              [NamedPanel("AgentPanel")])

  /** The layout of the scenario below, button by button. */
  lemma LeftSidebarLayout()
    ensures Compose(SidebarSide.Left, ScenarioLeft, ScenarioBottom, ScenarioRight, [])
         == Layout([ButtonElement(ButtonAt(SidebarSide.Left, ScenarioLeft, 0).value),
                    ButtonElement(ButtonAt(SidebarSide.Left, ScenarioLeft, 1).value)],
                   true,
                   [ButtonElement(ButtonAt(SidebarSide.Left, ScenarioBottom, 0).value)])
  {
    var side := SidebarSide.Left;
    var topNames, bottomNames := TopPanelNames(side), BottomPanelNames(side);
    var project := ButtonAt(side, ScenarioLeft, 0).value;
    var outline := ButtonAt(side, ScenarioLeft, 1).value;
    var terminal := ButtonAt(side, ScenarioBottom, 0).value;
    assert Collected(side, ScenarioLeft, topNames, bottomNames, 1) == Groups([project], []);
    assert CollectedFromDock(side, ScenarioLeft, topNames, bottomNames) == Groups([project, outline], []);
    assert "TerminalPanel" !in topNames && "TerminalPanel" in bottomNames;
    assert Collected(side, ScenarioBottom, topNames, bottomNames, 0) == Groups([], []);
    assert CollectedFromDock(side, ScenarioBottom, topNames, bottomNames) == Groups([], [terminal]);
    assert "AgentPanel" !in topNames && "AgentPanel" !in bottomNames;
    assert Collected(side, ScenarioRight, topNames, bottomNames, 0) == Groups([], []);
    assert CollectedFromDock(side, ScenarioRight, topNames, bottomNames) == Groups([], []);
    assert Elements([project, outline]) == [ButtonElement(project), ButtonElement(outline)];
    assert Elements([terminal]) == [ButtonElement(terminal)];
  }

  /** A left sidebar with the project panel active in an open left dock, the
      outline panel beside it, the terminal in the closed bottom dock and the
      agent panel in the right dock: the two left-dock panels fill the top
      group, the active one closing the dock, the terminal fills the bottom
      group, the agent panel belongs to the other sidebar, and a divider
      shows. */
  lemma LeftSidebarScenario()
    ensures var layout := Compose(SidebarSide.Left, ScenarioLeft, ScenarioBottom, ScenarioRight, []);
      && |layout.top| == 2 && |layout.bottom| == 1 && layout.divider
      && layout.top[0].ButtonElement? && layout.top[1].ButtonElement? && layout.bottom[0].ButtonElement?
      && var project, outline, terminal := layout.top[0].button, layout.top[1].button, layout.bottom[0].button;
      && project.name == "Project Panel" && project.isActive
      && project.action == LeftToggle && project.tooltip == "Close Left Dock"
      && outline.name == "Outline Panel" && !outline.isActive
      && outline.action == Action("toggle Outline Panel") && outline.tooltip == "Outline Panel"
      && terminal.name == "TerminalPanel" && !terminal.isActive
  {
    LeftSidebarLayout();
    ScenarioButtons();
  }

  /** The three buttons of the scenario above. */
  lemma ScenarioButtons()
    ensures var project := ButtonAt(SidebarSide.Left, ScenarioLeft, 0);
      project.Some? && project.value.name == "Project Panel" && project.value.isActive
      && project.value.action == LeftToggle && project.value.tooltip == "Close Left Dock"
    ensures var outline := ButtonAt(SidebarSide.Left, ScenarioLeft, 1);
      outline.Some? && outline.value.name == "Outline Panel" && !outline.value.isActive
      && outline.value.action == Action("toggle Outline Panel") && outline.value.tooltip == "Outline Panel"
    ensures var terminal := ButtonAt(SidebarSide.Left, ScenarioBottom, 0);
      terminal.Some? && terminal.value.name == "TerminalPanel" && !terminal.value.isActive
  {
    assert IsActiveButton(ScenarioLeft, 0) && HasButton(ScenarioLeft.panels[0]);
    assert CloseDockTooltip(DockPosition.Left) == "Close Left Dock";
    assert !IsActiveButton(ScenarioLeft, 1) && HasButton(ScenarioLeft.panels[1]);
    assert !IsActiveButton(ScenarioBottom, 0) && HasButton(ScenarioBottom.panels[0]);
  }

  /** A right sidebar over empty docks with no injected items renders no
      button and no divider. */
  lemma EmptyRightSidebarScenario()
    ensures var left := Dock(DockPosition.Left, true, None, Action("toggle left dock"), FocusHandle(0), []);
      var bottom := Dock(DockPosition.Bottom, true, None, Action("toggle bottom dock"), FocusHandle(1), []);
      var right := Dock(DockPosition.Right, true, None, Action("toggle right dock"), FocusHandle(2), []);
      var layout := Compose(SidebarSide.Right, left, bottom, right, []);
      layout.top == [] && layout.bottom == [] && !layout.divider
  {
  }
}
