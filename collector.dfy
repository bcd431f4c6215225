/** Walks one dock's panels and sorts their buttons into the top and bottom
    groups. */
module Collector {
  import opened SidebarTypes
  import opened ButtonBuilder

  /** The button of the panel at index `i` is active when that panel is the
      dock's active panel and the dock is open. */
  predicate IsActiveButton(dock: Dock, i: nat): (active: bool)
    ensures active ==> dock.isOpen && dock.activeIndex.Some? && dock.activeIndex.value == i
    ensures !dock.isOpen || dock.activeIndex == None ==> !active
  {
    dock.activeIndex == Some(i) && dock.isOpen
  }

  /** The button, if any, of the panel at index `i` of `dock`. */
  function ButtonAt(side: SidebarSide, dock: Dock, i: nat): Option<Button>
    requires i < |dock.panels|
  {
    PanelButton(side, dock.panels[i], IsActiveButton(dock, i), dock.position, dock.toggleAction, dock.focus)
  }

  /** What a click on the button of the panel at index `i` does, in order:
      move focus to the dock, then dispatch the dock's toggle action when the
      button is active and the panel's own toggle action otherwise. */
  function ClickEffects(side: SidebarSide, dock: Dock, i: nat): (effects: seq<Effect>)
    requires i < |dock.panels| && HasButton(dock.panels[i])
    ensures effects == [Focus(dock.focus),
                        Dispatch(if IsActiveButton(dock, i) then dock.toggleAction else dock.panels[i].toggleAction)]
  {
    var button := ButtonAt(side, dock, i).value;
    [Focus(button.focus), Dispatch(button.action)]
  }

  /** The buttons collected into each group. */
  datatype Groups = Groups(top: seq<Button>, bottom: seq<Button>)

  /** The groups collected from the first `n` panels of `dock`: a panel on
      neither list, or without a button, adds nothing; otherwise its button
      goes to the top group when its name is on the top list and to the
      bottom group when it is only on the bottom list. */
  function Collected(side: SidebarSide, dock: Dock, topNames: seq<string>, bottomNames: seq<string>, n: nat): Groups
    requires n <= |dock.panels|
  {
    if n == 0 then Groups([], [])
    else
      var g := Collected(side, dock, topNames, bottomNames, n - 1);
      var name := dock.panels[n - 1].name;
      var showInTop := name in topNames;
      var showInBottom := name in bottomNames;
      if !showInTop && !showInBottom then g
      else
        match ButtonAt(side, dock, n - 1)
        case None => g
        case Some(button) =>
          if showInTop then Groups(g.top + [button], g.bottom)
          else Groups(g.top, g.bottom + [button])
  }

  /** The groups collected from the whole dock. */
  function CollectedFromDock(side: SidebarSide, dock: Dock, topNames: seq<string>, bottomNames: seq<string>): Groups
  {
    Collected(side, dock, topNames, bottomNames, |dock.panels|)
  }

  /** Buttons as children of a group. */
  function Elements(buttons: seq<Button>): seq<Element>
  {
    seq(|buttons|, k requires 0 <= k < |buttons| => ButtonElement(buttons[k]))
  }

  lemma ElementsAppend(buttons: seq<Button>, button: Button)
    ensures Elements(buttons + [button]) == Elements(buttons) + [ButtonElement(button)]
  {
  }

  /** Appends the buttons of `dock`'s panels, in stored order, to the
      accumulated top and bottom groups. */
  method CollectButtonsFromDock(side: SidebarSide, dock: Dock, topNames: seq<string>, bottomNames: seq<string>,
                                top: seq<Element>, bottom: seq<Element>)
    returns (top': seq<Element>, bottom': seq<Element>)
    ensures top' == top + Elements(CollectedFromDock(side, dock, topNames, bottomNames).top)
    ensures bottom' == bottom + Elements(CollectedFromDock(side, dock, topNames, bottomNames).bottom)
  {
    top', bottom' := top, bottom;
    for i := 0 to |dock.panels|
      invariant top' == top + Elements(Collected(side, dock, topNames, bottomNames, i).top)
      invariant bottom' == bottom + Elements(Collected(side, dock, topNames, bottomNames, i).bottom)
    {
      var panel := dock.panels[i];
      var name := panel.name;
      var isActiveButton := IsActiveButton(dock, i);
      var showInTop := name in topNames;
      var showInBottom := name in bottomNames;
      ghost var g := Collected(side, dock, topNames, bottomNames, i);
      if showInTop || showInBottom {
        var button := PanelButton(side, panel, isActiveButton, dock.position, dock.toggleAction, dock.focus);
        if button.Some? {
          if showInTop {
            ElementsAppend(g.top, button.value);
            top' := top' + [ButtonElement(button.value)];
          } else {
            ElementsAppend(g.bottom, button.value);
            bottom' := bottom' + [ButtonElement(button.value)];
          }
        }
      }
    }
  }

  /** With an empty bottom list nothing is collected into the bottom group. */
  lemma {:induction false} EmptyBottomListCollectsNothing(side: SidebarSide, dock: Dock, topNames: seq<string>, n: nat)
    requires n <= |dock.panels|
    ensures Collected(side, dock, topNames, [], n).bottom == []
  {
    if n > 0 {
      EmptyBottomListCollectsNothing(side, dock, topNames, n - 1);
    }
  }

  /** Whether a panel named `name` belongs in the top group (`toTop`) or in
      the bottom group (`!toTop`): the top list is consulted first. */
  predicate InGroup(name: string, topNames: seq<string>, bottomNames: seq<string>, toTop: bool)
  {
    if toTop then name in topNames else name !in topNames && name in bottomNames
  }

  /** Whether the panel at index `i` contributes a button to the group. */
  predicate Shows(dock: Dock, topNames: seq<string>, bottomNames: seq<string>, toTop: bool, i: nat)
    requires i < |dock.panels|
  {
    InGroup(dock.panels[i].name, topNames, bottomNames, toTop) && HasButton(dock.panels[i])
  }

  /** The indices, in increasing order, of the first `n` panels that
      contribute a button to the group. */
  function Indices(dock: Dock, topNames: seq<string>, bottomNames: seq<string>, toTop: bool, n: nat): seq<nat>
    requires n <= |dock.panels|
  {
    if n == 0 then []
    else
      Indices(dock, topNames, bottomNames, toTop, n - 1)
      + (if Shows(dock, topNames, bottomNames, toTop, n - 1) then [n - 1] else [])
  }

  /** A panel's index is listed iff the panel contributes to the group, and
      the indices increase strictly. */
  lemma {:induction false} IndicesExact(dock: Dock, topNames: seq<string>, bottomNames: seq<string>, toTop: bool, n: nat)
    requires n <= |dock.panels|
    ensures var idx := Indices(dock, topNames, bottomNames, toTop, n);
      && (forall i: nat :: i in idx <==> i < n && Shows(dock, topNames, bottomNames, toTop, i))
      && (forall j, k :: 0 <= j < k < |idx| ==> idx[j] < idx[k])
  {
    if n > 0 {
      IndicesExact(dock, topNames, bottomNames, toTop, n - 1);
      var prev := Indices(dock, topNames, bottomNames, toTop, n - 1);
      assert forall j :: 0 <= j < |prev| ==> prev[j] in prev;
    }
  }

  /** One of the two groups. */
  function GroupOf(g: Groups, toTop: bool): seq<Button>
  {
    if toTop then g.top else g.bottom
  }

  /** The group holds, in order, exactly the buttons of the panels whose
      indices `Indices` lists. */
  lemma {:induction false} CollectedExact(side: SidebarSide, dock: Dock, topNames: seq<string>, bottomNames: seq<string>,
                                          toTop: bool, n: nat)
    requires n <= |dock.panels|
    ensures var buttons := GroupOf(Collected(side, dock, topNames, bottomNames, n), toTop);
      var idx := Indices(dock, topNames, bottomNames, toTop, n);
      Traces(side, dock, buttons, idx)
  {
    if n > 0 {
      CollectedExact(side, dock, topNames, bottomNames, toTop, n - 1);
      CollectedStep(side, dock, topNames, bottomNames, toTop, n);
      if Shows(dock, topNames, bottomNames, toTop, n - 1) {
        TracesSnoc(side, dock, GroupOf(Collected(side, dock, topNames, bottomNames, n - 1), toTop),
                   Indices(dock, topNames, bottomNames, toTop, n - 1), n - 1);
      }
    }
  }

  /** Appending the button of panel `i` and its index keeps the trace. */
  lemma TracesSnoc(side: SidebarSide, dock: Dock, buttons: seq<Button>, origin: seq<nat>, i: nat)
    requires Traces(side, dock, buttons, origin)
    requires i < |dock.panels| && ButtonAt(side, dock, i).Some?
    ensures Traces(side, dock, buttons + [ButtonAt(side, dock, i).value], origin + [i])
  {
    assert Traces(side, dock, [ButtonAt(side, dock, i).value], [i]);
    TracesConcat(side, dock, buttons, origin, [ButtonAt(side, dock, i).value], [i]);
  }

  /** Panel `n - 1` adds its button to a group exactly when it shows there. */
  lemma CollectedStep(side: SidebarSide, dock: Dock, topNames: seq<string>, bottomNames: seq<string>,
                      toTop: bool, n: nat)
    requires 0 < n <= |dock.panels|
    ensures Shows(dock, topNames, bottomNames, toTop, n - 1) ==> ButtonAt(side, dock, n - 1).Some?
    ensures GroupOf(Collected(side, dock, topNames, bottomNames, n), toTop)
         == GroupOf(Collected(side, dock, topNames, bottomNames, n - 1), toTop)
            + (if Shows(dock, topNames, bottomNames, toTop, n - 1) then [ButtonAt(side, dock, n - 1).value] else [])
  {
  }

  /** Every button lands in exactly one group: top buttons carry a name on
      the top list, bottom buttons a name on the bottom list and not on the
      top list, so no panel name appears in both groups. */
  lemma GroupsClassified(side: SidebarSide, dock: Dock, topNames: seq<string>, bottomNames: seq<string>)
    ensures var g := CollectedFromDock(side, dock, topNames, bottomNames);
      && (forall b :: b in g.top ==> b.name in topNames)
      && (forall b :: b in g.bottom ==> b.name in bottomNames && b.name !in topNames)
  {
    var n := |dock.panels|;
    var g := CollectedFromDock(side, dock, topNames, bottomNames);
    forall toTop: bool ensures forall b :: b in GroupOf(g, toTop) ==> InGroup(b.name, topNames, bottomNames, toTop) {
      CollectedExact(side, dock, topNames, bottomNames, toTop, n);
      IndicesExact(dock, topNames, bottomNames, toTop, n);
      var buttons := GroupOf(g, toTop);
      var idx := Indices(dock, topNames, bottomNames, toTop, n);
      forall b | b in buttons ensures InGroup(b.name, topNames, bottomNames, toTop) {
        var k :| 0 <= k < |buttons| && buttons[k] == b;
        assert idx[k] in idx;
      }
    }
    assert GroupOf(g, true) == g.top && GroupOf(g, false) == g.bottom;
  }

  /** `buttons[k]` is the button of the panel at index `origin[k]`. */
  predicate Traces(side: SidebarSide, dock: Dock, buttons: seq<Button>, origin: seq<nat>)
  {
    && |buttons| == |origin|
    && (forall k :: 0 <= k < |origin| ==> origin[k] < |dock.panels| && ButtonAt(side, dock, origin[k]) == Some(buttons[k]))
  }

  lemma TracesConcat(side: SidebarSide, dock: Dock, b1: seq<Button>, o1: seq<nat>, b2: seq<Button>, o2: seq<nat>)
    requires Traces(side, dock, b1, o1) && Traces(side, dock, b2, o2)
    ensures Traces(side, dock, b1 + b2, o1 + o2)
  {
  }

  /** Two strictly increasing index sequences with no index in common
      concatenate to one without repetitions. */
  lemma ConcatDistinct(o1: seq<nat>, o2: seq<nat>)
    requires forall j, k :: 0 <= j < k < |o1| ==> o1[j] < o1[k]
    requires forall j, k :: 0 <= j < k < |o2| ==> o2[j] < o2[k]
    requires forall i :: i in o1 ==> i !in o2
    ensures forall j, k :: 0 <= j < k < |o1 + o2| ==> (o1 + o2)[j] != (o1 + o2)[k]
  {
    var o := o1 + o2;
    forall j, k | 0 <= j < k < |o| ensures o[j] != o[k] {
      if j < |o1| && k >= |o1| {
        assert o[j] == o1[j] && o1[j] in o1;
        assert o[k] == o2[k - |o1|] && o2[k - |o1|] in o2;
      } else if j >= |o1| {
        assert o[j] == o2[j - |o1|] && o[k] == o2[k - |o1|];
      }
    }
  }

  /** The panel each collected button comes from: distinct buttons come
      from distinct panels, and every panel that contributes is among them. */
  lemma Origins(side: SidebarSide, dock: Dock, topNames: seq<string>, bottomNames: seq<string>)
    returns (origin: seq<nat>)
    ensures var g := CollectedFromDock(side, dock, topNames, bottomNames);
      && Traces(side, dock, g.top + g.bottom, origin)
      && (forall j, k :: 0 <= j < k < |origin| ==> origin[j] != origin[k])
      && (forall a: nat ::
            a < |dock.panels| && (Shows(dock, topNames, bottomNames, true, a) || Shows(dock, topNames, bottomNames, false, a))
            ==> a in origin)
  {
    var n := |dock.panels|;
    var g := CollectedFromDock(side, dock, topNames, bottomNames);
    CollectedExact(side, dock, topNames, bottomNames, true, n);
    CollectedExact(side, dock, topNames, bottomNames, false, n);
    IndicesExact(dock, topNames, bottomNames, true, n);
    IndicesExact(dock, topNames, bottomNames, false, n);
    var topIdx := Indices(dock, topNames, bottomNames, true, n);
    var bottomIdx := Indices(dock, topNames, bottomNames, false, n);
    assert GroupOf(g, true) == g.top && GroupOf(g, false) == g.bottom;
    TracesConcat(side, dock, g.top, topIdx, g.bottom, bottomIdx);
    ConcatDistinct(topIdx, bottomIdx);
    origin := topIdx + bottomIdx;
  }

  /** At most one collected button is active, only an open dock has one,
      and the dock's active panel, when it is shown at all, shows as the
      active button. */
  lemma ActiveButtonUnique(side: SidebarSide, dock: Dock, topNames: seq<string>, bottomNames: seq<string>)
    ensures var g := CollectedFromDock(side, dock, topNames, bottomNames);
      var all := g.top + g.bottom;
      && (forall b :: b in all && b.isActive ==> dock.isOpen)
      && (forall j, k :: 0 <= j < k < |all| && all[j].isActive ==> !all[k].isActive)
      && (forall a: nat :: dock.isOpen && dock.activeIndex == Some(a) && a < |dock.panels|
            && (Shows(dock, topNames, bottomNames, true, a) || Shows(dock, topNames, bottomNames, false, a))
            ==> ButtonAt(side, dock, a).value in all && ButtonAt(side, dock, a).value.isActive)
  {
    var g := CollectedFromDock(side, dock, topNames, bottomNames);
    var all := g.top + g.bottom;
    var origin := Origins(side, dock, topNames, bottomNames);
    forall k | 0 <= k < |all| ensures all[k].isActive <==> IsActiveButton(dock, origin[k]) {
    }
    forall b | b in all && b.isActive ensures dock.isOpen {
      var k :| 0 <= k < |all| && all[k] == b;
    }
    forall a: nat | dock.isOpen && dock.activeIndex == Some(a) && a < |dock.panels|
        && (Shows(dock, topNames, bottomNames, true, a) || Shows(dock, topNames, bottomNames, false, a))
      ensures ButtonAt(side, dock, a).value in all && ButtonAt(side, dock, a).value.isActive
    {
      var k :| 0 <= k < |origin| && origin[k] == a;
      assert all[k] in all && all[k].isActive;
    }
  }
}
