/** The sidebar widget: holds its side, handles to the three docks and the
    injected bottom items, and assembles the two groups on each render. */
module Composer {
  import opened SidebarTypes
  import opened Classifier
  import opened Collector

  /** A shared handle to a dock whose state other components change between
      renders; the sidebar only reads it. */
  class DockEntity {
    var state: Dock

    constructor(state: Dock)
      ensures this.state == state
    {
      this.state := state;
    }
  }

  /** Injected views as children of the bottom group. */
  function Extras(items: seq<View>): seq<Element>
  {
    seq(|items|, k requires 0 <= k < |items| => ViewElement(items[k]))
  }

  /** The layout a sidebar on `side` renders for the given dock states and
      injected items. */
  function Compose(side: SidebarSide, left: Dock, bottom: Dock, right: Dock, items: seq<View>): Layout
  {
    var topNames := TopPanelNames(side);
    var bottomNames := BottomPanelNames(side);
    var l := CollectedFromDock(side, left, topNames, bottomNames);
    var b := CollectedFromDock(side, bottom, topNames, bottomNames);
    var r := CollectedFromDock(side, right, topNames, bottomNames);
    var top := Elements(l.top) + Elements(b.top) + Elements(r.top);
    var bot := Elements(l.bottom) + Elements(b.bottom) + Elements(r.bottom) + Extras(items);
    Layout(top, top != [] && bot != [], bot)
  }

  class SidebarButtons {
    const side: SidebarSide
    const leftDock: DockEntity
    const bottomDock: DockEntity
    const rightDock: DockEntity
    var bottomItems: seq<View>

    constructor(side: SidebarSide, leftDock: DockEntity, bottomDock: DockEntity, rightDock: DockEntity)
      ensures this.side == side && this.leftDock == leftDock
      ensures this.bottomDock == bottomDock && this.rightDock == rightDock
      ensures bottomItems == []
    {
      this.side := side;
      this.leftDock := leftDock;
      this.bottomDock := bottomDock;
      this.rightDock := rightDock;
      bottomItems := [];
    }

    /** Appends an item to the bottom group; items are never removed. */
    method AddBottomItem(item: View)
      modifies this`bottomItems
      ensures bottomItems == old(bottomItems) + [item]
    {
      bottomItems := bottomItems + [item];
    }

    /** Collects the buttons of the left, bottom and right docks, in that
        order, appends the injected items to the bottom group and adds a
        divider when both groups have children. */
    method Render() returns (layout: Layout)
      ensures layout == Compose(side, leftDock.state, bottomDock.state, rightDock.state, bottomItems)
    {
      var topNames := TopPanelNames(side);
      var bottomNames := BottomPanelNames(side);
      var topButtons: seq<Element> := [];
      var bottomButtons: seq<Element> := [];
      topButtons, bottomButtons := CollectButtonsFromDock(side, leftDock.state, topNames, bottomNames, topButtons, bottomButtons);
      topButtons, bottomButtons := CollectButtonsFromDock(side, bottomDock.state, topNames, bottomNames, topButtons, bottomButtons);
      topButtons, bottomButtons := CollectButtonsFromDock(side, rightDock.state, topNames, bottomNames, topButtons, bottomButtons);
      ghost var fromDocks := bottomButtons;
      for i := 0 to |bottomItems|
        invariant bottomButtons == fromDocks + Extras(bottomItems[..i])
      {
        assert bottomItems[..i + 1] == bottomItems[..i] + [bottomItems[i]];
        bottomButtons := bottomButtons + [ViewElement(bottomItems[i])];
      }
      assert bottomItems[..|bottomItems|] == bottomItems;
      var hasTopButtons := topButtons != [];
      var hasBottomButtons := bottomButtons != [];
      layout := Layout(topButtons, hasTopButtons && hasBottomButtons, bottomButtons);
    }
  }

  /** Every child of the top group is a panel button whose name is on the
      side's top list; every panel button of the bottom group has a name on
      the side's bottom list, so no panel appears in both groups. */
  lemma ComposeGroupsClassified(side: SidebarSide, left: Dock, bottom: Dock, right: Dock, items: seq<View>)
    ensures var layout := Compose(side, left, bottom, right, items);
      && (forall e :: e in layout.top ==> e.ButtonElement? && e.button.name in TopPanelNames(side))
      && (forall e :: e in layout.bottom && e.ButtonElement? ==>
            e.button.name in BottomPanelNames(side) && e.button.name !in TopPanelNames(side))
  {
    var topNames := TopPanelNames(side);
    var bottomNames := BottomPanelNames(side);
    var l := CollectedFromDock(side, left, topNames, bottomNames);
    var b := CollectedFromDock(side, bottom, topNames, bottomNames);
    var r := CollectedFromDock(side, right, topNames, bottomNames);
    GroupsClassified(side, left, topNames, bottomNames);
    GroupsClassified(side, bottom, topNames, bottomNames);
    GroupsClassified(side, right, topNames, bottomNames);
    var buttons := l.top + b.top + r.top;
    assert Elements(l.top) + Elements(b.top) + Elements(r.top) == Elements(buttons);
    var bottoms := l.bottom + b.bottom + r.bottom;
    assert Elements(l.bottom) + Elements(b.bottom) + Elements(r.bottom) == Elements(bottoms);
    assert forall k :: 0 <= k < |buttons| ==> buttons[k] in buttons;
    assert forall k :: 0 <= k < |bottoms| ==> bottoms[k] in bottoms;
  }

  /** The injected items close the bottom group, in insertion order, after
      every panel button. */
  lemma ComposeExtrasLast(side: SidebarSide, left: Dock, bottom: Dock, right: Dock, items: seq<View>)
    ensures var layout := Compose(side, left, bottom, right, items);
      var cut := |layout.bottom| - |items|;
      && 0 <= cut
      && (forall k :: 0 <= k < |items| ==> layout.bottom[cut + k] == ViewElement(items[k]))
      && (forall k :: 0 <= k < cut ==> layout.bottom[k].ButtonElement?)
  {
    var topNames := TopPanelNames(side);
    var bottomNames := BottomPanelNames(side);
    var l := CollectedFromDock(side, left, topNames, bottomNames);
    var b := CollectedFromDock(side, bottom, topNames, bottomNames);
    var r := CollectedFromDock(side, right, topNames, bottomNames);
    var buttons := l.bottom + b.bottom + r.bottom;
    assert Elements(l.bottom) + Elements(b.bottom) + Elements(r.bottom) == Elements(buttons);
    assert Compose(side, left, bottom, right, items).bottom == Elements(buttons) + Extras(items);
  }

  /** The divider shows exactly when both groups have children; with any
      injected item that is exactly when the top group has a button. */
  lemma ComposeDivider(side: SidebarSide, left: Dock, bottom: Dock, right: Dock, items: seq<View>)
    ensures var layout := Compose(side, left, bottom, right, items);
      && (layout.divider <==> |layout.top| > 0 && |layout.bottom| > 0)
      && (items != [] ==> (layout.divider <==> |layout.top| > 0))
  {
  }

  /** A right sidebar has an empty bottom list, so its bottom group holds
      only the injected items. */
  lemma RightBottomIsExtras(left: Dock, bottom: Dock, right: Dock, items: seq<View>)
    ensures Compose(SidebarSide.Right, left, bottom, right, items).bottom == Extras(items)
  {
    var side := SidebarSide.Right;
    var topNames := TopPanelNames(side);
    assert BottomPanelNames(side) == [];
    EmptyBottomListCollectsNothing(side, left, topNames, |left.panels|);
    EmptyBottomListCollectsNothing(side, bottom, topNames, |bottom.panels|);
    EmptyBottomListCollectsNothing(side, right, topNames, |right.panels|);
    assert Elements([]) == [];
  }
}
