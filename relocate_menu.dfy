/** The right-click menu that offers to move a panel to another dock. */
module RelocateMenu {
  import opened SidebarTypes

  /** The positions the menu considers, in the order it lists them. */
  const Positions: seq<DockPosition> := [DockPosition.Left, DockPosition.Right, DockPosition.Bottom]

  /** Where a position stands in that order. */
  function Rank(p: DockPosition): (k: nat)
    ensures k < |Positions| && Positions[k] == p
  {
    match p
    case Left => 0
    case Right => 1
    case Bottom => 2
  }

  /** The entry that moves a panel to `p`. */
  function EntryFor(p: DockPosition): MenuEntry
  {
    MenuEntry("Dock " + Label(p), p)
  }

  /** Whether the menu of a panel docked at `current` offers `p`. */
  predicate Offers(panel: Panel, current: DockPosition, p: DockPosition)
  {
    p != current && PositionIsValid(panel, p)
  }

  /** The entries offered for the positions `ps`, in the order of `ps`. */
  function EntriesFor(panel: Panel, current: DockPosition, ps: seq<DockPosition>): seq<MenuEntry>
  {
    if ps == [] then []
    else
      var p := ps[|ps| - 1];
      EntriesFor(panel, current, ps[..|ps| - 1]) + (if Offers(panel, current, p) then [EntryFor(p)] else [])
  }

  /** The relocate menu of a panel docked at `current`. */
  function RelocateEntries(panel: Panel, current: DockPosition): seq<MenuEntry>
  {
    EntriesFor(panel, current, Positions)
  }

  /** Builds the relocate menu one position at a time, adding an entry for
      each position other than the current one that the panel accepts. */
  method BuildRelocateMenu(panel: Panel, current: DockPosition) returns (menu: seq<MenuEntry>)
    ensures menu == RelocateEntries(panel, current)
  {
    menu := [];
    for i := 0 to |Positions|
      invariant menu == EntriesFor(panel, current, Positions[..i])
    {
      var position := Positions[i];
      assert Positions[..i + 1][..i] == Positions[..i];
      if Offers(panel, current, position) {
        menu := menu + [EntryFor(position)];
      }
    }
    assert Positions[..|Positions|] == Positions;
  }

  /** Every entry offered for `ps` is the entry of one of `ps` that the
      panel accepts and that is not its current position. */
  lemma {:induction false} EntriesForSound(panel: Panel, current: DockPosition, ps: seq<DockPosition>)
    ensures |EntriesFor(panel, current, ps)| <= |ps|
    ensures forall e :: e in EntriesFor(panel, current, ps) ==>
              e == EntryFor(e.target) && e.target in ps && Offers(panel, current, e.target)
  {
    if ps != [] {
      EntriesForSound(panel, current, ps[..|ps| - 1]);
    }
  }

  /** Every position of `ps` the menu should offer does get an entry. */
  lemma {:induction false} EntriesForComplete(panel: Panel, current: DockPosition, ps: seq<DockPosition>, p: DockPosition)
    requires p in ps && Offers(panel, current, p)
    ensures EntryFor(p) in EntriesFor(panel, current, ps)
  {
    var init := ps[..|ps| - 1];
    if p != ps[|ps| - 1] {
      assert p in init by {
        var k :| 0 <= k < |ps| && ps[k] == p;
        assert init[k] == p;
      }
      EntriesForComplete(panel, current, init, p);
    }
  }

  /** Entries for a sequence of positions follow the order of that sequence
      when it has no repetitions. */
  lemma {:induction false} EntriesForOrdered(panel: Panel, current: DockPosition, ps: seq<DockPosition>)
    requires forall i, j :: 0 <= i < j < |ps| ==> Rank(ps[i]) < Rank(ps[j])
    ensures var r := EntriesFor(panel, current, ps);
      forall i, j :: 0 <= i < j < |r| ==> Rank(r[i].target) < Rank(r[j].target)
  {
    if ps != [] {
      var init := ps[..|ps| - 1];
      var last := ps[|ps| - 1];
      EntriesForOrdered(panel, current, init);
      EntriesForSound(panel, current, init);
      var prev := EntriesFor(panel, current, init);
      forall e | e in prev ensures Rank(e.target) < Rank(last) {
        var k :| 0 <= k < |init| && init[k] == e.target;
        assert ps[k] == e.target;
      }
      if Offers(panel, current, last) {
        var r := prev + [EntryFor(last)];
        assert EntriesFor(panel, current, ps) == r;
        forall i, j | 0 <= i < j < |r| ensures Rank(r[i].target) < Rank(r[j].target) {
          if j == |prev| {
            assert r[i] in prev;
          }
        }
      } else {
        assert EntriesFor(panel, current, ps) == prev;
      }
    }
  }

  /** The relocate menu offers exactly the positions other than the current
      one that the panel accepts, each once, in the order Left, Right,
      Bottom, each labelled "Dock <position>"; so it never offers the
      current position and is empty when no other position is valid. */
  lemma RelocateEntriesExact(panel: Panel, current: DockPosition)
    ensures var menu := RelocateEntries(panel, current);
      && (forall p :: EntryFor(p) in menu <==> Offers(panel, current, p))
      && (forall e :: e in menu ==> e.text == "Dock " + Label(e.target) && e.target != current)
      && (forall i, j :: 0 <= i < j < |menu| ==> Rank(menu[i].target) < Rank(menu[j].target))
  {
    EntriesForSound(panel, current, Positions);
    EntriesForOrdered(panel, current, Positions);
    forall p | Offers(panel, current, p) ensures EntryFor(p) in RelocateEntries(panel, current) {
      assert Positions[Rank(p)] == p;
      EntriesForComplete(panel, current, Positions, p);
    }
  }

  /** No entry's text names the panel's current position. */
  lemma NeverOffersCurrent(panel: Panel, current: DockPosition)
    ensures forall e :: e in RelocateEntries(panel, current) ==> e.text != "Dock " + Label(current)
  {
    RelocateEntriesExact(panel, current);
    forall e | e in RelocateEntries(panel, current) ensures e.text != "Dock " + Label(current) {
      LabelInjective(e.target, current);
      assert ("Dock " + Label(e.target))[5..] == Label(e.target);
    }
  }

  /** Choosing an entry of the relocate menu of a panel docked at `current`
      asks the panel to move to the entry's position: one it accepts, other
      than the one it occupies, and the one the entry's text names. */
  function SelectEffects(panel: Panel, current: DockPosition, entry: MenuEntry): (effects: seq<Effect>)
    requires entry in RelocateEntries(panel, current)
    ensures exists p :: effects == [SetPosition(panel.name, p)]
                        && p != current && PositionIsValid(panel, p) && entry.text == "Dock " + Label(p)
  {
    RelocateEntriesExact(panel, current);
    EntriesForSound(panel, current, Positions);
    assert Offers(panel, current, entry.target);
    [SetPosition(panel.name, entry.target)]
  }
}
