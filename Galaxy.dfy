/**
 * The turn-based state of the galaxy screen: 100 sectors holding ships, the
 * order the player is loading, the committed orders waiting for the next turn,
 * the reports of the last turn, and the Quadrant screen's view settings.
 */
module Galaxy {
  import opened Maybe
  import opened Coordinates
  import opened Text
  import opened Orders

  datatype Owner = Unowned | Player | Computer

  datatype Sector = Sector(name: string, owner: Owner, ships: nat)

  /** The top-level screens. */
  datatype Screen = Quadrant | Intel | WarRoom | Treasury

  /** The two overlays of the quadrant map. */
  datatype MapType = Normal | Owners

  /** The star date 47501.4, counted in tenths. */
  const InitialStarDate: nat := 475014

  const SectorNames: seq<string> := [
    "Seppius", "Orcivius", "Tuccius", "Sicinius", "Placidius", "Poppaeus", "Pacilius",
    "Terentilius", "Aquinius", "Bantius", "Apronius", "Manlius", "Icilius", "Matius",
    "Proculeius", "Petillius", "Saenius", "Atrius", "Gavius", "Servaeus", "Arellius",
    "Thorius", "Gratidius", "Hirrius", "Rufinius", "Laenius", "Hirtuleius", "Scuilius",
    "Numisius", "Oppidius", "Tarpeius", "Helvidius", "Avianus", "Herennius", "Papius",
    "Crassitius", "Sabinius", "Bruttius", "Abronius", "Pedanius", "Faenius", "Pleminius",
    "Arminius", "Norbanus", "Pontilius", "Didius", "Lepidius", "Hirtius", "Lafrenius",
    "Aebutius", "Decimius", "Sosius", "Tarquinius", "Mallius", "Visellius", "Cordius",
    "Seccius", "Caerellius", "Dellius", "Naevius", "Falcidius", "Orbilius", "Genucius",
    "Sepunius", "Percennius", "Sentius", "Coelius", "Duronius", "Novellius", "Gratius",
    "Furnius", "Statius", "Popaedius", "Condetius", "Junius", "Betucius", "Papirius",
    "Socellius", "Ofanius", "Menius", "Caecius", "Vitrasius", "Pompilius", "Fulginas",
    "Ampius", "Juventius", "Sabucius", "Postumulenus", "Pollius", "Atius", "Caesius",
    "Quartinius", "Herennuleius", "Hortensius", "Gabinius", "Ceionius", "Bellius", "Pomptinus",
    "Mamercius", "Memmius"
  ]

  /** The overlay the map switches to. */
  function NextMapType(m: MapType): (r: MapType)
    ensures r != m
  {
    if m == Normal then Owners else Normal
  }

  /** Switching the overlay twice gives back the one shown before. */
  lemma NextMapTypeTwice(m: MapType)
    ensures NextMapType(NextMapType(m)) == m
  {
  }

  /** The ships standing in a run of sectors. */
  function SumShips(s: seq<Sector>): nat
  {
    if s == [] then 0 else SumShips(s[..|s| - 1]) + s[|s| - 1].ships
  }

  /** Replacing one sector changes the sum by the difference of the two ship counts. */
  lemma {:induction false} SumShipsUpdate(s: seq<Sector>, i: nat, x: Sector)
    requires i < |s|
    ensures SumShips(s[i := x]) + s[i].ships == SumShips(s) + x.ships
    decreases |s|
  {
    var n := |s| - 1;
    if i < n {
      assert s[i := x][..n] == s[..n][i := x];
      SumShipsUpdate(s[..n], i, x);
    } else {
      assert s[i := x][..n] == s[..n];
    }
  }

  /** The ships carried by a list of orders. */
  function OrderShips(os: seq<Order>): nat
  {
    if os == [] then 0 else OrderShips(os[..|os| - 1]) + os[|os| - 1].ships
  }

  /** Appending an order adds its ships to the count. */
  lemma OrderShipsAppend(os: seq<Order>, o: Order)
    ensures OrderShips(os + [o]) == OrderShips(os) + o.ships
  {
    assert (os + [o])[..|os|] == os;
  }

  /** The ships that a list of orders sends to sector k. */
  function Inbound(os: seq<Order>, k: nat): nat
  {
    if os == [] then 0
    else
      var o := os[|os| - 1];
      Inbound(os[..|os| - 1], k) + (if o.destination == Some(k) then o.ships else 0)
  }

  /** One more order of a list adds its ships to the count. */
  lemma OrderShipsStep(os: seq<Order>, j: nat)
    requires j < |os|
    ensures OrderShips(os[..j + 1]) == OrderShips(os[..j]) + os[j].ships
  {
    assert os[..j + 1][..j] == os[..j];
  }

  /** One more order of a list adds its ships to what its destination receives, and nothing elsewhere. */
  lemma InboundStep(os: seq<Order>, j: nat, k: nat)
    requires j < |os|
    ensures Inbound(os[..j + 1], k) == Inbound(os[..j], k) + (if os[j].destination == Some(k) then os[j].ships else 0)
  {
    assert os[..j + 1][..j] == os[..j];
  }

  /** An order waiting in the queued slot: loaded from a real sector, at least one ship, no destination. */
  predicate IsQueued(o: Order)
  {
    o.source < QuadrantSize * QuadrantSize && o.destination.None? && o.ships >= 1
  }

  /** A committed order: at least one ship, sent from a real sector to a different real sector. */
  predicate IsCommitted(o: Order)
  {
    && o.source < QuadrantSize * QuadrantSize
    && o.destination.Some? && o.destination.value < QuadrantSize * QuadrantSize
    && o.destination.value != o.source
    && o.ships >= 1
  }

  /** The ships standing in the six starting sectors below index k, two in each. */
  function SeededShipsBelow(k: nat): nat
  {
    (if 0 < k then 2 else 0) + (if 1 < k then 2 else 0) + (if 10 < k then 2 else 0)
    + (if 89 < k then 2 else 0) + (if 98 < k then 2 else 0) + (if 99 < k then 2 else 0)
  }

  /** Sector k as the game starts: its name, and two ships for the three Player and three Computer sectors. */
  function SeedSector(k: nat): (r: Sector)
    requires k < |SectorNames|
    ensures r.name == SectorNames[k]
    ensures r.owner == Player <==> k in {0, 1, 10}
    ensures r.owner == Computer <==> k in {89, 98, 99}
    ensures r.ships == if r.owner == Unowned then 0 else 2
  {
    var owner := if k in [0, 1, 10] then Player else if k in [89, 98, 99] then Computer else Unowned;
    Sector(SectorNames[k], owner, if owner == Unowned then 0 else 2)
  }

  /** Seeding one more sector adds exactly that sector's ships to the starting total. */
  lemma SeededShipsStep(k: nat)
    requires k < |SectorNames|
    ensures SeededShipsBelow(k + 1) == SeededShipsBelow(k) + SeedSector(k).ships
  {
  }

  /** The 100 sectors as the game starts, holding 12 ships in all. */
  method SeedSectors() returns (a: array<Sector>)
    ensures fresh(a) && a.Length == QuadrantSize * QuadrantSize
    ensures forall j :: 0 <= j < a.Length ==> a[j] == SeedSector(j)
    ensures SumShips(a[..]) == 12
  {
    a := new Sector[QuadrantSize * QuadrantSize](_ => Sector("", Unowned, 0));
    for k := 0 to a.Length
      invariant forall j :: 0 <= j < k ==> a[j] == SeedSector(j)
      invariant SumShips(a[..k]) == SeededShipsBelow(k)
    {
      a[k] := SeedSector(k);
      assert a[..k + 1][..k] == a[..k];
      SeededShipsStep(k);
    }
    assert a[..] == a[..a.Length];
  }

  class GameState {
    /** The star date in tenths: 475014 stands for 47501.4. */
    var starDate: nat
    var current: Screen
    var highlightedSectorIndex: Option<int>
    var viewingSectorIndex: Option<int>
    var queuedOrder: Option<Order>
    var mapType: MapType
    const sectors: array<Sector>
    var reports: seq<string>
    var orders: seq<Order>

    ghost predicate Valid()
      reads this
    {
      && sectors.Length == QuadrantSize * QuadrantSize
      && (forall j :: 0 <= j < |orders| ==> IsCommitted(orders[j]))
      && (queuedOrder.Some? ==> IsQueued(queuedOrder.value))
    }

    /** Every ship in the game: in the sectors, in the queued order and in the committed orders. */
    ghost function Total(): nat
      reads this, sectors
    {
      SumShips(sectors[..])
      + (if queuedOrder.Some? then queuedOrder.value.ships else 0)
      + OrderShips(orders)
    }

    /** The starting position: three Player and three Computer sectors with two ships each. */
    constructor ()
      ensures Valid() && fresh(sectors)
      ensures starDate == InitialStarDate && current == Quadrant
      ensures highlightedSectorIndex.None? && viewingSectorIndex.None?
      ensures queuedOrder.None? && mapType == Normal
      ensures orders == [] && reports == []
      ensures forall k :: 0 <= k < sectors.Length ==> sectors[k].name == SectorNames[k]
      ensures forall k :: 0 <= k < sectors.Length ==> (sectors[k].owner == Player <==> k in {0, 1, 10})
      ensures forall k :: 0 <= k < sectors.Length ==> (sectors[k].owner == Computer <==> k in {89, 98, 99})
      ensures forall k :: 0 <= k < sectors.Length ==>
                sectors[k].ships == if sectors[k].owner == Unowned then 0 else 2
      ensures Total() == 12
    {
      var a := SeedSectors();
      forall k | 0 <= k < a.Length
        ensures a[k].name == SectorNames[k]
        ensures a[k].owner == Player <==> k in {0, 1, 10}
        ensures a[k].owner == Computer <==> k in {89, 98, 99}
        ensures a[k].ships == if a[k].owner == Unowned then 0 else 2
      {
        assert a[k] == SeedSector(k);
      }
      sectors := a;
      starDate := InitialStarDate;
      current := Quadrant;
      highlightedSectorIndex, viewingSectorIndex := None, None;
      queuedOrder := None;
      mapType := Normal;
      reports := [];
      orders := [];
    }

    /**
     * A right click on grid cell g. With no order queued, a click on a sector
     * with ships starts an order there and loads one ship into it; a click on
     * the queued order's source loads one more ship while the source has one;
     * a click on any other sector commits the order with that destination.
     * The result is the notification shown, if any.
     */
    method HandleSectorRightClick(g: int) returns (note: Option<string>)
      requires Valid()
      requires GridIndexToSectorIndex(g).Some?
      modifies this`queuedOrder, this`orders, sectors
      ensures Valid()
      ensures Total() == old(Total())
      ensures var s := GridIndexToSectorIndex(g).value;
              old(queuedOrder).None? && old(sectors[s].ships) == 0 ==>
                && sectors[..] == old(sectors[..]) && queuedOrder.None? && orders == old(orders)
                && note.None?
      ensures var s := GridIndexToSectorIndex(g).value;
              old(queuedOrder).None? && old(sectors[s].ships) > 0 ==>
                && sectors[..] == old(sectors[..])[s := old(sectors[s]).(ships := old(sectors[s].ships) - 1)]
                && queuedOrder == Some(NewShipMoveOrder(s).(ships := 1))
                && orders == old(orders) && note.None?
      ensures var s := GridIndexToSectorIndex(g).value;
              old(queuedOrder).Some? && old(queuedOrder).value.source == s && old(sectors[s].ships) > 0 ==>
                && sectors[..] == old(sectors[..])[s := old(sectors[s]).(ships := old(sectors[s].ships) - 1)]
                && queuedOrder == Some(old(queuedOrder).value.(ships := old(queuedOrder).value.ships + 1))
                && orders == old(orders) && note.None?
      ensures var s := GridIndexToSectorIndex(g).value;
              old(queuedOrder).Some? && old(queuedOrder).value.source == s && old(sectors[s].ships) == 0 ==>
                && sectors[..] == old(sectors[..]) && queuedOrder == old(queuedOrder) && orders == old(orders)
                && note.None?
      ensures var s := GridIndexToSectorIndex(g).value;
              old(queuedOrder).Some? && old(queuedOrder).value.source != s ==>
                var committed := old(queuedOrder).value.(destination := Some(s));
                && sectors[..] == old(sectors[..]) && queuedOrder.None?
                && orders == old(orders) + [committed]
                && note == Some("Order Issued: " + OrderText(committed))
    {
      var s := GridIndexToSectorIndex(g).value;
      note := None;
      var order;
      if queuedOrder.None? {
        if sectors[s].ships == 0 {
          return;
        }
        order := NewShipMoveOrder(s);
      } else {
        order := queuedOrder.value;
      }
      if s == order.source {
        ghost var before := sectors[..];
        var sector := sectors[s];
        if sector.ships > 0 {
          order := order.(ships := order.ships + 1);
          sector := sector.(ships := sector.ships - 1);
        }
        sectors[s] := sector;
        queuedOrder := Some(order);
        assert sectors[..] == before[s := sector];
        SumShipsUpdate(before, s, sector);
      } else {
        note := CommitQueuedOrder(s);
      }
    }

    /** The queued order gets destination s and joins the committed orders; the slot is cleared. */
    method CommitQueuedOrder(s: nat) returns (note: Option<string>)
      requires Valid() && queuedOrder.Some?
      requires s < QuadrantSize * QuadrantSize && s != queuedOrder.value.source
      modifies this`queuedOrder, this`orders
      ensures Valid()
      ensures Total() == old(Total())
      ensures var committed := old(queuedOrder).value.(destination := Some(s));
              && queuedOrder.None? && orders == old(orders) + [committed]
              && note == Some("Order Issued: " + OrderText(committed))
    {
      var order := queuedOrder.value.(destination := Some(s));
      OrderShipsAppend(orders, order);
      orders := orders + [order];
      queuedOrder := None;
      assert Valid() && Total() == old(Total());
      note := Some("Order Issued: " + OrderText(order));
    }

    /**
     * Ends the turn: the star date moves on a tenth, every committed order's
     * ships arrive at its destination, the reports become the orders' texts and
     * the committed orders are cleared.
     */
    method NextTurn()
      requires Valid()
      modifies this`starDate, this`reports, this`orders, sectors
      ensures Valid()
      ensures Total() == old(Total())
      ensures starDate == old(starDate) + 1
      ensures forall k :: 0 <= k < sectors.Length ==>
                sectors[k] == old(sectors[k]).(ships := old(sectors[k].ships) + Inbound(old(orders), k))
      ensures |reports| == |old(orders)|
      ensures forall j :: 0 <= j < |reports| ==> reports[j] == OrderText(old(orders)[j])
      ensures orders == []
    {
      starDate := starDate + 1;
      var os := orders;
      ghost var before := sectors[..];
      var j := 0;
      while j < |os|
        invariant 0 <= j <= |os|
        invariant starDate == old(starDate) + 1
        invariant forall k :: 0 <= k < sectors.Length ==>
                    sectors[k] == before[k].(ships := before[k].ships + Inbound(os[..j], k))
        invariant SumShips(sectors[..]) == SumShips(before) + OrderShips(os[..j])
      {
        var o := os[j];
        var d := o.destination.value;
        ghost var mid := sectors[..];
        sectors[d] := sectors[d].(ships := sectors[d].ships + o.ships);
        assert sectors[..] == mid[d := sectors[d]];
        SumShipsUpdate(mid, d, sectors[d]);
        OrderShipsStep(os, j);
        forall k | 0 <= k < sectors.Length
          ensures Inbound(os[..j + 1], k) == Inbound(os[..j], k) + (if k == d then o.ships else 0)
        {
          InboundStep(os, j, k);
        }
        j := j + 1;
      }
      assert os[..j] == os;
      reports := seq(|os|, j requires 0 <= j < |os| => OrderText(os[j]));
      orders := [];
    }

    /** Switches the top-level screen; going to Quadrant also forgets the viewed and the highlighted sector. */
    method SetScreen(name: Screen)
      requires Valid()
      modifies this`current, this`viewingSectorIndex, this`highlightedSectorIndex
      ensures Valid()
      ensures current == name
      ensures name == Quadrant ==> viewingSectorIndex.None? && highlightedSectorIndex.None?
      ensures name != Quadrant ==>
                viewingSectorIndex == old(viewingSectorIndex) && highlightedSectorIndex == old(highlightedSectorIndex)
    {
      current := name;
      if name == Quadrant {
        viewingSectorIndex := None;
        highlightedSectorIndex := None;
      }
    }

    method SetQuadrantHighlightedSector(i: Option<int>)
      requires Valid()
      modifies this`highlightedSectorIndex
      ensures Valid()
      ensures highlightedSectorIndex == i
    {
      highlightedSectorIndex := i;
    }

    method SetQuadrantViewingSector(i: Option<int>)
      requires Valid()
      modifies this`viewingSectorIndex
      ensures Valid()
      ensures viewingSectorIndex == i
    {
      viewingSectorIndex := i;
    }

    /** Leaves the sector view for the quadrant map, with no sector highlighted. */
    method BackToQuadrantScreen()
      requires Valid()
      modifies this`viewingSectorIndex, this`highlightedSectorIndex
      ensures Valid()
      ensures viewingSectorIndex.None? && highlightedSectorIndex.None?
    {
      viewingSectorIndex := None;
      highlightedSectorIndex := None;
    }

    method CycleMapType()
      requires Valid()
      modifies this`mapType
      ensures Valid()
      ensures mapType == NextMapType(old(mapType))
    {
      if mapType == Normal {
        mapType := Owners;
      } else {
        mapType := Normal;
      }
    }
  }

  /** Sector 0 is labelled (A, 1). */
  lemma SectorZeroLabel()
    ensures LabelText(SectorIndexToSectorCoordinates(0)) == "(A, 1)"
  {
    assert SectorIndexToSectorCoordinates(0) == SectorCoordinates('A', 1);
    assert NatToString(1) == "1";
  }

  /** Sector 5 is labelled (F, 1). */
  lemma SectorFiveLabel()
    ensures LabelText(SectorIndexToSectorCoordinates(5)) == "(F, 1)"
  {
    assert SectorIndexToSectorCoordinates(5) == SectorCoordinates('F', 1);
    assert NatToString(1) == "1";
  }

  /** The text of two ships sent from (A, 1) to (F, 1). */
  lemma ExampleOrderText()
    ensures OrderText(Order(0, Some(5), 2)) == "Move 2 Ships from (A, 1) to (F, 1)"
  {
    var o := Order(0, Some(5), 2);
    var pieces := "Move " + ("2" + (" Ships from " + ("(A, 1)" + (" to " + "(F, 1)"))));
    assert OrderText(o) == pieces by {
      SectorZeroLabel();
      SectorFiveLabel();
      assert NatToString(2) == "2";
    }
    assert pieces == "Move 2 Ships from (A, 1) to (F, 1)" by {
      ExampleTextPieces();
    }
  }

  lemma ExampleTextPieces()
    ensures "Move " + ("2" + (" Ships from " + ("(A, 1)" + (" to " + "(F, 1)"))))
         == "Move 2 Ships from (A, 1) to (F, 1)"
  {
  }

  /**
   * From the starting position, three right clicks on sector 0 (A, 1): the
   * first two load its two ships into a new order, the third finds none left
   * and changes nothing. The sectors after the second click are returned too.
   */
  method LoadSectorZeroScenario() returns (game: GameState, afterTwo: seq<Sector>, third: Option<string>)
    ensures fresh(game) && fresh(game.sectors) && game.Valid()
    ensures game.sectors[0].ships == 0 && game.sectors[5].ships == 0
    ensures game.queuedOrder == Some(Order(0, None, 2)) && game.orders == []
    ensures game.sectors[..] == afterTwo && third.None?
    ensures game.Total() == 12 && game.starDate == InitialStarDate
  {
    game := new GameState();
    var source := SectorIndexToGridIndex(0);
    var ignored := game.HandleSectorRightClick(source);
    assert game.sectors[0].ships == 1 && game.queuedOrder == Some(Order(0, None, 1));
    ignored := game.HandleSectorRightClick(source);
    assert game.sectors[0].ships == 0 && game.queuedOrder == Some(Order(0, None, 2));
    afterTwo := game.sectors[..];
    third := game.HandleSectorRightClick(source);
  }

  /** Continuing, a click on sector 5 (F, 1) commits the order and issues its notification. */
  method CommitToSectorFiveScenario() returns (game: GameState, note: Option<string>)
    ensures fresh(game) && fresh(game.sectors) && game.Valid()
    ensures note == Some("Order Issued: " + OrderText(Order(0, Some(5), 2)))
    ensures game.orders == [Order(0, Some(5), 2)] && game.queuedOrder.None?
    ensures game.sectors[5].ships == 0 && game.Total() == 12
    ensures game.starDate == InitialStarDate
  {
    var afterTwo, third;
    game, afterTwo, third := LoadSectorZeroScenario();
    note := game.HandleSectorRightClick(SectorIndexToGridIndex(5));
  }

  /**
   * Continuing, the next turn moves the star date on a tenth, lands both ships
   * on (F, 1) and reports the order.
   */
  method OrderLifecycleScenario() returns (note: Option<string>, turnReports: seq<string>, landed: nat, date: nat)
    ensures note == Some("Order Issued: " + "Move 2 Ships from (A, 1) to (F, 1)")
    ensures turnReports == ["Move 2 Ships from (A, 1) to (F, 1)"]
    ensures landed == 2 && date == InitialStarDate + 1
  {
    var game;
    game, note := CommitToSectorFiveScenario();
    ghost var committed := game.orders;
    assert committed[..0] == [];
    assert Inbound(committed, 5) == 2;
    game.NextTurn();
    turnReports := game.reports;
    landed := game.sectors[5].ships;
    date := game.starDate;
    assert OrderText(Order(0, Some(5), 2)) == "Move 2 Ships from (A, 1) to (F, 1)" by {
      ExampleOrderText();
    }
  }
}
