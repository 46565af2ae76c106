# Galaxy: sectors, fleet orders and turns

A model of the turn-based game state behind the galaxy screen of this
repository (`galaxy/script.js`). The quadrant is a 10x10 grid of sectors, each
owned by nobody, the Player or the Computer and holding a number of ships. The
screen draws it inside a 12x12 grid whose border carries the column letters
A-J and the row numbers 1-10.

The player builds a ship-move order by right clicking:

- The first click on a sector with ships starts a queued order there and loads
  one ship into it.
- Further clicks on that sector load one more ship each, while it has any.
- A click on any other sector commits the order with that sector as its
  destination and shows the notification "Order Issued: Move N Ships from (L, N)
  to (L, N)".

Ending the turn moves the star date on by a tenth and lands every committed
order's ships at its destination. The turn's reports become the texts of those
orders, and the list of committed orders is emptied. The screen state also
holds the current top-level screen, the highlighted and the viewed sector, and
the map overlay (Normal or Owners).

The model is written in five modules:

- `Maybe` defines the optional value that stands for `null`.
- `Coordinates` holds the pure grid, sector and header mappings.
- `Text` provides the decimal rendering of numbers and a reader for them.
- `Orders` holds the order value, its text and a parser of that text, which
  shows that the text determines the order.
- `Galaxy` has the `GameState` class. The class holds the 100 sectors in an
  array, the committed orders and reports as sequences, the queued order as an
  optional value, and the screen fields. Its methods change these in place, as
  the source does.

`GameState.Valid()` states three invariants:

- There are 100 sectors.
- Every committed order carries at least one ship and goes from a sector to a
  different sector.
- A queued order carries at least one ship and has no destination yet.

`GameState.Total()` counts every ship: the ships in sectors, in the queued order
and in the committed orders. Every click and every turn keeps this total
unchanged.

No order ever has zero ships. When the first click on a sector creates an
order, the code goes straight on to the load branch (galaxy/script.js:212-223).
That branch runs only when the sector has a ship, which the same click has just
checked (galaxy/script.js:212). So every queued or committed order carries at
least one ship, and `Valid()` says so.

## Model

| member | source | states |
|---|---|---|
| Coordinates.GridIndexToSectorIndex | galaxy/script.js:129-138 | a grid cell maps to a sector exactly when 12 <= g <= 131 and 2 <= g mod 12 <= 11, and then to a sector index below 100 |
| Coordinates.SectorIndexToGridIndex | galaxy/script.js:129-138 | every sector index below 100 has an interior cell that maps back to it |
| Coordinates.GridIndexRoundTrip | galaxy/script.js:129-138 | an interior cell is the cell of the sector it maps to |
| Coordinates.GridIndexInjective | galaxy/script.js:129-138 | two cells that map to the same sector are the same cell |
| Coordinates.GridIndexSurjective | galaxy/script.js:129-138 | every one of the 100 sectors is the image of some interior cell, so the mapping is a bijection |
| Coordinates.AlphabetIsConsecutive | galaxy/script.js:16 | the alphabet constant lists the letters in order, so its x-th entry is 'A' + x |
| Coordinates.SectorIndexToSectorCoordinates | galaxy/script.js:140-145 | a sector's label has a letter in A-J and a number >= 1, and the number is at most 10 exactly when the index is below 100 |
| Coordinates.CoordinatesRoundTrip | galaxy/script.js:140-145 | 10*(number-1) + the letter's place in the alphabet gives back the sector index |
| Coordinates.CoordinatesRoundTripBack | galaxy/script.js:140-145 | every label with a letter in A-J and a positive number is the label of exactly that sector |
| Coordinates.CoordinatesInjective | galaxy/script.js:140-145 | two sectors with the same label are the same sector |
| Coordinates.QuadrantText | galaxy/script.js:92-102 | the header text is a letter in A-J exactly for cells 2-11, a number in 1-10 exactly for the left-column cells 13, 25, ..., 121, and blank elsewhere |
| Coordinates.ColumnHeaderAgrees | galaxy/script.js:92-102 | the letter above an interior cell's column equals the letter of the cell's sector |
| Coordinates.RowHeaderAgrees | galaxy/script.js:92-102 | the number left of an interior cell's row equals the number of the cell's sector |
| Text.NatToString | galaxy/script.js:202 | the rendering of a number in the order template is a non-empty run of digits without a leading zero |
| Text.DigitsValueOfNatToString | galaxy/script.js:202 | reading the digits back gives the number rendered |
| Orders.NewShipMoveOrder | galaxy/script.js:179-186 | a new order leaves from the given sector, has no destination and carries no ship |
| Orders.OrderText | galaxy/script.js:198-203 | the text "Move {ships} Ships from ({L}, {N}) to ({L}, {N})" parses back to exactly the ship count and the labels of source and destination |
| Orders.TemplateRoundTrip | galaxy/script.js:202 | the template filled in with any ship count and any two labels parses back to exactly those three values |
| Orders.OrderTextInjective | galaxy/script.js:198-203 | two committed orders with the same text are the same order |
| Galaxy.ExampleOrderText | galaxy/script.js:198-203 | two ships from sector 0 to sector 5 read "Move 2 Ships from (A, 1) to (F, 1)" |
| Galaxy.SeedSector | galaxy/script.js:298-315 | starting sector k has the k-th name; it is owned by Player exactly for 0, 1 and 10, by Computer exactly for 89, 98 and 99, and has 2 ships when owned and 0 otherwise |
| Galaxy.SeedSectors | galaxy/script.js:298-315 | the seeding loop fills all 100 sectors, sector k with its starting value, and places 12 ships in all |
| Galaxy.GameState.constructor | galaxy/script.js:298-315 | the starting state is valid, with star date 47501.4 (in tenths), the Quadrant screen, nothing highlighted, viewed or queued, the Normal map, no orders, the seeded sectors and 12 ships in all |
| Galaxy.SumShipsUpdate | galaxy/script.js:211-232 | replacing one sector changes the sector ship sum by exactly the difference of the two ship counts (used to prove that clicks and turns conserve ships) |
| Galaxy.GameState.HandleSectorRightClick | galaxy/script.js:205-238 | with no queued order: a sector with no ships leaves everything unchanged, and otherwise a queued order from it with 1 ship is created and the sector loses 1 ship; on the queued source: one ship moves from the sector into the order when the sector has one, and nothing changes when it has none; on another sector: the order gets that destination and is appended to the committed orders, the slot is cleared, no sector changes and the note is "Order Issued: " + its text; always keeps Valid() and the ship total, and changes nothing but the queued slot, the orders and the sectors |
| Galaxy.GameState.CommitQueuedOrder | galaxy/script.js:224-232 | the queued order gets the clicked sector as its destination and is appended to the committed orders, the slot is cleared, the note is "Order Issued: " + its text, and Valid() and the ship total are kept |
| Galaxy.GameState.NextTurn | galaxy/script.js:108-127 | the star date gains a tenth; each sector keeps name and owner and gains the ships of the orders bound for it; the reports are the orders' texts in order; the orders are emptied; the queued order and the screen are untouched; Valid() and the ship total are kept |
| Galaxy.GameState.SetScreen | galaxy/script.js:240-249 | sets the current screen; going to Quadrant clears the viewed and highlighted sector, and other screens keep them; the queued order and map overlay are untouched |
| Galaxy.GameState.SetQuadrantHighlightedSector | galaxy/script.js:263-266 | sets only the highlighted sector |
| Galaxy.GameState.SetQuadrantViewingSector | galaxy/script.js:268-271 | sets only the viewed sector |
| Galaxy.GameState.BackToQuadrantScreen | galaxy/script.js:273-277 | clears only the viewed and highlighted sector |
| Galaxy.NextMapType | galaxy/script.js:283-291 | cycling always switches to the other overlay |
| Galaxy.NextMapTypeTwice | galaxy/script.js:283-291 | cycling twice gives back the overlay shown before |
| Galaxy.GameState.CycleMapType | galaxy/script.js:283-291 | changes only the overlay, to the other of Normal and Owners |
| Galaxy.LoadSectorZeroScenario | galaxy/script.js:205-238 | from the start, three clicks on sector 0 leave it with 0 ships and a queued order of 2 ships; the third click gives no note and leaves the sectors as the second click left them; the star date and the 12 ships are unchanged |
| Galaxy.CommitToSectorFiveScenario | galaxy/script.js:224-232 | a further click on sector 5 commits the order (0 to 5, 2 ships), clears the slot and issues the notification for its text |
| Galaxy.OrderLifecycleScenario | galaxy/script.js:108-127 | after the next turn sector 5 holds the 2 ships, the star date is 475014 + 1 and the reports are exactly ["Move 2 Ships from (A, 1) to (F, 1)"], and the notification was "Order Issued: Move 2 Ships from (A, 1) to (F, 1)" |

## Left out

- The toast library (galaxy/script.js:5-8, 229) is a foreign side effect. `HandleSectorRightClick` returns the notification text instead of showing it.
- The star date is a float in the source (`+= .1`, galaxy/script.js:109). The model keeps it as a whole number of tenths, starting at 475014, so there is no rounding drift. `starDateText` (galaxy/script.js:104-106) formats that float with `toFixed(1)`; it is display only and is not modelled.
- `sectorStyle` and `quadrantBorderClasses` (galaxy/script.js:56-90) only produce CSS strings.
- `sectorName` (galaxy/script.js:152-157) reads a variable `i` it never declares. In practice that is the global loop counter left behind by the seeding loop, so the function would label the wrong sector. It is not modelled.
- Several read helpers are display only and are not modelled: `getHighlightedSector`, `sectorOwner`, `sectorShips`, `getQuadrantQueuedOrder`, `quadrantQueuedOrderText`, `viewingQuadrantScreen`, `viewingSectorScreen`, `sectorHighlighted` and `mapType` (galaxy/script.js:147-196, 251-261, 279-281). Some of them treat index 0 or 0 ships as "none".
- The two placeholder (lorem ipsum) reports of the initial state (galaxy/script.js:44-47) are not modelled; the model starts with no reports.
- Galaxy.GameState.HandleSectorRightClick: requires the clicked cell to be an interior cell. The source never checks this. For a border cell with no queued order, it throws at `sector.ships` (galaxy/script.js:212). With a queued order, it commits the order with a null destination, and the next turn then throws at galaxy/script.js:117.
- The order field `type` is always `'ship-move'`, so the test in `nextTurn` (galaxy/script.js:113) always passes. The model has one kind of order and no such field.
- In the source the queued order is one object that is mutated, pushed onto `orders` and then dropped from the slot. The model works on order values, which behaves the same because nothing else keeps a reference to the object.
- `setScreen` takes any string (galaxy/script.js:240-241) and stores it. The model uses a closed enumeration of the four screens, the keys of `screens` (galaxy/script.js:29-39), so it assumes that callers pass one of those names. `mapType` is only ever set to 'Normal' or 'Owners' (galaxy/script.js:34, 285, 287), and the model uses a closed enumeration of those two overlays. `cycleMapType`'s fallback of any other string to 'Normal' is therefore not modelled.
- Grid and sector indices are whole numbers in the model: integers for grid cells, naturals for sectors. The source functions would also accept fractional numbers and, for sector labels, negative ones; no caller passes such values.
- The other files (`fyzikz`, `chrimbas`, `ballpit`, `globe`, `potholderz`, `globe/convert-geojson-to-object.js`, `vite.config.js`, `webpack.mix.js`) are rendering and physics glue over external libraries, file I/O and build configuration. They are not part of this model.
