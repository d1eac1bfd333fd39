/**
 * The 40-pin grid of the client window: where each pin's toggle button,
 * bulb, name label and pin picture go, and the name shown for a pin.
 * Pins sit two to a row, mirroring the physical header: pin index i (pin
 * number i + 1) goes in row i / 2, even indices on the left half of the
 * grid, odd indices mirrored on the right half.
 */
module Grid {

  /** The number of pins the window shows (`for i in range(40)`). */
  const PINS: int := 40

  datatype Cell = Cell(row: int, column: int)

  /** The four widgets a pin can have, one per column of its half of the grid. */
  datatype Slot = ButtonSlot | BulbSlot | NameSlot | PictureSlot

  datatype Widget = Bulb(index: int) | ToggleButton(pin: int) | NameLabel(text: string) | Picture(rotated: bool)

  function Row(i: int): int
  {
    i / 2
  }

  /** Odd indices use columns 7/6/5/4 for button/bulb/name/picture, even ones 0/1/2/3. */
  function Column(i: int, slot: Slot): (c: int)
    ensures 0 <= c < 8
    ensures c >= 4 <==> i % 2 == 1
  {
    if i % 2 == 1 then
      match slot
      case ButtonSlot => 7
      case BulbSlot => 6
      case NameSlot => 5
      case PictureSlot => 4
    else
      match slot
      case ButtonSlot => 0
      case BulbSlot => 1
      case NameSlot => 2
      case PictureSlot => 3
  }

  function CellOf(i: int, slot: Slot): (c: Cell)
  {
    Cell(Row(i), Column(i, slot))
  }

  /** The pin index a cell belongs to: the inverse of the placement. */
  function PinAt(c: Cell): int
  {
    2 * c.row + if c.column >= 4 then 1 else 0
  }

  /** The slot a cell holds: the inverse of the placement. */
  function SlotAt(c: Cell): Slot
  {
    var k := if c.column >= 4 then 7 - c.column else c.column;
    if k == 0 then ButtonSlot else if k == 1 then BulbSlot else if k == 2 then NameSlot else PictureSlot
  }

  /**
   * Every pin's widgets land inside the 20-by-8 grid, and the placement can
   * be inverted: no cell receives two widgets.
   */
  lemma PlacementInvertible(i: int, slot: Slot)
    requires 0 <= i < PINS
    ensures 0 <= Row(i) < 20 && 0 <= Column(i, slot) < 8
    ensures PinAt(CellOf(i, slot)) == i && SlotAt(CellOf(i, slot)) == slot
  {
  }

  /** Distinct (pin, slot) pairs get distinct cells; in particular the 40 bulbs sit in 40 different cells. */
  lemma PlacementInjective(i: int, s: Slot, j: int, t: Slot)
    requires 0 <= i < PINS && 0 <= j < PINS
    requires CellOf(i, s) == CellOf(j, t)
    ensures i == j && s == t
  {
    PlacementInvertible(i, s);
    PlacementInvertible(j, t);
  }

  // ---------------------------------------------------------------------------
  // Display names
  // ---------------------------------------------------------------------------

  function DigitChar(d: int): char
    requires 0 <= d < 10
  {
    ('0' as int + d) as char
  }

  function DigitValue(c: char): int
  {
    if '0' <= c <= '9' then c as int - '0' as int else 0
  }

  /** `str(n)` for a natural number: its decimal digits, most significant first. */
  function DecimalString(n: nat): (s: string)
    ensures |s| >= 1
    ensures forall k :: 0 <= k < |s| ==> '0' <= s[k] <= '9'
    ensures n >= 1 ==> s[0] != '0'
    decreases n
  {
    if n < 10 then [DigitChar(n)] else DecimalString(n / 10) + [DigitChar(n % 10)]
  }

  /** The number a string of decimal digits denotes. */
  function DecimalValue(s: string): int
    decreases |s|
  {
    if s == [] then 0 else 10 * DecimalValue(s[..|s| - 1]) + DigitValue(s[|s| - 1])
  }

  /** Reading back the decimal digits of n gives n. */
  lemma {:induction false} DecimalRoundTrip(n: nat)
    ensures DecimalValue(DecimalString(n)) == n
    decreases n
  {
    var s := DecimalString(n);
    if n >= 10 {
      DecimalRoundTrip(n / 10);
      assert s[..|s| - 1] == DecimalString(n / 10);
      assert DigitValue(s[|s| - 1]) == n % 10;
      assert n == 10 * (n / 10) + n % 10;
    } else {
      assert DigitValue(s[0]) == n;
      assert s[..0] == [];
    }
  }

  /** The label of pin index i: its configured name, or "PIN" and its number. */
  function DisplayName(i: nat, names: map<int, string>): (r: string)
    ensures i + 1 in names ==> r == names[i + 1]
    ensures i + 1 !in names ==> |r| > 3 && r[..3] == "PIN" && DecimalValue(r[3..]) == i + 1
    ensures i + 1 !in names ==> (forall k :: 3 <= k < |r| ==> '0' <= r[k] <= '9') && r[3] != '0'
  {
    DecimalRoundTrip(i + 1);
    if i + 1 !in names then "PIN" + DecimalString(i + 1) else names[i + 1]
  }

  /** Two different pins without a configured name are labelled differently. */
  lemma UnnamedLabelsDistinct(i: nat, j: nat, names: map<int, string>)
    requires i != j && i + 1 !in names && j + 1 !in names
    ensures DisplayName(i, names) != DisplayName(j, names)
  {
  }

  // ---------------------------------------------------------------------------
  // The layout built by create_grid_layout
  // ---------------------------------------------------------------------------

  /** Pin index i gets a toggle button: its pin number is one the operator may switch. */
  predicate HasButton(i: int, controlled: seq<int>)
  {
    i + 1 in controlled
  }

  /** Pin index i has its widgets where the placement puts them, and a button only if controllable. */
  ghost predicate Placed(cells: map<Cell, Widget>, i: int, names: map<int, string>, controlled: seq<int>)
    requires 0 <= i
  {
    && CellOf(i, BulbSlot) in cells && cells[CellOf(i, BulbSlot)] == Bulb(i)
    && CellOf(i, NameSlot) in cells && cells[CellOf(i, NameSlot)] == NameLabel(DisplayName(i, names))
    && CellOf(i, PictureSlot) in cells && cells[CellOf(i, PictureSlot)] == Picture(i % 2 == 1)
    && (CellOf(i, ButtonSlot) in cells <==> i + 1 in controlled)
    && (i + 1 in controlled ==> cells[CellOf(i, ButtonSlot)] == ToggleButton(i + 1))
  }

  /**
   * `create_grid_layout`: adds the widgets of the 40 pins to the grid and
   * keeps the toggle buttons by pin index. No cell is ever filled twice.
   */
  method CreateGridLayout(names: map<int, string>, controlled: seq<int>) returns (cells: map<Cell, Widget>, buttons: set<int>)
    ensures buttons == set i | 0 <= i < PINS && HasButton(i, controlled)
    ensures forall i :: 0 <= i < PINS ==> Placed(cells, i, names, controlled)
    ensures forall c :: c in cells ==> 0 <= PinAt(c) < PINS && c == CellOf(PinAt(c), SlotAt(c))
  {
    cells := map[];
    buttons := {};
    for i := 0 to PINS
      invariant buttons == set j | 0 <= j < i && HasButton(j, controlled)
      invariant forall j :: 0 <= j < i ==> Placed(cells, j, names, controlled)
      invariant forall c :: c in cells ==> 0 <= PinAt(c) < i && c == CellOf(PinAt(c), SlotAt(c))
    {
      cells := AddPin(cells, i, names, controlled);
      if i + 1 in controlled {
        buttons := buttons + {i};
      }
    }
  }

  /**
   * One iteration of the loop: the widgets of pin index i go into cells no
   * other pin uses, and every widget already placed is kept.
   */
  method AddPin(cells: map<Cell, Widget>, i: int, names: map<int, string>, controlled: seq<int>) returns (next: map<Cell, Widget>)
    requires 0 <= i < PINS
    requires forall j :: 0 <= j < i ==> Placed(cells, j, names, controlled)
    requires forall c :: c in cells ==> 0 <= PinAt(c) < i && c == CellOf(PinAt(c), SlotAt(c))
    ensures forall j :: 0 <= j <= i ==> Placed(next, j, names, controlled)
    ensures forall c :: c in cells ==> c in next && next[c] == cells[c]
    ensures forall c :: c in next ==> 0 <= PinAt(c) <= i && c == CellOf(PinAt(c), SlotAt(c))
  {
    next := PlacePin(cells, i, names, controlled);
    forall j | 0 <= j < i
      ensures Placed(next, j, names, controlled)
    {
      PlacedKept(cells, next, i, j, names, controlled);
    }
  }

  /** The widgets of pin index i, added to cells that no other pin uses. */
  method PlacePin(cells: map<Cell, Widget>, i: int, names: map<int, string>, controlled: seq<int>) returns (next: map<Cell, Widget>)
    requires 0 <= i < PINS
    requires forall c :: c in cells ==> PinAt(c) != i
    ensures Placed(next, i, names, controlled)
    ensures forall c :: c in cells ==> c in next && next[c] == cells[c]
    ensures forall c :: c in next && c !in cells ==> PinAt(c) == i && c == CellOf(i, SlotAt(c))
  {
    var name := DisplayName(i, names);
    PlacementInvertible(i, ButtonSlot);
    PlacementInvertible(i, BulbSlot);
    PlacementInvertible(i, NameSlot);
    PlacementInvertible(i, PictureSlot);
    next := cells[CellOf(i, BulbSlot) := Bulb(i)];
    if i + 1 in controlled {
      next := next[CellOf(i, ButtonSlot) := ToggleButton(i + 1)];
    }
    next := next[CellOf(i, NameSlot) := NameLabel(name)];
    next := next[CellOf(i, PictureSlot) := Picture(i % 2 == 1)];
  }

  /** Adding only widgets of pin index i leaves every other pin's widgets where they were. */
  lemma PlacedKept(before: map<Cell, Widget>, after: map<Cell, Widget>, i: int, j: int, names: map<int, string>, controlled: seq<int>)
    requires 0 <= j < PINS && 0 <= i < PINS && i != j
    requires Placed(before, j, names, controlled)
    requires forall c :: c in before ==> c in after && after[c] == before[c]
    requires forall c :: c in after && c !in before ==> PinAt(c) == i
    ensures Placed(after, j, names, controlled)
  {
    PlacementInvertible(j, ButtonSlot);
    PlacementInvertible(j, BulbSlot);
    PlacementInvertible(j, NameSlot);
    PlacementInvertible(j, PictureSlot);
  }
}
