/**
 * The people counter: a PIR sensor is polled in a loop, the counter goes up on
 * every 0 -> 1 transition of the normalised reading, and the counter is shown on
 * the four-digit display before every poll, units digit at position 3.
 */
module CountingDevice {
  import opened Optional
  import opened SegmentDisplay

  /** `1 if pir.value() == 1 else 0`: any reading other than 1 is treated as no motion. */
  function State(reading: int): nat
  {
    if reading == 1 then 1 else 0
  }

  /** Whether poll k is a rising edge; before the first poll the last state is 0. */
  predicate RisesAt(readings: seq<int>, k: nat)
    requires k < |readings|
  {
    State(readings[k]) == 1 && (k == 0 || State(readings[k - 1]) == 0)
  }

  /** The number of rising edges in a run of polls. */
  function Rises(readings: seq<int>): nat
    decreases |readings|
  {
    if readings == [] then 0
    else Rises(readings[..|readings| - 1]) + (if RisesAt(readings, |readings| - 1) then 1 else 0)
  }

  /**
   * `loop()` over a finite run of readings: returns the final counter, the last
   * state and, for every pass, the counter that `display()` shows at its start.
   */
  method Loop(counter0: nat, readings: seq<int>) returns (counter: nat, lastState: nat, shown: seq<nat>)
    ensures counter == counter0 + Rises(readings)
    ensures lastState == if readings == [] then 0 else State(readings[|readings| - 1])
    ensures |shown| == |readings|
    ensures forall k :: 0 <= k < |readings| ==> shown[k] == counter0 + Rises(readings[..k])
  {
    counter, lastState, shown := counter0, 0, [];
    var k := 0;
    while k < |readings|
      invariant k <= |readings|
      invariant counter == counter0 + Rises(readings[..k])
      invariant lastState == if k == 0 then 0 else State(readings[k - 1])
      invariant |shown| == k
      invariant forall j :: 0 <= j < k ==> shown[j] == counter0 + Rises(readings[..j])
    {
      shown := shown + [counter];
      var currentState := if readings[k] == 1 then 1 else 0;
      if currentState == 1 && lastState == 0 {
        counter := counter + 1;
      }
      lastState := currentState;
      assert readings[..k + 1][..k] == readings[..k];
      k := k + 1;
    }
    assert readings[..k] == readings;
  }

  /** A reading held at 1 for any number of polls after a rise counts nothing more. */
  lemma {:induction false} HeldHighCountsOnce(readings: seq<int>, m: nat)
    requires |readings| > 0 && State(readings[|readings| - 1]) == 1
    ensures Rises(readings + seq(m, _ => 1)) == Rises(readings)
    decreases m
  {
    if m > 0 {
      var longer := readings + seq(m, _ => 1);
      assert longer[..|longer| - 1] == readings + seq(m - 1, _ => 1);
      HeldHighCountsOnce(readings, m - 1);
    } else {
      assert readings + seq(m, _ => 1) == readings;
    }
  }

  /** Every rise needs a poll at 1 before it and a poll at 0 between it and the next: at most one count per two polls, rounded up. */
  lemma {:induction false} RisesBound(readings: seq<int>)
    ensures 2 * Rises(readings) <= |readings| + (if readings != [] && State(readings[|readings| - 1]) == 1 then 1 else 0)
    decreases |readings|
  {
    if readings != [] {
      var init := readings[..|readings| - 1];
      RisesBound(init);
      if |init| > 0 {
        assert init[|init| - 1] == readings[|readings| - 2];
      }
    }
  }

  /** Counting over two runs of polls adds up, plus a rise at the seam when the second run starts at 1 after a 0. */
  lemma {:induction false} RisesAppend(a: seq<int>, b: seq<int>)
    requires a != [] && b != []
    ensures Rises(a + b) == Rises(a) + Rises(b)
      - (if State(b[0]) == 1 && State(a[|a| - 1]) == 1 then 1 else 0)
    decreases |b|
  {
    if |b| == 1 {
      assert (a + b)[..|a + b| - 1] == a;
      assert b[..0] == [];
    } else {
      var n := |b| - 1;
      assert (a + b)[..|a + b| - 1] == a + b[..n];
      RisesAppend(a, b[..n]);
      assert (a + b)[|a + b| - 2] == b[n - 1];
    }
  }

  // ---------------------------------------------------------------- display()

  /** `display()` writes digit j of the counter in phase j, at position 3 - j: the units digit is at position 3. */
  function Cells(counter: nat): (cells: seq<Cell>)
    ensures ValidCells(cells)
  {
    seq(Positions, j requires 0 <= j < Positions => Cell(3 - j, Digit(counter, j)))
  }

  /** The `%` and `//` forms `display()` uses are the counter's decimal digits. */
  lemma LiteralDigits(counter: nat)
    ensures counter % 10 == Digit(counter, 0)
    ensures counter % 100 / 10 == Digit(counter, 1)
    ensures counter % 1000 / 100 == Digit(counter, 2)
    ensures counter % 10000 / 1000 == Digit(counter, 3)
  {
    assert Pow10(1) == 10 && Pow10(2) == 100 && Pow10(3) == 1000 && Pow10(4) == 10000;
    ModDivIsDigit(counter, 0);
    ModDivIsDigit(counter, 1);
    ModDivIsDigit(counter, 2);
    ModDivIsDigit(counter, 3);
  }

  /** `display()`: four clear, select and shift phases, positions 3 down to 0. */
  method Display(counter: nat) returns (out: seq<Write>)
    ensures out == FrameWrites(Cells(counter), Positions)
  {
    LiteralDigits(counter);
    var p0 := ShowCell(Cell(3, counter % 10));
    var p1 := ShowCell(Cell(2, counter % 100 / 10));
    var p2 := ShowCell(Cell(1, counter % 1000 / 100));
    var p3 := ShowCell(Cell(0, counter % 10000 / 1000));
    out := p0 + p1 + p2 + p3;
    FrameOfFour(Cells(counter), p0, p1, p2, p3);
  }

  /** Read from position 0 to 3, the digits shown spell the counter modulo 10000. */
  lemma DisplaySpellsCounter(counter: nat)
    ensures var cells := Cells(counter);
      cells[0].pos == 3 && cells[1].pos == 2 && cells[2].pos == 1 && cells[3].pos == 0
      && 1000 * cells[3].digit + 100 * cells[2].digit + 10 * cells[1].digit + cells[0].digit == counter % 10000
  {
    FourDigitsSpell(counter);
  }

  /** Phase j of `display()` leaves position 3 - j lit, alone, with the counter's digit j. */
  lemma DisplayShowsDigits(c: Chip, counter: nat, j: nat)
    requires Idle(c) && j < Positions
    ensures var r := Run(c, FrameWrites(Cells(counter), j + 1));
      r.enable == OneHot(3 - j) && DigitShown(r) == Some(Digit(counter, j))
  {
    FrameShowsEachCell(c, Cells(counter), j);
  }
}
