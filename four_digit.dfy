/**
 * The four-digit counter demo: a one-second timer increments a global counter
 * while the main loop keeps refreshing the display, putting digit i of the
 * counter (the units first) at position i.
 */
module FourDigit {
  import opened Optional
  import opened SegmentDisplay

  /** One refresh pass puts digit i of the counter at position i: the units digit is at position 0. */
  function Cells(counter: nat): (cells: seq<Cell>)
    ensures ValidCells(cells)
  {
    seq(Positions, i requires 0 <= i < Positions => Cell(i, Digit(counter, i)))
  }

  /** The global `counter` that the timer thread and the display loop share. */
  class Counter {
    var counter: nat

    constructor ()
      ensures counter == 0
    {
      counter := 0;
    }

    /** `timer()`: one tick adds one to the counter. */
    method Timer()
      modifies this
      ensures counter == old(counter) + 1
    {
      counter := counter + 1;
    }

    /** One pass of the `for i in range(4)` refresh loop. */
    method RefreshPass() returns (out: seq<Write>)
      ensures out == FrameWrites(Cells(counter), Positions)
    {
      out := [];
      for i := 0 to Positions
        invariant out == FrameWrites(Cells(counter), i)
      {
        var digit := Digit(counter, i);
        var phase := ShowCell(Cell(i, digit));
        assert Cells(counter)[i] == Cell(i, digit);
        out := out + phase;
      }
    }
  }

  /** Read from position 3 down to position 0, the digits shown spell the counter modulo 10000. */
  lemma PassSpellsCounter(counter: nat)
    ensures var cells := Cells(counter);
      1000 * cells[3].digit + 100 * cells[2].digit + 10 * cells[1].digit + cells[0].digit == counter % 10000
  {
    FourDigitsSpell(counter);
  }

  /** After 10000 more ticks the display shows the same digits again. */
  lemma PassWraps(counter: nat, m: nat)
    ensures Cells(counter + 10000 * m) == Cells(counter)
  {
    forall i | 0 <= i < Positions
      ensures Cells(counter + 10000 * m)[i] == Cells(counter)[i]
    {
      DigitWraps(counter, m, i);
    }
  }

  /** Each phase of a pass leaves position i lit, alone, with the counter's digit i. */
  lemma PassShowsDigits(c: Chip, counter: nat, i: nat)
    requires Idle(c) && i < Positions
    ensures var r := Run(c, FrameWrites(Cells(counter), i + 1));
      r.enable == OneHot(i) && DigitShown(r) == Some(Digit(counter, i))
  {
    FrameShowsEachCell(c, Cells(counter), i);
  }
}
