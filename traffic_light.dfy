/**
 * The traffic light: a one-second timer counts the current colour down and, on
 * reaching zero, moves to the next colour (red 60 s, then green 30 s, then
 * yellow 5 s), while the main loop shows the countdown on the four-digit display
 * and lights the lamp of the current colour.
 */
module TrafficLight {

  const GreenLight: nat := 30
  const YellowLight: nat := 5
  const RedLight: nat := 60

  /** `[greenLight, yellowLight, redLight]`, indexed by the colour that is ending. */
  const NextDurations: seq<nat> := [GreenLight, YellowLight, RedLight]

  /** How long colour `colorState` (0 red, 1 green, 2 yellow) stays lit. */
  function Duration(colorState: nat): (d: nat)
    requires colorState < 3
    ensures d > 0
  {
    [RedLight, GreenLight, YellowLight][colorState]
  }

  /** `(colorState + 1) % 3`: red, then green, then yellow, then red again. */
  function Next(colorState: nat): (n: nat)
    requires colorState < 3
    ensures n < 3
  {
    (colorState + 1) % 3
  }

  /** The timer's state: `colorState` and `counter`. */
  datatype State = State(colorState: nat, counter: nat)

  /** A reachable state: a colour, and between 1 and that colour's duration seconds left. */
  predicate ValidState(s: State)
  {
    s.colorState < 3 && 1 <= s.counter <= Duration(s.colorState)
  }

  /**
   * One `timer()` call: a second off the current colour, or, on its last second,
   * a switch to the next colour with that colour's full duration.
   */
  function Tick(s: State): (r: State)
    requires ValidState(s)
    ensures ValidState(r)
    ensures s.counter > 1 ==> r == State(s.colorState, s.counter - 1)
    ensures s.counter == 1 ==> r == State(Next(s.colorState), Duration(Next(s.colorState)))
  {
    if s.counter - 1 == 0 then State(Next(s.colorState), NextDurations[s.colorState])
    else s.(counter := s.counter - 1)
  }

  /** n ticks. */
  function Ticks(s: State, n: nat): (r: State)
    requires ValidState(s)
    ensures ValidState(r)
    decreases n
  {
    if n == 0 then s else Ticks(Tick(s), n - 1)
  }

  /** Seconds into the 95-second cycle that starts when red comes on. */
  function Elapsed(s: State): (e: nat)
    requires ValidState(s)
    ensures e < RedLight + GreenLight + YellowLight
  {
    var offset := [0, RedLight, RedLight + GreenLight][s.colorState];
    offset + Duration(s.colorState) - s.counter
  }

  /** Two reachable states at the same point of the cycle are the same state. */
  lemma ElapsedInjective(s: State, t: State)
    requires ValidState(s) && ValidState(t) && Elapsed(s) == Elapsed(t)
    ensures s == t
  {
  }

  /** Every tick is one second further round the cycle. */
  lemma TickAdvances(s: State)
    requires ValidState(s)
    ensures Elapsed(Tick(s)) == (Elapsed(s) + 1) % (RedLight + GreenLight + YellowLight)
  {
  }

  /** n ticks are n seconds further round the cycle. */
  lemma {:induction false} TicksAdvance(s: State, n: nat)
    requires ValidState(s)
    ensures Elapsed(Ticks(s, n)) == (Elapsed(s) + n) % (RedLight + GreenLight + YellowLight)
    decreases n
  {
    if n > 0 {
      TickAdvances(s);
      TicksAdvance(Tick(s), n - 1);
      ModStep(Elapsed(s), Elapsed(Tick(s)), n);
    }
  }

  lemma ModStep(e: nat, e1: nat, n: nat)
    requires n > 0 && e1 == (e + 1) % (RedLight + GreenLight + YellowLight)
    ensures (e1 + (n - 1)) % (RedLight + GreenLight + YellowLight) == (e + n) % (RedLight + GreenLight + YellowLight)
  {
  }

  /** The whole cycle: from every reachable state, 95 ticks (60 + 30 + 5) lead back to it. */
  lemma CycleIs95Seconds(s: State)
    requires ValidState(s)
    ensures Ticks(s, RedLight + GreenLight + YellowLight) == s
  {
    var t := Ticks(s, RedLight + GreenLight + YellowLight);
    TicksAdvance(s, RedLight + GreenLight + YellowLight);
    FullTurn(s, t);
  }

  /** A state a whole turn of the cycle after s is s. */
  lemma FullTurn(s: State, t: State)
    requires ValidState(s) && ValidState(t)
    requires Elapsed(t) == (Elapsed(s) + RedLight + GreenLight + YellowLight) % (RedLight + GreenLight + YellowLight)
    ensures t == s
  {
    ElapsedInjective(s, t);
  }

  /** Within a colour the counter goes down one per second. */
  lemma {:induction false} CountsDown(s: State, m: nat)
    requires ValidState(s) && m < s.counter
    ensures Ticks(s, m) == State(s.colorState, s.counter - m)
    decreases m
  {
    if m > 0 {
      CountsDown(Tick(s), m - 1);
    }
  }

  /** With k seconds left, k ticks switch to the next colour with its full duration. */
  lemma {:induction false} ColourEnds(s: State)
    requires ValidState(s)
    ensures Ticks(s, s.counter) == State(Next(s.colorState), Duration(Next(s.colorState)))
    decreases s.counter
  {
    assert Ticks(s, s.counter) == Ticks(Tick(s), s.counter - 1);
    if s.counter > 1 {
      ColourEnds(Tick(s));
    }
  }

  /** The lamps. */
  datatype Lamp = LedR | LedG | LedY

  /** One write to a lamp pin. */
  datatype LampWrite = LampWrite(lamp: Lamp, high: bool)

  /** Lamp levels, red, green, yellow, after some writes. */
  function Lamps(levels: seq<bool>, ws: seq<LampWrite>): (r: seq<bool>)
    requires |levels| == 3
    ensures |r| == 3
    decreases |ws|
  {
    if ws == [] then levels
    else
      var w := ws[|ws| - 1];
      var i := match w.lamp case LedR => 0 case LedG => 1 case LedY => 2;
      Lamps(levels, ws[..|ws| - 1])[i := w.high]
  }

  /** Only the lamp of colour `colorState` (red, green, yellow) is on. */
  function OnlyLit(colorState: nat): seq<bool>
  {
    [colorState == 0, colorState == 1, colorState == 2]
  }

  lemma LampsOfLightUp(levels: seq<bool>, out: seq<LampWrite>, colorState: nat)
    requires |levels| == 3 && colorState < 3
    requires out == [LampWrite(LedR, false), LampWrite(LedG, false), LampWrite(LedY, false),
                     LampWrite([LedR, LedG, LedY][colorState], true)]
    ensures Lamps(levels, out) == OnlyLit(colorState)
  {
    var a, b, c := out[0], out[1], out[2];
    assert out[..3] == [a, b, c];
    assert [a, b, c][..2] == [a, b];
    assert [a, b][..1] == [a];
    assert [a][..0] == [];
    assert Lamps(levels, [a]) == levels[0 := false];
    assert Lamps(levels, [a, b]) == levels[0 := false][1 := false];
    assert Lamps(levels, [a, b, c]) == [false, false, false];
  }
}

/**
 * The traffic light's shared globals, its lamp output and its countdown display.
 */
module TrafficLightBoard {
  import opened Optional
  import opened SegmentDisplay
  import opened TrafficLight

  /** The global state the timer thread and the main loop share. */
  class Light {
    var colorState: nat
    var counter: nat

    function Current(): State
      reads this
    {
      State(colorState, counter)
    }

    predicate Valid()
      reads this
    {
      ValidState(Current())
    }

    constructor ()
      ensures Current() == State(0, RedLight) && Valid()
    {
      colorState := 0;
      counter := RedLight;
    }

    /** `timer()`. */
    method Timer()
      requires Valid()
      modifies this
      ensures Valid() && Current() == Tick(old(Current()))
    {
      counter := counter - 1;
      if counter == 0 {
        counter := NextDurations[colorState];
        colorState := (colorState + 1) % 3;
      }
    }

    /** `lightup()`: every lamp low, then the lamp of the current colour high. */
    method LightUp() returns (out: seq<LampWrite>)
      requires Valid()
      ensures |out| == 4 && out[..3] == [LampWrite(LedR, false), LampWrite(LedG, false), LampWrite(LedY, false)]
      ensures forall levels :: |levels| == 3 ==> Lamps(levels, out) == OnlyLit(colorState)
    {
      out := [LampWrite(LedR, false), LampWrite(LedG, false), LampWrite(LedY, false)];
      out := out + [LampWrite([LedR, LedG, LedY][colorState], true)];
      forall levels | |levels| == 3
        ensures Lamps(levels, out) == OnlyLit(colorState)
      {
        LampsOfLightUp(levels, out, colorState);
      }
    }

    /** `display()`. */
    method Display() returns (out: seq<Write>)
      ensures out == FrameWrites(Cells(counter), |Cells(counter)|)
    {
      ghost var lead := if Digit(counter, 3) == 0 then 1 else 0;
      out := [];
      for i := 0 to Positions
        invariant out == FrameWrites(Cells(counter), if i < lead then 0 else i - lead)
      {
        var digit := counter / Pow10(3 - i) % 10;
        if i == 0 && digit == 0 {
          continue;
        }
        var phase := ShowCell(Cell(3 - i, digit));
        assert Cells(counter)[i - lead] == Cell(3 - i, digit);
        out := out + phase;
      }
    }
  }


  // ---------------------------------------------------------------- display()

  /**
   * The phases of `display()`: position p shows digit p of the counter (the units
   * at position 0), from position 3 down; the thousands phase is skipped when
   * that digit is 0, and no other leading zero is.
   */
  function Cells(counter: nat): (cells: seq<Cell>)
    ensures ValidCells(cells)
  {
    var lead := if Digit(counter, 3) == 0 then 1 else 0;
    seq(Positions - lead, j requires 0 <= j < Positions - lead => Cell(3 - lead - j, Digit(counter, 3 - lead - j)))
  }

  /**
   * On every reachable state the thousands phase is skipped and the three phases
   * left spell the counter at positions 2, 1 and 0: a leading hundreds zero stays lit.
   */
  lemma DisplayOfValid(s: State)
    requires ValidState(s)
    ensures var cells := Cells(s.counter);
      && |cells| == 3
      && cells[0].pos == 2 && cells[1].pos == 1 && cells[2].pos == 0
      && 100 * cells[0].digit + 10 * cells[1].digit + cells[2].digit == s.counter
  {
    var n := s.counter;
    FourDigitsSpell(n);
    assert n % 10000 == n;
    assert Digit(n, 3) == 0 by {
      assert Pow10(3) == 1000;
    }
  }

  /** Each phase of `display()` leaves its position lit, alone, with that position's digit of the counter. */
  lemma DisplayShowsDigits(c: Chip, counter: nat, j: nat)
    requires Idle(c) && j < |Cells(counter)|
    ensures var r := Run(c, FrameWrites(Cells(counter), j + 1));
      var p := Cells(counter)[j].pos;
      r.enable == OneHot(p) && DigitShown(r) == Some(Digit(counter, p))
  {
    var lead := if Digit(counter, 3) == 0 then 1 else 0;
    assert Cells(counter)[j] == Cell(3 - lead - j, Digit(counter, 3 - lead - j));
    FrameShowsEachCell(c, Cells(counter), j);
  }
}
