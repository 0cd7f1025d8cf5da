/**
 * The four-digit seven-segment display driver that the repetition counter, the
 * counting device, the four-digit demo and the traffic light each carry a copy of:
 * a 74HC595 shift register fed over three lines (SDI serial data, SRCLK shift
 * clock, RCLK latch clock) and four digit-enable lines (`placePin`).
 *
 * Pin writes are modelled as an output trace. A small simulator of the shift
 * register (`Chip`, `Apply`, `Run`) gives a trace its meaning, so that what the
 * driver promises can be stated about what the display latches and enables.
 */
module SegmentDisplay {
  import opened Optional

  /** The output lines the driver writes. */
  datatype Line = SDI | SRCLK | RCLK | Place(pos: nat)

  /** One `write(level)` on an output line. */
  datatype Write = Write(line: Line, high: bool)

  /** Number of digit-enable lines. */
  const Positions: nat := 4

  /** The `number` table: segment codes (active low) of the digits 0..9. */
  const Table: seq<bv8> := [0xC0, 0xF9, 0xA4, 0xB0, 0x99, 0x92, 0x82, 0xF8, 0x80, 0x90]

  /**
   * `number[d]`. Every digit keeps the decimal point (bit 7, active low) off
   * and differs from the blank byte 0xFF that `clearDisplay` shifts.
   */
  function SegmentCode(d: nat): (code: bv8)
    requires d < 10
    ensures code & 0x80 == 0x80
    ensures code != 0xFF
  {
    Table[d]
  }

  /** The first digit at or after `from` whose code is `code`. */
  function FindCode(code: bv8, from: nat): (r: Option<nat>)
    requires from <= 10
    ensures r.Some? ==> from <= r.value < 10 && SegmentCode(r.value) == code
    ensures r.None? ==> forall d :: from <= d < 10 ==> SegmentCode(d) != code
    decreases 10 - from
  {
    if from == 10 then None
    else if Table[from] == code then Some(from)
    else FindCode(code, from + 1)
  }

  /** Reads a latched segment code back as a digit, if it is one. */
  function DigitOfCode(code: bv8): Option<nat>
  {
    FindCode(code, 0)
  }

  /** The table is unambiguous: every digit's code reads back as that digit. */
  lemma CodeRoundTrip(d: nat)
    requires d < 10
    ensures DigitOfCode(SegmentCode(d)) == Some(d)
  {
    assert forall i, j :: 0 <= i < j < 10 ==> Table[i] != Table[j];
  }

  // ---------------------------------------------------------------- bits

  /** Bit k of a byte. */
  function Bit(data: bv8, k: nat): bool
    requires k < 8
  {
    (data >> k) & 1 == 1
  }

  /**
   * The level `hc595_shift` puts on SDI at step i: `0x80 & (data << i)`.
   * Python's shift does not truncate, but only bit 7 of the shifted value is
   * kept, and that bit is the same in eight bits.
   */
  function SdiLevel(data: bv8, i: nat): bool
    requires i < 8
  {
    (0x80 & (data << i)) != 0
  }

  lemma SdiIsBit(data: bv8, i: nat)
    requires i < 8
    ensures SdiLevel(data, i) == Bit(data, 7 - i)
  {
  }

  /** The eight bits of a byte, bit 0 first. */
  function Bits(data: bv8): seq<bool>
  {
    [Bit(data, 0), Bit(data, 1), Bit(data, 2), Bit(data, 3),
     Bit(data, 4), Bit(data, 5), Bit(data, 6), Bit(data, 7)]
  }

  /** The byte whose bit k is b[k]. */
  function FromBits(b: seq<bool>): bv8
    requires |b| == 8
  {
    (if b[0] then 0x01 else 0) | (if b[1] then 0x02 else 0) |
    (if b[2] then 0x04 else 0) | (if b[3] then 0x08 else 0) |
    (if b[4] then 0x10 else 0) | (if b[5] then 0x20 else 0) |
    (if b[6] then 0x40 else 0) | (if b[7] then 0x80 else 0)
  }

  lemma BitsRoundTrip(data: bv8)
    ensures FromBits(Bits(data)) == data
  {
  }

  // ---------------------------------------------------------------- the shift register

  /**
   * The 74HC595 as the driver sees it: the last level on each clock line, the
   * eight shift stages (stage 0 receives SDI), the eight latched outputs and
   * the four digit enables.
   */
  datatype Chip = Chip(sdi: bool, srclk: bool, rclk: bool,
                       shift: seq<bool>, latched: seq<bool>, enable: seq<bool>)

  predicate Valid(c: Chip)
  {
    |c.shift| == 8 && |c.latched| == 8 && |c.enable| == Positions
  }

  /** Both clocks low: the state every driver routine starts and ends in. */
  predicate Idle(c: Chip)
  {
    Valid(c) && !c.srclk && !c.rclk
  }

  /** One write: a rising SRCLK shifts SDI in, a rising RCLK copies the stages to the outputs. */
  function Apply(c: Chip, w: Write): (r: Chip)
    requires Valid(c)
    ensures Valid(r)
  {
    match w.line
    case SDI => c.(sdi := w.high)
    case SRCLK =>
      if w.high && !c.srclk then c.(srclk := true, shift := [c.sdi] + c.shift[..7])
      else c.(srclk := w.high)
    case RCLK =>
      if w.high && !c.rclk then c.(rclk := true, latched := c.shift)
      else c.(rclk := w.high)
    case Place(p) =>
      if p < Positions then c.(enable := c.enable[p := w.high]) else c
  }

  /** The chip after a whole trace of writes, in order. */
  function Run(c: Chip, ws: seq<Write>): (r: Chip)
    requires Valid(c)
    ensures Valid(r)
    decreases |ws|
  {
    if ws == [] then c else Apply(Run(c, ws[..|ws| - 1]), ws[|ws| - 1])
  }

  lemma {:induction false} RunAppend(c: Chip, a: seq<Write>, b: seq<Write>)
    requires Valid(c)
    ensures Run(c, a + b) == Run(Run(c, a), b)
    decreases |b|
  {
    if b == [] {
      assert a + b == a;
    } else {
      var n := |b| - 1;
      assert (a + b)[..|a + b| - 1] == a + b[..n];
      RunAppend(c, a, b[..n]);
    }
  }

  lemma RunSnoc(c: Chip, ws: seq<Write>, w: Write)
    requires Valid(c)
    ensures Run(c, ws + [w]) == Apply(Run(c, ws), w)
  {
    assert (ws + [w])[..|ws|] == ws;
  }

  lemma RunTwo(c: Chip, w0: Write, w1: Write)
    requires Valid(c)
    ensures Run(c, [w0, w1]) == Apply(Apply(c, w0), w1)
  {
    RunSnoc(c, [], w0);
    assert [] + [w0] == [w0];
    RunSnoc(c, [w0], w1);
    assert [w0] + [w1] == [w0, w1];
  }

  lemma RunThree(c: Chip, w0: Write, w1: Write, w2: Write)
    requires Valid(c)
    ensures Run(c, [w0, w1, w2]) == Apply(Apply(Apply(c, w0), w1), w2)
  {
    RunTwo(c, w0, w1);
    RunSnoc(c, [w0, w1], w2);
    assert [w0, w1] + [w2] == [w0, w1, w2];
  }

  // ---------------------------------------------------------------- hc595_shift and clearDisplay

  /** Step i of `hc595_shift`: set SDI, then one SRCLK pulse. */
  function BitStep(data: bv8, i: nat): seq<Write>
    requires i < 8
  {
    [Write(SDI, SdiLevel(data, i)), Write(SRCLK, true), Write(SRCLK, false)]
  }

  /** Write j of the bit steps: SDI for bit step j / 3, then the two SRCLK edges. */
  function StepWrite(data: bv8, j: nat): Write
    requires j < 24
  {
    if j % 3 == 0 then Write(SDI, SdiLevel(data, j / 3)) else Write(SRCLK, j % 3 == 1)
  }

  /** The first n steps of `hc595_shift`. */
  function BitSteps(data: bv8, n: nat): (ws: seq<Write>)
    requires n <= 8
    ensures |ws| == 3 * n
  {
    seq(3 * n, j requires 0 <= j < 3 * n => StepWrite(data, j))
  }

  lemma BitStepsSnoc(data: bv8, n: nat)
    requires n < 8
    ensures BitSteps(data, n + 1) == BitSteps(data, n) + BitStep(data, n)
  {
    var lhs := BitSteps(data, n + 1);
    var rhs := BitSteps(data, n) + BitStep(data, n);
    forall j | 0 <= j < 3 * n + 3
      ensures lhs[j] == rhs[j]
    {
      if j >= 3 * n {
        assert j / 3 == n && j % 3 == j - 3 * n;
      }
    }
  }

  /** One RCLK pulse. */
  const Latch: seq<Write> := [Write(RCLK, true), Write(RCLK, false)]

  /** Everything `hc595_shift(data)` writes: eight bit steps, most significant bit first, then a latch. */
  function ShiftWrites(data: bv8): seq<Write>
  {
    BitSteps(data, 8) + Latch
  }

  /** One bit step shifts bit 7 - i of `data` into stage 0 and leaves the clocks low. */
  lemma BitStepEffect(c: Chip, data: bv8, i: nat)
    requires Idle(c) && i < 8
    ensures Run(c, BitStep(data, i))
         == c.(sdi := Bit(data, 7 - i), shift := [Bit(data, 7 - i)] + c.shift[..7])
  {
    var step := BitStep(data, i);
    assert step == [step[0], step[1], step[2]];
    RunThree(c, step[0], step[1], step[2]);
    SdiIsBit(data, i);
  }

  /** The last n bits of `data` sent, in stage order: bit 8 - n first, bit 7 last. */
  function Sent(data: bv8, n: nat): (b: seq<bool>)
    requires n <= 8
  {
    seq(n, j requires 0 <= j < n => Bit(data, 8 - n + j))
  }

  lemma SentAllIsBits(data: bv8)
    ensures Sent(data, 8) == Bits(data)
  {
  }

  /** Shifting bit 8 - n in front of the stages after n - 1 steps gives the stages after n steps. */
  lemma ShiftInSent(data: bv8, n: nat, stages: seq<bool>)
    requires 1 <= n <= 8 && |stages| == 8
    ensures [Bit(data, 8 - n)] + (Sent(data, n - 1) + stages[..9 - n])[..7] == Sent(data, n) + stages[..8 - n]
  {
    var lhs := [Bit(data, 8 - n)] + (Sent(data, n - 1) + stages[..9 - n])[..7];
    var rhs := Sent(data, n) + stages[..8 - n];
    assert |lhs| == 8 == |rhs|;
    forall j | 0 <= j < 8
      ensures lhs[j] == rhs[j]
    {
      if j == 0 {
      } else if j < n {
        assert lhs[j] == Sent(data, n - 1)[j - 1];
      } else {
        assert lhs[j] == stages[j - n];
      }
    }
  }

  /** After n bit steps the first n stages hold the n bits sent, the rest have moved up by n. */
  lemma {:induction false} BitStepsEffect(c: Chip, data: bv8, n: nat)
    requires Idle(c) && n <= 8
    ensures Run(c, BitSteps(data, n)).(sdi := c.sdi) == c.(shift := Sent(data, n) + c.shift[..8 - n])
  {
    if n == 0 {
      assert c.shift[..8] == c.shift;
    } else {
      var prev := BitSteps(data, n - 1);
      var step := BitStep(data, n - 1);
      BitStepsSnoc(data, n - 1);
      RunAppend(c, prev, step);
      BitStepsEffect(c, data, n - 1);
      var c1 := Run(c, prev);
      BitStepEffect(c1, data, n - 1);
      ShiftInSent(data, n, c.shift);
    }
  }

  /** `hc595_shift(data)` leaves exactly the bits of `data` on the latched outputs. */
  lemma ShiftLatches(c: Chip, data: bv8)
    requires Idle(c)
    ensures var r := Run(c, ShiftWrites(data));
      && Idle(r) && r.enable == c.enable
      && r.latched == Bits(data) && FromBits(r.latched) == data
  {
    BitStepsEffect(c, data, 8);
    var c1 := Run(c, BitSteps(data, 8));
    SentAllIsBits(data);
    assert c1.shift == Bits(data);
    RunAppend(c, BitSteps(data, 8), Latch);
    RunTwo(c1, Latch[0], Latch[1]);
    BitsRoundTrip(data);
  }

  /** `clearDisplay`: eight steps with SDI high, then a latch. */
  method ClearDisplay() returns (out: seq<Write>)
    ensures out == ShiftWrites(0xFF)
  {
    out := [];
    for i := 0 to 8
      invariant out == BitSteps(0xFF, i)
    {
      BitStepsSnoc(0xFF, i);
      out := out + [Write(SDI, true), Write(SRCLK, true), Write(SRCLK, false)];
    }
    out := out + [Write(RCLK, true), Write(RCLK, false)];
  }

  /** `hc595_shift(data)`. */
  method Shift(data: bv8) returns (out: seq<Write>)
    ensures out == ShiftWrites(data)
  {
    out := [];
    for i := 0 to 8
      invariant out == BitSteps(data, i)
    {
      BitStepsSnoc(data, i);
      out := out + [Write(SDI, (0x80 & (data << i)) != 0), Write(SRCLK, true), Write(SRCLK, false)];
    }
    out := out + [Write(RCLK, true), Write(RCLK, false)];
  }

  // ---------------------------------------------------------------- pickDigit

  /** Drives the first n enable lines low. */
  function AllLow(n: nat): seq<Write>
    requires n <= Positions
  {
    seq(n, p requires 0 <= p < n => Write(Place(p), false))
  }

  /** Everything `pickDigit(pos)` writes. */
  function PickWrites(pos: nat): seq<Write>
    requires pos < Positions
  {
    AllLow(Positions) + [Write(Place(pos), true)]
  }

  function OneHot(pos: nat): seq<bool>
  {
    [pos == 0, pos == 1, pos == 2, pos == 3]
  }

  /** `pickDigit`: every enable line low, then the selected one high. */
  method PickDigit(pos: nat) returns (out: seq<Write>)
    requires pos < Positions
    ensures out == PickWrites(pos)
  {
    out := [];
    for p := 0 to Positions
      invariant out == AllLow(p)
    {
      AllLowSnoc(p);
      out := out + [Write(Place(p), false)];
    }
    out := out + [Write(Place(pos), true)];
  }

  /** The enables after the first n have been driven low. */
  function LowFirst(enable: seq<bool>, n: nat): seq<bool>
    requires n <= |enable|
  {
    seq(|enable|, p requires 0 <= p < |enable| => p >= n && enable[p])
  }

  lemma AllLowSnoc(n: nat)
    requires n < Positions
    ensures AllLow(n + 1) == AllLow(n) + [Write(Place(n), false)]
  {
  }

  /** Driving enable line n low extends the low prefix by one. */
  lemma LowOne(c: Chip, n: nat)
    requires Valid(c) && n < Positions
    ensures Apply(c.(enable := LowFirst(c.enable, n)), Write(Place(n), false)) == c.(enable := LowFirst(c.enable, n + 1))
  {
    assert LowFirst(c.enable, n)[n := false] == LowFirst(c.enable, n + 1);
  }

  lemma {:induction false} AllLowEffect(c: Chip, n: nat)
    requires Valid(c) && n <= Positions
    ensures Run(c, AllLow(n)) == c.(enable := LowFirst(c.enable, n))
  {
    if n == 0 {
      assert LowFirst(c.enable, 0) == c.enable;
    } else {
      AllLowEffect(c, n - 1);
      AllLowSnoc(n - 1);
      RunSnoc(c, AllLow(n - 1), Write(Place(n - 1), false));
      LowOne(c, n - 1);
    }
  }

  /** After `pickDigit(pos)` exactly the enable line `pos` is high and nothing else has changed. */
  lemma PickSelects(c: Chip, pos: nat)
    requires Valid(c) && pos < Positions
    ensures Run(c, PickWrites(pos)) == c.(enable := OneHot(pos))
  {
    AllLowEffect(c, Positions);
    RunSnoc(c, AllLow(Positions), Write(Place(pos), true));
    assert LowFirst(c.enable, Positions)[pos := true] == OneHot(pos);
  }

  // ---------------------------------------------------------------- digit phases and frames

  /** One digit phase of a display refresh: digit `digit` at enable position `pos`. */
  datatype Cell = Cell(pos: nat, digit: nat)

  predicate ValidCell(cell: Cell)
  {
    cell.pos < Positions && cell.digit < 10
  }

  predicate ValidCells(cells: seq<Cell>)
  {
    forall i :: 0 <= i < |cells| ==> ValidCell(cells[i])
  }

  /** A phase: `clearDisplay()`, `pickDigit(pos)`, `hc595_shift(number[digit])`. */
  function PhaseWrites(cell: Cell): seq<Write>
    requires ValidCell(cell)
  {
    ShiftWrites(0xFF) + PickWrites(cell.pos) + ShiftWrites(SegmentCode(cell.digit))
  }

  /** One phase of a refresh loop's body. */
  method ShowCell(cell: Cell) returns (out: seq<Write>)
    requires ValidCell(cell)
    ensures out == PhaseWrites(cell)
  {
    var clear := ClearDisplay();
    var pick := PickDigit(cell.pos);
    var shift := Shift(SegmentCode(cell.digit));
    out := clear + pick + shift;
  }

  /** The first n phases of a refresh, in order. */
  function FrameWrites(cells: seq<Cell>, n: nat): seq<Write>
    requires ValidCells(cells) && n <= |cells|
  {
    if n == 0 then [] else FrameWrites(cells, n - 1) + PhaseWrites(cells[n - 1])
  }

  /** A refresh of four cells, written out phase by phase. */
  lemma FrameOfFour(cells: seq<Cell>, p0: seq<Write>, p1: seq<Write>, p2: seq<Write>, p3: seq<Write>)
    requires ValidCells(cells) && |cells| == 4
    requires p0 == PhaseWrites(cells[0]) && p1 == PhaseWrites(cells[1])
    requires p2 == PhaseWrites(cells[2]) && p3 == PhaseWrites(cells[3])
    ensures FrameWrites(cells, 4) == p0 + p1 + p2 + p3
  {
    assert FrameWrites(cells, 1) == p0 by {
      assert [] + p0 == p0;
    }
    assert FrameWrites(cells, 2) == p0 + p1;
    assert FrameWrites(cells, 3) == p0 + p1 + p2;
  }

  /** All segments off (the outputs are active low). */
  const Blank: seq<bool> := [true, true, true, true, true, true, true, true]

  /** The chip lights `cell.digit` at `cell.pos` and at no other position. */
  predicate Shows(c: Chip, cell: Cell)
    requires ValidCell(cell)
  {
    c.enable == OneHot(cell.pos) && c.latched == Bits(SegmentCode(cell.digit))
  }

  /** The digit the latched outputs read as, if any. */
  function DigitShown(c: Chip): Option<nat>
    requires Valid(c)
  {
    DigitOfCode(FromBits(c.latched))
  }

  /**
   * A phase blanks the segments before it enables the new position (so no
   * digit ghosts onto its neighbour), and ends showing its digit there.
   */
  lemma PhaseShows(c: Chip, cell: Cell)
    requires Idle(c) && ValidCell(cell)
    ensures var selected := Run(c, ShiftWrites(0xFF) + PickWrites(cell.pos));
      selected.latched == Blank && selected.enable == OneHot(cell.pos)
    ensures var r := Run(c, PhaseWrites(cell));
      Idle(r) && Shows(r, cell) && DigitShown(r) == Some(cell.digit)
  {
    var clear := ShiftWrites(0xFF);
    var pick := PickWrites(cell.pos);
    var shift := ShiftWrites(SegmentCode(cell.digit));
    ShiftLatches(c, 0xFF);
    var c1 := Run(c, clear);
    assert Bits(0xFF) == Blank;
    RunAppend(c, clear, pick);
    PickSelects(c1, cell.pos);
    var c2 := Run(c1, pick);
    RunAppend(c, clear + pick, shift);
    ShiftLatches(c2, SegmentCode(cell.digit));
    CodeRoundTrip(cell.digit);
  }

  lemma {:induction false} FrameIdle(c: Chip, cells: seq<Cell>, n: nat)
    requires Idle(c) && ValidCells(cells) && n <= |cells|
    ensures Idle(Run(c, FrameWrites(cells, n)))
  {
    if n > 0 {
      FrameIdle(c, cells, n - 1);
      RunAppend(c, FrameWrites(cells, n - 1), PhaseWrites(cells[n - 1]));
      PhaseShows(Run(c, FrameWrites(cells, n - 1)), cells[n - 1]);
    }
  }

  /** Phase k of a refresh ends with the chip showing cell k. */
  lemma FrameShowsEachCell(c: Chip, cells: seq<Cell>, k: nat)
    requires Idle(c) && ValidCells(cells) && k < |cells|
    ensures var r := Run(c, FrameWrites(cells, k + 1));
      Shows(r, cells[k]) && DigitShown(r) == Some(cells[k].digit)
  {
    FrameIdle(c, cells, k);
    RunAppend(c, FrameWrites(cells, k), PhaseWrites(cells[k]));
    PhaseShows(Run(c, FrameWrites(cells, k)), cells[k]);
  }

  // ---------------------------------------------------------------- decimal digits

  function Pow10(k: nat): (r: nat)
    ensures r > 0
  {
    if k == 0 then 1 else 10 * Pow10(k - 1)
  }

  /** Decimal digit k of n, as the display programs compute it: `(n // 10**k) % 10`. */
  function Digit(n: nat, k: nat): (d: nat)
    ensures d < 10
  {
    n / Pow10(k) % 10
  }

  lemma {:induction false} MulAtLeast(k: int, d: int)
    requires k >= 1 && d > 0
    ensures k * d >= d
  {
    if k > 1 {
      MulAtLeast(k - 1, d);
      assert k * d == (k - 1) * d + d;
    }
  }

  /** Quotient and remainder are the only pair with n == q * d + r and 0 <= r < d. */
  lemma DivModUnique(n: int, d: int, q: int, r: int)
    requires d > 0 && 0 <= r < d && n == q * d + r
    ensures n / d == q && n % d == r
  {
    var q0, r0 := n / d, n % d;
    assert n == q0 * d + r0;
    assert (q - q0) * d == r0 - r by {
      assert q * d - q0 * d == (q - q0) * d;
    }
    if q > q0 {
      MulAtLeast(q - q0, d);
    } else if q < q0 {
      MulAtLeast(q0 - q, d);
    }
  }

  /** Splitting off one more decimal digit: n % 10p == n % p + p * ((n / p) % 10). */
  lemma ModSplit(n: nat, p: nat)
    requires p > 0
    ensures n % (10 * p) == n % p + p * (n / p % 10)
    ensures n % (10 * p) / p == n / p % 10
  {
    var q, r := n / p, n % p;
    var a, e := q / 10, q % 10;
    assert n == q * p + r;
    assert q == a * 10 + e;
    assert q * p == a * (10 * p) + e * p by {
      assert q * p == (a * 10 + e) * p;
    }
    assert e * p <= 9 * p by {
      if e < 9 {
        MulAtLeast(9 - e, p);
        assert (9 - e) * p == 9 * p - e * p;
      }
    }
    assert e * p >= 0;
    DivModUnique(n, 10 * p, a, e * p + r);
    DivModUnique(e * p + r, p, e, r);
    assert p * e == e * p;
  }

  /** The four digits a display shows spell n % 10000: higher digits are dropped. */
  lemma FourDigitsSpell(n: nat)
    ensures Digit(n, 0) + 10 * Digit(n, 1) + 100 * Digit(n, 2) + 1000 * Digit(n, 3) == n % 10000
  {
    assert Pow10(1) == 10 && Pow10(2) == 100 && Pow10(3) == 1000;
    assert Digit(n, 0) == n % 10;
    ModSplit(n, 10);
    ModSplit(n, 100);
    ModSplit(n, 1000);
  }

  /** `n % 10**(k+1) // 10**k` is digit k, the form the counting device writes. */
  lemma ModDivIsDigit(n: nat, k: nat)
    ensures n % Pow10(k + 1) / Pow10(k) == Digit(n, k)
  {
    ModSplit(n, Pow10(k));
  }

  /** Adding a multiple of 10000 changes none of the four digits a display shows. */
  lemma DigitWraps(n: nat, m: nat, k: nat)
    requires k < Positions
    ensures Digit(n + 10000 * m, k) == Digit(n, k)
  {
    var p := Pow10(k + 1);
    var c := if k == 0 then 1000 else if k == 1 then 100 else if k == 2 then 10 else 1;
    assert c * p == 10000 by {
      assert Pow10(1) == 10 && Pow10(2) == 100 && Pow10(3) == 1000 && Pow10(4) == 10000;
    }
    var q := n / p + c * m;
    assert q * p == n / p * p + m * (c * p);
    DivModUnique(n + 10000 * m, p, q, n % p);
    ModDivIsDigit(n, k);
    ModDivIsDigit(n + 10000 * m, k);
  }
}
