/**
 * The reversing alarm: each ultrasonic reading is classed as out of range (over
 * 400 cm), far (50 cm or more), near (between 20 and 50 cm) or close (20 cm or
 * less), shown on the LCD, and answered with no beep, two beeps or five beeps.
 */
module ReversingAlarm {

  /** Readings above this many centimetres are out of range. */
  const MaxRange: real := 400.0
  const FarFrom: real := 50.0
  const CloseUpTo: real := 20.0

  datatype Band = OutOfRange | Far | Near | Close

  /** The branch of `loop()` a reading takes: exactly one for every reading. */
  function Classify(dis: real): (b: Band)
    ensures b == OutOfRange <==> dis > MaxRange
    ensures b == Far <==> FarFrom <= dis <= MaxRange
    ensures b == Near <==> CloseUpTo < dis < FarFrom
    ensures b == Close <==> dis <= CloseUpTo
  {
    if dis > MaxRange then OutOfRange
    else if dis >= FarFrom then Far
    else if CloseUpTo < dis < FarFrom then Near
    else Close
  }

  /** How many beeps each band gives. */
  function Beeps(b: Band): (n: nat)
    ensures n == 0 <==> b == OutOfRange || b == Far
    ensures b == Near ==> n == 2
    ensures b == Close ==> n == 5
  {
    match b
    case OutOfRange => 0
    case Far => 0
    case Near => 2
    case Close => 5
  }

  /** What the LCD shows for a reading. */
  datatype Screen = OutOfRangeError | Distance(cm: real)

  /** The buzzer writes of n beeps: on, off, n times. */
  function Pulses(n: nat): (ws: seq<bool>)
    ensures |ws| == 2 * n
  {
    seq(2 * n, i requires 0 <= i < 2 * n => i % 2 == 0)
  }

  /** How many of the writes turn the buzzer on. */
  function CountOn(ws: seq<bool>): nat
    decreases |ws|
  {
    if ws == [] then 0 else CountOn(ws[..|ws| - 1]) + if ws[|ws| - 1] then 1 else 0
  }

  /** n beeps turn the buzzer on n times, and every one of them is followed by an off. */
  lemma {:induction false} PulsesCount(n: nat)
    ensures CountOn(Pulses(n)) == n
    ensures forall i :: 0 <= i < 2 * n && Pulses(n)[i] ==> i + 1 < 2 * n && !Pulses(n)[i + 1]
    decreases n
  {
    if n > 0 {
      var ws := Pulses(n);
      assert ws[..2 * n - 1][..2 * n - 2] == Pulses(n - 1);
      PulsesCount(n - 1);
    }
  }

  /** One pass of `loop()` for reading `dis`: returns the screen and the buzzer writes. */
  method Cycle(dis: real) returns (screen: Screen, buzzer: seq<bool>)
    ensures screen == if dis > MaxRange then OutOfRangeError else Distance(dis)
    ensures buzzer == Pulses(Beeps(Classify(dis)))
  {
    buzzer := [];
    if dis > MaxRange {
      screen := OutOfRangeError;
    } else {
      screen := Distance(dis);
      if dis >= FarFrom {
      } else if CloseUpTo < dis < FarFrom {
        for k := 0 to 2
          invariant buzzer == Pulses(k)
        {
          buzzer := buzzer + [true];
          buzzer := buzzer + [false];
        }
      } else if dis <= CloseUpTo {
        for k := 0 to 5
          invariant buzzer == Pulses(k)
        {
          buzzer := buzzer + [true];
          buzzer := buzzer + [false];
        }
      }
    }
  }

  /** Each pass leaves the buzzer off and beeps exactly as often as its band says. */
  lemma CycleEndsQuiet(dis: real)
    ensures var ws := Pulses(Beeps(Classify(dis)));
      CountOn(ws) == Beeps(Classify(dis)) && (ws == [] || !ws[|ws| - 1])
  {
    PulsesCount(Beeps(Classify(dis)));
  }
}
