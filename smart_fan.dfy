/**
 * The temperature-following fan: a button cycles the fan level 0..4 and records
 * the current temperature as the mark; every half second a new reading that has
 * drifted 5 degrees or more from the mark moves a running fan one level down or
 * up and becomes the new mark, and the motor is driven at 25% per level.
 */
module SmartFan {
  import opened Optional

  /** The highest level; `motor_run` caps at it. */
  const MaxLevel: int := 4
  /** Motor speed per level, in percent. */
  const SpeedStep: int := 25
  /** The drift, in degrees Celsius, that changes the level. */
  const Drift: real := 5.0

  /** The level `motor_run(level)` returns: 0 stays 0, anything from 4 up is capped at 4. */
  function MotorLevel(level: int): (r: int)
    ensures level == 0 ==> r == 0
    ensures level >= MaxLevel ==> r == MaxLevel
    ensures level < MaxLevel ==> r == level
    ensures 0 <= level ==> 0 <= r <= MaxLevel
  {
    if level == 0 then 0
    else if level >= MaxLevel then MaxLevel
    else level
  }

  /** The globals `level`, `currentTemp` and `markTemp`, and the speed last sent to the motor. */
  datatype Fan = Fan(level: int, currentTemp: Option<real>, markTemp: Option<real>, speed: int)

  /** The level is one of 0..4 and the motor runs at one of 0, 25, 50, 75, 100. */
  predicate Valid(f: Fan)
  {
    0 <= f.level <= MaxLevel && 0 <= f.speed <= SpeedStep * MaxLevel && f.speed % SpeedStep == 0
  }

  /** The globals when `main` starts: level 0, `currentTemp` 0 and the first reading as the mark. */
  function Start(first: Option<real>): (f: Fan)
    ensures Valid(f)
  {
    Fan(0, Some(0.0), first, 0)
  }

  /** `changeLevel()`, the button callback: the next level round the cycle, and the current temperature as the mark. */
  function Pressed(f: Fan): (r: Fan)
    requires Valid(f)
    ensures Valid(r)
    ensures r.level == if f.level == MaxLevel then 0 else f.level + 1
    ensures r.markTemp == f.currentTemp && r.currentTemp == f.currentTemp && r.speed == f.speed
  {
    f.(level := (f.level + 1) % 5, markTemp := f.currentTemp)
  }

  /** How a pass of the main loop ended. */
  datatype Pass =
    | Skipped    // the reading was None: `continue`
    | TypeError  // `currentTemp - markTemp` with no mark: the script stops
    | Ran

  datatype Outcome = Outcome(fan: Fan, pass: Pass)

  /** One pass of the main loop with temperature reading `reading`. */
  function Tick(f: Fan, reading: Option<real>): (o: Outcome)
    requires Valid(f)
    ensures Valid(o.fan) && o.fan.currentTemp == reading
    ensures o.pass == Skipped <==> reading == None
    ensures o.pass == TypeError <==> reading != None && f.level != 0 && f.markTemp == None
    ensures o.pass != Ran ==> o.fan == f.(currentTemp := reading)
    ensures o.pass == Ran ==> o.fan.speed == SpeedStep * o.fan.level
    ensures o.pass == Ran && f.level == 0 ==> o.fan.level == 0 && o.fan.markTemp == f.markTemp
    ensures o.pass == Ran && f.level != 0 ==>
      var drift := reading.value - f.markTemp.value;
      && (drift <= -Drift ==> o.fan.level == f.level - 1 && o.fan.markTemp == reading)
      && (drift >= Drift ==> o.fan.level == (if f.level < MaxLevel then f.level + 1 else f.level) && o.fan.markTemp == reading)
      && (-Drift < drift < Drift ==> o.fan.level == f.level && o.fan.markTemp == f.markTemp)
  {
    if reading.None? then Outcome(f.(currentTemp := None), Skipped)
    else
      var current := reading.value;
      if f.level != 0 && f.markTemp.None? then Outcome(f.(currentTemp := reading), TypeError)
      else
        var adjusted :=
          if f.level == 0 then f
          else if current - f.markTemp.value <= -Drift then f.(level := f.level - 1, markTemp := reading)
          else if current - f.markTemp.value >= Drift then
            f.(level := if f.level < MaxLevel then f.level + 1 else f.level, markTemp := reading)
          else f;
        var level := MotorLevel(adjusted.level);
        Outcome(adjusted.(currentTemp := reading, level := level, speed := SpeedStep * level), Ran)
  }

  /** What happens between two passes: a button press, or a temperature reading and a pass of the loop. */
  datatype Event = Press | Reading(value: Option<real>)

  /** The fan after a sequence of events, and whether the script stopped on a `TypeError`. */
  datatype Session = Session(fan: Fan, stopped: bool)

  function Run(f: Fan, events: seq<Event>): (s: Session)
    requires Valid(f)
    ensures Valid(s.fan)
    decreases |events|
  {
    if events == [] then Session(f, false)
    else
      var prev := Run(f, events[..|events| - 1]);
      if prev.stopped then prev
      else match events[|events| - 1]
        case Press => Session(Pressed(prev.fan), false)
        case Reading(r) =>
          var o := Tick(prev.fan, r);
          Session(o.fan, o.pass == TypeError)
  }

  /** The script can stop on a `TypeError` only after a None reading: with a mark and a current reading to start from and no sensor fault, it never does. */
  lemma {:induction false} NoFaultNoTypeError(f: Fan, events: seq<Event>)
    requires Valid(f) && f.markTemp != None && f.currentTemp != None
    requires forall i :: 0 <= i < |events| ==> events[i] != Reading(None)
    ensures var s := Run(f, events);
      !s.stopped && s.fan.markTemp != None && s.fan.currentTemp != None
    decreases |events|
  {
    if events != [] {
      NoFaultNoTypeError(f, events[..|events| - 1]);
    }
  }

  /** The stop the script can reach: a None reading, then a press to a running level, then any reading. */
  lemma FaultThenPressStops(f: Fan, t: real)
    requires Valid(f) && f.level < MaxLevel
    ensures Run(f, [Reading(None), Press, Reading(Some(t))]).stopped
  {
    var s1 := Run(f, [Reading(None)]);
    assert [Reading(None), Press][..1] == [Reading(None)];
    var s2 := Run(f, [Reading(None), Press]);
    assert s2.fan.level != 0 && s2.fan.markTemp == None;
    assert [Reading(None), Press, Reading(Some(t))][..2] == [Reading(None), Press];
  }

  /** Five presses bring the fan back to the level it started from. */
  lemma FivePressesCycle(f: Fan)
    requires Valid(f)
    ensures Pressed(Pressed(Pressed(Pressed(Pressed(f))))).level == f.level
  {
  }

  /** Once the fan is off, readings alone never turn it on: only a press does. */
  lemma {:induction false} OffStaysOff(f: Fan, readings: seq<Event>)
    requires Valid(f) && f.level == 0
    requires forall i :: 0 <= i < |readings| ==> readings[i].Reading?
    ensures Run(f, readings).fan.level == 0
    decreases |readings|
  {
    if readings != [] {
      OffStaysOff(f, readings[..|readings| - 1]);
    }
  }

  /** The script's globals and the motor as an object driven by its callback and loop. */
  class Controller {
    var level: int
    var currentTemp: Option<real>
    var markTemp: Option<real>
    /** The speed last sent to the motor. */
    var motorSpeed: int

    function State(): Fan
      reads this
    {
      Fan(level, currentTemp, markTemp, motorSpeed)
    }

    /** `main` up to its loop: the first reading becomes the mark. */
    constructor(first: Option<real>)
      ensures State() == Start(first)
    {
      level := 0;
      currentTemp := Some(0.0);
      markTemp := first;
      motorSpeed := 0;
    }

    /** `motor_run(lvl)`: drives the motor and returns the capped level. */
    method MotorRun(lvl: int) returns (r: int)
      modifies this
      ensures r == MotorLevel(lvl) && motorSpeed == SpeedStep * r
      ensures level == old(level) && currentTemp == old(currentTemp) && markTemp == old(markTemp)
    {
      if lvl == 0 {
        motorSpeed := 0;
        return 0;
      }
      r := lvl;
      if r >= MaxLevel {
        r := MaxLevel;
      }
      motorSpeed := r * SpeedStep;
    }

    /** `changeLevel()`. */
    method ChangeLevel()
      requires Valid(State())
      modifies this
      ensures State() == Pressed(old(State()))
    {
      level := (level + 1) % 5;
      markTemp := currentTemp;
    }

    /** One pass of the main loop. */
    method MainPass(reading: Option<real>) returns (pass: Pass)
      requires Valid(State())
      modifies this
      ensures State() == Tick(old(State()), reading).fan
      ensures pass == Tick(old(State()), reading).pass
    {
      currentTemp := reading;
      if reading == None {
        return Skipped;
      }
      var current := reading.value;
      if level != 0 {
        if markTemp == None {
          return TypeError;
        }
        if current - markTemp.value <= -Drift {
          level := level - 1;
          markTemp := reading;
        } else if current - markTemp.value >= Drift {
          if level < MaxLevel {
            level := level + 1;
          }
          markTemp := reading;
        }
      }
      level := MotorRun(level);
      pass := Ran;
    }
  }
}
