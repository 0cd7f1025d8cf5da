/**
 * The voice- and touch-controlled fan: each accepted touch raises the speed by
 * 10 and wraps past 100 to a stop, touches within half a second of the last
 * accepted one are ignored, and the assistant's evaluated reply may set the
 * speed directly.
 */
module TouchFan {
  import opened Optional

  /** Touches closer than this (seconds) to the last accepted one are ignored. */
  const Debounce: real := 0.5
  const Increment: int := 10
  const MaxSpeed: int := 100
  /** The speed a reply without a usable speed leaves in `speed`. */
  const NoSpeed: int := -1

  /** The globals `speed` and `last_triggered`, and the speed the motor was last set to (0 once stopped). */
  datatype Fan = Fan(speed: int, lastTriggered: real, motor: int)

  /** The globals as the script sets them. */
  function Start(): Fan
  {
    Fan(0, 0.0, 0)
  }

  /** The touch at time `now` gets past the debounce. */
  predicate Accepts(f: Fan, now: real)
  {
    now - f.lastTriggered >= Debounce
  }

  /** `speed_up()`, the touch callback, on a touch at time `now`. */
  function Touched(f: Fan, now: real): (r: Fan)
    ensures !Accepts(f, now) ==> r == f
    ensures Accepts(f, now) ==> r.lastTriggered == now && r.motor == r.speed
    ensures Accepts(f, now) && f.speed + Increment > MaxSpeed ==> r.speed == 0
    ensures Accepts(f, now) && f.speed + Increment <= MaxSpeed ==> r.speed == f.speed + Increment
  {
    if !Accepts(f, now) then f
    else if f.speed + Increment > MaxSpeed then Fan(0, now, 0)
    else Fan(f.speed + Increment, now, f.speed + Increment)
  }

  /** The speeds the touch cycle visits: 0, 10, ..., 100. */
  predicate OnDial(speed: int)
  {
    0 <= speed <= MaxSpeed && speed % Increment == 0
  }

  /** The fan after touches at the given times. */
  function Touches(f: Fan, times: seq<real>): Fan
    decreases |times|
  {
    if times == [] then f else Touched(Touches(f, times[..|times| - 1]), times[|times| - 1])
  }

  /** How many of the touches got past the debounce. */
  function Accepted(f: Fan, times: seq<real>): nat
    decreases |times|
  {
    if times == [] then 0
    else
      var init := times[..|times| - 1];
      Accepted(f, init) + if Accepts(Touches(f, init), times[|times| - 1]) then 1 else 0
  }

  /** The speed after one accepted touch. */
  function NextSpeed(speed: int): int
  {
    if speed + Increment > MaxSpeed then 0 else speed + Increment
  }

  /** The speed after k accepted touches. */
  function Around(speed: int, k: nat): int
  {
    if k == 0 then speed else NextSpeed(Around(speed, k - 1))
  }

  /** Touches move the speed only by accepted touches, each one step round the dial. */
  lemma {:induction false} TouchesFollowDial(f: Fan, times: seq<real>)
    ensures Touches(f, times).speed == Around(f.speed, Accepted(f, times))
    decreases |times|
  {
    if times != [] {
      TouchesFollowDial(f, times[..|times| - 1]);
    }
  }

  /** From a speed on the dial, k steps land on `speed + 10k` modulo 110, again on the dial. */
  lemma {:induction false} AroundIsModular(speed: int, k: nat)
    requires OnDial(speed)
    ensures OnDial(Around(speed, k))
    ensures Around(speed, k) == (speed + Increment * k) % (MaxSpeed + Increment)
    decreases k
  {
    if k == 0 {
      assert speed % (MaxSpeed + Increment) == speed;
    } else {
      AroundIsModular(speed, k - 1);
      var a := speed + Increment * (k - 1);
      assert a % Increment == 0 by {
        assert a == (speed / Increment + k - 1) * Increment;
      }
      DialStep(a);
      assert a + Increment == speed + Increment * k;
    }
  }

  /**
   * From a speed on the dial, touches alone walk round the eleven speeds
   * 0, 10, ..., 100: after k accepted touches the speed is `speed + 10k` modulo 110.
   */
  lemma TouchesGoRound(f: Fan, times: seq<real>)
    requires OnDial(f.speed)
    ensures var r := Touches(f, times);
      OnDial(r.speed) && r.speed == (f.speed + Increment * Accepted(f, times)) % (MaxSpeed + Increment)
  {
    TouchesFollowDial(f, times);
    AroundIsModular(f.speed, Accepted(f, times));
  }

  /** One step round the dial, in modular terms. */
  lemma DialStep(a: int)
    requires a >= 0 && a % Increment == 0
    ensures OnDial(a % (MaxSpeed + Increment))
    ensures NextSpeed(a % (MaxSpeed + Increment)) == (a + Increment) % (MaxSpeed + Increment)
  {
    var q := a / (MaxSpeed + Increment);
    var s := a % (MaxSpeed + Increment);
    assert a == q * (MaxSpeed + Increment) + s;
    assert s % Increment == 0 by {
      assert s == a - q * 110;
      assert a - q * 110 == (a / 10 - q * 11) * 10;
    }
    if s + Increment > MaxSpeed {
      assert s == 100;
      assert a + Increment == (q + 1) * (MaxSpeed + Increment);
    } else {
      assert a + Increment == q * (MaxSpeed + Increment) + (s + Increment);
    }
  }

  /** The assistant's reply after `eval`: a dict, with or without the two keys, or anything else (shown as text). */
  datatype Reply = Dict(speed: Option<int>, message: Option<string>) | Other(text: string)

  /** The fan and the text printed after a reply. */
  datatype Answer = Answer(fan: Fan, text: string)

  /**
   * The branching on the evaluated reply, as written: the speed it sets, -1
   * when there is none, is stored in the global `speed`; the motor is set only
   * for a speed of at least 0.
   */
  function AfterReply(f: Fan, reply: Reply): (a: Answer)
    ensures reply.Dict? && reply.speed.Some? ==> a.fan.speed == reply.speed.value
    ensures !(reply.Dict? && reply.speed.Some?) ==> a.fan.speed == NoSpeed
    ensures reply.Dict? ==> a.text == (if reply.message.Some? then reply.message.value else "")
    ensures reply.Other? ==> a.text == reply.text
    ensures a.fan.motor == (if a.fan.speed >= 0 then a.fan.speed else f.motor)
    ensures a.fan.lastTriggered == f.lastTriggered
  {
    var speed := if reply.Dict? && reply.speed.Some? then reply.speed.value else NoSpeed;
    var text := if reply.Other? then reply.text else if reply.message.Some? then reply.message.value else "";
    Answer(Fan(speed, f.lastTriggered, if speed >= 0 then speed else f.motor), text)
  }

  /**
   * A reply without a speed leaves -1 in `speed`, so the next touch drives the
   * motor at 9 instead of continuing from the speed it was running at.
   */
  lemma ChatReplyDerailsTouches(now: real)
    requires now >= Debounce
    ensures var running := Fan(50, 0.0, 50);
      var after := AfterReply(running, Dict(None, Some("hi"))).fan;
      after.motor == 50 && Touched(after, now).motor == 9 && !OnDial(Touched(after, now).speed)
  {
  }

  /** The reply branching with the speed kept when the reply gives none, as the `speed >= 0` guard intends. */
  function AfterReplyKeepingSpeed(f: Fan, reply: Reply): (a: Answer)
    ensures reply.Dict? && reply.speed.Some? && reply.speed.value >= 0 ==> a.fan.speed == a.fan.motor == reply.speed.value
    ensures !(reply.Dict? && reply.speed.Some? && reply.speed.value >= 0) ==> a.fan == f
    ensures a.text == AfterReply(f, reply).text
  {
    var answer := AfterReply(f, reply);
    if answer.fan.speed >= 0 then answer else Answer(f, answer.text)
  }

  /** With the corrected branching, chat that sets no speed never takes the touch cycle off the dial. */
  lemma {:induction false} ChatKeepsTouchesOnDial(f: Fan, reply: Reply, times: seq<real>)
    requires OnDial(f.speed)
    requires reply.Dict? && reply.speed.Some? ==> OnDial(reply.speed.value)
    ensures OnDial(Touches(AfterReplyKeepingSpeed(f, reply).fan, times).speed)
  {
    var g := AfterReplyKeepingSpeed(f, reply).fan;
    TouchesGoRound(g, times);
  }

  /** The script's globals and the motor as an object driven by the touch callback and the reply loop. */
  class Controller {
    var speed: int
    var lastTriggered: real
    /** The speed the motor was last set to. */
    var motor: int

    function State(): Fan
      reads this
    {
      Fan(speed, lastTriggered, motor)
    }

    constructor()
      ensures State() == Start()
    {
      speed, lastTriggered, motor := 0, 0.0, 0;
    }

    /** `speed_up()` at time `now`. */
    method SpeedUp(now: real)
      modifies this
      ensures State() == Touched(old(State()), now)
    {
      if now - lastTriggered < Debounce {
        return;
      }
      lastTriggered := now;
      speed := speed + Increment;
      if speed > MaxSpeed {
        motor := 0;
        speed := 0;
      } else {
        motor := speed;
      }
    }

    /** The reply branching of the main loop; returns the text printed. */
    method HandleReply(reply: Reply) returns (text: string)
      modifies this
      ensures State() == AfterReply(old(State()), reply).fan
      ensures text == AfterReply(old(State()), reply).text
    {
      match reply {
        case Dict(s, m) =>
          if s.Some? {
            speed := s.value;
          } else {
            speed := NoSpeed;
          }
          if m.Some? {
            text := m.value;
          } else {
            text := "";
          }
        case Other(t) =>
          speed := NoSpeed;
          text := t;
      }
      if speed >= 0 {
        motor := speed;
      }
    }
  }
}
