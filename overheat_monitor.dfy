/**
 * The overheat monitor: a joystick press toggles between monitoring (the buzzer
 * and the LED sound when the temperature reaches the upper limit) and adjusting
 * the upper limit with the joystick (right/left by one degree, up/down by ten).
 */
module OverheatMonitor {
  import opened Optional

  /** The upper limit the script starts with. */
  const InitialUpper: int := 40
  /** How far, on the -100..100 scale, the stick must be pushed to count. */
  const Push: real := 50.0

  /** `get_joystick_value()` on the stick position already mapped to -100..100: x is checked before y. */
  function JoystickChange(x: real, y: real): (change: int)
    ensures x > Push ==> change == 1
    ensures -Push <= x <= Push ==> (y > Push ==> change == -10) && (y < -Push ==> change == 10)
    ensures x < -Push ==> change == -1
    ensures change == 0 <==> -Push <= x <= Push && -Push <= y <= Push
  {
    if x > Push then 1
    else if x < -Push then -1
    else if y > Push then -10
    else if y < -Push then 10
    else 0
  }

  /** The script's variables `upperTem`, `lastState` and `stage`, and the buzzer and LED outputs. */
  datatype Monitor = Monitor(upperTem: int, lastState: int, stage: int, buzzer: bool, led: bool)

  /** The state before the loop, with the buzzer and LED as the board leaves them. */
  function Start(buzzer: bool, led: bool): (m: Monitor)
    ensures m.stage == 0 && m.upperTem == InitialUpper
  {
    Monitor(InitialUpper, 1, 0, buzzer, led)
  }

  /** `upper_tem_setting()`: the limit moves by the joystick's change. */
  function Adjusted(m: Monitor, x: real, y: real): (r: Monitor)
    ensures r.upperTem - m.upperTem == JoystickChange(x, y)
    ensures r.(upperTem := m.upperTem) == m
  {
    m.(upperTem := m.upperTem + JoystickChange(x, y))
  }

  /** `monitoring_temp()`: with no reading nothing changes; otherwise buzzer and LED are on exactly when the reading reaches the limit. */
  function Monitored(m: Monitor, cel: Option<real>): (r: Monitor)
    ensures cel == None ==> r == m
    ensures cel != None ==> r.buzzer == r.led && (r.buzzer <==> cel.value >= m.upperTem as real)
    ensures r.upperTem == m.upperTem && r.lastState == m.lastState && r.stage == m.stage
  {
    if cel.None? then m
    else if cel.value >= m.upperTem as real then m.(buzzer := true, led := true)
    else m.(buzzer := false, led := false)
  }

  /** One pass of the main loop: the button level, the stick position and the temperature reading it would take. */
  datatype Inputs = Inputs(button: int, x: real, y: real, cel: Option<real>)

  /** The stage after a pass: it flips only when the button reads 1 after 0. */
  function NextStage(m: Monitor, button: int): (stage: int)
    requires m.stage == 0 || m.stage == 1
    ensures stage == 0 || stage == 1
    ensures stage != m.stage <==> button == 1 && m.lastState == 0
  {
    if button == 1 && m.lastState == 0 then (m.stage + 1) % 2 else m.stage
  }

  /** One pass of the main loop: update the stage and `lastState`, then run the stage's routine. */
  function Step(m: Monitor, inputs: Inputs): (r: Monitor)
    requires m.stage == 0 || m.stage == 1
    ensures r.stage == NextStage(m, inputs.button) && r.lastState == inputs.button
    ensures r.stage == 1 ==> r.buzzer == m.buzzer && r.led == m.led && r.upperTem == m.upperTem + JoystickChange(inputs.x, inputs.y)
    ensures r.stage == 0 ==> r.upperTem == m.upperTem
    ensures r.stage == 0 && inputs.cel != None ==> r.buzzer == r.led && (r.buzzer <==> inputs.cel.value >= m.upperTem as real)
    ensures r.stage == 0 && inputs.cel == None ==> r.buzzer == m.buzzer && r.led == m.led
  {
    var toggled := m.(stage := NextStage(m, inputs.button), lastState := inputs.button);
    if toggled.stage == 1 then Adjusted(toggled, inputs.x, inputs.y)
    else Monitored(toggled, inputs.cel)
  }

  function Run(m: Monitor, ins: seq<Inputs>): (r: Monitor)
    requires m.stage == 0 || m.stage == 1
    ensures r.stage == 0 || r.stage == 1
    decreases |ins|
  {
    if ins == [] then m else Step(Run(m, ins[..|ins| - 1]), ins[|ins| - 1])
  }

  /** The buzzer and the LED are always switched together, so once they agree they agree for ever. */
  lemma {:induction false} AlarmOutputsAgree(m: Monitor, ins: seq<Inputs>)
    requires (m.stage == 0 || m.stage == 1) && m.buzzer == m.led
    ensures Run(m, ins).buzzer == Run(m, ins).led
    decreases |ins|
  {
    if ins != [] {
      AlarmOutputsAgree(m, ins[..|ins| - 1]);
    }
  }

  /** Holding the button down toggles the stage once, however many polls it is held for. */
  lemma {:induction false} HeldButtonTogglesOnce(m: Monitor, ins: seq<Inputs>)
    requires (m.stage == 0 || m.stage == 1) && m.lastState == 0 && |ins| > 0
    requires forall i :: 0 <= i < |ins| ==> ins[i].button == 1
    ensures Run(m, ins).stage == 1 - m.stage && Run(m, ins).lastState == 1
    decreases |ins|
  {
    if |ins| > 1 {
      var init := ins[..|ins| - 1];
      HeldButtonTogglesOnce(m, init);
    } else {
      assert ins[..0] == [];
    }
  }

  /** The script's variables and outputs as an object driven by its loop. */
  class Station {
    var upperTem: int
    var lastState: int
    var stage: int
    var buzzer: bool
    var led: bool

    function State(): Monitor
      reads this
    {
      Monitor(upperTem, lastState, stage, buzzer, led)
    }

    constructor(buzzer0: bool, led0: bool)
      ensures State() == Start(buzzer0, led0)
    {
      upperTem := InitialUpper;
      lastState := 1;
      stage := 0;
      buzzer := buzzer0;
      led := led0;
    }

    /** `upper_tem_setting()`. */
    method UpperTemSetting(x: real, y: real)
      modifies this
      ensures State() == Adjusted(old(State()), x, y)
    {
      var change := JoystickChange(x, y);
      upperTem := upperTem + change;
    }

    /** `monitoring_temp()`. */
    method MonitoringTemp(cel: Option<real>)
      modifies this
      ensures State() == Monitored(old(State()), cel)
    {
      if cel == None {
        return;
      }
      if cel.value >= upperTem as real {
        buzzer := true;
        led := true;
      } else {
        buzzer := false;
        led := false;
      }
    }

    /** One pass of the main loop. */
    method Poll(inputs: Inputs)
      requires stage == 0 || stage == 1
      modifies this
      ensures State() == Step(old(State()), inputs)
    {
      if inputs.button == 1 && lastState == 0 {
        stage := (stage + 1) % 2;
      }
      lastState := inputs.button;
      if stage == 1 {
        UpperTemSetting(inputs.x, inputs.y);
      } else {
        MonitoringTemp(inputs.cel);
      }
    }
  }
}
