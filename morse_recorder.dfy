/**
 * The Morse key recorder: every press of the key that lasts at least 0.1 s is
 * recorded as a (pressed, start) and (released, end) pair; the start/stop button
 * alternates between recording (LED on, list cleared) and sending the recorded
 * list to the decoder (LED off, list cleared afterwards).
 */
module MorseRecorder {

  /** Presses shorter than this (seconds) are ignored. */
  const MinPress: real := 0.1

  datatype Kind = Pressed | Released

  /** One entry of `morse_events`. */
  datatype MorseEvent = MorseEvent(kind: Kind, time: real)

  /** The globals `morse_events`, `input_active` and `start_time`, and the LED. */
  datatype Recorder = Recorder(events: seq<MorseEvent>, active: bool, startTime: real, led: bool)

  /**
   * The shape of the recorded list: pressed and released entries alternate,
   * starting with pressed, each release at least 0.1 s after its press.
   */
  predicate Paired(events: seq<MorseEvent>)
  {
    && |events| % 2 == 0
    && (forall i :: 0 <= i < |events| ==> events[i].kind == if i % 2 == 0 then Pressed else Released)
    && (forall i :: 0 < i < |events| && i % 2 == 1 ==> events[i].time - events[i - 1].time >= MinPress)
  }

  /** The globals as the script sets them before its first call. */
  function Initial(): (r: Recorder)
    ensures Paired(r.events)
  {
    Recorder([], false, 0.0, false)
  }

  /** `morse_input_pressed()` at time `now`: only the start time changes. */
  function KeyDown(r: Recorder, now: real): (s: Recorder)
    ensures s == r.(startTime := now)
  {
    r.(startTime := now)
  }

  /** `morse_input_released()` at time `now`: a long enough press adds its pair, a short one nothing. */
  function KeyUp(r: Recorder, now: real): (s: Recorder)
    ensures now - r.startTime < MinPress ==> s == r
    ensures now - r.startTime >= MinPress ==>
      s == r.(events := r.events + [MorseEvent(Pressed, r.startTime), MorseEvent(Released, now)])
    ensures Paired(r.events) ==> Paired(s.events)
  {
    if now - r.startTime < MinPress then r
    else
      var s := r.(events := r.events + [MorseEvent(Pressed, r.startTime), MorseEvent(Released, now)]);
      assert forall i :: 0 <= i < |r.events| ==> s.events[i] == r.events[i];
      s
  }

  /** What a start/stop press does: the new state and, when it stops, the list handed to the decoder. */
  datatype Toggle = Toggle(recorder: Recorder, sent: seq<MorseEvent>, stopped: bool)

  /** `handle_start_stop()`: stopping turns the LED off and sends the list, which is then cleared; starting clears the list and turns the LED on. */
  function StartStop(r: Recorder): (t: Toggle)
    ensures t.recorder.active == !r.active && t.recorder.led == !r.active && t.stopped == r.active
    ensures t.recorder.events == [] && t.recorder.startTime == r.startTime
    ensures r.active ==> t.sent == r.events
  {
    if r.active then Toggle(Recorder([], false, r.startTime, false), r.events, true)
    else Toggle(Recorder([], true, r.startTime, true), [], false)
  }

  /** What the callbacks see: a key press or release at a time, or a start/stop press. */
  datatype Signal = Down(time: real) | Up(time: real) | Button

  function Step(r: Recorder, s: Signal): Recorder
  {
    match s
    case Down(t) => KeyDown(r, t)
    case Up(t) => KeyUp(r, t)
    case Button => StartStop(r).recorder
  }

  /** The recorder after a sequence of signals. */
  function Run(r: Recorder, signals: seq<Signal>): Recorder
    decreases |signals|
  {
    if signals == [] then r else Step(Run(r, signals[..|signals| - 1]), signals[|signals| - 1])
  }

  /** Whatever the signals, the recorded list keeps its paired shape, so every list sent to the decoder has it too. */
  lemma {:induction false} AlwaysPaired(r: Recorder, signals: seq<Signal>)
    requires Paired(r.events)
    ensures Paired(Run(r, signals).events)
    ensures Run(r, signals).active ==> Paired(StartStop(Run(r, signals)).sent)
    decreases |signals|
  {
    if signals != [] {
      AlwaysPaired(r, signals[..|signals| - 1]);
    }
  }

  /** Key signals alone never change whether input is active or the LED. */
  lemma {:induction false} KeysLeaveModeAlone(r: Recorder, signals: seq<Signal>)
    requires forall i :: 0 <= i < |signals| ==> signals[i] != Button
    ensures Run(r, signals).active == r.active && Run(r, signals).led == r.led
    decreases |signals|
  {
    if signals != [] {
      KeysLeaveModeAlone(r, signals[..|signals| - 1]);
    }
  }

  /** Two start/stop presses in a row end with the list empty and the mode as it was. */
  lemma StartStopAlternates(r: Recorder)
    ensures var twice := StartStop(StartStop(r).recorder).recorder;
      twice.active == r.active && twice.events == []
  {
  }

  /** The script's globals and the LED as an object driven by the three callbacks. */
  class Decoder {
    var morseEvents: seq<MorseEvent>
    var inputActive: bool
    var startTime: real
    var led: bool

    function State(): Recorder
      reads this
    {
      Recorder(morseEvents, inputActive, startTime, led)
    }

    constructor()
      ensures State() == Initial()
    {
      morseEvents, inputActive, startTime, led := [], false, 0.0, false;
    }

    /** `morse_input_pressed()` at time `now`. */
    method MorseInputPressed(now: real)
      modifies this
      ensures State() == KeyDown(old(State()), now)
    {
      startTime := now;
    }

    /** `morse_input_released()` at time `now`. */
    method MorseInputReleased(now: real)
      modifies this
      ensures State() == KeyUp(old(State()), now)
    {
      if now - startTime < MinPress {
        return;
      }
      morseEvents := morseEvents + [MorseEvent(Pressed, startTime)];
      morseEvents := morseEvents + [MorseEvent(Released, now)];
    }

    /** `decode_and_speak()`: returns the list sent to the decoder and clears it, whatever the decoder does. */
    method DecodeAndSpeak() returns (sent: seq<MorseEvent>)
      modifies this
      ensures sent == old(morseEvents) && morseEvents == []
      ensures inputActive == old(inputActive) && startTime == old(startTime) && led == old(led)
    {
      sent := morseEvents;
      morseEvents := [];
    }

    /** `handle_start_stop()`: returns the list sent to the decoder, if it stopped input. */
    method HandleStartStop() returns (sent: seq<MorseEvent>)
      modifies this
      ensures State() == StartStop(old(State())).recorder && sent == StartStop(old(State())).sent
    {
      sent := [];
      if inputActive {
        led := false;
        sent := DecodeAndSpeak();
        inputActive := false;
      } else {
        inputActive := true;
        morseEvents := [];
        led := true;
      }
    }
  }
}
