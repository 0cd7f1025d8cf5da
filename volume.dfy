/**
 * The voice assistant with a volume knob: the knob's percentage is shown on the
 * ten-LED bar, and the assistant listens for a new utterance only while no
 * mplayer process is playing its previous answer.
 */
module VolumeControl {
  import opened LedBar

  /** Python's `int()` on a float: truncation toward zero. */
  function Trunc(x: real): (n: int)
    ensures x >= 0.0 ==> n as real <= x < n as real + 1.0
    ensures x < 0.0 ==> n as real - 1.0 < x <= n as real
  {
    if x >= 0.0 then x.Floor else -((-x).Floor)
  }

  /** The number of LEDs `set_volume(percent)` lights. */
  function Tens(percent: real): int
  {
    Trunc(percent / 10.0)
  }

  /**
   * `set_volume(percent)`: every LED low, then the first `int(percent/10)`
   * high; a percentage of 110 or more raises `IndexError` once all ten are on.
   */
  method SetVolume(leds: array<bool>, percent: real) returns (indexError: bool)
    requires leds.Length == Leds
    modifies leds
    ensures indexError <==> Tens(percent) > Leds
    ensures leds[..] == Lit(Tens(percent))
  {
    for i := 0 to Leds
      invariant forall j :: 0 <= j < i ==> !leds[j]
    {
      leds[i] := false;
    }
    var n := Trunc(percent / 10.0);
    indexError := false;
    var i := 0;
    while i < n
      invariant 0 <= i <= Leds && (i <= n || i == 0)
      invariant forall j :: 0 <= j < Leds ==> leds[j] == (j < i)
    {
      if i >= leds.Length {
        indexError := true;
        break;
      }
      leds[i] := true;
      i := i + 1;
    }
    assert leds[..] == Lit(n);
  }

  /** Every knob position the mapping can give, 0..100 percent, fits the bar: one LED per full ten percent. */
  lemma VolumeFitsBar(percent: real)
    requires 0.0 <= percent <= 100.0
    ensures 0 <= Tens(percent) <= Leds
    ensures CountLit(Lit(Tens(percent))) == Tens(percent)
    ensures Tens(percent) as real * 10.0 <= percent < Tens(percent) as real * 10.0 + 10.0
  {
    LitCount(Tens(percent));
  }

  /** pgrep's exit status when some process matched. */
  const Matched: int := 0
  /** pgrep's exit status when no process matched. */
  const NoMatch: int := 1

  /**
   * `pgrep -x mplayer` over the names of the running processes: exit status 0
   * when some process is named exactly `mplayer`, 1 when none is.
   */
  function Pgrep(procs: seq<string>): (returnCode: int)
    ensures returnCode == Matched || returnCode == NoMatch
    ensures returnCode == Matched <==> "mplayer" in procs
    decreases |procs|
  {
    if procs == [] then NoMatch
    else if procs[0] == "mplayer" then Matched
    else Pgrep(procs[1..])
  }

  /** `is_mplayer_running()` as written: `returncode == True`, that is, exit status 1. */
  function IsMplayerRunningAsWritten(returnCode: int): (running: bool)
    ensures running <==> returnCode == NoMatch
  {
    returnCode == 1
  }

  /** `is_mplayer_running()` as intended: pgrep found an mplayer process. */
  function IsMplayerRunning(returnCode: int): (running: bool)
    ensures running <==> returnCode == Matched
  {
    returnCode == Matched
  }

  /** The main loop records a new utterance only when the check says mplayer is not running. */
  function Listens(returnCode: int): (listens: bool)
    ensures listens <==> returnCode != Matched
    ensures listens ==> !IsMplayerRunning(returnCode)
  {
    !IsMplayerRunning(returnCode)
  }

  /** The corrected check answers "running" exactly when an mplayer process exists. */
  lemma RunningIffMplayer(procs: seq<string>)
    ensures IsMplayerRunning(Pgrep(procs)) <==> "mplayer" in procs
  {
  }

  /** With the corrected check the loop records exactly when no mplayer process is playing. */
  lemma ListensIffIdle(procs: seq<string>)
    ensures Listens(Pgrep(procs)) <==> "mplayer" !in procs
  {
  }

  /**
   * As written, the check answers "running" exactly when no mplayer process
   * exists, so the loop records only while some mplayer process is playing.
   * The script's own answers never leave one playing (`text_to_speech` waits
   * for mplayer to exit), so, as written, the loop never records.
   */
  lemma AsWrittenInverted(procs: seq<string>)
    ensures IsMplayerRunningAsWritten(Pgrep(procs)) <==> "mplayer" !in procs
    ensures !IsMplayerRunningAsWritten(Pgrep(procs)) <==> "mplayer" in procs
    ensures IsMplayerRunningAsWritten(Pgrep(procs)) != IsMplayerRunning(Pgrep(procs))
  {
  }

  /**
   * As written, the check is inverted for both statuses pgrep gives on a
   * normal run: with no mplayer process it answers "running", so the script
   * does not listen; only an mplayer started outside the script makes it
   * answer "not running".
   */
  lemma CheckInvertedAsWritten()
    ensures IsMplayerRunningAsWritten(NoMatch) && !IsMplayerRunning(NoMatch)
    ensures !IsMplayerRunningAsWritten(Matched) && IsMplayerRunning(Matched)
    ensures forall rc :: rc == Matched || rc == NoMatch ==> IsMplayerRunningAsWritten(rc) != IsMplayerRunning(rc)
  {
  }
}
