# Verified models of the AI Explorer Lab Kit's control logic

The lab kit is a set of Python scripts for a Raspberry Pi with a Fusion HAT.
Most of them read a sensor, build a string and pass it to a remote assistant.
Under the hardware and network calls, fourteen of them hold small pieces of
sequential integer and threshold logic. This project models that logic in
Dafny and proves what the scripts promise about it:

- **The four-digit seven-segment display driver** (`segment_display.dfy`). It
  is copy-pasted into the dumbbell counter, the counting device, the
  four-digit demo and the traffic light. It covers the segment table,
  `clearDisplay`, `hc595_shift`, `pickDigit` and one digit phase. Pin writes
  are an output trace. A small 74HC595 simulator (shift register, latch and
  enable lines) is the reference the traces are proved against: after a shift
  the latch holds exactly the byte sent, and after a select exactly one
  position is enabled.
- **The counting engines.** These are the dumbbell lift counter with
  hysteresis, lift buffer, idle timeout and 100-lift bound
  (`dumbbell.dfy`), and the PIR rising-edge counter (`counting_device.dfy`).
  Each comes with its `display(count)`.
- **The timer-driven displays.** These are the four-digit counter
  (`four_digit.dfy`) and the traffic light's colour/countdown cycle, lamps
  and countdown display (`traffic_light.dfy`).
- **The keypad, joystick and touch state machines.** These are:
  - the password lock (`password_lock.dfy`);
  - the guess-the-number game (`guess_number.dfy`);
  - the smart fan (`smart_fan.dfy`);
  - the overheat monitor (`overheat_monitor.dfy`);
  - the touch fan with its reply branching (`touch_fan.dfy`);
  - the Morse recorder (`morse_recorder.dfy`);
  - the blindfolded watermelon game (`blindfolded_game.dfy`).
- **The outputs.** These are the ten-LED bar of the battery indicator
  (`led_bar.dfy`), the volume knob's bar and mplayer check (`volume.dfy`),
  and the reversing alarm's distance bands and beeps
  (`reversing_alarm.dfy`).

Each script's global variables become either a `class` whose methods update
them as the script's functions do, or a `datatype` threaded through a step
function. Each method is proved equal to a pure step function (`State() ==
Step(old(State()), ...)`). The properties are proved about the step function
and its iteration over input sequences. Sensor readings, key readings, clock
times and random draws are inputs.

Where a comment in the source and its code disagree, the model follows the
code:

- The dumbbell script says "5s to auto stop" but compares against 30 seconds
  (`gpt_example/gpt_fun_dumbbell.py:185-186`). The model uses 30.
- The four display copies place digits in two orders:
  - the dumbbell counter and the counting device put the thousands at
    position 0 and the units at position 3;
  - the four-digit demo and the traffic light put the units at position 0
    (position p shows decimal digit p).

  Each module models its own file's order.

## Model

| member | source | states |
|---|---|---|
| SegmentDisplay.SegmentCode | gpt_example/gpt_fun_dumbbell.py:94 | `number[d]` for a digit d in 0..9: every code keeps the decimal point (bit 7, active low) off and differs from the blank byte 0xFF that `clearDisplay` shifts. |
| SegmentDisplay.FindCode | gpt_example/gpt_fun_dumbbell.py:94 | Searching the segment table from a position returns a digit whose code matches, or none when no later entry matches. |
| SegmentDisplay.CodeRoundTrip | gpt_example/gpt_fun_dumbbell.py:94 | The ten segment codes are distinct: the digit read back from the code of d is d. |
| SegmentDisplay.SdiIsBit | gpt_example/gpt_fun_dumbbell.py:108-109 | The SDI level `0x80 & (data << i)` set before the i-th clock pulse is bit 7 - i of data, so the byte goes out MSB first. |
| SegmentDisplay.BitsRoundTrip | gpt_example/gpt_fun_dumbbell.py:106-113 | The eight bits of a byte, read back in order, give the byte. |
| SegmentDisplay.ShiftLatches | gpt_example/gpt_fun_dumbbell.py:106-113 | The write trace of `hc595_shift(data)` leaves the register's latched outputs holding exactly the bits of data, leaves the enable lines alone, and ends with every clock low. |
| SegmentDisplay.ClearDisplay | gpt_example/gpt_fun_dumbbell.py:97-104 | `clearDisplay()` writes exactly what `hc595_shift(0xFF)` writes: eight steps with SDI high, then one latch pulse. |
| SegmentDisplay.Shift | gpt_example/gpt_fun_dumbbell.py:106-113 | The loop writes, for each of the 8 bits, SDI then an SRCLK high/low pulse, then one RCLK pulse. This is the trace that ShiftLatches proves latches data. |
| SegmentDisplay.PickDigit | gpt_example/gpt_fun_dumbbell.py:115-119 | `pickDigit(pos)` writes all four enable lines low in order, then line pos high. |
| SegmentDisplay.PickSelects | gpt_example/gpt_fun_dumbbell.py:115-119 | After `pickDigit(pos)` exactly one enable line is high, the one at pos. Nothing else on the chip changes. |
| SegmentDisplay.ShowCell | gpt_example/gpt_fun_dumbbell.py:124-130 | One digit phase is clear, then select, then shift of the digit's segment code, in that order. |
| SegmentDisplay.PhaseShows | gpt_example/gpt_fun_dumbbell.py:124-130 | A phase blanks the segments before it enables the new position. It ends with only that position enabled and the digit's code latched, so the digit read back from the outputs is the one intended. |
| SegmentDisplay.FrameOfFour | python/4.1.4_CountingDevice_zero.py:49-63 | Four phases written one after another are the refresh frame of those four cells. |
| SegmentDisplay.FrameIdle | gpt_example/gpt_fun_dumbbell.py:123-131 | After any number of phases the clocks are low again, so the next phase starts from an idle chip. |
| SegmentDisplay.FrameShowsEachCell | gpt_example/gpt_fun_dumbbell.py:123-131 | Phase k of a refresh ends with the chip showing cell k: its position alone enabled, its digit latched. |
| SegmentDisplay.Pow10 | gpt_example/gpt_fun_dumbbell.py:128 | `10 ** k` is positive, so the floor division by it is defined. |
| SegmentDisplay.Digit | gpt_example/gpt_fun_dumbbell.py:128 | `(n // 10**k) % 10` is below 10, so indexing the segment table with it is always in range. |
| SegmentDisplay.FourDigitsSpell | gpt_example/gpt_fun_dumbbell.py:123-130 | Digits 0 to 3 weighted by 1, 10, 100, 1000 sum to n % 10000: the display shows the number modulo 10000. |
| SegmentDisplay.ModDivIsDigit | python/4.1.4_CountingDevice_zero.py:51-63 | The `n % 10**(k+1) // 10**k` form used by the counting device is the same digit as `(n // 10**k) % 10`. |
| SegmentDisplay.DigitWraps | gpt_example/gpt_fun_dumbbell.py:128 | Adding a multiple of 10000 changes none of the four shown digits: counts of 10000 and above lose their high digits. |
| Dumbbell.Observe | gpt_example/gpt_fun_dumbbell.py:171-183 | A sample counts a lift only when `acc_z > 11` while down. Such a sample adds one to the count, goes up, records the lift time and appends `(time, v)`. Every other sample leaves the count, the lift time and the buffer unchanged. Samples in [8, 11] change nothing. The detector is down afterwards iff it was down and did not count, or was up and read below 8. |
| Dumbbell.BufferGrowsWithCount | gpt_example/gpt_fun_dumbbell.py:172-178 | Over any samples, `motion_data` only grows (the old buffer is a prefix of the new one), by exactly one entry per counted lift. |
| Dumbbell.BandChangesNothing | gpt_example/gpt_fun_dumbbell.py:172-183 | Any run of readings inside the hysteresis band [8, 11] leaves the whole detector state unchanged. |
| Dumbbell.UpPhaseCountsNothing | gpt_example/gpt_fun_dumbbell.py:172-183 | While up, readings of at least 8 count nothing and change nothing, however many there are. |
| Dumbbell.OneCountPerCrossing | gpt_example/gpt_fun_dumbbell.py:172-183 | From the down state, a high phase (first reading above 11, all at least 8) followed by one reading below 8 counts exactly one lift. The lift is recorded with the first high sample's time and speed, and the detector is re-armed. |
| Dumbbell.Session | gpt_example/gpt_fun_dumbbell.py:159-191 | The loop's final state is the detector run over the samples read. `len(motion_data) == count` and count never exceeds 101. The loop stops on the first sample more than 30 s after the last lift (and on no earlier one), at count 101, or when the samples run out. Every pass shows the running count. |
| DumbbellDisplay.Cells | gpt_example/gpt_fun_dumbbell.py:123-130 | Every position gets a digit in 0..9. |
| DumbbellDisplay.Display | gpt_example/gpt_fun_dumbbell.py:121-131 | `display(count)` is four phases, position i showing digit 3 - i of the count. |
| DumbbellDisplay.DisplaySpellsCount | gpt_example/gpt_fun_dumbbell.py:123-130 | Read from position 0 to 3, the shown digits spell count % 10000, most significant first. |
| DumbbellDisplay.DisplayShowsDigits | gpt_example/gpt_fun_dumbbell.py:121-131 | After phase i the chip has position i alone enabled, showing digit 3 - i of the count. |
| CountingDevice.Loop | python/4.1.4_CountingDevice_zero.py:65-75 | After the polls, counter is its start value plus the number of rising edges: a reading of 1 after a 0, with the state before the first poll taken as 0. `lastState` is the last poll's normalised reading, and pass k displays the counter as it was before that poll. |
| CountingDevice.HeldHighCountsOnce | python/4.1.4_CountingDevice_zero.py:68-75 | Once the PIR reads high, holding it high for any number of further polls adds no count. |
| CountingDevice.RisesBound | python/4.1.4_CountingDevice_zero.py:72-74 | Rising edges need a low poll between them: twice the count is at most the number of polls, plus one if the run ends high. |
| CountingDevice.RisesAppend | python/4.1.4_CountingDevice_zero.py:72-75 | Counting two runs one after the other adds their counts, except that a second run starting high after a first run ending high loses its first edge. |
| CountingDevice.Cells | python/4.1.4_CountingDevice_zero.py:49-63 | Every table index `display()` uses is in 0..9. |
| CountingDevice.LiteralDigits | python/4.1.4_CountingDevice_zero.py:51-63 | `counter % 10`, `counter % 100 // 10`, `counter % 1000 // 100` and `counter % 10000 // 1000` are the counter's decimal digits 0 to 3. |
| CountingDevice.Display | python/4.1.4_CountingDevice_zero.py:46-63 | `display()` is the four phases putting digit j at position 3 - j, written out in that order. |
| CountingDevice.DisplaySpellsCounter | python/4.1.4_CountingDevice_zero.py:46-63 | The units are at position 3 and the thousands at position 0, and the shown digits spell counter % 10000. |
| CountingDevice.DisplayShowsDigits | python/4.1.4_CountingDevice_zero.py:46-63 | Phase j leaves position 3 - j alone enabled, showing digit j of the counter. |
| FourDigit.Cells | python/1.1.5_4-Digit_zero.py:62-69 | Position i gets digit i of the counter (units at position 0), always in 0..9. |
| FourDigit.Counter.constructor | python/1.1.5_4-Digit_zero.py:17 | The counter starts at 0. |
| FourDigit.Counter.Timer | python/1.1.5_4-Digit_zero.py:44-50 | Each `timer()` call raises the counter by exactly 1. |
| FourDigit.Counter.RefreshPass | python/1.1.5_4-Digit_zero.py:58-70 | One pass of the loop is the four phases, position i showing digit i of the current counter. |
| FourDigit.PassSpellsCounter | python/1.1.5_4-Digit_zero.py:62-69 | Digit i at position i weighted by 10^i sums to counter % 10000. |
| FourDigit.PassWraps | python/1.1.5_4-Digit_zero.py:62-69 | Counters that differ by a multiple of 10000 show the same pass. |
| FourDigit.PassShowsDigits | python/1.1.5_4-Digit_zero.py:62-69 | Phase i leaves position i alone enabled, showing digit i of the counter. |
| TrafficLight.Duration | python/4.1.9_TrafficLight_zero.py:23-25 | Each colour lasts a positive number of seconds. |
| TrafficLight.Next | python/4.1.9_TrafficLight_zero.py:73 | The next colour is again red, green or yellow. |
| TrafficLight.Tick | python/4.1.9_TrafficLight_zero.py:65-73 | From a reachable state, a tick takes a second off the current colour or, on its last second, moves to the next colour with that colour's full duration. The state stays reachable: a colour with 1..duration seconds left. |
| TrafficLight.Ticks | python/4.1.9_TrafficLight_zero.py:65-73 | Any number of ticks keeps the state reachable. |
| TrafficLight.Elapsed | python/4.1.9_TrafficLight_zero.py:23-25 | A reachable state's position in the cycle is below 95 seconds. |
| TrafficLight.ElapsedInjective | python/4.1.9_TrafficLight_zero.py:23-32 | Two reachable states at the same point of the cycle are equal. |
| TrafficLight.TickAdvances | python/4.1.9_TrafficLight_zero.py:70-73 | A tick moves one second round the 95-second cycle. |
| TrafficLight.TicksAdvance | python/4.1.9_TrafficLight_zero.py:65-73 | n ticks move n seconds round the cycle, modulo 95. |
| TrafficLight.CycleIs95Seconds | python/4.1.9_TrafficLight_zero.py:23-32 | 95 ticks (60 + 30 + 5) bring every reachable state back to itself, (red, 60) included. |
| TrafficLight.FullTurn | python/4.1.9_TrafficLight_zero.py:23-32 | A reachable state a whole cycle away from another is the same state. |
| TrafficLight.CountsDown | python/4.1.9_TrafficLight_zero.py:70 | Fewer ticks than the seconds left only count the same colour down. |
| TrafficLight.ColourEnds | python/4.1.9_TrafficLight_zero.py:70-73 | After exactly the seconds left, the next colour starts with its full duration: red to green 30, green to yellow 5, yellow to red 60. |
| TrafficLight.Lamps | python/4.1.9_TrafficLight_zero.py:76-82 | Lamp writes leave three lamp levels. |
| TrafficLight.LampsOfLightUp | python/4.1.9_TrafficLight_zero.py:76-82 | Three lows and then the current colour's lamp high leave exactly that lamp on, whatever the lamps showed before. |
| TrafficLightBoard.Light.constructor | python/4.1.9_TrafficLight_zero.py:31-32 | The light starts at red with 60 seconds, a reachable state. |
| TrafficLightBoard.Light.Timer | python/4.1.9_TrafficLight_zero.py:65-73 | `timer()` updates the globals exactly as Tick does and keeps them reachable. |
| TrafficLightBoard.Light.LightUp | python/4.1.9_TrafficLight_zero.py:76-82 | `lightup()` writes the three lamps low and then one high, leaving only the current colour lit. |
| TrafficLightBoard.Light.Display | python/4.1.9_TrafficLight_zero.py:84-94 | `display()` is the phases of the countdown's cells, skipping the thousands phase when that digit is 0. |
| TrafficLightBoard.Cells | python/4.1.9_TrafficLight_zero.py:88-94 | Position p shows digit p of the counter, from position 3 down, with only a zero thousands digit left out. Every digit is in 0..9. |
| TrafficLightBoard.DisplayOfValid | python/4.1.9_TrafficLight_zero.py:84-94 | On every reachable state exactly three phases remain, at positions 2, 1, 0, spelling the countdown. A zero hundreds digit stays lit. |
| TrafficLightBoard.DisplayShowsDigits | python/4.1.9_TrafficLight_zero.py:84-94 | Each phase leaves its position alone enabled, showing that position's digit of the counter. |
| PasswordLock.Check | python/4.1.11_PasswordLock_zero.py:13-21 | `check()` returns 1 iff the entry equals the password at all four positions, and 0 otherwise. |
| PasswordLock.Initial | python/4.1.11_PasswordLock_zero.py:8-11 | The lock starts with a four-key buffer and index 0. |
| PasswordLock.Step | python/4.1.11_PasswordLock_zero.py:29-50 | A poll takes a key only when the reading is non-empty and differs from the previous one. A taken key is stored in slot keyIndex with the other slots unchanged, and the index moves to (keyIndex + 1) % 4. A verdict comes exactly on the fourth key and is "correct" iff the buffer equals the password. The reading always becomes `last_key_pressed`. It also states the LCD writes. |
| PasswordLock.HeldKeyOnce | python/4.1.11_PasswordLock_zero.py:30-31 | A key held across two polls is taken once: the second poll changes nothing and writes nothing. |
| PasswordLock.FourKeysGiveVerdict | python/4.1.11_PasswordLock_zero.py:32-48 | Four distinct successive readings from index 0 fill the buffer with exactly those keys. They give no verdict before the fourth, then reset the index and give the verdict "correct" iff the keys are the password. |
| PasswordLock.Run | python/4.1.11_PasswordLock_zero.py:29-51 | Any sequence of polls keeps keyIndex in 0..3 and the buffer at four keys. |
| PasswordLock.IndexCountsFreshKeys | python/4.1.11_PasswordLock_zero.py:31-48 | After any readings, keyIndex is the number of keys taken, modulo 4. |
| PasswordLock.Lock.constructor | python/4.1.11_PasswordLock_zero.py:8-11 | The object starts in the lock's initial state. |
| PasswordLock.Lock.Poll | python/4.1.11_PasswordLock_zero.py:29-50 | One pass of `loop()` updates `testword`, `keyIndex` and `last_key_pressed` and makes the LCD writes exactly as Step says. |
| GuessNumber.KeyDigit | python/4.1.14_GAME_GuessNumber_zero.py:99 | `int(key)` of a digit key is below 10, and the key is that digit's character. |
| GuessNumber.Start | python/4.1.14_GAME_GuessNumber_zero.py:36-44 | The game starts with the bounds 0 and 99 around the point. |
| GuessNumber.NewValue | python/4.1.14_GAME_GuessNumber_zero.py:36-44 | `init_new_value()` sets the point to the draw in 0..99, the bounds to 0 and 99 and the count to 0, so `lower <= pointValue <= upper` holds. |
| GuessNumber.Detect | python/4.1.14_GAME_GuessNumber_zero.py:47-61 | `detect_point()` always clears count and returns 1 iff count == pointValue, else 0. It never raises upper or lowers lower. When the point lies within the bounds it keeps it there. A guess outside (lower, upper), or a hit, leaves the bounds unchanged. A wrong guess inside them narrows them. |
| GuessNumber.ShowInput | python/4.1.14_GAME_GuessNumber_zero.py:63-79 | On result 1 the screen says "got it" and a new game is drawn and prompted. Otherwise the screen prompts with count and the bounds, and nothing changes. |
| GuessNumber.Step | python/4.1.14_GAME_GuessNumber_zero.py:86-104 | Every poll keeps the game valid: `lower <= pointValue <= upper <= 99` and `count < 10`. |
| GuessNumber.StaleReadingChangesNothing | python/4.1.14_GAME_GuessNumber_zero.py:89-104 | An empty or repeated reading only becomes `last_key_pressed`. |
| GuessNumber.NonDigitKeysChangeNothing | python/4.1.14_GAME_GuessNumber_zero.py:96-98 | B, C, # and * change neither count, the bounds nor the point. |
| GuessNumber.FirstDigitIsTyped | python/4.1.14_GAME_GuessNumber_zero.py:99-102 | A digit key that keeps the number below 10 becomes count and is prompted. |
| GuessNumber.SecondDigitJudges | python/4.1.14_GAME_GuessNumber_zero.py:99-102 | A digit that makes the number reach two digits judges it at once. A hit restarts with the drawn point. A miss clears count and moves the bounds towards the point without passing it, strictly when the guess was inside them. |
| GuessNumber.DKeyJudges | python/4.1.14_GAME_GuessNumber_zero.py:93-95 | D judges the typed number the same way: a hit restarts, a miss is `detect_point()`'s result. |
| GuessNumber.Play | python/4.1.14_GAME_GuessNumber_zero.py:86-105 | Any sequence of polls keeps the game valid. |
| GuessNumber.PollClosesIn | python/4.1.14_GAME_GuessNumber_zero.py:53-56 | A poll that does not start a new game keeps the point and can only move the bounds inwards. |
| GuessNumber.BoundsOnlyCloseIn | python/4.1.14_GAME_GuessNumber_zero.py:53-56 | Within one game, over any polls, upper never increases, lower never decreases and the point stays put. |
| GuessNumber.Guess.constructor | python/4.1.14_GAME_GuessNumber_zero.py:36-44 | The object starts in the game's start state. |
| GuessNumber.Guess.InitNewValue | python/4.1.14_GAME_GuessNumber_zero.py:36-44 | The method updates the globals as NewValue says. |
| GuessNumber.Guess.DetectPoint | python/4.1.14_GAME_GuessNumber_zero.py:47-61 | The method updates the globals and returns as Detect says. |
| GuessNumber.Guess.LcdShowInput | python/4.1.14_GAME_GuessNumber_zero.py:63-79 | The method updates the globals and writes the screens as ShowInput says. |
| GuessNumber.Guess.Poll | python/4.1.14_GAME_GuessNumber_zero.py:86-105 | One pass of `loop()` updates the globals and the screens as Step says. |
| SmartFan.MotorLevel | python/4.1.7_smart_fan_zero.py:36-53 | `motor_run` returns 0 for level 0, caps a level of 4 or more at 4, and keeps any other level. A non-negative level gives a result in 0..4. |
| SmartFan.Start | python/4.1.7_smart_fan_zero.py:74-76 | The fan starts at level 0 with speed 0 and the first reading as its mark. |
| SmartFan.Pressed | python/4.1.7_smart_fan_zero.py:55-65 | `changeLevel` cycles the level 0, 1, 2, 3, 4, 0 and copies the current reading, even a missing one, into the mark. |
| SmartFan.Tick | python/4.1.7_smart_fan_zero.py:77-94 | A None reading skips the pass, recording only the reading. At level 0 drift changes nothing. Otherwise a drop of 5 or more lowers the level, a rise of 5 or more raises it unless it is 4, both rebase the mark, and smaller drift changes nothing. The motor speed ends at 25 × level. A pass at a running level whose mark is None raises TypeError. The level stays in 0..4. |
| SmartFan.Run | python/4.1.7_smart_fan_zero.py:68-95 | Any interleaving of presses and readings keeps the fan valid. |
| SmartFan.NoFaultNoTypeError | python/4.1.7_smart_fan_zero.py:79-92 | Without a sensor fault, the script never stops on a TypeError. |
| SmartFan.FaultThenPressStops | python/4.1.7_smart_fan_zero.py:79-91 | A None reading, then a press to a running level, then any reading stops the script with a TypeError. |
| SmartFan.FivePressesCycle | python/4.1.7_smart_fan_zero.py:62 | Five presses bring the level back to where it was. |
| SmartFan.OffStaysOff | python/4.1.7_smart_fan_zero.py:83 | At level 0, readings alone never change the level. |
| SmartFan.Controller.constructor | python/4.1.7_smart_fan_zero.py:74-76 | The object starts in the fan's start state. |
| SmartFan.Controller.MotorRun | python/4.1.7_smart_fan_zero.py:36-53 | `motor_run` returns MotorLevel of its argument, sets the motor to 25 × that, and changes no global. |
| SmartFan.Controller.ChangeLevel | python/4.1.7_smart_fan_zero.py:55-65 | The button callback updates the globals as Pressed says. |
| SmartFan.Controller.MainPass | python/4.1.7_smart_fan_zero.py:77-95 | One pass of the main loop updates the globals and reports the outcome as Tick says. |
| OverheatMonitor.JoystickChange | python/4.1.10_overheat_monitor_zero.py:35-50 | x is checked before y. x above 50 gives 1 and x below -50 gives -1. Otherwise y above 50 gives -10 and y below -50 gives 10. The change is 0 iff both axes are within ±50. |
| OverheatMonitor.Start | python/4.1.10_overheat_monitor_zero.py:103-104 | The monitor starts in stage 0 with the threshold at 40. |
| OverheatMonitor.Adjusted | python/4.1.10_overheat_monitor_zero.py:52-63 | `upper_tem_setting` changes upperTem by exactly the joystick change and nothing else. |
| OverheatMonitor.Monitored | python/4.1.10_overheat_monitor_zero.py:80-99 | A None reading changes nothing. Otherwise the buzzer and the LED end equal, on iff `Cel >= upperTem`. The threshold and the stage are untouched. |
| OverheatMonitor.NextStage | python/4.1.10_overheat_monitor_zero.py:106-109 | The stage stays 0 or 1 and flips iff the button reads 1 after a 0. |
| OverheatMonitor.Step | python/4.1.10_overheat_monitor_zero.py:105-116 | A pass sets the stage and `lastState` from the button. In stage 1 it adjusts the threshold by the joystick change and leaves the alarm outputs alone. In stage 0 it leaves the threshold alone and runs the alarm decision: with a reading, buzzer and LED both on iff `Cel >= upperTem`; with no reading, both unchanged. |
| OverheatMonitor.Run | python/4.1.10_overheat_monitor_zero.py:105-116 | Over any passes the stage stays 0 or 1. |
| OverheatMonitor.AlarmOutputsAgree | python/4.1.10_overheat_monitor_zero.py:94-99 | The buzzer and the LED are always on or off together. |
| OverheatMonitor.HeldButtonTogglesOnce | python/4.1.10_overheat_monitor_zero.py:106-112 | Holding the button for any number of passes toggles the stage once. |
| OverheatMonitor.Station.constructor | python/4.1.10_overheat_monitor_zero.py:103-104 | The object starts in the monitor's start state. |
| OverheatMonitor.Station.UpperTemSetting | python/4.1.10_overheat_monitor_zero.py:52-63 | The method updates the globals as Adjusted says. |
| OverheatMonitor.Station.MonitoringTemp | python/4.1.10_overheat_monitor_zero.py:80-99 | The method updates the globals and outputs as Monitored says. |
| OverheatMonitor.Station.Poll | python/4.1.10_overheat_monitor_zero.py:105-116 | One pass of the main loop updates the globals and outputs as Step says. |
| TouchFan.Touched | gpt_example/gpt_fun_fan.py:103-114 | A touch within 0.5 s of the last accepted one changes nothing. An accepted touch records its time and adds 10 to speed, wrapping to 0 (motor stopped) when the result exceeds 100. The motor ends at the new speed. |
| TouchFan.TouchesFollowDial | gpt_example/gpt_fun_fan.py:103-114 | After any touches, the speed is the start speed moved round the dial once per accepted touch. |
| TouchFan.AroundIsModular | gpt_example/gpt_fun_fan.py:108-114 | From a dial speed, k steps round the dial stay on it and equal (speed + 10k) mod 110. |
| TouchFan.TouchesGoRound | gpt_example/gpt_fun_fan.py:103-114 | Touches alone cycle a dial speed through 0, 10, ..., 100, 0: after k accepted touches it is (speed + 10k) mod 110. |
| TouchFan.DialStep | gpt_example/gpt_fun_fan.py:108-114 | One step round the dial is adding 10 modulo 110. |
| TouchFan.AfterReply | gpt_example/gpt_fun_fan.py:180-196 | As written: a dict reply with `'speed'` sets speed to it, and any other reply sets -1. text is the dict's `'message'` or `''`, or the reply itself when it is not a dict. The motor is set only when speed >= 0. |
| TouchFan.ChatReplyDerailsTouches | gpt_example/gpt_fun_fan.py:180-191 | A reply without a speed while running at 50 keeps the motor at 50. The next touch then drives it at 9, a speed off the dial. |
| TouchFan.AfterReplyKeepingSpeed | gpt_example/gpt_fun_fan.py:180-196 | Corrected branching: a non-negative reply speed sets speed and motor, and any other reply leaves the fan as it was. The text is as before. |
| TouchFan.ChatKeepsTouchesOnDial | gpt_example/gpt_fun_fan.py:103-114 | With the corrected branching, touches after any reply keep the speed on the dial. |
| TouchFan.Controller.constructor | gpt_example/gpt_fun_fan.py:94-101 | The fan starts at speed 0 with the motor off. |
| TouchFan.Controller.SpeedUp | gpt_example/gpt_fun_fan.py:103-114 | The touch callback updates the globals and the motor as Touched says. |
| TouchFan.Controller.HandleReply | gpt_example/gpt_fun_fan.py:180-196 | The reply branch updates the globals and the motor and yields the text as AfterReply says. |
| MorseRecorder.Initial | gpt_example/gpt_fun_morse_decoder.py:60 | The recorder starts with an empty list, which is paired. |
| MorseRecorder.KeyDown | gpt_example/gpt_fun_morse_decoder.py:62-64 | `morse_input_pressed` changes only start_time. |
| MorseRecorder.KeyUp | gpt_example/gpt_fun_morse_decoder.py:66-72 | A press shorter than 0.1 s adds nothing. A longer one appends exactly `('pressed', start)` then `('released', now)`. The paired shape is preserved: even length, kinds alternating from pressed, each release at least 0.1 s after its press. |
| MorseRecorder.StartStop | gpt_example/gpt_fun_morse_decoder.py:75-86 | `handle_start_stop` flips input_active and sets the LED to match. Stopping hands the list to the decoder. Both directions end with an empty list. |
| MorseRecorder.AlwaysPaired | gpt_example/gpt_fun_morse_decoder.py:62-86 | Whatever the key and button signals, the list stays paired, and so does every list sent for decoding. |
| MorseRecorder.KeysLeaveModeAlone | gpt_example/gpt_fun_morse_decoder.py:62-72 | Key signals alone never change input_active or the LED. |
| MorseRecorder.StartStopAlternates | gpt_example/gpt_fun_morse_decoder.py:75-86 | Two start/stop presses restore the mode and leave the list empty. |
| MorseRecorder.Decoder.constructor | gpt_example/gpt_fun_morse_decoder.py:60 | The object starts in the recorder's initial state. |
| MorseRecorder.Decoder.MorseInputPressed | gpt_example/gpt_fun_morse_decoder.py:62-64 | The press callback updates the globals as KeyDown says. |
| MorseRecorder.Decoder.MorseInputReleased | gpt_example/gpt_fun_morse_decoder.py:66-72 | The release callback updates the globals as KeyUp says. |
| MorseRecorder.Decoder.DecodeAndSpeak | gpt_example/gpt_fun_morse_decoder.py:55-57 | The decoder hands over the list and always ends with it empty. No other global changes. |
| MorseRecorder.Decoder.HandleStartStop | gpt_example/gpt_fun_morse_decoder.py:75-86 | The start/stop callback updates the globals and the LED as StartStop says. |
| BlindfoldedGame.Move | gpt_example/gpt_fun_blindfolded_game.py:62-69 | An axis moves +1 iff the stick reads above 80, -1 iff below -80, and 0 iff within ±80. |
| BlindfoldedGame.Step | gpt_example/gpt_fun_blindfolded_game.py:59-77 | Each axis moves by its own reading. After the pass no smash is armed. |
| BlindfoldedGame.OneMetrePerPass | gpt_example/gpt_fun_blindfolded_game.py:62-69 | After n passes the player is at most n metres from the start on each axis. |
| BlindfoldedGame.AxesIndependent | gpt_example/gpt_fun_blindfolded_game.py:62-69 | The two axes are independent over whole tracks: the x position depends only on the x readings, and the y position only on the y readings. |
| BlindfoldedGame.TrackAppend | gpt_example/gpt_fun_blindfolded_game.py:59-69 | Walking two runs of passes is walking the first, then the second from where it ended. |
| BlindfoldedGame.StraightWalk | gpt_example/gpt_fun_blindfolded_game.py:62-69 | n passes with the same readings walk n steps in a straight line. |
| BlindfoldedGame.Reachable | gpt_example/gpt_fun_blindfolded_game.py:51-69 | Every watermelon position the script can draw, in [-10, 10] on each axis, is reached from (0, 0) by walking east or west, then north or south. |
| BlindfoldedGame.Play | gpt_example/gpt_fun_blindfolded_game.py:47-107 | The loop tracks the player pass by pass from (0, 0) with a smash armed. It ends with a hit only on an armed, answered smash that finds the player on the watermelon, and no earlier pass was such a hit. Otherwise it reads every pass. |
| LedBar.Lit | python/4.1.8_battery_indicator_zero.py:6-9 | A bar has ten LEDs. |
| LedBar.LitCount | python/4.1.8_battery_indicator_zero.py:28-34 | The bar showing n has n LEDs on, clamped to 0..10. |
| LedBar.LitInjective | python/4.1.8_battery_indicator_zero.py:28-34 | Different values in 0..10 give different bars. |
| LedBar.CountPrefix | python/4.1.8_battery_indicator_zero.py:33-34 | Turning on the LEDs below n in a bar of k gives n LEDs on, clamped to 0..k. |
| BatteryIndicator.LedBarGraph | python/4.1.8_battery_indicator_zero.py:28-34 | Afterwards LED i is on iff i < value, so the bar depends on the value alone and a repeated call leaves the same bar. An IndexError is raised iff value > 10. |
| BatteryIndicator.AllOff | python/4.1.8_battery_indicator_zero.py:47-50 | On interrupt all ten LEDs end off. |
| VolumeControl.Trunc | gpt_example/gpt_fun_volume.py:116 | `int()` of a float truncates toward zero. |
| VolumeControl.SetVolume | gpt_example/gpt_fun_volume.py:112-117 | Afterwards LED i is on iff i < int(percent/10). An IndexError is raised iff int(percent/10) > 10. |
| VolumeControl.VolumeFitsBar | gpt_example/gpt_fun_volume.py:112-117 | Every percentage in 0..100 lights between 0 and 10 LEDs, one per full ten percent. |
| VolumeControl.Pgrep | gpt_example/gpt_fun_volume.py:122 | `pgrep -x mplayer` over the running processes' names exits 0 exactly when some process is named `mplayer`, and 1 otherwise. |
| VolumeControl.IsMplayerRunningAsWritten | gpt_example/gpt_fun_volume.py:120-123 | As written, `returncode == True` holds exactly on pgrep's no-match status 1. |
| VolumeControl.AsWrittenInverted | gpt_example/gpt_fun_volume.py:120-128 | As written, for every process list the check answers "running" exactly when no mplayer process exists, the opposite of the corrected check, so the loop records only while some mplayer is playing. |
| VolumeControl.CheckInvertedAsWritten | gpt_example/gpt_fun_volume.py:120-123 | On both of pgrep's normal statuses the as-written check gives the opposite answer to the corrected one. |
| VolumeControl.RunningIffMplayer | gpt_example/gpt_fun_volume.py:120-123 | The corrected check (`IsMplayerRunning`, exit status 0) answers "running" exactly when some process is named `mplayer`. |
| VolumeControl.ListensIffIdle | gpt_example/gpt_fun_volume.py:128 | With the corrected check (`Listens`), the loop records a new utterance exactly when no mplayer process is playing. |
| ReversingAlarm.Classify | python/4.1.6_ReversingAlarm_zero.py:32-52 | Every reading falls in exactly one band: over 400 out of range, 50 to 400 far, strictly between 20 and 50 near, 20 or less close. |
| ReversingAlarm.Beeps | python/4.1.6_ReversingAlarm_zero.py:43-58 | No beep when out of range or far, 2 when near, 5 when close. |
| ReversingAlarm.Pulses | python/4.1.6_ReversingAlarm_zero.py:47-58 | n beeps are 2n buzzer writes. |
| ReversingAlarm.PulsesCount | python/4.1.6_ReversingAlarm_zero.py:47-58 | n beeps turn the buzzer on n times, each on followed by an off. |
| ReversingAlarm.Cycle | python/4.1.6_ReversingAlarm_zero.py:27-58 | A reading above 400 shows the out-of-range error and writes nothing to the buzzer. Otherwise the pass shows the distance and beeps as its band says. |
| ReversingAlarm.CycleEndsQuiet | python/4.1.6_ReversingAlarm_zero.py:47-58 | Every pass beeps exactly as often as its band says and leaves the buzzer off. |

## Left out

- Hardware drivers (`Pin`, `ADC`, `MPU6050`, `LCD1602`, `Keypad`, `Motor`, `Buzzer`) are foreign libraries. Their readings are inputs and their writes are outputs. The LCD is modelled as a list of writes only in the password lock and as abstract screens in the guess-number game. The other scripts' LCD text and `str()`/`round()` formatting are not modelled.
- Remote assistant calls, speech-to-text, text-to-speech, `mplayer`, `amixer` and `pgrep` are network or process I/O. Only the assistant's evaluated reply (touch fan), whether the answer came back (blindfolded game) and pgrep's exit status (volume) are modelled, as inputs.
- Threads, timers and GPIO callbacks run concurrently in the scripts. Their bodies are modelled as sequential steps interleaved by an input sequence, and races between them are not modelled.
- Floating point: the thermistor equation, `MAP` rescaling, `abs(acc_z * dt)` and `round` are not modelled. Temperatures, stick positions, speeds and distances are real-valued inputs, and the model compares them exactly.
- Clocks and sleeps: times are real inputs. Persistence-of-vision dwell and debounce sleeps are not modelled.
- Randomness: the guessed point and the watermelon position are parameters (`draw`, `melonX`, `melonY`).
- TouchFan.AfterReply: the reply's `'speed'` is modelled as an integer only. `eval` can also yield a float, which the script passes to `motor.speed`, or a non-number, for which `speed >= 0` raises `TypeError` and ends the script. The assistant is instructed to reply with a speed in 0-100.
- The touch fan's `beep()` and the printed status lines are not modelled.
- The scripts' endless loops are modelled over finite input sequences: Dumbbell.Session, CountingDevice.Loop and BlindfoldedGame.Play also stop when their inputs run out.
- FourDigit.Counter.Timer: rescheduling the next `threading.Timer` is not modelled; only the increment is.
- The traffic light's `timer()` is modelled only from reachable states (Tick requires a counter between 1 and the colour's duration). The script's start state is one.

## Findings

| source | as written | input that shows it | evidently intended | confidence | as-written member | corrected member |
|---|---|---|---|---|---|---|
| gpt_example/gpt_fun_fan.py:180-191 | A dict reply without `'speed'` (or a non-dict reply) stores -1 in the global `speed`, though the motor is only set for `speed >= 0` | Running at 50, the reply `{'message': 'hi'}`, then a touch: speed becomes -1 + 10 = 9 and the motor is driven at 9 | A reply that sets no speed leaves the speed and the motor as they were, so touches keep cycling 0, 10, ..., 100 | not executed | TouchFan.AfterReply, TouchFan.ChatReplyDerailsTouches | TouchFan.AfterReplyKeepingSpeed, TouchFan.ChatKeepsTouchesOnDial |
| gpt_example/gpt_fun_volume.py:120-128 | `is_mplayer_running` returns `returncode == True`, which is true when pgrep exits 1, that is, when no mplayer process matched | No mplayer process: pgrep exits 1, the check answers True, and the loop does not record. `text_to_speech` waits for mplayer to exit, so the script's own answers never change this: as written the loop never records (only an mplayer started outside the script would let it) | True exactly when pgrep exits 0 (a match), so the loop listens only while nothing plays | not executed | VolumeControl.IsMplayerRunningAsWritten, VolumeControl.AsWrittenInverted | VolumeControl.RunningIffMplayer, VolumeControl.ListensIffIdle |
