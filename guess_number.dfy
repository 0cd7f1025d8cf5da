/**
 * The guess-the-number game: the player types a two-digit guess on the keypad;
 * each wrong guess that falls inside the current bounds becomes the new upper or
 * lower bound, the LCD shows "lower < Point < upper", and a right guess starts a
 * new game with a fresh random point.
 */
module GuessNumber {

  /** The highest point value `random.randint(0, 99)` can draw, and the initial upper bound. */
  const Top: nat := 99

  /** The keypad's sixteen key labels. */
  const Keys: seq<string> := ["1", "2", "3", "A", "4", "5", "6", "B", "7", "8", "9", "C", "*", "0", "#", "D"]
  /** The labels that are not digits. */
  const NonDigits: seq<string> := ["A", "B", "C", "D", "#", "*"]

  /** `int(key)` for the ten digit labels. */
  function KeyDigit(key: string): (d: nat)
    requires key in Keys && key !in NonDigits
    ensures d < 10
    ensures key == [(d + '0' as int) as char]
  {
    if key == "0" then 0 else if key == "1" then 1 else if key == "2" then 2
    else if key == "3" then 3 else if key == "4" then 4 else if key == "5" then 5
    else if key == "6" then 6 else if key == "7" then 7 else if key == "8" then 8
    else assert key == "9"; 9
  }

  /** The globals `count`, `pointValue`, `upper`, `lower` and `last_key_pressed`. */
  datatype Game = Game(count: nat, pointValue: nat, upper: nat, lower: nat, lastKeys: seq<string>)

  /** The point lies within the bounds, the bounds within 0..99, and the typed number is a single digit between polls. */
  predicate Valid(g: Game)
  {
    g.lower <= g.pointValue <= g.upper <= Top && g.count < 10
  }

  /** The globals as the script sets them before the first poll. */
  function Start(): (g: Game)
    ensures Valid(g)
  {
    Game(0, 0, Top, 0, [])
  }

  /** `init_new_value()` with `random.randint(0, 99)` returning `draw`. */
  function NewValue(g: Game, draw: nat): (r: Game)
    requires draw <= Top
    ensures Valid(r) && r.pointValue == draw && r.count == 0 && r.lower == 0 && r.upper == Top
    ensures r.lastKeys == g.lastKeys
  {
    g.(pointValue := draw, upper := Top, lower := 0, count := 0)
  }

  /** The game after `detect_point()` and the value it returns. */
  datatype Judged = Judged(game: Game, result: int)

  /** `detect_point()`: narrows a bound on a wrong guess inside the bounds, and always clears the typed number. */
  function Detect(g: Game): (j: Judged)
    ensures j.game.count == 0 && j.game.pointValue == g.pointValue && j.game.lastKeys == g.lastKeys
    ensures j.result == 0 || j.result == 1
    ensures j.result == 1 <==> g.count == g.pointValue
    ensures j.game.upper <= g.upper && j.game.lower >= g.lower
    ensures g.lower <= g.pointValue <= g.upper ==>
      && j.game.lower <= j.game.pointValue <= j.game.upper
      && (!(g.lower < g.count < g.upper) || g.count == g.pointValue ==> j.game.upper == g.upper && j.game.lower == g.lower)
      && (g.lower < g.count < g.upper && g.count != g.pointValue ==> j.game.upper - j.game.lower < g.upper - g.lower)
  {
    if g.count > g.pointValue && g.count < g.upper then
      Judged(g.(upper := g.count, count := 0), 0)
    else if g.count < g.pointValue && g.count > g.lower then
      Judged(g.(lower := g.count, count := 0), 0)
    else if g.count == g.pointValue then
      Judged(g.(count := 0), 1)
    else
      Judged(g.(count := 0), 0)
  }

  /** What `lcd_show_input` puts on the LCD. */
  datatype Screen = GotIt | Prompt(count: nat, lower: nat, upper: nat)

  /** The result of one poll: the new game and the screens shown. */
  datatype Outcome = Outcome(game: Game, screens: seq<Screen>)

  /** `lcd_show_input(result)`: a right guess is announced and a new game drawn; otherwise the prompt shows the state. */
  function ShowInput(g: Game, result: int, draw: nat): (o: Outcome)
    requires draw <= Top
    ensures result == 1 ==> o.game == NewValue(g, draw) && o.screens == [GotIt, Prompt(0, 0, Top)]
    ensures result != 1 ==> o.game == g && o.screens == [Prompt(g.count, g.lower, g.upper)]
  {
    if result == 1 then
      var n := NewValue(g, draw);
      Outcome(n, [GotIt, Prompt(n.count, n.lower, n.upper)])
    else
      Outcome(g, [Prompt(g.count, g.lower, g.upper)])
  }

  /** The reading is handled: something is pressed and it differs from the previous poll. */
  predicate Fresh(g: Game, pressed: seq<string>)
  {
    pressed != [] && pressed != g.lastKeys
  }

  /**
   * One pass of `loop()` with keypad reading `pressed`, where `draw` is what
   * `random.randint(0, 99)` would return if the pass starts a new game.
   */
  function Step(g: Game, pressed: seq<string>, draw: nat): (o: Outcome)
    requires Valid(g) && draw <= Top
    ensures Valid(o.game)
  {
    if Fresh(g, pressed) then
      if pressed == ["A"] then
        ShowInput(NewValue(g, draw), 0, draw).(game := NewValue(g, draw).(lastKeys := pressed))
      else if pressed == ["D"] then
        var j := Detect(g);
        var o := ShowInput(j.game, j.result, draw);
        o.(game := o.game.(lastKeys := pressed))
      else if pressed[0] in Keys then
        if pressed[0] in NonDigits then
          // `continue`: not even `last_key_pressed` is updated
          Outcome(g, [])
        else
          var typed := g.(count := g.count * 10 + KeyDigit(pressed[0]));
          var j := if typed.count >= 10 then Detect(typed) else Judged(typed, 0);
          var o := ShowInput(j.game, j.result, draw);
          o.(game := o.game.(lastKeys := pressed))
      else
        Outcome(g.(lastKeys := pressed), [])
    else
      Outcome(g.(lastKeys := pressed), [])
  }

  /** A reading equal to the previous one, or an empty one, changes nothing but the remembered reading and shows nothing. */
  lemma StaleReadingChangesNothing(g: Game, pressed: seq<string>, draw: nat)
    requires Valid(g) && draw <= Top && !Fresh(g, pressed)
    ensures Step(g, pressed, draw) == Outcome(g.(lastKeys := pressed), [])
  {
  }

  /** B, C, # and * (alone or first in a reading other than A or D) leave every variable as it was. */
  lemma NonDigitKeysChangeNothing(g: Game, pressed: seq<string>, draw: nat)
    requires Valid(g) && draw <= Top && pressed != ["A"] && pressed != ["D"]
    requires pressed != [] && pressed[0] in ["B", "C", "#", "*"]
    ensures Step(g, pressed, draw).game == g
  {
  }

  /** A digit key that keeps the typed number below 10 only appends the digit and shows it. */
  lemma FirstDigitIsTyped(g: Game, pressed: seq<string>, draw: nat)
    requires Valid(g) && draw <= Top && Fresh(g, pressed) && pressed != ["A"] && pressed != ["D"]
    requires pressed[0] in Keys && pressed[0] !in NonDigits
    requires g.count * 10 + KeyDigit(pressed[0]) < 10
    ensures var o := Step(g, pressed, draw);
      o.game == g.(count := KeyDigit(pressed[0]), lastKeys := pressed)
      && o.screens == [Prompt(KeyDigit(pressed[0]), g.lower, g.upper)]
  {
    assert g.count == 0;
  }

  /**
   * A digit key that makes the typed number reach two digits judges that number
   * at once: on a hit the game restarts with the drawn point, otherwise the typed
   * number is cleared and the bounds close in on the point without passing it.
   */
  lemma SecondDigitJudges(g: Game, pressed: seq<string>, draw: nat)
    requires Valid(g) && draw <= Top && Fresh(g, pressed) && pressed != ["A"] && pressed != ["D"]
    requires pressed[0] in Keys && pressed[0] !in NonDigits
    requires g.count * 10 + KeyDigit(pressed[0]) >= 10
    ensures var guess := g.count * 10 + KeyDigit(pressed[0]);
      var o := Step(g, pressed, draw);
      && (guess == g.pointValue ==> o.game == NewValue(g, draw).(lastKeys := pressed) && o.screens == [GotIt, Prompt(0, 0, Top)])
      && (guess != g.pointValue ==>
          && o.game.count == 0 && o.game.pointValue == g.pointValue
          && g.lower <= o.game.lower <= g.pointValue <= o.game.upper <= g.upper
          && (g.lower < guess < g.upper ==> o.game.upper - o.game.lower < g.upper - g.lower)
          && o.screens == [Prompt(0, o.game.lower, o.game.upper)])
  {
  }

  /** Pressing D judges the typed number in the same way. */
  lemma DKeyJudges(g: Game, draw: nat)
    requires Valid(g) && draw <= Top && Fresh(g, ["D"])
    ensures var o := Step(g, ["D"], draw);
      && (g.count == g.pointValue ==> o.game == NewValue(g, draw).(lastKeys := ["D"]))
      && (g.count != g.pointValue ==> o.game == Detect(g).game.(lastKeys := ["D"]))
  {
  }

  /** The game after a sequence of polls, each with its own draw. */
  function Play(g: Game, readings: seq<seq<string>>, draws: seq<nat>): (r: Game)
    requires Valid(g) && |draws| == |readings|
    requires forall i :: 0 <= i < |draws| ==> draws[i] <= Top
    ensures Valid(r)
    decreases |readings|
  {
    if readings == [] then g
    else
      var n := |readings| - 1;
      Step(Play(g, readings[..n], draws[..n]), readings[n], draws[n]).game
  }

  /** The poll starts a new game: A is pressed, or a hit is announced. */
  predicate Restarts(g: Game, pressed: seq<string>)
    requires Valid(g)
  {
    (Fresh(g, pressed) && pressed == ["A"]) || GotIt in Step(g, pressed, 0).screens
  }

  /** A poll that does not start a new game keeps the point and can only move the bounds towards it. */
  lemma PollClosesIn(g: Game, pressed: seq<string>, draw: nat)
    requires Valid(g) && draw <= Top && !Restarts(g, pressed)
    ensures var r := Step(g, pressed, draw).game;
      r.pointValue == g.pointValue && g.lower <= r.lower && r.upper <= g.upper
  {
  }

  /** No poll of the sequence starts a new game. */
  predicate SameGame(g: Game, readings: seq<seq<string>>, draws: seq<nat>)
    requires Valid(g) && |draws| == |readings|
    requires forall i :: 0 <= i < |draws| ==> draws[i] <= Top
    decreases |readings|
  {
    if readings == [] then true
    else
      var n := |readings| - 1;
      SameGame(g, readings[..n], draws[..n]) && !Restarts(Play(g, readings[..n], draws[..n]), readings[n])
  }

  /**
   * Within one game (no poll starts a new one), the bounds only close in: the
   * upper bound never rises, the lower never falls, and the point stays put.
   */
  lemma {:induction false} BoundsOnlyCloseIn(g: Game, readings: seq<seq<string>>, draws: seq<nat>)
    requires Valid(g) && |draws| == |readings|
    requires forall i :: 0 <= i < |draws| ==> draws[i] <= Top
    requires SameGame(g, readings, draws)
    ensures var r := Play(g, readings, draws);
      r.pointValue == g.pointValue && g.lower <= r.lower && r.upper <= g.upper
    decreases |readings|
  {
    if readings != [] {
      var n := |readings| - 1;
      BoundsOnlyCloseIn(g, readings[..n], draws[..n]);
      PollClosesIn(Play(g, readings[..n], draws[..n]), readings[n], draws[n]);
    }
  }

  /** The script's globals and its `loop()` as a keypad-polling object. */
  class Guess {
    var count: nat
    var pointValue: nat
    var upper: nat
    var lower: nat
    var lastKeyPressed: seq<string>

    function State(): Game
      reads this
    {
      Game(count, pointValue, upper, lower, lastKeyPressed)
    }

    constructor()
      ensures State() == Start()
    {
      count, pointValue, upper, lower := 0, 0, Top, 0;
      lastKeyPressed := [];
    }

    /** `init_new_value()` with the random draw passed in. */
    method InitNewValue(draw: nat)
      requires draw <= Top
      modifies this
      ensures State() == NewValue(old(State()), draw)
    {
      pointValue := draw;
      upper := Top;
      lower := 0;
      count := 0;
    }

    /** `detect_point()`. */
    method DetectPoint() returns (result: int)
      modifies this
      ensures State() == Detect(old(State())).game && result == Detect(old(State())).result
    {
      if count > pointValue && count < upper {
        upper := count;
      } else if count < pointValue && count > lower {
        lower := count;
      } else if count == pointValue {
        count := 0;
        return 1;
      }
      count := 0;
      return 0;
    }

    /** `lcd_show_input(result)`: returns the screens shown. */
    method LcdShowInput(result: int, draw: nat) returns (screens: seq<Screen>)
      requires draw <= Top
      modifies this
      ensures State() == ShowInput(old(State()), result, draw).game
      ensures screens == ShowInput(old(State()), result, draw).screens
    {
      if result == 1 {
        InitNewValue(draw);
        screens := [GotIt, Prompt(count, lower, upper)];
      } else {
        screens := [Prompt(count, lower, upper)];
      }
    }

    /** One pass of `loop()`: returns the screens shown. */
    method Poll(pressed: seq<string>, draw: nat) returns (screens: seq<Screen>)
      requires Valid(State()) && draw <= Top
      modifies this
      ensures State() == Step(old(State()), pressed, draw).game
      ensures screens == Step(old(State()), pressed, draw).screens
    {
      var result := 0;
      screens := [];
      if pressed != [] && pressed != lastKeyPressed {
        if pressed == ["A"] {
          InitNewValue(draw);
          screens := LcdShowInput(0, draw);
        } else if pressed == ["D"] {
          result := DetectPoint();
          screens := LcdShowInput(result, draw);
        } else if pressed[0] in Keys {
          if pressed[0] in NonDigits {
            return;
          }
          count := count * 10 + KeyDigit(pressed[0]);
          if count >= 10 {
            result := DetectPoint();
          }
          screens := LcdShowInput(result, draw);
        }
      }
      lastKeyPressed := pressed;
    }
  }
}
