/**
 * The keypad password lock: each newly pressed key is echoed on the LCD and
 * stored in the next slot of a four-key buffer; when the fourth key is in, the
 * buffer is compared with the preset password, the LCD shows the verdict and
 * the buffer index starts over.
 */
module PasswordLock {
  import opened Optional

  /** `LENS`: the password length. */
  const Lens: nat := 4
  /** The preset password. */
  const Password: seq<string> := ["1", "9", "8", "4"]
  /** The buffer's contents before any key is entered. */
  const InitialTestword: seq<string> := ["0", "0", "0", "0"]

  /** `check()`: compares position by position and answers 0 at the first mismatch, 1 if there is none. */
  method Check(password: seq<string>, testword: seq<string>) returns (r: int)
    requires |password| == Lens && |testword| == Lens
    ensures r == 0 || r == 1
    ensures r == 1 <==> testword == password
  {
    for i := 0 to Lens
      invariant forall j :: 0 <= j < i ==> password[j] == testword[j]
    {
      if password[i] != testword[i] {
        return 0;
      }
    }
    assert testword == password;
    return 1;
  }

  /** One write to the 16x2 LCD. */
  datatype LcdOp = Clear | Text(col: int, row: nat, text: string)

  /** What the LCD gets when a key is accepted into slot `index`: the prompt and the key, right to left. */
  function Echo(index: nat, key: string): seq<LcdOp>
  {
    [Clear, Text(0, 0, "Enter password:"), Text(15 - index, 1, key)]
  }

  /** What the LCD gets when the fourth key is in. */
  function Verdict(correct: bool): seq<LcdOp>
  {
    if correct then [Clear, Text(4, 0, "CORRECT!"), Text(2, 1, "welcome back")]
    else [Clear, Text(3, 0, "WRONG KEY!"), Text(0, 1, "please try again")]
  }

  /** The script's globals `testword`, `keyIndex` and `last_key_pressed`. */
  datatype LockState = LockState(testword: seq<string>, keyIndex: nat, lastKeys: seq<string>)

  /** Between polls the buffer holds four keys and the index points into it. */
  predicate Valid(l: LockState)
  {
    |l.testword| == Lens && l.keyIndex < Lens
  }

  function Initial(): (l: LockState)
    ensures Valid(l)
  {
    LockState(InitialTestword, 0, [])
  }

  /** A reading is taken as a key press only when something is pressed and the reading differs from the previous poll. */
  predicate Fresh(l: LockState, pressed: seq<string>)
  {
    pressed != [] && pressed != l.lastKeys
  }

  /** The result of one poll: the new state, the verdict if one was given, and the LCD writes. */
  datatype PollResult = PollResult(next: LockState, verdict: Option<bool>, lcd: seq<LcdOp>)

  /** One pass of `loop()` with keypad reading `pressed`. */
  function Step(l: LockState, pressed: seq<string>): (p: PollResult)
    requires Valid(l)
    ensures Valid(p.next) && p.next.lastKeys == pressed
    ensures !Fresh(l, pressed) ==> p.next.testword == l.testword && p.next.keyIndex == l.keyIndex && p.verdict == None && p.lcd == []
    ensures Fresh(l, pressed) ==>
      && p.next.testword == l.testword[l.keyIndex := pressed[0]]
      && p.next.keyIndex == (l.keyIndex + 1) % Lens
      && (p.verdict != None <==> l.keyIndex == Lens - 1)
    ensures p.verdict == Some(true) <==> Fresh(l, pressed) && l.keyIndex == Lens - 1 && p.next.testword == Password
    ensures p.lcd == if !Fresh(l, pressed) then [] else Echo(l.keyIndex, pressed[0]) + (if p.verdict.Some? then Verdict(p.verdict.value) else [])
  {
    if Fresh(l, pressed) then
      var testword := l.testword[l.keyIndex := pressed[0]];
      if l.keyIndex + 1 == Lens then
        var correct := testword == Password;
        PollResult(LockState(testword, 0, pressed), Some(correct), Echo(l.keyIndex, pressed[0]) + Verdict(correct))
      else
        PollResult(LockState(testword, l.keyIndex + 1, pressed), None, Echo(l.keyIndex, pressed[0]))
    else
      PollResult(l.(lastKeys := pressed), None, [])
  }

  /** A key held down across two polls is taken once: the second poll changes nothing. */
  lemma HeldKeyOnce(l: LockState, pressed: seq<string>)
    requires Valid(l)
    ensures var first := Step(l, pressed);
      var second := Step(first.next, pressed);
      second.next == first.next && second.verdict == None && second.lcd == []
  {
  }

  /**
   * Entering four keys from an empty buffer, each reading differing from the one
   * before, leaves exactly those keys in the buffer, gives a verdict on the fourth
   * and none before it, and the verdict is "correct" iff the keys are the password.
   */
  lemma FourKeysGiveVerdict(l: LockState, a: seq<string>, b: seq<string>, c: seq<string>, d: seq<string>)
    requires Valid(l) && l.keyIndex == 0
    requires Fresh(l, a) && b != [] && b != a && c != [] && c != b && d != [] && d != c
    ensures var s1 := Step(l, a);
      var s2 := Step(s1.next, b);
      var s3 := Step(s2.next, c);
      var s4 := Step(s3.next, d);
      && s1.verdict == None && s2.verdict == None && s3.verdict == None
      && s4.next.testword == [a[0], b[0], c[0], d[0]]
      && s4.next.keyIndex == 0
      && s4.verdict == Some([a[0], b[0], c[0], d[0]] == Password)
  {
    var s1 := Step(l, a);
    var s2 := Step(s1.next, b);
    var s3 := Step(s2.next, c);
    var s4 := Step(s3.next, d);
    assert s4.next.testword == l.testword[0 := a[0]][1 := b[0]][2 := c[0]][3 := d[0]];
    assert s4.next.testword == [a[0], b[0], c[0], d[0]];
  }

  /** The state after a sequence of keypad readings. */
  function Run(l: LockState, readings: seq<seq<string>>): (r: LockState)
    requires Valid(l)
    ensures Valid(r)
    decreases |readings|
  {
    if readings == [] then l else Step(Run(l, readings[..|readings| - 1]), readings[|readings| - 1]).next
  }

  /**
   * The index counts the accepted keys modulo four, whatever the readings: it
   * never reaches `LENS` between polls, so `testword[keyIndex]` is always in range.
   */
  lemma {:induction false} IndexCountsFreshKeys(l: LockState, readings: seq<seq<string>>)
    requires Valid(l)
    ensures Run(l, readings).keyIndex == (l.keyIndex + Accepted(l, readings)) % Lens
    decreases |readings|
  {
    if readings != [] {
      var init := readings[..|readings| - 1];
      IndexCountsFreshKeys(l, init);
      IndexStep(Run(l, init), readings[|readings| - 1], l.keyIndex + Accepted(l, init));
    }
  }

  /** One poll moves the index one place round the buffer exactly when it takes a key. */
  lemma IndexStep(l: LockState, pressed: seq<string>, m: nat)
    requires Valid(l) && l.keyIndex == m % Lens
    ensures Step(l, pressed).next.keyIndex == (m + if Fresh(l, pressed) then 1 else 0) % Lens
  {
  }

  /** How many of the readings were taken as key presses. */
  function Accepted(l: LockState, readings: seq<seq<string>>): nat
    requires Valid(l)
    decreases |readings|
  {
    if readings == [] then 0
    else
      var init := readings[..|readings| - 1];
      Accepted(l, init) + if Fresh(Run(l, init), readings[|readings| - 1]) then 1 else 0
  }

  /** The script's globals and `loop()` as a keypad-polling object. */
  class Lock {
    var testword: seq<string>
    var keyIndex: nat
    var lastKeyPressed: seq<string>

    function State(): LockState
      reads this
    {
      LockState(testword, keyIndex, lastKeyPressed)
    }

    constructor()
      ensures State() == Initial()
    {
      testword := InitialTestword;
      keyIndex := 0;
      lastKeyPressed := [];
    }

    /** One pass of `loop()`: returns the LCD writes it makes. */
    method Poll(pressed: seq<string>) returns (lcd: seq<LcdOp>)
      requires Valid(State())
      modifies this
      ensures State() == Step(old(State()), pressed).next
      ensures lcd == Step(old(State()), pressed).lcd
    {
      lcd := [];
      if pressed != [] && pressed != lastKeyPressed {
        if keyIndex < Lens {
          lcd := Echo(keyIndex, pressed[0]);
          testword := testword[keyIndex := pressed[0]];
          keyIndex := keyIndex + 1;
        }
        if keyIndex == Lens {
          var ok := Check(Password, testword);
          lcd := lcd + Verdict(ok == 1);
          keyIndex := 0;
        }
      }
      lastKeyPressed := pressed;
    }
  }
}
