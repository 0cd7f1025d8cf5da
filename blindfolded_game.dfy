/**
 * The blindfolded watermelon game: the joystick walks the player one metre per
 * pass along each axis it is pushed hard on, a button press arms a smash, and
 * the game ends when a smash that the assistant answered finds the player on
 * the watermelon.
 */
module BlindfoldedGame {

  /** How far, on the -100..100 scale, the stick must be pushed to move. */
  const Push: real := 80.0
  /** The watermelon is drawn from -10..10 on each axis. */
  const Field: int := 10

  /** The step one axis takes for a stick reading already mapped to -100..100. */
  function Move(v: real): (d: int)
    ensures d == 1 <==> v > Push
    ensures d == -1 <==> v < -Push
    ensures d == 0 <==> -Push <= v <= Push
  {
    if v > Push then 1 else if v < -Push then -1 else 0
  }

  /**
   * One pass of the main loop: the two stick readings, whether the button
   * callback fired before the smash check, and whether the assistant's answer
   * came back without an exception.
   */
  datatype Pass = Pass(x: real, y: real, pressed: bool, replied: bool)

  /** The globals `player_x`, `player_y` and `smash_tips`. */
  datatype Player = Player(x: int, y: int, smashTips: bool)

  /** The player at the origin with a smash armed, as the script starts. */
  function Start(): Player
  {
    Player(0, 0, true)
  }

  /** The pass smashes: the flag was set, before the pass or by the callback during it. */
  predicate Smashes(p: Player, pass: Pass)
  {
    p.smashTips || pass.pressed
  }

  /** One pass: each axis moves on its own stick reading, and a smash consumes the flag. */
  function Step(p: Player, pass: Pass): (r: Player)
    ensures r.x == p.x + Move(pass.x) && r.y == p.y + Move(pass.y)
    ensures !r.smashTips
  {
    Player(p.x + Move(pass.x), p.y + Move(pass.y), false)
  }

  /** The game ends on this pass: a smash, answered, with the player on the watermelon. */
  predicate Hits(p: Player, pass: Pass, melonX: int, melonY: int)
  {
    var r := Step(p, pass);
    Smashes(p, pass) && pass.replied && r.x == melonX && r.y == melonY
  }

  /** The player after a sequence of passes. */
  function Track(p: Player, passes: seq<Pass>): Player
    decreases |passes|
  {
    if passes == [] then p else Step(Track(p, passes[..|passes| - 1]), passes[|passes| - 1])
  }

  /** The player moves at most one metre per axis per pass. */
  lemma {:induction false} OneMetrePerPass(p: Player, passes: seq<Pass>)
    ensures var r := Track(p, passes);
      -|passes| <= r.x - p.x <= |passes| && -|passes| <= r.y - p.y <= |passes|
    decreases |passes|
  {
    if passes != [] {
      OneMetrePerPass(p, passes[..|passes| - 1]);
    }
  }

  /** The two axes are independent: the x position depends only on the x readings, and the y position only on the y readings. */
  lemma {:induction false} AxesIndependent(p: Player, a: seq<Pass>, b: seq<Pass>)
    requires |a| == |b|
    ensures (forall i :: 0 <= i < |a| ==> a[i].x == b[i].x) ==> Track(p, a).x == Track(p, b).x
    ensures (forall i :: 0 <= i < |a| ==> a[i].y == b[i].y) ==> Track(p, a).y == Track(p, b).y
    decreases |a|
  {
    if a != [] {
      AxesIndependent(p, a[..|a| - 1], b[..|b| - 1]);
    }
  }

  lemma TrackStep(p: Player, passes: seq<Pass>, k: nat)
    requires k < |passes|
    ensures Track(p, passes[..k + 1]) == Step(Track(p, passes[..k]), passes[k])
  {
    assert passes[..k + 1][..k] == passes[..k];
  }

  lemma {:induction false} TrackAppend(p: Player, a: seq<Pass>, b: seq<Pass>)
    ensures Track(p, a + b) == Track(Track(p, a), b)
    decreases |b|
  {
    if b == [] {
      assert a + b == a;
    } else {
      assert (a + b)[..|a + b| - 1] == a + b[..|b| - 1];
      TrackAppend(p, a, b[..|b| - 1]);
    }
  }

  /** n passes with the same readings walk n metres in a straight line. */
  lemma {:induction false} StraightWalk(p: Player, pass: Pass, n: nat)
    ensures var r := Track(p, seq(n, _ => pass));
      r.x == p.x + n * Move(pass.x) && r.y == p.y + n * Move(pass.y)
    decreases n
  {
    if n > 0 {
      var walk := seq(n, _ => pass);
      assert walk[..n - 1] == seq(n - 1, _ => pass);
      StraightWalk(p, pass, n - 1);
    }
  }

  /** Every watermelon the script can draw is reachable: walking east or west, then north or south, ends on it. */
  lemma Reachable(melonX: int, melonY: int)
    requires -Field <= melonX <= Field && -Field <= melonY <= Field
    ensures var east := Pass(if melonX >= 0 then 100.0 else -100.0, 0.0, false, false);
      var north := Pass(0.0, if melonY >= 0 then 100.0 else -100.0, false, false);
      var dx := if melonX >= 0 then melonX else -melonX;
      var dy := if melonY >= 0 then melonY else -melonY;
      var r := Track(Start(), seq(dx, _ => east) + seq(dy, _ => north));
      r.x == melonX && r.y == melonY
  {
    var east := Pass(if melonX >= 0 then 100.0 else -100.0, 0.0, false, false);
    var north := Pass(0.0, if melonY >= 0 then 100.0 else -100.0, false, false);
    var dx := if melonX >= 0 then melonX else -melonX;
    var dy := if melonY >= 0 then melonY else -melonY;
    TrackAppend(Start(), seq(dx, _ => east), seq(dy, _ => north));
    StraightWalk(Start(), east, dx);
    StraightWalk(Track(Start(), seq(dx, _ => east)), north, dy);
  }

  /**
   * The main loop over the passes it is given (the script polls forever; here
   * it also stops when the passes run out). Returns the player, how many passes
   * ran and whether the watermelon was hit.
   */
  method Play(melonX: int, melonY: int, passes: seq<Pass>) returns (p: Player, used: nat, hit: bool)
    ensures used <= |passes| && p == Track(Start(), passes[..used])
    ensures hit ==> 0 < used && Hits(Track(Start(), passes[..used - 1]), passes[used - 1], melonX, melonY)
    ensures hit ==> p.x == melonX && p.y == melonY
    ensures !hit ==> used == |passes|
    ensures forall k :: 0 <= k < used - (if hit then 1 else 0) ==> !Hits(Track(Start(), passes[..k]), passes[k], melonX, melonY)
  {
    var playerX, playerY := 0, 0;
    var smashTips := true;
    used, hit := 0, false;
    while used < |passes|
      invariant used <= |passes|
      invariant Player(playerX, playerY, smashTips) == Track(Start(), passes[..used])
      invariant forall k :: 0 <= k < used ==> !Hits(Track(Start(), passes[..k]), passes[k], melonX, melonY)
    {
      var pass := passes[used];
      TrackStep(Start(), passes, used);
      if pass.pressed {
        smashTips := true;
      }
      playerX := playerX + Move(pass.x);
      playerY := playerY + Move(pass.y);
      if smashTips {
        smashTips := false;
        if pass.replied && (playerX, playerY) == (melonX, melonY) {
          used := used + 1;
          hit := true;
          break;
        }
      }
      used := used + 1;
    }
    p := Player(playerX, playerY, smashTips);
  }
}
