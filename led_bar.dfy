/** The ten-LED bar graph: the first n LEDs lit, the rest dark. */
module LedBar {

  /** The bar has ten LEDs. */
  const Leds: nat := 10

  /** The bar showing n: LED i is lit iff i < n. */
  function Lit(n: int): (bar: seq<bool>)
    ensures |bar| == Leds
  {
    seq(Leds, i requires 0 <= i < Leds => i < n)
  }

  /** How many LEDs of a bar are lit. */
  function CountLit(bar: seq<bool>): nat
    decreases |bar|
  {
    if bar == [] then 0 else CountLit(bar[..|bar| - 1]) + if bar[|bar| - 1] then 1 else 0
  }

  /** n clamped to 0..k. */
  function Clamp(n: int, k: nat): (c: nat)
    ensures c <= k
  {
    if n <= 0 then 0 else if n >= k then k else n
  }

  lemma {:induction false} CountPrefix(n: int, k: nat)
    ensures CountLit(seq(k, i requires 0 <= i < k => i < n)) == Clamp(n, k)
    decreases k
  {
    if k > 0 {
      var bar := seq(k, i requires 0 <= i < k => i < n);
      assert bar[..k - 1] == seq(k - 1, i requires 0 <= i < k - 1 => i < n);
      CountPrefix(n, k - 1);
    }
  }

  /** The bar showing n has n LEDs lit, clamped to 0..10: a negative n shows nothing and anything above 10 a full bar. */
  lemma LitCount(n: int)
    ensures CountLit(Lit(n)) == Clamp(n, Leds)
  {
    CountPrefix(n, Leds);
  }

  /** A bar shows exactly one value in 0..10: different values in range give different bars. */
  lemma LitInjective(m: int, n: int)
    requires 0 <= m <= Leds && 0 <= n <= Leds && Lit(m) == Lit(n)
    ensures m == n
  {
    LitCount(m);
    LitCount(n);
  }
}

/** The battery indicator: the voltage level, 0..10, shown on the bar graph. */
module BatteryIndicator {
  import opened LedBar

  /**
   * `LedBarGraph(value)`: every LED off, then the first `value` on. A value
   * above 10 raises `IndexError` once all ten are on; a negative one lights
   * nothing. The bar depends on the value alone, so showing the same value
   * twice leaves the same bar.
   */
  method LedBarGraph(leds: array<bool>, value: int) returns (indexError: bool)
    requires leds.Length == Leds
    modifies leds
    ensures indexError <==> value > Leds
    ensures leds[..] == Lit(value)
  {
    for i := 0 to Leds
      invariant forall j :: 0 <= j < i ==> !leds[j]
    {
      leds[i] := false;
    }
    indexError := false;
    var i := 0;
    while i < value
      invariant 0 <= i <= Leds && (i <= value || i == 0)
      invariant forall j :: 0 <= j < Leds ==> leds[j] == (j < i)
    {
      if i >= leds.Length {
        indexError := true;
        break;
      }
      leds[i] := true;
      i := i + 1;
    }
    assert leds[..] == Lit(value);
  }

  /** The cleanup on interrupt: all ten LEDs end off. */
  method AllOff(leds: array<bool>)
    requires leds.Length == Leds
    modifies leds
    ensures leds[..] == Lit(0) && CountLit(leds[..]) == 0
  {
    for i := 0 to Leds
      invariant forall j :: 0 <= j < i ==> !leds[j]
    {
      leds[i] := false;
    }
    assert leds[..] == Lit(0);
    LitCount(0);
  }
}
