/** The circuit breaker: five levels, a cooldown and saturating counters, packed into one
    32-bit word. */
module Breaker {
  import opened Bits

  datatype Level = Normal | BrokenL1 | BrokenL2 | Safe | Recovering

  datatype State = State(level: Level, cooldown: nat, direct: nat, rtc: nat, high: nat, low: nat, healthy: nat,
                         probe: bool)

  const COUNTER_MAX: nat := 3
  const COOLDOWN_MAX: nat := 0xffff
  const DIRECT_TIMEOUT_THRESHOLD: nat := 3
  const RTC_TIMEOUT_THRESHOLD: nat := 3
  const WATERMARK_VIOLATION_PCT: nat := 80
  const LOW_WATERMARK_PCT: nat := 50
  const HIGH_WATERMARK_PERSIST: nat := 3
  const LOW_WATERMARK_PERSIST: nat := 3
  const HEALTHY_WINDOWS_REQUIRED: nat := 3

  // ---------------------------------------------------------------- packing

  function Code(level: Level): (n: nat)
    ensures n < 5
  {
    match level
    case Normal => 0
    case BrokenL1 => 1
    case BrokenL2 => 2
    case Safe => 3
    case Recovering => 4
  }

  function LevelOf(n: nat): Level
    requires n < 5
  {
    if n == 0 then Normal else if n == 1 then BrokenL1 else if n == 2 then BrokenL2 else if n == 3 then Safe
    else Recovering
  }

  /** A field shifted into place, as a 32-bit value. */
  function Placed(x: nat, shift: nat): nat { Shl(x, shift) % WORD }

  function Bit(b: bool): nat { if b then 1 else 0 }

  function Pack(s: State): nat {
    var a := Or(Code(s.level), Placed(s.cooldown, 3));
    var b := Or(a, Placed(s.direct, 19));
    var c := Or(b, Placed(s.rtc, 21));
    var d := Or(c, Placed(s.high, 23));
    var e := Or(d, Placed(s.low, 25));
    var f := Or(e, Placed(s.healthy, 27));
    Or(f, Placed(Bit(s.probe), 29))
  }

  /** A word whose level field is one of the five levels. */
  predicate Unpackable(w: nat) { w % 8 < 5 }

  function Unpack(w: nat): (s: State)
    requires Unpackable(w)
    ensures InRange(s)
  {
    State(LevelOf(w % 8), w / 0x8 % 0x1_0000, w / 0x8_0000 % 4, w / 0x20_0000 % 4, w / 0x80_0000 % 4,
          w / 0x200_0000 % 4, w / 0x800_0000 % 4, w / 0x2000_0000 % 2 != 0)
  }

  /** Every field fits the bits it has in the word. */
  predicate InRange(s: State) {
    && s.cooldown <= COOLDOWN_MAX && s.direct <= COUNTER_MAX && s.rtc <= COUNTER_MAX && s.high <= COUNTER_MAX
    && s.low <= COUNTER_MAX && s.healthy <= COUNTER_MAX
  }

  /** The word of a state in range, as a number in mixed radix. */
  function Weighted(s: State): nat {
    Code(s.level) + 0x8 * s.cooldown + 0x8_0000 * s.direct + 0x20_0000 * s.rtc + 0x80_0000 * s.high
    + 0x200_0000 * s.low + 0x800_0000 * s.healthy + 0x2000_0000 * Bit(s.probe)
  }

  /** The weight of the field at a shift. */
  function Weight(k: nat): nat {
    match k
    case 3 => 0x8
    case 19 => 0x8_0000
    case 21 => 0x20_0000
    case 23 => 0x80_0000
    case 25 => 0x200_0000
    case 27 => 0x800_0000
    case 29 => 0x2000_0000
    case _ => 0
  }

  lemma WeightIsPower(k: nat)
    requires Weight(k) > 0
    ensures Weight(k) == Pow2(k)
  {
    Weights();
  }

  lemma PlacedAdds(a: nat, x: nat, k: nat)
    requires a < Pow2(k) && Shl(x, k) < WORD
    ensures Or(a, Placed(x, k)) == a + Shl(x, k)
  {
    assert Placed(x, k) == Shl(x, k);
    OrAdds(a, x, k);
  }

  /** A field placed above `a` adds its weight. */
  lemma Join(a: nat, x: nat, k: nat, weight: nat)
    requires a < weight == Weight(k) && weight * x < WORD
    ensures Or(a, Placed(x, k)) == a + weight * x
  {
    WeightIsPower(k);
    ShlIsTimes(x, k);
    PlacedAdds(a, x, k);
  }

  /** For a state in range the fields do not overlap, and packing is addition. */
  lemma PackIsWeighted(s: State)
    requires InRange(s)
    ensures Pack(s) == Weighted(s)
  {
    var a := Code(s.level);
    var b := a + 0x8 * s.cooldown;
    var c := b + 0x8_0000 * s.direct;
    var d := c + 0x20_0000 * s.rtc;
    var e := d + 0x80_0000 * s.high;
    var f := e + 0x200_0000 * s.low;
    var g := f + 0x800_0000 * s.healthy;
    assert Or(a, Placed(s.cooldown, 3)) == b by { Join(a, s.cooldown, 3, 0x8); }
    assert Or(b, Placed(s.direct, 19)) == c by { Join(b, s.direct, 19, 0x8_0000); }
    assert Or(c, Placed(s.rtc, 21)) == d by { Join(c, s.rtc, 21, 0x20_0000); }
    assert Or(d, Placed(s.high, 23)) == e by { Join(d, s.high, 23, 0x80_0000); }
    assert Or(e, Placed(s.low, 25)) == f by { Join(e, s.low, 25, 0x200_0000); }
    assert Or(f, Placed(s.healthy, 27)) == g by { Join(f, s.healthy, 27, 0x800_0000); }
    Join(g, Bit(s.probe), 29, 0x2000_0000);
  }

  lemma LowFields(w: nat, level: nat, cooldown: nat, rest: nat)
    requires level < 8 && cooldown <= COOLDOWN_MAX && w == level + 8 * (cooldown + 0x1_0000 * rest)
    ensures w % 8 == level && w / 8 % 0x1_0000 == cooldown && w / 0x8_0000 == rest
  {
  }

  lemma Digit(w: nat, x: nat, rest: nat)
    requires x < 4 && w == x + 4 * rest
    ensures w % 4 == x && w / 4 == rest
  {
  }

  lemma Deeper(w: nat)
    ensures w / 0x20_0000 == w / 0x8_0000 / 4 && w / 0x80_0000 == w / 0x20_0000 / 4
    ensures w / 0x200_0000 == w / 0x80_0000 / 4 && w / 0x800_0000 == w / 0x200_0000 / 4
    ensures w / 0x2000_0000 == w / 0x800_0000 / 4
  {
  }

  lemma WeightedRoundTrip(s: State)
    requires InRange(s)
    ensures Unpackable(Weighted(s)) && Unpack(Weighted(s)) == s
  {
    var w := Weighted(s);
    var p := Bit(s.probe);
    var f := s.healthy + 4 * p;
    var e := s.low + 4 * f;
    var d := s.high + 4 * e;
    var c := s.rtc + 4 * d;
    var b := s.direct + 4 * c;
    LowFields(w, Code(s.level), s.cooldown, b);
    Deeper(w);
    Digit(b, s.direct, c);
    Digit(c, s.rtc, d);
    Digit(d, s.high, e);
    Digit(e, s.low, f);
    Digit(f, s.healthy, p);
  }

  /** Unpacking gives the packed state back exactly when every field fits its bits. */
  lemma PackRoundTrip(s: State)
    requires Unpackable(Pack(s))
    ensures Unpack(Pack(s)) == s <==> InRange(s)
  {
    if InRange(s) {
      PackIsUnpackable(s);
    }
  }

  lemma PackIsUnpackable(s: State)
    requires InRange(s)
    ensures Unpackable(Pack(s)) && Unpack(Pack(s)) == s
  {
    PackIsWeighted(s);
    WeightedRoundTrip(s);
  }

  // ---------------------------------------------------------------- transitions

  /** The inputs. A watermark violation is the sample 81, and the watchdog acts like an exhausted reserve. */
  datatype Event =
    | DirectTimeout
    | RtcTimeout
    | Watermark(percent: nat)
    | Overflow
    | KeyReserveExhausted
    | DispatchCycle
    | ProbeSuccess
    | ProbeFailure
    | ExternalSafeRestore
    | RtcOk

  function Increment(n: nat): nat { if n < COUNTER_MAX then n + 1 else n }

  /** Enter a broken or safe level: the cooldown starts over and the metrics are cleared. */
  function Enter(level: Level, cooldown: nat): State { State(level, cooldown, 0, 0, 0, 0, 0, false) }

  /** Recovery clears the metrics and leaves the cooldown as it is. */
  function EnterRecovering(s: State): State { State(Recovering, s.cooldown, 0, 0, 0, 0, 0, false) }

  function Sampled(s: State, percent: nat): State {
    if percent > WATERMARK_VIOLATION_PCT then s.(high := Increment(s.high), low := 0)
    else if percent < LOW_WATERMARK_PCT then s.(low := Increment(s.low), high := 0)
    else s.(high := 0, low := 0)
  }

  function OnDirectTimeout(c: nat, s0: State): State {
    var s := s0.(direct := Increment(s0.direct));
    if s.level == Normal && s.direct >= DIRECT_TIMEOUT_THRESHOLD then Enter(BrokenL1, c)
    else if s.level == Recovering then Enter(BrokenL2, c)
    else s
  }

  function OnRtcTimeout(c: nat, s0: State): State {
    var s := s0.(rtc := Increment(s0.rtc));
    if (s.level == Normal || s.level == BrokenL1) && s.rtc >= RTC_TIMEOUT_THRESHOLD then Enter(BrokenL2, c)
    else if s.level == Recovering then Enter(BrokenL2, c)
    else s
  }

  function OnWatermark(c: nat, s0: State, percent: nat): State {
    var s := Sampled(s0, percent);
    match s.level
    case Normal => if s.high >= HIGH_WATERMARK_PERSIST then Enter(BrokenL2, c) else s
    case BrokenL1 =>
      if s.high >= HIGH_WATERMARK_PERSIST then Enter(BrokenL2, c)
      else if s.cooldown == 0 && s.low >= LOW_WATERMARK_PERSIST then EnterRecovering(s)
      else s
    case BrokenL2 => if s.cooldown == 0 && s.low >= LOW_WATERMARK_PERSIST then EnterRecovering(s) else s
    case Safe => s
    case Recovering => if percent >= LOW_WATERMARK_PCT then Enter(BrokenL2, c) else s
  }

  function OnDispatchCycle(s0: State): State {
    var s := if s0.cooldown > 0 then s0.(cooldown := s0.cooldown - 1) else s0;
    if s.level == Recovering && s.cooldown == 0 && s.probe then
      if Increment(s.healthy) >= HEALTHY_WINDOWS_REQUIRED then s.(level := Normal, healthy := 0, probe := false)
      else s.(healthy := Increment(s.healthy), probe := false)
    else s
  }

  /** The pure five-state machine, for a breaker of `c` cooldown cycles. */
  function Next(c: nat, s: State, e: Event): State {
    match e
    case DirectTimeout => OnDirectTimeout(c, s)
    case RtcTimeout => OnRtcTimeout(c, s)
    case Watermark(percent) => OnWatermark(c, s, percent)
    case Overflow => if s.level == BrokenL2 || s.level == Safe then s else Enter(BrokenL2, c)
    case KeyReserveExhausted => if s.level == Safe then s else Enter(Safe, c)
    case DispatchCycle => OnDispatchCycle(s)
    case ProbeSuccess => if s.level == Recovering then s.(probe := true) else s
    case ProbeFailure => if s.level == Recovering then Enter(BrokenL2, c) else s
    case ExternalSafeRestore => if s.level == Safe then EnterRecovering(s) else s
    case RtcOk => s.(direct := 0, rtc := 0)
  }

  const INITIAL := State(Normal, 0, 0, 0, 0, 0, 0, false)

  function Run(c: nat, s: State, events: seq<Event>): State
    decreases |events|
  {
    if events == [] then s else Run(c, Next(c, s, events[0]), events[1..])
  }

  /** No transition leaves the bits of the packed word. */
  lemma NextInRange(c: nat, s: State, e: Event)
    requires InRange(s) && c <= COOLDOWN_MAX
    ensures InRange(Next(c, s, e))
  {
  }

  /** The count of healthy windows never reaches the number required: the window that would is the last. */
  lemma NextHealthy(c: nat, s: State, e: Event)
    requires s.healthy < HEALTHY_WINDOWS_REQUIRED
    ensures Next(c, s, e).healthy < HEALTHY_WINDOWS_REQUIRED
  {
  }

  // ---------------------------------------------------------------- the object

  class Breaker {
    const cooldownCycles: nat
    var word: nat

    ghost predicate Valid()
      reads this
    {
      && cooldownCycles <= COOLDOWN_MAX && Unpackable(word) && Pack(Unpack(word)) == word
      && Unpack(word).healthy < HEALTHY_WINDOWS_REQUIRED
    }

    ghost function View(): State
      reads this
      requires Valid()
    {
      Unpack(word)
    }

    constructor (cooldown: nat)
      requires cooldown <= COOLDOWN_MAX
      ensures Valid() && View() == INITIAL && cooldownCycles == cooldown
    {
      PackIsUnpackable(INITIAL);
      cooldownCycles := cooldown;
      word := Pack(INITIAL);
    }

    /** An event: load, transition, store unless nothing changed. */
    method Update(e: Event)
      requires Valid()
      modifies this
      ensures Valid() && View() == Next(cooldownCycles, old(View()), e)
    {
      var observed := word;
      var next := Next(cooldownCycles, Unpack(observed), e);
      NextInRange(cooldownCycles, Unpack(observed), e);
      NextHealthy(cooldownCycles, Unpack(observed), e);
      PackIsUnpackable(next);
      var desired := Pack(next);
      if desired != observed {
        word := desired;
      }
    }

    /** The recovery branch is never taken: the third healthy window ends the recovery. */
    method HealthyWindowPassed() returns (passed: bool)
      requires Valid()
      ensures passed <==> View().level == Normal
    {
      var s := Unpack(word);
      if s.level == Normal {
        return true;
      }
      if s.level == Recovering {
        return s.healthy >= HEALTHY_WINDOWS_REQUIRED;
      }
      return false;
    }
  }
}
