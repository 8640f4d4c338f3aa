/** soundplayer.cpp, VskLFOCtrl: the integer skeleton of the software LFO.
    A quarter of the LFO period is `qperiod` increments; `count` counts
    increments within the quarter and `phase` (0..3) names the quarter.
    The floating-point adjustments it derives for pitch and volume are not
    modelled. */
module Lfo {
  import opened Notes

  const LFO_INTERVAL: int := 150

  /** C++ `/` on int: the quotient truncated toward zero. */
  function TruncDiv(a: int, b: int): (q: int)
    requires b != 0
    ensures a >= 0 && b > 0 ==> q == a / b
    ensures a >= 0 && b < 0 ==> q == -(a / -b)
  {
    if a >= 0 && b > 0 then a / b
    else if a >= 0 then -(a / -b)
    else if b > 0 then -((-a) / b)
    else (-a) / (-b)
  }

  /** The quarter period init_for_timbre computes from the timbre's speed:
      900 * LFO_INTERVAL / (4 * speed), or 0 for speed 0. It is positive
      exactly for speeds 1..33750; a larger speed gives 0 and, like speed
      0, stops the LFO, and a negative speed gives a period of at most 0. */
  function QuarterPeriod(speed: int): (q: int)
    ensures speed == 0 ==> q == 0
    ensures q > 0 <==> 0 < speed <= 33750
    ensures speed > 0 ==> q == 135000 / (4 * speed)
    ensures speed < 0 ==> q <= 0
  {
    if speed != 0 then QuarterPeriodRange(speed); TruncDiv(900 * LFO_INTERVAL, 4 * speed) else 0
  }

  lemma QuarterPeriodRange(speed: int)
    requires speed != 0
    ensures var q := TruncDiv(135000, 4 * speed); q > 0 <==> 0 < speed <= 33750
    ensures speed < 0 ==> TruncDiv(135000, 4 * speed) <= 0
  {
    if speed > 0 {
      var d := 4 * speed;
      if d > 135000 {
        DivUnique(135000, d, 0, 135000);
      } else {
        var q := 135000 / d;
        assert 135000 == q * d + 135000 % d;
        if q <= 0 {
          MulMono(q, 0, d);
        }
      }
    } else {
      var d := -4 * speed;
      var q := 135000 / d;
      assert 135000 == q * d + 135000 % d;
      if q < 0 {
        MulMono(q, -1, d);
      }
    }
  }

  /** The integer state of the LFO. */
  datatype LfoState = LfoState(waveform: int, qperiod: int, count: int, phase: int)

  /** The ranges the state keeps once initialised: a phase 0..3, a count
      below the quarter period, and no count at all when the period is not
      positive. */
  predicate InRange(s: LfoState)
  {
    0 <= s.phase < 4 && 0 <= s.count && (s.qperiod > 0 ==> s.count < s.qperiod) && (s.qperiod <= 0 ==> s.count == 0)
  }

  /** init_for_timbre: waveform and quarter period from the timbre, phase
      0, and init_for_phase(true) resets the count. */
  function ForTimbre(t: Timbre): (s: LfoState)
    ensures InRange(s) && s.phase == 0 && s.count == 0
    ensures s.waveform == t.waveForm && s.qperiod == QuarterPeriod(t.speed)
  {
    LfoState(t.waveForm, QuarterPeriod(t.speed), 0, 0)
  }

  /** init_for_keyon: a synchronised LFO restarts at phase 0, count 0; an
      unsynchronised one runs on. */
  function ForKeyOn(s: LfoState, sync: bool): (r: LfoState)
    ensures InRange(s) ==> InRange(r)
    ensures r.waveform == s.waveform && r.qperiod == s.qperiod
    ensures sync ==> r.phase == 0 && r.count == 0
    ensures !sync ==> r == s
  {
    if sync then s.(phase := 0, count := 0) else s
  }

  /** increment: nothing for a zero period; otherwise one more count, and
      at the end of the quarter the next phase with the count reset. */
  function Tick(s: LfoState): (r: LfoState)
    ensures InRange(s) ==> InRange(r)
    ensures r.waveform == s.waveform && r.qperiod == s.qperiod
    ensures s.qperiod == 0 ==> r == s
    ensures s.qperiod != 0 && InRange(s) ==>
              (r.phase == s.phase) == (s.count + 1 < s.qperiod)
              && (r.phase != s.phase ==> r.count == 0 && r.phase == (s.phase + 1) % 4)
  {
    if s.qperiod == 0 then s
    else if s.count + 1 < s.qperiod then s.(count := s.count + 1)
    else s.(phase := (s.phase + 1) % 4, count := 0)
  }

  /** n increments. */
  function Ticks(s: LfoState, n: nat): (r: LfoState)
    ensures r.waveform == s.waveform && r.qperiod == s.qperiod
    ensures InRange(s) ==> InRange(r)
    decreases n
  {
    if n == 0 then s else Ticks(Tick(s), n - 1)
  }

  /** After n increments from an in-range state with a positive period
      the count is (count + n) mod qperiod and the phase has advanced by
      the number of completed quarters, mod 4. */
  lemma {:induction false} TicksClosedForm(s: LfoState, n: nat)
    requires InRange(s) && s.qperiod > 0
    ensures Ticks(s, n) == s.(count := (s.count + n) % s.qperiod, phase := (s.phase + (s.count + n) / s.qperiod) % 4)
    decreases n
  {
    var q := s.qperiod;
    if n == 0 {
      DivUnique(s.count, q, 0, s.count);
    } else if s.count + 1 < q {
      TicksClosedForm(s.(count := s.count + 1), n - 1);
    } else {
      TicksClosedForm(s.(phase := (s.phase + 1) % 4, count := 0), n - 1);
      WrapArith(s.phase, q, n);
    }
  }

  /** The arithmetic of the step that ends a quarter. */
  lemma WrapArith(p: int, q: int, n: nat)
    requires q > 0 && n >= 1
    ensures (q - 1 + n) % q == (0 + (n - 1)) % q
    ensures (p + (q - 1 + n) / q) % 4 == ((p + 1) % 4 + (0 + (n - 1)) / q) % 4
  {
    DivShift(q, n - 1);
    assert q - 1 + n == q + (n - 1);
  }

  /** Adding one divisor to a non-negative number adds one to its quotient
      and keeps its remainder. */
  lemma DivShift(q: int, m: int)
    requires q > 0 && m >= 0
    ensures (q + m) / q == 1 + m / q && (q + m) % q == m % q
  {
    var a, b := m / q, m % q;
    assert m == a * q + b && 0 <= b < q;
    assert q + m == (a + 1) * q + b;
    DivUnique(q + m, q, a + 1, b);
  }

  /** The quotient and remainder are the only such pair. */
  lemma DivUnique(x: int, q: int, a: int, b: int)
    requires q > 0 && x == a * q + b && 0 <= b < q
    ensures x / q == a && x % q == b
  {
    var a', b' := x / q, x % q;
    assert x == a' * q + b' && 0 <= b' < q;
    assert (a' + 1) * q == a' * q + q && (a + 1) * q == a * q + q;
    if a' < a {
      MulMono(a' + 1, a, q);
    } else if a < a' {
      MulMono(a + 1, a', q);
    }
  }

  lemma MulMono(i: int, j: int, q: int)
    requires i <= j && q >= 0
    ensures i * q <= j * q
  {
    assert j * q - i * q == (j - i) * q;
  }

  /** The whole LFO period is four quarters: 4 * qperiod increments bring
      an in-range state back to itself. */
  lemma LfoPeriod(s: LfoState)
    requires InRange(s) && s.qperiod > 0
    ensures Ticks(s, 4 * s.qperiod) == s
  {
    var n := 4 * s.qperiod;
    assert (s.count + n) % s.qperiod == s.count && (s.phase + (s.count + n) / s.qperiod) % 4 == s.phase by {
      FourQuarters(s.count, s.qperiod, s.phase, n);
    }
    TicksClosedForm(s, n);
  }

  /** n = four quarters on from `count`: the count comes back and the phase
      goes round once. */
  lemma FourQuarters(count: int, q: int, phase: int, n: int)
    requires 0 <= count < q && 0 <= phase < 4 && n == 4 * q
    ensures (count + n) % q == count && (phase + (count + n) / q) % 4 == phase
  {
    DivUnique(count + n, q, 4, count);
  }

  /** VskLFOCtrl. Its constructor leaves the integer fields without a
      defined value; `s0` stands for whatever they hold until
      init_for_timbre. */
  class LfoCtrl {
    var waveform: int
    var qperiod: int
    var count: int
    var phase: int

    function State(): LfoState
      reads this
    {
      LfoState(waveform, qperiod, count, phase)
    }

    ghost predicate Valid()
      reads this
    {
      InRange(State())
    }

    constructor (s0: LfoState)
      ensures State() == s0
    {
      waveform, qperiod, count, phase := s0.waveform, s0.qperiod, s0.count, s0.phase;
    }

    method InitForTimbre(t: Timbre)
      modifies this
      ensures Valid() && State() == ForTimbre(t)
    {
      waveform := t.waveForm;
      if t.speed != 0 {
        qperiod := TruncDiv(900 * LFO_INTERVAL, 4 * t.speed);
      } else {
        qperiod := 0;
      }
      phase := 0;
      count := 0;
    }

    method InitForKeyOn(t: Timbre)
      modifies this
      ensures old(Valid()) ==> Valid()
      ensures State() == ForKeyOn(old(State()), t.sync)
    {
      if t.sync {
        phase := 0;
        count := 0;
      }
    }

    method Increment()
      modifies this
      ensures old(Valid()) ==> Valid()
      ensures State() == Tick(old(State()))
    {
      if qperiod == 0 {
        return;
      }
      count := count + 1;
      if !(count < qperiod) {
        phase := (phase + 1) % 4;
        count := 0;
      }
    }
  }
}
