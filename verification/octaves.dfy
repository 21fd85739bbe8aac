/** The quantities a note derives from its frequency: octave, base frequency
    and wavelength. The octave is
        standard octave + sign(f - 440) * floor(|log2(f / 440)|),
    which over exact reals is a count of doublings between the frequency and
    the standard pitch, taken towards the standard pitch (truncation towards
    zero, not flooring). */
module Octaves {
  import opened Powers
  import opened Constants

  /** floor(log2(hi / lo)): how many times lo can be doubled without
      passing hi. */
  function Doublings(lo: real, hi: real): (k: nat)
    requires 0.0 < lo <= hi
    ensures TimesPow2(lo, k) <= hi < TimesPow2(lo, k + 1)
    decreases (hi / lo).Floor
  {
    if 2.0 * lo <= hi then
      RatioHalves(lo, hi);
      var k := Doublings(2.0 * lo, hi);
      TimesPow2Double(lo, k);
      TimesPow2Double(lo, k + 1);
      k + 1
    else
      0
  }

  /** Doubling lo strictly shrinks the whole part of hi / lo. */
  lemma RatioHalves(lo: real, hi: real)
    requires 0.0 < lo && 2.0 * lo <= hi
    ensures 0 <= (hi / (2.0 * lo)).Floor < (hi / lo).Floor
  {
    var x := hi / lo;
    assert hi / (2.0 * lo) == x / 2.0;
    assert x >= 2.0;
  }

  /** Doublings is the largest exponent: lo * 2^j fits under hi exactly when
      j does not exceed it, for every integer j. */
  lemma DoublingsLargest(lo: real, hi: real, j: int)
    requires 0.0 < lo <= hi
    ensures TimesPow2(lo, j) <= hi <==> j <= Doublings(lo, hi)
  {
    var k := Doublings(lo, hi);
    if j <= k {
      TimesPow2Monotone(lo, k, j);
    } else {
      TimesPow2Monotone(lo, j, k + 1);
    }
  }

  /** Any exponent bracketed like Doublings' result is Doublings' result. */
  lemma DoublingsUnique(lo: real, hi: real, k: int)
    requires 0.0 < lo <= hi
    requires TimesPow2(lo, k) <= hi < TimesPow2(lo, k + 1)
    ensures Doublings(lo, hi) == k
  {
    DoublingsLargest(lo, hi, k);
    DoublingsLargest(lo, hi, k + 1);
  }

  /** The frequencies of octave o, relative to the standard pitch: above the
      standard octave a half-open doubling band [440 * 2^d, 440 * 2^(d+1)),
      below it (440 * 2^(d-1), 440 * 2^d], and the standard octave itself
      gets both neighbouring halves, (220, 880). */
  ghost predicate InBand(f: real, o: int) {
    var d := o - StandardOctave;
    if d > 0 then TimesPow2(StandardPitch, d) <= f < TimesPow2(StandardPitch, d + 1)
    else if d == 0 then StandardPitch / 2.0 < f < StandardPitch * 2.0
    else TimesPow2(StandardPitch, d - 1) < f <= TimesPow2(StandardPitch, d)
  }

  /** The octave of a positive frequency. */
  function OctaveOf(f: real): (o: int)
    requires f > 0.0
    ensures InBand(f, o)
  {
    if f >= StandardPitch then
      StandardOctave + Doublings(StandardPitch, f)
    else
      var m := Doublings(f, StandardPitch);
      BelowStandardBand(f, m);
      StandardOctave - m
  }

  /** Below the standard pitch, m doublings of f translate into the band of
      octave 4 - m. */
  lemma BelowStandardBand(f: real, m: nat)
    requires f > 0.0
    requires TimesPow2(f, m) <= StandardPitch < TimesPow2(f, m + 1)
    ensures InBand(f, StandardOctave - m)
  {
    if m > 0 {
      var k: int := m;
      TimesPow2Order(TimesPow2(f, k), StandardPitch, -k);
      TimesPow2Cancel(f, k);
      TimesPow2Order(StandardPitch, TimesPow2(f, k + 1), -(k + 1));
      TimesPow2Cancel(f, k + 1);
    }
  }

  /** InBand pins the octave down: a frequency lies in the band of exactly
      one octave, the one OctaveOf computes. */
  lemma OctaveOfUnique(f: real, o: int)
    requires f > 0.0
    requires InBand(f, o)
    ensures OctaveOf(f) == o
  {
    var d := o - StandardOctave;
    if d > 0 {
      TimesPow2Monotone(StandardPitch, 0, d);
      DoublingsUnique(StandardPitch, f, d);
    } else if d == 0 {
      if f >= StandardPitch {
        DoublingsUnique(StandardPitch, f, 0);
      } else {
        DoublingsUnique(f, StandardPitch, 0);
      }
    } else {
      TimesPow2Monotone(StandardPitch, d, 0);
      TimesPow2Order(f, TimesPow2(StandardPitch, d), -d);
      TimesPow2Cancel(StandardPitch, d);
      TimesPow2Order(TimesPow2(StandardPitch, d - 1), f, -d + 1);
      TimesPow2Cancel(StandardPitch, d - 1);
      DoublingsUnique(f, StandardPitch, -d);
    }
  }

  /** The octave characterised without logarithms: OctaveOf(f) == o exactly
      when f lies in the band of octave o. */
  lemma OctaveCharacterised(f: real, o: int)
    requires f > 0.0
    ensures OctaveOf(f) == o <==> InBand(f, o)
  {
    if InBand(f, o) {
      OctaveOfUnique(f, o);
    }
  }

  /** At or above the standard pitch the octave is 4 + k for the largest k
      with 440 * 2^k <= f. */
  lemma OctaveAboveStandard(f: real, k: int)
    requires f >= StandardPitch
    ensures TimesPow2(StandardPitch, k) <= f <==> k <= OctaveOf(f) - StandardOctave
  {
    DoublingsLargest(StandardPitch, f, k);
  }

  /** Below the standard pitch the octave is 4 - m for the largest m with
      f * 2^m <= 440. */
  lemma OctaveBelowStandard(f: real, m: int)
    requires 0.0 < f < StandardPitch
    ensures TimesPow2(f, m) <= StandardPitch <==> m <= StandardOctave - OctaveOf(f)
  {
    DoublingsLargest(f, StandardPitch, m);
  }

  /** Because the octave count truncates towards zero, the standard octave
      spans the open interval (220, 880): a full doubling on each side of the
      standard pitch. */
  lemma StandardOctaveSpan(f: real)
    requires f > 0.0
    ensures OctaveOf(f) == StandardOctave <==> StandardPitch / 2.0 < f < StandardPitch * 2.0
  {
    OctaveCharacterised(f, StandardOctave);
  }

  /** Doubling a frequency raises its octave by one, except inside
      (220, 440), where both the frequency and its double are in the
      standard octave. */
  lemma OctaveOfDouble(f: real)
    requires f > 0.0
    ensures OctaveOf(2.0 * f) ==
              OctaveOf(f) + (if StandardPitch / 2.0 < f < StandardPitch then 0 else 1)
  {
    var o := OctaveOf(f);
    var d := o - StandardOctave;
    TimesPow2Succ(StandardPitch, d);
    TimesPow2Succ(StandardPitch, d - 1);
    if d > 0 {
      TimesPow2Succ(StandardPitch, d + 1);
      OctaveOfUnique(2.0 * f, o + 1);
    } else if d == 0 {
      if f >= StandardPitch {
        assert TimesPow2(StandardPitch, 2) == 4.0 * StandardPitch;
        OctaveOfUnique(2.0 * f, o + 1);
      } else {
        OctaveOfUnique(2.0 * f, o);
      }
    } else {
      TimesPow2Monotone(StandardPitch, d, 0);
      if d < -1 {
        TimesPow2Monotone(StandardPitch, d + 1, 0);
      }
      OctaveOfUnique(2.0 * f, o + 1);
    }
  }

  /** Above the standard pitch, k octaves up add exactly k to the octave. */
  lemma {:induction false} OctaveOfScaled(f: real, k: nat)
    requires f >= StandardPitch
    ensures OctaveOf(TimesPow2(f, k)) == OctaveOf(f) + k
  {
    if k > 0 {
      OctaveOfScaled(f, k - 1);
      TimesPow2Monotone(f, 0, k - 1);
      TimesPow2Succ(f, k - 1);
      OctaveOfDouble(TimesPow2(f, k - 1));
    }
  }

  /** The base frequency: the frequency scaled down to octave 0. */
  function BaseFrequency(f: real): real
    requires f > 0.0
  {
    TimesPow2(f, -OctaveOf(f))
  }

  /** Scaling the base frequency back up by the octave gives the frequency. */
  lemma BaseFrequencyRestores(f: real)
    requires f > 0.0
    ensures TimesPow2(BaseFrequency(f), OctaveOf(f)) == f
  {
    TimesPow2Add(f, -OctaveOf(f), OctaveOf(f));
  }

  /** When scaling a frequency by 2^k moves its octave by exactly k, the base
      frequency stays the same. */
  lemma BaseFrequencyShift(f: real, k: int)
    requires f > 0.0
    requires OctaveOf(TimesPow2(f, k)) == OctaveOf(f) + k
    ensures BaseFrequency(TimesPow2(f, k)) == BaseFrequency(f)
  {
    TimesPow2Add(f, k, -(OctaveOf(f) + k));
  }

  /** The base frequency lies in (13.75, 55): in [27.5, 55) from the standard
      pitch up and in (13.75, 27.5] below it, so it does not lie within a
      single doubling band. */
  lemma BaseFrequencyBounds(f: real)
    requires f > 0.0
    ensures StandardPitch / 32.0 < BaseFrequency(f) < StandardPitch / 8.0
    ensures f >= StandardPitch ==> StandardPitch / 16.0 <= BaseFrequency(f)
    ensures f < StandardPitch ==> BaseFrequency(f) <= StandardPitch / 16.0
  {
    var o := OctaveOf(f);
    var d := o - StandardOctave;
    assert TimesPow2(StandardPitch, -3) == StandardPitch / 8.0;
    assert TimesPow2(StandardPitch, -4) == StandardPitch / 16.0;
    assert TimesPow2(StandardPitch, -5) == StandardPitch / 32.0;
    if d > 0 {
      TimesPow2Order(TimesPow2(StandardPitch, d), f, -o);
      TimesPow2Add(StandardPitch, d, -o);
      TimesPow2Order(f, TimesPow2(StandardPitch, d + 1), -o);
      TimesPow2Add(StandardPitch, d + 1, -o);
    } else if d == 0 {
      TimesPow2Order(StandardPitch / 2.0, f, -o);
      TimesPow2Order(f, StandardPitch * 2.0, -o);
      TimesPow2Order(f, StandardPitch, -o);
      assert TimesPow2(StandardPitch / 2.0, -4) == StandardPitch / 32.0;
      assert TimesPow2(StandardPitch * 2.0, -4) == StandardPitch / 8.0;
    } else {
      TimesPow2Order(TimesPow2(StandardPitch, d - 1), f, -o);
      TimesPow2Add(StandardPitch, d - 1, -o);
      TimesPow2Order(f, TimesPow2(StandardPitch, d), -o);
      TimesPow2Add(StandardPitch, d, -o);
      TimesPow2Monotone(StandardPitch, d, 0);
    }
  }

  /** The wavelength: speed of sound over frequency. */
  function Wavelength(f: real): (w: real)
    requires f > 0.0
    ensures w > 0.0
    ensures w * f == SpeedOfSound
  {
    SpeedOfSound / f
  }
}
