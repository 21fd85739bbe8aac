/** A note: a pure tone at a fixed frequency, with the quantities it derives
    once at construction, its comparison operators, transposition by half
    steps, and the choice of x-range its plot makes. */
module Notes {
  import opened Constants
  import opened Powers
  import opened Octaves

  /** A note and the fields its constructor derives from the frequency
      (hertz; wavelength in metres). */
  datatype Note = Note(frequency: real, octave: int, baseFrequency: real, wavelength: real)

  /** A note as construction leaves it: a positive frequency and derived
      fields that agree with it. */
  predicate Valid(n: Note) {
    && n.frequency > 0.0
    && n.octave == OctaveOf(n.frequency)
    && n.baseFrequency == BaseFrequency(n.frequency)
    && n.wavelength == Wavelength(n.frequency)
  }

  /** Construction from a frequency. */
  function NewNote(f: real): (n: Note)
    requires f > 0.0
    ensures Valid(n) && n.frequency == f
    ensures InBand(f, n.octave)
    ensures TimesPow2(n.baseFrequency, n.octave) == f
    ensures StandardPitch / 32.0 < n.baseFrequency < StandardPitch / 8.0
    ensures n.wavelength > 0.0 && n.wavelength * f == SpeedOfSound
  {
    BaseFrequencyRestores(f);
    BaseFrequencyBounds(f);
    Note(f, OctaveOf(f), BaseFrequency(f), Wavelength(f))
  }

  /** The standard pitch is in the standard octave with base frequency 27.5;
      one octave up and down are octaves 5 and 3. */
  lemma StandardPitchNote()
    ensures NewNote(StandardPitch).octave == StandardOctave
    ensures NewNote(StandardPitch).baseFrequency == 27.5
    ensures NewNote(2.0 * StandardPitch).octave == StandardOctave + 1
    ensures NewNote(StandardPitch / 2.0).octave == StandardOctave - 1
  {
    OctaveCharacterised(StandardPitch, StandardOctave);
    OctaveCharacterised(2.0 * StandardPitch, StandardOctave + 1);
    OctaveCharacterised(StandardPitch / 2.0, StandardOctave - 1);
  }

  // Comparison operators. Each compares frequencies only.

  /** `a < b`. */
  predicate Less(a: Note, b: Note) {
    a.frequency < b.frequency
  }

  /** `a > b`. */
  predicate Greater(a: Note, b: Note) {
    a.frequency > b.frequency
  }

  /** `a == b`. */
  predicate Equal(a: Note, b: Note) {
    a.frequency == b.frequency
  }

  /** `a <= b` as the class defines it: `__le__` is defined twice and the
      second definition, which tests "greater than or equal", replaces the
      first. */
  predicate LessEqAsWritten(a: Note, b: Note) {
    a.frequency >= b.frequency
  }

  /** `a >= b` as the class defines it: there is no `__ge__`, so Python
      falls back to the reflected `b.__le__(a)`. */
  predicate GreaterEqAsWritten(a: Note, b: Note) {
    LessEqAsWritten(b, a)
  }

  /** `a <= b` as its documentation describes it. */
  predicate LessEq(a: Note, b: Note) {
    a.frequency <= b.frequency
  }

  /** `a >= b` as its documentation describes it. */
  predicate GreaterEq(a: Note, b: Note) {
    a.frequency >= b.frequency
  }

  /** Exactly one of `a < b`, `a == b`, `a > b` holds, and `<` and `>` are
      converses. */
  lemma Trichotomy(a: Note, b: Note)
    ensures Less(a, b) || Equal(a, b) || Greater(a, b)
    ensures !(Less(a, b) && Equal(a, b))
    ensures !(Less(a, b) && Greater(a, b))
    ensures !(Equal(a, b) && Greater(a, b))
    ensures Less(a, b) <==> Greater(b, a)
  {
  }

  /** The comparisons see only the frequency: two constructed notes compare
      equal exactly when they are the same note. */
  lemma EqualIsIdentity(a: Note, b: Note)
    requires Valid(a) && Valid(b)
    ensures Equal(a, b) <==> a == b
  {
  }

  /** The as-written `<=` and `>=` are swapped: `a <= b` holds exactly when
      `a > b` or `a == b`, and `a >= b` exactly when `a < b` or `a == b`. */
  lemma AsWrittenOrderSwapped(a: Note, b: Note)
    ensures LessEqAsWritten(a, b) <==> Greater(a, b) || Equal(a, b)
    ensures GreaterEqAsWritten(a, b) <==> Less(a, b) || Equal(a, b)
  {
  }

  /** A concrete pair on which the as-written `<=` disagrees with `<`:
      220 Hz is below 440 Hz, yet `<=` is false and `>=` is true. */
  lemma AsWrittenOrderCounterexample()
    ensures Less(NewNote(220.0), NewNote(440.0))
    ensures !LessEqAsWritten(NewNote(220.0), NewNote(440.0))
    ensures GreaterEqAsWritten(NewNote(220.0), NewNote(440.0))
  {
  }

  /** The corrected `<=` and `>=` are the reflexive closures of `<` and `>`,
      and converses of each other. */
  lemma CorrectedOrder(a: Note, b: Note)
    ensures LessEq(a, b) <==> Less(a, b) || Equal(a, b)
    ensures GreaterEq(a, b) <==> Greater(a, b) || Equal(a, b)
    ensures LessEq(a, b) <==> GreaterEq(b, a)
  {
  }

  /** Transposition by a whole number of octaves' worth of half steps: the
      frequency is scaled by 2^(steps / 12). */
  function HalfStep(n: Note, steps: int): (m: Note)
    requires Valid(n)
    requires steps % NTets == 0
    ensures Valid(m)
    ensures steps > 0 <==> Greater(m, n)
    ensures steps < 0 <==> Less(m, n)
    ensures steps == 0 <==> m == n
  {
    var octaves := steps / NTets;
    assert steps == NTets * octaves;
    TimesPow2Monotone(n.frequency, 0, octaves);
    TimesPow2Monotone(n.frequency, octaves, 0);
    NewNote(TimesPow2(n.frequency, octaves))
  }

  /** Twelve half steps double the frequency, minus twelve halve it, and
      zero keeps the note. */
  lemma HalfStepOctave(n: Note)
    requires Valid(n)
    ensures HalfStep(n, NTets).frequency == 2.0 * n.frequency
    ensures HalfStep(n, -NTets).frequency == n.frequency / 2.0
    ensures HalfStep(n, 0) == n
  {
  }

  /** Transpositions compose by adding their steps. */
  lemma HalfStepCompose(n: Note, a: int, b: int)
    requires Valid(n)
    requires a % NTets == 0 && b % NTets == 0
    ensures (a + b) % NTets == 0
    ensures HalfStep(HalfStep(n, a), b) == HalfStep(n, a + b)
  {
    assert a == NTets * (a / NTets);
    assert b == NTets * (b / NTets);
    assert (a + b) / NTets == a / NTets + b / NTets;
    TimesPow2Add(n.frequency, a / NTets, b / NTets);
  }

  /** Transposing down by as many steps as up gives the note back. */
  lemma HalfStepInverse(n: Note, steps: int)
    requires Valid(n)
    requires steps % NTets == 0
    ensures (-steps) % NTets == 0
    ensures HalfStep(HalfStep(n, steps), -steps) == n
  {
    assert steps == NTets * (steps / NTets);
    assert -steps == NTets * -(steps / NTets);
    HalfStepCompose(n, steps, -steps);
  }

  /** Twelve half steps up raise the octave by one and keep the base
      frequency, except from inside (220, 440), where the octave stays 4
      and the base frequency doubles. */
  lemma HalfStepOctaveNumber(n: Note)
    requires Valid(n)
    ensures (HalfStep(n, NTets).octave == n.octave + 1) <==>
            !(StandardPitch / 2.0 < n.frequency < StandardPitch)
    ensures HalfStep(n, NTets).octave == n.octave + 1 ==>
            HalfStep(n, NTets).baseFrequency == n.baseFrequency
    ensures StandardPitch / 2.0 < n.frequency < StandardPitch ==>
            HalfStep(n, NTets).baseFrequency == 2.0 * n.baseFrequency
  {
    var f := n.frequency;
    OctaveOfDouble(f);
    assert TimesPow2(f, 1) == 2.0 * f;
    if HalfStep(n, NTets).octave == n.octave + 1 {
      BaseFrequencyShift(f, 1);
    } else {
      TimesPow2Double(f, -OctaveOf(f));
    }
  }

  /** From the standard pitch up, 12 * k half steps raise the octave by
      exactly k and keep the base frequency. */
  lemma HalfStepOctaves(n: Note, k: nat)
    requires Valid(n) && n.frequency >= StandardPitch
    ensures HalfStep(n, NTets * k).octave == n.octave + k
    ensures HalfStep(n, NTets * k).baseFrequency == n.baseFrequency
  {
    assert (NTets * k) / NTets == k;
    OctaveOfScaled(n.frequency, k);
    BaseFrequencyShift(n.frequency, k);
  }

  // The x-range selection and validation at the top of plot.

  datatype Option<T> = None | Some(value: T)

  /** A closed interval of positions to sample. */
  datatype Interval = Interval(start: real, end: real)

  /** The range plot goes on to sample, or the assertion failure it raises
      for an empty or reversed interval. */
  datatype RangeResult = Sampled(range: Interval) | InvalidInterval(start: real, end: real)

  /** A supplied range must have start < end and is used as given; an
      absent one defaults to one wavelength from 0. Every range plot
      accepts is non-empty. */
  function PlotRange(n: Note, xRange: Option<Interval>): (r: RangeResult)
    requires Valid(n)
    ensures r.Sampled? ==> r.range.start < r.range.end
    ensures r.InvalidInterval? <==> xRange.Some? && xRange.value.start >= xRange.value.end
    ensures xRange.Some? && r.Sampled? ==> r.range == xRange.value
    ensures xRange.None? ==> r == Sampled(Interval(0.0, n.wavelength))
  {
    match xRange
    case Some(given) =>
      if given.start < given.end then Sampled(given)
      else InvalidInterval(given.start, given.end)
    case None => Sampled(Interval(0.0, n.wavelength))
  }
}
