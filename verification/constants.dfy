/** The physical and musical constants the note computations rely on. */
module Constants {

  /** Speed of sound in air, in metres per second. */
  const SpeedOfSound: real := 343.0

  /** Frequency of the A note of the fourth octave, in hertz. */
  const StandardPitch: real := 440.0

  /** The octave the standard pitch belongs to. */
  const StandardOctave: int := 4

  /** Number of equal-tempered divisions (half steps) in one octave. */
  const NTets: int := 12

  /** Every constant is positive: wavelengths come out positive and the
      octave of a positive frequency is well defined. */
  lemma ConstantsPositive()
    ensures SpeedOfSound > 0.0 && StandardPitch > 0.0
    ensures StandardOctave > 0 && NTets > 0
  {
  }
}
