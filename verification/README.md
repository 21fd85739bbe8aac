# musimath `Note` in Dafny

A model of the `Note` class of musimath (`src/musimath/note/Note.py`) and the
constants it uses (`src/musimath/constants.py`). A `Note` is a pure tone
built from a frequency. At construction it derives three quantities:

- an **octave**, `4 + sign(f - 440) * floor(|log2(f / 440)|)`;
- a **base frequency**, `f * 2^(-octave)`, the frequency moved to octave 0;
- a **wavelength**, `343 / f`.

Notes compare by frequency. `half_step(n)` builds the note `n` equal-tempered
half steps away. `plot` first chooses and validates the x-range it samples.

Frequencies are exact `real`s, so the floating-point identities of the class
become exact theorems. The model has four modules:

- `Constants` holds the four constants.
- `Powers` defines `TimesPow2(x, k)`, which is `x * 2^k` for any integer `k`.
  The class only ever multiplies a frequency by a power of two, and this
  form keeps every proof linear in `x`.
- `Octaves` holds the derived quantities. `log2` is replaced by a search:
  `Doublings(lo, hi)` is the largest `k` with `lo * 2^k <= hi`, which is
  `floor(log2(hi / lo))`. From the standard pitch up, the octave is
  `4 + Doublings(440, f)`. Below it, the octave is `4 - Doublings(f, 440)`.
  `InBand(f, o)` states, without logarithms, which frequencies octave `o`
  gets. `OctaveCharacterised` proves that the computed octave is exactly
  the one whose band holds `f`.
- `Notes` holds the `Note` datatype, its construction `NewNote`, the
  comparison operators, `HalfStep` and `PlotRange`.

The octave formula truncates towards zero instead of flooring. As a result,
the standard octave covers the open interval (220, 880): a whole doubling
on each side of 440 Hz. Every other octave covers a single doubling. So the
base frequency ranges over (13.75, 55), which is two doublings wide. Twelve
half steps up from a note in (220, 440) leave the octave at 4 and double
the base frequency. The model keeps this behaviour as written and proves
it (`StandardOctaveSpan`, `BaseFrequencyBounds`, `HalfStepOctaveNumber`).

The class body defines `__le__` twice. The second definition, documented
as "greater than or equal", replaces the first. So `a <= b` tests
`a.frequency >= b.frequency`. The class has no `__ge__`, so Python answers
`a >= b` with the reflected `b.__le__(a)`, which is
`a.frequency <= b.frequency`. The two operators are therefore swapped. It
is not the case that both test "greater or equal", as a reading that
overlooks the reflected call would suggest. The model follows the code:
`LessEqAsWritten` and `GreaterEqAsWritten` are the operators as they
behave. `LessEq` and `GreaterEq` are the documented ones (see Findings).

## Model

| member | source | states |
|---|---|---|
| Constants.ConstantsPositive | src/musimath/constants.py:6-16 | speed of sound, standard pitch, standard octave and the number of half steps per octave are all positive |
| Octaves.Doublings | src/musimath/note/Note.py:26 | the doubling count k of lo below hi brackets hi: lo * 2^k <= hi < lo * 2^(k+1), i.e. k = floor(log2(hi / lo)) |
| Octaves.DoublingsLargest | src/musimath/note/Note.py:26 | for every integer j, lo * 2^j <= hi holds exactly when j <= the doubling count, so the count is the largest such exponent |
| Octaves.OctaveOf | src/musimath/note/Note.py:26-28 | the octave of a positive frequency lies in that octave's band: [440 * 2^d, 440 * 2^(d+1)) above the standard octave, (440 * 2^(d-1), 440 * 2^d] below it, (220, 880) for octave 4 |
| Octaves.OctaveCharacterised | src/musimath/note/Note.py:26-28 | the computed octave equals o if and only if the frequency lies in the band of o |
| Octaves.OctaveAboveStandard | src/musimath/note/Note.py:26-28 | for f >= 440 the octave is 4 + k, where k is the largest integer with 440 * 2^k <= f |
| Octaves.OctaveBelowStandard | src/musimath/note/Note.py:26-28 | for f < 440 the octave is 4 - m, where m is the largest integer with f * 2^m <= 440 |
| Octaves.StandardOctaveSpan | src/musimath/note/Note.py:26-28 | octave 4 is given to exactly the frequencies in the open interval (220, 880), because the count truncates towards zero |
| Octaves.OctaveOfDouble | src/musimath/note/Note.py:26-28 | doubling a frequency raises its octave by one, except from inside (220, 440), where the octave stays 4 |
| Octaves.OctaveOfScaled | src/musimath/note/Note.py:26-28 | from 440 Hz up, multiplying the frequency by 2^k adds exactly k to the octave |
| Octaves.BaseFrequencyRestores | src/musimath/note/Note.py:29 | base_frequency * 2^octave == frequency exactly |
| Octaves.BaseFrequencyBounds | src/musimath/note/Note.py:29 | the base frequency lies strictly between 13.75 and 55: in [27.5, 55) from 440 Hz up and in (13.75, 27.5] below |
| Octaves.BaseFrequencyShift | src/musimath/note/Note.py:29 | when scaling a frequency by 2^k moves its octave by exactly k, its base frequency is unchanged |
| Octaves.Wavelength | src/musimath/note/Note.py:30 | the wavelength of a positive frequency is positive and wavelength * frequency == 343 |
| Notes.NewNote | src/musimath/note/Note.py:16-30 | construction keeps the frequency and derives fields with octave in its band, base * 2^octave == frequency, base in (13.75, 55), wavelength > 0 with wavelength * frequency == 343 |
| Notes.StandardPitchNote | src/musimath/constants.py:9-13 | 440 Hz is in octave 4 with base frequency 440 / 2^4 = 27.5; 880 Hz is octave 5 and 220 Hz octave 3 |
| Notes.Trichotomy | src/musimath/note/Note.py:78-108 | for any two notes exactly one of `<`, `==`, `>` holds, and `a < b` exactly when `b > a` |
| Notes.EqualIsIdentity | src/musimath/note/Note.py:78-86 | two constructed notes are `==` exactly when they are the same note: comparisons depend on the frequency alone |
| Notes.AsWrittenOrderSwapped | src/musimath/note/Note.py:56-75 | the effective `a <= b` holds exactly when `a > b` or `a == b`, and `a >= b` (the reflected `__le__`) exactly when `a < b` or `a == b` |
| Notes.AsWrittenOrderCounterexample | src/musimath/note/Note.py:67-75 | for 220 Hz and 440 Hz, `<` holds while the effective `<=` is false and `>=` is true |
| Notes.CorrectedOrder | src/musimath/note/Note.py:56-64 | the documented `<=` is `<` or `==`, the documented `>=` is `>` or `==`, and each is the other's converse |
| Notes.HalfStep | src/musimath/note/Note.py:155-163 | transposing by a multiple of 12 half steps gives a constructed note that is higher exactly when the steps are positive, lower exactly when negative, and the same note exactly when zero |
| Notes.HalfStepOctave | src/musimath/note/Note.py:155-163 | 12 half steps double the frequency, -12 halve it, 0 keeps the note |
| Notes.HalfStepCompose | src/musimath/note/Note.py:155-163 | transposing by a then by b is transposing by a + b |
| Notes.HalfStepInverse | src/musimath/note/Note.py:155-163 | transposing by s and then by -s gives the original note back |
| Notes.HalfStepOctaveNumber | src/musimath/note/Note.py:155-163 | 12 half steps raise the octave by one exactly when the frequency is outside (220, 440), keeping the base frequency; inside it the base frequency doubles |
| Notes.HalfStepOctaves | src/musimath/note/Note.py:155-163 | from 440 Hz up, 12 * k half steps raise the octave by exactly k and keep the base frequency |
| Notes.PlotRange | src/musimath/note/Note.py:185-188 | a supplied range is rejected exactly when start >= end and otherwise used as given; an absent range becomes (0, wavelength); every accepted range has start < end |

## Left out

- `__call__` (Note.py:33-43) is a trigonometric float computation, `sin(2π · frequency)`, and is not modelled. Its result does not depend on its argument `t`.
- `__str__` (Note.py:46-53) only formats floats as text.
- The drawing part of `plot` (Note.py:190-204) is not modelled: creating axes, `linspace` sampling with `n_points`, drawing, and axis labels. These are calls into matplotlib and numpy, and their effects are rendering.
- Notes.HalfStep: requires the step count to be a multiple of 12. For other counts the factor 2^(n/12) is irrational and is computed with float `**`.
- Notes.NewNote: requires a positive frequency. The class does not validate its input; zero, negative or NaN frequencies give NaN or errors through `log2`, and that path is not modelled.
- Float detail: IEEE rounding is not modelled, and neither is the octave being a numpy float rather than an integer. Frequencies are exact reals and the octave is an `int`.
- Comparisons with operands that are not notes are not modelled. Neither is the loss of hashing that comes from defining `__eq__`.

## Findings

| source | as written | input that shows it | evidently intended | confidence | as-written member | corrected member |
|---|---|---|---|---|---|---|
| src/musimath/note/Note.py:56-75 | `__le__` is defined twice. The second body, `self.frequency >= other.frequency`, documented as "greater than or equal", replaces the first. `<=` therefore tests `>=`, and `>=` (the reflected `__le__`) tests `<=` | `Note(220) <= Note(440)` is False and `Note(220) >= Note(440)` is True | the second definition named `__ge__`, so that `<=` tests `<=` and `>=` tests `>=` | high (not executed) | Notes.AsWrittenOrderCounterexample | Notes.CorrectedOrder |
