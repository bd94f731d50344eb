/**
 * The frequency-to-note mapping of the tuner: a frequency is placed on the
 * equal-tempered scale relative to A4 = 440 Hz, rounded to the nearest
 * semitone, and reported as a pitch-class name, an octave number and the
 * deviation from that semitone in cents.
 *
 * The logarithm is the platform's `log2`; it is a parameter here, so every
 * fact below holds for whatever values the library returns.
 */
module NoteMapping {

  /** Reference pitch A4, in hertz. */
  const A4Freq: real := 440.0

  /** The twelve pitch classes, starting at C. */
  const Notes: seq<string> := ["C", "C#", "D", "D#", "E", "F", "F#", "G", "G#", "A", "A#", "B"]

  /** What the tuner reports for one frequency: note name, octave and cents. */
  datatype NoteReading = NoteReading(name: string, octave: int, cents: real)

  /** The fixed reading for a frequency that is not positive. */
  const NoPitch: NoteReading := NoteReading("--", 0, 0.0)

  /**
   * Rounding to the nearest integer, ties to the even neighbour, as Python's
   * built-in `round` does for a float.
   */
  function Round(x: real): (n: int)
    ensures -0.5 <= x - n as real <= 0.5
    ensures (x - n as real == 0.5 || x - n as real == -0.5) ==> n % 2 == 0
  {
    var f := x.Floor;
    var d := x - f as real;
    if d < 0.5 then f
    else if d > 0.5 then f + 1
    else if f % 2 == 0 then f
    else f + 1
  }

  /** Round(x) is the only integer within one half of x that breaks ties to even. */
  lemma RoundUnique(x: real, n: int)
    requires -0.5 <= x - n as real <= 0.5
    requires (x - n as real == 0.5 || x - n as real == -0.5) ==> n % 2 == 0
    ensures Round(x) == n
  {
    var m := Round(x);
    assert -1.0 <= (n - m) as real <= 1.0;
  }

  /** A value strictly closer than one half to an integer rounds to it. */
  lemma RoundNearest(x: real, n: int)
    requires -0.5 < x - n as real < 0.5
    ensures Round(x) == n
  {
    RoundUnique(x, n);
  }

  /** Number of semitones from A4 of the note with the given pitch-class index and octave. */
  function SemitonesFromA4(noteIndex: nat, octave: int): int
  {
    12 * (octave - 4) + noteIndex - 9
  }

  /**
   * Splits a semitone count relative to A4 into (pitch-class index, octave),
   * using floor division and the non-negative remainder, so that negative
   * counts land in lower octaves.
   */
  function Decompose(rounded: int): (p: (nat, int))
    ensures p.0 < 12
    ensures SemitonesFromA4(p.0, p.1) == rounded
  {
    ((rounded + 9) % 12, 4 + (rounded + 9) / 12)
  }

  /** Decompose inverts SemitonesFromA4 on every valid (index, octave) pair. */
  lemma DecomposeSemitones(noteIndex: nat, octave: int)
    requires noteIndex < 12
    ensures Decompose(SemitonesFromA4(noteIndex, octave)) == (noteIndex, octave)
  {
    var k := 12 * (octave - 4) + noteIndex;
    assert SemitonesFromA4(noteIndex, octave) + 9 == k;
    assert k / 12 == octave - 4 && k % 12 == noteIndex;
  }

  /** Distinct semitone counts have distinct (index, octave) pairs. */
  lemma DecomposeInjective(m: int, n: int)
    requires Decompose(m) == Decompose(n)
    ensures m == n
  {
  }

  /** The twelve note names are pairwise different. */
  lemma NotesDistinct(i: nat, j: nat)
    requires i < 12 && j < 12 && Notes[i] == Notes[j]
    ensures i == j
  {
    assert |Notes[i]| == |Notes[j]| && Notes[i][0] == Notes[j][0];
  }

  /** Position of a note name in Notes, if it is one. */
  function NoteIndexOf(name: string): (r: int)
    ensures -1 <= r < 12
    ensures 0 <= r ==> Notes[r] == name
    ensures r < 0 ==> forall i :: 0 <= i < 12 ==> Notes[i] != name
  {
    if name == "C" then 0 else if name == "C#" then 1 else if name == "D" then 2
    else if name == "D#" then 3 else if name == "E" then 4 else if name == "F" then 5
    else if name == "F#" then 6 else if name == "G" then 7 else if name == "G#" then 8
    else if name == "A" then 9 else if name == "A#" then 10 else if name == "B" then 11
    else -1
  }

  /** The semitone, relative to A4, that a reading names (meaningful when its name is a note). */
  function NamedSemitone(r: NoteReading): int
  {
    SemitonesFromA4(if NoteIndexOf(r.name) < 0 then 0 else NoteIndexOf(r.name), r.octave)
  }

  /** Fractional semitones between a frequency and A4. */
  function NoteNumber(log2: real -> real, frequency: real): real
  {
    12.0 * log2(frequency / A4Freq)
  }

  /**
   * The note reading for a frequency. `semitoneOffset` is the tuner's stored
   * transposition offset, which this computation never consults.
   */
  function FrequencyToNote(log2: real -> real, frequency: real, semitoneOffset: int): (r: NoteReading)
    ensures frequency <= 0.0 ==> r == NoPitch
    ensures frequency > 0.0 ==>
      && r.name in Notes
      && NamedSemitone(r) == Round(NoteNumber(log2, frequency))
      && r.cents == 100.0 * (NoteNumber(log2, frequency) - NamedSemitone(r) as real)
      && -50.0 <= r.cents <= 50.0
  {
    if frequency <= 0.0 then NoPitch
    else
      var noteNumber := NoteNumber(log2, frequency);
      var rounded := Round(noteNumber);
      var cents := 100.0 * (noteNumber - rounded as real);
      var p := Decompose(rounded);
      var r := NoteReading(Notes[p.0], p.1, cents);
      assert NoteIndexOf(r.name) == p.0 by {
        if NoteIndexOf(r.name) != p.0 { NotesDistinct(NoteIndexOf(r.name), p.0); }
      }
      r
  }

  /** The offset has no influence on the reading. */
  lemma OffsetIsIgnored(log2: real -> real, frequency: real, offset1: int, offset2: int)
    ensures FrequencyToNote(log2, frequency, offset1) == FrequencyToNote(log2, frequency, offset2)
  {
  }

  /**
   * Two positive frequencies get the same name and octave exactly when they
   * round to the same semitone: the mapping from semitones to readings is injective.
   */
  lemma SameNameAndOctaveIffSameSemitone(log2: real -> real, f1: real, f2: real, offset: int)
    requires f1 > 0.0 && f2 > 0.0
    ensures var r1 := FrequencyToNote(log2, f1, offset);
            var r2 := FrequencyToNote(log2, f2, offset);
            (r1.name == r2.name && r1.octave == r2.octave)
              <==> Round(NoteNumber(log2, f1)) == Round(NoteNumber(log2, f2))
  {
    var r1 := FrequencyToNote(log2, f1, offset);
    var r2 := FrequencyToNote(log2, f2, offset);
    var n1, n2 := Round(NoteNumber(log2, f1)), Round(NoteNumber(log2, f2));
    var i1, i2 := NoteIndexOf(r1.name), NoteIndexOf(r2.name);
    if n1 == n2 {
      DecomposeSemitones(i1, r1.octave);
      DecomposeSemitones(i2, r2.octave);
      assert (i1, r1.octave) == (i2, r2.octave);
    }
  }

  /** A positive frequency within half a semitone of semitone n is named after n. */
  lemma NearestSemitone(log2: real -> real, frequency: real, offset: int, n: int)
    requires frequency > 0.0
    requires -0.5 < NoteNumber(log2, frequency) - n as real < 0.5
    ensures var r := FrequencyToNote(log2, frequency, offset);
            && r.name == Notes[Decompose(n).0]
            && r.octave == Decompose(n).1
            && r.cents == 100.0 * (NoteNumber(log2, frequency) - n as real)
  {
    RoundNearest(NoteNumber(log2, frequency), n);
  }

  /**
   * An octave up is twelve semitones up: when log2 grows by one as the
   * frequency doubles, the doubled frequency keeps the name and the cents and
   * reads one octave higher.
   */
  lemma OctaveUp(log2: real -> real, frequency: real, offset: int)
    requires frequency > 0.0
    requires log2(2.0 * frequency / A4Freq) == log2(frequency / A4Freq) + 1.0
    ensures NoteNumber(log2, 2.0 * frequency) == NoteNumber(log2, frequency) + 12.0
    ensures var r1 := FrequencyToNote(log2, frequency, offset);
            var r2 := FrequencyToNote(log2, 2.0 * frequency, offset);
            r2.name == r1.name && r2.octave == r1.octave + 1 && r2.cents == r1.cents
  {
    var x := NoteNumber(log2, frequency);
    var x2 := NoteNumber(log2, 2.0 * frequency);
    var n := Round(x);
    var p := Decompose(n);
    assert x2 == x + 12.0;
    assert Round(x2) == n + 12 by { RoundOctaveUp(x); }
    assert Decompose(n + 12) == (p.0, p.1 + 1) by { DecomposeOctaveUp(n); }
    assert FrequencyToNote(log2, frequency, offset) == NoteReading(Notes[p.0], p.1, 100.0 * (x - n as real)) by {
      ReadingOfPositive(log2, frequency, offset, n);
    }
    assert FrequencyToNote(log2, 2.0 * frequency, offset)
        == NoteReading(Notes[p.0], p.1 + 1, 100.0 * (x2 - (n + 12) as real)) by {
      ReadingOfPositive(log2, 2.0 * frequency, offset, n + 12);
    }
  }

  /** Rounding commutes with a shift by twelve semitones. */
  lemma RoundOctaveUp(x: real)
    ensures Round(x + 12.0) == Round(x) + 12
  {
    RoundUnique(x + 12.0, Round(x) + 12);
  }

  /** The reading of a positive frequency whose note number rounds to n, spelled out. */
  lemma ReadingOfPositive(log2: real -> real, frequency: real, offset: int, n: int)
    requires frequency > 0.0 && Round(NoteNumber(log2, frequency)) == n
    ensures FrequencyToNote(log2, frequency, offset)
         == NoteReading(Notes[Decompose(n).0], Decompose(n).1, 100.0 * (NoteNumber(log2, frequency) - n as real))
  {
  }

  /** Twelve semitones up is the same pitch class one octave higher. */
  lemma DecomposeOctaveUp(n: int)
    ensures Decompose(n + 12) == (Decompose(n).0, Decompose(n).1 + 1)
  {
    var p := Decompose(n);
    DecomposeSemitones(p.0, p.1 + 1);
  }

  /** 440 Hz reads as A in octave 4, exactly in tune. */
  lemma ConcertA(log2: real -> real, offset: int)
    requires log2(1.0) == 0.0
    ensures FrequencyToNote(log2, A4Freq, offset) == NoteReading("A", 4, 0.0)
  {
    assert NoteNumber(log2, A4Freq) == 0.0 by { assert A4Freq / A4Freq == 1.0; }
    assert Round(0.0) == 0 by { RoundNearest(0.0, 0); }
    assert Decompose(0) == (9, 4);
    ReadingOfPositive(log2, A4Freq, offset, 0);
  }

  /**
   * Middle C (261.63 Hz) reads as C in octave 4 within 5 cents, given that
   * log2 is accurate there to within a few thousandths.
   */
  lemma MiddleC(log2: real -> real, offset: int)
    requires -9.05 < NoteNumber(log2, 261.63) < -8.95
    ensures var r := FrequencyToNote(log2, 261.63, offset);
            r.name == "C" && r.octave == 4 && -5.0 < r.cents < 5.0
  {
    NearestSemitone(log2, 261.63, offset, -9);
  }

  /**
   * Round-half-to-even makes both ends of the cents range reachable: half a
   * semitone above A4 rounds down (+50 cents) and one and a half semitones
   * above rounds up (-50 cents).
   */
  lemma CentsReachBothEnds()
    ensures 100.0 * (0.5 - Round(0.5) as real) == 50.0
    ensures 100.0 * (1.5 - Round(1.5) as real) == -50.0
  {
    RoundUnique(0.5, 0);
    RoundUnique(1.5, 2);
  }
}
