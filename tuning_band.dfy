/**
 * The tuning-accuracy banding that colours the needle and the note label:
 * the deviation in cents falls into one of three bands by its magnitude.
 */
module TuningBand {
  import opened Reals

  /** The three colour bands: success (green), warning (yellow), error (red). */
  datatype Band = Success | Warning | Error

  /** Limit below which a deviation counts as in tune, in cents. */
  const InTuneLimit: real := 5.0

  /** Limit below which a deviation counts as close, in cents. */
  const CloseLimit: real := 15.0

  /** The band of a deviation in cents: an if/elif/else chain on its magnitude. */
  function BandOf(cents: real): (b: Band)
    ensures b == Success <==> Abs(cents) < InTuneLimit
    ensures b == Warning <==> InTuneLimit <= Abs(cents) < CloseLimit
    ensures b == Error <==> CloseLimit <= Abs(cents)
  {
    if Abs(cents) < InTuneLimit then Success
    else if Abs(cents) < CloseLimit then Warning
    else Error
  }

  /** How far a band is from in tune: 0 for success, 2 for error. */
  function Rank(b: Band): nat
  {
    match b
    case Success => 0
    case Warning => 1
    case Error => 2
  }

  /** A larger deviation never gets a better band. */
  lemma BandMonotone(c1: real, c2: real)
    requires Abs(c1) <= Abs(c2)
    ensures Rank(BandOf(c1)) <= Rank(BandOf(c2))
  {
  }

  /** The band depends only on the magnitude, not the sign, of the deviation. */
  lemma BandSymmetric(cents: real)
    ensures BandOf(-cents) == BandOf(cents)
  {
  }
}
