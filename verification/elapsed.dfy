/**
  Model of src/utils/diffSeconds.ts: the age, in seconds, of a millisecond
  timestamp. The clock (`Date.now()`) is an explicit parameter `now`, and the
  floating-point division is taken as exact division over the reals.
*/
module Elapsed {

  /** Milliseconds in one second. */
  const MillisPerSecond: int := 1000

  /** Seconds elapsed from the millisecond timestamp `date` to the millisecond time `now`. */
  function DiffSeconds(now: int, date: int): (s: real)
    ensures s * 1000.0 == (now - date) as real
    ensures now == date ==> s == 0.0
    ensures date <= now ==> s >= 0.0
    ensures date > now ==> s < 0.0
  {
    (now - date) as real / MillisPerSecond as real
  }

  /** For a fixed `date`, a later clock reading never gives a smaller age. */
  lemma DiffSecondsMonotone(now: int, later: int, date: int)
    requires now <= later
    ensures DiffSeconds(now, date) <= DiffSeconds(later, date)
  {
  }

  /** Comparing the age with a whole number of seconds is comparing milliseconds with 1000 times it. */
  lemma DiffSecondsBelow(now: int, date: int, seconds: int)
    ensures DiffSeconds(now, date) < seconds as real <==> now - date < seconds * MillisPerSecond
  {
  }
}
