/** The submission deadline: ListenBrainz counts a listen once half the track
    or four minutes of it have been played, whichever is lower. */
module Deadline {

  /** Four minutes, in seconds. */
  const MaxDelay: nat := 240

  /** getHalfPoint: floor(duration / 2), on a duration already floored. */
  function HalfPoint(duration: nat): (hp: nat)
    ensures 2 * hp <= duration < 2 * hp + 2
  {
    duration / 2
  }

  /** The delay before a listen counts: min(floor(duration / 2), 240). */
  function SubmissionDelay(duration: nat): (td: nat)
    ensures td <= MaxDelay && td <= HalfPoint(duration)
    ensures td == MaxDelay || td == HalfPoint(duration)
  {
    var hp := HalfPoint(duration);
    if hp > MaxDelay then MaxDelay else hp
  }

  /** The delay as the Go code computes it from the parsed float:
      int(math.Floor(totalLength / 2)), capped at 240. */
  function DelayOfFloat(totalLength: real): int {
    var hp := (totalLength / 2.0).Floor;
    if hp > 240 then 240 else hp
  }

  /** Halving then flooring equals flooring, halving, flooring: parsing an
      already floored duration loses nothing. */
  lemma HalfOfFloor(x: real)
    requires x >= 0.0
    ensures (x / 2.0).Floor == x.Floor / 2
  {
    var n := x.Floor;
    var q := n / 2;
    assert n == 2 * q || n == 2 * q + 1;
    assert q as real <= x / 2.0 < q as real + 1.0 by {
      assert n as real <= x < n as real + 1.0;
      assert 2.0 * (q as real) <= n as real;
      assert n as real + 1.0 <= 2.0 * (q as real) + 2.0;
    }
  }

  /** The floored-duration model of the delay agrees with the Go code's
      float arithmetic for every non-negative duration. */
  lemma FlooredDurationIsFaithful(x: real)
    requires x >= 0.0
    ensures x.Floor >= 0 && DelayOfFloat(x) == SubmissionDelay(x.Floor)
  {
    HalfOfFloor(x);
  }

  /** The values the ListenBrainz rule gives for a few durations. */
  lemma DelayExamples()
    ensures SubmissionDelay(10) == 5 && SubmissionDelay(100) == 50
    ensures SubmissionDelay(300) == 150 && SubmissionDelay(481) == 240
    ensures SubmissionDelay(500) == 240 && SubmissionDelay(600) == 240
  {
  }
}
