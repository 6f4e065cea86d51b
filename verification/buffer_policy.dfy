/** The buffer-size policy: ask for 512 frames, kept inside the engine's
    reported period range. */
module BufferPolicy {
  import opened Native

  /** The preferred buffer size in frames. It is a target, not a floor. */
  const TargetFrames: nat := 512

  function Max(a: nat, b: nat): nat { if a < b then b else a }

  function Min(a: nat, b: nat): nat { if a < b then a else b }

  /** How far `x` frames lie from the target. */
  function Distance(x: nat): nat { if x < TargetFrames then TargetFrames - x else x - TargetFrames }

  /** `max(minPeriod, min(maxPeriod, 512))`. Within a well-formed range the
      result is the unique frame count of the range closest to the target; in a
      degenerate range (`minPeriod > maxPeriod`) the outer `max` wins. */
  function CalculateBufferSize(minPeriod: U32, maxPeriod: U32): (r: U32)
    ensures r >= minPeriod
    ensures minPeriod <= TargetFrames <= maxPeriod ==> r == TargetFrames
    ensures minPeriod <= maxPeriod < TargetFrames ==> r == maxPeriod
    ensures TargetFrames < minPeriod ==> r == minPeriod
    ensures maxPeriod < minPeriod ==> r == minPeriod
    ensures minPeriod <= maxPeriod ==> minPeriod <= r <= maxPeriod
    ensures minPeriod <= maxPeriod ==>
      forall x :: minPeriod <= x <= maxPeriod ==> Distance(r) <= Distance(x)
    ensures minPeriod <= maxPeriod ==>
      forall x :: minPeriod <= x <= maxPeriod && Distance(x) <= Distance(r) ==> x == r
  {
    Max(minPeriod, Min(maxPeriod, TargetFrames))
  }
}
