/** `Timestep`: a frame time in seconds, read as seconds or milliseconds. */
module Timesteps {

  datatype Timestep = Timestep(time: real)

  /** `Timestep()`: no time elapsed. */
  const DefaultTimestep: Timestep := Timestep(0.0)

  /** `seconds`: the stored time itself. */
  function Seconds(ts: Timestep): (s: real)
    ensures s == ts.time
  {
    ts.time
  }

  /** `milli_seconds`: a thousand per second. */
  function MilliSeconds(ts: Timestep): (ms: real)
    ensures ms == 1000.0 * Seconds(ts)
  {
    ts.time * 1000.0
  }

  /** Both readings grow with the time, and the default reads zero in both
      units. */
  lemma ReadingsMonotone(a: Timestep, b: Timestep)
    ensures a.time <= b.time ==> Seconds(a) <= Seconds(b) && MilliSeconds(a) <= MilliSeconds(b)
    ensures a.time < b.time ==> MilliSeconds(b) - MilliSeconds(a) == 1000.0 * (Seconds(b) - Seconds(a))
    ensures Seconds(DefaultTimestep) == 0.0 && MilliSeconds(DefaultTimestep) == 0.0
  {
  }
}
