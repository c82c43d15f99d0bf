/**
 * The hand tracker's record is what the particle frame reads: the two halves joined, as the page
 * passes each `HandData` from the webcam loop to the scene.
 */
module SignalFlow {
  import opened Common
  import opened Types
  import opened ParticleMotion
  import opened HandTracker

  /**
   * Whatever the camera sees, the grip the particle frame uses lies in [0, 1], so each target is
   * a blend between its dispersed and its shaped point.
   */
  lemma SignalGripInRange(config: ParticleConfig, obs: Option<Observation>, m: MathOps)
    requires obs.Some? ==> WellFormed(obs.value)
    ensures 0.0 <= Params(config, HandSignal(obs, m), m).grip <= 1.0
  {
    match obs {
      case None =>
      case Some(o) => PresentSignal(o, m);
    }
  }
}
