/**
 * Per-layer ambient settings: the record the audio thread keeps for every
 * active layer, its `Default` values, and the way the `play_ambient` and
 * `update_ambient_settings` commands build one from optional arguments.
 */
module Settings {
  import opened Wrappers

  /**
   * Volumes, pitch and pan are `real` (the source uses f32); the four range
   * bounds are the source's u32 counters.  `pan` is stored but has no effect
   * anywhere in the engine.
   */
  datatype AmbientSettings = AmbientSettings(
    volume: real,           // 0.0 - 1.0
    pitch: real,            // playback speed, 0.5 - 2.0
    pan: real,              // -1.0 - 1.0, stored only
    repeatMin: nat,         // A/B cycles before a pause is considered
    repeatMax: nat,
    pauseMin: nat,          // pause length, in pause loops
    pauseMax: nat,
    volumeVariation: real)  // 0.0 - 0.5, random +/- per appended file

  /** A value a uniform draw over the inclusive range [lo, hi] can return. */
  predicate InRange(x: nat, lo: nat, hi: nat) {
    lo <= x <= hi
  }

  /**
   * Both inclusive ranges can be drawn from.  The engine draws with
   * `gen_range(min..=max)`, which panics on an empty range: the bounds are
   * never normalised.
   */
  predicate Drawable(s: AmbientSettings) {
    s.repeatMin <= s.repeatMax && s.pauseMin <= s.pauseMax
  }

  /** `impl Default for AmbientSettings`. */
  function Default(): (s: AmbientSettings)
    ensures Drawable(s)
    ensures s.repeatMin == s.repeatMax == 1
    ensures s.pauseMax == 0
    ensures s.volumeVariation == 0.0 && s.volume == 1.0 && s.pitch == 1.0
  {
    AmbientSettings(1.0, 1.0, 0.0, 1, 1, 0, 0, 0.0)
  }

  /**
   * The settings record built by the `play_ambient` and
   * `update_ambient_settings` commands: `volume` is mandatory, every other
   * field falls back to its default when the argument is absent.
   */
  function FromArgs(volume: real, pitch: Option<real>, pan: Option<real>,
                    repeatMin: Option<nat>, repeatMax: Option<nat>,
                    pauseMin: Option<nat>, pauseMax: Option<nat>,
                    volumeVariation: Option<real>): (s: AmbientSettings)
    // with every optional argument absent the record is the default one,
    // apart from the mandatory volume
    ensures pitch.None? && pan.None? && repeatMin.None? && repeatMax.None?
            && pauseMin.None? && pauseMax.None? && volumeVariation.None?
            ==> s == Default().(volume := volume)
    // every argument that is given is kept as given
    ensures s.volume == volume
    ensures pitch.Some? ==> s.pitch == pitch.value
    ensures pan.Some? ==> s.pan == pan.value
    ensures repeatMin.Some? ==> s.repeatMin == repeatMin.value
    ensures repeatMax.Some? ==> s.repeatMax == repeatMax.value
    ensures pauseMin.Some? ==> s.pauseMin == pauseMin.value
    ensures pauseMax.Some? ==> s.pauseMax == pauseMax.value
    ensures volumeVariation.Some? ==> s.volumeVariation == volumeVariation.value
    // every argument that is absent falls back to its own default, field by field
    ensures pitch.None? ==> s.pitch == Default().pitch
    ensures pan.None? ==> s.pan == Default().pan
    ensures repeatMin.None? ==> s.repeatMin == Default().repeatMin
    ensures repeatMax.None? ==> s.repeatMax == Default().repeatMax
    ensures pauseMin.None? ==> s.pauseMin == Default().pauseMin
    ensures pauseMax.None? ==> s.pauseMax == Default().pauseMax
    ensures volumeVariation.None? ==> s.volumeVariation == Default().volumeVariation
    // giving only a lower bound above the default upper bound yields a
    // range the engine cannot draw from
    ensures repeatMin.Some? && repeatMin.value > 1 && repeatMax.None? ==> !Drawable(s)
  {
    var d := Default();
    AmbientSettings(volume, pitch.GetOr(d.pitch), pan.GetOr(d.pan),
                    repeatMin.GetOr(d.repeatMin), repeatMax.GetOr(d.repeatMax),
                    pauseMin.GetOr(d.pauseMin), pauseMax.GetOr(d.pauseMax),
                    volumeVariation.GetOr(d.volumeVariation))
  }
}
