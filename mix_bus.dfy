/**
 * The mix-bus gain rules of the audio thread: the gain set on an ambient
 * layer's sink (`calc_ambient_volume`), the gain set on the music sink, and
 * the effective bus volumes reported to the user interface.  Volumes are
 * `real`; the source computes them in f32.
 */
module MixBus {
  import opened Settings

  /** The mixer variables the audio thread owns. */
  datatype Bus = Bus(
    master: real, masterMuted: bool,
    music: real, musicMuted: bool,
    ambientMaster: real, ambientMuted: bool)

  /** The values the audio thread starts with. */
  function InitialBus(): (b: Bus)
    ensures !b.masterMuted && !b.musicMuted && !b.ambientMuted
    ensures b.master == b.music == b.ambientMaster == 1.0
  {
    Bus(1.0, false, 1.0, false, 1.0, false)
  }

  function Clamp(x: real, lo: real, hi: real): (c: real)
    requires lo <= hi
    ensures lo <= c <= hi
    ensures lo <= x <= hi ==> c == x
  {
    if x < lo then lo else if x > hi then hi else x
  }

  /**
   * The random gain factor applied to a layer each time its sink volume is
   * set.  `r` is the uniform draw in [0, 1); it is used only when the
   * variation is positive.
   */
  function VariationFactor(variation: real, r: real): (f: real)
    requires 0.0 <= r < 1.0
    ensures 0.0 <= f <= 2.0
    ensures variation <= 0.0 ==> f == 1.0
    // the factor strays from 1 by at most the variation
    ensures 0.0 <= variation ==> 1.0 - variation <= f <= 1.0 + variation
  {
    if variation > 0.0 then
      var v := (r - 0.5) * 2.0 * variation;
      assert -variation <= v <= variation by { JitterBounded(r, variation); }
      Clamp(1.0 + v, 0.0, 2.0)
    else
      1.0
  }

  lemma JitterBounded(r: real, variation: real)
    requires 0.0 <= r < 1.0 && 0.0 < variation
    ensures -variation <= (r - 0.5) * 2.0 * variation <= variation
  {
    var d := 2.0 * r - 1.0;
    assert -1.0 <= d < 1.0;
    assert (r - 0.5) * 2.0 * variation == d * variation;
    if d >= 0.0 {
      assert d * variation <= 1.0 * variation;
    } else {
      assert (-d) * variation <= 1.0 * variation;
    }
  }

  /** The effective ambient bus volume reported to the user interface. */
  function AmbientBusGain(b: Bus): (g: real)
    ensures b.ambientMuted || b.masterMuted ==> g == 0.0
    ensures b.master == 0.0 || b.ambientMaster == 0.0 ==> g == 0.0
    ensures !b.ambientMuted && !b.masterMuted ==> g == b.ambientMaster * b.master
  {
    if b.ambientMuted || b.masterMuted then 0.0 else b.ambientMaster * b.master
  }

  /**
   * The gain set on an ambient layer's sink: silent when the ambient bus or
   * the master is muted, otherwise the layer volume scaled by the ambient
   * bus, the master and the random variation factor.
   */
  function AmbientGain(s: AmbientSettings, b: Bus, r: real): (g: real)
    requires 0.0 <= r < 1.0
    ensures b.ambientMuted || b.masterMuted ==> g == 0.0
    ensures g == s.volume * AmbientBusGain(b) * VariationFactor(s.volumeVariation, r)
  {
    if b.ambientMuted || b.masterMuted then
      0.0
    else
      s.volume * b.ambientMaster * b.master * VariationFactor(s.volumeVariation, r)
  }

  /** The gain set on the music sink, and the music volume reported. */
  function MusicGain(b: Bus): (g: real)
    ensures b.musicMuted || b.masterMuted ==> g == 0.0
    ensures b.master == 0.0 ==> g == 0.0
    ensures !b.musicMuted && !b.masterMuted ==> g == b.music * b.master
    ensures !b.musicMuted && !b.masterMuted && b.master == 1.0 ==> g == b.music
  {
    if b.musicMuted || b.masterMuted then 0.0 else b.music * b.master
  }

  /** The factor is exactly 1 for a positive variation only on the midpoint draw. */
  lemma FactorIsOneOnlyAtMidpoint(variation: real, r: real)
    requires 0.0 < variation && 0.0 <= r < 1.0
    ensures VariationFactor(variation, r) == 1.0 <==> r == 0.5
  {
    var v := (r - 0.5) * 2.0 * variation;
    JitterBounded(r, variation);
    if r < 0.5 {
      assert (0.5 - r) * 2.0 * variation > 0.0;
      assert v < 0.0;
    } else if r > 0.5 {
      assert (r - 0.5) * 2.0 * variation > 0.0;
    }
  }

  /** Without variation the layer gain does not depend on the random draw. */
  lemma GainIndependentOfDraw(s: AmbientSettings, b: Bus, r1: real, r2: real)
    requires s.volumeVariation <= 0.0
    requires 0.0 <= r1 < 1.0 && 0.0 <= r2 < 1.0
    ensures AmbientGain(s, b, r1) == AmbientGain(s, b, r2) == s.volume * AmbientBusGain(b)
  {
  }

  /** A muted or zero master silences every sink and every reported bus volume. */
  lemma MasterSilences(s: AmbientSettings, b: Bus, r: real)
    requires b.masterMuted || b.master == 0.0
    requires 0.0 <= r < 1.0
    ensures AmbientGain(s, b, r) == 0.0
    ensures AmbientBusGain(b) == 0.0
    ensures MusicGain(b) == 0.0
  {
  }
}
