/**
 * The per-layer A/B state machine that the audio thread runs on every idle
 * 50 ms tick (a tick is a wait on the command channel that timed out).
 *
 * A layer plays file A, then file B, and counts one loop per finished B.
 * When its loop count runs out it either pauses for a random number of
 * pause loops or starts a fresh cycle straight away.  The audio sink, the
 * file system and the random number generator are outside the model: each
 * tick takes as inputs whether the layer's sink has drained, whether the
 * next file opened and decoded, and the values the random draws returned.
 * Appending a file to the sink is reported as the `appended` side.
 */
module LayerMachine {
  import opened Wrappers
  import opened Settings
  import opened MixBus

  datatype Side = A | B

  /**
   * A pause loop is estimated at 5 s; the idle tick is 50 ms, so one pause
   * loop is 100 ticks.  The source counts seconds down in f64 steps of 0.05.
   */
  const TicksPerPauseLoop: nat := 100

  /**
   * `AmbientState` without its sink: the file pair, the settings, the A/B
   * flag, the loops left before a pause is considered, the pause left (in
   * ticks), the pause flag, and the gain last set on the sink.
   */
  datatype Layer = Layer(
    fileA: string, fileB: string, settings: AmbientSettings,
    isPlayingA: bool, loopsRemaining: nat, pauseTicks: int, isPaused: bool,
    gain: real)

  /** The file the layer's flag says is playing (or last played). */
  function Current(l: Layer): Side {
    if l.isPlayingA then A else B
  }

  /**
   * A layer only pauses after a B has finished and its loops ran out, and
   * stays paused only while pause time is left.
   */
  predicate PhaseOk(l: Layer) {
    l.isPaused ==> l.pauseTicks > 0 && l.loopsRemaining == 0 && !l.isPlayingA
  }

  /** The freshly inserted layer of `PlayAmbient`, whose file A was just appended. */
  function Started(fileA: string, fileB: string, settings: AmbientSettings,
                   loops: nat, gain: real): (l: Layer)
    requires InRange(loops, settings.repeatMin, settings.repeatMax)
    ensures Current(l) == A && !l.isPaused && l.pauseTicks == 0 && PhaseOk(l)
    ensures settings.repeatMin <= l.loopsRemaining <= settings.repeatMax
    ensures l.settings == settings && l.gain == gain
  {
    Layer(fileA, fileB, settings, true, loops, 0, false, gain)
  }

  /** What one tick observes of the world and of the random number generator. */
  datatype TickInput = TickInput(
    sinkEmpty: bool,   // the sink has played everything appended to it
    decodeOk: bool,    // the next file opened and decoded
    repeatDraw: nat,   // gen_range(repeat_min..=repeat_max), if drawn
    pauseDraw: nat,    // gen_range(pause_min..=pause_max), if drawn
    jitter: real)      // rand::random::<f32>(), if drawn

  /** `u32::saturating_sub(1)`. */
  function SatDec(n: nat): (m: nat)
    ensures n > 0 ==> m + 1 == n
    ensures n == 0 ==> m == 0
  {
    if n == 0 then 0 else n - 1
  }

  /**
   * Every random draw this tick makes for `l` is a value the generator can
   * return.  An inclusive range with min > max has no such value: the
   * source panics there, and such ticks are excluded.
   */
  predicate DrawsOk(l: Layer, t: TickInput) {
    && 0.0 <= t.jitter < 1.0
    && (t.sinkEmpty ==>
          if l.isPaused then
            l.pauseTicks - 1 <= 0 ==> InRange(t.repeatDraw, l.settings.repeatMin, l.settings.repeatMax)
          else if l.isPlayingA then
            true
          else
            SatDec(l.loopsRemaining) == 0 ==>
              && InRange(t.pauseDraw, l.settings.pauseMin, l.settings.pauseMax)
              && (t.pauseDraw == 0 ==> InRange(t.repeatDraw, l.settings.repeatMin, l.settings.repeatMax)))
  }

  datatype StepResult = StepResult(layer: Layer, appended: Option<Side>)

  /** Marks `side` as playing and appends it when the file decodes, setting a fresh gain. */
  function Queue(l: Layer, side: Side, t: TickInput, bus: Bus): (r: StepResult)
    requires 0.0 <= t.jitter < 1.0
    // the flag names `side` whether or not the file decodes
    ensures Current(r.layer) == side
    ensures r.appended.Some? <==> t.decodeOk
    ensures r.appended.Some? ==> r.appended.value == side && r.layer.gain == AmbientGain(l.settings, bus, t.jitter)
    ensures r.appended.None? ==> r.layer.gain == l.gain
    // nothing but the flag and the gain changes
    ensures r.layer.(isPlayingA := l.isPlayingA, gain := l.gain) == l
  {
    var flagged := l.(isPlayingA := side == A);
    if t.decodeOk then
      StepResult(flagged.(gain := AmbientGain(l.settings, bus, t.jitter)), Some(side))
    else
      StepResult(flagged, None)
  }

  /** One idle tick for one layer. */
  function Step(l: Layer, t: TickInput, bus: Bus): (r: StepResult)
    requires DrawsOk(l, t)
    ensures r.layer.fileA == l.fileA && r.layer.fileB == l.fileB && r.layer.settings == l.settings
    // a layer whose sink is still playing is left untouched
    ensures !t.sinkEmpty ==> r == StepResult(l, None)
    // an appended file becomes the current side and is played at a freshly
    // computed gain; from a consistent layer it is the other side
    ensures r.appended.Some? ==>
              && t.decodeOk
              && r.appended.value == Current(r.layer)
              && (PhaseOk(l) ==> r.appended.value != Current(l))
              && r.layer.gain == AmbientGain(l.settings, bus, t.jitter)
    ensures r.appended.None? ==> r.layer.gain == l.gain
    // when every file decodes, the current side changes only by appending
    ensures r.appended.None? && t.decodeOk ==> Current(r.layer) == Current(l)
    // A finished: switch to B, loops unchanged
    ensures t.sinkEmpty && !l.isPaused && l.isPlayingA ==>
              && Current(r.layer) == B && !r.layer.isPaused
              && r.layer.loopsRemaining == l.loopsRemaining
              && (t.decodeOk ==> r.appended == Some(B))
    // B finished: one loop done
    ensures t.sinkEmpty && !l.isPaused && !l.isPlayingA ==>
              var left := SatDec(l.loopsRemaining);
              if left > 0 then
                && Current(r.layer) == A && !r.layer.isPaused
                && r.layer.loopsRemaining == left
                && (t.decodeOk ==> r.appended == Some(A))
              else if t.pauseDraw > 0 then
                && r.layer.isPaused && Current(r.layer) == B && r.appended.None?
                && r.layer.loopsRemaining == 0
                && r.layer.pauseTicks == t.pauseDraw * TicksPerPauseLoop
              else
                && Current(r.layer) == A && !r.layer.isPaused
                && r.layer.loopsRemaining == t.repeatDraw
                && (t.decodeOk ==> r.appended == Some(A))
    // paused: count one tick down, resume with a fresh cycle once none is left
    ensures t.sinkEmpty && l.isPaused ==>
              && r.layer.pauseTicks == l.pauseTicks - 1
              && (r.layer.isPaused <==> l.pauseTicks - 1 > 0)
              && (r.layer.isPaused ==> r.appended.None? && r.layer.isPlayingA == l.isPlayingA
                                       && r.layer.loopsRemaining == l.loopsRemaining)
              && (!r.layer.isPaused ==> Current(r.layer) == A && r.layer.loopsRemaining == t.repeatDraw
                                        && (t.decodeOk ==> r.appended == Some(A)))
    // a pause is entered only on a positive pause draw
    ensures r.layer.isPaused && !l.isPaused ==> t.pauseDraw > 0
    ensures PhaseOk(l) ==> PhaseOk(r.layer)
  {
    if !t.sinkEmpty then
      StepResult(l, None)
    else if l.isPaused then
      var left := l.pauseTicks - 1;
      if left <= 0 then
        Queue(l.(isPaused := false, pauseTicks := left, loopsRemaining := t.repeatDraw), A, t, bus)
      else
        StepResult(l.(pauseTicks := left), None)
    else if l.isPlayingA then
      Queue(l, B, t, bus)
    else
      var left := SatDec(l.loopsRemaining);
      if left == 0 then
        if t.pauseDraw > 0 then
          StepResult(l.(loopsRemaining := 0, isPaused := true,
                        pauseTicks := t.pauseDraw * TicksPerPauseLoop), None)
        else
          Queue(l.(loopsRemaining := t.repeatDraw), A, t, bus)
      else
        Queue(l.(loopsRemaining := left), A, t, bus)
  }

  /** A run of idle ticks can be taken: every tick's draws are possible. */
  predicate Runnable(l: Layer, ts: seq<TickInput>, bus: Bus)
    decreases |ts|
  {
    |ts| == 0 || (DrawsOk(l, ts[0]) && Runnable(Step(l, ts[0], bus).layer, ts[1..], bus))
  }

  datatype RunResult = RunResult(layer: Layer, appended: seq<Side>)

  /** The layer after a run of idle ticks and the files appended on the way. */
  function Run(l: Layer, ts: seq<TickInput>, bus: Bus): (r: RunResult)
    requires Runnable(l, ts, bus)
    decreases |ts|
  {
    if |ts| == 0 then
      RunResult(l, [])
    else
      var s := Step(l, ts[0], bus);
      var rest := Run(s.layer, ts[1..], bus);
      RunResult(rest.layer, (if s.appended.Some? then [s.appended.value] else []) + rest.appended)
  }

  /** No two neighbours are the same file. */
  predicate Alternating(s: seq<Side>) {
    forall i :: 0 <= i < |s| - 1 ==> s[i] != s[i + 1]
  }

  /**
   * As long as every file decodes, the files a layer appends alternate
   * A, B, A, B, ... continuing from the current side, and the current side
   * afterwards is the last file appended.
   */
  lemma {:induction false} AppendsAlternate(l: Layer, ts: seq<TickInput>, bus: Bus)
    requires Runnable(l, ts, bus) && PhaseOk(l)
    requires forall i :: 0 <= i < |ts| ==> ts[i].decodeOk
    ensures Alternating([Current(l)] + Run(l, ts, bus).appended)
    ensures Current(Run(l, ts, bus).layer) == ([Current(l)] + Run(l, ts, bus).appended)[|Run(l, ts, bus).appended|]
    decreases |ts|
  {
    if |ts| > 0 {
      var s := Step(l, ts[0], bus);
      AppendsAlternate(s.layer, ts[1..], bus);
      var rest := Run(s.layer, ts[1..], bus).appended;
      if s.appended.Some? {
        assert [Current(l)] + Run(l, ts, bus).appended == [Current(l)] + ([Current(s.layer)] + rest);
      } else {
        assert Run(l, ts, bus).appended == rest;
      }
    }
  }

  /** A layer whose pause range is [0, 0] never enters a pause. */
  lemma {:induction false} NeverPausesWithoutPauseRange(l: Layer, ts: seq<TickInput>, bus: Bus)
    requires Runnable(l, ts, bus)
    requires !l.isPaused && l.settings.pauseMax == 0
    ensures !Run(l, ts, bus).layer.isPaused
    decreases |ts|
  {
    if |ts| > 0 {
      NeverPausesWithoutPauseRange(Step(l, ts[0], bus).layer, ts[1..], bus);
    }
  }

  /**
   * With repeat range [1, 1] and pause range [0, 0] a layer never pauses and
   * always has exactly one loop to go: A, B, A, B, ... without end.
   */
  lemma {:induction false} SingleLoopCycles(l: Layer, ts: seq<TickInput>, bus: Bus)
    requires Runnable(l, ts, bus)
    requires l.settings.repeatMin == l.settings.repeatMax == 1 && l.settings.pauseMax == 0
    requires !l.isPaused && l.loopsRemaining == 1
    ensures !Run(l, ts, bus).layer.isPaused && Run(l, ts, bus).layer.loopsRemaining == 1
    decreases |ts|
  {
    if |ts| > 0 {
      SingleLoopCycles(Step(l, ts[0], bus).layer, ts[1..], bus);
    }
  }

  /**
   * A paused layer whose sink stays drained stays paused, appends nothing
   * and loses one tick of pause per idle tick while pause time is left.
   */
  lemma {:induction false} PauseCountsDown(l: Layer, ts: seq<TickInput>, bus: Bus)
    requires Runnable(l, ts, bus)
    requires l.isPaused && |ts| < l.pauseTicks
    requires forall i :: 0 <= i < |ts| ==> ts[i].sinkEmpty
    ensures Run(l, ts, bus).layer.isPaused
    ensures Run(l, ts, bus).layer.pauseTicks == l.pauseTicks - |ts|
    ensures Run(l, ts, bus).appended == []
    decreases |ts|
  {
    if |ts| > 0 {
      PauseCountsDown(Step(l, ts[0], bus).layer, ts[1..], bus);
    }
  }

  /**
   * A pause of n ticks ends on exactly the n-th idle tick: the layer
   * resumes with file A and a redrawn loop count.
   */
  lemma {:induction false} PauseEndsOnTime(l: Layer, ts: seq<TickInput>, bus: Bus)
    requires Runnable(l, ts, bus)
    requires l.isPaused && PhaseOk(l) && |ts| == l.pauseTicks
    requires forall i :: 0 <= i < |ts| ==> ts[i].sinkEmpty
    ensures !Run(l, ts, bus).layer.isPaused && Current(Run(l, ts, bus).layer) == A
    ensures Run(l, ts, bus).layer.loopsRemaining == ts[|ts| - 1].repeatDraw
    ensures Run(l, ts, bus).appended == if ts[|ts| - 1].decodeOk then [A] else []
    decreases |ts|
  {
    var s := Step(l, ts[0], bus);
    if |ts| > 1 {
      PauseEndsOnTime(s.layer, ts[1..], bus);
      assert ts[1..][|ts[1..]| - 1] == ts[|ts| - 1];
    }
  }
}
