# Soundscapes ambient engine — a Dafny model

This project models the sequential core of the Soundscapes audio thread
(`soundscapes-app/src-tauri/src/lib.rs`):

- **Ambient layer engine.** The registry of looping ambient layers is keyed by sound id.
  The commands `PlayAmbient`, `StopAmbient`, `UpdateAmbientSettings`,
  `SetAmbientMasterVolume` and `SetAmbientMuted` act on it. On every idle 50 ms tick, each layer
  takes one step of its A/B state machine: play A, then B, count one loop per finished B. When
  the loops run out, the layer either pauses for a drawn number of pause loops or starts a fresh
  cycle.
- **Mix bus.** This covers the gain set on an ambient layer's sink (`calc_ambient_volume`, with
  its random volume variation), the music/master mute-and-gain rule applied to the music sink,
  and the effective volumes published for the user interface.
- **`FftSampleBuffer`.** A ring of 2048 sample slots with a write cursor that only grows:
  `push`, `get_latest(count)` and `clear`.
- **Settings.** The `AmbientSettings` defaults, and the record the `play_ambient` and
  `update_ambient_settings` commands build from their optional arguments.

Modules:

- `Wrappers`: `Option`.
- `Settings`: `AmbientSettings`, `Default`, `FromArgs`.
- `MixBus`: gain rules over `real`.
- `SampleRing`: the `SampleBuffer` class over an `array<real>`. It has a ghost history of
  pushes, against which `GetLatest` is proved.
- `LayerMachine`: a layer as a value, one tick as the pure function `Step`, runs of ticks as
  `Run`, and lemmas about runs.
- `AudioEngine`: the `Engine` class. It holds the registry `map<string, Layer>`, the mixer
  variables, the music sink, the sample ring and a log of sink actions. Its methods are proved
  against `Step`, `Refreshed` and `Started`.

What is an input rather than computed:

- Whether a sink has drained (`sinkEmpty`).
- Whether a file opened and decoded (`decoded`, `decodeOk`, `reopened`). This also covers
  `Sink::try_new` failing.
- Every random draw. `repeatDraw` and `pauseDraw` are the values of `gen_range(min..=max)`, and
  `jitter` is `rand::random::<f32>()` in [0, 1). A draw must be a value the generator can return.
  The source's inclusive ranges are never normalised, so `gen_range` panics when min > max.
  `LayerMachine.DrawsOk` and the `requires` of `PlayAmbient` exclude exactly those cases.
  There is no blanket `repeat_min <= repeat_max` precondition: `UpdateAmbientSettings` accepts
  any range, and a tick only fails if it actually draws from an empty one.

Abstractions:

- A pause is counted in whole idle ticks. `pause_loops * 5.0` seconds becomes
  `pause_loops * 100` ticks of 50 ms, and the f64 countdown `pause_remaining -= 0.05` becomes a
  decrement by one tick. Floating-point rounding can make the real countdown take one tick more
  or less.
- Volumes, pitch and the variation are `real`, not f32.
- The pitch test `abs(old - new) > 0.001` is evaluated exactly (`PitchChanged`).
- Appending file A or B to a layer's sink is recorded as `Appended(id, side)`. The gain set just
  before the append is stored as the layer's `gain`. Stopping a layer's sink is recorded as
  `Halted(id)`.

Behaviour of the code worth knowing, modelled as written:

- `SetMasterVolume` and `SetMasterMuted` update only the music sink. Ambient sinks keep their
  gain until their next append or ambient command: `Engine.SetMasterMuted` ensures
  `layers == old(layers)`.
- Files alternate A, B, A, B only while every file decodes. If the next file fails to open, the
  A/B flag still flips and nothing is appended (`Step`, `AppendsAlternate`).
- A pitch change restarts the layer's current file, so that side is appended twice in a row.
  This happens even while the layer is paused, and the pause countdown then waits for the sink
  to drain.
- The repeat and pause ranges are drawn exactly as stored, without swapping a minimum above
  the maximum. A pause loop is a fixed 5 s estimate (`soundscapes-app/src-tauri/src/lib.rs:740-742`), not the length of the
  layer's files. The model follows the code.

## Model

| member | source | states |
|---|---|---|
| Settings.Default | soundscapes-app/src-tauri/src/lib.rs:137-150 | the default settings have drawable ranges, repeat range [1,1], pause range [0,0], no variation, unit volume and pitch |
| Settings.FromArgs | soundscapes-app/src-tauri/src/lib.rs:1086-1095 | every given argument is kept; each absent argument falls back to its own default, field by field; a lone repeat minimum above 1 yields an undrawable range |
| MixBus.InitialBus | soundscapes-app/src-tauri/src/lib.rs:335-338 | the audio thread starts unmuted with unit music, master and ambient volumes |
| MixBus.VariationFactor | soundscapes-app/src-tauri/src/lib.rs:370-376 | the variation factor lies in [0,2], is exactly 1 without positive variation, and strays from 1 by at most the variation |
| MixBus.FactorIsOneOnlyAtMidpoint | soundscapes-app/src-tauri/src/lib.rs:370-376 | with positive variation the factor is 1 if and only if the draw is 0.5 |
| MixBus.AmbientGain | soundscapes-app/src-tauri/src/lib.rs:363-381 | a layer's gain is 0 when the ambient bus or the master is muted, otherwise its volume times the ambient bus gain times the variation factor |
| MixBus.AmbientBusGain | soundscapes-app/src-tauri/src/lib.rs:411 | the reported ambient volume is 0 when ambient or master is muted, and otherwise ambient master times master (so 0 when either volume is 0) |
| MixBus.MusicGain | soundscapes-app/src-tauri/src/lib.rs:410 | the music gain is 0 when music or master is muted, and otherwise music volume times master volume (the music volume itself at unit master) |
| MixBus.GainIndependentOfDraw | soundscapes-app/src-tauri/src/lib.rs:370-379 | without variation a layer's gain is the same for every random draw: volume times ambient bus gain |
| MixBus.MasterSilences | soundscapes-app/src-tauri/src/lib.rs:363-381 | a muted or zero master makes the layer gain, the ambient bus gain and the music gain all 0 |
| SampleRing.Latest | soundscapes-app/src-tauri/src/lib.rs:236-245 | the meaning of a read: the last count pushes in push order, preceded by zeros while fewer were pushed |
| SampleRing.SampleBuffer.constructor | soundscapes-app/src-tauri/src/lib.rs:224-229 | a new ring has cursor 0, no pushes and every slot 0 |
| SampleRing.SampleBuffer.Push | soundscapes-app/src-tauri/src/lib.rs:231-234 | the sample lands in slot cursor mod 2048, the cursor grows by exactly 1, no other slot changes, and the ring invariant is kept |
| SampleRing.SampleBuffer.GetLatest | soundscapes-app/src-tauri/src/lib.rs:236-245 | returns exactly count values, the i-th from slot (cursor + 2048 - count + i) mod 2048; for count at most 2048 these are the last count pushes (zero-padded); count beyond cursor + 2048 is excluded as the usize underflow |
| SampleRing.SampleBuffer.LatestSlotHolds | soundscapes-app/src-tauri/src/lib.rs:238-243 | the slot read for position i holds the i-th of the latest values, by the ring invariant and modular arithmetic |
| SampleRing.SampleBuffer.Clear | soundscapes-app/src-tauri/src/lib.rs:247-252 | afterwards the cursor is 0, the history empty and every slot 0 |
| LayerMachine.Started | soundscapes-app/src-tauri/src/lib.rs:601-613 | a new layer plays A, is not paused, has no pause left, and its loop count lies in the repeat range |
| LayerMachine.SatDec | soundscapes-app/src-tauri/src/lib.rs:732 | the loop count decrements by one and saturates at 0 |
| LayerMachine.Queue | soundscapes-app/src-tauri/src/lib.rs:718-728 | queueing a side flags it as current whether or not its file decodes; the file is appended exactly when it decodes, at a freshly computed layer gain, and nothing else about the layer changes |
| LayerMachine.Step | soundscapes-app/src-tauri/src/lib.rs:688-779 | a busy sink leaves the layer untouched; A finishing switches to B with loops unchanged; B finishing decrements loops and then plays A, pauses for draw times 100 ticks, or redraws loops and plays A; a paused layer counts down and resumes on A with a redrawn count; an appended file is the other side at a fresh gain; pauses start only on a positive draw; the phase invariant is kept |
| LayerMachine.AppendsAlternate | soundscapes-app/src-tauri/src/lib.rs:715-777 | while every file decodes, the appended files alternate A, B, A, B from the current side, and the current side is the last file appended |
| LayerMachine.NeverPausesWithoutPauseRange | soundscapes-app/src-tauri/src/lib.rs:734-742 | a layer whose pause range is [0,0] never enters a pause over any run of ticks |
| LayerMachine.SingleLoopCycles | soundscapes-app/src-tauri/src/lib.rs:730-760 | with repeat range [1,1] and pause range [0,0] a layer never pauses and always has exactly one loop to go |
| LayerMachine.PauseCountsDown | soundscapes-app/src-tauri/src/lib.rs:691-694 | while pause time is left and the sink stays drained, the layer stays paused, appends nothing and loses one tick per idle tick |
| LayerMachine.PauseEndsOnTime | soundscapes-app/src-tauri/src/lib.rs:691-714 | a pause of n ticks ends on exactly the n-th drained tick, resuming on A with the drawn loop count and appending A if it decodes |
| AudioEngine.Ticked | soundscapes-app/src-tauri/src/lib.rs:685-690 | an idle tick keeps the registry's ids, leaves layers with busy sinks untouched and keeps every layer's phase invariant |
| AudioEngine.Emissions | soundscapes-app/src-tauri/src/lib.rs:686-781 | the files one idle tick appends come only from registered layers, and never from a layer whose sink is still busy |
| AudioEngine.StepAll | soundscapes-app/src-tauri/src/lib.rs:686-781 | the loop over the hash-map registry, in any visiting order, ends with every layer stepped exactly as Ticked says, and reports exactly the files the steps append, each once |
| AudioEngine.Refreshed | soundscapes-app/src-tauri/src/lib.rs:666-672 | recomputing sink volumes changes only each layer's gain; all gains are 0 when ambient or master is muted, and equal volume times bus gain without variation |
| AudioEngine.Engine.constructor | soundscapes-app/src-tauri/src/lib.rs:334-360 | the engine starts with no layers, the initial mixer values, no music sink and an empty sample ring |
| AudioEngine.Engine.Snapshot | soundscapes-app/src-tauri/src/lib.rs:402-451 | music is reported playing if and only if a track is loaded, unpaused and not drained; the reported volumes follow the music and ambient bus gain rules (0 under master mute); the active count plus the paused-or-drained layers is the number of layers, so it is 0 when all are paused or drained and the full count when none is |
| AudioEngine.Engine.PlayMusic | soundscapes-app/src-tauri/src/lib.rs:458-511 | the sample ring is cleared; a decoded track is loaded unpaused at the music gain, otherwise no track is loaded; ambient state is unchanged |
| AudioEngine.Engine.StopMusic | soundscapes-app/src-tauri/src/lib.rs:513-521 | no track is loaded afterwards |
| AudioEngine.Engine.PauseMusic | soundscapes-app/src-tauri/src/lib.rs:522-526 | a loaded track becomes paused; nothing else changes |
| AudioEngine.Engine.ResumeMusic | soundscapes-app/src-tauri/src/lib.rs:527-531 | a loaded track becomes unpaused; nothing else changes |
| AudioEngine.Engine.RefreshMusic | soundscapes-app/src-tauri/src/lib.rs:534-540 | the loaded track, if any, keeps its paused flag and takes the music gain rule's value; nothing else changes |
| AudioEngine.Engine.SetMusicVolume | soundscapes-app/src-tauri/src/lib.rs:532-542 | sets the music volume; the loaded track keeps its paused flag and takes the music gain rule's value; ambient layers are untouched |
| AudioEngine.Engine.SetMasterVolume | soundscapes-app/src-tauri/src/lib.rs:543-553 | sets the master volume and refreshes only the music sink, which keeps its paused flag; ambient layers keep their gains |
| AudioEngine.Engine.SetMusicMuted | soundscapes-app/src-tauri/src/lib.rs:554-564 | sets the music mute; the loaded track keeps its paused flag and takes the music gain rule's value, 0 when muted; ambient layers are untouched |
| AudioEngine.Engine.SetMasterMuted | soundscapes-app/src-tauri/src/lib.rs:565-575 | sets the master mute; the loaded track keeps its paused flag and takes the music gain rule's value, 0 when muted; ambient layers keep their gains |
| AudioEngine.Engine.PlayAmbient | soundscapes-app/src-tauri/src/lib.rs:577-619 | any existing layer with the id is stopped and removed; on success a started layer is inserted and A appended, on failure the id is absent; other ids are unchanged |
| AudioEngine.Engine.StopAmbient | soundscapes-app/src-tauri/src/lib.rs:620-624 | removes only the named id, stopping its sink when present |
| AudioEngine.PitchChanged | soundscapes-app/src-tauri/src/lib.rs:627 | a pitch change is one whose absolute difference exceeds 0.001; an unchanged pitch never counts as changed |
| AudioEngine.Engine.UpdateAmbientSettings | soundscapes-app/src-tauri/src/lib.rs:625-663 | a no-op for an absent id; otherwise replaces the settings keeping the A/B flag, loop count and pause state; a pitch change stops the sink and restarts the current file when it reopens, otherwise the gain is recomputed |
| AudioEngine.Engine.RefreshLayers | soundscapes-app/src-tauri/src/lib.rs:666-672 | the loop over all layers leaves the registry equal to Refreshed of the old one |
| AudioEngine.Engine.SetAmbientMasterVolume | soundscapes-app/src-tauri/src/lib.rs:664-673 | sets the ambient master volume and recomputes every layer's gain |
| AudioEngine.Engine.SetAmbientMuted | soundscapes-app/src-tauri/src/lib.rs:674-683 | sets the ambient mute and recomputes every layer's gain; muting makes every gain 0 |
| AudioEngine.Engine.Tick | soundscapes-app/src-tauri/src/lib.rs:685-781 | every layer takes one Step, in any order; the log grows by exactly the files the steps appended, each once; the engine invariant is kept |

## Left out

- Audio output is not modelled: `rodio` sinks, decoders, `File::open`, `speed` and the output
  stream are represented by the success and drained inputs and the `log`.
- Concurrency is not modelled: the thread, the mpsc channel and its 50 ms `recv_timeout`, `Arc`
  and `Mutex`, and the relaxed atomics of `FftSampleBuffer` are replaced by sequential calls.
  Closing the channel (loop exit) is not modelled.
- `SampleRing.SampleBuffer.Push`: the cursor is an unbounded `nat`. The source's `usize`
  `fetch_add` would wrap after 2^64 pushes, and since 2^64 is a multiple of 2048 the slot order
  would be unaffected.
- `SampleRing.SampleBuffer.GetLatest`: samples are `real`, not f32 bit patterns.
- The FFT, the Hann window and log-magnitude binning (lines 413-443) are floating-point numerics
  and are not modelled; they only consume `get_latest(1024)`.
- Track progress timing (`Instant`, `AudioProgress`) depends on the wall clock and is not
  modelled.
- `AnalyzingSource` is a forwarding wrapper around the source. Its only effect, one `push` per
  sample, is modelled by `Push`.
- These functions are file I/O and plumbing and are not modelled: folder scans, settings JSON
  read/write, `get_default_settings`, `get_output_devices`, and the `#[tauri::command]`
  wrappers other than the settings construction in `FromArgs`.
- `pan` is stored in the settings but has no effect on any sink.
- `LayerMachine.Step`: the pause countdown is exact in ticks. The f64 countdown in seconds can
  differ from it by one tick through rounding.
- `MixBus.AmbientGain`: computed in exact reals rather than f32.
