/**
 * The audio thread's command loop, one command or one idle tick at a time:
 * the registry of ambient layers keyed by sound id, the mixer variables, the
 * music sink, and the FFT sample ring that a new track clears.
 *
 * Sinks, files and the random number generator are outside the model.  Each
 * operation takes as inputs whether a file opened and decoded and what the
 * random draws returned; the files appended to and the sinks stopped on
 * ambient layers are recorded, in order, in `log`.
 */
module AudioEngine {
  import opened Wrappers
  import opened Settings
  import opened MixBus
  import opened SampleRing
  import opened LayerMachine

  /** What the engine does to an ambient layer's sink. */
  datatype Event =
    | Appended(id: string, side: Side)  // set the volume, then append file A or B
    | Halted(id: string)                // stop the sink

  /** The music sink, when a track is loaded. */
  datatype MusicSink = MusicSink(paused: bool, gain: real)

  /** What the audio thread publishes for the user interface before each wait. */
  datatype PlaybackSnapshot = PlaybackSnapshot(
    musicPlaying: bool, musicVolume: real,
    ambientCount: nat, ambientVolume: real,
    masterVolume: real, isMuted: bool)

  /** Pitch differences at most this large do not restart a layer's file. */
  const PitchTolerance: real := 0.001

  predicate PitchChanged(before: real, after: real): (r: bool)
    // the absolute difference exceeds the tolerance
    ensures r <==> (if before <= after then after - before else before - after) > PitchTolerance
    ensures before == after ==> !r
  {
    before - after > PitchTolerance || after - before > PitchTolerance
  }

  /** A tick input is available for every layer, with draws the generator can return. */
  predicate TickReady(ls: map<string, Layer>, inputs: map<string, TickInput>) {
    forall id :: id in ls ==> id in inputs && DrawsOk(ls[id], inputs[id])
  }

  /** Every layer after one idle tick. */
  function Ticked(ls: map<string, Layer>, inputs: map<string, TickInput>, bus: Bus): (r: map<string, Layer>)
    requires TickReady(ls, inputs)
    ensures r.Keys == ls.Keys
    ensures forall id :: id in ls && !inputs[id].sinkEmpty ==> r[id] == ls[id]
    ensures (forall id :: id in ls ==> PhaseOk(ls[id])) ==> forall id :: id in r ==> PhaseOk(r[id])
  {
    map id | id in ls :: Step(ls[id], inputs[id], bus).layer
  }

  /** The file each layer appends in one idle tick, for the layers that append one. */
  ghost function Emissions(ls: map<string, Layer>, inputs: map<string, TickInput>, bus: Bus): (m: map<string, Side>)
    requires TickReady(ls, inputs)
    ensures m.Keys <= ls.Keys
    ensures forall id :: id in ls && !inputs[id].sinkEmpty ==> id !in m
  {
    map id | id in ls && Step(ls[id], inputs[id], bus).appended.Some? :: Step(ls[id], inputs[id], bus).appended.value
  }

  /** A random draw for every layer whose gain is recomputed. */
  predicate JittersReady(ls: map<string, Layer>, jitters: map<string, real>) {
    forall id :: id in ls ==> id in jitters && 0.0 <= jitters[id] < 1.0
  }

  /** Every layer with its sink volume recomputed for the bus `bus`. */
  function Refreshed(ls: map<string, Layer>, bus: Bus, jitters: map<string, real>): (r: map<string, Layer>)
    requires JittersReady(ls, jitters)
    ensures r.Keys == ls.Keys
    // only the gain changes
    ensures forall id :: id in ls ==> r[id].(gain := ls[id].gain) == ls[id]
    ensures bus.ambientMuted || bus.masterMuted ==> forall id :: id in r ==> r[id].gain == 0.0
    ensures forall id :: id in ls && ls[id].settings.volumeVariation <= 0.0 ==>
              r[id].gain == ls[id].settings.volume * AmbientBusGain(bus)
  {
    map id | id in ls :: ls[id].(gain := AmbientGain(ls[id].settings, bus, jitters[id]))
  }

  /** No event occurs twice: each event is absent from the events before it. */
  predicate Distinct(s: seq<Event>)
    decreases |s|
  {
    |s| == 0 || (s[|s| - 1] !in s[..|s| - 1] && Distinct(s[..|s| - 1]))
  }

  /** Distinct events are pairwise different. */
  lemma {:induction false} DistinctPairwise(s: seq<Event>, i: nat, j: nat)
    requires Distinct(s) && i < j < |s|
    ensures s[i] != s[j]
    decreases |s|
  {
    if j < |s| - 1 {
      DistinctPairwise(s[..|s| - 1], i, j);
    } else {
      assert s[i] in s[..|s| - 1];
    }
  }

  /**
   * What the idle-tick loop has established once the layers outside `todo`
   * have been stepped: those layers hold their stepped value, the others
   * are untouched, and exactly their appended files are in `emitted`, each
   * once.
   */
  ghost predicate Collected(ls: map<string, Layer>, inputs: map<string, TickInput>, bus: Bus,
                            todo: set<string>, next: map<string, Layer>, emitted: seq<Event>)
    requires TickReady(ls, inputs)
  {
    var target := Ticked(ls, inputs, bus);
    var emissions := Emissions(ls, inputs, bus);
    && todo <= ls.Keys && next.Keys == ls.Keys
    && (forall id :: id in todo ==> next[id] == ls[id])
    && (forall id :: id in ls && id !in todo ==> next[id] == target[id])
    && (forall e :: e in emitted ==>
          e.Appended? && e.id !in todo && e.id in emissions && emissions[e.id] == e.side)
    && (forall id :: id in emissions && id !in todo ==> Appended(id, emissions[id]) in emitted)
    && Distinct(emitted)
  }

  /** Stepping one more layer keeps `Collected`. */
  lemma CollectOne(ls: map<string, Layer>, inputs: map<string, TickInput>, bus: Bus,
                   todo: set<string>, next: map<string, Layer>, emitted: seq<Event>, id: string)
    requires TickReady(ls, inputs)
    requires Collected(ls, inputs, bus, todo, next, emitted) && id in todo
    ensures var s := Step(next[id], inputs[id], bus);
            Collected(ls, inputs, bus, todo - {id}, next[id := s.layer],
                      if s.appended.Some? then emitted + [Appended(id, s.appended.value)] else emitted)
  {
    var s := Step(next[id], inputs[id], bus);
    if s.appended.Some? {
      var e := Appended(id, s.appended.value);
      assert (emitted + [e])[..|emitted|] == emitted;
    }
  }

  /**
   * The idle-tick loop over the registry: one step per layer, visiting the
   * layers in an unspecified order (the registry is a hash map), collecting
   * the appended files.  Exactly the files the steps append are reported,
   * each once.
   */
  method StepAll(ls: map<string, Layer>, inputs: map<string, TickInput>, bus: Bus)
    returns (next: map<string, Layer>, emitted: seq<Event>)
    requires TickReady(ls, inputs)
    ensures next == Ticked(ls, inputs, bus)
    ensures forall e :: e in emitted ==>
              e.Appended? && e.id in Emissions(ls, inputs, bus) && Emissions(ls, inputs, bus)[e.id] == e.side
    ensures forall id :: id in Emissions(ls, inputs, bus) ==> Appended(id, Emissions(ls, inputs, bus)[id]) in emitted
    ensures Distinct(emitted)
  {
    next := ls;
    emitted := [];
    var todo := ls.Keys;
    while todo != {}
      invariant Collected(ls, inputs, bus, todo, next, emitted)
      decreases todo
    {
      var id :| id in todo;
      var s := Step(next[id], inputs[id], bus);
      CollectOne(ls, inputs, bus, todo, next, emitted, id);
      next := next[id := s.layer];
      if s.appended.Some? {
        emitted := emitted + [Appended(id, s.appended.value)];
      }
      todo := todo - {id};
    }
  }

  class Engine {
    var layers: map<string, Layer>
    var bus: Bus
    var music: Option<MusicSink>
    var log: seq<Event>
    const samples: SampleBuffer

    /**
     * The sample ring is consistent, the music sink always plays at the
     * music gain rule's value, and every layer is in a consistent phase.
     */
    ghost predicate Valid()
      reads this, samples, samples.slots
    {
      && samples.Valid()
      && (music.Some? ==> music.value.gain == MusicGain(bus))
      && (forall id :: id in layers ==> PhaseOk(layers[id]))
    }

    constructor ()
      ensures Valid() && fresh(samples) && fresh(samples.slots)
      ensures layers == map[] && bus == InitialBus() && music == None && log == []
      ensures samples.Pushed == []
    {
      layers := map[];
      bus := InitialBus();
      music := None;
      log := [];
      samples := new SampleBuffer();
    }

    // ---- Queries ----

    /**
     * The playback state published before each wait.  `musicDrained` says
     * whether the music sink has played everything; `drained` holds the ids
     * of the layers whose sinks have.
     */
    function Snapshot(musicDrained: bool, drained: set<string>): (s: PlaybackSnapshot)
      reads this
      ensures s.musicPlaying <==> music.Some? && !music.value.paused && !musicDrained
      ensures s.isMuted == bus.masterMuted && s.masterVolume == bus.master
      ensures bus.masterMuted ==> s.musicVolume == 0.0 && s.ambientVolume == 0.0
      ensures s.musicVolume == MusicGain(bus) && s.ambientVolume == AmbientBusGain(bus)
      ensures s.ambientCount <= |layers|
      ensures (forall id :: id in layers ==> layers[id].isPaused || id in drained) ==> s.ambientCount == 0
      ensures (forall id :: id in layers ==> !layers[id].isPaused && id !in drained) ==> s.ambientCount == |layers|
      // the active count and the paused-or-drained layers together make up the registry
      ensures s.ambientCount + |set id | id in layers && (layers[id].isPaused || id in drained)| == |layers|
    {
      var active := set id | id in layers && !layers[id].isPaused && id !in drained;
      var idle := set id | id in layers && (layers[id].isPaused || id in drained);
      assert idle == layers.Keys - active;
      assert layers.Keys == active + idle;
      assert |layers.Keys| == |active| + |idle|;
      PlaybackSnapshot(
        music.Some? && !music.value.paused && !musicDrained,
        if bus.musicMuted || bus.masterMuted then 0.0 else bus.music * bus.master,
        |active|,
        if bus.ambientMuted || bus.masterMuted then 0.0 else bus.ambientMaster * bus.master,
        bus.master,
        bus.masterMuted)
    }

    // ---- Music commands ----

    /**
     * `Play(path)`: stops the current track, clears the sample ring, and
     * loads the new track when it opens and decodes (`decoded`).
     */
    method PlayMusic(decoded: bool)
      requires Valid()
      modifies this, samples, samples.slots
      ensures Valid()
      ensures music == if decoded then Some(MusicSink(false, MusicGain(bus))) else None
      ensures samples.Pushed == [] && samples.writePos == 0
      ensures bus == old(bus) && layers == old(layers) && log == old(log)
    {
      music := None;
      samples.Clear();
      if decoded {
        music := Some(MusicSink(false, MusicGain(bus)));
      }
    }

    method StopMusic()
      requires Valid()
      modifies this
      ensures Valid()
      ensures music == None
      ensures bus == old(bus) && layers == old(layers) && log == old(log)
    {
      music := None;
    }

    method PauseMusic()
      requires Valid()
      modifies this
      ensures Valid()
      ensures music == if old(music).Some? then Some(old(music).value.(paused := true)) else None
      ensures bus == old(bus) && layers == old(layers) && log == old(log)
    {
      if music.Some? {
        music := Some(music.value.(paused := true));
      }
    }

    method ResumeMusic()
      requires Valid()
      modifies this
      ensures Valid()
      ensures music == if old(music).Some? then Some(old(music).value.(paused := false)) else None
      ensures bus == old(bus) && layers == old(layers) && log == old(log)
    {
      if music.Some? {
        music := Some(music.value.(paused := false));
      }
    }

    /** Re-applies the music gain rule to the loaded track, if any. */
    method RefreshMusic()
      modifies this
      ensures music == if old(music).Some? then Some(old(music).value.(gain := MusicGain(bus))) else None
      ensures bus == old(bus) && layers == old(layers) && log == old(log)
    {
      if music.Some? {
        music := Some(music.value.(gain := MusicGain(bus)));
      }
    }

    /** `SetVolume`: the music volume; ambient layers are not touched. */
    method SetMusicVolume(volume: real)
      requires Valid()
      modifies this
      ensures Valid()
      ensures bus == old(bus).(music := volume)
      // the loaded track, if any, keeps its paused flag and takes the new music gain
      ensures music == if old(music).Some? then Some(old(music).value.(gain := MusicGain(bus))) else None
      ensures layers == old(layers) && log == old(log)
    {
      bus := bus.(music := volume);
      RefreshMusic();
    }

    /**
     * `SetMasterVolume`: only the music sink is updated; the ambient layers
     * keep the gain they had until their next volume change.
     */
    method SetMasterVolume(volume: real)
      requires Valid()
      modifies this
      ensures Valid()
      ensures bus == old(bus).(master := volume)
      // the loaded track, if any, keeps its paused flag and takes the new music gain
      ensures music == if old(music).Some? then Some(old(music).value.(gain := MusicGain(bus))) else None
      ensures layers == old(layers) && log == old(log)
    {
      bus := bus.(master := volume);
      RefreshMusic();
    }

    /** `SetMuted`: mutes or unmutes the music bus. */
    method SetMusicMuted(muted: bool)
      requires Valid()
      modifies this
      ensures Valid()
      ensures bus == old(bus).(musicMuted := muted)
      ensures muted ==> music.None? || music.value.gain == 0.0
      // the loaded track, if any, keeps its paused flag and takes the new music gain
      ensures music == if old(music).Some? then Some(old(music).value.(gain := MusicGain(bus))) else None
      ensures layers == old(layers) && log == old(log)
    {
      bus := bus.(musicMuted := muted);
      RefreshMusic();
    }

    /**
     * `SetMasterMuted`: silences the music sink; like `SetMasterVolume` it
     * leaves the ambient layers' sinks at their current gain.
     */
    method SetMasterMuted(muted: bool)
      requires Valid()
      modifies this
      ensures Valid()
      ensures bus == old(bus).(masterMuted := muted)
      ensures muted ==> music.None? || music.value.gain == 0.0
      // the loaded track, if any, keeps its paused flag and takes the new music gain
      ensures music == if old(music).Some? then Some(old(music).value.(gain := MusicGain(bus))) else None
      ensures layers == old(layers) && log == old(log)
    {
      bus := bus.(masterMuted := muted);
      RefreshMusic();
    }

    // ---- Ambient commands ----

    /**
     * `PlayAmbient`: drops any layer with this id, then starts a new one on
     * file A when the file opens and decodes (`decoded`), with a loop count
     * drawn from the repeat range.  Other ids are untouched.
     */
    method PlayAmbient(id: string, fileA: string, fileB: string, settings: AmbientSettings,
                       decoded: bool, loopsDraw: nat, jitter: real)
      requires Valid()
      requires decoded ==> InRange(loopsDraw, settings.repeatMin, settings.repeatMax)
      requires 0.0 <= jitter < 1.0
      modifies this
      ensures Valid()
      ensures decoded ==>
                layers == old(layers)[id := Started(fileA, fileB, settings, loopsDraw,
                                                    AmbientGain(settings, bus, jitter))]
      ensures !decoded ==> layers == old(layers) - {id}
      ensures log == old(log) + (if id in old(layers) then [Halted(id)] else [])
                              + (if decoded then [Appended(id, A)] else [])
      ensures bus == old(bus) && music == old(music)
    {
      if id in layers {
        layers := layers - {id};
        log := log + [Halted(id)];
      }
      if decoded {
        var gain := AmbientGain(settings, bus, jitter);
        log := log + [Appended(id, A)];
        layers := layers[id := Started(fileA, fileB, settings, loopsDraw, gain)];
      }
    }

    /** `StopAmbient`: removes the layer with this id, and only it. */
    method StopAmbient(id: string)
      requires Valid()
      modifies this
      ensures Valid()
      ensures layers == old(layers) - {id}
      ensures log == old(log) + if id in old(layers) then [Halted(id)] else []
      ensures bus == old(bus) && music == old(music)
    {
      if id in layers {
        layers := layers - {id};
        log := log + [Halted(id)];
      }
    }

    /**
     * `UpdateAmbientSettings`: a no-op for an absent id.  Otherwise the
     * settings are replaced and the A/B flag, loop count and pause state
     * are kept.  When the pitch changed the sink is stopped and the current
     * file restarted on a new sink (`reopened`: the sink was created and
     * the file opened and decoded); otherwise only the gain is recomputed.
     */
    method UpdateAmbientSettings(id: string, settings: AmbientSettings, reopened: bool, jitter: real)
      requires Valid()
      requires 0.0 <= jitter < 1.0
      modifies this
      ensures Valid()
      ensures id !in old(layers) ==> layers == old(layers) && log == old(log)
      ensures id in old(layers) ==>
                var was := old(layers)[id];
                var changed := PitchChanged(was.settings.pitch, settings.pitch);
                var gain := if !changed || reopened then AmbientGain(settings, bus, jitter) else was.gain;
                && layers == old(layers)[id := was.(settings := settings, gain := gain)]
                && log == old(log) + (if changed then [Halted(id)] else [])
                                   + (if changed && reopened then [Appended(id, Current(was))] else [])
      ensures bus == old(bus) && music == old(music)
    {
      if id in layers {
        var state := layers[id];
        var changed := PitchChanged(state.settings.pitch, settings.pitch);
        state := state.(settings := settings);
        if changed {
          log := log + [Halted(id)];
          if reopened {
            state := state.(gain := AmbientGain(state.settings, bus, jitter));
            log := log + [Appended(id, Current(state))];
          }
        } else {
          state := state.(gain := AmbientGain(state.settings, bus, jitter));
        }
        layers := layers[id := state];
      }
    }

    /** Recomputes every layer's sink volume, one layer at a time. */
    method RefreshLayers(jitters: map<string, real>)
      requires JittersReady(layers, jitters)
      modifies this
      ensures layers == Refreshed(old(layers), bus, jitters)
      ensures bus == old(bus) && music == old(music) && log == old(log)
    {
      var ls := layers;
      var todo := ls.Keys;
      while todo != {}
        invariant todo <= layers.Keys && ls.Keys == layers.Keys
        invariant forall id :: id in todo ==> ls[id] == layers[id]
        invariant forall id :: id in layers && id !in todo ==>
                    ls[id] == layers[id].(gain := AmbientGain(layers[id].settings, bus, jitters[id]))
        decreases todo
      {
        var id :| id in todo;
        var l := ls[id];
        ls := ls[id := l.(gain := AmbientGain(l.settings, bus, jitters[id]))];
        todo := todo - {id};
      }
      layers := ls;
    }

    /** `SetAmbientMasterVolume`: every layer's gain is recomputed. */
    method SetAmbientMasterVolume(volume: real, jitters: map<string, real>)
      requires Valid()
      requires JittersReady(layers, jitters)
      modifies this
      ensures Valid()
      ensures bus == old(bus).(ambientMaster := volume)
      ensures layers == Refreshed(old(layers), bus, jitters)
      ensures music == old(music) && log == old(log)
    {
      bus := bus.(ambientMaster := volume);
      RefreshLayers(jitters);
    }

    /** `SetAmbientMuted`: every layer's gain is recomputed; muting silences them all. */
    method SetAmbientMuted(muted: bool, jitters: map<string, real>)
      requires Valid()
      requires JittersReady(layers, jitters)
      modifies this
      ensures Valid()
      ensures bus == old(bus).(ambientMuted := muted)
      ensures layers == Refreshed(old(layers), bus, jitters)
      ensures muted ==> forall id :: id in layers ==> layers[id].gain == 0.0
      ensures music == old(music) && log == old(log)
    {
      bus := bus.(ambientMuted := muted);
      RefreshLayers(jitters);
    }

    // ---- Idle tick ----

    /**
     * An idle tick: every layer takes one step of its A/B state machine.
     * The new log entries are exactly the files the steps appended, one per
     * appending layer, in some order.
     */
    method Tick(inputs: map<string, TickInput>)
      requires Valid()
      requires TickReady(layers, inputs)
      modifies this
      ensures Valid()
      ensures layers == Ticked(old(layers), inputs, bus)
      ensures |log| >= |old(log)| && log[..|old(log)|] == old(log)
      ensures forall e :: e in log[|old(log)|..] ==>
                && e.Appended? && e.id in Emissions(old(layers), inputs, bus)
                && Emissions(old(layers), inputs, bus)[e.id] == e.side
      ensures forall id :: id in Emissions(old(layers), inputs, bus) ==>
                Appended(id, Emissions(old(layers), inputs, bus)[id]) in log[|old(log)|..]
      ensures Distinct(log[|old(log)|..])
      ensures bus == old(bus) && music == old(music)
    {
      var next, emitted := StepAll(layers, inputs, bus);
      layers := next;
      log := log + emitted;
      assert log[|old(log)|..] == emitted;
    }
  }
}
