/** The player bar: the playback effect that binds a track's preview to the audio element
    and starts it only once the element can play, the `canplay` event, seeking, the
    volume/mute controls, the playlist toggle and the `m:ss` time display. */
module MusicPlayer {
  import opened Wrappers
  import opened Text
  import opened Seqs
  import opened Types

  // ---------------------------------------------------------------------------
  // The playback effect and the audio element
  // ---------------------------------------------------------------------------

  /** A `canplay` listener added by one run of the playback effect: the run's number and the
      `isPlaying` value that run captured. */
  datatype Listener = Listener(run: nat, intent: bool)

  /** The audio element: its source, whether that source can ever load (and so fire
      `canplay`), whether it is playing, its position, and its `canplay` listeners in the
      order they were added. */
  datatype Audio = Audio(src: string, loadable: bool, playing: bool, position: real, listeners: seq<Listener>)

  /** The element together with the effect's bookkeeping: the listener the last run's cleanup
      will remove, and how many runs there have been. */
  datatype Playback = Playback(audio: Audio, cleanup: Option<nat>, runs: nat)

  /** An `<audio>` element without a `src` attribute, before the effect has run. */
  const InitialPlayback := Playback(Audio("", false, false, 0.0, []), None, 0)

  /** Assigning `undefined` to `audio.src` stores the text "undefined", which names no media. */
  const UndefinedSrc := "undefined"

  /** `track && audio.src !== track.url`: there is a track and its url differs from the bound
      source. A missing url is `undefined`, which differs from every source text. */
  predicate BindsNewSource(src: string, track: Option<Song>) {
    track.Some? && (track.value.url.None? || src != track.value.url.value)
  }

  /** At most one `canplay` listener is registered, and it is the one the pending cleanup
      removes. */
  ghost predicate PlaybackInv(p: Playback) {
    match p.cleanup
    case None => p.audio.listeners == []
    case Some(run) => p.audio.listeners != [] && p.audio.listeners[0].run == run
                      && |p.audio.listeners| == 1 && run < p.runs
  }

  /** `removeEventListener('canplay', handler)` for the handler added by run `run`. */
  function RemoveListener(listeners: seq<Listener>, run: nat): seq<Listener> {
    Filter((l: Listener) => l.run != run, listeners)
  }

  /** React calls the previous run's cleanup before the effect runs again. */
  function RunCleanup(p: Playback): Playback {
    match p.cleanup
    case None => p
    case Some(run) => p.(audio := p.audio.(listeners := RemoveListener(p.audio.listeners, run)), cleanup := None)
  }

  /** One run of the playback effect for the `track` prop (None for `null`) and the
      `isPlaying` prop. A new source is assigned (which stops the element and rewinds it) and
      a listener capturing `isPlaying` waits for `canplay`; a track without a preview url
      binds "undefined", which never loads. With the same source the intent is applied at
      once with `play()` or `pause()`. */
  function RunEffect(p: Playback, track: Option<Song>, isPlaying: bool): Playback {
    var q := RunCleanup(p);
    var run := q.runs;
    var a := q.audio;
    if BindsNewSource(a.src, track) then
      var url := track.value.url;
      Playback(a.(src := if url.Some? then url.value else UndefinedSrc, loadable := url.Some?,
                  playing := false, position := 0.0,
                  listeners := a.listeners + [Listener(run, isPlaying)]),
               Some(run), run + 1)
    else
      Playback(a.(playing := isPlaying), None, run + 1)
  }

  predicate SomeListenerPlays(listeners: seq<Listener>) {
    exists i :: 0 <= i < |listeners| && listeners[i].intent
  }

  /** The `canplay` event, which only a loadable source fires: each listener whose captured
      intent was "playing" calls `play()`. Listeners stay registered after they fire. */
  function CanPlay(p: Playback): Playback {
    if p.audio.loadable && SomeListenerPlays(p.audio.listeners) then p.(audio := p.audio.(playing := true)) else p
  }

  /** `handleSeek`: writing `currentTime`. */
  function Seek(p: Playback, time: real): Playback {
    p.(audio := p.audio.(position := time))
  }

  lemma RemoveOnlyListener(l: Listener)
    ensures RemoveListener([l], l.run) == []
  {
    assert [l][1..] == [];
  }

  /** Every run of the effect leaves at most one `canplay` listener, the one its own cleanup
      will remove. */
  lemma EffectKeepsInvariant(p: Playback, track: Option<Song>, isPlaying: bool)
    requires PlaybackInv(p)
    ensures PlaybackInv(RunEffect(p, track, isPlaying))
  {
    if p.cleanup.Some? {
      RemoveOnlyListener(p.audio.listeners[0]);
      assert p.audio.listeners == [p.audio.listeners[0]];
    }
  }

  /** With a new source the effect binds it, leaves the element stopped, and registers one
      listener carrying this run's intent; an earlier run's listener is gone. */
  lemma EffectNewSource(p: Playback, song: Song, isPlaying: bool)
    requires PlaybackInv(p) && song.url.Some? && p.audio.src != song.url.value
    ensures var r := RunEffect(p, Some(song), isPlaying);
            r.audio.src == song.url.value && r.audio.loadable
            && !r.audio.playing && r.audio.position == 0.0
            && r.audio.listeners == [Listener(p.runs, isPlaying)]
  {
    if p.cleanup.Some? {
      RemoveOnlyListener(p.audio.listeners[0]);
      assert p.audio.listeners == [p.audio.listeners[0]];
    }
  }

  /** A track without a preview url binds "undefined" on every run, since `undefined` never
      equals the bound source: the element stops, a listener waits, and `canplay` never comes,
      so nothing plays; the next run binds it afresh with a new listener. */
  lemma {:induction false} EffectMissingPreview(p: Playback, song: Song, isPlaying: bool, nextPlaying: bool)
    requires PlaybackInv(p) && song.url.None?
    ensures var r := RunEffect(p, Some(song), isPlaying);
            r.audio.src == UndefinedSrc && !r.audio.loadable && !r.audio.playing
            && r.audio.listeners == [Listener(p.runs, isPlaying)]
            && !CanPlay(r).audio.playing
            && RunEffect(r, Some(song), nextPlaying).audio.listeners == [Listener(r.runs, nextPlaying)]
  {
    var r := RunEffect(p, Some(song), isPlaying);
    if p.cleanup.Some? {
      RemoveOnlyListener(p.audio.listeners[0]);
      assert p.audio.listeners == [p.audio.listeners[0]];
    }
    EffectKeepsInvariant(p, Some(song), isPlaying);
    RemoveOnlyListener(r.audio.listeners[0]);
  }

  /** With the same source (or no track) the source is not reassigned, the intent is applied
      directly, and no listener is left. */
  lemma EffectSameSource(p: Playback, track: Option<Song>, isPlaying: bool)
    requires PlaybackInv(p) && !BindsNewSource(p.audio.src, track)
    ensures var r := RunEffect(p, track, isPlaying);
            r.audio.src == p.audio.src && r.audio.playing == isPlaying
            && r.audio.position == p.audio.position && r.audio.listeners == []
  {
    if p.cleanup.Some? {
      RemoveOnlyListener(p.audio.listeners[0]);
      assert p.audio.listeners == [p.audio.listeners[0]];
    }
  }

  /** After any run, a `canplay` event starts playback exactly when that run bound a new,
      loadable source with the intent "playing", or the element was already playing; intents
      captured by earlier runs play no part. */
  lemma CanPlayHonoursLatestIntent(p: Playback, track: Option<Song>, isPlaying: bool)
    requires PlaybackInv(p)
    ensures var r := RunEffect(p, track, isPlaying);
            CanPlay(r).audio.playing
            == (r.audio.playing || (BindsNewSource(p.audio.src, track) && track.value.url.Some? && isPlaying))
    ensures CanPlay(RunEffect(p, track, isPlaying)).audio.src == RunEffect(p, track, isPlaying).audio.src
  {
    var r := RunEffect(p, track, isPlaying);
    if BindsNewSource(p.audio.src, track) && track.value.url.Some? {
      EffectNewSource(p, track.value, isPlaying);
      assert r.audio.listeners[0].intent == isPlaying;
    } else if BindsNewSource(p.audio.src, track) {
      EffectMissingPreview(p, track.value, isPlaying, isPlaying);
    } else {
      EffectSameSource(p, track, isPlaying);
    }
  }

  /** The race the effect guards against: a track is chosen with the intent to play, the
      user pauses before it can play, and the late `canplay` does not start it. */
  lemma PauseBeforeReadyWins(p: Playback, song: Song)
    requires PlaybackInv(p) && song.url.Some? && p.audio.src != song.url.value
    ensures var loading := RunEffect(p, Some(song), true);
            var paused := RunEffect(loading, Some(song), false);
            !CanPlay(paused).audio.playing && paused.audio.src == song.url.value
  {
    var loading := RunEffect(p, Some(song), true);
    EffectNewSource(p, song, true);
    EffectKeepsInvariant(p, Some(song), true);
    EffectSameSource(loading, Some(song), false);
  }

  /** Seeking moves only the position. */
  lemma SeekOnlyMoves(p: Playback, time: real)
    ensures Seek(p, time).audio.position == time
    ensures Seek(p, time).audio.(position := p.audio.position) == p.audio
    ensures Seek(p, time).cleanup == p.cleanup && Seek(p, time).runs == p.runs
  {
  }

  // ---------------------------------------------------------------------------
  // Volume and mute
  // ---------------------------------------------------------------------------

  /** The slider's value and the last non-zero value, restored on unmute. */
  datatype Volume = Volume(level: real, last: real)

  const InitialVolume := Volume(1.0, 1.0)

  /** The slider keeps the level in [0, 1]; the remembered level is always positive. */
  predicate VolumeInv(v: Volume) {
    0.0 <= v.level <= 1.0 && 0.0 < v.last <= 1.0
  }

  /** `handleVolumeChange`: take the slider's value, and remember it when it is positive. */
  function ChangeVolume(v: Volume, value: real): Volume {
    Volume(value, if value > 0.0 then value else v.last)
  }

  /** `toggleMute`. */
  function ToggleMute(v: Volume): Volume {
    if v.level > 0.0 then Volume(0.0, v.level)
    else Volume(if v.last > 0.0 then v.last else 1.0, v.last)
  }

  /** Both volume operations keep the invariant, from the initial state on. */
  lemma VolumeInvPreserved(v: Volume, value: real)
    requires VolumeInv(v) && 0.0 <= value <= 1.0
    ensures VolumeInv(InitialVolume)
    ensures VolumeInv(ChangeVolume(v, value))
    ensures VolumeInv(ToggleMute(v))
  {
  }

  /** Muting a positive level and unmuting restores that level; unmuting always restores the
      remembered level, so the fallback to full volume is never taken. */
  lemma MuteUnmuteRestores(v: Volume)
    requires VolumeInv(v)
    ensures v.level > 0.0 ==> ToggleMute(v).level == 0.0 && ToggleMute(ToggleMute(v)).level == v.level
    ensures v.level == 0.0 ==> ToggleMute(v).level == v.last && ToggleMute(v).level > 0.0
  {
  }

  // ---------------------------------------------------------------------------
  // Time display
  // ---------------------------------------------------------------------------

  /** Truncation toward zero. */
  function Trunc(x: real): int {
    if x >= 0.0 then x.Floor else -((-x).Floor)
  }

  /** JavaScript's `%` on numbers: `x - m * trunc(x / m)`. */
  function JsRealRem(x: real, m: real): real
    requires m > 0.0
  {
    x - m * (Trunc(x / m) as real)
  }

  /** `formatTime`: None stands for NaN; NaN and 0 show "0:00". */
  function FormatTime(time: Option<real>): string {
    match time
    case None => "0:00"
    case Some(t) =>
      if t == 0.0 then "0:00"
      else MinutesSeconds((t / 60.0).Floor, JsRealRem(t, 60.0).Floor)
  }

  lemma FloorShift(k: int, x: real)
    ensures (k as real + x).Floor == k + x.Floor
  {
  }

  /** For a time t >= 0 (zero included) the display is whole minutes and the seconds left over,
      in 0..59 and zero-padded to two digits; together they give the whole seconds of t. */
  lemma FormatTimeParts(t: real)
    requires t >= 0.0
    ensures var minutes := (t / 60.0).Floor;
            var seconds := t.Floor - 60 * minutes;
            minutes >= 0 && 0 <= seconds < 60
            && FormatTime(Some(t))
               == NatToDecimal(minutes) + ":" + [DigitChar(seconds / 10), DigitChar(seconds % 10)]
  {
    var minutes := (t / 60.0).Floor;
    assert minutes as real <= t / 60.0 < minutes as real + 1.0;
    var rest := t - 60.0 * minutes as real;
    assert 0.0 <= rest < 60.0;
    FloorShift(60 * minutes, rest);
    assert t == (60 * minutes) as real + rest;
    var seconds := t.Floor - 60 * minutes;
    assert seconds == rest.Floor;
    MinutesSecondsDigits(minutes, seconds);
    if t != 0.0 {
      assert JsRealRem(t, 60.0) == rest;
    }
  }

  lemma FormatTimeExamples()
    ensures FormatTime(None) == "0:00"
    ensures FormatTime(Some(0.0)) == "0:00"
    ensures FormatTime(Some(65.4)) == "1:05"
  {
    FormatTimeParts(65.4);
  }

  // ---------------------------------------------------------------------------
  // The component's state
  // ---------------------------------------------------------------------------

  class Player {
    var src: string
    var loadable: bool
    var playing: bool
    var position: real
    var listeners: seq<Listener>
    var cleanup: Option<nat>
    var runs: nat
    var progress: real
    var duration: Option<real>
    var playlistVisible: bool
    var volume: real
    var lastVolume: real

    function State(): Playback
      reads this
    {
      Playback(Audio(src, loadable, playing, position, listeners), cleanup, runs)
    }

    function Volumes(): Volume
      reads this
    {
      Volume(volume, lastVolume)
    }

    ghost predicate Valid()
      reads this
    {
      PlaybackInv(State()) && VolumeInv(Volumes())
    }

    constructor ()
      ensures Valid()
      ensures State() == InitialPlayback && Volumes() == InitialVolume
      ensures progress == 0.0 && duration == Some(0.0) && !playlistVisible
    {
      src, loadable, playing, position, listeners, cleanup, runs := "", false, false, 0.0, [], None, 0;
      progress, duration, playlistVisible := 0.0, Some(0.0), false;
      volume, lastVolume := 1.0, 1.0;
    }

    /** The playback effect, run when the track or `isPlaying` changes. */
    method Effect(track: Option<Song>, isPlaying: bool)
      requires Valid()
      modifies this
      ensures Valid()
      ensures State() == RunEffect(old(State()), track, isPlaying)
      ensures Volumes() == old(Volumes())
      ensures progress == old(progress) && duration == old(duration)
      ensures playlistVisible == old(playlistVisible)
    {
      EffectKeepsInvariant(State(), track, isPlaying);
      ghost var next := RunEffect(State(), track, isPlaying);
      if cleanup.Some? {
        listeners := RemoveListener(listeners, cleanup.value);
        cleanup := None;
      }
      var run := runs;
      runs := runs + 1;
      if BindsNewSource(src, track) {
        if track.value.url.Some? {
          src, loadable := track.value.url.value, true;
        } else {
          src, loadable := UndefinedSrc, false;
        }
        playing := false;
        position := 0.0;
        listeners := listeners + [Listener(run, isPlaying)];
        cleanup := Some(run);
      } else {
        playing := isPlaying;
      }
      assert State() == next;
    }

    /** The element fires `canplay`. */
    method OnCanPlay()
      requires Valid()
      modifies this
      ensures Valid()
      ensures State() == CanPlay(old(State()))
      ensures Volumes() == old(Volumes())
      ensures progress == old(progress) && duration == old(duration)
      ensures playlistVisible == old(playlistVisible)
    {
      if loadable && exists i :: 0 <= i < |listeners| && listeners[i].intent {
        playing := true;
      }
    }

    /** `handleSeek`. */
    method HandleSeek(time: real)
      requires Valid()
      modifies this
      ensures Valid()
      ensures State() == Seek(old(State()), time)
      ensures Volumes() == old(Volumes())
      ensures progress == old(progress) && duration == old(duration)
      ensures playlistVisible == old(playlistVisible)
    {
      position := time;
    }

    /** `handleTimeUpdate`: the shown progress follows the element's position. */
    method HandleTimeUpdate()
      requires Valid()
      modifies this`progress
      ensures Valid()
      ensures progress == position
    {
      progress := position;
    }

    /** `handleLoadedMetadata`: the element reports its duration (None for NaN). */
    method HandleLoadedMetadata(elementDuration: Option<real>)
      requires Valid()
      modifies this`duration
      ensures Valid()
      ensures duration == elementDuration
    {
      duration := elementDuration;
    }

    /** `handleVolumeChange`; the slider's range is [0, 1]. */
    method HandleVolumeChange(value: real)
      requires Valid() && 0.0 <= value <= 1.0
      modifies this`volume, this`lastVolume
      ensures Valid()
      ensures Volumes() == ChangeVolume(old(Volumes()), value)
    {
      volume := value;
      if value > 0.0 {
        lastVolume := value;
      }
    }

    /** `toggleMute`. */
    method HandleToggleMute()
      requires Valid()
      modifies this`volume, this`lastVolume
      ensures Valid()
      ensures Volumes() == ToggleMute(old(Volumes()))
    {
      if volume > 0.0 {
        lastVolume := volume;
        volume := 0.0;
      } else {
        volume := if lastVolume > 0.0 then lastVolume else 1.0;
      }
    }

    /** `togglePlaylist`. */
    method TogglePlaylist()
      requires Valid()
      modifies this`playlistVisible
      ensures Valid()
      ensures playlistVisible == !old(playlistVisible)
    {
      playlistVisible := !playlistVisible;
    }
  }

  /** The race played out on a player: a new track is chosen to play, the user pauses before
      it is ready, the element then reports `canplay`, and the player stays paused. */
  method PauseWhileLoading(player: Player, song: Song)
    requires player.Valid() && song.url.Some? && player.src != song.url.value
    modifies player
    ensures player.Valid() && player.src == song.url.value && !player.playing
  {
    player.Effect(Some(song), true);
    player.Effect(Some(song), false);
    player.OnCanPlay();
  }
}
