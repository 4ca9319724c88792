/** The playback state machine of `SoundClipWaveBase`
    (engines/ags/engine/media/audio/sound_clip.cpp) over the abstract mixer of AudioMixer.
    The audio stream is reduced to what the clip asks of it. */
module SoundClip {
  import opened AudioMixer

  /** `SoundClipState`. */
  datatype ClipState = Initial | Playing | Paused | Stopped

  /** The clip's stream: whether it is an `Audio::SeekableAudioStream` (what the clip's
      `dynamic_cast`s test), whether it was wrapped for looping, its length and the
      position it was last sought to, both in milliseconds. */
  datatype Stream = Stream(seekable: bool, looping: bool, lengthMs: int, positionMs: int)

  /** The constructor's wrapping: a repeating clip over a seekable stream plays it through
      an `Audio::LoopingAudioStream`, which is not itself seekable. */
  function WrapForRepeat(s: Stream, repeat: bool): (t: Stream)
    ensures repeat && s.seekable ==> t.looping && !t.seekable && t.lengthMs == s.lengthMs
    ensures !(repeat && s.seekable) ==> t == s
  {
    if repeat && s.seekable then s.(seekable := false, looping := true) else s
  }

  /** `seek(offset)` on the stream: moves a seekable stream, leaves any other as it was. */
  function SeekStream(s: Stream, offset: int): (t: Stream)
    ensures t.seekable == s.seekable && t.looping == s.looping && t.lengthMs == s.lengthMs
    ensures s.seekable ==> t.positionMs == offset
    ensures !s.seekable ==> t == s
  {
    if s.seekable then s.(positionMs := offset) else s
  }

  /** The state `poll()` leaves, given whether the mixer still has the clip's channel. */
  function PollState(s: ClipState, playing: bool): (r: ClipState)
    ensures r == Playing <==> playing
    ensures !playing && s == Playing ==> r == Stopped
    ensures !playing && s != Playing ==> r == s
  {
    if playing then Playing else if s == Playing then Stopped else s
  }

  /** Polling twice in a row, with the mixer unchanged, is polling once. */
  lemma PollIdempotent(s: ClipState, playing: bool)
    ensures PollState(PollState(s, playing), playing) == PollState(s, playing)
  {
  }

  /** The `SOUNDCLIP` constructor's speed and priority. */
  const DefaultSpeed: int := 1000
  const DefaultPriority: int := 50

  class SoundClipWaveBase {
    const mixer: Mixer
    const handle: SoundHandle
    var stream: Stream
    var state: ClipState
    var waitingToPlay: bool
    var soundType: SoundType
    var vol: int
    var speed: int
    var repeat: bool
    var priority: int
    var panningAsPercentage: int
    var hasSourceClip: bool
    var sourceClipType: int
    var xSource: int
    var ySource: int
    var maximumPossibleDistanceAway: int
    var muted: bool
    var volAsPercentage: int
    var volModifier: int
    var directionalVolModifier: int

    /** A deferred start is pending only while the clip has no sound type yet. */
    predicate Valid()
      reads this
    {
      waitingToPlay ==> soundType == Plain
    }

    /** `SoundClipWaveBase(stream, volume, repeat)`, after the `SOUNDCLIP()` defaults. */
    constructor (mixer: Mixer, handle: SoundHandle, stream: Stream, volume: int, repeat: bool)
      requires !mixer.IsSoundHandleActive(handle)
      ensures Valid() && !IsPlaying()
      ensures this.mixer == mixer && this.handle == handle
      ensures this.stream == WrapForRepeat(stream, repeat)
      ensures state == Initial && !waitingToPlay && soundType == Plain
      ensures vol == volume && this.repeat == repeat
      ensures speed == DefaultSpeed && priority == DefaultPriority
      ensures panningAsPercentage == 0 && !hasSourceClip && sourceClipType == 0
      ensures xSource == -1 && ySource == -1 && maximumPossibleDistanceAway == 0
      ensures !muted && volAsPercentage == 0 && volModifier == 0 && directionalVolModifier == 0
    {
      this.panningAsPercentage := 0;
      this.hasSourceClip := false;
      this.sourceClipType := 0;
      this.speed := DefaultSpeed;
      this.priority := DefaultPriority;
      this.xSource := -1;
      this.ySource := -1;
      this.maximumPossibleDistanceAway := 0;
      this.muted := false;
      this.volAsPercentage := 0;
      this.vol := 0;
      this.volModifier := 0;
      this.repeat := false;
      this.directionalVolModifier := 0;
      this.soundType := Plain;
      this.waitingToPlay := false;
      this.state := Initial;
      this.stream := stream;
      this.mixer := mixer;
      this.handle := handle;
      new;
      this.repeat := repeat;
      this.vol := volume;
      if repeat && stream.seekable {
        this.stream := stream.(seekable := false, looping := true);
      }
    }

    /** `is_playing()`: the mixer still has a channel on the clip's handle. */
    predicate IsPlaying()
      reads this, mixer
    {
      mixer.IsSoundHandleActive(handle)
    }

    /** `poll()`. */
    method Poll()
      modifies this`state
      ensures state == PollState(old(state), IsPlaying())
    {
      var playing := IsPlaying();
      if playing {
        state := Playing;
      } else if state == Playing {
        state := Stopped;
      }
    }

    /** `play()`: starts the stream once the clip has a sound type, and otherwise leaves
        the start pending for `setType`. */
    method Play() returns (r: int)
      requires Valid()
      modifies this`waitingToPlay, mixer
      ensures r == 1 && Valid()
      ensures soundType != Plain ==>
                mixer.active == old(mixer.active) + {handle} &&
                mixer.paused == old(mixer.paused) - {handle} &&
                mixer.requests == old(mixer.requests) + [PlayRequest(soundType, handle, vol)] &&
                !waitingToPlay
      ensures soundType == Plain ==> waitingToPlay && unchanged(mixer)
    {
      if soundType != Plain {
        mixer.PlayStream(soundType, handle, vol);
      } else {
        waitingToPlay := true;
      }
      r := 1;
    }

    /** `setType(type)`: the source asserts the type is not plain. */
    method SetType(t: SoundType)
      requires t != Plain
      modifies this`soundType, this`waitingToPlay, mixer
      ensures soundType == t && !waitingToPlay && Valid()
      ensures old(waitingToPlay) ==>
                mixer.active == old(mixer.active) + {handle} &&
                mixer.paused == old(mixer.paused) - {handle} &&
                mixer.requests == old(mixer.requests) + [PlayRequest(t, handle, vol)]
      ensures !old(waitingToPlay) ==> unchanged(mixer)
    {
      soundType := t;
      if waitingToPlay {
        waitingToPlay := false;
        var _ := Play();
      }
    }

    /** `play_from(position)`: a zero position starts from wherever the stream is. */
    method PlayFrom(position: int) returns (r: int)
      requires Valid()
      modifies this`stream, this`waitingToPlay, mixer
      ensures r == 1 && Valid()
      ensures stream == if position != 0 then SeekStream(old(stream), position) else old(stream)
      ensures soundType != Plain ==>
                mixer.active == old(mixer.active) + {handle} &&
                mixer.paused == old(mixer.paused) - {handle} &&
                mixer.requests == old(mixer.requests) + [PlayRequest(soundType, handle, vol)] &&
                !waitingToPlay
      ensures soundType == Plain ==> waitingToPlay && unchanged(mixer)
    {
      if position != 0 {
        Seek(position);
      }
      var _ := Play();
      r := 1;
    }

    /** `pause()` as the source writes it: it passes `false`, which unpauses the channel. */
    method PauseAsWritten()
      modifies mixer`paused, this`state
      ensures state == Paused
      ensures mixer.paused == old(mixer.paused) - {handle}
    {
      mixer.PauseHandle(handle, false);
      state := Paused;
    }

    /** `pause()` with the channel actually paused. */
    method Pause()
      modifies mixer`paused, this`state
      ensures state == Paused
      ensures mixer.paused == old(mixer.paused) + {handle}
    {
      mixer.PauseHandle(handle, true);
      state := Paused;
    }

    /** `resume()`: unpauses, claims to be playing, then polls, so it ends stopped when the
        channel has gone. */
    method Resume()
      modifies mixer`paused, this`state
      ensures mixer.paused == old(mixer.paused) - {handle}
      ensures state == PollState(Playing, IsPlaying())
      ensures state == if IsPlaying() then Playing else Stopped
    {
      mixer.PauseHandle(handle, false);
      state := Playing;
      Poll();
    }

    /** `seek(offset)`: only a seekable stream moves. */
    method Seek(offset: int)
      modifies this`stream
      ensures stream == SeekStream(old(stream), offset)
      ensures !old(stream).seekable ==> stream == old(stream)
    {
      if stream.seekable {
        stream := stream.(positionMs := offset);
      }
    }

    /** `get_length_ms()`: the stream's length, or 0 when it cannot tell. */
    function GetLengthMs(): (r: int)
      reads this
      ensures !stream.seekable ==> r == 0
      ensures stream.seekable ==> r == stream.lengthMs
    {
      if stream.seekable then stream.lengthMs else 0
    }

    /** `set_volume(volume)`. */
    method SetVolume(volume: int)
      modifies this`vol
      ensures vol == volume && state == old(state)
    {
      vol := volume;
    }

    /** `set_speed(new_speed)`. */
    method SetSpeed(newSpeed: int)
      modifies this`speed
      ensures speed == newSpeed && state == old(state)
    {
      speed := newSpeed;
    }
  }

  /** A `play()` before the clip has a sound type starts nothing; the `setType` that
      follows starts the stream with that type and the clip's volume. */
  method DeferredStart(h: SoundHandle, t: SoundType, volume: int)
    returns (pendingAfterPlay: bool, requestsBeforeType: seq<PlayRequest>,
             requestsAfterType: seq<PlayRequest>, activeAfterType: bool)
    requires t != Plain
    ensures pendingAfterPlay && requestsBeforeType == []
    ensures requestsAfterType == [PlayRequest(t, h, volume)] && activeAfterType
  {
    var m := new Mixer();
    var c := new SoundClipWaveBase(m, h, Stream(true, false, 0, 0), volume, false);
    var _ := c.Play();
    pendingAfterPlay := c.waitingToPlay;
    requestsBeforeType := m.requests;
    c.SetType(t);
    requestsAfterType := m.requests;
    activeAfterType := c.IsPlaying();
  }

  /** The source's `pause()` on a playing clip: the clip says it is paused while its
      channel keeps playing. */
  method PauseLeavesChannelRunning(h: SoundHandle, t: SoundType)
    returns (stateAfterPause: ClipState, channelActive: bool, channelPaused: bool)
    requires t != Plain
    ensures stateAfterPause == Paused && channelActive && !channelPaused
  {
    var m := new Mixer();
    var c := new SoundClipWaveBase(m, h, Stream(true, false, 0, 0), 100, false);
    c.SetType(t);
    var _ := c.Play();
    c.PauseAsWritten();
    stateAfterPause := c.state;
    channelActive := c.IsPlaying();
    channelPaused := h in m.paused;
  }

  /** `poll()` reads a paused channel as live, so with either version of `pause()` the next
      poll turns Paused back into Playing; the corrected pause keeps the channel paused. */
  method PollAfterPause(h: SoundHandle, t: SoundType)
    returns (stateAfterPoll: ClipState, channelPaused: bool)
    requires t != Plain
    ensures stateAfterPoll == Playing && channelPaused
  {
    var m := new Mixer();
    var c := new SoundClipWaveBase(m, h, Stream(true, false, 0, 0), 100, false);
    c.SetType(t);
    var _ := c.Play();
    c.Pause();
    c.Poll();
    stateAfterPoll := c.state;
    channelPaused := h in m.paused;
  }

  /** A new clip has no live channel, so polling it before any `play()` keeps it Initial. */
  method PollBeforePlay(h: SoundHandle) returns (stateAfterPoll: ClipState)
    ensures stateAfterPoll == Initial
  {
    var m := new Mixer();
    var c := new SoundClipWaveBase(m, h, Stream(true, false, 0, 0), 100, false);
    c.Poll();
    stateAfterPoll := c.state;
  }

  /** With the channel paused by `pause()`, `resume()` undoes it: the mixer's paused set is
      back to what it was and the clip is playing. */
  method PauseThenResume(h: SoundHandle, t: SoundType)
    returns (channelPausedAfterPause: bool, channelPausedAfterResume: bool,
             stateAfterResume: ClipState)
    requires t != Plain
    ensures channelPausedAfterPause && !channelPausedAfterResume
    ensures stateAfterResume == Playing
  {
    var m := new Mixer();
    var c := new SoundClipWaveBase(m, h, Stream(true, false, 0, 0), 100, false);
    c.SetType(t);
    var _ := c.Play();
    c.Pause();
    channelPausedAfterPause := h in m.paused;
    c.Resume();
    channelPausedAfterResume := h in m.paused;
    stateAfterResume := c.state;
  }

  /** A clip whose channel has finished: polling moves it from playing to stopped, and
      `resume()` cannot bring it back. */
  method FinishedClipStops(h: SoundHandle, t: SoundType)
    returns (stateAfterPoll: ClipState, stateAfterResume: ClipState)
    requires t != Plain
    ensures stateAfterPoll == Stopped && stateAfterResume == Stopped
  {
    var m := new Mixer();
    var c := new SoundClipWaveBase(m, h, Stream(true, false, 0, 0), 100, false);
    c.SetType(t);
    var _ := c.Play();
    c.Poll();
    m.ChannelFinished(h);
    c.Poll();
    stateAfterPoll := c.state;
    c.Resume();
    stateAfterResume := c.state;
  }

  /** A repeating clip over a seekable stream can no longer seek or report its length. */
  method RepeatingClipIsNotSeekable(h: SoundHandle, lengthMs: int, offset: int)
    returns (length: int, positionAfterSeek: int)
    ensures length == 0 && positionAfterSeek == 0
  {
    var m := new Mixer();
    var c := new SoundClipWaveBase(m, h, Stream(true, false, lengthMs, 0), 100, true);
    length := c.GetLengthMs();
    c.Seek(offset);
    positionAfterSeek := c.stream.positionMs;
  }
}
