/** An abstract stand-in for the audio mixer that sound clips drive: which handles have a
    live channel, which of those are paused, and the streams it was asked to start.
    Resampling, mixing, volume and balance are not part of this model. */
module AudioMixer {

  /** `Audio::Mixer::SoundType`. */
  datatype SoundType = Plain | Music | SFX | Speech

  /** An `Audio::SoundHandle`, abstracted to an identifier. */
  type SoundHandle = nat

  /** The arguments of one `playStream` call that the model keeps track of. */
  datatype PlayRequest = PlayRequest(soundType: SoundType, handle: SoundHandle, volume: int)

  class Mixer {
    var active: set<SoundHandle>
    var paused: set<SoundHandle>
    var requests: seq<PlayRequest>

    constructor ()
      ensures active == {} && paused == {} && requests == []
    {
      active := {};
      paused := {};
      requests := [];
    }

    /** `isSoundHandleActive(h)`. */
    predicate IsSoundHandleActive(h: SoundHandle)
      reads this
    {
      h in active
    }

    /** `playStream(type, &h, stream, -1, volume, ...)`: a fresh, unpaused channel on `h`. */
    method PlayStream(soundType: SoundType, h: SoundHandle, volume: int)
      modifies this
      ensures active == old(active) + {h}
      ensures paused == old(paused) - {h}
      ensures requests == old(requests) + [PlayRequest(soundType, h, volume)]
      ensures IsSoundHandleActive(h)
    {
      active := active + {h};
      paused := paused - {h};
      requests := requests + [PlayRequest(soundType, h, volume)];
    }

    /** `pauseHandle(h, pause)`: pauses or unpauses; a paused channel stays active. */
    method PauseHandle(h: SoundHandle, pause: bool)
      modifies this`paused
      ensures paused == if pause then old(paused) + {h} else old(paused) - {h}
    {
      if pause {
        paused := paused + {h};
      } else {
        paused := paused - {h};
      }
    }

    /** A channel whose stream has run out is dropped by the mixer. */
    method ChannelFinished(h: SoundHandle)
      modifies this`active, this`paused
      ensures active == old(active) - {h} && paused == old(paused) - {h}
      ensures !IsSoundHandleActive(h)
    {
      active := active - {h};
      paused := paused - {h};
    }
  }
}
