# Android texture state and AGS sound-clip playback, in Dafny

This project models two small stateful components of a ScummVM-derived emulator.

The first is the inline state logic of the Android OpenGL ES textures
(`backends/platform/android3d/texture.h`). A `GLESBaseTexture` keeps a cache-invalidation
state between uploads. That state is an "all dirty" flag plus an accumulated dirty
rectangle. The texture also keeps a caller-set default draw rectangle. It answers size
and palette queries. Its write accessors (`surface()`, and `palette()` on a fake-palette
texture) invalidate the whole cache. Four direct-format textures (8888, 4444, 5551, 565)
each name a fixed pixel format.

The second is the playback state machine of AGS's `SoundClipWaveBase`
(`engines/ags/engine/media/audio/sound_clip.cpp`). A clip is Initial, Playing, Paused or
Stopped. It defers a `play()` until it is given a sound type. It polls the mixer to find
out whether its channel is still alive.

Modules, one per file:

- `Geometry` (rect.dfy): int16 edges, `Rect` with `isEmpty`, `width`, `height` and
  `extend` (the bounding box), and `Encloses` (edge-wise containment). Int16 truncation
  is written out (`ToInt16`).
- `PixelFormats` (pixelformat.dfy): the pixel-format record and the four texture
  formats. Each format is proved well formed: channels inside the pixel, pairwise
  disjoint, bit counts summing to the pixel width. Every channel's mask is stated too.
- `DirtyRegion` (dirty_region.dfy): the dirty state as a value, and the functions that
  specify `setDirty`, `clearDirty` and `setDirtyRect`. Lemmas cover runs of
  `setDirtyRect` calls.
- `AndroidTexture` (texture.dfy): the class `GLESBaseTexture`. Its methods are proved
  against `DirtyRegion`. Direct and fake-palette textures are one class with a `kind`;
  `palette()` and `palette_const()` dispatch on it as the virtual overrides do.
- `AudioMixer` (mixer.dfy): an abstract mixer. It holds the set of handles with a live
  channel, the set of paused handles and the log of `playStream` requests.
- `SoundClip` (sound_clip.dfy): the class `SoundClipWaveBase` over that mixer, the pure
  `PollState`, `SeekStream` and `WrapForRepeat`, and client scenarios.

Notes on the source:

- On a direct-format texture, `palette()` and `palette_const()` return a null pointer,
  not an empty palette. The model returns `null`.
- `setDirtyRect` merges with `extend`, which takes the edge-wise bounding box of both
  rectangles. It does so even when the added rectangle is itself empty. The model keeps
  this: containment is stated edge-wise (`Encloses`), not by area.
- A repeating clip over a seekable stream is wrapped in a `LoopingAudioStream`. That
  wrapper is not a `SeekableAudioStream`. So the clip's later `seek` does nothing and
  `get_length_ms` returns 0 (`WrapForRepeat`, `RepeatingClipIsNotSeekable`).

Plain accessors carry no contract and have no row: `GetDrawRect`, `Width`, `Height`,
`Pitch`, `SurfaceConst`, `GetPalettePixelFormat` and `IsPlaying`. `GetDrawRect`,
`SurfaceConst` and `IsPlaying` appear inside the contracts of the rows below; `Width` and
`Height` are used by `DefaultClip`. `Pitch` and `GetPalettePixelFormat` only return a field.

## Model

| member | source | states |
|---|---|---|
| `Geometry.RectOfSize` | backends/platform/android3d/texture.h:69-71 | `Rect(w, h)` has its corner at the origin, and its width and height read back as `w` and `h` |
| `Geometry.ToInt16` | backends/platform/android3d/texture.h:81-84 | storing an int into int16 keeps it exactly when it fits; otherwise it differs by a multiple of 65536 |
| `Geometry.Extend` | backends/platform/android3d/texture.h:170-171 | `extend` encloses both rectangles and is enclosed by every rectangle enclosing both; it keeps a non-empty rectangle non-empty |
| `PixelFormats.Format8888` | backends/platform/android3d/texture.h:224-226 | 4 bytes per pixel, well formed, masks 0xFF000000, 0x00FF0000, 0x0000FF00 and 0x000000FF for red, green, blue and alpha |
| `PixelFormats.Format4444` | backends/platform/android3d/texture.h:235-237 | 2 bytes per pixel, well formed, masks 0xF000, 0x0F00, 0x00F0 and 0x000F for red, green, blue and alpha |
| `PixelFormats.Format5551` | backends/platform/android3d/texture.h:246-248 | 2 bytes per pixel, well formed, masks 0xF800, 0x07C0, 0x003E and 0x0001 |
| `PixelFormats.Format565` | backends/platform/android3d/texture.h:257-259 | 2 bytes per pixel, well formed, no alpha, red bits 11-15, green bits 5-10, blue bits 0-4 |
| `DirtyRegion.MarkAll` | backends/platform/android3d/texture.h:154-156 | after `setDirty` the texture is dirty and the rectangle is kept |
| `DirtyRegion.AddRect` | backends/platform/android3d/texture.h:166-173 | the flag never changes; while all dirty nothing changes; an empty rectangle is replaced by `r`; a non-empty one grows to enclose itself and `r`; dirtiness is never lost |
| `DirtyRegion.CleanIsNotDirty` | backends/platform/android3d/texture.h:158-164 | the cleared state is not dirty |
| `DirtyRegion.AddRectAfterClear` | backends/platform/android3d/texture.h:166-173 | right after a clear, `setDirtyRect(r)` records exactly `r`, and the texture is dirty exactly when `r` is non-empty |
| `DirtyRegion.AddRectsWhileAllDirty` | backends/platform/android3d/texture.h:166-167 | while all dirty, no run of `setDirtyRect` calls changes the state |
| `DirtyRegion.AddRectsDirtyIff` | backends/platform/android3d/texture.h:135-137 | without the flag, a run of `setDirtyRect` calls leaves the texture dirty exactly when it was dirty before or one of the rectangles was non-empty |
| `DirtyRegion.AddRectsKeepsStart` | backends/platform/android3d/texture.h:168-171 | once non-empty, the accumulated rectangle only grows |
| `DirtyRegion.AddRectsEnclosesEach` | backends/platform/android3d/texture.h:168-171 | every non-empty rectangle of a run lies inside the accumulated rectangle |
| `DirtyRegion.AddRectsLeast` | backends/platform/android3d/texture.h:168-171 | every rectangle enclosing the start and all added rectangles encloses the result, so the result is the least bounding box |
| `DirtyRegion.BoundingBoxAfterClear` | backends/platform/android3d/texture.h:158-173 | after a clear, a run of non-empty rectangles leaves the texture dirty with exactly their bounding box |
| `AndroidTexture.GLESBaseTexture.constructor` | backends/platform/android3d/texture.h:41-42 | every field starts at the value given, and a palette format is given exactly for a fake-palette texture; the body is out of line |
| `AndroidTexture.GLESBaseTexture.Dirty` | backends/platform/android3d/texture.h:135-137 | `dirty()` agrees with `IsDirty` of the texture's dirty state |
| `AndroidTexture.GLESBaseTexture.SetDirty` | backends/platform/android3d/texture.h:154-156 | the new dirty state is `MarkAll` of the old one; the texture is dirty |
| `AndroidTexture.GLESBaseTexture.ClearDirty` | backends/platform/android3d/texture.h:158-164 | the flag is off, the rectangle is (0,0,0,0), and the texture is not dirty |
| `AndroidTexture.GLESBaseTexture.SetDirtyRect` | backends/platform/android3d/texture.h:166-173 | the new dirty state is `AddRect` of the old one and `r`; the rectangle is unchanged while all dirty; a dirty texture stays dirty |
| `AndroidTexture.GLESBaseTexture.SetDrawRect` | backends/platform/android3d/texture.h:65-67 | `getDrawRect()` then returns exactly the rectangle passed; no other field changes |
| `AndroidTexture.GLESBaseTexture.SetDrawRectSize` | backends/platform/android3d/texture.h:69-71 | the draw rectangle is at the origin with width `w` and height `h`; no other field changes |
| `AndroidTexture.GLESBaseTexture.SetDrawRectEdges` | backends/platform/android3d/texture.h:73-75 | the draw rectangle has exactly the four edges passed; no other field changes |
| `AndroidTexture.GLESBaseTexture.DefaultClip` | backends/platform/android3d/texture.h:59-61 | the default clip starts at the origin and reaches the surface's width and height exactly when they fit in int16 |
| `AndroidTexture.GLESBaseTexture.DrawTextureRectCall` | backends/platform/android3d/texture.h:81-84 | `drawTextureRect` draws at the draw rectangle's corner; its width and height give back the right and bottom edges exactly when they fit in int16; the clip is the default clip |
| `AndroidTexture.GLESBaseTexture.DrawTextureOriginCall` | backends/platform/android3d/texture.h:86-88 | `drawTextureOrigin` draws at (0,0) with the surface's size, exactly when that size fits in int16; the clip is the default clip |
| `AndroidTexture.GLESBaseTexture.IsEmpty` | backends/platform/android3d/texture.h:110-112 | `isEmpty()` holds exactly when the origin draw has zero width or height, that is, when the surface has zero width or height |
| `AndroidTexture.GLESBaseTexture.Surface` | backends/platform/android3d/texture.h:114-121 | `surface()` returns the surface `surface_const()` returns and marks the whole texture dirty |
| `AndroidTexture.GLESBaseTexture.PaletteConst` | backends/platform/android3d/texture.h:280-282 | null exactly on a direct-format texture; the palette table on a fake-palette texture |
| `AndroidTexture.GLESBaseTexture.Palette` | backends/platform/android3d/texture.h:284-287 | returns what `palette_const()` returns; changes nothing on a direct texture (lines 127-129); marks a fake-palette texture all dirty |
| `AndroidTexture.GLESBaseTexture.HasPalette` | backends/platform/android3d/texture.h:131-133 | holds exactly on a fake-palette texture, that is, exactly when `palette_const()` is not null |
| `AndroidTexture.GLESBaseTexture.SetGameTexture` | backends/platform/android3d/texture.h:149-151 | the texture is marked as a game texture; nothing else changes |
| `AndroidTexture.DirtyTrackingScenario` | backends/platform/android3d/texture.h:118-121 | clear then `setDirtyRect(r1)` records `r1`; after `surface()` a further `setDirtyRect` is skipped and the texture stays dirty |
| `SoundClip.WrapForRepeat` | engines/ags/engine/media/audio/sound_clip.cpp:41-45 | a repeating clip over a seekable stream gets a looping stream that is not seekable; any other stream is kept |
| `SoundClip.SeekStream` | engines/ags/engine/media/audio/sound_clip.cpp:107-116 | a seekable stream moves to the offset; any other stream is unchanged |
| `SoundClip.PollState` | engines/ags/engine/media/audio/sound_clip.cpp:54-60 | the result is Playing exactly when the channel is live; Playing becomes Stopped when it is not; any other state is kept |
| `SoundClip.PollIdempotent` | engines/ags/engine/media/audio/sound_clip.cpp:54-60 | polling twice with the mixer unchanged is polling once |
| `SoundClip.SoundClipWaveBase.constructor` | engines/ags/engine/media/audio/sound_clip.cpp:27-46 | state Initial, volume and repeat as given, speed 1000, priority 50, the other `SOUNDCLIP` defaults, no pending start, no live channel, and the stream wrapped by `WrapForRepeat` |
| `SoundClip.SoundClipWaveBase.Poll` | engines/ags/engine/media/audio/sound_clip.cpp:54-60 | the new state is `PollState` of the old state and the channel's liveness; the mixer is unchanged |
| `SoundClip.SoundClipWaveBase.Play` | engines/ags/engine/media/audio/sound_clip.cpp:62-71 | returns 1; with a sound type, starts the stream on the clip's handle with that type and the clip's volume; with the plain type, starts nothing and leaves a start pending |
| `SoundClip.SoundClipWaveBase.SetType` | engines/ags/engine/media/audio/sound_clip.cpp:73-82 | for a non-plain type: stores it, no start is pending afterwards, and a pending start is carried out with the new type |
| `SoundClip.SoundClipWaveBase.PlayFrom` | engines/ags/engine/media/audio/sound_clip.cpp:84-90 | returns 1, seeks only for a non-zero position, then behaves as `play()` |
| `SoundClip.SoundClipWaveBase.PauseAsWritten` | engines/ags/engine/media/audio/sound_clip.cpp:92-95 | the state becomes Paused and the channel is unpaused, as the source's `false` argument does |
| `SoundClip.SoundClipWaveBase.Pause` | engines/ags/engine/media/audio/sound_clip.cpp:92-95 | the state becomes Paused and the channel is paused (see Findings) |
| `SoundClip.SoundClipWaveBase.Resume` | engines/ags/engine/media/audio/sound_clip.cpp:97-101 | the channel is unpaused; the state ends Playing if the channel is live and Stopped otherwise |
| `SoundClip.SoundClipWaveBase.Seek` | engines/ags/engine/media/audio/sound_clip.cpp:107-116 | the stream becomes `SeekStream` of the old one; a non-seekable stream is unchanged |
| `SoundClip.SoundClipWaveBase.GetLengthMs` | engines/ags/engine/media/audio/sound_clip.cpp:126-136 | 0 when the stream is not seekable, the stream's length otherwise |
| `SoundClip.SoundClipWaveBase.SetVolume` | engines/ags/engine/media/audio/sound_clip.cpp:138-141 | the volume becomes the one given; the state is unchanged |
| `SoundClip.SoundClipWaveBase.SetSpeed` | engines/ags/engine/media/audio/sound_clip.cpp:147-150 | the speed becomes the one given; the state is unchanged |
| `SoundClip.DeferredStart` | engines/ags/engine/media/audio/sound_clip.cpp:62-82 | a `play()` without a type starts nothing and leaves a start pending; the following `setType(t)` starts exactly one stream with type `t` and the clip's volume |
| `SoundClip.PauseLeavesChannelRunning` | engines/ags/engine/media/audio/sound_clip.cpp:92-95 | with the source's `pause()`, a playing clip reports Paused while its channel is live and not paused |
| `SoundClip.PollAfterPause` | engines/ags/engine/media/audio/sound_clip.cpp:54-60 | `poll()` reads a paused channel as live, so even after the corrected `pause()` the next poll reports Playing, while the channel stays paused |
| `SoundClip.PollBeforePlay` | engines/ags/engine/media/audio/sound_clip.cpp:35-60 | a new clip has no live channel, so a poll before any `play()` leaves it Initial |
| `SoundClip.PauseThenResume` | engines/ags/engine/media/audio/sound_clip.cpp:92-101 | `resume()` undoes the corrected `pause()`: the channel is unpaused again and the clip is Playing |
| `SoundClip.FinishedClipStops` | engines/ags/engine/media/audio/sound_clip.cpp:54-60 | once its channel has finished, a playing clip polls to Stopped, and `resume()` leaves it Stopped |
| `SoundClip.RepeatingClipIsNotSeekable` | engines/ags/engine/media/audio/sound_clip.cpp:35-46 | a repeating clip over a seekable stream reports length 0 and does not move when sought |

## Findings

| source | as written | input that shows it | evidently intended | confidence | as-written member | corrected member |
|---|---|---|---|---|---|---|
| engines/ags/engine/media/audio/sound_clip.cpp:92-95 | `pause()` calls `pauseHandle(_soundHandle, false)`, which unpauses the channel | a clip playing on a live channel, then `pause()`: the clip says Paused while the channel is not paused and keeps playing. (In both versions the next `poll()`, lines 54-60, turns Paused back into Playing because the channel is still active; the corrected pause keeps only the channel paused.) | `pauseHandle(_soundHandle, true)`, so that the channel stops while the clip is Paused | medium, not executed | `SoundClip.SoundClipWaveBase.PauseAsWritten` (shown by `SoundClip.PauseLeavesChannelRunning`) | `SoundClip.SoundClipWaveBase.Pause` (undone by `resume()`, shown by `SoundClip.PauseThenResume`) |

## Left out

- GL work in texture.h: `initGL`, `release`, `reinit`, `initSize`, `setLinearFilter`, `getTextureName`, the GL format, type, filter and texture name, and `texWidth`/`texHeight`. These are GPU calls, or values that only the out-of-line code sets.
- `allocBuffer`, `updateBuffer`, `fillBuffer`, both `drawTexture` bodies and `getPixelFormat`: texture.cpp is not part of this model. So the model has no power-of-two sizing, no upload, no palette expansion and no clearing of the dirty state after a draw. `drawTextureRect`, `drawTextureOrigin` and the four-argument `drawTexture` are modelled only as the calls they forward.
- `AndroidTexture.GLESBaseTexture.constructor`: the texture constructors are in texture.cpp, so all initial values are parameters. The model assumes that those constructors give a palette format with a positive byte width to the fake-palette textures and to no other.
- Pixels: the surface is reduced to width, height and pitch, held as uint16 because `pitch()` returns `uint16`. graphics/surface.h is not part of this model. Writes made through the pointer `surface()` returns are not modelled. The palette table is an array a caller may write, and its contents are not constrained.
- common/rect.h and graphics/pixelformat.h are not part of this model. The validity assertion of the four-edge `Rect` constructor is not modelled. The pixel format stores bit counts, not the per-channel losses of the real record.
- Mixer internals: volume, balance, elapsed time, stopping handles and the stream contents. So `set_panning`, `get_pos`, `get_pos_ms`, `destroy` and `adjust_volume` (an empty body) are not modelled. `set_volume` does not model its `setChannelVolume` call.
- `playStream` writes a new handle into `_soundHandle`. The model keeps one handle per clip, fixed at construction and required to have no live channel then. Nothing stops two clips from being given the same handle, which the real mixer's fresh handles rule out.
- `AudioMixer.Mixer.ChannelFinished` stands in for the mixer dropping a channel whose stream has ended.
- Streams: decoding, `Timestamp` and `LoopingAudioStream` are reduced to a seekable flag, a looping flag, a length and a position in milliseconds. That a `LoopingAudioStream` is not a `SeekableAudioStream` comes from audio/audiostream.h, which is not part of this model.
- The initial `_soundType` (plain) and `_waitingToPlay` (false) come from initialisers in sound_clip.h, which is not part of this model.
- The floating-point `_panning` default, the `_sourceClip` pointer (reduced to a flag that starts false) and `warning()` logging.
