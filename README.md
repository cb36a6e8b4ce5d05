# Video trim & edit session — a Dafny model

This project models the editing session of a single-page video editor (one
React component, `src/App.jsx`). A user loads a local video. They scrub it with a
[0,100] slider that a muted preview video follows. They pick a trim window and set
brightness, saturation and contrast filters. Trimming records the main video
with a `MediaRecorder` from the start time until playback reaches the end time.
The recorded chunks become a new video behind an object URL, which can then be
downloaded.

Modules:

- `Scrubber`: slider value ↔ playback time (`v/100·D` and `t/D·100`, exact reals) and the ten-second
  window a scrub proposes, with the round trips, bounds and monotonicity.
- `Filters`: the filter state and the CSS `filter` chain, which lists brightness, saturate and contrast
  in that fixed order. It reads back to the state it was built from.
- `Blobs`: byte content. A Blob built from chunks holds them laid end to end in order. Object URLs are
  fresh opaque handles in a table.
- `EditorSpec`: the whole session as a value, one function per handler, effect body and browser
  callback, and the invariant `Wf` that every one of them preserves.
- `EditorProperties`: lemmas that relate several steps. They cover the scrub/tick round trip, the
  preview following the slider, and the export pipeline from trigger to artifact. They also state what
  the component does NOT guard against: a second trim orphans the first recorder, and URLs are never revoked.
- `Session`: the class `EditorSession`. Its fields are the component's state, the video elements'
  playback state and the recorders. Its methods are the handlers, and each one is proved to move
  `View()` exactly as the matching `EditorSpec` function does. Three client scenarios close the file.

The browser's asynchronous callbacks are explicit method calls, one at a time:
- `OnDataAvailable(i, chunk)`;
- `OnTimeUpdate(t)`, where the browser reports position `t`;
- `OnStop(i)`;
- `OnLoadedMetadata(d)`;
- the 100 ms interval (`UpdateSlider`) and the preview effect (`SyncPreview`).

Recorder events require only that the recorder exists and has not yet had its `stop` event.
A `stop` event may follow the component's own `stop()` call. It may also come from the browser while the
recorder still records, for example when its tracks end or on an error. The `onstop` handler has no guard
for either case.

The component lacks several safeguards: it does not clamp the window, release old URLs, guard against a second trim, or
filter every surface. The model keeps these gaps:
- A scrub sets `end = start + 10` and does not clamp it to the duration (`Scrubber.WindowAtNotClamped`).
- Replacing the trimmed video or the source file never revokes the old object URL.
- There is no busy guard. A second trim starts another recorder and replaces the `ontimeupdate`
  handler, so no handler ever stops the first recorder again (`EditorProperties.SecondTrimOrphansFirst`).
  If the browser stops it later, its `stop` handler overwrites the newer export's URL
  (`EditorProperties.OrphanStopReplacesNewerExport`).
- The preview video is rendered without the filter (`EditorSpec.SurfaceFilter`).
- The stop condition compares with the end time captured when trimming began, because the handler
  closes over the render's `endTime` (`EditorProperties.EndTimeFixedAtTrigger`).
- A window with `start >= end` is not rejected. It stops at the first time update
  (`EditorProperties.EmptyWindowStopsAtOnce`).

## Model

| member | source | states |
|---|---|---|
| Scrubber.SliderTimeRoundTrip | src/App.jsx:107-113 | with a nonzero duration, the tick's time→slider conversion undoes the scrub's slider→time conversion (line 66) exactly |
| Scrubber.TimeSliderRoundTrip | src/App.jsx:123-127 | with a nonzero duration, the preview's slider→time conversion undoes the tick's time→slider conversion |
| Scrubber.SliderToTime | src/App.jsx:65-70 | the time v/100·D a slider value stands for: a value in [0,100] lands in [0, D], and with D = 0 every value gives 0; the round trip with TimeToSlider is SliderTimeRoundTrip |
| Scrubber.TimeToSlider | src/App.jsx:109-111 | the slider value t/D·100 a time stands for, defined for D ≠ 0: a position in [0, D] with D > 0 lands in [0,100]; the round trip with SliderToTime is TimeSliderRoundTrip |
| Scrubber.SliderToTimeMonotonic | src/App.jsx:70 | a larger slider value never gives an earlier time |
| Scrubber.WindowAt | src/App.jsx:69-72 | the scrubbed window starts at SliderToTime(v, D), inside [0, D] for v in [0,100], and is exactly 10 s long; with D = 0 it is {0, 10} |
| Scrubber.WindowAtNotClamped | src/App.jsx:72 | the end is not clamped to the duration: scrubbing a 30 s video to 100 gives {30, 40} |
| Filters.VideoStyles | src/App.jsx:91-93 | the filter chain names brightness, saturate, contrast in that order, and reading it back with FiltersOf gives the filter state it was built from |
| Filters.StylesInjective | src/App.jsx:91-93 | different filter states give different chains |
| Blobs.Concat | src/App.jsx:37 | the bytes of `new Blob(chunks)`: exactly as many bytes as all chunks together (ConcatAppend and ConcatPartAt give the order) |
| Blobs.ConcatAppend | src/App.jsx:37 | a Blob of two runs of chunks is the first run's bytes followed by the second's |
| Blobs.ConcatPartAt | src/App.jsx:37 | chunk k sits in the Blob right after the bytes of chunks 0..k-1 |
| Blobs.CreateObjectUrl | src/App.jsx:36-38 | a new object URL is a handle not in use, bound to the Blob's bytes; every other URL is kept |
| EditorSpec.Initial | src/App.jsx:5-13 | the first state is well formed, with no video, no recorders and no trimmed video |
| EditorSpec.FileChange | src/App.jsx:18-24 | a chosen file gets a fresh URL and the slider returns to 0; the duration is kept; no file chosen changes nothing |
| EditorSpec.LoadedMetadata | src/App.jsx:96-103 | with a rendered video, metadata sets the duration and returns the slider to 0, and nothing else changes |
| EditorSpec.SliderChange | src/App.jsx:60-73 | the slider takes v; the window becomes WindowAt(v, D); the main video seeks to v/100·D only with a video and D ≠ 0; nothing else changes |
| EditorSpec.Tick | src/App.jsx:107-113 | with a video and D ≠ 0 the slider becomes videoTime/D·100; only the slider may change, and nothing changes without a video or with D = 0 |
| EditorSpec.PreviewSync | src/App.jsx:123-127 | with a video and D ≠ 0 the preview position becomes sliderValue/100·D; only the preview position may change, and nothing changes without a video or with D = 0 |
| EditorSpec.TimeChange | src/App.jsx:54-58 | "start"/"end" set only that bound; any other name leaves the state unchanged |
| EditorSpec.FilterChange | src/App.jsx:84-89 | "brightness"/"saturation"/"contrast" set only that parameter; any other name leaves the state unchanged |
| EditorSpec.TrimVideo | src/App.jsx:26-52 | with no video or no recorder nothing changes; otherwise a new recorder with no chunks is added, the video seeks to the start time and plays, and the watch takes the current end time |
| EditorSpec.DataAvailable | src/App.jsx:34 | the chunk is appended at the end of that recorder's list; every other recorder and field is unchanged |
| EditorSpec.StopLast | src/App.jsx:49 | stop() turns a recording last recorder into a stopping one and leaves every other recorder and all chunks as they were |
| EditorSpec.TimeUpdate | src/App.jsx:46-51 | the position becomes t; the video pauses and the last recorder stops exactly when a watch is installed and t ≥ its end time |
| EditorSpec.RecorderStop | src/App.jsx:35-40 | for any recorder not yet stopped, whoever started the stop, the trimmed-video URL becomes a fresh handle to its concatenated chunks; the previous URL's entry is kept |
| EditorSpec.SurfaceFilter | src/App.jsx:136-251 | only the preview video has no filter; the main video and the trimmed player get a chain that reads back to the filter state |
| EditorSpec.SaveTrimmedVideo | src/App.jsx:75-82 | a download exists exactly when a trimmed video exists, for its URL, named trimmed-video.webm |
| EditorProperties.TickAfterSliderChange | src/App.jsx:107-113 | a tick right after a scrub to v changes nothing, so the slider stays v in every state |
| EditorProperties.PreviewFollowsSlider | src/App.jsx:123-127 | after a scrub and the preview effect, the preview is at the time the main video was sent to |
| EditorProperties.PreviewFollowsPlayback | src/App.jsx:105-127 | a tick and then the preview effect put the preview at the main video's position |
| EditorProperties.SliderChangeWithoutDuration | src/App.jsx:65-72 | with D = 0 a scrub moves neither video and proposes {0, 10} |
| EditorProperties.MetadataRewindsPreview | src/App.jsx:98-101 | new metadata of nonzero duration returns the slider and the preview to 0 |
| EditorProperties.TickStaysOnScale | src/App.jsx:107-113 | while playback is inside the video, a tick leaves the slider in [0,100] |
| EditorProperties.FilterChangeTouchesOneEntry | src/App.jsx:84-93 | changing one parameter changes exactly its entry of the CSS filter chain |
| EditorProperties.SurfacesShareFilter | src/App.jsx:136-251 | the main video and the trimmed player carry the same chain; the preview carries none |
| EditorProperties.DeliverAll | src/App.jsx:34 | delivering chunks changes no field but the recorders, and no recorder's state |
| EditorProperties.DeliverAllAppends | src/App.jsx:32-34 | delivered chunks are appended in delivery order, and well-formedness is kept |
| EditorProperties.ExportYieldsChunksInOrder | src/App.jsx:26-52 | trim, chunks, a time update ≥ end (pauses and stops), more chunks, then stop: the trimmed URL is a fresh handle to all chunks in delivery order, and the old URL stays live |
| EditorProperties.RecordingContinuesBeforeEnd | src/App.jsx:46-51 | a time update before the end time leaves the recorders and the paused flag alone |
| EditorProperties.StopHappensOnce | src/App.jsx:46-51 | once the watched recorder is no longer recording, later time updates change no recorder |
| EditorProperties.EmptyWindowStopsAtOnce | src/App.jsx:42-51 | with start ≥ end, the first time update (at the start) pauses and stops the recording |
| EditorProperties.EndTimeFixedAtTrigger | src/App.jsx:46-51 | editing the end time during a recording does not move the stop point |
| EditorProperties.StepKeepsOrphanRecording | src/App.jsx:26-52 | a recording recorder that is not the last one keeps recording through any event except its own stop |
| EditorProperties.RunKeepsOrphanRecording | src/App.jsx:26-52 | the same through any run of events that does not contain its own stop |
| EditorProperties.SecondTrimOrphansFirst | src/App.jsx:26-52 | after a second trim the first recorder stays recording through every later run of events, unless the browser itself stops it |
| EditorProperties.OrphanStopReplacesNewerExport | src/App.jsx:35-40 | when the browser stops the orphaned first recorder after the second export has finished, the trimmed URL becomes a fresh handle to the orphan's chunks and replaces the newer export |
| EditorProperties.FileChangeKeepsOldUrl | src/App.jsx:18-24 | a new file gets a new handle, and the old file's URL is not revoked |
| Session.EditorSession.constructor | src/App.jsx:5-13 | the session starts well formed, in EditorSpec.Initial |
| Session.EditorSession.Styles | src/App.jsx:91-93 | the style chain reads back to the session's three filter fields, in brightness, saturate, contrast order |
| Session.EditorSession.NewObjectUrl | src/App.jsx:21 | registers the bytes under an unused handle, as Blobs.CreateObjectUrl |
| Session.EditorSession.HandleFileChange | src/App.jsx:18-24 | moves the session as EditorSpec.FileChange and keeps Valid |
| Session.EditorSession.OnLoadedMetadata | src/App.jsx:98-101 | moves the session as EditorSpec.LoadedMetadata and keeps Valid |
| Session.EditorSession.HandleSliderChange | src/App.jsx:60-73 | moves the session as EditorSpec.SliderChange and keeps Valid |
| Session.EditorSession.UpdateSlider | src/App.jsx:107-113 | moves the session as EditorSpec.Tick and keeps Valid |
| Session.EditorSession.SyncPreview | src/App.jsx:123-127 | moves the session as EditorSpec.PreviewSync and keeps Valid |
| Session.EditorSession.HandleTimeChange | src/App.jsx:54-58 | moves the session as EditorSpec.TimeChange and keeps Valid |
| Session.EditorSession.HandleFilterChange | src/App.jsx:84-89 | moves the session as EditorSpec.FilterChange and keeps Valid |
| Session.EditorSession.TrimVideo | src/App.jsx:26-52 | moves the session as EditorSpec.TrimVideo and keeps Valid |
| Session.EditorSession.OnDataAvailable | src/App.jsx:34 | moves the session as EditorSpec.DataAvailable and keeps Valid |
| Session.EditorSession.OnTimeUpdate | src/App.jsx:46-51 | moves the session as EditorSpec.TimeUpdate and keeps Valid |
| Session.EditorSession.OnStop | src/App.jsx:35-40 | for any recorder not yet stopped, moves the session as EditorSpec.RecorderStop and keeps Valid |
| Session.EditorSession.SaveTrimmedVideo | src/App.jsx:75-82 | returns a download exactly when a trimmed URL exists, for that URL, named trimmed-video.webm |
| Session.ScrubScenario | src/App.jsx:60-127 | in a 30 s video, scrubbing to 50 seeks main and preview to 15 s and proposes {15, 25} |
| Session.ExportScenario | src/App.jsx:26-82 | exporting [5, 15] of a 30 s video whose recorder delivers one chunk offers exactly that chunk as trimmed-video.webm |
| Session.TrimWithoutVideoScenario | src/App.jsx:26-27 | trimming with no file loaded starts no recorder and does not play |

## Left out

- JSX rendering, CSS and the widgets' `min`/`max`/`step`/`disabled` attributes are markup. Handlers accept any real value.
- The browser's string-to-number coercions are not modelled. `e.target.value` is a string: `Number(value)` in
  `handleTimeChange`, implicit coercion in `handleSliderChange`, and a string stored as-is by
  `handleFilterChange`. Values are exact reals, and IEEE-754 rounding, NaN and Infinity are left out.
- The printing of numbers into the CSS filter text is not modelled. The chain is modelled as a sequence of filter functions.
- The internals of `MediaRecorder`, `captureStream`, `Blob` and `URL.createObjectURL` are not modelled. Neither are
  video decoding, buffering and asynchronous seek settling. Chunks are opaque bytes.
  Whether the CSS filter is present in the captured stream is not modelled.
- A recorder that cannot be created is a parameter (`captureOk`): the constructor throws before any state changes.
- The media element's own behaviour comes in only where a handler triggers it. A new source resets the
  position to 0 and pauses. Playback advancing is reported through `OnTimeUpdate`.
- `setInterval`, effect scheduling and cleanup, and React's re-render order are scheduling plumbing. The tick and the preview
  effect are explicit methods.
- The anchor created and clicked by `saveTrimmedVideo` is a DOM side effect. The model returns the download it starts.
- Seeks are not clamped. A seek sets the position at once and to exactly the value the component assigns.
  The browser would clamp it to [0, duration]. The component can assign a start time below 0 or past the duration
  (`trimVideo` at line 43; the number inputs' `min`/`max` are not enforced while typing). So the model's position can
  leave [0, D], which is why `TickStaysOnScale` assumes 0 ≤ videoTime ≤ D.
- The model does not say when the browser stops a recorder on its own. Such a stop (its tracks ended, an error) is an
  `OnStop` call the caller may make at any time before the recorder's `stop` event.
