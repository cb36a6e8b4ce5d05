/**
 * Properties of the editing session that relate several handlers and
 * callbacks: the scrubber round trip, the preview following the slider, the
 * filter chain, and the trim/export pipeline from trigger to artifact.
 */
module EditorProperties {
  import opened Wrappers
  import opened Scrubber
  import opened Filters
  import opened Blobs
  import opened EditorSpec

  /**
   * A playback tick right after a slider change leaves the state as the slider
   * change made it: the slider does not snap back, whatever the state.
   */
  lemma TickAfterSliderChange(e: Editor, v: real)
    ensures Tick(SliderChange(e, v)) == SliderChange(e, v)
    ensures Tick(SliderChange(e, v)).sliderValue == v
  {
    var s := SliderChange(e, v);
    if HasVideo(e) && e.duration != 0.0 {
      SliderTimeRoundTrip(v, e.duration);
      assert TimeToSlider(s.videoTime, s.duration) == v;
    }
  }

  /** After a slider change and the preview effect, the preview shows the time the main video was sent to. */
  lemma PreviewFollowsSlider(e: Editor, v: real)
    requires HasVideo(e) && e.duration != 0.0
    ensures PreviewSync(SliderChange(e, v)).previewTime == SliderChange(e, v).videoTime
    ensures PreviewSync(SliderChange(e, v)).previewTime == v / 100.0 * e.duration
  {
  }

  /** A tick followed by the preview effect puts the preview where the main video plays. */
  lemma PreviewFollowsPlayback(e: Editor)
    requires HasVideo(e) && e.duration != 0.0
    ensures PreviewSync(Tick(e)).previewTime == e.videoTime
  {
    TimeSliderRoundTrip(e.videoTime, e.duration);
  }

  /** With no duration a slider change moves neither video and proposes the window `{0, 10}`. */
  lemma SliderChangeWithoutDuration(e: Editor, v: real)
    requires e.duration == 0.0
    ensures SliderChange(e, v).videoTime == e.videoTime
    ensures SliderChange(e, v).startTime == 0.0 && SliderChange(e, v).endTime == 10.0
    ensures PreviewSync(SliderChange(e, v)).previewTime == e.previewTime
  {
  }

  /** New metadata of a nonzero duration returns both the slider and the preview to the start. */
  lemma MetadataRewindsPreview(e: Editor, d: real)
    requires HasVideo(e) && d != 0.0
    ensures PreviewSync(LoadedMetadata(e, d)).sliderValue == 0.0
    ensures PreviewSync(LoadedMetadata(e, d)).previewTime == 0.0
  {
  }

  /** A slider value on the widget's scale keeps the slider on that scale through the next tick, while playback stays inside the video. */
  lemma TickStaysOnScale(e: Editor)
    requires HasVideo(e) && 0.0 < e.duration && 0.0 <= e.videoTime <= e.duration
    ensures 0.0 <= Tick(e).sliderValue <= 100.0
  {
    assert Tick(e).sliderValue == TimeToSlider(e.videoTime, e.duration);
  }

  /** Changing one filter parameter changes exactly that entry of the CSS chain. */
  lemma FilterChangeTouchesOneEntry(e: Editor, value: real)
    ensures VideoStyles(FilterChange(e, "brightness", value).filters) == VideoStyles(e.filters)[0 := Brightness(value)]
    ensures VideoStyles(FilterChange(e, "saturation", value).filters) == VideoStyles(e.filters)[1 := Saturate(value)]
    ensures VideoStyles(FilterChange(e, "contrast", value).filters) == VideoStyles(e.filters)[2 := Contrast(value)]
  {
  }

  /** The main video and the trimmed-video player always carry the same filter; the preview carries none. */
  lemma SurfacesShareFilter(e: Editor)
    ensures SurfaceFilter(e, MainVideo) == SurfaceFilter(e, TrimmedVideo) == Some(VideoStyles(e.filters))
    ensures SurfaceFilter(e, PreviewVideo).None?
  {
  }

  /** Recorder `i` receives `chunks`, one `dataavailable` event each, in order. */
  function DeliverAll(e: Editor, i: nat, chunks: seq<Chunk>): (r: Editor)
    requires i < |e.recorders| && e.recorders[i].state != Stopped
    ensures |r.recorders| == |e.recorders| && r.recorders[i].state == e.recorders[i].state
    ensures r.(recorders := e.recorders) == e
    decreases |chunks|
  {
    if chunks == [] then e
    else DeliverAll(DataAvailable(e, i, chunks[0]), i, chunks[1..])
  }

  /** Delivered chunks are appended in delivery order, and nothing else changes. */
  lemma {:induction false} DeliverAllAppends(e: Editor, i: nat, chunks: seq<Chunk>)
    requires i < |e.recorders| && e.recorders[i].state != Stopped
    ensures DeliverAll(e, i, chunks).recorders == e.recorders[i := Recorder(e.recorders[i].state, e.recorders[i].chunks + chunks)]
    ensures Wf(e) ==> Wf(DeliverAll(e, i, chunks))
    decreases |chunks|
  {
    if chunks == [] {
      assert e.recorders[i].chunks + chunks == e.recorders[i].chunks;
      assert e.recorders[i := Recorder(e.recorders[i].state, e.recorders[i].chunks)] == e.recorders;
    } else {
      var e1 := DataAvailable(e, i, chunks[0]);
      DeliverAllAppends(e1, i, chunks[1..]);
      assert e.recorders[i].chunks + [chunks[0]] + chunks[1..] == e.recorders[i].chunks + chunks;
      assert e1.recorders[i := Recorder(e.recorders[i].state, e.recorders[i].chunks + chunks)]
          == e.recorders[i := Recorder(e.recorders[i].state, e.recorders[i].chunks + chunks)];
    }
  }

  /**
   * The whole export: a trim, chunks delivered while recording, a time update
   * at or past the end time (which pauses the video and stops the recorder),
   * the recorder's last chunks, then its `stop` event. The trimmed-video URL is
   * then a fresh handle to all the chunks in delivery order, and the URL it
   * replaced is still live (it is never revoked).
   */
  lemma {:induction false} ExportYieldsChunksInOrder(e: Editor, before: seq<Chunk>, after: seq<Chunk>, t: real)
    requires Wf(e) && HasVideo(e) && t >= e.endTime
    ensures
      var i := |e.recorders|;
      var e1 := TrimVideo(e, true);
      var e2 := DeliverAll(e1, i, before);
      var e3 := TimeUpdate(e2, t);
      && e3.paused && e3.recorders[i].state == Stopping
      && var e4 := DeliverAll(e3, i, after);
      && var e5 := RecorderStop(e4, i);
      && e5.trimmedVideoUrl == Some(e.urls.next)
      && e.urls.next !in e.urls.blobs
      && e5.urls.blobs[e.urls.next] == Concat(before) + Concat(after)
      && e5.urls.blobs[e.urls.next] == Concat(before + after)
      && (e.trimmedVideoUrl.Some? ==> e.trimmedVideoUrl.value in e5.urls.blobs)
      && Wf(e5)
  {
    var i := |e.recorders|;
    var e1 := TrimVideo(e, true);
    assert e1.recorders[i] == Recorder(Recording, []);
    var e2 := DeliverAll(e1, i, before);
    DeliverAllAppends(e1, i, before);
    assert e2.recorders[i] == Recorder(Recording, before);
    assert e2.stopAt == Some(e.endTime) && HasVideo(e2);
    var e3 := TimeUpdate(e2, t);
    assert e3.recorders[i] == Recorder(Stopping, before);
    var e4 := DeliverAll(e3, i, after);
    DeliverAllAppends(e3, i, after);
    assert e4.recorders[i] == Recorder(Stopping, before + after);
    assert e4.urls == e.urls;
    var e5 := RecorderStop(e4, i);
    ConcatAppend(before, after);
  }

  /** Before the end time a time update only moves the position: the recording goes on. */
  lemma RecordingContinuesBeforeEnd(e: Editor, t: real)
    requires HasVideo(e) && e.stopAt.Some? && t < e.stopAt.value
    ensures TimeUpdate(e, t).recorders == e.recorders
    ensures TimeUpdate(e, t).paused == e.paused
  {
  }

  /** Once the watched recorder is stopping, later time updates do not change any recorder again. */
  lemma StopHappensOnce(e: Editor, t: real)
    requires HasVideo(e) && |e.recorders| > 0 && e.recorders[|e.recorders| - 1].state != Recording
    ensures TimeUpdate(e, t).recorders == e.recorders
  {
  }

  /** A window whose start is not before its end stops at the first time update, at the start time. */
  lemma EmptyWindowStopsAtOnce(e: Editor)
    requires Wf(e) && HasVideo(e) && e.startTime >= e.endTime
    ensures
      var e1 := TimeUpdate(TrimVideo(e, true), e.startTime);
      e1.paused && e1.recorders[|e.recorders|].state == Stopping
  {
  }

  /**
   * The stop condition uses the end time of the moment trimming began: editing
   * the end time during the recording does not move it.
   */
  lemma EndTimeFixedAtTrigger(e: Editor, newEnd: real, t: real)
    requires Wf(e) && HasVideo(e) && e.endTime <= t < newEnd
    ensures
      var e1 := TimeChange(TrimVideo(e, true), "end", newEnd);
      TimeUpdate(e1, t).recorders[|e.recorders|].state == Stopping
  {
  }

  /** An event the page receives, delivered to the session one at a time. */
  datatype Event =
    | FileChosen(file: Option<Bytes>)
    | MetadataLoaded(d: real)
    | SliderMoved(v: real)
    | IntervalTick
    | PreviewEffect
    | TimeInput(name: string, value: real)
    | FilterInput(name: string, value: real)
    | TrimClicked(captureOk: bool)
    | ChunkDelivered(recorder: nat, chunk: Chunk)
    | PositionReported(t: real)
    | RecorderStopped(recorder: nat)

  /** The session after `ev`; an event that cannot arrive in `e` (no such live recorder, no video element) leaves it as it is. */
  function Step(e: Editor, ev: Event): Editor
  {
    match ev
    case FileChosen(file) => FileChange(e, file)
    case MetadataLoaded(d) => LoadedMetadata(e, d)
    case SliderMoved(v) => SliderChange(e, v)
    case IntervalTick => Tick(e)
    case PreviewEffect => PreviewSync(e)
    case TimeInput(name, value) => TimeChange(e, name, value)
    case FilterInput(name, value) => FilterChange(e, name, value)
    case TrimClicked(ok) => TrimVideo(e, ok)
    case ChunkDelivered(i, c) =>
      if i < |e.recorders| && e.recorders[i].state != Stopped then DataAvailable(e, i, c) else e
    case PositionReported(t) => if HasVideo(e) then TimeUpdate(e, t) else e
    case RecorderStopped(i) =>
      if i < |e.recorders| && e.recorders[i].state != Stopped then RecorderStop(e, i) else e
  }

  /** The session after the events `evs`, in order. */
  function Run(e: Editor, evs: seq<Event>): Editor
    decreases |evs|
  {
    if evs == [] then e else Run(Step(e, evs[0]), evs[1..])
  }

  /** A recorder that is recording and is not the last one keeps recording through any event but its own stop. */
  lemma StepKeepsOrphanRecording(e: Editor, k: nat, ev: Event)
    requires k + 1 < |e.recorders| && e.recorders[k].state == Recording && ev != RecorderStopped(k)
    ensures k + 1 < |Step(e, ev).recorders| && Step(e, ev).recorders[k].state == Recording
  {
  }

  /** ... and so through any run of events that does not contain its own stop. */
  lemma {:induction false} RunKeepsOrphanRecording(e: Editor, k: nat, evs: seq<Event>)
    requires k + 1 < |e.recorders| && e.recorders[k].state == Recording
    requires forall j :: 0 <= j < |evs| ==> evs[j] != RecorderStopped(k)
    ensures k + 1 < |Run(e, evs).recorders| && Run(e, evs).recorders[k].state == Recording
    decreases |evs|
  {
    if evs != [] {
      StepKeepsOrphanRecording(e, k, evs[0]);
      assert forall j :: 0 <= j < |evs[1..]| ==> evs[1..][j] == evs[j + 1];
      RunKeepsOrphanRecording(Step(e, evs[0]), k, evs[1..]);
    }
  }

  /**
   * A second trim while the first still records leaves the first recorder
   * recording for good: no handler of the component ever stops it again, so it
   * ends only by a stop the browser starts itself.
   */
  lemma SecondTrimOrphansFirst(e: Editor, evs: seq<Event>)
    requires Wf(e) && HasVideo(e)
    requires forall j :: 0 <= j < |evs| ==> evs[j] != RecorderStopped(|e.recorders|)
    ensures
      var e2 := TrimVideo(TrimVideo(e, true), true);
      |e.recorders| + 1 < |Run(e2, evs).recorders| && Run(e2, evs).recorders[|e.recorders|].state == Recording
  {
    RunKeepsOrphanRecording(TrimVideo(TrimVideo(e, true), true), |e.recorders|, evs);
  }

  /**
   * When the browser does stop the orphaned recorder, its `stop` handler
   * overwrites the newer export: after the second trim's export has finished,
   * the trimmed-video URL becomes a handle to the first recorder's chunks.
   */
  lemma OrphanStopReplacesNewerExport(e: Editor, orphanChunks: seq<Chunk>, t: real)
    requires Wf(e) && HasVideo(e) && t >= e.endTime
    ensures
      var i := |e.recorders|;
      var e1 := DeliverAll(TrimVideo(e, true), i, orphanChunks);
      var e2 := TimeUpdate(TrimVideo(e1, true), t);
      && e2.recorders[i + 1].state == Stopping && e2.recorders[i].state == Recording
      && var e3 := RecorderStop(e2, i + 1);
      && var e4 := RecorderStop(e3, i);
      && e3.trimmedVideoUrl.Some? && e4.trimmedVideoUrl.Some?
      && e4.trimmedVideoUrl != e3.trimmedVideoUrl
      && e4.urls.blobs[e4.trimmedVideoUrl.value] == Concat(orphanChunks)
  {
    var i := |e.recorders|;
    var e0 := TrimVideo(e, true);
    assert Wf(e0) && e0.recorders[i] == Recorder(Recording, []);
    DeliverAllAppends(e0, i, orphanChunks);
    var e1 := DeliverAll(e0, i, orphanChunks);
    assert Wf(e1) && HasVideo(e1) && e1.endTime == e.endTime && |e1.recorders| == i + 1;
    assert e1.recorders[i] == Recorder(Recording, orphanChunks);
    var e1' := TrimVideo(e1, true);
    assert Wf(e1') && e1'.stopAt == Some(e.endTime);
    assert e1'.recorders == e1.recorders + [Recorder(Recording, [])];
    var e2 := TimeUpdate(e1', t);
    assert Wf(e2) && e2.recorders == StopLast(e1'.recorders);
    assert e2.recorders[i + 1].state == Stopping && e2.recorders[i] == Recorder(Recording, orphanChunks);
    var e3 := RecorderStop(e2, i + 1);
    assert Wf(e3) && e3.recorders[i] == Recorder(Recording, orphanChunks);
    var e4 := RecorderStop(e3, i);
    assert e4.trimmedVideoUrl.value !in e3.urls.blobs;
  }

  /** Choosing a new file keeps the old file's URL live (it is not revoked) and gives the new one a fresh handle. */
  lemma FileChangeKeepsOldUrl(e: Editor, bytes: Bytes)
    requires Wf(e) && HasVideo(e)
    ensures FileChange(e, Some(bytes)).videoFile.value != e.videoFile.value
    ensures e.videoFile.value in FileChange(e, Some(bytes)).urls.blobs
  {
  }
}
