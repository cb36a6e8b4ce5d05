/**
 * The editing session of the video editor as a value, and one function per
 * event handler or browser callback giving the state after it runs.
 *
 * The state is the component's React state (video URL, duration, slider value,
 * trim window, filters, trimmed-video URL), the object URLs the page has
 * created, the playback state of the main and preview video elements, every
 * MediaRecorder that trimming has started, and the `ontimeupdate` watch that
 * stops the latest recorder. Callbacks that the browser delivers
 * asynchronously are separate functions, called one at a time.
 */
module EditorSpec {
  import opened Wrappers
  import opened Scrubber
  import opened Filters
  import opened Blobs

  /** Lifecycle of one MediaRecorder started by a trim. */
  datatype RecorderState =
    | Recording  // started; delivers chunks
    | Stopping   // `stop()` was called: its last `dataavailable` and its `stop` event are still due
    | Stopped    // its `stop` event has been handled, whoever started the stop

  /** A recorder and the chunks its `dataavailable` handler has pushed, in delivery order. */
  datatype Recorder = Recorder(state: RecorderState, chunks: seq<Chunk>)

  datatype Editor = Editor(
    videoFile: Option<Handle>,        // object URL of the chosen file; the video elements exist once it is set
    trimmedVideoUrl: Option<Handle>,  // object URL of the latest finished recording
    startTime: real,
    endTime: real,
    filters: FilterState,
    duration: real,                   // the component's copy of the main video's duration
    sliderValue: real,
    urls: Store,                      // every object URL created so far
    videoTime: real,                  // playback position of the main video
    paused: bool,
    previewTime: real,                // playback position of the muted preview video
    recorders: seq<Recorder>,         // every recorder trimming has created, oldest first
    stopAt: Option<real>              // the end time the installed `ontimeupdate` handler stops the last recorder at
  )

  /** What the download button saves: a URL and the file name it is saved under. */
  datatype Download = Download(url: Handle, fileName: string)

  const DownloadName: string := "trimmed-video.webm"

  /** The main and preview video elements are rendered only once a file is chosen. */
  predicate HasVideo(e: Editor)
  {
    e.videoFile.Some?
  }

  /** What every reachable state satisfies. */
  predicate Wf(e: Editor)
  {
    && StoreWf(e.urls)
    && (e.videoFile.Some? ==> e.videoFile.value in e.urls.blobs)
    && (e.trimmedVideoUrl.Some? ==> e.trimmedVideoUrl.value in e.urls.blobs)
    && (e.stopAt.Some? ==> HasVideo(e) && |e.recorders| > 0)
  }

  /** The state on first render. */
  function Initial(): (r: Editor)
    ensures Wf(r) && !HasVideo(r) && r.recorders == [] && r.trimmedVideoUrl.None?
  {
    Editor(None, None, 0.0, 10.0, DefaultFilters, 0.0, 0.0, EmptyStore, 0.0, true, 0.0, [], None)
  }

  /**
   * `handleFileChange`: a chosen file gets a fresh object URL and the slider
   * returns to 0; the video elements (re)load it from position 0, paused. With
   * no file chosen nothing changes. The duration keeps its old value until the
   * new metadata arrives, and the old file's URL is not revoked.
   */
  function FileChange(e: Editor, file: Option<Bytes>): (r: Editor)
    ensures Wf(e) ==> Wf(r)
    ensures file.None? ==> r == e
    ensures file.Some? ==>
      && r.videoFile.Some? && r.urls.blobs == e.urls.blobs[r.videoFile.value := file.value]
      && (StoreWf(e.urls) ==> r.videoFile.value !in e.urls.blobs)
      && r.sliderValue == 0.0 && r.duration == e.duration
      && r.videoTime == 0.0 && r.previewTime == 0.0 && r.paused
      && r.(videoFile := e.videoFile, urls := e.urls, sliderValue := e.sliderValue,
            videoTime := e.videoTime, paused := e.paused, previewTime := e.previewTime) == e
  {
    match file
    case None => e
    case Some(bytes) =>
      var (h, urls) := CreateObjectUrl(e.urls, bytes);
      e.(videoFile := Some(h), urls := urls, sliderValue := 0.0,
         videoTime := 0.0, paused := true, previewTime := 0.0)
  }

  /** The `loadedmetadata` handler: records the duration and returns the slider to 0; it is installed only on a rendered video. */
  function LoadedMetadata(e: Editor, d: real): (r: Editor)
    ensures Wf(e) ==> Wf(r)
    ensures HasVideo(e) ==> r.duration == d && r.sliderValue == 0.0
    ensures !HasVideo(e) ==> r == e
    ensures r.(duration := e.duration, sliderValue := e.sliderValue) == e
  {
    if HasVideo(e) then e.(duration := d, sliderValue := 0.0) else e
  }

  /**
   * `handleSliderChange`: the slider takes value `v`, the main video seeks to
   * the time `v` stands for when it exists and the duration is nonzero, and the
   * trim window becomes the ten seconds from that time, unclamped.
   */
  function SliderChange(e: Editor, v: real): (r: Editor)
    ensures Wf(e) ==> Wf(r)
    ensures r.sliderValue == v
    ensures TrimWindow(r.startTime, r.endTime) == WindowAt(v, e.duration)
    ensures r.videoTime == (if HasVideo(e) && e.duration != 0.0 then SliderToTime(v, e.duration) else e.videoTime)
    ensures r.(sliderValue := e.sliderValue, videoTime := e.videoTime,
               startTime := e.startTime, endTime := e.endTime) == e
  {
    var t := SliderToTime(v, e.duration);
    e.(sliderValue := v,
       videoTime := if HasVideo(e) && e.duration != 0.0 then t else e.videoTime,
       startTime := t,
       endTime := t + DefaultWindowLength)
  }

  /** `updateSlider`, run by the 100 ms interval: the slider follows playback when the video exists and the duration is nonzero. */
  function Tick(e: Editor): (r: Editor)
    ensures Wf(e) ==> Wf(r)
    ensures r.(sliderValue := e.sliderValue) == e
    ensures HasVideo(e) && e.duration != 0.0 ==> r.sliderValue == e.videoTime / e.duration * 100.0
    ensures !HasVideo(e) || e.duration == 0.0 ==> r == e
  {
    if HasVideo(e) && e.duration != 0.0 then
      e.(sliderValue := TimeToSlider(e.videoTime, e.duration))
    else
      e
  }

  /** The preview-sync effect: the preview video seeks to the slider's time when it exists and the duration is nonzero. */
  function PreviewSync(e: Editor): (r: Editor)
    ensures Wf(e) ==> Wf(r)
    ensures r.(previewTime := e.previewTime) == e
    ensures HasVideo(e) && e.duration != 0.0 ==> r.previewTime == e.sliderValue / 100.0 * e.duration
    ensures !HasVideo(e) || e.duration == 0.0 ==> r == e
  {
    if HasVideo(e) && e.duration != 0.0 then
      e.(previewTime := SliderToTime(e.sliderValue, e.duration))
    else
      e
  }

  /** `handleTimeChange`: the input named "start" or "end" sets that bound; any other name changes nothing. */
  function TimeChange(e: Editor, name: string, value: real): (r: Editor)
    ensures Wf(e) ==> Wf(r)
    ensures name == "start" ==> r.startTime == value
    ensures name == "end" ==> r.endTime == value
    ensures name != "start" ==> r.startTime == e.startTime
    ensures name != "end" ==> r.endTime == e.endTime
    ensures r.(startTime := e.startTime, endTime := e.endTime) == e
  {
    if name == "start" then e.(startTime := value)
    else if name == "end" then e.(endTime := value)
    else e
  }

  /** `handleFilterChange`: the input named "brightness", "saturation" or "contrast" sets that parameter; any other name changes nothing. */
  function FilterChange(e: Editor, name: string, value: real): (r: Editor)
    ensures Wf(e) ==> Wf(r)
    ensures name == "brightness" ==> r.filters == e.filters.(brightness := value)
    ensures name == "saturation" ==> r.filters == e.filters.(saturation := value)
    ensures name == "contrast" ==> r.filters == e.filters.(contrast := value)
    ensures name != "brightness" && name != "saturation" && name != "contrast" ==> r == e
    ensures r.(filters := e.filters) == e
  {
    if name == "brightness" then e.(filters := e.filters.(brightness := value))
    else if name == "saturation" then e.(filters := e.filters.(saturation := value))
    else if name == "contrast" then e.(filters := e.filters.(contrast := value))
    else e
  }

  /**
   * `trimVideo`: without a video element nothing happens; if the recorder
   * cannot be created (`captureOk` false, the constructor throws) nothing
   * happens either. Otherwise a new recorder starts with no chunks, the video
   * seeks to the start time and plays, and the `ontimeupdate` handler is
   * replaced by one that stops the new recorder at the end time of this
   * moment. Earlier recorders are left as they are: there is no busy guard.
   */
  function TrimVideo(e: Editor, captureOk: bool): (r: Editor)
    ensures Wf(e) ==> Wf(r)
    ensures !HasVideo(e) || !captureOk ==> r == e
    ensures HasVideo(e) && captureOk ==>
      && r.recorders == e.recorders + [Recorder(Recording, [])]
      && r.videoTime == e.startTime && !r.paused && r.stopAt == Some(e.endTime)
      && r.(recorders := e.recorders, videoTime := e.videoTime, paused := e.paused, stopAt := e.stopAt) == e
  {
    if !HasVideo(e) || !captureOk then e
    else
      e.(recorders := e.recorders + [Recorder(Recording, [])],
         videoTime := e.startTime,
         paused := false,
         stopAt := Some(e.endTime))
  }

  /** A recorder's `dataavailable` handler: pushes the chunk onto that recorder's list. */
  function DataAvailable(e: Editor, i: nat, chunk: Chunk): (r: Editor)
    requires i < |e.recorders| && e.recorders[i].state != Stopped
    ensures Wf(e) ==> Wf(r)
    ensures |r.recorders| == |e.recorders|
    ensures r.recorders[i] == Recorder(e.recorders[i].state, e.recorders[i].chunks + [chunk])
    ensures forall j :: 0 <= j < |e.recorders| && j != i ==> r.recorders[j] == e.recorders[j]
    ensures r.(recorders := e.recorders) == e
  {
    e.(recorders := e.recorders[i := e.recorders[i].(chunks := e.recorders[i].chunks + [chunk])])
  }

  /** `stop()` on the last recorder: a recording one starts stopping; on an inactive one it does nothing. */
  function StopLast(rs: seq<Recorder>): (r: seq<Recorder>)
    ensures |r| == |rs|
    ensures forall j :: 0 <= j < |rs| - 1 ==> r[j] == rs[j]
    ensures |rs| > 0 ==> r[|rs| - 1].chunks == rs[|rs| - 1].chunks
    ensures |rs| > 0 ==> r[|rs| - 1].state == (if rs[|rs| - 1].state == Recording then Stopping else rs[|rs| - 1].state)
  {
    if rs == [] then rs
    else
      var last := rs[|rs| - 1];
      if last.state == Recording then rs[|rs| - 1 := last.(state := Stopping)] else rs
  }

  /**
   * The main video reports position `t`. The installed handler, if any, pauses
   * the video and stops the last recorder once `t` reaches its end time.
   */
  function TimeUpdate(e: Editor, t: real): (r: Editor)
    requires HasVideo(e)
    ensures Wf(e) ==> Wf(r)
    ensures r.videoTime == t
    ensures r.paused == (e.paused || (e.stopAt.Some? && t >= e.stopAt.value))
    ensures r.recorders == (if e.stopAt.Some? && t >= e.stopAt.value then StopLast(e.recorders) else e.recorders)
    ensures r.(videoTime := e.videoTime, paused := e.paused, recorders := e.recorders) == e
  {
    var e1 := e.(videoTime := t);
    if e.stopAt.Some? && t >= e.stopAt.value then
      e1.(paused := true, recorders := StopLast(e.recorders))
    else
      e1
  }

  /**
   * A recorder's `stop` handler: a fresh object URL for the Blob of its chunks
   * in delivery order becomes the trimmed-video URL. The URL it replaces is not
   * revoked. The event follows the component's own `stop()` call, or comes from
   * the browser while the recorder still records (its tracks ended, an error).
   */
  function RecorderStop(e: Editor, i: nat): (r: Editor)
    requires i < |e.recorders| && e.recorders[i].state != Stopped
    ensures Wf(e) ==> Wf(r)
    ensures r.trimmedVideoUrl.Some?
    ensures r.urls.blobs == e.urls.blobs[r.trimmedVideoUrl.value := Concat(e.recorders[i].chunks)]
    ensures StoreWf(e.urls) ==> r.trimmedVideoUrl.value !in e.urls.blobs
    ensures r.recorders == e.recorders[i := Recorder(Stopped, e.recorders[i].chunks)]
    ensures r.(trimmedVideoUrl := e.trimmedVideoUrl, urls := e.urls, recorders := e.recorders) == e
  {
    var (h, urls) := CreateObjectUrl(e.urls, Concat(e.recorders[i].chunks));
    e.(urls := urls, trimmedVideoUrl := Some(h), recorders := e.recorders[i := e.recorders[i].(state := Stopped)])
  }

  /** `saveTrimmedVideo`: a download of the trimmed video under a fixed name, only when one exists. */
  function SaveTrimmedVideo(e: Editor): (r: Option<Download>)
    ensures r.Some? <==> e.trimmedVideoUrl.Some?
    ensures r.Some? ==> r.value == Download(e.trimmedVideoUrl.value, "trimmed-video.webm")
  {
    match e.trimmedVideoUrl
    case None => None
    case Some(h) => Some(Download(h, DownloadName))
  }

  /** The rendered video elements. */
  datatype Surface = MainVideo | PreviewVideo | TrimmedVideo

  /** The CSS filter a rendered surface is given; the preview video is given none. */
  function SurfaceFilter(e: Editor, s: Surface): (r: Option<seq<FilterFn>>)
    ensures r.None? <==> s == PreviewVideo
    ensures r.Some? ==> FiltersOf(r.value) == Some(e.filters)
  {
    match s
    case MainVideo => Some(VideoStyles(e.filters))
    case PreviewVideo => None
    case TrimmedVideo => Some(VideoStyles(e.filters))
  }
}
