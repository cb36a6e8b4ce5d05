/**
 * The editing session as the component runs it: one object whose fields are
 * the component's state and the state of the page's video elements and
 * recorders, and whose methods are the event handlers, effect bodies and
 * browser callbacks. Each method is proved to take the session from
 * `old(View())` to the state the matching function of EditorSpec gives.
 */
module Session {
  import opened Wrappers
  import opened Filters
  import opened Blobs
  import opened EditorSpec

  class EditorSession {
    // React state
    var videoFile: Option<Handle>
    var trimmedVideoUrl: Option<Handle>
    var startTime: real
    var endTime: real
    var brightness: real
    var saturation: real
    var contrast: real
    var videoDuration: real
    var sliderValue: real
    // object URLs created by the page, and the next handle to hand out
    var objectUrls: map<Handle, Bytes>
    var nextHandle: Handle
    // the main and preview video elements
    var videoTime: real
    var paused: bool
    var previewTime: real
    // every recorder trimming has created, and the installed `ontimeupdate` handler's end time
    var recorders: seq<Recorder>
    var stopAt: Option<real>

    /** The session as a value. */
    function View(): Editor
      reads this
    {
      Editor(videoFile, trimmedVideoUrl, startTime, endTime,
             FilterState(brightness, saturation, contrast), videoDuration, sliderValue,
             Store(objectUrls, nextHandle), videoTime, paused, previewTime, recorders, stopAt)
    }

    ghost predicate Valid()
      reads this
    {
      Wf(View())
    }

    /** The first render: no file, window `{0, 10}`, every filter at 1. */
    constructor ()
      ensures Valid() && View() == Initial()
    {
      videoFile, trimmedVideoUrl := None, None;
      startTime, endTime := 0.0, 10.0;
      brightness, saturation, contrast := 1.0, 1.0, 1.0;
      videoDuration, sliderValue := 0.0, 0.0;
      objectUrls, nextHandle := map[], 0;
      videoTime, paused, previewTime := 0.0, true, 0.0;
      recorders, stopAt := [], None;
    }

    /** The CSS filter chain of the main video and the trimmed-video player. */
    function Styles(): (r: seq<FilterFn>)
      reads this
      ensures FiltersOf(r) == Some(FilterState(brightness, saturation, contrast))
      ensures |r| == 3 && FnName(r[0]) == "brightness" && FnName(r[1]) == "saturate" && FnName(r[2]) == "contrast"
    {
      VideoStyles(FilterState(brightness, saturation, contrast))
    }

    /** `URL.createObjectURL`: registers `bytes` under a handle not in use. */
    method NewObjectUrl(bytes: Bytes) returns (h: Handle)
      modifies this`objectUrls, this`nextHandle
      ensures (h, Store(objectUrls, nextHandle)) == CreateObjectUrl(old(Store(objectUrls, nextHandle)), bytes)
    {
      h := nextHandle;
      objectUrls := objectUrls[h := bytes];
      nextHandle := nextHandle + 1;
    }

    method HandleFileChange(file: Option<Bytes>)
      requires Valid()
      modifies this
      ensures Valid() && View() == FileChange(old(View()), file)
    {
      if file.Some? {
        var h := NewObjectUrl(file.value);
        videoFile := Some(h);
        sliderValue := 0.0;
        videoTime, paused, previewTime := 0.0, true, 0.0;
      }
    }

    method OnLoadedMetadata(duration: real)
      requires Valid()
      modifies this
      ensures Valid() && View() == LoadedMetadata(old(View()), duration)
    {
      if videoFile.Some? {
        videoDuration := duration;
        sliderValue := 0.0;
      }
    }

    method HandleSliderChange(v: real)
      requires Valid()
      modifies this
      ensures Valid() && View() == SliderChange(old(View()), v)
    {
      sliderValue := v;
      if videoFile.Some? && videoDuration != 0.0 {
        videoTime := v / 100.0 * videoDuration;
      }
      var newStartTime := v / 100.0 * videoDuration;
      startTime := newStartTime;
      endTime := newStartTime + 10.0;
    }

    /** The interval's `updateSlider`. */
    method UpdateSlider()
      requires Valid()
      modifies this
      ensures Valid() && View() == Tick(old(View()))
    {
      if videoFile.Some? && videoDuration != 0.0 {
        sliderValue := videoTime / videoDuration * 100.0;
      }
    }

    /** The effect that keeps the preview video at the slider's time. */
    method SyncPreview()
      requires Valid()
      modifies this
      ensures Valid() && View() == PreviewSync(old(View()))
    {
      if videoFile.Some? && videoDuration != 0.0 {
        previewTime := sliderValue / 100.0 * videoDuration;
      }
    }

    method HandleTimeChange(name: string, value: real)
      requires Valid()
      modifies this
      ensures Valid() && View() == TimeChange(old(View()), name, value)
    {
      if name == "start" {
        startTime := value;
      }
      if name == "end" {
        endTime := value;
      }
    }

    method HandleFilterChange(name: string, value: real)
      requires Valid()
      modifies this
      ensures Valid() && View() == FilterChange(old(View()), name, value)
    {
      if name == "brightness" {
        brightness := value;
      }
      if name == "saturation" {
        saturation := value;
      }
      if name == "contrast" {
        contrast := value;
      }
    }

    /** `trimVideo`; `captureOk` is false when the recorder cannot be created on this host. */
    method TrimVideo(captureOk: bool)
      requires Valid()
      modifies this
      ensures Valid() && View() == EditorSpec.TrimVideo(old(View()), captureOk)
    {
      if videoFile.None? || !captureOk {
        return;
      }
      recorders := recorders + [Recorder(Recording, [])];
      videoTime := startTime;
      paused := false;
      stopAt := Some(endTime);
    }

    /** The `dataavailable` handler of recorder `i`. */
    method OnDataAvailable(i: nat, chunk: Chunk)
      requires Valid() && i < |recorders| && recorders[i].state != Stopped
      modifies this
      ensures Valid() && View() == DataAvailable(old(View()), i, chunk)
    {
      recorders := recorders[i := recorders[i].(chunks := recorders[i].chunks + [chunk])];
    }

    /** The main video reports position `t`; the installed `ontimeupdate` handler runs. */
    method OnTimeUpdate(t: real)
      requires Valid() && videoFile.Some?
      modifies this
      ensures Valid() && View() == TimeUpdate(old(View()), t)
    {
      videoTime := t;
      if stopAt.Some? && t >= stopAt.value {
        paused := true;
        if |recorders| > 0 && recorders[|recorders| - 1].state == Recording {
          recorders := recorders[|recorders| - 1 := recorders[|recorders| - 1].(state := Stopping)];
        }
      }
    }

    /** The `stop` handler of recorder `i`, after `stop()` or a stop the browser started. */
    method OnStop(i: nat)
      requires Valid() && i < |recorders| && recorders[i].state != Stopped
      modifies this
      ensures Valid() && View() == RecorderStop(old(View()), i)
    {
      var trimmedUrl := NewObjectUrl(Concat(recorders[i].chunks));
      trimmedVideoUrl := Some(trimmedUrl);
      recorders := recorders[i := recorders[i].(state := Stopped)];
    }

    /** `saveTrimmedVideo`: the download it starts, if any. */
    method SaveTrimmedVideo() returns (d: Option<Download>)
      ensures d.Some? <==> trimmedVideoUrl.Some?
      ensures d.Some? ==> d.value.url == trimmedVideoUrl.value && d.value.fileName == "trimmed-video.webm"
    {
      if trimmedVideoUrl.Some? {
        d := Some(Download(trimmedVideoUrl.value, DownloadName));
      } else {
        d := None;
      }
    }
  }

  /** Scrubbing a 30 s video to the middle seeks both videos to 15 s and proposes the window `{15, 25}`. */
  method ScrubScenario(file: Bytes) returns (seekedTo: real, previewAt: real, start: real, end: real)
    ensures seekedTo == 15.0 && previewAt == 15.0
    ensures start == 15.0 && end == 25.0
  {
    var s := new EditorSession();
    s.HandleFileChange(Some(file));
    s.OnLoadedMetadata(30.0);
    s.HandleSliderChange(50.0);
    s.SyncPreview();
    seekedTo, previewAt := s.videoTime, s.previewTime;
    start, end := s.startTime, s.endTime;
  }

  /**
   * Exporting `[5, 15]` of a 30 s video whose recorder delivers one chunk on
   * stopping: the download offered is that chunk, under the fixed name.
   */
  method ExportScenario(file: Bytes, chunk: Chunk) returns (download: Option<Download>, bytes: Bytes)
    ensures download.Some? && download.value.fileName == "trimmed-video.webm"
    ensures bytes == chunk
  {
    var s := new EditorSession();
    s.HandleFileChange(Some(file));
    s.OnLoadedMetadata(30.0);
    s.HandleTimeChange("start", 5.0);
    s.HandleTimeChange("end", 15.0);
    s.TrimVideo(true);
    s.OnTimeUpdate(10.0);
    assert s.recorders[0].state == Recording;
    s.OnTimeUpdate(15.0);
    s.OnDataAvailable(0, chunk);
    assert s.recorders[0].chunks == [chunk];
    assert Concat([chunk]) == chunk by {
      assert [chunk][1..] == [];
    }
    s.OnStop(0);
    download := s.SaveTrimmedVideo();
    bytes := s.objectUrls[download.value.url];
  }

  /** Trimming with no file loaded changes nothing. */
  method TrimWithoutVideoScenario() returns (recorderCount: nat, wasPaused: bool)
    ensures recorderCount == 0 && wasPaused
  {
    var s := new EditorSession();
    s.TrimVideo(true);
    recorderCount, wasPaused := |s.recorders|, s.paused;
  }
}
