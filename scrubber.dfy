/**
 * The scrubber's arithmetic: a slider value on the [0,100] scale stands for a
 * playback time in seconds, as a percentage of the video's duration, and a
 * scrub also proposes a trim window of fixed length starting at that time.
 * Numbers are exact reals; IEEE-754 rounding is not modelled.
 */
module Scrubber {

  /** Length, in seconds, of the trim window a scrub proposes. */
  const DefaultWindowLength: real := 10.0

  /**
   * Playback time that slider value `v` stands for in a video of `duration`
   * seconds: a value on the widget's scale lands inside the video, and with no
   * duration every value stands for time 0.
   */
  function SliderToTime(v: real, duration: real): (t: real)
    ensures 0.0 <= v <= 100.0 && 0.0 <= duration ==> 0.0 <= t <= duration
    ensures duration == 0.0 ==> t == 0.0
  {
    var f := v / 100.0;
    assert 0.0 <= v <= 100.0 && 0.0 <= duration ==> (1.0 - f) * duration >= 0.0;
    f * duration
  }

  /**
   * Slider value that playback time `t` stands for; the component only divides
   * by a nonzero duration. A time inside the video lands on the widget's scale.
   */
  function TimeToSlider(t: real, duration: real): (v: real)
    requires duration != 0.0
    ensures 0.0 < duration && 0.0 <= t <= duration ==> 0.0 <= v <= 100.0
  {
    var f := t / duration;
    assert 0.0 < duration ==> f * duration == t;
    f * 100.0
  }

  /** A `[start, end]` time range selected for export. */
  datatype TrimWindow = TrimWindow(start: real, end: real)

  /**
   * The window a scrub to `v` proposes: it starts at the scrubbed time, is
   * always ten seconds long, and is not clamped to the duration.
   */
  function WindowAt(v: real, duration: real): (w: TrimWindow)
    ensures w.start <= w.end && w.end - w.start == DefaultWindowLength
    ensures 0.0 <= v <= 100.0 && 0.0 <= duration ==> 0.0 <= w.start <= duration
    ensures duration == 0.0 ==> w == TrimWindow(0.0, 10.0)
  {
    var start := SliderToTime(v, duration);
    TrimWindow(start, start + DefaultWindowLength)
  }

  /** Going from a slider value to a time and back gives the slider value again. */
  lemma SliderTimeRoundTrip(v: real, duration: real)
    requires duration != 0.0
    ensures TimeToSlider(SliderToTime(v, duration), duration) == v
  {
  }

  /** Going from a time to a slider value and back gives the time again. */
  lemma TimeSliderRoundTrip(t: real, duration: real)
    requires duration != 0.0
    ensures SliderToTime(TimeToSlider(t, duration), duration) == t
  {
  }

  /** Moving the slider forward never moves the time backward. */
  lemma SliderToTimeMonotonic(v1: real, v2: real, duration: real)
    requires v1 <= v2 && 0.0 <= duration
    ensures SliderToTime(v1, duration) <= SliderToTime(v2, duration)
  {
    assert (v2 / 100.0 - v1 / 100.0) * duration >= 0.0;
  }

  /** The window is not clamped to the duration: scrubbing to the end of a 30 s video proposes `{30, 40}`. */
  lemma WindowAtNotClamped()
    ensures WindowAt(100.0, 30.0) == TrimWindow(30.0, 40.0)
    ensures WindowAt(100.0, 30.0).end > 30.0
  {
  }
}
