/**
 * Buffer health of the player (client/js/buffer-manager.js): seconds buffered ahead of the
 * playhead, its five bands, a bounded history of samples, and the gates built on them.
 */
module BufferMonitoring {
  import opened Wrappers

  /** One entry of the media element's `buffered` ranges, in seconds. */
  datatype TimeRange = TimeRange(start: real, end: real)

  /** What `getBufferHealth` reads from the media element. */
  datatype VideoState = VideoState(readyState: int, currentTime: real, buffered: seq<TimeRange>)

  /** The five health bands of `getBufferStatus`. */
  datatype BufferStatus = Critical | Low | Medium | Good | Excellent

  /** One entry of `bufferHistory`. */
  datatype BufferSample = BufferSample(bufferHealth: real, timestamp: int)

  /** The detail of the `bufferHealthUpdate` event. */
  datatype BufferHealthUpdate = BufferHealthUpdate(bufferHealth: real, status: BufferStatus)

  // `thresholds`, in seconds
  const CriticalThreshold: real := 2.0
  const LowThreshold: real := 5.0
  const GoodThreshold: real := 10.0
  const ExcellentThreshold: real := 20.0

  /** Capacity of `bufferHistory` (one minute of 1 s samples). */
  const HistoryCapacity: nat := 60
  /** Number of newest samples `canIncreaseQuality` averages. */
  const TrendWindow: nat := 10

  predicate Contains(r: TimeRange, t: real)
  {
    r.start <= t <= r.end
  }

  /** Seconds from `t` to the end of the first range that contains it, or 0 when none does. */
  function BufferAhead(ranges: seq<TimeRange>, t: real): (r: real)
    ensures r >= 0.0
  {
    if ranges == [] then 0.0
    else if Contains(ranges[0], t) then ranges[0].end - t
    else BufferAhead(ranges[1..], t)
  }

  /** The value `getBufferHealth` returns for a media element (`None`: no element). */
  function BufferHealth(video: Option<VideoState>): real
  {
    if video.None? || video.value.readyState < 2 then 0.0
    else if |video.value.buffered| == 0 then 0.0
    else BufferAhead(video.value.buffered, video.value.currentTime)
  }

  /** The first range containing `t` decides the result: its end minus `t`. */
  lemma {:induction false} BufferAheadIsFirstContainingRange(ranges: seq<TimeRange>, t: real, k: nat)
    requires k < |ranges| && Contains(ranges[k], t)
    requires forall j :: 0 <= j < k ==> !Contains(ranges[j], t)
    ensures BufferAhead(ranges, t) == ranges[k].end - t
  {
    if k > 0 {
      assert !Contains(ranges[0], t);
      BufferAheadIsFirstContainingRange(ranges[1..], t, k - 1);
    }
  }

  /** A playhead outside every range has nothing buffered ahead. */
  lemma {:induction false} BufferAheadOutsideEveryRange(ranges: seq<TimeRange>, t: real)
    requires forall j :: 0 <= j < |ranges| ==> !Contains(ranges[j], t)
    ensures BufferAhead(ranges, t) == 0.0
  {
    if ranges != [] {
      assert !Contains(ranges[0], t);
      BufferAheadOutsideEveryRange(ranges[1..], t);
    }
  }

  /** Buffer health is never negative, and it is 0 without an element, before `readyState` 2, or with no ranges. */
  lemma BufferHealthZeroCases(video: Option<VideoState>)
    ensures BufferHealth(video) >= 0.0
    ensures video.None? || video.value.readyState < 2 || video.value.buffered == [] ==> BufferHealth(video) == 0.0
  {
  }

  /** The repository's test: playhead at 10 s inside [5, 20] gives 10 s, which is `good`. */
  lemma BufferHealthScenario()
    ensures BufferHealth(Some(VideoState(2, 10.0, [TimeRange(5.0, 20.0)]))) == 10.0
    ensures GetBufferStatus(10.0) == Good
  {
  }

  /** `getBufferStatus`: every value falls in exactly one band. */
  function GetBufferStatus(bufferHealth: real): (r: BufferStatus)
    ensures r == Critical <==> bufferHealth <= CriticalThreshold
    ensures r == Low <==> CriticalThreshold < bufferHealth <= LowThreshold
    ensures r == Medium <==> LowThreshold < bufferHealth < GoodThreshold
    ensures r == Good <==> GoodThreshold <= bufferHealth < ExcellentThreshold
    ensures r == Excellent <==> ExcellentThreshold <= bufferHealth
  {
    if bufferHealth <= CriticalThreshold then Critical
    else if bufferHealth <= LowThreshold then Low
    else if bufferHealth >= ExcellentThreshold then Excellent
    else if bufferHealth >= GoodThreshold then Good
    else Medium
  }

  /** `shouldReduceQuality`: health at or below the low threshold, i.e. the critical and low bands. */
  function ShouldReduceQuality(video: Option<VideoState>): (r: bool)
    ensures r <==> GetBufferStatus(BufferHealth(video)) in {Critical, Low}
    ensures r <==> BufferHealth(video) <= LowThreshold
  {
    BufferHealth(video) <= LowThreshold
  }

  /** `history` after `recordBufferHealth` pushes `s` (one shift once it holds more than 60). */
  function Recorded(history: seq<BufferSample>, s: BufferSample): seq<BufferSample>
  {
    if |history + [s]| > HistoryCapacity then (history + [s])[1..] else history + [s]
  }

  /** Recording keeps the newest `min(n + 1, 60)` samples in order, the new one last. */
  lemma RecordedKeepsNewest(history: seq<BufferSample>, s: BufferSample)
    requires |history| <= HistoryCapacity
    ensures var r := Recorded(history, s);
      && |r| == (if |history| < HistoryCapacity then |history| + 1 else HistoryCapacity)
      && r == (history + [s])[|history| + 1 - |r|..]
      && r[|r| - 1] == s
  {
  }

  /** `bufferHistory.slice(-10)`. */
  function RecentHistory(history: seq<BufferSample>): seq<BufferSample>
  {
    if |history| <= TrendWindow then history else history[|history| - TrendWindow..]
  }

  function SumHealth(samples: seq<BufferSample>): real
  {
    if samples == [] then 0.0 else SumHealth(samples[..|samples| - 1]) + samples[|samples| - 1].bufferHealth
  }

  /** If every sample is at least `lo`, their sum is at least `lo` times their number; likewise below `hi`. */
  lemma {:induction false} SumHealthBounds(samples: seq<BufferSample>, lo: real, hi: real)
    ensures (forall i :: 0 <= i < |samples| ==> samples[i].bufferHealth >= lo) ==> SumHealth(samples) >= lo * |samples| as real
    ensures (forall i :: 0 <= i < |samples| ==> samples[i].bufferHealth < hi) && samples != [] ==> SumHealth(samples) < hi * |samples| as real
  {
    if samples != [] {
      var init := samples[..|samples| - 1];
      SumHealthBounds(init, lo, hi);
      assert forall i :: 0 <= i < |init| ==> init[i] == samples[i];
      if init == [] {
        assert SumHealth(samples) == samples[0].bufferHealth;
      }
    }
  }

  /** The mean of the newest (up to 10) samples, or the current health when the history is empty. */
  function TrendAverage(history: seq<BufferSample>, current: real): real
  {
    var recent := RecentHistory(history);
    if |recent| > 0 then SumHealth(recent) / |recent| as real else current
  }

  /** The mean lies between the smallest and the largest of the samples averaged. */
  lemma TrendAverageBounds(history: seq<BufferSample>, current: real, lo: real, hi: real)
    requires history != []
    ensures var recent := RecentHistory(history);
      && ((forall i :: 0 <= i < |recent| ==> recent[i].bufferHealth >= lo) ==> TrendAverage(history, current) >= lo)
      && ((forall i :: 0 <= i < |recent| ==> recent[i].bufferHealth < hi) ==> TrendAverage(history, current) < hi)
  {
    var recent := RecentHistory(history);
    SumHealthBounds(recent, lo, hi);
    MeanBounds(SumHealth(recent), |recent| as real, lo, hi);
  }

  /** Dividing by a positive count preserves bounds stated on the sum. */
  lemma MeanBounds(sum: real, n: real, lo: real, hi: real)
    requires n > 0.0
    ensures sum >= lo * n ==> sum / n >= lo
    ensures sum < hi * n ==> sum / n < hi
  {
    var avg := sum / n;
    assert avg * n == sum;
    if avg < lo {
      assert avg * n < lo * n;
    }
    if avg >= hi {
      assert avg * n >= hi * n;
    }
  }

  class BufferManager {
    var bufferHistory: seq<BufferSample>
    var isMonitoring: bool
    /** Number of 1 s sampling intervals `startMonitoring` has set up. */
    var timersStarted: nat

    ghost predicate Valid()
      reads this
    {
      |bufferHistory| <= HistoryCapacity
    }

    constructor ()
      ensures Valid() && bufferHistory == [] && !isMonitoring && timersStarted == 0
    {
      bufferHistory := [];
      isMonitoring := false;
      timersStarted := 0;
    }

    /** `startMonitoring`: does nothing when already monitoring, else sets up one sampling interval. */
    method StartMonitoring()
      modifies this
      ensures isMonitoring
      ensures timersStarted == if old(isMonitoring) then old(timersStarted) else old(timersStarted) + 1
      ensures bufferHistory == old(bufferHistory)
    {
      if isMonitoring {
        return;
      }
      isMonitoring := true;
      timersStarted := timersStarted + 1;
    }

    /** `stopMonitoring`: clears the flag; the history is kept. */
    method StopMonitoring()
      modifies this
      ensures !isMonitoring
      ensures bufferHistory == old(bufferHistory) && timersStarted == old(timersStarted)
    {
      isMonitoring := false;
    }

    /** `getBufferHealth`: the loop over the buffered ranges, with its early returns. */
    static method GetBufferHealth(video: Option<VideoState>) returns (h: real)
      ensures h == BufferHealth(video)
      ensures h >= 0.0
    {
      if video.None? || video.value.readyState < 2 {
        return 0.0;
      }
      var currentTime := video.value.currentTime;
      var buffered := video.value.buffered;
      if |buffered| == 0 {
        return 0.0;
      }
      var i := 0;
      while i < |buffered|
        invariant 0 <= i <= |buffered|
        invariant BufferAhead(buffered, currentTime) == BufferAhead(buffered[i..], currentTime)
      {
        var start := buffered[i].start;
        var end := buffered[i].end;
        if currentTime >= start && currentTime <= end {
          return end - currentTime;
        }
        assert buffered[i..][1..] == buffered[i + 1..];
        i := i + 1;
      }
      return 0.0;
    }

    /** `recordBufferHealth`: push the sample, then drop the oldest once over capacity. */
    method RecordBufferHealth(bufferHealth: real, now: int)
      requires Valid()
      modifies this
      ensures Valid()
      ensures bufferHistory == Recorded(old(bufferHistory), BufferSample(bufferHealth, now))
      ensures isMonitoring == old(isMonitoring) && timersStarted == old(timersStarted)
    {
      bufferHistory := bufferHistory + [BufferSample(bufferHealth, now)];
      if |bufferHistory| > HistoryCapacity {
        bufferHistory := bufferHistory[1..];
      }
    }

    /**
     * `updateBufferHealth`, the body of the 1 s interval: sample, record, and report the band
     * on the element. With no element the sample is still recorded, but the dispatch on the
     * missing element throws, so no event is emitted (`None`).
     */
    method UpdateBufferHealth(video: Option<VideoState>, now: int) returns (event: Option<BufferHealthUpdate>)
      requires Valid()
      modifies this
      ensures Valid()
      ensures bufferHistory == Recorded(old(bufferHistory), BufferSample(BufferHealth(video), now))
      ensures event.None? <==> video.None?
      ensures event.Some? ==>
        event.value == BufferHealthUpdate(BufferHealth(video), GetBufferStatus(BufferHealth(video)))
      ensures isMonitoring == old(isMonitoring) && timersStarted == old(timersStarted)
    {
      var bufferHealth := GetBufferHealth(video);
      RecordBufferHealth(bufferHealth, now);
      if video.None? {
        event := None;
      } else {
        event := Some(BufferHealthUpdate(bufferHealth, GetBufferStatus(bufferHealth)));
      }
    }

    /**
     * `canIncreaseQuality`: the mean of the newest (up to 10) recorded samples, or the
     * current health with an empty history, is at least 10 s.
     */
    function CanIncreaseQuality(video: Option<VideoState>): (r: bool)
      reads this
      ensures r <==> TrendAverage(bufferHistory, BufferHealth(video)) >= GoodThreshold
      ensures bufferHistory == [] ==> (r <==> GetBufferStatus(BufferHealth(video)) in {Good, Excellent})
    {
      TrendAverage(bufferHistory, BufferHealth(video)) >= GoodThreshold
    }
  }

  /** A sustained good buffer allows an increase; a uniformly short one forbids it, whatever the current sample says. */
  lemma CanIncreaseFollowsTrend(bm: BufferManager, video: Option<VideoState>)
    requires bm.bufferHistory != []
    ensures var recent := RecentHistory(bm.bufferHistory);
      && ((forall i :: 0 <= i < |recent| ==> recent[i].bufferHealth >= GoodThreshold) ==> bm.CanIncreaseQuality(video))
      && ((forall i :: 0 <= i < |recent| ==> recent[i].bufferHealth < GoodThreshold) ==> !bm.CanIncreaseQuality(video))
  {
    TrendAverageBounds(bm.bufferHistory, BufferHealth(video), GoodThreshold, GoodThreshold);
  }
}
