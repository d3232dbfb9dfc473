/**
 * Speculative preloading (client/js/preloader.js): which tier to preload next, which time
 * window, and a size-accounted cache of segments with age-based cleanup and lookup.
 */
module Preloading {
  import opened Wrappers
  import opened QualityControl
  import BufferMonitoring

  /** `maxPreloadSize`: 50 MB. */
  const MaxPreloadSize: int := 50 * 1024 * 1024
  /** Age beyond which `cleanupOldSegments` evicts a segment, in milliseconds. */
  const SegmentMaxAgeMs: int := 300000
  /** Length of the window `preloadNextQuality` asks for, in seconds. */
  const PreloadSeconds: real := 30.0
  /** `avgBitrate` of `timeToByteRange`, in bits per second. */
  const AverageBitrate: int := 1000000

  // ---------------------------------------------------------------------------
  // What to preload
  // ---------------------------------------------------------------------------

  /** `determineNextLikelyQuality`: one tier up above 15 s of buffer, one tier down below 8 s. */
  function NextLikelyQuality(current: Tier, bufferHealth: real): (r: Option<Tier>)
    ensures r.Some? <==> (bufferHealth > 15.0 && current != High) || (bufferHealth < 8.0 && current != UltraLow)
    ensures r.Some? && bufferHealth > 15.0 ==> Index(r.value) == Index(current) + 1
    ensures r.Some? && bufferHealth < 8.0 ==> Index(r.value) + 1 == Index(current)
  {
    var i := Index(current);
    if bufferHealth > 15.0 && i < |QualityOrder| - 1 then Some(QualityOrder[i + 1])
    else if bufferHealth < 8.0 && i > 0 then Some(QualityOrder[i - 1])
    else None
  }

  function MinReal(a: real, b: real): real
  {
    if a <= b then a else b
  }

  /** A segment to fetch: tier and time window in seconds. */
  datatype PreloadRequest = PreloadRequest(quality: Tier, startTime: real, endTime: real)

  /** The request `preloadNextQuality` makes, or `None` where it returns early. */
  function PreloadWindow(current: Tier, bufferHealth: real, currentTime: real, duration: real): Option<PreloadRequest>
  {
    if bufferHealth < 10.0 then None
    else
      var next := NextLikelyQuality(current, bufferHealth);
      if next.None? || next.value == current then None
      else
        var preloadStart := currentTime + bufferHealth;
        var preloadEnd := MinReal(preloadStart + PreloadSeconds, duration);
        if preloadEnd <= preloadStart then None
        else Some(PreloadRequest(next.value, preloadStart, preloadEnd))
  }

  /**
   * Only an upgrade is ever preloaded: the 10 s gate rules out the downgrade branch. A request
   * exists exactly when the buffer exceeds 15 s, the tier is not the top one and the window is
   * non-empty, and then it is the window from the end of the buffer to 30 s later or the end.
   */
  lemma PreloadIsAlwaysAnUpgrade(current: Tier, bufferHealth: real, currentTime: real, duration: real)
    ensures var w := PreloadWindow(current, bufferHealth, currentTime, duration);
      var start := currentTime + bufferHealth;
      && (w.Some? <==> bufferHealth > 15.0 && current != High && MinReal(start + PreloadSeconds, duration) > start)
      && (w.Some? ==>
            && Index(w.value.quality) == Index(current) + 1
            && w.value.startTime == start
            && w.value.endTime == MinReal(start + PreloadSeconds, duration)
            && w.value.startTime < w.value.endTime)
  {
  }

  /** The `Range` header's bytes, `floor(t * avgBitrate / 8)` for each end. */
  datatype ByteRange = ByteRange(startByte: int, endByte: int)

  /** `timeToByteRange(startTime, endTime)`. */
  function TimeToByteRange(startTime: real, endTime: real): (r: ByteRange)
    ensures (8 * r.startByte) as real <= startTime * AverageBitrate as real < (8 * r.startByte + 8) as real
    ensures (8 * r.endByte) as real <= endTime * AverageBitrate as real < (8 * r.endByte + 8) as real
    ensures startTime <= endTime ==> r.startByte <= r.endByte
  {
    ByteRange((startTime * AverageBitrate as real / 8.0).Floor, (endTime * AverageBitrate as real / 8.0).Floor)
  }

  // ---------------------------------------------------------------------------
  // The segment cache
  // ---------------------------------------------------------------------------

  /** A key `${quality}-${startTime}-${endTime}`, kept as its three parts. */
  datatype SegmentKey = SegmentKey(quality: Tier, startTime: real, endTime: real)

  /** A stored segment: the bytes fetched, when they arrived, and their `byteLength`. */
  datatype Segment = Segment(data: seq<bv8>, timestamp: int, size: nat)

  /** One entry of the `preloadedSegments` map; the sequence keeps the map's insertion order. */
  datatype Entry = Entry(key: SegmentKey, segment: Segment)

  /** The request `preloadVideoSegment` issues: the tier's URL with a `Range: bytes=start-end` header. */
  datatype SegmentRequest = SegmentRequest(url: string, range: ByteRange)

  /** What `fetch` and `arrayBuffer()` produced: a rejection, or a response with its status and body. */
  datatype FetchOutcome = FetchFailed | Response(ok: bool, body: seq<bv8>, receivedAt: int)

  /** The text before the first `'-'`, as `split('-')[0]` gives it. */
  function FirstField(s: string): string
  {
    if s == [] || s[0] == '-' then [] else [s[0]] + FirstField(s[1..])
  }

  /** The first `'-'`-separated field of an entry's key string (the separator after the tier name bounds it). */
  function KeyQualityField(key: SegmentKey): string
  {
    FirstField(Name(key.quality) + "-")
  }

  /** The test of `hasPreloadedSegment`'s loop for one entry. */
  predicate Matches(e: Entry, quality: Tier, time: real)
  {
    KeyQualityField(e.key) == Name(quality) && e.key.startTime <= time <= e.key.endTime
  }

  /** A dash-free prefix followed by a dash is exactly what the first field reads. */
  lemma {:induction false} FirstFieldOfDashFree(a: string, b: string)
    requires '-' !in a
    ensures FirstField(a + "-" + b) == a
  {
    if a != [] {
      assert (a + "-" + b)[1..] == a[1..] + "-" + b;
      FirstFieldOfDashFree(a[1..], b);
    } else {
      assert a + "-" + b == ['-'] + b;
    }
  }

  /** For every tier but ultra-low the key field is the tier's name; ultra-low keys split to "ultra". */
  lemma KeyQualityFieldOfTier(key: SegmentKey)
    ensures key.quality != UltraLow ==> KeyQualityField(key) == Name(key.quality)
    ensures key.quality == UltraLow ==> KeyQualityField(key) == "ultra"
  {
    if key.quality == UltraLow {
      assert Name(key.quality) + "-" == "ultra" + "-" + "low-";
      FirstFieldOfDashFree("ultra", "low-");
    } else {
      assert Name(key.quality) + "-" == Name(key.quality) + "-" + "";
      FirstFieldOfDashFree(Name(key.quality), "");
    }
  }

  /** An entry matches exactly when its tier is the one asked for, that tier is not ultra-low, and the time is in its window. */
  lemma MatchesExactly(e: Entry, quality: Tier, time: real)
    ensures Matches(e, quality, time) <==>
      e.key.quality == quality && quality != UltraLow && e.key.startTime <= time <= e.key.endTime
  {
    KeyQualityFieldOfTier(e.key);
  }

  /** The segment `hasPreloadedSegment` returns: that of the first matching entry. */
  function FindSegment(entries: seq<Entry>, quality: Tier, time: real): Option<Segment>
  {
    if entries == [] then None
    else if Matches(entries[0], quality, time) then Some(entries[0].segment)
    else FindSegment(entries[1..], quality, time)
  }

  /** The lookup finds the first entry that matches, and nothing when none does. */
  lemma {:induction false} FindSegmentIsFirstMatch(entries: seq<Entry>, quality: Tier, time: real)
    ensures FindSegment(entries, quality, time).None? <==> forall i :: 0 <= i < |entries| ==> !Matches(entries[i], quality, time)
    ensures FindSegment(entries, quality, time).Some? ==>
      exists i :: && 0 <= i < |entries| && Matches(entries[i], quality, time)
                  && FindSegment(entries, quality, time).value == entries[i].segment
                  && forall j :: 0 <= j < i ==> !Matches(entries[j], quality, time)
  {
    if entries != [] {
      FindSegmentIsFirstMatch(entries[1..], quality, time);
      if !Matches(entries[0], quality, time) && FindSegment(entries, quality, time).Some? {
        var i :| && 0 <= i < |entries[1..]| && Matches(entries[1..][i], quality, time)
                 && FindSegment(entries[1..], quality, time).value == entries[1..][i].segment
                 && forall j :: 0 <= j < i ==> !Matches(entries[1..][j], quality, time);
        assert Matches(entries[i + 1], quality, time);
        assert forall j :: 0 <= j < i + 1 ==> !Matches(entries[j], quality, time) by {
          forall j | 0 <= j < i + 1 ensures !Matches(entries[j], quality, time) {
            if j > 0 { assert entries[j] == entries[1..][j - 1]; }
          }
        }
      }
      if FindSegment(entries, quality, time).None? {
        forall i | 0 <= i < |entries| ensures !Matches(entries[i], quality, time) {
          if i > 0 { assert entries[i] == entries[1..][i - 1]; }
        }
      }
    }
  }

  /** Ultra-low segments are stored under keys whose first field is "ultra", so they are never found. */
  lemma UltraLowIsNeverFound(entries: seq<Entry>, time: real)
    ensures FindSegment(entries, UltraLow, time) == None
  {
    forall i | 0 <= i < |entries| ensures !Matches(entries[i], UltraLow, time) {
      MatchesExactly(entries[i], UltraLow, time);
    }
    FindSegmentIsFirstMatch(entries, UltraLow, time);
  }

  predicate HasKey(entries: seq<Entry>, key: SegmentKey)
  {
    exists i :: 0 <= i < |entries| && entries[i].key == key
  }

  predicate DistinctKeys(entries: seq<Entry>)
  {
    forall i, j :: 0 <= i < j < |entries| ==> entries[i].key != entries[j].key
  }

  /** The sum of the stored entries' sizes. */
  function TotalSize(entries: seq<Entry>): nat
  {
    if entries == [] then 0 else TotalSize(entries[..|entries| - 1]) + entries[|entries| - 1].segment.size
  }

  /** The entries `cleanupOldSegments` keeps: those not older than the cutoff, in order. */
  function FreshOnly(entries: seq<Entry>, cutoff: int): seq<Entry>
  {
    if entries == [] then []
    else
      var last := entries[|entries| - 1];
      FreshOnly(entries[..|entries| - 1], cutoff) + (if last.segment.timestamp < cutoff then [] else [last])
  }

  /** The entries it evicts: those with `timestamp < cutoff`, in order. */
  function StaleOnly(entries: seq<Entry>, cutoff: int): seq<Entry>
  {
    if entries == [] then []
    else
      var last := entries[|entries| - 1];
      StaleOnly(entries[..|entries| - 1], cutoff) + (if last.segment.timestamp < cutoff then [last] else [])
  }

  lemma TotalSizeAppend(entries: seq<Entry>, e: Entry)
    ensures TotalSize(entries + [e]) == TotalSize(entries) + e.segment.size
  {
    assert (entries + [e])[..|entries|] == entries;
  }

  /** One step of both filters on a non-empty sequence. */
  lemma CleanupStep(entries: seq<Entry>, e: Entry, cutoff: int)
    ensures FreshOnly(entries + [e], cutoff) == FreshOnly(entries, cutoff) + (if e.segment.timestamp < cutoff then [] else [e])
    ensures StaleOnly(entries + [e], cutoff) == StaleOnly(entries, cutoff) + (if e.segment.timestamp < cutoff then [e] else [])
  {
    assert (entries + [e])[..|entries|] == entries;
  }

  /** How both filters and the evicted size advance by one entry of the cleanup loop. */
  lemma CleanupLoopStep(entries: seq<Entry>, i: nat, cutoff: int)
    requires i < |entries|
    ensures entries[i].segment.timestamp < cutoff ==>
      && FreshOnly(entries[..i + 1], cutoff) == FreshOnly(entries[..i], cutoff)
      && TotalSize(StaleOnly(entries[..i + 1], cutoff)) == TotalSize(StaleOnly(entries[..i], cutoff)) + entries[i].segment.size
    ensures entries[i].segment.timestamp >= cutoff ==>
      && FreshOnly(entries[..i + 1], cutoff) == FreshOnly(entries[..i], cutoff) + [entries[i]]
      && StaleOnly(entries[..i + 1], cutoff) == StaleOnly(entries[..i], cutoff)
  {
    assert entries[..i + 1] == entries[..i] + [entries[i]];
    CleanupSplit(entries[..i], entries[i], cutoff);
  }

  /** Appending one entry advances exactly one of the two filters and its size. */
  lemma CleanupSplit(init: seq<Entry>, e: Entry, cutoff: int)
    ensures e.segment.timestamp < cutoff ==>
      && FreshOnly(init + [e], cutoff) == FreshOnly(init, cutoff)
      && TotalSize(StaleOnly(init + [e], cutoff)) == TotalSize(StaleOnly(init, cutoff)) + e.segment.size
    ensures e.segment.timestamp >= cutoff ==>
      && StaleOnly(init + [e], cutoff) == StaleOnly(init, cutoff)
      && TotalSize(FreshOnly(init + [e], cutoff)) == TotalSize(FreshOnly(init, cutoff)) + e.segment.size
  {
    CleanupStep(init, e, cutoff);
    if e.segment.timestamp < cutoff {
      assert FreshOnly(init, cutoff) + [] == FreshOnly(init, cutoff);
      TotalSizeAppend(StaleOnly(init, cutoff), e);
    } else {
      assert StaleOnly(init, cutoff) + [] == StaleOnly(init, cutoff);
      TotalSizeAppend(FreshOnly(init, cutoff), e);
    }
  }

  /** Cleanup partitions the sizes: kept and evicted add up to the total. */
  lemma {:induction false} CleanupPartitionsSize(entries: seq<Entry>, cutoff: int)
    ensures TotalSize(FreshOnly(entries, cutoff)) + TotalSize(StaleOnly(entries, cutoff)) == TotalSize(entries)
  {
    if entries != [] {
      var init, last := entries[..|entries| - 1], entries[|entries| - 1];
      CleanupPartitionsSize(init, cutoff);
      if last.segment.timestamp < cutoff {
        assert FreshOnly(entries, cutoff) == FreshOnly(init, cutoff) + [];
        assert StaleOnly(entries, cutoff) == StaleOnly(init, cutoff) + [last];
        assert FreshOnly(init, cutoff) + [] == FreshOnly(init, cutoff);
        TotalSizeAppend(StaleOnly(init, cutoff), last);
      } else {
        assert StaleOnly(entries, cutoff) == StaleOnly(init, cutoff) + [];
        assert FreshOnly(entries, cutoff) == FreshOnly(init, cutoff) + [last];
        assert StaleOnly(init, cutoff) + [] == StaleOnly(init, cutoff);
        TotalSizeAppend(FreshOnly(init, cutoff), last);
      }
    }
  }

  /** An entry is kept exactly when it was stored and is not older than the cutoff. */
  lemma {:induction false} FreshOnlyMembers(entries: seq<Entry>, cutoff: int)
    ensures forall e :: e in FreshOnly(entries, cutoff) <==> e in entries && e.segment.timestamp >= cutoff
  {
    if entries != [] {
      var init, last := entries[..|entries| - 1], entries[|entries| - 1];
      FreshOnlyMembers(init, cutoff);
      assert entries == init + [last];
    }
  }

  /** An entry is evicted exactly when it was stored and is older than the cutoff. */
  lemma {:induction false} StaleOnlyMembers(entries: seq<Entry>, cutoff: int)
    ensures forall e :: e in StaleOnly(entries, cutoff) <==> e in entries && e.segment.timestamp < cutoff
  {
    if entries != [] {
      var init, last := entries[..|entries| - 1], entries[|entries| - 1];
      StaleOnlyMembers(init, cutoff);
      assert entries == init + [last];
    }
  }

  /** Cleanup keeps keys distinct. */
  lemma {:induction false} FreshOnlyKeepsDistinctKeys(entries: seq<Entry>, cutoff: int)
    requires DistinctKeys(entries)
    ensures DistinctKeys(FreshOnly(entries, cutoff))
    ensures forall e :: e in FreshOnly(entries, cutoff) ==> e in entries
  {
    if entries != [] {
      var init, last := entries[..|entries| - 1], entries[|entries| - 1];
      FreshOnlyKeepsDistinctKeys(init, cutoff);
      FreshOnlyMembers(init, cutoff);
      var kept := FreshOnly(init, cutoff);
      if last.segment.timestamp >= cutoff {
        forall j | 0 <= j < |kept| ensures kept[j].key != last.key {
          assert kept[j] in init;
        }
        assert DistinctKeys(kept + [last]);
      }
    }
  }

  /** Storing under an absent key keeps keys distinct. */
  lemma AppendKeepsDistinctKeys(entries: seq<Entry>, e: Entry)
    requires DistinctKeys(entries) && !HasKey(entries, e.key)
    ensures DistinctKeys(entries + [e])
  {
  }

  /** Adding an entry under a new key to the (possibly cleaned) cache keeps keys distinct and adds its size. */
  lemma StoreAfterCleanup(entries: seq<Entry>, now: int, e: Entry)
    requires DistinctKeys(entries) && !HasKey(entries, e.key)
    ensures var base := CleanedIfOverBudget(entries, now);
      DistinctKeys(base + [e]) && TotalSize(base + [e]) == TotalSize(base) + e.segment.size
  {
    var base := CleanedIfOverBudget(entries, now);
    FreshOnlyKeepsDistinctKeys(entries, now - SegmentMaxAgeMs);
    assert !HasKey(base, e.key) by {
      forall i | 0 <= i < |base| ensures base[i].key != e.key {
        assert base[i] in entries;
      }
    }
    AppendKeepsDistinctKeys(base, e);
    TotalSizeAppend(base, e);
  }

  /** The entries a new segment is added to: cleaned up first when the cache is over 50 MB. */
  function CleanedIfOverBudget(entries: seq<Entry>, now: int): seq<Entry>
  {
    if TotalSize(entries) > MaxPreloadSize then FreshOnly(entries, now - SegmentMaxAgeMs) else entries
  }

  /** The entries after `preloadVideoSegment(key...)`, given whether its tier is available and what the fetch gave. */
  function StoredAfterPreload(entries: seq<Entry>, key: SegmentKey, available: bool, now: int, fetched: FetchOutcome): seq<Entry>
  {
    if HasKey(entries, key) then entries
    else
      var base := CleanedIfOverBudget(entries, now);
      if available && fetched.Response? && fetched.ok
      then base + [Entry(key, Segment(fetched.body, fetched.receivedAt, |fetched.body|))]
      else base
  }

  /**
   * Storing a segment under a new key adds exactly the body's length to the (possibly cleaned)
   * cache's total and keeps keys distinct; every other outcome stores nothing new.
   */
  lemma StoredAfterPreloadAccounts(entries: seq<Entry>, key: SegmentKey, available: bool, now: int, fetched: FetchOutcome)
    requires DistinctKeys(entries)
    ensures var r := StoredAfterPreload(entries, key, available, now, fetched);
      var base := CleanedIfOverBudget(entries, now);
      && DistinctKeys(r)
      && (HasKey(entries, key) ==> r == entries)
      && (!HasKey(entries, key) && available && fetched.Response? && fetched.ok ==>
            && r == base + [Entry(key, Segment(fetched.body, fetched.receivedAt, |fetched.body|))]
            && TotalSize(r) == TotalSize(base) + |fetched.body|)
      && (!HasKey(entries, key) && !(available && fetched.Response? && fetched.ok) ==> r == base)
  {
    FreshOnlyKeepsDistinctKeys(entries, now - SegmentMaxAgeMs);
    if !HasKey(entries, key) && available && fetched.Response? && fetched.ok {
      StoreAfterCleanup(entries, now, Entry(key, Segment(fetched.body, fetched.receivedAt, |fetched.body|)));
    }
  }

  class VideoPreloader {
    const qualityManager: QualityManager
    const bufferManager: BufferMonitoring.BufferManager
    var preloadedSegments: seq<Entry>
    var currentPreloadSize: int

    /** Keys are distinct, and the counter equals the sum of the stored sizes. */
    ghost predicate Valid()
      reads this
    {
      DistinctKeys(preloadedSegments) && currentPreloadSize == TotalSize(preloadedSegments)
    }

    constructor (qualityManager: QualityManager, bufferManager: BufferMonitoring.BufferManager)
      ensures Valid() && preloadedSegments == [] && currentPreloadSize == 0
      ensures this.qualityManager == qualityManager && this.bufferManager == bufferManager
    {
      this.qualityManager := qualityManager;
      this.bufferManager := bufferManager;
      preloadedSegments := [];
      currentPreloadSize := 0;
    }

    /** `determineNextLikelyQuality()`, reading the buffer health of the element. */
    method DetermineNextLikelyQuality(video: Option<BufferMonitoring.VideoState>) returns (r: Option<Tier>)
      ensures r == NextLikelyQuality(qualityManager.currentQuality, BufferMonitoring.BufferHealth(video))
    {
      var bufferHealth := BufferMonitoring.BufferManager.GetBufferHealth(video);
      r := NextLikelyQuality(qualityManager.currentQuality, bufferHealth);
    }

    /** `cleanupOldSegments()` at time `now`: deletes, in place, every entry older than 5 minutes. */
    method CleanupOldSegments(now: int)
      requires Valid()
      modifies this
      ensures Valid()
      ensures preloadedSegments == FreshOnly(old(preloadedSegments), now - SegmentMaxAgeMs)
      ensures currentPreloadSize == old(currentPreloadSize) - TotalSize(StaleOnly(old(preloadedSegments), now - SegmentMaxAgeMs))
    {
      var cutoffTime := now - SegmentMaxAgeMs;
      var entries := preloadedSegments;
      var kept: seq<Entry> := [];
      var size := currentPreloadSize;
      var i := 0;
      while i < |entries|
        invariant 0 <= i <= |entries|
        invariant kept == FreshOnly(entries[..i], cutoffTime)
        invariant size == TotalSize(entries) - TotalSize(StaleOnly(entries[..i], cutoffTime))
      {
        CleanupLoopStep(entries, i, cutoffTime);
        var segment := entries[i].segment;
        if segment.timestamp < cutoffTime {
          size := size - segment.size;
        } else {
          kept := kept + [entries[i]];
        }
        i := i + 1;
      }
      assert entries[..i] == entries;
      preloadedSegments, currentPreloadSize := kept, size;
      CleanupPartitionsSize(entries, cutoffTime);
      FreshOnlyKeepsDistinctKeys(entries, cutoffTime);
    }

    /**
     * `preloadVideoSegment(quality, startTime, endTime)` at time `now`: skip a known key; clean
     * up first when over budget; store the body only for an available tier and an ok response.
     */
    method PreloadVideoSegment(quality: Tier, startTime: real, endTime: real, now: int, fetched: FetchOutcome)
      returns (request: Option<SegmentRequest>)
      requires Valid()
      modifies this
      ensures Valid()
      ensures request == if !HasKey(old(preloadedSegments), SegmentKey(quality, startTime, endTime))
                            && quality in qualityManager.availableQualities
                         then Some(SegmentRequest(qualityManager.availableQualities[quality].url, TimeToByteRange(startTime, endTime)))
                         else None
      ensures preloadedSegments == StoredAfterPreload(old(preloadedSegments), SegmentKey(quality, startTime, endTime),
                                                      quality in qualityManager.availableQualities, now, fetched)
    {
      request := None;
      var segmentKey := SegmentKey(quality, startTime, endTime);
      if HasKey(preloadedSegments, segmentKey) {
        return;
      }
      ghost var before := preloadedSegments;
      ghost var base := CleanedIfOverBudget(before, now);
      if currentPreloadSize > MaxPreloadSize {
        CleanupOldSegments(now);
        FreshOnlyMembers(before, now - SegmentMaxAgeMs);
      }
      assert preloadedSegments == base && currentPreloadSize == TotalSize(base);
      if quality !in qualityManager.availableQualities {
        return;  // reading `.url` of undefined throws, and the catch swallows it
      }
      request := Some(SegmentRequest(qualityManager.availableQualities[quality].url, TimeToByteRange(startTime, endTime)));
      match fetched
      case FetchFailed =>
      case Response(ok, body, receivedAt) =>
        if ok {
          var entry := Entry(segmentKey, Segment(body, receivedAt, |body|));
          StoreAfterCleanup(before, now, entry);
          preloadedSegments := preloadedSegments + [entry];
          currentPreloadSize := currentPreloadSize + |body|;
        }
    }

    /**
     * `preloadNextQuality(currentTime, duration)` at time `now`: fetches the window
     * `PreloadWindow` computes, if any, through `preloadVideoSegment`.
     */
    method PreloadNextQuality(currentTime: real, duration: real, video: Option<BufferMonitoring.VideoState>, now: int, fetched: FetchOutcome)
      returns (request: Option<SegmentRequest>)
      requires Valid()
      modifies this
      ensures Valid()
      ensures var w := PreloadWindow(qualityManager.currentQuality, BufferMonitoring.BufferHealth(video), currentTime, duration);
        preloadedSegments == if w.None? then old(preloadedSegments)
          else StoredAfterPreload(old(preloadedSegments), SegmentKey(w.value.quality, w.value.startTime, w.value.endTime),
                                  w.value.quality in qualityManager.availableQualities, now, fetched)
      ensures var w := PreloadWindow(qualityManager.currentQuality, BufferMonitoring.BufferHealth(video), currentTime, duration);
        request == if w.Some? && !HasKey(old(preloadedSegments), SegmentKey(w.value.quality, w.value.startTime, w.value.endTime))
                      && w.value.quality in qualityManager.availableQualities
                   then Some(SegmentRequest(qualityManager.availableQualities[w.value.quality].url,
                                            TimeToByteRange(w.value.startTime, w.value.endTime)))
                   else None
    {
      request := None;
      var bufferHealth := BufferMonitoring.BufferManager.GetBufferHealth(video);
      if bufferHealth < 10.0 {
        return;
      }
      var nextQuality := DetermineNextLikelyQuality(video);
      if nextQuality.None? || nextQuality.value == qualityManager.currentQuality {
        return;
      }
      var preloadStart := currentTime + bufferHealth;
      var preloadEnd := MinReal(preloadStart + PreloadSeconds, duration);
      if preloadEnd <= preloadStart {
        return;
      }
      request := PreloadVideoSegment(nextQuality.value, preloadStart, preloadEnd, now, fetched);
    }

    /** `hasPreloadedSegment(quality, time)`: the search loop over the entries, in insertion order. */
    method HasPreloadedSegment(quality: Tier, time: real) returns (r: Option<Segment>)
      ensures r == FindSegment(preloadedSegments, quality, time)
    {
      var i := 0;
      while i < |preloadedSegments|
        invariant 0 <= i <= |preloadedSegments|
        invariant FindSegment(preloadedSegments, quality, time) == FindSegment(preloadedSegments[i..], quality, time)
      {
        var entry := preloadedSegments[i];
        if FirstField(Name(entry.key.quality) + "-") == Name(quality) && time >= entry.key.startTime && time <= entry.key.endTime {
          return Some(entry.segment);
        }
        assert preloadedSegments[i..][1..] == preloadedSegments[i + 1..];
        i := i + 1;
      }
      return None;
    }
  }
}
