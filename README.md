# Adaptive-bitrate core of the Dinushika video player

This project models the control loop that picks the video quality in the Dinushika adaptive
streaming player, and proves properties of that model. It covers:

- **Quality ladder, decision and switching** (`QualityControl`, from
  `client/js/quality-manager.js`). There are four tiers, `ultra-low < low < medium < high`,
  each with a bandwidth rule. The ABR decision is a buffer step followed by a bandwidth step
  that can override it. The switch is guarded by a 5000 ms throttle, the tier's availability
  and a change of tier.
- **Buffer health** (`BufferMonitoring`, from `client/js/buffer-manager.js`). This is the
  number of seconds buffered ahead of the playhead, read from the media element's buffered
  ranges. It is classified into five bands and kept in a 60-sample history. Quality increases
  are gated on the mean of the newest 10 samples.
- **Server bandwidth aggregation** (`BandwidthAggregation`, from `server/bandwidth-monitor.js`).
  This is a map from client to its 10 newest bandwidth reports. A windowed average is
  undefined (`None`) when no sample is in the window. A five-minute retention sweep deletes
  clients that end up empty.
- **Server rules** (`Streaming`, from `server/server.js`):
  - WebSocket dispatch;
  - the buffer-health advisory: below 3 s advise a decrease, above 15 s an increase,
    otherwise stay silent;
  - the bitrate table;
  - the manifest;
  - the bandwidth-test payload size, including the `parseInt` it relies on.
- **The player** (`Playback`, from `client/js/adaptive-player.js`). A server recommendation
  becomes a one-tier move in auto mode and goes through the switch guards. The 3 s control
  tick decides, switches if the decision differs, and reports bandwidth and then buffer health
  over the socket. There are also the statistics counters.
- **Speculative preloading** (`Preloading`, from `client/js/preloader.js`):
  - the next likely tier;
  - the window to fetch and its byte range;
  - a size-accounted segment cache with age-based cleanup and key lookup.
- **The advisory loop** across both sides (`Advisory`).

Stateful objects are classes whose methods state their new state in terms of pure
specification functions, which the lemmas are about. `Wrappers` holds `Option` and
`Protocol` holds the WebSocket message types. Everything runs in one thread. The outside
world is passed in as parameters:

- the clock (`now`);
- the media element (`VideoState`, and `MediaOutcome` for the result of `load()`/`play()`,
  including the `Date.now()` read after them);
- the measured bandwidth;
- the socket's open state;
- the result of `fetch` (`FetchOutcome`).

Numbers are exact:

- Bandwidth is a natural number of bits per second. The 1.2 and 0.8 margins are written as
  `5 * bw >= 6 * min` and `5 * bw >= 4 * min`.
- Buffer seconds and media times are reals.
- Times are integer milliseconds.

The model follows the code as it is written. In particular:

- **Decision step size.** `determineOptimalQuality` can move several tiers in one call, not at
  most one. From `medium` at 300000 bps with 10 s of buffer it goes straight to `ultra-low`
  (`QualityControl.DecisionScenarios`).
- **Upgrade safety.** The 20% headroom check applies only to tiers above the current one. The
  current tier is kept without it (`high` at 1300000 bps and 10 s stays `high`). So
  `UpgradesHaveHeadroom` is stated for strictly higher results.
- **Failed loads.** A switch that fails during load or play leaves `currentQuality`,
  `lastQualityChange` and `qualitySwitchCount` unchanged. It does not roll back `video.src`,
  which stays on the new URL; the model keeps this as `videoSource`.
- **Empty quality maps.** `setAvailableQualities` accepts an empty map; nothing rejects it.
- **Buffer step literals.** The decision's buffer step uses its own 3 s and 15 s, not the
  buffer manager's 2/5/10/20 s thresholds.
- **`lastQualityChange`** comes from the clock reading taken after the media has loaded and
  played, not the one taken when the switch was requested.
- **The test mock video in `testcode/streaming-test.js` has no `readyState`.** In JavaScript `undefined < 2` is
  false, so such an element counts as ready. The scenario lemma uses `readyState` 2 for it.
- **Ultra-low lookups.** The `'ultra-low'` tier name contains the key separator `'-'`, so
  `hasPreloadedSegment` never finds an ultra-low segment. This is latent: the preloader only
  ever stores upgrades, and an upgrade is never ultra-low.

## Model

| member | source | states |
|---|---|---|
| QualityControl.Index | Dinushika/client/js/quality-manager.js:6 | every tier has a position in `qualityOrder`, and that position holds it |
| QualityControl.WalkDownFindsHighestSustained | Dinushika/client/js/quality-manager.js:135-144 | the downward loop ends at a tier at or below its start that meets `0.8 * minBandwidth`, with no sustainable tier skipped above it |
| QualityControl.WalkUpStopsAtFirstWithoutHeadroom | Dinushika/client/js/quality-manager.js:145-156 | the upward loop either keeps its target because the first tier lacks 20% headroom, or climbs through tiers that all have headroom and stops just below one that does not |
| QualityControl.WalkUpHeadroom | Dinushika/client/js/quality-manager.js:147-154 | any tier the upward loop selects has 20% headroom |
| QualityControl.ManualModeKeepsCurrent | Dinushika/client/js/quality-manager.js:111-112 | in manual mode the decision is the current tier |
| QualityControl.CriticalBufferNeverRaises | Dinushika/client/js/quality-manager.js:118-121 | with at most 3 s of buffer the result is never above one tier below the current one (clamped at the bottom), whatever the bandwidth |
| QualityControl.UpgradesHaveHeadroom | Dinushika/client/js/quality-manager.js:122-156 | any result above the current tier satisfies `bandwidth >= 1.2 * minBandwidth` of that tier |
| QualityControl.LowBandwidthPicksHighestSustainedLowerTier | Dinushika/client/js/quality-manager.js:133-144 | below `0.8 * minBandwidth(current)` the result is the highest lower tier that meets its own `0.8 * min`, overriding the buffer step |
| QualityControl.HighBandwidthClimbsWhileHeadroom | Dinushika/client/js/quality-manager.js:145-156 | above `maxBandwidth(current)` with more than 8 s of buffer, the result climbs through tiers that all have headroom and stops at the first tier lacking it |
| QualityControl.DecisionScenarios | Dinushika/testcode/streaming-test.js:117-126 | the repository's cases: (medium, 300000, 10) gives ultra-low, (medium, 5000000, 15) gives high, (medium, 2000000, 2) gives low; also (high, 5000000, 2) gives medium |
| QualityControl.SwitchAttempt | Dinushika/client/js/quality-manager.js:34-109 | media is loaded exactly when not throttled, the target is available and it differs from the current tier; the switch succeeds exactly when that load and play succeed; success commits target, finish time and count+1; anything else leaves the state as it was |
| QualityControl.SwitchThrottlesFollowingAttempt | Dinushika/client/js/quality-manager.js:36-39 | after a successful switch, any attempt less than 5000 ms after it finished is refused and changes nothing |
| QualityControl.QualityManager.constructor | Dinushika/client/js/quality-manager.js:2-18 | starts at medium, in auto mode, with no qualities, no switches and time 0 |
| QualityControl.QualityManager.SetAvailableQualities | Dinushika/client/js/quality-manager.js:20-23 | replaces the available map and nothing else |
| QualityControl.QualityManager.SetAutoMode | Dinushika/client/js/quality-manager.js:25-28 | sets the mode flag and nothing else |
| QualityControl.QualityManager.SwitchQuality | Dinushika/client/js/quality-manager.js:34-109 | the new state and the result are those of `SwitchAttempt` on the old state; the media source moves to the target's URL whenever a load starts, even if it then fails; exactly a successful switch dispatches `qualityChanged` with the target's bitrate |
| QualityControl.QualityManager.DetermineOptimalQuality | Dinushika/client/js/quality-manager.js:111-159 | the loop-based decision equals `OptimalQuality` on the controller's mode and current tier, and is the current tier in manual mode |
| QualityControl.QualityRules | Dinushika/client/js/quality-manager.js:12-17 | the rules table has an entry for every tier, holding that tier's minimum and (absent for high) maximum bandwidth |
| QualityControl.QualityManager.GetQualityStats | Dinushika/client/js/quality-manager.js:175-183 | reports exactly the current tier, the available tiers, the switch count, the mode and the full rules table (each tier's minimum and maximum bandwidth) |
| QualityControl.ThrottleScenario | Dinushika/client/js/quality-manager.js:36-48 | on a fresh controller: a switch to another available tier with a successful load is committed, and a second request less than 5000 ms later is refused, leaving the first target current |
| BufferMonitoring.BufferAhead | Dinushika/client/js/buffer-manager.js:56-66 | the seconds ahead are never negative |
| BufferMonitoring.BufferAheadIsFirstContainingRange | Dinushika/client/js/buffer-manager.js:56-62 | the first range containing the playhead decides the result: its end minus the playhead |
| BufferMonitoring.BufferAheadOutsideEveryRange | Dinushika/client/js/buffer-manager.js:65-66 | a playhead in no range has 0 s ahead |
| BufferMonitoring.BufferHealthZeroCases | Dinushika/client/js/buffer-manager.js:46-53 | health is never negative, and it is 0 with no element, before `readyState` 2, or with no ranges |
| BufferMonitoring.BufferHealthScenario | Dinushika/testcode/streaming-test.js:135-148 | the repository's case: playhead 10 in [5, 20] gives 10 s, which is `good` |
| BufferMonitoring.GetBufferStatus | Dinushika/client/js/buffer-manager.js:73-79 | each band holds exactly its interval: at most 2 critical, (2, 5] low, (5, 10) medium, [10, 20) good, from 20 excellent |
| BufferMonitoring.ShouldReduceQuality | Dinushika/client/js/buffer-manager.js:93-96 | holds exactly when health is at most 5 s, i.e. in the critical and low bands |
| BufferMonitoring.RecordedKeepsNewest | Dinushika/client/js/buffer-manager.js:81-91 | the history grows by one up to 60 entries; it is the newest suffix of old history plus the sample, in order, ending with the new sample |
| BufferMonitoring.SumHealthBounds | Dinushika/client/js/buffer-manager.js:103-104 | the sum of samples that are all at least `lo` (all below `hi`) is at least `lo * n` (below `hi * n`) |
| BufferMonitoring.TrendAverageBounds | Dinushika/client/js/buffer-manager.js:99-107 | with a non-empty history the trend mean lies within the bounds of the newest 10 samples |
| BufferMonitoring.MeanBounds | Dinushika/client/js/buffer-manager.js:104 | dividing a sum bounded by `lo * n` (or `hi * n`) by a positive count gives a mean bounded by `lo` (`hi`) |
| BufferMonitoring.BufferManager.constructor | Dinushika/client/js/buffer-manager.js:2-13 | empty history, not monitoring |
| BufferMonitoring.BufferManager.StartMonitoring | Dinushika/client/js/buffer-manager.js:15-22 | sets monitoring; starts a sampling timer only when not already monitoring; the history is untouched |
| BufferMonitoring.BufferManager.StopMonitoring | Dinushika/client/js/buffer-manager.js:24-29 | clears monitoring and leaves the history untouched |
| BufferMonitoring.BufferManager.GetBufferHealth | Dinushika/client/js/buffer-manager.js:46-71 | the search loop over the ranges returns `BufferHealth`, which is never negative |
| BufferMonitoring.BufferManager.RecordBufferHealth | Dinushika/client/js/buffer-manager.js:81-91 | the history becomes `Recorded(old history, sample)` and stays within 60 entries |
| BufferMonitoring.BufferManager.UpdateBufferHealth | Dinushika/client/js/buffer-manager.js:31-44 | records the current health with the time; with an element it emits that health with its band, and with no element it emits nothing, because the dispatch throws after the sample is recorded |
| BufferMonitoring.BufferManager.CanIncreaseQuality | Dinushika/client/js/buffer-manager.js:98-108 | holds exactly when the mean of the newest 10 samples is at least 10 s; with an empty history, exactly when the current health is `good` or `excellent` |
| BufferMonitoring.CanIncreaseFollowsTrend | Dinushika/client/js/buffer-manager.js:98-108 | when the newest samples are all at least 10 s the gate opens; when all are below 10 s it stays shut |
| BandwidthAggregation.RecentKeepsExactlyNewer | Dinushika/server/bandwidth-monitor.js:32-33 | the window keeps exactly the samples strictly newer than the cutoff, so a sample at the cutoff is excluded |
| BandwidthAggregation.RecentDistributes | Dinushika/server/bandwidth-monitor.js:33 | the window filter keeps order: filtering a concatenation concatenates the filtered parts |
| BandwidthAggregation.AppendedKeepsNewest | Dinushika/server/bandwidth-monitor.js:14-23 | a client's list grows by one up to 10 entries; it is the newest suffix of the old list plus the sample, in order, ending with the new sample |
| BandwidthAggregation.SumBandwidthBounds | Dinushika/server/bandwidth-monitor.js:39 | the sum of samples between `lo` and `hi` lies between `lo * n` and `hi * n` |
| BandwidthAggregation.Swept | Dinushika/server/bandwidth-monitor.js:43-54 | a client survives the sweep exactly when it has a sample newer than the cutoff, and then keeps exactly those samples |
| BandwidthAggregation.SweepEvictsStaleClient | Dinushika/server/bandwidth-monitor.js:47-49 | a client whose samples are all at or before the cutoff is deleted |
| BandwidthAggregation.RecentOfStaleIsEmpty | Dinushika/server/bandwidth-monitor.js:47 | a list with no sample newer than the cutoff filters to nothing |
| BandwidthAggregation.SweptWellFormed | Dinushika/server/bandwidth-monitor.js:43-54 | the sweep keeps every list non-empty and at most 10 long |
| BandwidthAggregation.SweptExceptStep | Dinushika/server/bandwidth-monitor.js:46-53 | one step of the sweep loop: a pending client whose filtered list is empty is deleted, otherwise its list is replaced by the filtered one |
| BandwidthAggregation.BandwidthMonitor.constructor | Dinushika/server/bandwidth-monitor.js:2-3 | starts with no clients |
| BandwidthAggregation.BandwidthMonitor.RecordBandwidth | Dinushika/server/bandwidth-monitor.js:9-24 | creates an empty list for an unseen client, appends the sample with the time and drops the oldest beyond 10; every other client is unchanged |
| BandwidthAggregation.BandwidthMonitor.GetAverageBandwidth | Dinushika/server/bandwidth-monitor.js:26-41 | undefined exactly for an unknown client or an empty window; otherwise the value times the window's size is the window's sum (the arithmetic mean) |
| BandwidthAggregation.BandwidthMonitor.Cleanup | Dinushika/server/bandwidth-monitor.js:43-54 | the map-rewriting loop leaves exactly `Swept(old map, now - 300000)` and keeps every list non-empty and at most 10 long |
| BandwidthAggregation.AverageWithinSampleRange | Dinushika/server/bandwidth-monitor.js:39-40 | a defined average lies between the smallest and largest sample in the window |
| BandwidthAggregation.MeanBetweenBounds | Dinushika/server/bandwidth-monitor.js:40 | a mean of n values whose sum is between `lo * n` and `hi * n` lies between `lo` and `hi` |
| BandwidthAggregation.WindowScenario | Dinushika/server/bandwidth-monitor.js:26-41 | three reports at t, t+1000 and t+40000, averaged over 30000 ms at t+41000, give the last report alone |
| Streaming.HandleBufferHealth | Dinushika/server/server.js:160-174 | below 3 s exactly one "decrease"/"low-buffer" recommendation, above 15 s exactly one "increase"/"high-buffer", and nothing in [3, 15] |
| Streaming.StreamingServer.constructor | Dinushika/server/server.js:12-16 | creates its own empty bandwidth monitor |
| Streaming.StreamingServer.HandleWebSocketMessage | Dinushika/server/server.js:146-158 | a bandwidth report is recorded for its client and nothing is sent; a buffer-health report sends `HandleBufferHealth`'s answer; other types change nothing and send nothing |
| Streaming.StreamingServer.CleanupTick | Dinushika/server/bandwidth-monitor.js:4-6 | the minute timer's sweep leaves exactly the swept map |
| Streaming.EstimateBitrate | Dinushika/server/server.js:214-222 | the fallback 1000 is returned exactly for a name that is not a ladder tier; every estimate is positive |
| Streaming.BitrateAscendsWithTier | Dinushika/server/server.js:215-220 | the estimated bitrate strictly ascends along the ladder |
| Streaming.GenerateManifest | Dinushika/server/server.js:224-243 | echoes the name and qualities, defaults to medium, lists the four tiers in ladder order with ascending minimum bandwidth, and has its decrease threshold below its increase threshold |
| Streaming.ManifestRulesVersusPlayer | Dinushika/server/server.js:231-240 | the manifest advertises 0/500/1000/2000 kbps and thresholds 3/10 s; apart from ultra-low these minimums lie above the player's own 400/800/1500 kbps (`quality-manager.js:13-16`), and an 11 s buffer, above the advertised increase threshold, gets no server recommendation |
| Streaming.DigitPrefixLength | Dinushika/server/server.js:51 | the digit run `parseInt` reads never extends past the string |
| Streaming.DecimalDigitsAreOnePrefix | Dinushika/server/server.js:51 | a string of decimal digits is read entirely |
| Streaming.ParseIntOfDecimal | Dinushika/server/server.js:51 | `parseInt` of a non-empty decimal digit string is the number it writes |
| Streaming.BandwidthTestPayload | Dinushika/server/server.js:50-61 | NaN or 0 falls back to 1024 KB; a positive size n gives n * 1024 bytes; exactly a negative size makes the allocation fail |
| Streaming.PayloadOfDecimalSize | Dinushika/server/server.js:51-52 | a positive decimal size of n KB yields a payload of n * 1024 bytes |
| Streaming.PayloadScenarios | Dinushika/testcode/streaming-test.js:62-72 | the repository's sizes 100, 500 and 1000 give 100, 500 and 1000 KB |
| Streaming.DecimalValueScenarios | Dinushika/testcode/streaming-test.js:62 | "100", "500" and "1000" are decimal digit strings worth 100, 500 and 1000 |
| Streaming.PayloadFallbackScenarios | Dinushika/server/server.js:51 | a size with no digits ("abc") or of zero ("0") falls back to 1024 KB |
| Playback.RecommendedTarget | Dinushika/client/js/adaptive-player.js:168-175 | a target exists exactly for "increase" below the top or "decrease" above the bottom, and is the adjacent tier in that direction |
| Playback.AdaptivePlayer.constructor | Dinushika/client/js/adaptive-player.js:2-29 | zero counters, a fresh buffer manager with empty history, and a fresh controller at medium in auto mode |
| Playback.AdaptivePlayer.OnQualityChanged | Dinushika/client/js/adaptive-player.js:263-268 | counts one switch and nothing else |
| Playback.AdaptivePlayer.OnVideoWaiting | Dinushika/client/js/adaptive-player.js:245-248 | counts one buffering event and nothing else |
| Playback.AdaptivePlayer.HandleWebSocketMessage | Dinushika/client/js/adaptive-player.js:164-183 | only a recommendation received in auto mode with an adjacent target calls the switch, with reason "server-" + reason and all its guards; every other message leaves the controller unchanged; a successful switch is counted |
| Playback.AdaptivePlayer.PerformAdaptiveLogic | Dinushika/client/js/adaptive-player.js:194-228 | manual mode, or a measurement that was rejected, ends the tick with no decision, no switch and no report; otherwise the tick decides with `OptimalQuality`, switches only if the decision differs (reason "adaptive"), and with an open socket sends a bandwidth report then a buffer-health report, both with the client id |
| Preloading.NextLikelyQuality | Dinushika/client/js/preloader.js:28-41 | a tier is predicted exactly above 15 s below the top or below 8 s above the bottom, and it is the adjacent tier up or down respectively |
| Preloading.PreloadIsAlwaysAnUpgrade | Dinushika/client/js/preloader.js:10-25 | a request is made exactly above 15 s of buffer, below the top tier and with a non-empty window; it is one tier up, over [time + buffer, min(that + 30, duration)] |
| Preloading.TimeToByteRange | Dinushika/client/js/preloader.js:75-81 | each byte offset is the floor of seconds * 1000000 / 8, and the range is ordered when the times are |
| Preloading.KeyQualityFieldOfTier | Dinushika/client/js/preloader.js:44 | a key's first `'-'` field is the tier's name for every tier but ultra-low, whose keys give "ultra" |
| Preloading.FirstFieldOfDashFree | Dinushika/client/js/preloader.js:96 | splitting at `'-'` gives back a dash-free prefix as the first field |
| Preloading.MatchesExactly | Dinushika/client/js/preloader.js:96-99 | an entry matches a lookup exactly when its tier is the one asked for, that tier is not ultra-low, and the time lies in its window |
| Preloading.FindSegmentIsFirstMatch | Dinushika/client/js/preloader.js:94-104 | the lookup returns the first matching entry in insertion order, and nothing exactly when no entry matches |
| Preloading.UltraLowIsNeverFound | Dinushika/client/js/preloader.js:96-97 | an ultra-low lookup never finds a segment |
| Preloading.TotalSizeAppend | Dinushika/client/js/preloader.js:61-67 | storing an entry adds exactly its size to the total |
| Preloading.CleanupPartitionsSize | Dinushika/client/js/preloader.js:86-91 | kept and evicted sizes add up to the total before cleanup |
| Preloading.FreshOnlyMembers | Dinushika/client/js/preloader.js:86-90 | cleanup keeps exactly the entries not older than the cutoff |
| Preloading.StaleOnlyMembers | Dinushika/client/js/preloader.js:87-89 | cleanup evicts exactly the entries older than the cutoff |
| Preloading.FreshOnlyKeepsDistinctKeys | Dinushika/client/js/preloader.js:86-91 | cleanup keeps keys distinct and keeps only stored entries |
| Preloading.AppendKeepsDistinctKeys | Dinushika/client/js/preloader.js:46-61 | storing under an absent key keeps keys distinct |
| Preloading.StoreAfterCleanup | Dinushika/client/js/preloader.js:47-67 | a new key added after the optional cleanup keeps keys distinct and adds exactly the entry's size |
| Preloading.StoredAfterPreloadAccounts | Dinushika/client/js/preloader.js:43-73 | an existing key changes nothing; a stored segment is appended after the optional cleanup and adds exactly the body's length to the total; any other outcome stores nothing new; keys stay distinct |
| Preloading.VideoPreloader.constructor | Dinushika/client/js/preloader.js:2-8 | an empty cache with size 0 |
| Preloading.VideoPreloader.DetermineNextLikelyQuality | Dinushika/client/js/preloader.js:28-41 | reads the element's buffer health and returns `NextLikelyQuality` for the controller's current tier |
| Preloading.VideoPreloader.CleanupOldSegments | Dinushika/client/js/preloader.js:83-92 | the deletion loop keeps exactly the entries not older than five minutes, in order, and subtracts exactly the evicted sizes; the counter stays the sum of the stored sizes |
| Preloading.VideoPreloader.PreloadVideoSegment | Dinushika/client/js/preloader.js:43-81 | an existing key changes nothing and issues no request; for an available tier it requests the tier's URL with the `Range` header of `TimeToByteRange(start, end)`; over 50 MB it cleans up first; an entry is stored only for an available tier and an ok response, adding exactly the body's length; the size counter stays the sum of stored sizes and keys stay distinct |
| Preloading.VideoPreloader.PreloadNextQuality | Dinushika/client/js/preloader.js:10-26 | with no `PreloadWindow` the cache is unchanged and nothing is requested; otherwise the cache and the request are what `preloadVideoSegment` gives for that window: the upgraded tier's URL over the window's byte range, unless the key is already stored or the tier is unavailable |
| Preloading.VideoPreloader.HasPreloadedSegment | Dinushika/client/js/preloader.js:94-104 | the search loop returns `FindSegment`, the first match |
| Advisory.BufferAdviceMovesOneTier | Dinushika/server/server.js:160-174 | for a buffer under 3 s the server sends one recommendation whose target is one tier below the player's current tier (when there is one), for over 15 s one whose target is one tier above it (when there is one), and in [3, 15] nothing is sent |

## Left out

- Timers: the 1 s sampling interval, the 3 s control tick and the 60 s sweep become explicit
  calls with `now` (`UpdateBufferHealth`, `PerformAdaptiveLogic`, `CleanupTick`).
  `StartMonitoring` only counts the intervals it starts. `UpdateBufferHealth` is one sampling
  step and does not consult `isMonitoring`; in the source what stops sampling is the interval
  that `stopMonitoring` clears (`client/js/buffer-manager.js:26-28`).
- WebSocket reconnection is not modelled: nothing in the model corresponds to the `onclose`
  handler that calls `setupWebSocket` again after 5 s (`client/js/adaptive-player.js:153-157`).
- Asynchrony: `switchQuality`, `preloadVideoSegment` and `performAdaptiveLogic` run to
  completion, with the awaited media or fetch result passed in. Interleaving with other
  callbacks during an `await` is not modelled. The recommendation handler does not await its
  switch; nothing follows that call, so the un-awaited switch is modelled as completing within
  the handler.
- The media element: `load()`/`play()`, the `loadeddata`/`error` events and restoring the
  playback position are reduced to `MediaOutcome`. `currentTime`/`buffered`/`readyState` are
  reduced to `VideoState` (`None` stands for a missing element). The loading spinner, the
  `try`/`catch` around range reads, and all DOM, UI and chart drawing are left out.
- `BandwidthDetector.measureBandwidth` is not part of this model; its result is an input,
  `None` when the measurement is rejected. A rejection ends the tick inside the `try`, so no
  decision is made and no report is sent (`client/js/adaptive-player.js:199`, `225-227`). The
  socket's open state is an input, and `generateClientId` (random) is replaced by a given id.
- `loadAvailableVideos`, `loadVideo`, `initialize`'s DOM lookup and `destroy` are left out.
  `loadVideo` always throws, because it refers to `startQuality`, whose declaration is
  commented out (`client/js/adaptive-player.js:74-85`).
- The Express and WebSocket plumbing (middleware, static files, `start`, JSON parsing of
  messages), `getAvailableVideos`/`getVideoQualities` (filesystem), `/api/encode`, analytics
  logging and `server/encoder.js` (external tools) are left out. Messages reach the model
  already parsed, as `Protocol` values. `generateManifest` takes the qualities as input.
- `Streaming.ParseInt` covers ASCII white space only. Integers are exact, so sizes beyond
  what `Buffer.alloc` accepts (or beyond 2^53) are not modelled; the only allocation failure
  modelled is a negative size.
- Numbers are exact: floating-point rounding of the averages, byte offsets and buffer
  arithmetic is not modelled.
- `Preloading.VideoPreloader.CleanupOldSegments` applies its deletions to the cache once the
  loop ends, rather than entry by entry during it. No other code runs in between, so the
  final state is the same.
- `Preloading.Matches`: the key's start and end times are compared as numbers, on the premise that
  `parseFloat` gives back the times written into the key. Negative times would contain
  another `'-'` and are not modelled.
- Streaming.EstimateBitrate: names inherited from `Object.prototype` (`"constructor"`,
  `"toString"`, `"__proto__"`, ...) are not modelled; JavaScript returns the inherited value
  for them rather than 1000. The server only passes ladder names
  (`server/server.js:199-207`).
- QualityControl.QualityManager.GetQualityStats: `available` is a set of tiers, so the
  insertion order of the `Object.keys` array is not kept.
- `getBufferStats`, `getCurrentQuality` and `onBufferHealthUpdate` only read or display state,
  and are left out.
