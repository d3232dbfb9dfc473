/**
 * Server-side bandwidth aggregation (server/bandwidth-monitor.js): a bounded list of samples
 * per client, a windowed average, and a retention sweep.
 */
module BandwidthAggregation {
  import opened Wrappers

  /** One entry of a client's list: bits per second and the server clock when it arrived. */
  datatype Measurement = Measurement(bandwidth: nat, timestamp: int)

  /** Samples kept per client. */
  const HistoryCapacity: nat := 10
  /** Default window of `getAverageBandwidth`, in milliseconds. */
  const DefaultWindowMs: int := 30000
  /** Age beyond which `cleanup` drops a sample, in milliseconds. */
  const RetentionMs: int := 300000

  /** `history.filter(m => m.timestamp > cutoff)`. */
  function Recent(history: seq<Measurement>, cutoff: int): seq<Measurement>
  {
    if history == [] then []
    else (if history[0].timestamp > cutoff then [history[0]] else []) + Recent(history[1..], cutoff)
  }

  /** The filter keeps exactly the samples newer than the cutoff, and keeps them in order. */
  lemma {:induction false} RecentKeepsExactlyNewer(history: seq<Measurement>, cutoff: int)
    ensures forall m :: m in Recent(history, cutoff) <==> m in history && m.timestamp > cutoff
    ensures |Recent(history, cutoff)| <= |history|
  {
    if history != [] {
      RecentKeepsExactlyNewer(history[1..], cutoff);
      assert history == [history[0]] + history[1..];
    }
  }

  /** Filtering a concatenation filters each part: the relative order of kept samples is unchanged. */
  lemma {:induction false} RecentDistributes(a: seq<Measurement>, b: seq<Measurement>, cutoff: int)
    ensures Recent(a + b, cutoff) == Recent(a, cutoff) + Recent(b, cutoff)
  {
    if a == [] {
      assert a + b == b;
    } else {
      assert (a + b)[0] == a[0];
      assert (a + b)[1..] == a[1..] + b;
      RecentDistributes(a[1..], b, cutoff);
      var head := if a[0].timestamp > cutoff then [a[0]] else [];
      calc {
        Recent(a + b, cutoff);
        head + Recent(a[1..] + b, cutoff);
        head + (Recent(a[1..], cutoff) + Recent(b, cutoff));
        (head + Recent(a[1..], cutoff)) + Recent(b, cutoff);
        Recent(a, cutoff) + Recent(b, cutoff);
      }
    }
  }

  /** A client's list after `recordBandwidth` pushes `m` (one shift once it holds more than 10). */
  function Appended(history: seq<Measurement>, m: Measurement): seq<Measurement>
  {
    if |history + [m]| > HistoryCapacity then (history + [m])[1..] else history + [m]
  }

  /** Appending keeps the newest `min(n + 1, 10)` samples in order, the new one last. */
  lemma AppendedKeepsNewest(history: seq<Measurement>, m: Measurement)
    requires |history| <= HistoryCapacity
    ensures var r := Appended(history, m);
      && 1 <= |r| <= HistoryCapacity
      && |r| == (if |history| < HistoryCapacity then |history| + 1 else HistoryCapacity)
      && r == (history + [m])[|history| + 1 - |r|..]
      && r[|r| - 1] == m
  {
  }

  function SumBandwidth(samples: seq<Measurement>): nat
  {
    if samples == [] then 0 else samples[0].bandwidth + SumBandwidth(samples[1..])
  }

  /** The sum of samples all between `lo` and `hi` lies between `lo` and `hi` times their number. */
  lemma {:induction false} SumBandwidthBounds(samples: seq<Measurement>, lo: nat, hi: nat)
    requires forall i :: 0 <= i < |samples| ==> lo <= samples[i].bandwidth <= hi
    ensures lo * |samples| <= SumBandwidth(samples) <= hi * |samples|
  {
    if samples != [] {
      var tail := samples[1..];
      assert forall i :: 0 <= i < |tail| ==> tail[i] == samples[i + 1];
      SumBandwidthBounds(tail, lo, hi);
      assert lo * |samples| == lo * |tail| + lo;
      assert hi * |samples| == hi * |tail| + hi;
    }
  }

  /** The state `cleanup` leaves: each list filtered to the retention window, emptied clients gone. */
  function Swept(history: map<string, seq<Measurement>>, cutoff: int): (r: map<string, seq<Measurement>>)
    ensures forall c :: c in r <==> c in history && Recent(history[c], cutoff) != []
    ensures forall c :: c in r ==> r[c] == Recent(history[c], cutoff)
  {
    map c | c in history && Recent(history[c], cutoff) != [] :: Recent(history[c], cutoff)
  }

  /** The map part-way through the sweep: clients still `pending` untouched, the others swept. */
  function SweptExcept(history: map<string, seq<Measurement>>, pending: set<string>, cutoff: int): map<string, seq<Measurement>>
  {
    map c | c in history && (c in pending || Recent(history[c], cutoff) != []) ::
      if c in pending then history[c] else Recent(history[c], cutoff)
  }

  lemma SweptExceptAll(history: map<string, seq<Measurement>>, cutoff: int)
    ensures SweptExcept(history, history.Keys, cutoff) == history
  {
  }

  lemma SweptExceptNone(history: map<string, seq<Measurement>>, cutoff: int)
    ensures SweptExcept(history, {}, cutoff) == Swept(history, cutoff)
  {
  }

  /** Sweeping one pending client: delete it if its filtered list is empty, else store that list. */
  lemma SweptExceptStep(history: map<string, seq<Measurement>>, pending: set<string>, cutoff: int, c: string)
    requires c in pending && pending <= history.Keys
    ensures var m := SweptExcept(history, pending, cutoff);
      && c in m && m[c] == history[c]
      && SweptExcept(history, pending - {c}, cutoff) ==
           if Recent(history[c], cutoff) == [] then m - {c} else m[c := Recent(history[c], cutoff)]
  {
  }

  /** A client whose samples are all at or before the cutoff is absent after the sweep. */
  lemma SweepEvictsStaleClient(history: map<string, seq<Measurement>>, cutoff: int, client: string)
    requires client in history
    requires forall i :: 0 <= i < |history[client]| ==> history[client][i].timestamp <= cutoff
    ensures client !in Swept(history, cutoff)
  {
    RecentOfStaleIsEmpty(history[client], cutoff);
  }

  /** Nothing survives the filter when every sample is at or before the cutoff. */
  lemma {:induction false} RecentOfStaleIsEmpty(history: seq<Measurement>, cutoff: int)
    requires forall i :: 0 <= i < |history| ==> history[i].timestamp <= cutoff
    ensures Recent(history, cutoff) == []
  {
    if history != [] {
      assert history[0].timestamp <= cutoff;
      RecentOfStaleIsEmpty(history[1..], cutoff);
    }
  }

  /** Every stored list is non-empty and within capacity. */
  ghost predicate WellFormed(history: map<string, seq<Measurement>>)
  {
    forall c :: c in history ==> 1 <= |history[c]| <= HistoryCapacity
  }

  /** The sweep keeps lists well formed. */
  lemma SweptWellFormed(history: map<string, seq<Measurement>>, cutoff: int)
    requires WellFormed(history)
    ensures WellFormed(Swept(history, cutoff))
  {
    forall c | c in Swept(history, cutoff)
      ensures 1 <= |Swept(history, cutoff)[c]| <= HistoryCapacity
    {
      RecentKeepsExactlyNewer(history[c], cutoff);
    }
  }

  class BandwidthMonitor {
    var bandwidthHistory: map<string, seq<Measurement>>

    ghost predicate Valid()
      reads this
    {
      WellFormed(bandwidthHistory)
    }

    constructor ()
      ensures Valid() && bandwidthHistory == map[]
    {
      bandwidthHistory := map[];
    }

    /** `recordBandwidth(bandwidth, clientId)` at server time `now`. */
    method RecordBandwidth(bandwidth: nat, clientId: string, now: int)
      requires Valid()
      modifies this
      ensures Valid()
      ensures clientId in bandwidthHistory
      ensures var before := if clientId in old(bandwidthHistory) then old(bandwidthHistory)[clientId] else [];
        bandwidthHistory[clientId] == Appended(before, Measurement(bandwidth, now))
      ensures forall c :: c != clientId ==> (c in bandwidthHistory <==> c in old(bandwidthHistory))
      ensures forall c :: c != clientId && c in bandwidthHistory ==> bandwidthHistory[c] == old(bandwidthHistory)[c]
    {
      if clientId !in bandwidthHistory {
        bandwidthHistory := bandwidthHistory[clientId := []];
      }
      var history := bandwidthHistory[clientId] + [Measurement(bandwidth, now)];
      if |history| > HistoryCapacity {
        history := history[1..];
      }
      bandwidthHistory := bandwidthHistory[clientId := history];
    }

    /**
     * `getAverageBandwidth(clientId, windowMs)` at server time `now`: `None` for an unknown
     * client or when no sample is strictly newer than `now - windowMs`, else their mean.
     */
    function GetAverageBandwidth(clientId: string, windowMs: int, now: int): (r: Option<real>)
      reads this
      ensures r.None? <==> clientId !in bandwidthHistory || Recent(bandwidthHistory[clientId], now - windowMs) == []
      ensures r.Some? ==> var recent := Recent(bandwidthHistory[clientId], now - windowMs);
        r.value * |recent| as real == SumBandwidth(recent) as real
    {
      if clientId !in bandwidthHistory then None
      else
        var recent := Recent(bandwidthHistory[clientId], now - windowMs);
        if |recent| == 0 then None
        else Some(SumBandwidth(recent) as real / |recent| as real)
    }

    /** `cleanup()` at server time `now`: the loop over every client's list. */
    method Cleanup(now: int)
      requires Valid()
      modifies this
      ensures Valid()
      ensures bandwidthHistory == Swept(old(bandwidthHistory), now - RetentionMs)
    {
      var cutoff := now - RetentionMs;
      ghost var before := bandwidthHistory;
      var pending := bandwidthHistory.Keys;
      SweptExceptAll(before, cutoff);
      while pending != {}
        invariant pending <= before.Keys
        invariant bandwidthHistory == SweptExcept(before, pending, cutoff)
        decreases pending
      {
        var clientId :| clientId in pending;
        SweptExceptStep(before, pending, cutoff, clientId);
        var filtered := Recent(bandwidthHistory[clientId], cutoff);
        if |filtered| == 0 {
          bandwidthHistory := bandwidthHistory - {clientId};
        } else {
          bandwidthHistory := bandwidthHistory[clientId := filtered];
        }
        pending := pending - {clientId};
      }
      SweptExceptNone(before, cutoff);
      SweptWellFormed(before, cutoff);
    }
  }

  /** The average of the samples in the window lies between their minimum and their maximum. */
  lemma AverageWithinSampleRange(monitor: BandwidthMonitor, clientId: string, windowMs: int, now: int, lo: nat, hi: nat)
    requires clientId in monitor.bandwidthHistory
    requires forall m :: m in Recent(monitor.bandwidthHistory[clientId], now - windowMs) ==> lo <= m.bandwidth <= hi
    requires monitor.GetAverageBandwidth(clientId, windowMs, now).Some?
    ensures var avg := monitor.GetAverageBandwidth(clientId, windowMs, now).value;
      lo as real <= avg <= hi as real
  {
    var recent := Recent(monitor.bandwidthHistory[clientId], now - windowMs);
    assert forall i :: 0 <= i < |recent| ==> recent[i] in recent;
    SumBandwidthBounds(recent, lo, hi);
    MeanBetweenBounds(SumBandwidth(recent), |recent|, monitor.GetAverageBandwidth(clientId, windowMs, now).value, lo, hi);
  }

  /** A mean of naturals, all between `lo` and `hi` in total, lies between `lo` and `hi`. */
  lemma MeanBetweenBounds(sum: nat, n: nat, avg: real, lo: nat, hi: nat)
    requires n > 0 && avg == sum as real / n as real && lo * n <= sum <= hi * n
    ensures lo as real <= avg <= hi as real
  {
    var nr := n as real;
    assert (lo * n) as real == lo as real * nr;
    assert (hi * n) as real == hi as real * nr;
    assert avg * nr == sum as real;
  }

  /**
   * Three samples at t, t + 1000 and t + 40000, averaged over 30000 ms at t + 41000:
   * only the last one is in the window.
   */
  method WindowScenario(clientId: string, t: int, b1: nat, b2: nat, b3: nat) returns (avg: Option<real>)
    ensures avg == Some(b3 as real)
  {
    var monitor := new BandwidthMonitor();
    monitor.RecordBandwidth(b1, clientId, t);
    monitor.RecordBandwidth(b2, clientId, t + 1000);
    monitor.RecordBandwidth(b3, clientId, t + 40000);
    var history := monitor.bandwidthHistory[clientId];
    assert history == [Measurement(b1, t), Measurement(b2, t + 1000), Measurement(b3, t + 40000)];
    var cutoff := t + 41000 - DefaultWindowMs;
    assert history[1..][1..] == [Measurement(b3, t + 40000)];
    assert Recent(history[1..][1..], cutoff) == [Measurement(b3, t + 40000)];
    assert Recent(history[1..], cutoff) == [Measurement(b3, t + 40000)];
    assert Recent(history, cutoff) == [Measurement(b3, t + 40000)];
    assert SumBandwidth([Measurement(b3, t + 40000)]) == b3;
    avg := monitor.GetAverageBandwidth(clientId, DefaultWindowMs, t + 41000);
  }
}
