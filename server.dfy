/**
 * The streaming server's part of the control loop (server/server.js): the WebSocket message
 * dispatch, the buffer-health advisory rule, the bitrate table, the manifest and the
 * bandwidth-test payload size.
 */
module Streaming {
  import opened Wrappers
  import opened Protocol
  import QualityControl
  import BandwidthAggregation

  // ---------------------------------------------------------------------------
  // Buffer-health advisory
  // ---------------------------------------------------------------------------

  /** `handleBufferHealth`: the messages sent back for one buffer-health report. */
  function HandleBufferHealth(bufferHealth: real): (sent: seq<ServerMessage>)
    ensures |sent| <= 1
    ensures sent == [QualityRecommendation("decrease", "low-buffer")] <==> bufferHealth < 3.0
    ensures sent == [QualityRecommendation("increase", "high-buffer")] <==> bufferHealth > 15.0
    ensures sent == [] <==> 3.0 <= bufferHealth <= 15.0
  {
    if bufferHealth < 3.0 then [QualityRecommendation("decrease", "low-buffer")]
    else if bufferHealth > 15.0 then [QualityRecommendation("increase", "high-buffer")]
    else []
  }

  class StreamingServer {
    const bandwidthMonitor: BandwidthAggregation.BandwidthMonitor

    ghost predicate Valid()
      reads this, bandwidthMonitor
    {
      bandwidthMonitor.Valid()
    }

    constructor ()
      ensures Valid() && fresh(bandwidthMonitor) && bandwidthMonitor.bandwidthHistory == map[]
    {
      bandwidthMonitor := new BandwidthAggregation.BandwidthMonitor();
    }

    /**
     * `handleWebSocketMessage(ws, data)` at server time `now`: a bandwidth report is recorded,
     * a buffer-health report is answered by the advisory rule, anything else is ignored.
     */
    method HandleWebSocketMessage(data: ClientMessage, now: int) returns (sent: seq<ServerMessage>)
      requires Valid()
      modifies bandwidthMonitor
      ensures Valid()
      ensures data.BandwidthReport? ==>
        && sent == []
        && var c := data.clientId;
           var before := if c in old(bandwidthMonitor.bandwidthHistory) then old(bandwidthMonitor.bandwidthHistory)[c] else [];
           && c in bandwidthMonitor.bandwidthHistory
           && bandwidthMonitor.bandwidthHistory[c] == BandwidthAggregation.Appended(before, BandwidthAggregation.Measurement(data.bandwidth, now))
           && (forall c' :: c' != c ==> (c' in bandwidthMonitor.bandwidthHistory <==> c' in old(bandwidthMonitor.bandwidthHistory)))
           && (forall c' :: c' != c && c' in bandwidthMonitor.bandwidthHistory ==>
                 bandwidthMonitor.bandwidthHistory[c'] == old(bandwidthMonitor.bandwidthHistory)[c'])
      ensures data.BufferHealthReport? ==> sent == HandleBufferHealth(data.bufferHealth)
      ensures !data.BandwidthReport? ==> unchanged(bandwidthMonitor)
      ensures data.QualityChangeReport? || data.OtherClientMessage? ==> sent == []
    {
      sent := [];
      match data
      case BandwidthReport(bandwidth, clientId) =>
        bandwidthMonitor.RecordBandwidth(bandwidth, clientId, now);
      case QualityChangeReport(_, _) =>
      case BufferHealthReport(bufferHealth, _) =>
        sent := HandleBufferHealth(bufferHealth);
      case OtherClientMessage(_) =>
    }

    /** The 60 s interval set up by the monitor's constructor: one retention sweep. */
    method CleanupTick(now: int)
      requires Valid()
      modifies bandwidthMonitor
      ensures Valid()
      ensures bandwidthMonitor.bandwidthHistory ==
        BandwidthAggregation.Swept(old(bandwidthMonitor.bandwidthHistory), now - BandwidthAggregation.RetentionMs)
    {
      bandwidthMonitor.Cleanup(now);
    }
  }

  // ---------------------------------------------------------------------------
  // Bitrates and the manifest
  // ---------------------------------------------------------------------------

  predicate IsLadderName(quality: string)
  {
    exists i :: 0 <= i < |QualityControl.QualityOrder| && QualityControl.Name(QualityControl.QualityOrder[i]) == quality
  }

  /** `estimateBitrate`: the table's entry for a tier name, 1000 for anything else. */
  function EstimateBitrate(quality: string): (r: int)
    ensures r == 1000 <==> !IsLadderName(quality)
    ensures r > 0
  {
    assert QualityControl.Name(QualityControl.QualityOrder[0]) == "ultra-low";
    assert QualityControl.Name(QualityControl.QualityOrder[1]) == "low";
    assert QualityControl.Name(QualityControl.QualityOrder[2]) == "medium";
    assert QualityControl.Name(QualityControl.QualityOrder[3]) == "high";
    if quality == "ultra-low" then 400
    else if quality == "low" then 800
    else if quality == "medium" then 1500
    else if quality == "high" then 3000
    else 1000
  }

  /** Estimated bitrates strictly ascend along the ladder. */
  lemma BitrateAscendsWithTier(i: nat, j: nat)
    requires i < j < |QualityControl.QualityOrder|
    ensures EstimateBitrate(QualityControl.Name(QualityControl.QualityOrder[i]))
          < EstimateBitrate(QualityControl.Name(QualityControl.QualityOrder[j]))
  {
  }

  /** One entry of `getVideoQualities`: the file's URL, its size in bytes and the estimated bitrate. */
  datatype VideoQuality = VideoQuality(url: string, size: int, bitrate: int)

  datatype AdaptiveRules = AdaptiveRules(minBandwidth: seq<(string, int)>, decreaseThreshold: int, increaseThreshold: int)

  datatype Manifest = Manifest(name: string, qualities: map<string, VideoQuality>, defaultQuality: string, adaptiveRules: AdaptiveRules)

  /** `generateManifest(name)`, with the result of `getVideoQualities(name)` as input. */
  function GenerateManifest(name: string, qualities: map<string, VideoQuality>): (m: Manifest)
    ensures m.name == name && m.qualities == qualities && m.defaultQuality == "medium"
    ensures |m.adaptiveRules.minBandwidth| == |QualityControl.QualityOrder|
    ensures forall i :: 0 <= i < |m.adaptiveRules.minBandwidth| ==>
      m.adaptiveRules.minBandwidth[i].0 == QualityControl.Name(QualityControl.QualityOrder[i])
    ensures forall i, j :: 0 <= i < j < |m.adaptiveRules.minBandwidth| ==>
      m.adaptiveRules.minBandwidth[i].1 < m.adaptiveRules.minBandwidth[j].1
    ensures m.adaptiveRules.decreaseThreshold < m.adaptiveRules.increaseThreshold
  {
    Manifest(name, qualities, "medium",
      AdaptiveRules([("ultra-low", 0), ("low", 500), ("medium", 1000), ("high", 2000)], 3, 10))
  }

  /**
   * The manifest's advertised rules next to the ones the player applies: the minimum bandwidths
   * are in kbps and, scaled to bps, exceed the player's for low, medium and high; the increase
   * threshold is 10 s, while the server itself advises an increase only above 15 s.
   */
  lemma ManifestRulesVersusPlayer(name: string, qualities: map<string, VideoQuality>)
    ensures var rules := GenerateManifest(name, qualities).adaptiveRules;
      && rules.minBandwidth == [("ultra-low", 0), ("low", 500), ("medium", 1000), ("high", 2000)]
      && rules.decreaseThreshold == 3 && rules.increaseThreshold == 10
      && rules.minBandwidth[0].1 * 1000 == QualityControl.MinBandwidth(QualityControl.UltraLow)
      && (forall i :: 1 <= i < |QualityControl.QualityOrder| ==>
            rules.minBandwidth[i].1 * 1000 > QualityControl.MinBandwidth(QualityControl.QualityOrder[i]))
      && HandleBufferHealth(rules.increaseThreshold as real + 1.0) == []
  {
  }

  // ---------------------------------------------------------------------------
  // The bandwidth-test route: `parseInt(size) || 1024` kilobytes of 'A'
  // ---------------------------------------------------------------------------

  predicate IsSpace(c: char)
  {
    c == ' ' || c == '\t' || c == '\n' || c == '\r' || c == '\U{000B}' || c == '\U{000C}'
  }

  function TrimStart(s: string): string
  {
    if s != [] && IsSpace(s[0]) then TrimStart(s[1..]) else s
  }

  /** The value of `c` as a digit in base `radix` (10 or 16), if it is one. */
  function DigitValue(c: char, radix: nat): Option<nat>
  {
    if '0' <= c <= '9' then Some(c as nat - '0' as nat)
    else if radix == 16 && 'a' <= c <= 'f' then Some(c as nat - 'a' as nat + 10)
    else if radix == 16 && 'A' <= c <= 'F' then Some(c as nat - 'A' as nat + 10)
    else None
  }

  /** Length of the longest prefix of `s` made of digits in base `radix`. */
  function DigitPrefixLength(s: string, radix: nat): (k: nat)
    ensures k <= |s|
  {
    if s != [] && DigitValue(s[0], radix).Some? then 1 + DigitPrefixLength(s[1..], radix) else 0
  }

  /** The number written by a string of digits in base `radix`, most significant first. */
  function DigitsValue(s: string, radix: nat): nat
  {
    if s == [] then 0
    else
      var d := DigitValue(s[|s| - 1], radix);
      DigitsValue(s[..|s| - 1], radix) * radix + (if d.Some? then d.value else 0)
  }

  /**
   * `parseInt(s)` with no radix: leading white space, an optional sign, an optional `0x`
   * prefix, then the longest run of digits; `None` (NaN) when there is none.
   */
  function ParseInt(s: string): Option<int>
  {
    var t := TrimStart(s);
    var negative := t != [] && t[0] == '-';
    var u := if t != [] && (t[0] == '-' || t[0] == '+') then t[1..] else t;
    var hex := |u| >= 2 && u[0] == '0' && (u[1] == 'x' || u[1] == 'X');
    var radix := if hex then 16 else 10;
    var v := if hex then u[2..] else u;
    var k := DigitPrefixLength(v, radix);
    if k == 0 then None
    else
      var n := DigitsValue(v[..k], radix);
      var value: int := if negative then 0 - n as int else n;
      Some(value)
  }

  predicate IsDecimalDigits(s: string)
  {
    forall i :: 0 <= i < |s| ==> '0' <= s[i] <= '9'
  }

  lemma {:induction false} DecimalDigitsAreOnePrefix(s: string)
    requires IsDecimalDigits(s)
    ensures DigitPrefixLength(s, 10) == |s|
  {
    if s != [] {
      assert IsDecimalDigits(s[1..]) by {
        forall i | 0 <= i < |s[1..]| ensures '0' <= s[1..][i] <= '9' {
          assert s[1..][i] == s[i + 1];
        }
      }
      DecimalDigitsAreOnePrefix(s[1..]);
    }
  }

  /** A non-empty string of decimal digits parses to the number it writes. */
  lemma ParseIntOfDecimal(s: string)
    requires s != [] && IsDecimalDigits(s)
    ensures ParseInt(s) == Some(DigitsValue(s, 10))
  {
    assert TrimStart(s) == s;
    DecimalDigitsAreOnePrefix(s);
    assert s[..|s|] == s;
  }

  /** The response of `/api/bandwidth-test/:size`: a payload of some length, or the allocation's RangeError. */
  datatype PayloadResult = Payload(length: nat) | AllocationError

  /** `Buffer.alloc(size * 1024)` for `size = parseInt(param) || 1024` (NaN and 0 fall back). */
  function BandwidthTestPayload(param: string): (r: PayloadResult)
    ensures var p := ParseInt(param);
      && (p.None? || p.value == 0 ==> r == Payload(1024 * 1024))
      && (p.Some? && p.value > 0 ==> r == Payload(p.value * 1024))
      && (p.Some? && p.value < 0 <==> r == AllocationError)
  {
    var p := ParseInt(param);
    var size := if p.None? || p.value == 0 then 1024 else p.value;
    if size * 1024 < 0 then AllocationError else Payload(size * 1024)
  }

  /** The sizes of the repository's bandwidth test: a decimal size of n kilobytes answers n * 1024 bytes. */
  lemma PayloadOfDecimalSize(param: string)
    requires param != [] && IsDecimalDigits(param) && DigitsValue(param, 10) > 0
    ensures BandwidthTestPayload(param) == Payload(DigitsValue(param, 10) * 1024)
  {
    ParseIntOfDecimal(param);
  }

  /** The repository's test sizes: 100 KB, 500 KB and 1000 KB. */
  lemma PayloadScenarios()
    ensures BandwidthTestPayload("100") == Payload(100 * 1024)
    ensures BandwidthTestPayload("500") == Payload(500 * 1024)
    ensures BandwidthTestPayload("1000") == Payload(1000 * 1024)
  {
    DecimalValueScenarios();
    PayloadOfDecimalSize("100");
    PayloadOfDecimalSize("500");
    PayloadOfDecimalSize("1000");
  }

  lemma DecimalValueScenarios()
    ensures IsDecimalDigits("100") && DigitsValue("100", 10) == 100
    ensures IsDecimalDigits("500") && DigitsValue("500", 10) == 500
    ensures IsDecimalDigits("1000") && DigitsValue("1000", 10) == 1000
  {
    assert "100"[..2] == "10" && "10"[..1] == "1" && "1"[..0] == "";
    assert "500"[..2] == "50" && "50"[..1] == "5" && "5"[..0] == "";
    assert "1000"[..3] == "100";
  }

  /** Without digits, or with a zero size, the route falls back to 1024 KB. */
  lemma PayloadFallbackScenarios()
    ensures BandwidthTestPayload("abc") == Payload(1024 * 1024)
    ensures BandwidthTestPayload("0") == Payload(1024 * 1024)
  {
    assert TrimStart("abc") == "abc";
    assert IsDecimalDigits("0");
    ParseIntOfDecimal("0");
  }
}
