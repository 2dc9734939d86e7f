/** The adaptive video-quality controller of src/raspi_quality_config.cc: it
    keeps rolling windows of QP, packet-loss and round-trip-time samples, two
    latched adaptation flags, the current operating point and a fixed table of
    resolutions, and maps a target bitrate to a resolution. */
module RaspiQualityConfig {
  import opened MovingAverage
  import opened ResolutionTable
  import opened BestMatch

  /** Declared by the source and never used by it. */
  const LowH264QpThreshold := 24
  const HighH264QpThreshold := 35
  /** Approximately 3.1% packet loss. */
  const PacketLossThreshold := 8
  /** 200 ms. */
  const RttMaxThreshold := 200
  /** The Raspberry Pi's maximum frame rate. */
  const MaxFrameRate := 30

  /** An average exists and lies strictly above the threshold. */
  predicate Above(avg: Option<int>, threshold: int)
  {
    avg.Some? && avg.value > threshold
  }

  /** An average exists and lies strictly below the threshold. */
  predicate Below(avg: Option<int>, threshold: int)
  {
    avg.Some? && avg.value < threshold
  }

  class QualityConfig {
    /** Policy flags and the initial resolution, read from the program's
        default configuration when the controller is built. */
    const useDynamicResolution: bool
    const useInitialResolution: bool
    const use4x3Resolution: bool
    const initialResolution: Resolution
    /** The resolution table, built once from the 4:3 flag, so every
        controller's table is non-empty, ascending and well formed. */
    const resolutionConfig: seq<ResolutionConfigEntry> := BuildTable(use4x3Resolution)

    var targetFramerate: int
    var targetBitrate: int
    var maxBitrate: int
    var currentRes: Resolution
    /** Latched flags: set by the telemetry reporters, never cleared. */
    var adaptationUp: bool
    var adaptationDown: bool
    /** The three rolling windows. */
    var packetLoss: seq<int>
    var rtt: seq<int>
    var averageQp: seq<int>

    /** The samples added to each window since it was created or last reset. */
    ghost var packetLossHistory: seq<int>
    ghost var rttHistory: seq<int>
    ghost var qpHistory: seq<int>

    ghost predicate Valid()
      reads this
    {
      packetLoss == Window(packetLossHistory) &&
      rtt == Window(rttHistory) &&
      averageQp == Window(qpHistory)
    }

    /** The constructor. The initial values of the flags, the current
        resolution and the maximum bitrate are not given by the source, so they
        are parameters here. */
    constructor (useDynamicVideoResolution: bool, useInitialVideoResolution: bool,
                 resolution4x3Enable: bool, initialVideoResolution: Resolution,
                 initialAdaptationUp: bool, initialAdaptationDown: bool,
                 initialCurrentRes: Resolution, initialMaxBitrate: int)
      ensures Valid()
      ensures useDynamicResolution == useDynamicVideoResolution
      ensures useInitialResolution == useInitialVideoResolution
      ensures use4x3Resolution == resolution4x3Enable
      ensures initialResolution == initialVideoResolution
      ensures resolutionConfig == BuildTable(resolution4x3Enable)
      ensures |resolutionConfig| == (if resolution4x3Enable then 8 else 10)
      ensures Ascending(resolutionConfig) && WellFormed(resolutionConfig)
      ensures targetFramerate == 0 && targetBitrate == 0 && maxBitrate == initialMaxBitrate
      ensures adaptationUp == initialAdaptationUp && adaptationDown == initialAdaptationDown
      ensures currentRes == initialCurrentRes
      ensures packetLoss == [] && rtt == [] && averageQp == []
      ensures packetLossHistory == [] && rttHistory == [] && qpHistory == []
    {
      useDynamicResolution := useDynamicVideoResolution;
      useInitialResolution := useInitialVideoResolution;
      use4x3Resolution := resolution4x3Enable;
      initialResolution := initialVideoResolution;
      targetFramerate, targetBitrate, maxBitrate := 0, 0, initialMaxBitrate;
      adaptationUp, adaptationDown := initialAdaptationUp, initialAdaptationDown;
      currentRes := initialCurrentRes;
      packetLoss, rtt, averageQp := [], [], [];
      packetLossHistory, rttHistory, qpHistory := [], [], [];
    }

    /** ReportQP: add the sample, then compare the window's average with the
        high threshold: above it latches the up flag, below it latches the
        down flag, exactly at it changes neither. */
    method ReportQP(qp: int)
      requires Valid()
      modifies this`averageQp, this`qpHistory, this`adaptationUp, this`adaptationDown
      ensures Valid()
      ensures qpHistory == old(qpHistory) + [qp]
      ensures adaptationUp == (old(adaptationUp) || Above(GetAverage(averageQp), HighH264QpThreshold))
      ensures adaptationDown == (old(adaptationDown) || Below(GetAverage(averageQp), HighH264QpThreshold))
    {
      AddSampleTracksHistory(qpHistory, qp);
      averageQp := AddSample(averageQp, qp);
      qpHistory := qpHistory + [qp];
      var avgQp := GetAverage(averageQp);
      if avgQp.Some? {
        if avgQp.value > HighH264QpThreshold {
          adaptationUp := true;
        } else if avgQp.value < HighH264QpThreshold {
          adaptationDown := true;
        }
      }
    }

    /** ReportChannelParameters: add both samples, then latch the down flag if
        the packet-loss average is above its threshold (the RTT average is then
        not looked at) or else if the RTT average is above its threshold. The
        up flag is never touched. */
    method ReportChannelParameters(packetLossSample: nat, rttSample: nat)
      requires Valid()
      modifies this`packetLoss, this`packetLossHistory, this`rtt, this`rttHistory,
               this`adaptationDown
      ensures Valid()
      ensures packetLossHistory == old(packetLossHistory) + [packetLossSample]
      ensures rttHistory == old(rttHistory) + [rttSample]
      ensures adaptationDown == (old(adaptationDown) ||
                                 Above(GetAverage(packetLoss), PacketLossThreshold) ||
                                 Above(GetAverage(rtt), RttMaxThreshold))
    {
      AddSampleTracksHistory(packetLossHistory, packetLossSample);
      AddSampleTracksHistory(rttHistory, rttSample);
      packetLoss := AddSample(packetLoss, packetLossSample);
      packetLossHistory := packetLossHistory + [packetLossSample];
      rtt := AddSample(rtt, rttSample);
      rttHistory := rttHistory + [rttSample];

      var packetLossAvg := GetAverage(packetLoss);
      if packetLossAvg.Some? && packetLossAvg.value > PacketLossThreshold {
        adaptationDown := true;
        return;
      }
      var rttAvg := GetAverage(rtt);
      if rttAvg.Some? && rttAvg.value > RttMaxThreshold {
        adaptationDown := true;
        return;
      }
    }

    /** ReportFrameRate: record the new target frame rate (the source only
        logs and stores when it differs from the old one). */
    method ReportFrameRate(framerate: int)
      modifies this`targetFramerate
      ensures targetFramerate == framerate
    {
      if targetFramerate == framerate {
        return;
      }
      targetFramerate := framerate;
    }

    /** ReportMaxBitrate: store the ceiling unconditionally; nothing here
        enforces it. */
    method ReportMaxBitrate(bitrate: int)
      modifies this`maxBitrate
      ensures maxBitrate == bitrate
    {
      maxBitrate := bitrate;
    }

    /** ReportTargetBitrate: record the new target bitrate (the source only
        logs and stores when it differs from the old one). */
    method ReportTargetBitrate(bitrate: int)
      modifies this`targetBitrate
      ensures targetBitrate == bitrate
    {
      if bitrate == targetBitrate {
        return;
      }
      targetBitrate := bitrate;
    }

    /** Reset: empty the three windows, so no average exists until new
        samples arrive. Flags, operating point and current resolution stay. */
    method Reset()
      requires Valid()
      modifies this`packetLoss, this`packetLossHistory, this`rtt, this`rttHistory,
               this`averageQp, this`qpHistory
      ensures Valid()
      ensures packetLossHistory == [] && rttHistory == [] && qpHistory == []
      ensures GetAverage(packetLoss) == None && GetAverage(rtt) == None && GetAverage(averageQp) == None
    {
      packetLoss, rtt, averageQp := ResetWindow(), ResetWindow(), ResetWindow();
      packetLossHistory, rttHistory, qpHistory := [], [], [];
    }

    /** IsAdaptationRequired: the source returns the up flag or-ed with
        itself, so the down flag never shows here. */
    function IsAdaptationRequired(): (r: bool)
      reads this
      ensures r == adaptationUp
    {
      adaptationUp || adaptationUp
    }

    /** GetFrameRate: the target frame rate, clamped to at most 30. */
    function GetFrameRate(): (r: int)
      reads this
      ensures r <= MaxFrameRate
      ensures r == targetFramerate || (r == MaxFrameRate && targetFramerate > MaxFrameRate)
    {
      if targetFramerate > MaxFrameRate then MaxFrameRate else targetFramerate
    }

    /** GetBitrate: the target bitrate as recorded. */
    function GetBitrate(): (r: int)
      reads this
      ensures r == targetBitrate
    {
      targetBitrate
    }

    /** GetBestMatch(target, resolution): record the target, then scan the
        table as MatchAsWritten describes. `resolution` is the value the
        caller's in/out parameter holds on entry; `res` is its value on exit. */
    method GetBestMatch(bitrate: int, resolution: Resolution) returns (changed: bool, res: Resolution)
      requires Valid()
      requires useDynamicResolution ==> ScanInRange(resolutionConfig, bitrate)
      modifies this`targetBitrate, this`currentRes
      ensures Valid()
      ensures targetBitrate == bitrate
      ensures Match(changed, res, currentRes)
           == MatchAsWritten(useDynamicResolution, resolutionConfig, bitrate, old(currentRes), resolution)
    {
      targetBitrate := bitrate;
      if !useDynamicResolution {
        res := currentRes;
        return false, res;
      }
      changed, res := ScanTable(resolutionConfig, bitrate, resolution);
    }

    /** The loop of GetBestMatch over `table` (the controller's table, passed
        in so that the proof reasons about a table with no fixed contents):
        keep the nearest entry so far, and at the first entry that does not
        improve hand out that candidate and store it if it differs; when the
        loop runs off the end, store the caller's `resolution`. */
    method ScanTable(table: seq<ResolutionConfigEntry>, bitrate: int, resolution: Resolution)
      returns (changed: bool, res: Resolution)
      requires ScanInRange(table, bitrate)
      modifies this`currentRes
      ensures Match(changed, res, currentRes)
           == MatchAsWritten(true, table, bitrate, old(currentRes), resolution)
    {
      res := resolution;
      // The default-constructed candidate is never handed out: by
      // ScanInRange the first entry always improves on IntMax.
      var candidate := Resolution(0, 0);
      var lastDiff := IntMax;
      ghost var ds := Distances(table, bitrate);
      var i := 0;
      while i < |table|
        invariant 0 <= i <= |table|
        invariant res == resolution && currentRes == old(currentRes)
        invariant i == 0 ==> lastDiff == IntMax
        invariant i > 0 ==> candidate == table[i - 1].Res() && lastDiff == ds[i - 1]
        invariant i > 0 ==> TurnIndex(ds) == TurnFrom(ds, i)
      {
        var diff := Abs(table[i].averageBandwidth - bitrate);
        if lastDiff > diff {
          candidate := table[i].Res();
          lastDiff := diff;
        } else {
          res := candidate;
          if res != currentRes {
            currentRes := res;
            return true, res;
          } else {
            return false, res;
          }
        }
        i := i + 1;
      }
      currentRes := resolution;
      return true, res;
    }

    /** GetBestMatch(resolution): the match for the recorded target bitrate. */
    method GetBestMatchAtTarget(resolution: Resolution) returns (changed: bool, res: Resolution)
      requires Valid()
      requires useDynamicResolution ==> ScanInRange(resolutionConfig, targetBitrate)
      modifies this`targetBitrate, this`currentRes
      ensures Valid()
      ensures targetBitrate == old(targetBitrate)
      ensures Match(changed, res, currentRes)
           == MatchAsWritten(useDynamicResolution, resolutionConfig, targetBitrate, old(currentRes), resolution)
    {
      changed, res := GetBestMatch(targetBitrate, resolution);
    }

    /** GetInitialBestMatch: with the initial-resolution policy on, hand out
        and store the configured initial resolution and report a change;
        otherwise the match for the recorded target bitrate. */
    method GetInitialBestMatch(resolution: Resolution) returns (changed: bool, res: Resolution)
      requires Valid()
      requires !useInitialResolution && useDynamicResolution ==> ScanInRange(resolutionConfig, targetBitrate)
      modifies this`targetBitrate, this`currentRes
      ensures Valid()
      ensures targetBitrate == old(targetBitrate)
      ensures useInitialResolution ==>
        changed && res == initialResolution && currentRes == initialResolution
      ensures !useInitialResolution ==>
        Match(changed, res, currentRes)
        == MatchAsWritten(useDynamicResolution, resolutionConfig, targetBitrate, old(currentRes), resolution)
    {
      if useInitialResolution {
        var candidate := initialResolution;
        currentRes := candidate;
        res := candidate;
        return true, res;
      }
      changed, res := GetBestMatch(targetBitrate, resolution);
    }
  }

  /** A session on the 16:9 table with dynamic resolution on: a target equal
      to the 768x432 entry's average selects it and reports a change, the same
      target again reports none, and a reported 60 fps reads back as 30. */
  method ExactTargetSession()
  {
    var q := new QualityConfig(true, false, false, Resolution(640, 480),
                               false, false, Resolution(0, 0), 0);
    ExactHitOn16x9(Resolution(0, 0), Resolution(0, 0));
    var changed, res := q.GetBestMatch(1277, Resolution(0, 0));
    assert changed && res == Resolution(768, 432) == q.currentRes;
    ExactHitOn16x9(res, res);
    changed, res := q.GetBestMatch(1277, res);
    assert !changed && res == Resolution(768, 432);

    q.ReportFrameRate(60);
    assert q.GetFrameRate() == 30;
  }

  /** A target above 6333 on the 16:9 table runs the scan off the end: the
      caller's 0x0 is handed back and stored, and a change is reported. */
  method FallThroughSession()
  {
    var q := new QualityConfig(true, false, false, Resolution(640, 480),
                               false, false, Resolution(1280, 720), 0);
    FallThroughAbove6333(7000);
    ScanInRangeForNonNegative(false, 7000);
    var changed, res := q.GetBestMatch(7000, Resolution(0, 0));
    assert changed && res == Resolution(0, 0) == q.currentRes;
  }

  /** Any valid controller, whichever table it was built with, accepts any
      target from 0 to IntMax; when the scan stops at a turn, the resolution
      handed back is that of an entry nearest the target. */
  method RetargetAnyController(q: QualityConfig, bitrate: int) returns (changed: bool, res: Resolution)
    requires q.Valid() && 0 <= bitrate <= IntMax
    modifies q`targetBitrate, q`currentRes
    ensures q.Valid() && q.targetBitrate == bitrate
    ensures q.useDynamicResolution && TurnIndex(Distances(q.resolutionConfig, bitrate)).Some? ==>
      var ds := Distances(q.resolutionConfig, bitrate);
      exists k :: 0 <= k < |q.resolutionConfig| && res == q.resolutionConfig[k].Res() &&
        forall j :: 0 <= j < |ds| ==> ds[k] <= ds[j]
  {
    ScanInRangeForNonNegative(q.use4x3Resolution, bitrate);
    changed, res := q.GetBestMatch(bitrate, q.currentRes);
    if q.useDynamicResolution && TurnIndex(Distances(q.resolutionConfig, bitrate)).Some? {
      IntendedMatchIsNearest(q.resolutionConfig, bitrate);
      var k := IntendedMatchIndex(q.resolutionConfig, bitrate);
      assert res == q.resolutionConfig[k].Res();
    }
  }
}
