# rpi-webrtc-streamer quality controller, in Dafny

This project models `QualityConfig`, the adaptive video-quality controller of
rpi-webrtc-streamer (`src/raspi_quality_config.cc`). The controller takes
streaming telemetry and makes two decisions. First, it latches whether the
sender should adapt up or down. Second, it picks the table resolution whose
expected bandwidth best matches a target bitrate.

- `moving_average.dfy` (module `MovingAverage`): the rolling sample window the
  controller keeps three of. It is webrtc's moving-average helper, whose source
  is not part of this model. It is specified abstractly as the last 90
  samples since the last reset. Its average is absent while the window is
  empty; otherwise it is the integer mean truncated toward zero, as C++ `int`
  division does. `AddSampleTracksHistory` proves that adding a sample to the
  window of a history gives the window of the longer history, so eviction
  always drops the oldest sample.
- `resolution_table.dfy` (module `ResolutionTable`): the table entry
  (`ResolutionConfigEntry`), its bandwidth formula, and the 4:3 (8 entries)
  and 16:9 (10 entries) tables the constructor builds. It proves that both
  tables list entries in strictly ascending pixel count and average bandwidth,
  all at 20 to 30 fps, with these averages:
  - 16:9: 319, 567, 886, 1277, 1738, 2270, 2873, 3548, 4683, 7983
  - 4:3: 295, 462, 756, 1182, 3027, 3831, 4849, 7778
- `best_match.dfy` (module `BestMatch`): the resolution matcher as a pure
  specification. The scan stops at the "turn": the first index whose distance
  to the target does not strictly shrink. `MatchAsWritten` is what the code
  does; `MatchIntended` is the evident intent; both are described under
  Findings.
- `quality_config.dfy` (module `RaspiQualityConfig`): the class
  `QualityConfig`. Its fields are the flags, operating point, current
  resolution and windows, and its methods update them in place. The table is
  a constant initialised from the 4:3 flag, so every controller's table is
  non-empty, ascending and well formed. `GetBestMatch` keeps the source's
  loop, with its early return and its fall-through, in `ScanTable`, which
  takes the table as a parameter and updates the current resolution in
  place. It is proved equal to `MatchAsWritten`. Three client methods show
  what a caller can conclude from the contracts alone:
  `ExactTargetSession`, `FallThroughSession` and `RetargetAnyController`.

Modelled as written:

- `ReportQP` compares the average with the high threshold 35 in both
  directions. The low threshold 24 is declared and never used.
- `IsAdaptationRequired` ORs the up flag with itself, so it returns exactly
  the up flag.
- Neither flag is ever cleared, not even by `Reset`.
- The matcher stops at the first non-improving distance. It does not search
  the whole table for the global minimum.

Two further points where the model rests on the code:

- The log line at :247-248 prints the last candidate, but the code stores the
  caller's in/out value (see Findings).
- The header that would fix the flags' and current resolution's initial
  values is not part of this model, so the constructor takes them as
  parameters.

## Model

| member | source | states |
|---|---|---|
| `MovingAverage.AddSample` | src/raspi_quality_config.cc:43 | Adding a sample to a window of at most 90 samples keeps at most 90, and the result is the last 90 of the old window plus the new sample. |
| `MovingAverage.GetAverage` | src/raspi_quality_config.cc:106-107 | The average is absent exactly when the window is empty. Otherwise it is the sum of the samples divided by their count, truncated toward zero. |
| `MovingAverage.ResetWindow` | src/raspi_quality_config.cc:157-161 | A reset window has no average. |
| `MovingAverage.AddSampleTracksHistory` | src/raspi_quality_config.cc:67 | After any sequence of samples, each 90-sample window holds exactly the last min(n, 90) samples added since the last reset, oldest first. |
| `ResolutionTable.Entry` | src/raspi_quality_config.cc:54-63 | An entry keeps its resolution and frame-rate range. Its upper bandwidth is floor(w·h·max_fps·0.07·3/1000), its lower bandwidth is floor(w·h·min_fps·0.07/1000), and its average is the integer mean of the two. |
| `ResolutionTable.IncreasingBetween` | src/raspi_quality_config.cc:75-95 | Strict increase between neighbours gives strict increase between any two entries. |
| `ResolutionTable.Table4x3Averages` | src/raspi_quality_config.cc:75-82 | The 4:3 table's average bandwidths are 295, 462, 756, 1182, 3027, 3831, 4849, 7778. |
| `ResolutionTable.Table4x3` | src/raspi_quality_config.cc:75-82 | The 4:3 table has 8 entries in strictly ascending pixel count and average bandwidth, each at 20 to 30 fps. |
| `ResolutionTable.Table16x9Averages` | src/raspi_quality_config.cc:86-95 | The 16:9 table's average bandwidths are 319, 567, 886, 1277, 1738, 2270, 2873, 3548, 4683, 7983. |
| `ResolutionTable.Table16x9` | src/raspi_quality_config.cc:86-95 | The 16:9 table has 10 entries in strictly ascending pixel count and average bandwidth, each at 20 to 30 fps. |
| `ResolutionTable.BuildTable` | src/raspi_quality_config.cc:73-96 | The constructor builds 8 entries when the 4:3 flag is set and 10 otherwise, ascending and well formed either way. |
| `ResolutionTable.Entry400x300Exact` | src/raspi_quality_config.cc:76 | The 400x300 entry's upper bandwidth is exactly 756, with nothing lost to rounding, and its average is 462. |
| `BestMatch.Distances` | src/raspi_quality_config.cc:227 | Each entry's distance is the absolute difference between its average bandwidth and the target. |
| `BestMatch.TurnFrom` | src/raspi_quality_config.cc:225-246 | The early-exit point of the scan. It finds the first index whose distance is not strictly below the previous one, with the distances strictly decreasing before it. If it finds none, the distances strictly decrease to the end. |
| `BestMatch.TurnIndexIs` | src/raspi_quality_config.cc:228-233 | The early-exit point is unique: any index that the distances strictly decrease up to and then fail to decrease at is the one the scan stops at. |
| `BestMatch.DecreasingBetween` | src/raspi_quality_config.cc:228-232 | While the scan keeps improving, every later candidate is strictly closer than every earlier one. |
| `BestMatch.IntendedMatchIndex` | src/raspi_quality_config.cc:233-234 | The intended match is the entry before the early-exit point, or the last entry when the scan runs off the end. It is always an index of the table. |
| `BestMatch.IntendedMatchIsNearest` | src/raspi_quality_config.cc:197-201 | On a table of strictly increasing averages, the intended match is a nearest entry to the target, and every entry below it is strictly farther, so ties go to the lower entry. |
| `BestMatch.MatchIntended` | src/raspi_quality_config.cc:218-246 | The corrected matcher hands back what it stores. A change is reported exactly when the stored resolution differs from the current one. With dynamic resolution off it keeps the current resolution; otherwise it stores the intended match. |
| `BestMatch.MatchAsWritten` | src/raspi_quality_config.cc:210-251 | The matcher as written hands back what it stores. With dynamic resolution off it keeps the current resolution and reports no change. If the scan stops early, it stores the entry before the early-exit point and reports a change exactly when that differs from the current resolution. If the scan runs off the end, it stores the caller's value and reports a change. |
| `BestMatch.RepeatMatchIsStable` | src/raspi_quality_config.cc:233-245 | As written: if the first call stopped early, a second call with the same target reports no change and keeps the same resolution. |
| `BestMatch.RepeatIntendedMatchIsStable` | src/raspi_quality_config.cc:235-244 | As intended: a second call with the same target always reports no change. |
| `BestMatch.ExhaustedScanAlwaysChanges` | src/raspi_quality_config.cc:247-250 | When the distances decrease across the whole table, the code as written hands back and stores the caller's value and reports a change, whatever the current resolution. |
| `BestMatch.ExactHit` | src/raspi_quality_config.cc:225-250 | For a target equal to entry k's average, below the last entry the scan stops at k+1 and picks k. At the last entry it runs off the end. |
| `BestMatch.FallThroughAbove6333` | src/raspi_quality_config.cc:247-250 | On the 16:9 table, every target above 6333 makes the scan run off the end. |
| `BestMatch.FallThroughOnLastEntry` | src/raspi_quality_config.cc:247-250 | For a target equal to the last entry's average, the code as written hands back and stores the caller's resolution. The intended matcher picks the last entry. |
| `BestMatch.FallThroughKeepsCallerResolution` | src/raspi_quality_config.cc:247-250 | 16:9 table, target 7983, caller's value 0x0: the code as written returns true and stores 0x0. The intended matcher picks 1920x1080. |
| `BestMatch.ExactHitOn16x9` | src/raspi_quality_config.cc:225-245 | On the 16:9 table, target 1277 stays within int range and selects 768x432. A change is reported exactly when that differs from the current resolution. |
| `BestMatch.ScanInRangeWithinBounds` | src/raspi_quality_config.cc:213-227 | If every average lies in [lo, hi] and both lo − target and hi − target lie strictly between −INT_MAX and INT_MAX, the scan's arithmetic stays within int wherever the scan stops. |
| `BestMatch.ScanInRangeOfAscending` | src/raspi_quality_config.cc:213-227 | On a non-empty table of strictly increasing averages, a target whose differences from the first and last averages lie strictly inside (−INT_MAX, INT_MAX) keeps the scan's arithmetic within int. |
| `BestMatch.ScanInRangeForNonNegative` | src/raspi_quality_config.cc:213-227 | Any target from 0 to INT_MAX keeps the scan of either table (4:3 or 16:9) within int, with the first distance below the initial INT_MAX. |
| `BestMatch.ScanInRangeNearIntMin` | src/raspi_quality_config.cc:213-234 | Target 567 − INT_MAX on the 16:9 table: the first distance is INT_MAX − 248 and the second is exactly INT_MAX, so the scan stops there and picks 384x216 with no overflow, even though the third entry's difference would overflow. |
| `RaspiQualityConfig.QualityConfig.constructor` | src/raspi_quality_config.cc:65-97 | The constructor stores the policy flags, builds the 4:3 or 16:9 table, sets the target frame rate and bitrate to 0, and leaves the three windows empty. |
| `RaspiQualityConfig.QualityConfig.ReportQP` | src/raspi_quality_config.cc:104-115 | The sample is added first. An average above 35 latches the up flag, one below 35 latches the down flag, exactly 35 changes neither, and no flag is ever cleared. |
| `RaspiQualityConfig.QualityConfig.ReportChannelParameters` | src/raspi_quality_config.cc:117-136 | Both samples are added first. The down flag becomes its old value OR (loss average > 8) OR (RTT average > 200), and the up flag is not touched. |
| `RaspiQualityConfig.QualityConfig.ReportFrameRate` | src/raspi_quality_config.cc:138-143 | The target frame rate becomes the argument, and nothing else changes. |
| `RaspiQualityConfig.QualityConfig.ReportMaxBitrate` | src/raspi_quality_config.cc:145-148 | The maximum bitrate becomes the argument, and nothing else changes. |
| `RaspiQualityConfig.QualityConfig.ReportTargetBitrate` | src/raspi_quality_config.cc:150-155 | The target bitrate becomes the argument, and nothing else changes. |
| `RaspiQualityConfig.QualityConfig.Reset` | src/raspi_quality_config.cc:157-161 | The three windows are emptied, so every average is absent. Flags, operating point and current resolution are unchanged. |
| `RaspiQualityConfig.QualityConfig.IsAdaptationRequired` | src/raspi_quality_config.cc:163-165 | The result is exactly the up flag. The down flag has no effect. |
| `RaspiQualityConfig.QualityConfig.GetFrameRate` | src/raspi_quality_config.cc:167-172 | Never above 30: the target frame rate when that is at most 30, and 30 otherwise. |
| `RaspiQualityConfig.QualityConfig.GetBitrate` | src/raspi_quality_config.cc:174-176 | The target bitrate, unchanged. |
| `RaspiQualityConfig.QualityConfig.GetBestMatch` | src/raspi_quality_config.cc:210-251 | Records the target first. With dynamic resolution off, it hands back the current resolution and returns false. Otherwise its result, output and new current resolution are those of `MatchAsWritten`, and only the target bitrate and current resolution change. |
| `RaspiQualityConfig.QualityConfig.ScanTable` | src/raspi_quality_config.cc:224-250 | The loop over the table, for a target within int range. Its result, the value handed back and the new current resolution are those of `MatchAsWritten` with dynamic resolution on. Only the current resolution changes. |
| `RaspiQualityConfig.RetargetAnyController` | src/raspi_quality_config.cc:197-201 | On any valid controller, with either table, any target from 0 to INT_MAX meets `GetBestMatch`'s precondition. The target is recorded. When the scan stops at a turn, the resolution handed back is that of an entry nearest the target. |
| `RaspiQualityConfig.QualityConfig.GetBestMatchAtTarget` | src/raspi_quality_config.cc:178-180 | The match for the recorded target bitrate, which stays as it was. |
| `RaspiQualityConfig.QualityConfig.GetInitialBestMatch` | src/raspi_quality_config.cc:182-195 | With the initial-resolution policy on, it hands out and stores the configured initial resolution and returns true. Otherwise it behaves as `GetBestMatch` on the recorded target. |

## Findings

| source | as written | input that shows it | evidently intended | confidence | as-written member | corrected member |
|---|---|---|---|---|---|---|
| src/raspi_quality_config.cc:247-250 | When the scan runs off the end of the table, the in/out `resolution` was never assigned, yet `current_res_ = resolution` stores it and the call returns true. | 16:9 table with dynamic resolution on, target 7983 (or anything above 6333), caller passes 0x0: the current resolution becomes 0x0. | Use the last candidate, which the log line at :247-248 already prints (1920x1080 here). | high; not executed | `BestMatch.FallThroughKeepsCallerResolution` | `BestMatch.MatchIntended` |

`MatchAsWritten` is defined through `MatchIntended`, and the two differ only on the fall-through path. `IntendedMatchIsNearest` proves the intended property: a nearest entry, with ties going lower. `RepeatIntendedMatchIsStable` proves that the corrected matcher reports a change at most once per target. The class keeps the behaviour as written.

## Left out

- The bandwidth formula: the source computes it in single-precision float using the constant 0.07. The model uses exact integers: upper bandwidth = ⌊w·h·max_fps·21/100000⌋, lower bandwidth = ⌊w·h·min_fps·7/100000⌋. For the two tables this gives the averages listed above. That is a deviation from the float computation, which might round differently on other inputs.
- The moving-average helper's internals (a ring of running sums) are foreign code and not part of this model. It is specified only by the window it holds and its truncated mean.
- Machine integers: the `uint32_t`/`uint64_t` samples converted to `int`, and `int` sums, are unbounded here. `GetBestMatch` instead requires `ScanInRange`, which covers only the entries the scan actually reaches (up to and including the one where it stops). Each of their `avg − target` values must lie in [−INT_MAX, INT_MAX], so that the source's subtraction and `abs` are defined.
- `RaspiQualityConfig.QualityConfig.GetBestMatch` (and `GetBestMatchAtTarget`, `GetInitialBestMatch`, which call it): the first entry's difference must also lie strictly inside (−INT_MAX, INT_MAX). This excludes the single `int` target, the first average minus INT_MAX, at which the first distance equals the initial INT_MAX. There the source hands out its default-constructed candidate, whose value the header fixes, and the header is not part of this model.
- `LOG(INFO)` output is left out: it changes no state. For the same reason, the source's "store only if different" in `ReportFrameRate` and `ReportTargetBitrate` is visible only as the stored value.
- The `default_config` globals are taken as constructor parameters. So are the header's unstated initial values of both flags, the current resolution and the maximum bitrate.
- Threading: the controller has no locks, and callers serialize calls.
- `src/app_channel.cc` (websocket and HTTP setup, configuration plumbing) is not part of this model.
