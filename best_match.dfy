/** The resolution matcher of QualityConfig::GetBestMatch, as a specification
    on values. The source scans the table in order, keeping the entry whose
    average bandwidth is closest to the target so far, and stops at the first
    entry whose distance does not strictly improve on the previous one (the
    "turn"). This module names that turn, states what the source does when it
    finds one and when it runs off the end, and proves that on a table of
    strictly increasing averages the entry before the turn is a nearest one. */
module BestMatch {
  import opened MovingAverage
  import opened ResolutionTable

  /** std::numeric_limits<int>::max(), the scan's initial "last distance". */
  const IntMax := 0x7fff_ffff

  function Abs(x: int): (r: int)
    ensures r >= 0 && (r == x || r == -x)
  {
    if x < 0 then -x else x
  }

  /** The distance of each entry's average bandwidth from the target. */
  function Distances(table: seq<ResolutionConfigEntry>, target: int): (ds: seq<int>)
    ensures |ds| == |table|
    ensures forall i :: 0 <= i < |table| ==> ds[i] == Abs(table[i].averageBandwidth - target)
  {
    seq(|table|, i requires 0 <= i < |table| => Abs(table[i].averageBandwidth - target))
  }

  /** The first index at or after `from` whose distance does not strictly
      improve on the one before it, or None when the distances strictly
      decrease from `from - 1` to the end. */
  function TurnFrom(ds: seq<int>, from: nat): (r: Option<nat>)
    requires from >= 1
    ensures r.Some? ==> from <= r.value < |ds| && ds[r.value] >= ds[r.value - 1]
    ensures r.Some? ==> forall j :: from <= j < r.value ==> ds[j] < ds[j - 1]
    ensures r.None? ==> forall j :: from <= j < |ds| ==> ds[j] < ds[j - 1]
    decreases |ds| - from
  {
    if from >= |ds| then None
    else if ds[from] >= ds[from - 1] then Some(from)
    else TurnFrom(ds, from + 1)
  }

  /** Where the scan of the source stops: the least i >= 1 with
      ds[i] >= ds[i - 1], if there is one. */
  function TurnIndex(ds: seq<int>): Option<nat>
  {
    TurnFrom(ds, 1)
  }

  /** The last entry the scan of the source computes a distance for: the
      entry at the turn, or the last entry when it runs off the end. */
  function LastScanned(table: seq<ResolutionConfigEntry>, target: int): int
  {
    match TurnIndex(Distances(table, target))
    case Some(t) => t
    case None => |table| - 1
  }

  /** The source computes each distance with C++ `int` subtraction and `abs`,
      up to and including the entry at the turn. That arithmetic is defined
      when each of those differences lies in [-IntMax, IntMax] (outside int
      range the subtraction overflows, and `abs` of INT_MIN is undefined).
      The first difference must also lie strictly inside, so that its
      distance is below the initial IntMax: otherwise the scan would hand out
      a default-constructed resolution, whose value is not part of this model. */
  predicate ScanInRange(table: seq<ResolutionConfigEntry>, target: int)
  {
    (|table| > 0 ==> -IntMax < table[0].averageBandwidth - target < IntMax) &&
    forall i :: 0 <= i < |table| && i <= LastScanned(table, target) ==>
      -IntMax <= table[i].averageBandwidth - target <= IntMax
  }

  /** The turn is unique: any index that the distances strictly decrease up to
      and then fail to decrease at is the one TurnIndex finds. */
  lemma TurnIndexIs(ds: seq<int>, t: nat)
    requires 1 <= t < |ds| && ds[t] >= ds[t - 1]
    requires forall j :: 1 <= j < t ==> ds[j] < ds[j - 1]
    ensures TurnIndex(ds) == Some(t)
  {
  }

  /** Distances that strictly decrease on [lo, hi) decrease between any two
      indices of [lo - 1, hi). */
  lemma {:induction false} DecreasingBetween(ds: seq<int>, lo: nat, hi: nat, j: nat, k: nat)
    requires 1 <= lo && hi <= |ds| && lo - 1 <= j < k < hi
    requires forall m :: lo <= m < hi ==> ds[m] < ds[m - 1]
    ensures ds[k] < ds[j]
    decreases k - j
  {
    if j + 1 < k {
      DecreasingBetween(ds, lo, hi, j, k - 1);
    }
  }

  /** The entry the matcher is evidently meant to pick: the one before the turn,
      or the last entry examined when the scan runs off the end. */
  function IntendedMatchIndex(table: seq<ResolutionConfigEntry>, target: int): (k: nat)
    requires |table| > 0
    ensures k < |table|
  {
    match TurnIndex(Distances(table, target))
    case Some(t) => t - 1
    case None => |table| - 1
  }

  /** On a table of strictly increasing average bandwidths, the intended match
      is a nearest entry to the target, and every entry before it is strictly
      farther (ties go to the lower entry). */
  lemma IntendedMatchIsNearest(table: seq<ResolutionConfigEntry>, target: int)
    requires |table| > 0 && StrictlyIncreasing(Averages(table))
    ensures var ds, k := Distances(table, target), IntendedMatchIndex(table, target);
      (forall j :: 0 <= j < |table| ==> ds[k] <= ds[j]) &&
      (forall j :: 0 <= j < k ==> ds[k] < ds[j])
  {
    var ds, k := Distances(table, target), IntendedMatchIndex(table, target);
    var a := Averages(table);
    match TurnIndex(ds)
    case None =>
      forall j | 0 <= j < k ensures ds[k] < ds[j] {
        DecreasingBetween(ds, 1, |ds|, j, k);
      }
    case Some(t) =>
      assert k == t - 1;
      forall j | 0 <= j < k ensures ds[k] < ds[j] {
        DecreasingBetween(ds, 1, t, j, k);
      }
      // The turn lies at or above the target: below it the distance would
      // still be shrinking.
      assert a[k] < a[t];
      assert a[t] >= target;
      forall j | t < j < |table| ensures ds[k] <= ds[j] {
        IncreasingBetween(a, t, j);
      }
  }

  /** What one call of GetBestMatch reports (its result), hands back in its
      in/out parameter, and leaves as the current resolution. */
  datatype Match = Match(changed: bool, output: Resolution, current: Resolution)

  /** GetBestMatch as evidently intended. With dynamic resolution off it keeps
      the current resolution and reports no change. Otherwise it picks the
      intended match and reports whether that differs from the current
      resolution. */
  function MatchIntended(useDynamicResolution: bool, table: seq<ResolutionConfigEntry>,
                         target: int, current: Resolution): (m: Match)
    requires useDynamicResolution ==> |table| > 0
    ensures m.output == m.current
    ensures m.changed <==> m.current != current
    ensures !useDynamicResolution ==> m.current == current
    ensures useDynamicResolution ==> m.current == table[IntendedMatchIndex(table, target)].Res()
  {
    if !useDynamicResolution then Match(false, current, current)
    else
      var picked := table[IntendedMatchIndex(table, target)].Res();
      Match(picked != current, picked, picked)
  }

  /** GetBestMatch as the source is written: the intended behaviour, except
      that when the scan runs off the end the in/out parameter is never
      written, so the caller's `resolution` is handed back, stored as current
      and reported as a change. */
  function MatchAsWritten(useDynamicResolution: bool, table: seq<ResolutionConfigEntry>,
                          target: int, current: Resolution, resolution: Resolution): (m: Match)
    ensures m.output == m.current
    ensures !useDynamicResolution ==> !m.changed && m.current == current
    ensures useDynamicResolution ==>
      match TurnIndex(Distances(table, target))
      case Some(t) => m.current == table[t - 1].Res() && (m.changed <==> m.current != current)
      case None => m.changed && m.current == resolution
  {
    if useDynamicResolution && TurnIndex(Distances(table, target)).None? then
      Match(true, resolution, resolution)
    else
      MatchIntended(useDynamicResolution, table, target, current)
  }

  /** A repeated call with the same target reports no change, provided the
      first call stopped at a turn. */
  lemma RepeatMatchIsStable(useDynamicResolution: bool, table: seq<ResolutionConfigEntry>,
                            target: int, current: Resolution, resolution: Resolution,
                            resolution': Resolution)
    requires useDynamicResolution ==> TurnIndex(Distances(table, target)).Some?
    ensures var first := MatchAsWritten(useDynamicResolution, table, target, current, resolution);
      var second := MatchAsWritten(useDynamicResolution, table, target, first.current, resolution');
      !second.changed && second.current == first.current && second.output == first.output
  {
  }

  /** The intended matcher is stable under every repeated call. */
  lemma RepeatIntendedMatchIsStable(useDynamicResolution: bool, table: seq<ResolutionConfigEntry>,
                                    target: int, current: Resolution)
    requires useDynamicResolution ==> |table| > 0
    ensures var first := MatchIntended(useDynamicResolution, table, target, current);
      var second := MatchIntended(useDynamicResolution, table, target, first.current);
      !second.changed && second.current == first.current
  {
  }

  /** When the scan runs off the end, the code as written reports a change on
      every call, whatever the current resolution. */
  lemma ExhaustedScanAlwaysChanges(table: seq<ResolutionConfigEntry>, target: int,
                                   current: Resolution, resolution: Resolution)
    requires TurnIndex(Distances(table, target)).None?
    ensures var m := MatchAsWritten(true, table, target, current, resolution);
      m.changed && m.output == resolution && m.current == resolution
  {
  }

  /** A target equal to the average bandwidth of entry k: for every entry but
      the last the scan turns right after k and picks entry k; for the last
      entry the distances decrease all the way and the scan runs off the end. */
  lemma ExactHit(table: seq<ResolutionConfigEntry>, k: nat)
    requires k < |table| && StrictlyIncreasing(Averages(table))
    ensures var ds := Distances(table, table[k].averageBandwidth);
      (k + 1 < |table| ==> TurnIndex(ds) == Some(k + 1)) &&
      (k + 1 == |table| ==> TurnIndex(ds) == None) &&
      IntendedMatchIndex(table, table[k].averageBandwidth) == k
  {
    var target := table[k].averageBandwidth;
    var ds := Distances(table, target);
    var a := Averages(table);
    forall j | 1 <= j <= k ensures ds[j] < ds[j - 1] {
      IncreasingBetween(a, j - 1, j);
      if j < k { IncreasingBetween(a, j, k); }
    }
    if k + 1 < |table| {
      IncreasingBetween(a, k, k + 1);
      TurnIndexIs(ds, k + 1);
    }
  }

  /** On the 16:9 table every target above 6333 (the midpoint of the two
      largest averages, 4683 and 7983) makes the distances decrease all the
      way, so the scan of the source runs off the end. */
  lemma FallThroughAbove6333(target: int)
    requires target > 6333
    ensures TurnIndex(Distances(Table16x9(), target)).None?
  {
    Table16x9Averages();
    var table := Table16x9();
    var ds := Distances(table, target);
    var a := Averages(table);
    assert a[9] == 7983 && a[8] == 4683;
    forall j | 1 <= j < |ds| ensures ds[j] < ds[j - 1] {
      assert a[j - 1] < a[j];
    }
  }

  /** A target equal to the last entry's average bandwidth: the code as
      written hands back and stores the caller's resolution, where the intended
      matcher picks the last entry. */
  lemma FallThroughOnLastEntry(table: seq<ResolutionConfigEntry>, current: Resolution,
                               resolution: Resolution)
    requires |table| > 0 && StrictlyIncreasing(Averages(table))
    ensures var target := table[|table| - 1].averageBandwidth;
      MatchAsWritten(true, table, target, current, resolution) == Match(true, resolution, resolution) &&
      MatchIntended(true, table, target, current).current == table[|table| - 1].Res()
  {
    ExactHit(table, |table| - 1);
  }

  /** The fall-through on the 16:9 table: a target of exactly 7983 (the
      average of 1920x1080) hands back and stores the caller's resolution,
      here 0x0, where the intended matcher picks 1920x1080. */
  lemma FallThroughKeepsCallerResolution(current: Resolution)
    ensures MatchAsWritten(true, Table16x9(), 7983, current, Resolution(0, 0))
         == Match(true, Resolution(0, 0), Resolution(0, 0))
    ensures MatchIntended(true, Table16x9(), 7983, current).current == Resolution(1920, 1080)
  {
    Table16x9Averages();
    var table := Table16x9();
    assert table[9] == Entry(1920, 1080, 20, 30);
    assert table[9].averageBandwidth == 7983;
    FallThroughOnLastEntry(table, current, Resolution(0, 0));
  }

  /** On the 16:9 table a target of exactly 1277 (the average of 768x432) is
      within int range and selects 768x432. */
  lemma ExactHitOn16x9(current: Resolution, resolution: Resolution)
    ensures ScanInRange(Table16x9(), 1277)
    ensures MatchAsWritten(true, Table16x9(), 1277, current, resolution)
         == var picked := Resolution(768, 432); Match(picked != current, picked, picked)
  {
    Table16x9Averages();
    var table := Table16x9();
    assert table[3] == Entry(768, 432, 20, 30);
    assert table[3].averageBandwidth == 1277;
    ExactHit(table, 3);
  }

  /** A target whose difference from every average lies strictly inside
      (-IntMax, IntMax) keeps the scan within int range, wherever it turns. */
  lemma ScanInRangeWithinBounds(table: seq<ResolutionConfigEntry>, target: int, lo: int, hi: int)
    requires forall i :: 0 <= i < |table| ==> lo <= table[i].averageBandwidth <= hi
    requires -IntMax < lo - target && hi - target < IntMax
    ensures ScanInRange(table, target)
  {
  }

  /** On a table of strictly increasing averages it is enough that the
      first and last averages are within reach of the target. */
  lemma ScanInRangeOfAscending(table: seq<ResolutionConfigEntry>, target: int)
    requires |table| > 0 && StrictlyIncreasing(Averages(table))
    requires -IntMax < table[0].averageBandwidth - target
    requires table[|table| - 1].averageBandwidth - target < IntMax
    ensures ScanInRange(table, target)
  {
    var a, last := Averages(table), |table| - 1;
    forall i | 0 <= i < |table|
      ensures table[0].averageBandwidth <= table[i].averageBandwidth <= table[last].averageBandwidth
    {
      if 0 < i { IncreasingBetween(a, 0, i); }
      if i < last { IncreasingBetween(a, i, last); }
    }
    ScanInRangeWithinBounds(table, target, table[0].averageBandwidth, table[last].averageBandwidth);
  }

  /** Any target from 0 to IntMax keeps the scan of either table within int
      range. */
  lemma ScanInRangeForNonNegative(use4x3: bool, target: int)
    requires 0 <= target <= IntMax
    ensures ScanInRange(BuildTable(use4x3), target)
  {
    var table := BuildTable(use4x3);
    if use4x3 {
      Table4x3Averages();
      assert Averages(table)[0] == 295 && Averages(table)[7] == 7778;
    } else {
      Table16x9Averages();
      assert Averages(table)[0] == 319 && Averages(table)[9] == 7983;
    }
    ScanInRangeOfAscending(table, target);
  }

  /** A target far below zero whose scan still stays within int range: the
      first distance, from 319, is just below IntMax; the second, from 567,
      is exactly IntMax, so the scan turns there and picks 384x216 without a
      single overflow, even though later entries' differences would
      overflow. */
  lemma ScanInRangeNearIntMin(current: Resolution, resolution: Resolution)
    ensures ScanInRange(Table16x9(), 567 - IntMax)
    ensures Table16x9()[2].averageBandwidth - (567 - IntMax) > IntMax
    ensures MatchAsWritten(true, Table16x9(), 567 - IntMax, current, resolution)
         == var picked := Resolution(384, 216); Match(picked != current, picked, picked)
  {
    Table16x9Averages();
    var table, target := Table16x9(), 567 - IntMax;
    var a := Averages(table);
    assert a[0] == 319 && a[1] == 567 && a[2] == 886;
    var ds := Distances(table, target);
    assert ds[0] == IntMax - 248 && ds[1] == IntMax;
    TurnIndexIs(ds, 1);
    assert LastScanned(table, target) == 1;
    assert table[0] == Entry(384, 216, 20, 30);
  }
}
