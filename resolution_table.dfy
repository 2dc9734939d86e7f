/** The resolution table of the quality controller (QualityConfig's
    ResolutionConfigEntry list): each entry is a resolution with a frame-rate
    range and an expected bandwidth in kbps derived from the Kush gauge. */
module ResolutionTable {

  datatype Resolution = Resolution(width: int, height: int)

  datatype ResolutionConfigEntry = ResolutionConfigEntry(
    width: int, height: int, maxFps: int, minFps: int,
    maxBandwidth: int, minBandwidth: int, averageBandwidth: int)
  {
    function Res(): Resolution { Resolution(width, height) }
  }

  /** Kush gauge constant 0.07 times motion factor 3, divided by 1000, as the
      exact fraction 21/100000; the lower bound uses motion factor 1, 7/100000. */
  const MaxBandwidthNumerator := 21
  const MinBandwidthNumerator := 7
  const BandwidthDenominator := 100000

  /** The entry constructor: records the resolution and frame-rate range.
      The bandwidths are the exact rationals width*height*fps*0.07*motion/1000
      rounded down (motion 3 for the upper, 1 for the lower bound), and the
      average is the integer mean of the two. */
  function Entry(width: nat, height: nat, minFps: nat, maxFps: nat): (e: ResolutionConfigEntry)
    ensures e.Res() == Resolution(width, height) && e.minFps == minFps && e.maxFps == maxFps
    ensures e.maxBandwidth * BandwidthDenominator <= width * height * maxFps * MaxBandwidthNumerator
              < (e.maxBandwidth + 1) * BandwidthDenominator
    ensures e.minBandwidth * BandwidthDenominator <= width * height * minFps * MinBandwidthNumerator
              < (e.minBandwidth + 1) * BandwidthDenominator
    ensures 2 * e.averageBandwidth <= e.maxBandwidth + e.minBandwidth <= 2 * e.averageBandwidth + 1
  {
    var maxBw := width * height * maxFps * MaxBandwidthNumerator / BandwidthDenominator;
    var minBw := width * height * minFps * MinBandwidthNumerator / BandwidthDenominator;
    ResolutionConfigEntry(width, height, maxFps, minFps, maxBw, minBw, (maxBw + minBw) / 2)
  }

  /** The average bandwidths of a table, in table order. */
  function Averages(table: seq<ResolutionConfigEntry>): seq<int>
  {
    seq(|table|, i requires 0 <= i < |table| => table[i].averageBandwidth)
  }

  /** The pixel counts of a table, in table order. */
  function PixelCounts(table: seq<ResolutionConfigEntry>): seq<int>
  {
    seq(|table|, i requires 0 <= i < |table| => table[i].width * table[i].height)
  }

  predicate StrictlyIncreasing(s: seq<int>)
  {
    forall i :: 0 <= i < |s| - 1 ==> s[i] < s[i + 1]
  }

  /** Entries listed in ascending pixel count and strictly ascending average
      bandwidth. */
  ghost predicate Ascending(table: seq<ResolutionConfigEntry>)
  {
    StrictlyIncreasing(PixelCounts(table)) && StrictlyIncreasing(Averages(table))
  }

  /** Every entry is a proper resolution with frame rates 20 to 30. */
  ghost predicate WellFormed(table: seq<ResolutionConfigEntry>)
  {
    forall i :: 0 <= i < |table| ==>
      table[i].width > 0 && table[i].height > 0 && table[i].minFps == 20 && table[i].maxFps == 30
  }

  /** Neighbour-wise increase gives increase between any two positions. */
  lemma {:induction false} IncreasingBetween(s: seq<int>, i: int, j: int)
    requires StrictlyIncreasing(s) && 0 <= i < j < |s|
    ensures s[i] < s[j]
    decreases j - i
  {
    if i + 1 < j {
      IncreasingBetween(s, i + 1, j);
    }
  }

  /** The 4:3 family, in the constructor's order: eight entries in strictly
      ascending pixel count and average bandwidth, all at 20 to 30 fps. */
  function Table4x3(): (r: seq<ResolutionConfigEntry>)
    ensures |r| == 8 && Ascending(r) && WellFormed(r)
  {
    [ Entry(320, 240, 20, 30),
      Entry(400, 300, 20, 30),
      Entry(512, 384, 20, 30),
      Entry(640, 480, 20, 30),
      Entry(1024, 768, 20, 30),
      Entry(1152, 864, 20, 30),
      Entry(1296, 972, 20, 30),
      Entry(1640, 1232, 20, 30) ]
  }

  lemma Table4x3Averages()
    ensures Averages(Table4x3()) == [295, 462, 756, 1182, 3027, 3831, 4849, 7778]
  {
  }

  /** The 16:9 family, in the constructor's order: ten entries in strictly
      ascending pixel count and average bandwidth, all at 20 to 30 fps. */
  function Table16x9(): (r: seq<ResolutionConfigEntry>)
    ensures |r| == 10 && Ascending(r) && WellFormed(r)
  {
    [ Entry(384, 216, 20, 30),
      Entry(512, 288, 20, 30),
      Entry(640, 360, 20, 30),
      Entry(768, 432, 20, 30),
      Entry(896, 504, 20, 30),
      Entry(1024, 576, 20, 30),
      Entry(1152, 648, 20, 30),
      Entry(1280, 720, 20, 30),
      Entry(1408, 864, 20, 30),
      Entry(1920, 1080, 20, 30) ]
  }

  lemma Table16x9Averages()
    ensures Averages(Table16x9()) == [319, 567, 886, 1277, 1738, 2270, 2873, 3548, 4683, 7983]
  {
  }

  /** The table the constructor builds: the 4:3 family or the 16:9 family. */
  function BuildTable(use4x3: bool): (r: seq<ResolutionConfigEntry>)
    ensures |r| == (if use4x3 then 8 else 10) && Ascending(r) && WellFormed(r)
  {
    if use4x3 then Table4x3() else Table16x9()
  }

  /** The 400x300 entry's upper bandwidth is an exact integer, so the
      rounding down of the exact formula loses nothing there. */
  lemma Entry400x300Exact()
    ensures 400 * 300 * 30 * MaxBandwidthNumerator == 756 * BandwidthDenominator
    ensures Table4x3()[1].maxBandwidth == 756 && Table4x3()[1].averageBandwidth == 462
  {
  }
}
