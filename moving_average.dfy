/** The rolling sample window the quality controller keeps three of (QP, packet
    loss, round-trip time). It stands for webrtc's moving-average helper, whose
    source is not part of this model: it is specified here abstractly as the
    last `Duration` samples added since the last reset, whose average is absent
    while the window is empty and otherwise the integer mean truncated toward
    zero, as C++ `int` division does. */
module MovingAverage {

  /** rtc::Optional<int>: an average that may be absent. */
  datatype Option<T> = None | Some(value: T)

  /** kAverageDuration: three seconds at thirty samples per second. */
  const Duration: nat := 3 * 30

  /** The window after the samples `history` (oldest first) have been added to
      an empty one: the most recent `Duration` of them. */
  function Window(history: seq<int>): seq<int>
  {
    if |history| <= Duration then history else history[|history| - Duration..]
  }

  predicate IsWindow(w: seq<int>)
  {
    |w| <= Duration
  }

  function Sum(s: seq<int>): int
  {
    if s == [] then 0 else Sum(s[..|s| - 1]) + s[|s| - 1]
  }

  /** `q` is `a / n` as C++ computes it on integers: the exact quotient
      truncated toward zero. */
  predicate IsTruncatedQuotient(a: int, n: int, q: int)
    requires n > 0
  {
    if a >= 0 then q * n <= a < q * n + n else q * n - n < a <= q * n
  }

  /** AddSample: append `x`, evicting the oldest sample once the window is full. */
  function AddSample(w: seq<int>, x: int): (r: seq<int>)
    requires IsWindow(w)
    ensures IsWindow(r)
    ensures r == Window(w + [x])
  {
    if |w| < Duration then w + [x] else w[1..] + [x]
  }

  /** GetAverage: absent exactly when no sample is held, otherwise the mean of
      the held samples truncated toward zero. */
  function GetAverage(w: seq<int>): (r: Option<int>)
    ensures r.None? <==> w == []
    ensures r.Some? ==> IsTruncatedQuotient(Sum(w), |w|, r.value)
  {
    if w == [] then None
    else
      var total := Sum(w);
      var q := if total >= 0 then total / |w| else -((-total) / |w|);
      Some(q)
  }

  /** Reset: the window holds no sample. */
  function ResetWindow(): (r: seq<int>)
    ensures IsWindow(r) && GetAverage(r) == None
  {
    []
  }

  /** Adding one sample to the window of a history gives the window of the
      history extended by that sample: the window always holds exactly the
      last min(|history|, Duration) samples, so eviction drops the oldest. */
  lemma AddSampleTracksHistory(history: seq<int>, x: int)
    ensures IsWindow(Window(history))
    ensures AddSample(Window(history), x) == Window(history + [x])
  {
  }
}
