/** The bounded per-satellite SNR history and the two-window trend computed from it. */
module SnrHistory {
  import opened ChoTypes
  import opened Reals

  /** Samples closer than this are the same sample, taken again. */
  const SAME_INSTANT := 0.000000001

  ghost predicate StrictlyOrdered(log: seq<Sample>) {
    forall i, j :: 0 <= i < j < |log| ==> log[i].time < log[j].time
  }

  /** The last `n` samples, or all of them. */
  function LastN(log: seq<Sample>, n: nat): seq<Sample> {
    if |log| <= n then log else log[|log| - n..]
  }

  /** One sample arriving at a log that forgets nothing. */
  function Append(log: seq<Sample>, s: Sample): seq<Sample> {
    if log == [] then [s]
    else
      var last := log[|log| - 1];
      if s.time < last.time then log
      else if s.time - last.time < SAME_INSTANT then log[|log| - 1 := last.(snr := s.snr)]
      else log + [s]
  }

  /** One sample arriving at the bounded history with windows of `w` samples. */
  function Record(history: seq<Sample>, w: int, s: Sample): seq<Sample> {
    if w <= 0 || (history != [] && s.time < history[|history| - 1].time) then history
    else LastN(Append(history, s), 2 * w)
  }

  function SumSnr(log: seq<Sample>, lo: nat, hi: nat): real
    requires lo <= hi <= |log|
    decreases hi - lo
  {
    if lo == hi then 0.0 else SumSnr(log, lo, hi - 1) + log[hi - 1].snr
  }

  /** Mean of the last `w` samples minus mean of the `w` before them; 0 while there are too few. */
  function Trend(log: seq<Sample>, w: int): real {
    if w <= 0 || |log| < 2 * w then 0.0
    else Over(SumSnr(log, |log| - w, |log|), w as real) - Over(SumSnr(log, |log| - 2 * w, |log| - w), w as real)
  }

  /** UpdateSnrHistory: the deque is changed in place and shortened from the front. */
  method UpdateHistory(history: seq<Sample>, w: int, s: Sample) returns (h: seq<Sample>)
    ensures h == Record(history, w, s)
  {
    h := history;
    if w <= 0 {
      return;
    }
    if h != [] {
      var back := h[|h| - 1];
      if s.time < back.time {
        return;
      }
      if s.time - back.time < SAME_INSTANT {
        h := h[|h| - 1 := back.(snr := s.snr)];
      } else {
        h := h + [s];
      }
    } else {
      h := h + [s];
    }
    var full := h;
    while |h| > 2 * w
      invariant |h| <= |full| && h == full[|full| - |h|..]
      invariant |full| <= 2 * w ==> h == full
      invariant |full| > 2 * w ==> |h| >= 2 * w
    {
      h := h[1..];
    }
  }

  /** GetSnrTrend: two running sums over the stored samples. */
  method ComputeTrend(history: seq<Sample>, w: int) returns (trend: real)
    ensures trend == Trend(history, w)
  {
    if w <= 0 || |history| < 2 * w {
      return 0.0;
    }
    var recentStart := |history| - w;
    var pastStart := recentStart - w;
    var pastSum, recentSum := 0.0, 0.0;
    for i := pastStart to recentStart
      invariant pastSum == SumSnr(history, pastStart, i)
    {
      pastSum := pastSum + history[i].snr;
    }
    for i := recentStart to |history|
      invariant recentSum == SumSnr(history, recentStart, i)
    {
      recentSum := recentSum + history[i].snr;
    }
    trend := recentSum / (w as real) - pastSum / (w as real);
  }

  /** The log and the history after a whole stream of samples. */
  function FullLog(samples: seq<Sample>): seq<Sample> {
    if samples == [] then [] else Append(FullLog(samples[..|samples| - 1]), samples[|samples| - 1])
  }

  function Kept(samples: seq<Sample>, w: int): seq<Sample> {
    if samples == [] then [] else Record(Kept(samples[..|samples| - 1], w), w, samples[|samples| - 1])
  }

  /** The history is, at every moment, the tail of the log that forgets nothing; both are strictly
      ordered in time. */
  lemma {:induction false} HistoryIsTailOfLog(samples: seq<Sample>, w: int)
    requires w > 0
    ensures Kept(samples, w) == LastN(FullLog(samples), 2 * w)
    ensures StrictlyOrdered(FullLog(samples))
  {
    hide Append, Record;
    if samples != [] {
      HistoryIsTailOfLog(samples[..|samples| - 1], w);
      RecordIsTailOfAppend(FullLog(samples[..|samples| - 1]), samples[|samples| - 1], w);
    }
  }

  lemma RecordIsTailOfAppend(log: seq<Sample>, s: Sample, w: int)
    requires w > 0 && StrictlyOrdered(log)
    ensures Record(LastN(log, 2 * w), w, s) == LastN(Append(log, s), 2 * w)
    ensures StrictlyOrdered(Append(log, s))
  {
    hide LastN, StrictlyOrdered;
    AppendIsOrdered(log, s);
    TailOfAppend(log, s, 2 * w);
    LastOfTail(log, 2 * w);
  }

  lemma AppendIsOrdered(log: seq<Sample>, s: Sample)
    requires StrictlyOrdered(log)
    ensures StrictlyOrdered(Append(log, s))
  {
  }

  lemma LastOfTail(log: seq<Sample>, n: nat)
    requires n > 0
    ensures log != [] <==> LastN(log, n) != []
    ensures log != [] ==> LastN(log, n)[|LastN(log, n)| - 1] == log[|log| - 1]
  {
  }

  lemma TailOfAppend(log: seq<Sample>, s: Sample, n: nat)
    requires n > 0
    ensures LastN(Append(log, s), n) == LastN(Append(LastN(log, n), s), n)
  {
    if |log| > n {
      var tail := log[|log| - n..];
      assert tail[|tail| - 1] == log[|log| - 1];
    }
  }

  /** Hence the trend read from the bounded history is the trend of everything ever accepted. */
  lemma TrendOfHistoryIsTrendOfLog(samples: seq<Sample>, w: int)
    requires w > 0
    ensures Trend(Kept(samples, w), w) == Trend(FullLog(samples), w)
  {
    hide Trend, Kept, FullLog;
    HistoryIsTailOfLog(samples, w);
    var log := FullLog(samples);
    if |log| > 2 * w {
      TrendOfTail(log, w);
    }
  }

  lemma TrendOfTail(log: seq<Sample>, w: int)
    requires w > 0 && |log| >= 2 * w
    ensures Trend(log[|log| - 2 * w..], w) == Trend(log, w)
  {
    SumOfTail(log, |log| - 2 * w, 0, w);
    SumOfTail(log, |log| - 2 * w, w, 2 * w);
  }

  lemma {:induction false} SumOfTail(log: seq<Sample>, drop: nat, lo: nat, hi: nat)
    requires lo <= hi && drop + hi <= |log|
    ensures SumSnr(log[drop..], lo, hi) == SumSnr(log, drop + lo, drop + hi)
    decreases hi
  {
    if lo < hi {
      SumOfTail(log, drop, lo, hi - 1);
    }
  }

  /** It is 0 until two full windows have been accepted. */
  lemma TrendNeedsTwoWindows(samples: seq<Sample>, w: int)
    requires |FullLog(samples)| < 2 * w
    ensures Trend(Kept(samples, w), w) == 0.0
  {
    TrendOfHistoryIsTrendOfLog(samples, w);
  }

  /** The trend never leaves the range the accepted samples span. */
  lemma TrendIsBounded(log: seq<Sample>, w: int, low: real, high: real)
    requires low <= high
    requires forall i :: 0 <= i < |log| ==> low <= log[i].snr <= high
    ensures low - high <= Trend(log, w) <= high - low
  {
    hide Over, SumSnr;
    if w > 0 && |log| >= 2 * w {
      MeanIsBounded(log, |log| - w, |log|, low, high);
      MeanIsBounded(log, |log| - 2 * w, |log| - w, low, high);
    }
  }

  lemma MeanIsBounded(log: seq<Sample>, lo: nat, hi: nat, low: real, high: real)
    requires lo < hi <= |log|
    requires forall i :: 0 <= i < |log| ==> low <= log[i].snr <= high
    ensures low <= Over(SumSnr(log, lo, hi), (hi - lo) as real) <= high
  {
    hide Over, Times, SumSnr;
    SumIsBounded(log, lo, hi, low, high);
    var n, sum := (hi - lo) as real, SumSnr(log, lo, hi);
    OverOrder(Times(low, n), sum, n);
    OverOrder(sum, Times(high, n), n);
    OverUnique(Times(low, n), n, low);
    OverUnique(Times(high, n), n, high);
  }

  lemma {:induction false} SumIsBounded(log: seq<Sample>, lo: nat, hi: nat, low: real, high: real)
    requires lo <= hi <= |log|
    requires forall i :: 0 <= i < |log| ==> low <= log[i].snr <= high
    ensures Times(low, (hi - lo) as real) <= SumSnr(log, lo, hi) <= Times(high, (hi - lo) as real)
    decreases hi - lo
  {
    hide Times;
    if lo < hi {
      SumIsBounded(log, lo, hi - 1, low, high);
      var n := (hi - 1 - lo) as real;
      assert (hi - lo) as real == n + 1.0;
      TimesLinear(n, 1.0, low);
      TimesLinear(n, 1.0, high);
      TimesLinear(n + 1.0, n + 1.0, low);
      TimesLinear(n + 1.0, n + 1.0, high);
    } else {
      TimesSign(low, 0.0);
      TimesSign(high, 0.0);
    }
  }

  /** A signal that changes by `b` from sample to sample has a trend of `b` times the window: the recent
      window minus the one before it, in this order. */
  lemma SteadyChange(log: seq<Sample>, w: int, b: real)
    requires 0 < w && 2 * w <= |log|
    requires forall i :: |log| - 2 * w < i < |log| ==> log[i].snr == log[i - 1].snr + b
    ensures Trend(log, w) == Times(b, w as real)
  {
    hide SumSnr, Over, Times;
    var lo, n := |log| - 2 * w, w as real;
    ShiftedSum(log, w, b, lo, lo + w);
    var past, recent := SumSnr(log, lo, lo + w), SumSnr(log, lo + w, lo + 2 * w);
    var step := Times(b, n);
    OverTimes(past, n);
    TimesLinear(Over(past, n), step, n);
    TimesLinear(step, step, n);
    OverUnique(recent, n, Over(past, n) + step);
  }

  lemma {:induction false} Steps(log: seq<Sample>, b: real, i: nat, k: nat)
    requires i + k < |log| && forall j :: i < j <= i + k ==> log[j].snr == log[j - 1].snr + b
    ensures log[i + k].snr == log[i].snr + Times(b, k as real)
  {
    hide Times;
    if k == 0 {
      TimesSign(b, 0.0);
    } else {
      Steps(log, b, i, k - 1);
      assert k as real == (k - 1) as real + 1.0;
      TimesLinear((k - 1) as real, 1.0, b);
      TimesLinear(k as real, k as real, b);
    }
  }

  lemma {:induction false} ShiftedSum(log: seq<Sample>, w: nat, b: real, lo: nat, hi: nat)
    requires |log| - 2 * w <= lo <= hi <= |log| - w
    requires forall i :: |log| - 2 * w < i < |log| && 0 < i ==> log[i].snr == log[i - 1].snr + b
    ensures SumSnr(log, lo + w, hi + w) == SumSnr(log, lo, hi) + Times((hi - lo) as real, Times(b, w as real))
    decreases hi - lo
  {
    hide Times;
    var step := Times(b, w as real);
    if lo == hi {
      TimesSign(0.0, step);
    } else {
      ShiftedSum(log, w, b, lo, hi - 1);
      Steps(log, b, hi - 1, w);
      assert (hi - lo) as real == (hi - 1 - lo) as real + 1.0;
      TimesLinear((hi - 1 - lo) as real, 1.0, step);
    }
  }
}
