/** The per-engine trailing window of 2_train_model.py:19-21 (repeated in
    4_dashboard.py:21-23): `df.groupby('id')[col].rolling(window=5)`, then
    `.mean()` or `.std()` (sample standard deviation, divisor n - 1). */
module Rolling {
  import opened Wrappers
  import opened Seqs
  import opened Schema
  import opened Labeler

  /** Width of the trailing window. */
  const Window: nat := 5

  /** Readings of sensor `k` on engine `e`'s rows, in table order: one
      group of `df.groupby('id')[col]`. */
  function Series(table: seq<Labeled>, e: int, k: nat): (s: seq<real>)
    requires 1 <= k <= 21
    ensures |s| == Count(table, LabeledOfEngine(e))
  {
    var es := Filter(table, LabeledOfEngine(e));
    seq(|es|, j requires 0 <= j < |es| => Sensor(es[j].row, k))
  }

  /** Position of row `i` inside its engine's group: the number of earlier
      rows with the same id. */
  function Position(table: seq<Labeled>, i: nat): nat
    requires i < |table|
  {
    Count(table[..i], LabeledOfEngine(table[i].row.id))
  }

  /** The window ending at row `i`: the last five readings of its engine up
      to and including row `i`, or `None` (NaN) while fewer exist. */
  function TrailingWindow(table: seq<Labeled>, i: nat, k: nat): (w: Option<seq<real>>)
    requires i < |table| && 1 <= k <= 21
    ensures w.Some? ==> |w.value| == Window
  {
    var s := Series(table[..i + 1], table[i].row.id, k);
    if |s| < Window then None else Some(s[|s| - Window..])
  }

  function Mean(w: seq<real>): real
    requires |w| > 0
  {
    Sum(w) / (|w| as real)
  }

  /** Sum of squared deviations from `m`. */
  function SquaredDeviation(w: seq<real>, m: real): real
  {
    if |w| == 0 then 0.0 else (w[0] - m) * (w[0] - m) + SquaredDeviation(w[1..], m)
  }

  /** Sample variance: squared deviations from the mean divided by n - 1. */
  function SampleVariance(w: seq<real>): real
    requires |w| >= 2
  {
    SquaredDeviation(w, Mean(w)) / ((|w| - 1) as real)
  }

  /** `rolling(window=5).mean()` at row `i`. */
  function RollingMean(table: seq<Labeled>, i: nat, k: nat): Option<real>
    requires i < |table| && 1 <= k <= 21
  {
    match TrailingWindow(table, i, k)
    case None => None
    case Some(w) => Some(Mean(w))
  }

  /** `rolling(window=5).std()` at row `i`; `sqrt` stands for the
      floating-point square root. */
  function RollingStd(table: seq<Labeled>, i: nat, k: nat, sqrt: real -> real): Option<real>
    requires i < |table| && 1 <= k <= 21
  {
    match TrailingWindow(table, i, k)
    case None => None
    case Some(w) => Some(sqrt(SampleVariance(w)))
  }

  /** The window at row `i` is a slice of its own engine's series: it is
      missing at positions 0..3, and from position p >= 4 on it holds that
      engine's readings at positions p-4..p. No window reaches into another
      engine's rows, however the rows of different engines interleave. */
  lemma WindowIsEngineSlice(table: seq<Labeled>, i: nat, k: nat)
    requires i < |table| && 1 <= k <= 21
    ensures Position(table, i) < |Series(table, table[i].row.id, k)|
    ensures Series(table, table[i].row.id, k)[Position(table, i)] == Sensor(table[i].row, k)
    ensures TrailingWindow(table, i, k) ==
              var p := Position(table, i);
              if p < Window - 1 then None
              else Some(Series(table, table[i].row.id, k)[p + 1 - Window..p + 1])
  {
    var e := table[i].row.id;
    var p := Position(table, i);
    var mask := LabeledOfEngine(e);
    FilterSnoc(table, i, mask);
    FilterPrefix(table, i + 1, mask);
    var pre := Filter(table[..i + 1], mask);
    var all := Filter(table, mask);
    assert |pre| == p + 1;
    assert pre == all[..p + 1];
    var s := Series(table[..i + 1], e, k);
    var S := Series(table, e, k);
    assert s == S[..p + 1];
    assert pre[p] == table[i];
  }

  /** The window [10, 20, 30, 40, 50] has mean 30 and sample variance 250
      (population variance would give 200). */
  lemma DocumentedWindow()
    ensures Mean([10.0, 20.0, 30.0, 40.0, 50.0]) == 30.0
    ensures SampleVariance([10.0, 20.0, 30.0, 40.0, 50.0]) == 250.0
  {
  }

  /** Engine readings s7 = [0.5, 0.52, 0.60, 0.75, 0.90] give the mean 0.654
      at the fifth cycle. */
  lemma DocumentedSensorSeven()
    ensures Mean([0.5, 0.52, 0.60, 0.75, 0.90]) == 0.654
  {
  }
}
