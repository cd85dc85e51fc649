/** Feature derivation and the training split of 2_train_model.py: rolling
    mean and standard deviation of sensors s7, s12 and s21 per engine, a
    backward fill over the whole table, the nine-column feature vector and
    the split of the rows by engine id. */
module Features {
  import opened Wrappers
  import opened Seqs
  import opened Schema
  import opened Labeler
  import opened Rolling
  import opened Backfill

  /** The selected sensors, in the order of `sensor_cols`. */
  const SensorCols: seq<nat> := [7, 12, 21]

  /** Engines with id up to this value train the model; the rest test it. */
  const TrainMaxId: int := 80

  /** One statistic per selected sensor, NaN as `None`. */
  type Stats = s: seq<Option<real>> | |s| == 3 witness [None, None, None]

  /** A processed row with its six derived columns: `mean[j]` is
      `<sensor j>_mean`, `std[j]` is `<sensor j>_std`. */
  datatype FeatureRow = FeatureRow(base: Labeled, mean: Stats, std: Stats)

  /** The column `s<k>_mean` before the fill. */
  function MeanColumn(table: seq<Labeled>, j: nat): (c: seq<Option<real>>)
    requires j < 3
    ensures |c| == |table|
  {
    seq(|table|, i requires 0 <= i < |table| => RollingMean(table, i, SensorCols[j]))
  }

  /** The column `s<k>_std` before the fill. */
  function StdColumn(table: seq<Labeled>, j: nat, sqrt: real -> real): (c: seq<Option<real>>)
    requires j < 3
    ensures |c| == |table|
  {
    seq(|table|, i requires 0 <= i < |table| => RollingStd(table, i, SensorCols[j], sqrt))
  }

  /** Column `s<k>_mean` after the fill. */
  function FilledMean(table: seq<Labeled>, j: nat): (c: seq<Option<real>>)
    requires j < 3
    ensures |c| == |table|
  {
    Bfill(MeanColumn(table, j))
  }

  /** Column `s<k>_std` after the fill. */
  function FilledStd(table: seq<Labeled>, j: nat, sqrt: real -> real): (c: seq<Option<real>>)
    requires j < 3
    ensures |c| == |table|
  {
    Bfill(StdColumn(table, j, sqrt))
  }

  /** The table after the rolling columns are added and `df.fillna(method='bfill')`
      has run over every column. The raw and RUL columns carry no NaN, so the
      fill only touches the six derived columns. */
  function Derive(table: seq<Labeled>, sqrt: real -> real): (d: seq<FeatureRow>)
    ensures |d| == |table|
    ensures forall i :: 0 <= i < |table| ==> d[i].base == table[i]
  {
    var m0, m1, m2 := FilledMean(table, 0), FilledMean(table, 1), FilledMean(table, 2);
    var s0, s1, s2 := FilledStd(table, 0, sqrt), FilledStd(table, 1, sqrt), FilledStd(table, 2, sqrt);
    seq(|table|, i requires 0 <= i < |table| =>
      FeatureRow(table[i], [m0[i], m1[i], m2[i]], [s0[i], s1[i], s2[i]]))
  }

  /** Row i of the derived table holds cell i of each filled column. */
  lemma DeriveRow(table: seq<Labeled>, sqrt: real -> real, i: nat)
    requires i < |table|
    ensures Derive(table, sqrt)[i] ==
              FeatureRow(table[i],
                         [FilledMean(table, 0)[i], FilledMean(table, 1)[i], FilledMean(table, 2)[i]],
                         [FilledStd(table, 0, sqrt)[i], FilledStd(table, 1, sqrt)[i], FilledStd(table, 2, sqrt)[i]])
  {
  }

  /** The fill leaves every defined statistic alone: from position 4 on, a
      row's filled columns are its own window's mean and standard deviation. */
  lemma DefinedStatsKept(table: seq<Labeled>, sqrt: real -> real, i: nat, j: nat)
    requires i < |table| && j < 3
    requires Position(table, i) >= Window - 1
    ensures RollingMean(table, i, SensorCols[j]).Some?
    ensures FilledMean(table, j)[i] == RollingMean(table, i, SensorCols[j])
    ensures FilledStd(table, j, sqrt)[i] == RollingStd(table, i, SensorCols[j], sqrt)
  {
    WindowIsEngineSlice(table, i, SensorCols[j]);
    assert MeanColumn(table, j)[i] == RollingMean(table, i, SensorCols[j]);
    assert StdColumn(table, j, sqrt)[i] == RollingStd(table, i, SensorCols[j], sqrt);
  }

  /** Rows of one engine sit next to each other. */
  ghost predicate Grouped(table: seq<Labeled>)
  {
    forall a, b, c :: 0 <= a < b < c < |table| && table[a].row.id == table[c].row.id
      ==> table[b].row.id == table[a].row.id
  }

  /** Number of rows of the engine that row `i` belongs to. */
  function EngineLength(table: seq<Labeled>, i: nat): nat
    requires i < |table|
  {
    Count(table, LabeledOfEngine(table[i].row.id))
  }

  /** Every engine has at least a full window of rows. */
  ghost predicate LongEngines(table: seq<Labeled>)
  {
    forall i {:trigger EngineLength(table, i)} :: 0 <= i < |table| ==> EngineLength(table, i) >= Window
  }

  /** In a grouped table of long engines, a row at position p < 4 is followed
      by the next row of the same engine, at position p + 1. */
  lemma NextInEngine(table: seq<Labeled>, i: nat)
    requires Grouped(table) && LongEngines(table)
    requires i < |table| && Position(table, i) < Window - 1
    ensures i + 1 < |table|
    ensures table[i + 1].row.id == table[i].row.id
    ensures Position(table, i + 1) == Position(table, i) + 1
  {
    var e := table[i].row.id;
    var mask := LabeledOfEngine(e);
    assert mask(table[i]);
    FilterSnoc(table, i, mask);
    assert Count(table[..i + 1], mask) == Position(table, i) + 1;
    assert EngineLength(table, i) >= Window;
    CountBeyond(table, i, mask);
    var c :| i < c < |table| && mask(table[c]);
    if i + 1 < c {
      assert table[i + 1].row.id == e;
    }
    assert LabeledOfEngine(table[i + 1].row.id) == mask;
  }

  /** The window whose statistics row `i` should carry under a fill that
      stays inside its engine: its own window from position 4 on, before
      that its engine's first full window (positions 0..4); `None` when the
      engine has fewer than five rows. */
  function PerEngineWindow(table: seq<Labeled>, i: nat, k: nat): (w: Option<seq<real>>)
    requires i < |table| && 1 <= k <= 21
    ensures w.Some? ==> |w.value| == Window
  {
    var S := Series(table, table[i].row.id, k);
    var p := Position(table, i);
    var q := if p < Window - 1 then Window - 1 else p;
    if q < |S| then Some(S[q + 1 - Window..q + 1]) else None
  }

  /** Column-wise form of `FillStaysInEngine`. */
  lemma ColumnFillStaysInEngine(table: seq<Labeled>, sqrt: real -> real, i: nat, j: nat)
    requires Grouped(table) && LongEngines(table)
    requires i < |table| && j < 3
    ensures PerEngineWindow(table, i, SensorCols[j]).Some?
    ensures FilledMean(table, j)[i] == Some(Mean(PerEngineWindow(table, i, SensorCols[j]).value))
    ensures FilledStd(table, j, sqrt)[i] == Some(sqrt(SampleVariance(PerEngineWindow(table, i, SensorCols[j]).value)))
    decreases Window - Position(table, i)
  {
    var p := Position(table, i);
    var k := SensorCols[j];
    var S := Series(table, table[i].row.id, k);
    WindowIsEngineSlice(table, i, k);
    if p >= Window - 1 {
      var w := S[p + 1 - Window..p + 1];
      assert PerEngineWindow(table, i, k) == Some(w);
      assert TrailingWindow(table, i, k) == Some(w);
      assert RollingMean(table, i, k) == Some(Mean(w));
      assert RollingStd(table, i, k, sqrt) == Some(sqrt(SampleVariance(w)));
      DefinedStatsKept(table, sqrt, i, j);
    } else {
      NextInEngine(table, i);
      ColumnFillStaysInEngine(table, sqrt, i + 1, j);
      assert Series(table, table[i + 1].row.id, k) == S;
      assert PerEngineWindow(table, i + 1, k) == PerEngineWindow(table, i, k);
      var means, stds := MeanColumn(table, j), StdColumn(table, j, sqrt);
      assert means[i] == RollingMean(table, i, k) == None;
      assert stds[i] == RollingStd(table, i, k, sqrt) == None;
      assert FilledMean(table, j)[i] == Bfill(means)[i] == Bfill(means)[i + 1];
      assert FilledStd(table, j, sqrt)[i] == Bfill(stds)[i] == Bfill(stds)[i + 1];
    }
  }

  /** The fill ignores engine boundaries: a row still inside its engine's
      first four cycles takes the statistic of the next row even when that
      row belongs to another engine. */
  lemma FillCrossesEngines(table: seq<Labeled>, i: nat, j: nat)
    requires j < 3 && i + 1 < |table|
    requires Position(table, i) < Window - 1 <= Position(table, i + 1)
    ensures RollingMean(table, i + 1, SensorCols[j]).Some?
    ensures FilledMean(table, j)[i] == RollingMean(table, i + 1, SensorCols[j])
  {
    var k := SensorCols[j];
    WindowIsEngineSlice(table, i, k);
    WindowIsEngineSlice(table, i + 1, k);
    var means := MeanColumn(table, j);
    assert means[i] == RollingMean(table, i, k) == None;
    assert means[i + 1] == RollingMean(table, i + 1, k);
  }

  /** The fill hands a row still in its engine's first four cycles the
      statistic of the first row below it whose window is defined, whatever
      engine that row belongs to. */
  lemma FillTakesNextWindow(table: seq<Labeled>, j: nat, i: nat, k: nat)
    requires j < 3 && i <= k < |table|
    requires forall m :: i <= m < k ==> Position(table, m) < Window - 1
    requires Position(table, k) >= Window - 1
    ensures RollingMean(table, k, SensorCols[j]).Some?
    ensures FilledMean(table, j)[i] == RollingMean(table, k, SensorCols[j])
  {
    var c := SensorCols[j];
    var means := MeanColumn(table, j);
    forall m | i <= m < k
      ensures means[m].None?
    {
      WindowIsEngineSlice(table, m, c);
    }
    WindowIsEngineSlice(table, k, c);
    assert means[k] == RollingMean(table, k, c);
    BfillTakesNearest(means, i, k);
  }

  /** An engine with fewer than five rows that is not last in the table
      borrows the next engine's statistics: a fill inside the engine would
      leave its rows NaN, while the table-wide fill gives them the first
      full window of a later, different engine. */
  lemma ShortEngineBorrows(table: seq<Labeled>, sqrt: real -> real, i: nat, k: nat)
    requires i <= k < |table|
    requires EngineLength(table, i) < Window
    requires forall m :: i <= m < k ==> Position(table, m) < Window - 1
    requires Position(table, k) >= Window - 1
    ensures table[k].row.id != table[i].row.id
    ensures PerEngineRow(table, sqrt, i).mean[0].None?
    ensures RollingMean(table, k, 7).Some?
    ensures Derive(table, sqrt)[i].mean[0] == RollingMean(table, k, 7)
  {
    WindowIsEngineSlice(table, k, 7);
    assert PerEngineWindow(table, i, 7).None?;
    DeriveRow(table, sqrt, i);
    FillTakesNextWindow(table, 0, i, k);
  }

  /** When the table's last engine has fewer than five rows, the statistics
      of its rows at the end of the table stay NaN: nothing below them can
      fill them. */
  lemma ShortTailStaysMissing(table: seq<Labeled>, j: nat)
    requires j < 3 && |table| > 0
    requires Position(table, |table| - 1) < Window - 1
    ensures FilledMean(table, j)[|table| - 1].None?
  {
    WindowIsEngineSlice(table, |table| - 1, SensorCols[j]);
    assert MeanColumn(table, j)[|table| - 1] == None;
  }

  /** Mean of the per-engine window. */
  function PerEngineMean(table: seq<Labeled>, i: nat, k: nat): Option<real>
    requires i < |table| && 1 <= k <= 21
  {
    match PerEngineWindow(table, i, k)
    case None => None
    case Some(w) => Some(Mean(w))
  }

  /** Standard deviation of the per-engine window. */
  function PerEngineStd(table: seq<Labeled>, i: nat, k: nat, sqrt: real -> real): Option<real>
    requires i < |table| && 1 <= k <= 21
  {
    match PerEngineWindow(table, i, k)
    case None => None
    case Some(w) => Some(sqrt(SampleVariance(w)))
  }

  /** Row `i` as a fill that never leaves the engine would derive it: the
      reference for what the features are meant to be. */
  function PerEngineRow(table: seq<Labeled>, sqrt: real -> real, i: nat): FeatureRow
    requires i < |table|
  {
    FeatureRow(table[i],
               [PerEngineMean(table, i, 7), PerEngineMean(table, i, 12), PerEngineMean(table, i, 21)],
               [PerEngineStd(table, i, 7, sqrt), PerEngineStd(table, i, 12, sqrt), PerEngineStd(table, i, 21, sqrt)])
  }

  /** The table-wide fill equals a per-engine fill when the rows of each
      engine are contiguous and every engine has at least five rows: each
      row carries its own window's statistics from position 4 on, and its
      engine's first full window's statistics before that, and none of them
      is NaN. Without them the table-wide `bfill` may copy another engine's
      values: see `FillTakesNextWindow` and `ShortEngineBorrows`. */
  lemma FillStaysInEngine(table: seq<Labeled>, sqrt: real -> real, i: nat)
    requires Grouped(table) && LongEngines(table) && i < |table|
    ensures Derive(table, sqrt)[i] == PerEngineRow(table, sqrt, i)
  {
    DeriveRow(table, sqrt, i);
    ColumnFillStaysInEngine(table, sqrt, i, 0);
    ColumnFillStaysInEngine(table, sqrt, i, 1);
    ColumnFillStaysInEngine(table, sqrt, i, 2);
    var m := [FilledMean(table, 0)[i], FilledMean(table, 1)[i], FilledMean(table, 2)[i]];
    var s := [FilledStd(table, 0, sqrt)[i], FilledStd(table, 1, sqrt)[i], FilledStd(table, 2, sqrt)[i]];
    assert m == [PerEngineMean(table, i, 7), PerEngineMean(table, i, 12), PerEngineMean(table, i, 21)];
    assert s == [PerEngineStd(table, i, 7, sqrt), PerEngineStd(table, i, 12, sqrt), PerEngineStd(table, i, 21, sqrt)];
  }

  /** In a grouped table of long engines no derived statistic is NaN. */
  lemma DerivedRowComplete(table: seq<Labeled>, sqrt: real -> real, i: nat)
    requires Grouped(table) && LongEngines(table) && i < |table|
    ensures Complete(Derive(table, sqrt)[i])
  {
    FillStaysInEngine(table, sqrt, i);
    assert PerEngineWindow(table, i, 7).Some? by { ColumnFillStaysInEngine(table, sqrt, i, 0); }
    assert PerEngineWindow(table, i, 12).Some? by { ColumnFillStaysInEngine(table, sqrt, i, 1); }
    assert PerEngineWindow(table, i, 21).Some? by { ColumnFillStaysInEngine(table, sqrt, i, 2); }
    assert Complete(PerEngineRow(table, sqrt, i));
  }

  /** All six derived columns are defined. */
  predicate Complete(fr: FeatureRow)
  {
    && fr.mean[0].Some? && fr.mean[1].Some? && fr.mean[2].Some?
    && fr.std[0].Some? && fr.std[1].Some? && fr.std[2].Some?
  }

  /** Name of the derived column `<sensor k>_mean`. */
  function MeanName(k: nat): string
  {
    SensorName(k) + "_mean"
  }

  /** Name of the derived column `<sensor k>_std`. */
  function StdName(k: nat): string
  {
    SensorName(k) + "_std"
  }

  /** `features`: the selected sensors, then their means, then their
      standard deviations. */
  function FeatureNames(): (names: seq<string>)
    ensures |names| == 9
  {
    seq(3, j requires 0 <= j < 3 => SensorName(SensorCols[j]))
    + seq(3, j requires 0 <= j < 3 => MeanName(SensorCols[j]))
    + seq(3, j requires 0 <= j < 3 => StdName(SensorCols[j]))
  }

  /** The nine feature names spelled out. */
  lemma FeatureNamesSpelled()
    ensures FeatureNames() ==
              ["s7", "s12", "s21", "s7_mean", "s12_mean", "s21_mean", "s7_std", "s12_std", "s21_std"]
  {
    assert SensorName(7) == "s7";
    assert SensorName(12) == "s12" by {
      assert Digits(1) == "1";
    }
    assert SensorName(21) == "s21" by {
      assert Digits(2) == "2";
    }
    assert MeanName(7) == "s7_mean" && MeanName(12) == "s12_mean" && MeanName(21) == "s21_mean";
    assert StdName(7) == "s7_std" && StdName(12) == "s12_std" && StdName(21) == "s21_std";
    var names := FeatureNames();
    assert names[..3] == ["s7", "s12", "s21"];
    assert names[3..6] == ["s7_mean", "s12_mean", "s21_mean"];
    assert names[6..] == ["s7_std", "s12_std", "s21_std"];
    assert names == names[..3] + names[3..6] + names[6..];
  }

  /** The six derived column names: means first, then standard deviations. */
  function DerivedNames(): (names: seq<string>)
    ensures |names| == 6
  {
    FeatureNames()[3..]
  }

  /** `df[name]` at a processed row: the raw columns under their schema
      names, `RUL`, and the six derived columns; `None` for a name the table
      does not have or for a NaN statistic. */
  function Column(fr: FeatureRow, name: string): Option<real>
  {
    if name == "RUL" then Some(fr.base.rul as real)
    else match IndexOf(DerivedNames(), name)
      case Some(n) => if n < 3 then fr.mean[n] else fr.std[n - 3]
      case None => Field(fr.base.row, name)
  }

  /** A row of `X = df[features]`, defined once every statistic is. */
  function FeatureVector(fr: FeatureRow): (x: seq<real>)
    requires Complete(fr)
    ensures |x| == |FeatureNames()|
  {
    var r := fr.base.row;
    [Sensor(r, 7), Sensor(r, 12), Sensor(r, 21),
     fr.mean[0].value, fr.mean[1].value, fr.mean[2].value,
     fr.std[0].value, fr.std[1].value, fr.std[2].value]
  }

  /** The derived column names carry no repeats. */
  lemma DerivedNamesSpelled()
    ensures DerivedNames() == ["s7_mean", "s12_mean", "s21_mean", "s7_std", "s12_std", "s21_std"]
    ensures Distinct(DerivedNames())
  {
    FeatureNamesSpelled();
  }

  /** A raw sensor name reads the row's own reading. */
  lemma RawColumn(fr: FeatureRow, n: nat)
    requires n < 3
    ensures Column(fr, FeatureNames()[n]) == Some(Sensor(fr.base.row, SensorCols[n]))
  {
    FeatureNamesSpelled();
    DerivedNamesSpelled();
    var name := FeatureNames()[n];
    assert name == SensorName(SensorCols[n]);
    assert IndexOf(DerivedNames(), name) == None by {
      assert forall m :: 0 <= m < 6 ==> |DerivedNames()[m]| > |name|;
    }
    SensorColumn(fr.base.row, SensorCols[n]);
  }

  /** A derived name reads the matching statistic. */
  lemma DerivedColumn(fr: FeatureRow, n: nat)
    requires 3 <= n < 9
    ensures Column(fr, FeatureNames()[n]) == if n < 6 then fr.mean[n - 3] else fr.std[n - 6]
  {
    DerivedNamesSpelled();
    assert FeatureNames()[n] == DerivedNames()[n - 3];
    IndexOfDistinct(DerivedNames(), n - 3);
  }

  /** Entry `n` of the feature vector is the column named `features[n]`:
      three raw readings, then the three means, then the three standard
      deviations. */
  lemma FeatureOrder(fr: FeatureRow, n: nat)
    requires Complete(fr) && n < 9
    ensures Column(fr, FeatureNames()[n]) == Some(FeatureVector(fr)[n])
  {
    if n < 3 {
      RawColumn(fr, n);
    } else {
      DerivedColumn(fr, n);
    }
  }

  /** A schema column name is neither `RUL` nor a derived name. */
  lemma SchemaNameIsRaw(name: string)
    requires name in Columns()
    ensures name != "RUL" && IndexOf(DerivedNames(), name) == None
  {
    ColumnNameShort(name);
    DerivedNamesSpelled();
    assert forall m :: 0 <= m < 6 ==> |DerivedNames()[m]| > 5;
    ColumnsLayout();
    forall c | 5 <= c < 26
      ensures Columns()[c] != "RUL"
    {
      assert Columns()[c][0] == 's';
    }
  }

  /** Deriving the features alters neither the raw columns nor `RUL`:
      `y = df['RUL']` is the label column, and every schema column reads as
      in the labelled table. */
  lemma DeriveKeepsRawColumns(table: seq<Labeled>, sqrt: real -> real, i: nat, name: string)
    requires i < |table| && name in Columns()
    ensures Column(Derive(table, sqrt)[i], name) == Field(table[i].row, name)
    ensures Column(Derive(table, sqrt)[i], "RUL") == Some(table[i].rul as real)
  {
    var fr := Derive(table, sqrt)[i];
    assert fr.base == table[i];
    SchemaNameIsRaw(name);
  }

  /** `train_mask`: the engine's id is at most 80. */
  predicate InTrain(fr: FeatureRow)
  {
    fr.base.row.id <= TrainMaxId
  }

  /** `~train_mask`. */
  predicate InTest(fr: FeatureRow)
  {
    !InTrain(fr)
  }

  /** Mask `df['id'] == e` on the derived table. */
  function FeatureOfEngine(e: int): FeatureRow -> bool
  {
    (fr: FeatureRow) => fr.base.row.id == e
  }

  /** The train and test halves of the derived table: a partition of its
      rows by engine id, each half in table order. */
  function Split(d: seq<FeatureRow>): (halves: (seq<FeatureRow>, seq<FeatureRow>))
    ensures forall fr :: fr in halves.0 <==> fr in d && fr.base.row.id <= TrainMaxId
    ensures forall fr :: fr in halves.1 <==> fr in d && fr.base.row.id > TrainMaxId
    ensures multiset(halves.0) + multiset(halves.1) == multiset(d)
  {
    FilterPartition(d, InTrain, InTest);
    (Filter(d, InTrain), Filter(d, InTest))
  }

  /** No engine is split: all of its rows land in the training half when
      its id is at most 80 and all land in the test half otherwise, in
      their table order. */
  lemma EngineOnOneSide(d: seq<FeatureRow>, e: int)
    ensures e <= TrainMaxId ==>
              Filter(Split(d).0, FeatureOfEngine(e)) == Filter(d, FeatureOfEngine(e))
              && Filter(Split(d).1, FeatureOfEngine(e)) == []
    ensures e > TrainMaxId ==>
              Filter(Split(d).1, FeatureOfEngine(e)) == Filter(d, FeatureOfEngine(e))
              && Filter(Split(d).0, FeatureOfEngine(e)) == []
  {
    var mask := FeatureOfEngine(e);
    if e <= TrainMaxId {
      FilterOfFilter(d, InTrain, mask);
      FilterDisjoint(d, InTest, mask);
    } else {
      FilterOfFilter(d, InTest, mask);
      FilterDisjoint(d, InTrain, mask);
    }
  }
}
