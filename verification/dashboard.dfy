/** The live-simulation dashboard of 4_dashboard.py: it re-derives the
    features with the same function as the training pipeline, keeps engine
    2's rows, and posts one row per tick to the prediction service, keeping
    a history of the predictions that came back. */
module Dashboard {
  import opened Wrappers
  import opened Seqs
  import opened Schema
  import opened Labeler
  import opened Features
  import opened Api

  /** The engine the dashboard replays. */
  const SimulatedEngine: int := 2

  /** The Critical threshold line drawn on the chart. */
  const AlertLine: real := 30.0

  /** The rows the loop visits: the pandas index label of each row (its
      position in the full table) with the row itself. */
  type Feed = seq<(nat, FeatureRow)>

  /** The derived table with its index labels. */
  function Indexed(d: seq<FeatureRow>): (rows: Feed)
    ensures |rows| == |d|
    ensures forall x :: x in rows <==> x.0 < |d| && x.1 == d[x.0]
  {
    var rows := seq(|d|, i requires 0 <= i < |d| => (i as nat, d[i]));
    assert forall x: (nat, FeatureRow) :: x.0 < |d| && x.1 == d[x.0] ==> rows[x.0] == x;
    rows
  }

  /** Mask `df['id'] == 2` on the labelled rows. */
  function OfSimulatedEngine(x: (nat, FeatureRow)): bool
  {
    x.1.base.row.id == SimulatedEngine
  }

  function IndexLabel(x: (nat, FeatureRow)): int
  {
    x.0
  }

  /** `load_data`: the shared feature derivation, then engine 2's rows with
      their original index labels, in table order. */
  function LoadData(table: seq<Labeled>, sqrt: real -> real): (rows: Feed)
    ensures forall x :: x in rows <==>
              x.0 < |table| && table[x.0].row.id == SimulatedEngine && x.1 == Derive(table, sqrt)[x.0]
    ensures forall a, b :: 0 <= a < b < |rows| ==> rows[a].0 < rows[b].0
  {
    var all := Indexed(Derive(table, sqrt));
    FilterKeepsIncreasing(all, IndexLabel, OfSimulatedEngine);
    Filter(all, OfSimulatedEngine)
  }

  /** Every row the loop visits has all six statistics. */
  predicate AllComplete(rows: Feed)
  {
    forall t :: 0 <= t < |rows| ==> Complete(rows[t].1)
  }

  /** In a grouped table of long engines, every loaded row is complete. */
  lemma LoadedRowsComplete(table: seq<Labeled>, sqrt: real -> real)
    requires Grouped(table) && LongEngines(table)
    ensures AllComplete(LoadData(table, sqrt))
  {
    var rows := LoadData(table, sqrt);
    forall t | 0 <= t < |rows|
      ensures Complete(rows[t].1)
    {
      assert rows[t] in rows;
      DerivedRowComplete(table, sqrt, rows[t].0);
    }
  }

  /** The JSON body posted for a row, keys in the order the dashboard
      writes them. */
  function Payload(fr: FeatureRow): (p: Request)
    requires Complete(fr)
    ensures |p| == |FieldNames|
    ensures forall n :: 0 <= n < |p| ==> p[n].0 == FieldNames[n]
  {
    var r := fr.base.row;
    [("s7", Sensor(r, 7)), ("s12", Sensor(r, 12)), ("s21", Sensor(r, 21)),
     ("s7_mean", fr.mean[0].value), ("s7_std", fr.std[0].value),
     ("s12_mean", fr.mean[1].value), ("s12_std", fr.std[1].value),
     ("s21_mean", fr.mean[2].value), ("s21_std", fr.std[2].value)]
  }

  /** Each payload value is copied from the row's column of the same name. */
  lemma PayloadFromColumns(fr: FeatureRow, n: nat)
    requires Complete(fr) && n < |FieldNames|
    ensures Column(fr, Payload(fr)[n].0) == Some(Payload(fr)[n].1)
  {
    FeatureNamesSpelled();
    var p := Payload(fr);
    if n < 3 {
      assert p[n].0 == FeatureNames()[n];
      RawColumn(fr, n);
    } else {
      var j := if n % 2 == 1 then 3 + (n - 3) / 2 else 6 + (n - 4) / 2;
      assert p[n].0 == FeatureNames()[j];
      DerivedColumn(fr, j);
    }
  }

  /** A payload is accepted and answered with the model's prediction on the
      row's training feature vector: the service's reordering by name lands
      every value at the position training gave its column. */
  lemma PayloadPrediction(model: seq<real> -> real, fr: FeatureRow)
    requires Complete(fr)
    ensures Handle(model, Payload(fr)) == Predicted(model(FeatureVector(fr)), Classify(model(FeatureVector(fr))))
  {
    var p := Payload(fr);
    var m := ToMap(p);
    FieldNamesDistinct();
    assert DistinctKeys(p);
    forall k | 0 <= k < |p|
      ensures p[k].0 in m && m[p[k].0] == p[k].1
    {
      assert p[k] in p;
      ToMapOfDistinct(p, p[k].0, p[k].1);
    }
    var resp := Handle(model, p);
    assert resp.Predicted?;
    ExpectedOrderIsTrainingOrder();
    var x := seq(|ExpectedOrder|, n requires 0 <= n < |ExpectedOrder| => m[ExpectedOrder[n]]);
    forall n | 0 <= n < |ExpectedOrder|
      ensures x[n] == FeatureVector(fr)[n]
    {
      var k := IndexIn(ExpectedOrder[n]);
      PayloadFromColumns(fr, k);
      FeatureOrder(fr, n);
    }
    assert x == FeatureVector(fr);
  }

  /** A JSON value as `response.json()` decodes it. `Composite` stands for
      an array or an object. */
  datatype Json = Num(num: real) | Bool(flag: bool) | Text(text: string) | Null | Composite

  /** What `requests.post` yields: an HTTP reply, whose body is `None` when
      it is not a JSON object, or an exception raised by the call itself
      (the service unreachable, or a body that cannot be encoded as JSON). */
  datatype Reply =
    | Http(code: int, body: Option<map<string, Json>>)
    | RequestFailed

  /** What one tick of the loop does with a reply. */
  datatype Step = Appended(rul: real) | Skipped | Aborted

  /** The branch the loop body takes. Any status but 200 is reported and
      skipped. A 200 extends the history with `predicted_RUL` when the body
      is an object holding both `predicted_RUL` and `status` and the
      prediction formats with `:.1f` (a number, or a boolean read as 0 or 1).
      Every other outcome raises inside the `try` and leaves the loop: a
      failed request, a body that is not a JSON object, a missing key, or a
      prediction that is text, null, an array or an object. */
  function StepOf(reply: Reply): Step
  {
    match reply
    case RequestFailed => Aborted
    case Http(code, body) =>
      if code != 200 then Skipped
      else match body
        case None => Aborted
        case Some(obj) =>
          if "predicted_RUL" !in obj || "status" !in obj then Aborted
          else match obj["predicted_RUL"]
            case Num(p) => Appended(p)
            case Bool(b) => Appended(if b then 1.0 else 0.0)
            case _ => Aborted
  }

  /** A tick extends the history only on a 200 whose body is an object
      holding both `predicted_RUL` and `status`; a 200 lacking either key
      ends the loop. */
  lemma AppendNeedsBothKeys(reply: Reply)
    ensures StepOf(reply).Appended? ==>
              && reply.Http? && reply.code == 200 && reply.body.Some?
              && "predicted_RUL" in reply.body.value && "status" in reply.body.value
    ensures reply.Http? && reply.code == 200 && reply.body.Some?
            && ("predicted_RUL" !in reply.body.value || "status" !in reply.body.value)
            ==> StepOf(reply) == Aborted
  {
  }

  /** The reply to tick `t`. A complete row's payload goes to `send`, which
      stands for the service or whatever answers in its place. A row with a
      NaN statistic never leaves the dashboard: `requests` refuses to encode
      NaN as JSON and raises. */
  function ReplyAt(rows: Feed, send: (nat, Request) -> Reply, t: nat): Reply
    requires t < |rows|
  {
    if Complete(rows[t].1) then send(t, Payload(rows[t].1)) else RequestFailed
  }

  /** The predictions and index labels collected over the first `n` ticks. */
  function History(rows: Feed, send: (nat, Request) -> Reply, n: nat): (h: (seq<real>, seq<nat>))
    requires n <= |rows|
    ensures |h.0| == |h.1|
  {
    if n == 0 then ([], [])
    else
      var h := History(rows, send, n - 1);
      match StepOf(ReplyAt(rows, send, n - 1))
      case Appended(p) => (h.0 + [p], h.1 + [rows[n - 1].0])
      case _ => h
  }

  /** `history_time` lists exactly the labels of the ticks answered with a
      prediction, in increasing order, and each `history_rul` entry is the
      prediction answered at the tick of the matching label. */
  lemma {:induction false} HistoryIsSuccesses(rows: Feed, send: (nat, Request) -> Reply, n: nat, x: nat)
    requires n <= |rows|
    requires forall a, b :: 0 <= a < b < |rows| ==> rows[a].0 < rows[b].0
    ensures x in History(rows, send, n).1 <==>
              exists t :: 0 <= t < n && rows[t].0 == x && StepOf(ReplyAt(rows, send, t)).Appended?
    ensures forall a, b :: 0 <= a < b < |History(rows, send, n).1| ==>
              History(rows, send, n).1[a] < History(rows, send, n).1[b]
    ensures forall a :: 0 <= a < |History(rows, send, n).1| ==>
              exists t :: 0 <= t < n && rows[t].0 == History(rows, send, n).1[a]
                          && StepOf(ReplyAt(rows, send, t)) == Appended(History(rows, send, n).0[a])
  {
    if n > 0 {
      HistoryIsSuccesses(rows, send, n - 1, x);
      var h := History(rows, send, n - 1);
      if StepOf(ReplyAt(rows, send, n - 1)).Appended? {
        forall a | 0 <= a < |h.1|
          ensures h.1[a] < rows[n - 1].0
        {
          var t :| 0 <= t < n - 1 && rows[t].0 == h.1[a];
        }
      }
    }
  }

  /** The simulation loop. `send` stands for `requests.post` to the
      service; the pause between ticks and the widgets are left out.
      `sent` counts the rows whose tick ran. */
  method Simulate(rows: Feed, send: (nat, Request) -> Reply)
    returns (historyRul: seq<real>, historyTime: seq<nat>, sent: nat, aborted: bool)
    ensures |historyRul| == |historyTime|
    ensures sent <= |rows|
    ensures !aborted ==> sent == |rows|
    ensures aborted ==> sent > 0
    ensures forall t :: 0 <= t < sent ==> (StepOf(ReplyAt(rows, send, t)).Aborted? <==> aborted && t == sent - 1)
    ensures (forall t :: 0 <= t < |rows| ==> !StepOf(ReplyAt(rows, send, t)).Aborted?) ==> !aborted
    ensures (historyRul, historyTime) == History(rows, send, sent)
  {
    historyRul, historyTime, sent, aborted := [], [], 0, false;
    while sent < |rows| && !aborted
      invariant sent <= |rows|
      invariant aborted ==> sent > 0
      invariant forall t :: 0 <= t < sent ==> (StepOf(ReplyAt(rows, send, t)).Aborted? <==> aborted && t == sent - 1)
      invariant (historyRul, historyTime) == History(rows, send, sent)
    {
      var reply := ReplyAt(rows, send, sent);
      match StepOf(reply) {
        case Appended(p) =>
          historyRul := historyRul + [p];
          historyTime := historyTime + [rows[sent].0];
        case Skipped =>
        case Aborted =>
          aborted := true;
      }
      sent := sent + 1;
    }
  }

  /** The `status` text the service writes for a classification. */
  function StatusText(s: Status): string
  {
    match s
    case Critical => "Critical"
    case Normal => "Normal"
  }

  /** The 200 reply of `predict_rul`, as JSON: the dashboard reads the
      prediction back from it. */
  function PredictedReply(p: real, s: Status): (reply: Reply)
    ensures StepOf(reply) == Appended(p)
  {
    Http(200, Some(map["predicted_RUL" := Num(p), "status" := Text(StatusText(s))]))
  }

  /** The prediction service as the dashboard sees it when it is up: 200
      with `predicted_RUL` and `status`, or 422 with a `detail` list for a
      body it rejects. */
  function Service(model: seq<real> -> real): (nat, Request) -> Reply
  {
    (t: nat, req: Request) =>
      match Handle(model, req)
      case Predicted(p, s) => PredictedReply(p, s)
      case Rejected(_) => Http(422, Some(map["detail" := Composite]))
  }

  /** With the service up, a row's payload is answered with a prediction. */
  lemma ServedStep(model: seq<real> -> real, fr: FeatureRow, t: nat)
    requires Complete(fr)
    ensures StepOf(Service(model)(t, Payload(fr))) == Appended(model(FeatureVector(fr)))
  {
    PayloadPrediction(model, fr);
    var v := model(FeatureVector(fr));
    assert Service(model)(t, Payload(fr)) == PredictedReply(v, Classify(v));
  }

  /** The model's predictions on the first `n` rows. */
  function Predictions(rows: Feed, model: seq<real> -> real, n: nat): (p: seq<real>)
    requires AllComplete(rows) && n <= |rows|
    ensures |p| == n
  {
    seq(n, t requires 0 <= t < n => model(FeatureVector(rows[t].1)))
  }

  /** The index labels of the first `n` rows. */
  function Labels(rows: Feed, n: nat): (l: seq<nat>)
    requires n <= |rows|
    ensures |l| == n
  {
    seq(n, t requires 0 <= t < n => rows[t].0)
  }

  /** When every tick is answered with the model's prediction, the history
      holds the predictions on all rows and all their labels, in order. */
  lemma {:induction false} AnsweredHistory(model: seq<real> -> real, send: (nat, Request) -> Reply, rows: Feed, n: nat)
    requires AllComplete(rows) && n <= |rows|
    requires forall t :: 0 <= t < |rows| ==>
               StepOf(ReplyAt(rows, send, t)) == Appended(model(FeatureVector(rows[t].1)))
    ensures History(rows, send, n) == (Predictions(rows, model, n), Labels(rows, n))
  {
    if n > 0 {
      AnsweredHistory(model, send, rows, n - 1);
      assert Predictions(rows, model, n) == Predictions(rows, model, n - 1) + [model(FeatureVector(rows[n - 1].1))];
      assert Labels(rows, n) == Labels(rows, n - 1) + [rows[n - 1].0];
    }
  }

  /** With the service up, every tick of complete rows is answered with the
      model's prediction on the row's training feature vector, so the
      history covers every row. */
  lemma ServedHistory(model: seq<real> -> real, rows: Feed)
    requires AllComplete(rows)
    ensures forall t :: 0 <= t < |rows| ==>
              StepOf(ReplyAt(rows, Service(model), t)) == Appended(model(FeatureVector(rows[t].1)))
    ensures History(rows, Service(model), |rows|) == (Predictions(rows, model, |rows|), Labels(rows, |rows|))
  {
    forall t | 0 <= t < |rows|
      ensures StepOf(ReplyAt(rows, Service(model), t)) == Appended(model(FeatureVector(rows[t].1)))
    {
      ServedStep(model, rows[t].1, t);
    }
    AnsweredHistory(model, Service(model), rows, |rows|);
  }

  /** For a grouped table whose engines all have five or more rows, every
      row of engine 2 is complete, and the history over all of them, with
      the service up, is the model's prediction on each row's training
      features against the row's index label. */
  lemma DashboardEndToEnd(table: seq<Labeled>, sqrt: real -> real, model: seq<real> -> real)
    requires Grouped(table) && LongEngines(table)
    ensures AllComplete(LoadData(table, sqrt))
    ensures History(LoadData(table, sqrt), Service(model), |LoadData(table, sqrt)|)
              == (Predictions(LoadData(table, sqrt), model, |LoadData(table, sqrt)|),
                  Labels(LoadData(table, sqrt), |LoadData(table, sqrt)|))
  {
    LoadedRowsComplete(table, sqrt);
    ServedHistory(model, LoadData(table, sqrt));
  }

  /** A run of the loop against a running service over complete rows: it
      never aborts, and charts every row in order, its index label against
      the model's prediction on its training features. */
  method ServedRun(model: seq<real> -> real, rows: Feed)
    returns (historyRul: seq<real>, historyTime: seq<nat>, aborted: bool)
    requires AllComplete(rows)
    ensures !aborted
    ensures |historyRul| == |historyTime| == |rows|
    ensures forall t :: 0 <= t < |rows| ==>
              historyTime[t] == rows[t].0 && historyRul[t] == model(FeatureVector(rows[t].1))
  {
    ServedHistory(model, rows);
    var sent;
    historyRul, historyTime, sent, aborted := Simulate(rows, Service(model));
    assert historyRul == Predictions(rows, model, |rows|);
    assert historyTime == Labels(rows, |rows|);
  }

  /** One run of the dashboard against a running service: `load_data`, then
      the loop. For a grouped table whose engines all have five or more
      rows, the loop never aborts and charts, for every row of engine 2 in
      table order, the row's index label against the model's prediction on
      its training features. */
  method LiveSimulation(table: seq<Labeled>, sqrt: real -> real, model: seq<real> -> real)
    returns (historyRul: seq<real>, historyTime: seq<nat>, aborted: bool)
    requires Grouped(table) && LongEngines(table)
    ensures !aborted
    ensures AllComplete(LoadData(table, sqrt))
    ensures |historyRul| == |historyTime| == |LoadData(table, sqrt)|
    ensures forall t :: 0 <= t < |historyTime| ==>
              historyTime[t] == LoadData(table, sqrt)[t].0
              && historyRul[t] == model(FeatureVector(LoadData(table, sqrt)[t].1))
  {
    var rows := LoadData(table, sqrt);
    LoadedRowsComplete(table, sqrt);
    historyRul, historyTime, aborted := ServedRun(model, rows);
  }

  /** The chart's threshold line sits exactly at the service's Critical
      cutoff. */
  lemma AlertLineIsCutoff(p: real)
    ensures Classify(p) == Critical <==> p < AlertLine
  {
  }
}
