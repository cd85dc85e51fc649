/** The prediction service of 3_api.py: a JSON body is validated against the
    nine-field `EngineData` schema, its fields are re-arranged into the
    training column order, the trained model is applied, and the prediction
    is classified as Critical below 30 cycles. */
module Api {
  import opened Wrappers
  import opened Features

  /** A JSON object as it arrives: key/value pairs in body order. */
  type Request = seq<(string, real)>

  /** The keys present in a request. */
  function Keys(req: Request): set<string>
  {
    set p | p in req :: p.0
  }

  /** The object the JSON decoder builds: a later duplicate key replaces an
      earlier one. */
  function ToMap(req: Request): (m: map<string, real>)
    ensures m.Keys == Keys(req)
  {
    if |req| == 0 then map[]
    else
      var last := req[|req| - 1];
      assert req == req[..|req| - 1] + [last];
      ToMap(req[..|req| - 1])[last.0 := last.1]
  }

  /** Each key maps to the value of its last occurrence. */
  lemma {:induction false} ToMapLastWins(req: Request, i: nat)
    requires i < |req|
    requires forall j :: i < j < |req| ==> req[j].0 != req[i].0
    ensures ToMap(req)[req[i].0] == req[i].1
  {
    if i < |req| - 1 {
      ToMapLastWins(req[..|req| - 1], i);
    }
  }

  /** No key occurs twice. */
  predicate DistinctKeys(req: Request)
  {
    forall i, j :: 0 <= i < j < |req| ==> req[i].0 != req[j].0
  }

  /** The request body schema `EngineData`. */
  datatype EngineData = EngineData(
    s7: real, s12: real, s21: real,
    s7Mean: real, s7Std: real,
    s12Mean: real, s12Std: real,
    s21Mean: real, s21Std: real)

  /** The schema's field names in declaration order. */
  const FieldNames: seq<string> :=
    ["s7", "s12", "s21", "s7_mean", "s7_std", "s12_mean", "s12_std", "s21_mean", "s21_std"]

  /** `expected_order`: the column order the model was trained on. */
  const ExpectedOrder: seq<string> :=
    ["s7", "s12", "s21", "s7_mean", "s12_mean", "s21_mean", "s7_std", "s12_std", "s21_std"]

  /** `data.dict()`: the fields as name/value pairs in declaration order. */
  function AsDict(data: EngineData): (d: Request)
    ensures |d| == |FieldNames|
    ensures forall n :: 0 <= n < |d| ==> d[n].0 == FieldNames[n]
  {
    [("s7", data.s7), ("s12", data.s12), ("s21", data.s21),
     ("s7_mean", data.s7Mean), ("s7_std", data.s7Std),
     ("s12_mean", data.s12Mean), ("s12_std", data.s12Std),
     ("s21_mean", data.s21Mean), ("s21_std", data.s21Std)]
  }

  /** Parsing the body into `EngineData`: every schema field is required,
      keys outside the schema are ignored, and a rejection names the missing
      fields. */
  function Validate(req: Request): (r: Result<EngineData, set<string>>)
    ensures r.Failure? <==> exists n :: 0 <= n < |FieldNames| && FieldNames[n] !in ToMap(req)
    ensures r.Failure? ==> forall f :: f in r.error <==> f in FieldNames && f !in ToMap(req)
    ensures r.Success? ==> forall n :: 0 <= n < |FieldNames| ==>
              FieldNames[n] in ToMap(req) && AsDict(r.value)[n].1 == ToMap(req)[FieldNames[n]]
  {
    var m := ToMap(req);
    if forall n :: 0 <= n < |FieldNames| ==> FieldNames[n] in m then
      assert FieldNames[0] in m && FieldNames[1] in m && FieldNames[2] in m;
      assert FieldNames[3] in m && FieldNames[4] in m && FieldNames[5] in m;
      assert FieldNames[6] in m && FieldNames[7] in m && FieldNames[8] in m;
      Success(EngineData(m["s7"], m["s12"], m["s21"],
                         m["s7_mean"], m["s7_std"],
                         m["s12_mean"], m["s12_std"],
                         m["s21_mean"], m["s21_std"]))
    else
      Failure(set f | f in FieldNames && f !in m)
  }

  /** The value under `name` in a one-row frame built from `frame`, `None`
      when the frame has no such column. */
  function Lookup(frame: Request, name: string): (v: Option<real>)
    ensures v.None? <==> forall k :: 0 <= k < |frame| ==> frame[k].0 != name
    ensures v.Some? ==> exists k :: 0 <= k < |frame| && frame[k] == (name, v.value)
  {
    if |frame| == 0 then None
    else if frame[0].0 == name then Some(frame[0].1)
    else Lookup(frame[1..], name)
  }

  /** `input_data[names]`: the columns `names` in that order; `None` (a
      `KeyError`) when one of them is absent. */
  function Select(frame: Request, names: seq<string>): (r: Option<seq<real>>)
    ensures r.Some? <==> forall n :: 0 <= n < |names| ==> Lookup(frame, names[n]).Some?
    ensures r.Some? ==> |r.value| == |names|
    ensures r.Some? ==> forall n :: 0 <= n < |names| ==> Some(r.value[n]) == Lookup(frame, names[n])
  {
    if |names| == 0 then Some([])
    else match (Lookup(frame, names[0]), Select(frame, names[1..]))
      case (Some(v), Some(rest)) => Some([v] + rest)
      case _ => None
  }

  datatype Status = Normal | Critical

  /** Predictions below this many cycles are Critical. */
  const CriticalThreshold: real := 30.0

  function Classify(prediction: real): (s: Status)
  {
    if prediction < CriticalThreshold then Critical else Normal
  }

  /** Reply of `POST /predict`: a validation error naming the missing
      fields, or the prediction and its status. */
  datatype Response =
    | Rejected(missing: set<string>)
    | Predicted(predictedRul: real, status: Status)

  /** The model's input for an accepted request: field `expected_order[n]`
      at position n. */
  function ModelInput(data: EngineData): (x: seq<real>)
    ensures |x| == |ExpectedOrder|
    ensures forall n :: 0 <= n < |x| ==> Some(x[n]) == Lookup(AsDict(data), ExpectedOrder[n])
  {
    var x := Select(AsDict(data), ExpectedOrder);
    assert x.Some? by {
      forall n | 0 <= n < |ExpectedOrder|
        ensures Lookup(AsDict(data), ExpectedOrder[n]).Some?
      {
        var k := IndexIn(ExpectedOrder[n]);
        assert AsDict(data)[k].0 == ExpectedOrder[n];
      }
    }
    x.value
  }

  /** Where a name of `expected_order` sits among the schema fields. */
  function IndexIn(name: string): (k: nat)
    requires name in ExpectedOrder
    ensures k < |FieldNames| && FieldNames[k] == name
  {
    if name == "s7" then 0 else if name == "s12" then 1 else if name == "s21" then 2
    else if name == "s7_mean" then 3 else if name == "s7_std" then 4
    else if name == "s12_mean" then 5 else if name == "s12_std" then 6
    else if name == "s21_mean" then 7 else 8
  }

  /** `predict_rul`: validate, re-arrange into `expected_order`, predict and
      classify. `model` is the trained regressor, fixed for the life of the
      service. */
  function Handle(model: seq<real> -> real, req: Request): (resp: Response)
    ensures resp.Rejected? <==> exists n :: 0 <= n < |FieldNames| && FieldNames[n] !in ToMap(req)
    ensures resp.Rejected? ==> forall f :: f in resp.missing <==> f in FieldNames && f !in ToMap(req)
    ensures resp.Predicted? ==> forall n :: 0 <= n < |ExpectedOrder| ==> ExpectedOrder[n] in ToMap(req)
    ensures resp.Predicted? ==>
              resp.predictedRul == model(seq(|ExpectedOrder|, n requires 0 <= n < |ExpectedOrder| => ToMap(req)[ExpectedOrder[n]]))
    ensures resp.Predicted? ==> (resp.status == Critical <==> resp.predictedRul < 30.0)
  {
    match Validate(req)
    case Failure(missing) => Rejected(missing)
    case Success(data) =>
      var x := ModelInput(data);
      assert x == seq(|ExpectedOrder|, n requires 0 <= n < |ExpectedOrder| => ToMap(req)[ExpectedOrder[n]]) by {
        forall n | 0 <= n < |ExpectedOrder|
          ensures ExpectedOrder[n] in ToMap(req) && x[n] == ToMap(req)[ExpectedOrder[n]]
        {
          var k := IndexIn(ExpectedOrder[n]);
          DictLookup(data, k);
        }
      }
      var p := model(x);
      Predicted(p, Classify(p))
  }

  /** Looking a schema field up in `data.dict()` finds that field. */
  lemma DictLookup(data: EngineData, k: nat)
    requires k < |FieldNames|
    ensures Lookup(AsDict(data), FieldNames[k]) == Some(AsDict(data)[k].1)
  {
    var d := AsDict(data);
    assert d[k].0 == FieldNames[k];
  }

  /** The fixed greeting of `GET /`. */
  const HomeMessage: string := "Predictive Maintenance API is Online!"

  /** `GET /`: one key, `message`, always holding the same text. */
  function Home(): (reply: map<string, string>)
    ensures reply.Keys == {"message"}
    ensures reply["message"] == HomeMessage
  {
    map["message" := HomeMessage]
  }

  /** The column order the service enforces is the order the model was
      trained on. */
  lemma ExpectedOrderIsTrainingOrder()
    ensures ExpectedOrder == FeatureNames()
  {
    FeatureNamesSpelled();
  }

  /** The schema's declaration order is a different arrangement of the same
      nine names, so passing `data.dict()` unreordered would feed the model
      misplaced columns. */
  lemma DeclarationOrderDiffers()
    ensures FieldNames != ExpectedOrder
    ensures |FieldNames| == |ExpectedOrder|
    ensures forall f :: f in FieldNames <==> f in ExpectedOrder
  {
    assert |FieldNames[4]| != |ExpectedOrder[4]|;
  }

  /** In a request without repeated keys, the decoded object holds exactly
      the request's pairs. */
  lemma ToMapOfDistinct(req: Request, k: string, v: real)
    requires DistinctKeys(req)
    ensures (k in ToMap(req) && ToMap(req)[k] == v) <==> (k, v) in req
  {
    if (k, v) in req {
      var i :| 0 <= i < |req| && req[i] == (k, v);
      ToMapLastWins(req, i);
    }
    if k in ToMap(req) && ToMap(req)[k] == v {
      var p :| p in req && p.0 == k;
      var i :| 0 <= i < |req| && req[i] == p;
      ToMapLastWins(req, i);
    }
  }

  /** A record is determined by its `dict()` values. */
  lemma AsDictInjective(x: EngineData, y: EngineData)
    requires forall n :: 0 <= n < |FieldNames| ==> AsDict(x)[n].1 == AsDict(y)[n].1
    ensures x == y
  {
    var dx, dy := AsDict(x), AsDict(y);
    assert dx[0].1 == dy[0].1 && dx[1].1 == dy[1].1 && dx[2].1 == dy[2].1;
    assert dx[3].1 == dy[3].1 && dx[4].1 == dy[4].1 && dx[5].1 == dy[5].1;
    assert dx[6].1 == dy[6].1 && dx[7].1 == dy[7].1 && dx[8].1 == dy[8].1;
  }

  /** No schema field is declared twice. */
  lemma FieldNamesDistinct()
    ensures forall i, j :: 0 <= i < j < |FieldNames| ==> FieldNames[i] != FieldNames[j]
  {
    forall i, j | 0 <= i < j < |FieldNames|
      ensures FieldNames[i] != FieldNames[j]
    {
      if |FieldNames[i]| == |FieldNames[j]| {
        assert FieldNames[i][|FieldNames[i]| - 1] != FieldNames[j][|FieldNames[j]| - 1]
            || FieldNames[i][1] != FieldNames[j][1];
      }
    }
  }

  /** Validating a record's own `dict()` gives the record back. */
  lemma ValidateRoundTrip(data: EngineData)
    ensures Validate(AsDict(data)) == Success(data)
  {
    var d := AsDict(data);
    var m := ToMap(d);
    FieldNamesDistinct();
    assert DistinctKeys(d);
    forall n | 0 <= n < |d|
      ensures d[n].0 in m && m[d[n].0] == d[n].1
    {
      assert d[n] in d;
      ToMapOfDistinct(d, d[n].0, d[n].1);
    }
    var r := Validate(d);
    assert r.Success?;
    AsDictInjective(r.value, data);
  }

  /** The response depends only on the schema fields of the request: keys
      outside the schema, the key order and the history of earlier calls
      play no part. */
  lemma SameFieldsSameResponse(model: seq<real> -> real, a: Request, b: Request)
    requires forall f :: f in FieldNames ==>
               (f in ToMap(a) <==> f in ToMap(b))
               && (f in ToMap(a) ==> ToMap(a)[f] == ToMap(b)[f])
    ensures Handle(model, a) == Handle(model, b)
  {
    var ra, rb := Validate(a), Validate(b);
    assert forall n :: 0 <= n < |FieldNames| ==> FieldNames[n] in FieldNames;
    if ra.Success? {
      assert rb.Success?;
      AsDictInjective(ra.value, rb.value);
    } else {
      assert rb.Failure?;
      assert ra.error == rb.error;
    }
  }

  /** Sending the same fields in a different key order yields the same
      response. */
  lemma KeyOrderIrrelevant(model: seq<real> -> real, a: Request, b: Request)
    requires DistinctKeys(a) && DistinctKeys(b)
    requires multiset(a) == multiset(b)
    ensures Handle(model, a) == Handle(model, b)
  {
    forall f | f in FieldNames
      ensures f in ToMap(a) <==> f in ToMap(b)
      ensures f in ToMap(a) ==> ToMap(a)[f] == ToMap(b)[f]
    {
      if f in ToMap(a) {
        ToMapOfDistinct(a, f, ToMap(a)[f]);
        assert (f, ToMap(a)[f]) in multiset(b);
        ToMapOfDistinct(b, f, ToMap(a)[f]);
      }
      if f in ToMap(b) {
        ToMapOfDistinct(b, f, ToMap(b)[f]);
        assert (f, ToMap(b)[f]) in multiset(a);
        ToMapOfDistinct(a, f, ToMap(b)[f]);
      }
    }
    SameFieldsSameResponse(model, a, b);
  }
}
