/** The RUL labeller of 1_data_prep.py: every row receives the number of
    cycles its engine still runs after it, `RUL = max_cycle(id) - cycle`,
    where `max_cycle` is the largest cycle logged for that engine id. */
module Labeler {
  import opened Wrappers
  import opened Seqs
  import opened Schema

  /** A row of the processed table: the raw columns, unchanged, plus RUL.
      The helper column `max_cycle` is not part of it. */
  datatype Labeled = Labeled(row: Row, rul: int)

  /** Mask `df['id'] == e` on the processed table. */
  function LabeledOfEngine(e: int): Labeled -> bool
  {
    (l: Labeled) => l.row.id == e
  }

  /** `c` is the largest cycle logged for engine `id` in `rows`. */
  ghost predicate IsEngineMax(rows: seq<Row>, id: int, c: int)
  {
    && (exists j :: 0 <= j < |rows| && rows[j].id == id && rows[j].cycle == c)
    && (forall j :: 0 <= j < |rows| && rows[j].id == id ==> rows[j].cycle <= c)
  }

  /** The per-engine maximum is unique. */
  lemma EngineMaxUnique(rows: seq<Row>, id: int, a: int, b: int)
    requires IsEngineMax(rows, id, a) && IsEngineMax(rows, id, b)
    ensures a == b
  {
  }

  /** `groupby('id')['cycle'].max()` looked up at `id`; `None` when no row
      carries that id (the merge then has nothing to attach). */
  function MaxCycle(rows: seq<Row>, id: int): (m: Option<int>)
    ensures m.None? <==> forall r :: r in rows ==> r.id != id
  {
    if |rows| == 0 then None
    else
      var front := rows[..|rows| - 1];
      var last := rows[|rows| - 1];
      assert rows == front + [last];
      var rest := MaxCycle(front, id);
      if last.id != id then rest
      else match rest
        case None => Some(last.cycle)
        case Some(c) => Some(if c < last.cycle then last.cycle else c)
  }

  /** A found maximum is the largest cycle logged for the engine. */
  lemma {:induction false} MaxCycleIsEngineMax(rows: seq<Row>, id: int)
    ensures MaxCycle(rows, id).Some? ==> IsEngineMax(rows, id, MaxCycle(rows, id).value)
    decreases |rows|
  {
    if |rows| > 0 {
      var front := rows[..|rows| - 1];
      var last := rows[|rows| - 1];
      MaxCycleIsEngineMax(front, id);
      var m := MaxCycle(rows, id);
      if m.Some? {
        var c := m.value;
        if last.id == id && MaxCycle(front, id).Some? && c == MaxCycle(front, id).value {
          var j :| 0 <= j < |front| && front[j].id == id && front[j].cycle == c;
          assert rows[j] == front[j];
        } else if last.id == id {
          assert rows[|rows| - 1].cycle == c;
        } else {
          var j :| 0 <= j < |front| && front[j].id == id && front[j].cycle == c;
          assert rows[j] == front[j];
        }
        forall j | 0 <= j < |rows| && rows[j].id == id
          ensures rows[j].cycle <= c
        {
          if j < |rows| - 1 {
            assert rows[j] == front[j];
          }
        }
      }
    }
  }

  /** The label `ctx` gives a row of an engine it has logged: the left
      merge on `id` followed by the subtraction. */
  function LabelWith(ctx: seq<Row>): Row --> Labeled
  {
    (r: Row) requires MaxCycle(ctx, r.id).Some? => Labeled(r, MaxCycle(ctx, r.id).value - r.cycle)
  }

  /** The labelled table: same rows in the same order, each with
      `RUL = max_cycle(id) - cycle`. */
  function Label(rows: seq<Row>): (r: seq<Labeled>)
    ensures |r| == |rows|
    ensures forall i :: 0 <= i < |rows| ==> r[i].row == rows[i]
    ensures forall i :: 0 <= i < |rows| ==> MaxCycle(rows, rows[i].id) == Some(rows[i].cycle + r[i].rul)
  {
    assert forall x :: x in rows ==> MaxCycle(rows, x.id).Some?;
    Map(rows, LabelWith(rows))
  }

  /** Every row's cycle plus its RUL is the largest cycle its engine reaches. */
  lemma LabelIsEngineMax(rows: seq<Row>, i: nat)
    requires i < |rows|
    ensures IsEngineMax(rows, rows[i].id, rows[i].cycle + Label(rows)[i].rul)
  {
    MaxCycleIsEngineMax(rows, rows[i].id);
  }

  /** RUL is never negative, and it is zero exactly on the rows logged at
      their engine's last cycle (the failure point). */
  lemma RulZeroAtFailure(rows: seq<Row>, i: nat)
    requires i < |rows|
    ensures Label(rows)[i].rul >= 0
    ensures Label(rows)[i].rul == 0 <==>
              forall j :: 0 <= j < |rows| && rows[j].id == rows[i].id ==> rows[j].cycle <= rows[i].cycle
  {
    var l := Label(rows)[i];
    LabelIsEngineMax(rows, i);
    if forall j :: 0 <= j < |rows| && rows[j].id == rows[i].id ==> rows[j].cycle <= rows[i].cycle {
      var w :| w in rows && w.id == rows[i].id && w.cycle == rows[i].cycle + l.rul;
      var j :| 0 <= j < |rows| && rows[j] == w;
    } else {
      var j :| 0 <= j < |rows| && rows[j].id == rows[i].id && rows[j].cycle > rows[i].cycle;
      assert rows[j] in rows;
    }
  }

  /** For an engine whose rows carry cycles 1..n, the row at cycle c gets
      RUL n - c: n - 1 at the first cycle, falling by one per cycle to 0. */
  lemma ContiguousEngineRul(rows: seq<Row>, e: int, n: nat, i: nat)
    requires |Filter(rows, OfEngine(e))| == n
    requires forall k :: 0 <= k < n ==> Filter(rows, OfEngine(e))[k].cycle == k + 1
    requires i < |rows| && rows[i].id == e
    ensures Label(rows)[i].rul == n - rows[i].cycle
  {
    var es := Filter(rows, OfEngine(e));
    assert rows[i] in es;
    assert es[n - 1] in es && es[n - 1].cycle == n;
    assert IsEngineMax(es, e, n);
    EngineMaxOfFilter(rows, e, n);
    LabelIsEngineMax(rows, i);
    EngineMaxUnique(rows, e, n, rows[i].cycle + Label(rows)[i].rul);
  }

  /** Selecting engine `e`'s rows keeps its maximum cycle. */
  lemma EngineMaxOfFilter(rows: seq<Row>, e: int, c: int)
    ensures IsEngineMax(Filter(rows, OfEngine(e)), e, c) <==> IsEngineMax(rows, e, c)
  {
    var es := Filter(rows, OfEngine(e));
    if IsEngineMax(es, e, c) {
      var k :| 0 <= k < |es| && es[k].id == e && es[k].cycle == c;
      assert es[k] in es;
      var j :| 0 <= j < |rows| && rows[j] == es[k];
      forall j | 0 <= j < |rows| && rows[j].id == e
        ensures rows[j].cycle <= c
      {
        assert rows[j] in es;
        var k :| 0 <= k < |es| && es[k] == rows[j];
      }
    }
    if IsEngineMax(rows, e, c) {
      var j :| 0 <= j < |rows| && rows[j].id == e && rows[j].cycle == c;
      assert rows[j] in es;
      var k :| 0 <= k < |es| && es[k] == rows[j];
      forall k | 0 <= k < |es| && es[k].id == e
        ensures es[k].cycle <= c
      {
        assert es[k] in rows;
        var j :| 0 <= j < |rows| && rows[j] == es[k];
      }
    }
  }

  /** Only the rows of engine `e` determine its maximum cycle. */
  lemma MaxCycleLocal(rows: seq<Row>, e: int)
    ensures MaxCycle(Filter(rows, OfEngine(e)), e) == MaxCycle(rows, e)
  {
    var es := Filter(rows, OfEngine(e));
    var a, b := MaxCycle(es, e), MaxCycle(rows, e);
    MaxCycleIsEngineMax(es, e);
    MaxCycleIsEngineMax(rows, e);
    if a.Some? {
      EngineMaxOfFilter(rows, e, a.value);
      EngineMaxUnique(rows, e, a.value, b.value);
    }
  }

  /** Labels computed from equal maxima agree. */
  lemma SameMaximaSameLabels(ctx: seq<Row>, ctx': seq<Row>, s: seq<Row>)
    requires forall x :: x in s ==> MaxCycle(ctx, x.id).Some? && MaxCycle(ctx', x.id) == MaxCycle(ctx, x.id)
    ensures Map(s, LabelWith(ctx)) == Map(s, LabelWith(ctx'))
  {
    forall i | 0 <= i < |s|
      ensures Map(s, LabelWith(ctx))[i] == Map(s, LabelWith(ctx'))[i]
    {
      assert s[i] in s;
    }
  }

  /** An engine's labels depend on its own rows only: labelling the whole
      table and then keeping engine `e` equals labelling `e`'s rows alone, so
      adding or removing other engines' rows changes none of them. */
  lemma LabelsAreLocal(rows: seq<Row>, e: int)
    ensures Filter(Label(rows), LabeledOfEngine(e)) == Label(Filter(rows, OfEngine(e)))
  {
    var es := Filter(rows, OfEngine(e));
    assert forall x :: x in rows ==> MaxCycle(rows, x.id).Some?;
    FilterMap(rows, LabelWith(rows), LabeledOfEngine(e), OfEngine(e));
    MaxCycleLocal(rows, e);
    SameMaximaSameLabels(rows, es, es);
  }
}
