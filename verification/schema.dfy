/** The fixed column schema of the raw engine logs (1_data_prep.py:9) and
    the record type one parsed line becomes: an engine id, a cycle number,
    three operational settings and 21 sensor readings. */
module Schema {
  import opened Wrappers

  /** Decimal rendering of a natural number, as an f-string prints it. */
  function Digits(n: nat): (text: string)
    ensures |text| >= 1
    ensures forall i :: 0 <= i < |text| ==> IsDigit(text[i])
    ensures n < 10 <==> |text| == 1
  {
    if n < 10 then [DigitChar(n)] else Digits(n / 10) + [DigitChar(n % 10)]
  }

  predicate IsDigit(c: char)
  {
    '0' <= c && c <= '9'
  }

  function DigitChar(d: nat): (c: char)
    requires d < 10
    ensures IsDigit(c)
  {
    "0123456789"[d]
  }

  /** The name `s<k>` of sensor `k`. */
  function SensorName(k: nat): string
  {
    "s" + Digits(k)
  }

  /** Column names in file order: id, cycle, set1..set3, s1..s21. */
  function Columns(): seq<string>
  {
    ["id", "cycle", "set1", "set2", "set3"]
    + seq(21, i requires 0 <= i < 21 => SensorName(i + 1))
  }

  type Settings = s: seq<real> | |s| == 3 witness [0.0, 0.0, 0.0]
  type Sensors = s: seq<real> | |s| == 21 witness seq(21, _ => 0.0)

  /** One raw log line: all 26 columns. */
  datatype Row = Row(id: int, cycle: int, settings: Settings, sensors: Sensors)

  /** Mask `df['id'] == e`. */
  function OfEngine(e: int): Row -> bool
  {
    (r: Row) => r.id == e
  }

  /** Reading of sensor `k` (1-based, as in the column name `s<k>`). */
  function Sensor(r: Row, k: nat): real
    requires 1 <= k <= 21
  {
    r.sensors[k - 1]
  }

  /** The row's values in column order. */
  function Values(r: Row): (v: seq<real>)
    ensures |v| == |Columns()|
  {
    [r.id as real, r.cycle as real] + r.settings + r.sensors
  }

  /** Position of the first occurrence of `name` in `names`. */
  function IndexOf(names: seq<string>, name: string): (r: Option<nat>)
    ensures r.Some? ==> r.value < |names| && names[r.value] == name
    ensures r.Some? ==> forall j :: 0 <= j < r.value ==> names[j] != name
    ensures r.None? ==> name !in names
  {
    if |names| == 0 then None
    else if names[0] == name then Some(0)
    else match IndexOf(names[1..], name)
      case None => None
      case Some(j) => Some(j + 1)
  }

  /** `row[name]`: the value of the named column, `None` for an unknown name. */
  function Field(r: Row, name: string): Option<real>
  {
    match IndexOf(Columns(), name)
    case None => None
    case Some(i) => Some(Values(r)[i])
  }

  predicate Distinct(names: seq<string>)
  {
    forall i, j :: 0 <= i < j < |names| ==> names[i] != names[j]
  }

  /** Different numbers print differently. */
  lemma {:induction false} DigitsInjective(n: nat, m: nat)
    requires Digits(n) == Digits(m)
    ensures n == m
    decreases n
  {
    if n >= 10 && m >= 10 {
      var dn, dm := Digits(n), Digits(m);
      assert dn[..|dn| - 1] == Digits(n / 10);
      assert dm[..|dm| - 1] == Digits(m / 10);
      DigitsInjective(n / 10, m / 10);
      assert DigitChar(n % 10) == dn[|dn| - 1] == DigitChar(m % 10);
      assert n % 10 == m % 10 by {
        DigitCharInjective(n % 10, m % 10);
      }
    } else if n < 10 && m < 10 {
      assert DigitChar(n) == Digits(n)[0];
      DigitCharInjective(n, m);
    }
  }

  lemma DigitCharInjective(a: nat, b: nat)
    requires a < 10 && b < 10 && DigitChar(a) == DigitChar(b)
    ensures a == b
  {
  }

  /** The schema has 26 columns: id, cycle, set1..set3, then s1..s21. */
  lemma ColumnsLayout()
    ensures |Columns()| == 26
    ensures Columns()[..5] == ["id", "cycle", "set1", "set2", "set3"]
    ensures forall k :: 1 <= k <= 21 ==> Columns()[4 + k] == SensorName(k)
  {
  }

  /** No two columns share a name, so every name selects one column. */
  lemma ColumnsDistinct()
    ensures Distinct(Columns())
  {
    forall i, j | 0 <= i < j < |Columns()|
      ensures Columns()[i] != Columns()[j]
    {
      if 5 <= i {
        if Columns()[i] == Columns()[j] {
          assert Digits(i - 4) == Columns()[i][1..] == Columns()[j][1..] == Digits(j - 4);
          DigitsInjective(i - 4, j - 4);
        }
      } else if 5 <= j {
        var d := Digits(j - 4);
        assert Columns()[j] == "s" + d;
        assert IsDigit(Columns()[j][1]);
      }
    }
  }

  /** Schema column names are at most five characters long. */
  lemma ColumnNameShort(name: string)
    requires name in Columns()
    ensures |name| <= 5
  {
    ColumnsLayout();
    var c :| 0 <= c < 26 && Columns()[c] == name;
    if c >= 5 {
      assert name == SensorName(c - 4);
      assert |Digits(c - 4)| <= 2 by {
        if c - 4 >= 10 {
          assert Digits(c - 4) == Digits((c - 4) / 10) + [DigitChar((c - 4) % 10)];
        }
      }
    }
  }

  /** In a list without repeats, a name is found at its own position. */
  lemma {:induction false} IndexOfDistinct(names: seq<string>, i: nat)
    requires Distinct(names) && i < |names|
    ensures IndexOf(names, names[i]) == Some(i)
  {
    if i > 0 {
      assert names[1..][i - 1] == names[i];
      IndexOfDistinct(names[1..], i - 1);
    }
  }

  /** Column `s<k>` of a parsed row is sensor `k`'s reading. */
  lemma SensorColumn(r: Row, k: nat)
    requires 1 <= k <= 21
    ensures Field(r, SensorName(k)) == Some(Sensor(r, k))
  {
    ColumnsLayout();
    ColumnsDistinct();
    IndexOfDistinct(Columns(), 4 + k);
  }
}
