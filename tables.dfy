/** The working table and the steps that build it up column by column. */
module Tables {
  import opened Wrappers
  import opened Cells
  import opened Headers
  import opened Defaults
  import opened Risk
  import opened Reasons
  import opened Prediction
  import Summary

  const SATISFACTION: string := "satisfaction_score"
  const ENGAGEMENT: string := "engagement_score"
  const LAST_HIKE: string := "last_hike_months"
  const OVERTIME: string := "overtime_hours"
  const DISTANCE: string := "distance_from_home"

  const LEFT: string := "left"
  const FLIGHT_RISK: string := "flight_risk"
  const RISK_CATEGORY: string := "risk_category"
  const RISK_REASONS: string := "risk_reasons"

  /** Why a run stops: a column the step needs is absent or repeated, holds
      text where a number is needed, the table is too small to split into a
      training and a test part, or a classifier feature holds text. */
  datatype Error =
    | MissingColumn(name: string)
    | AmbiguousColumn(name: string)
    | NonNumeric(name: string)
    | TooFewRows(rows: nat)
    | NonNumericFeatures

  /** The table as a value: header row, one sequence of cells per column, and
      the number of rows. */
  datatype Frame = Frame(columns: seq<string>, data: seq<seq<Cell>>, rows: nat)

  /** One column of cells per header, each with one cell per row. */
  predicate Shaped(f: Frame) {
    |f.data| == |f.columns| && forall j :: 0 <= j < |f.data| ==> |f.data[j]| == f.rows
  }

  /** How many columns carry the name. */
  function Count(columns: seq<string>, name: string): (n: nat)
    ensures n <= |columns|
    ensures n == 0 <==> name !in columns
  {
    if columns == [] then 0
    else (if columns[0] == name then 1 else 0) + Count(columns[1..], name)
  }

  /** The first column that carries the name. */
  function IndexOf(columns: seq<string>, name: string): (j: nat)
    requires name in columns
    ensures j < |columns| && columns[j] == name
    ensures forall k :: 0 <= k < j ==> columns[k] != name
  {
    if columns[0] == name then 0 else 1 + IndexOf(columns[1..], name)
  }

  /** `df[name]` for a single name: the column when exactly one carries it. */
  function Lookup(f: Frame, name: string): (r: Result<seq<Cell>, Error>)
    requires Shaped(f)
    ensures r.Ok? <==> Count(f.columns, name) == 1
    ensures r == Err(MissingColumn(name)) <==> name !in f.columns
    ensures Count(f.columns, name) > 1 ==> r == Err(AmbiguousColumn(name))
    ensures r.Ok? ==> exists j :: 0 <= j < |f.columns| && f.columns[j] == name && r.value == f.data[j]
    ensures r.Ok? ==> |r.value| == f.rows
  {
    var n := Count(f.columns, name);
    if n == 0 then Err(MissingColumn(name))
    else if n > 1 then Err(AmbiguousColumn(name))
    else Ok(f.data[IndexOf(f.columns, name)])
  }

  /** `df[name] = values`: every column carrying the name is replaced, or a
      new column is appended when none does. */
  function Assign(f: Frame, name: string, values: seq<Cell>): (g: Frame)
    requires Shaped(f) && |values| == f.rows
    ensures Shaped(g) && g.rows == f.rows
    ensures f.columns <= g.columns && name in g.columns
  {
    if name in f.columns then
      Frame(f.columns, seq(|f.data|, j requires 0 <= j < |f.data| =>
                             if f.columns[j] == name then values else f.data[j]), f.rows)
    else
      Frame(f.columns + [name], f.data + [values], f.rows)
  }

  /** A column's cells as numbers; text anywhere makes the column unusable in
      arithmetic. */
  function NumericColumn(f: Frame, name: string): (r: Result<seq<real>, Error>)
    requires Shaped(f)
    ensures r.Ok? <==> Lookup(f, name).Ok? && forall i :: 0 <= i < f.rows ==> AsNumber(Lookup(f, name).value[i]).Some?
    ensures r.Ok? ==> |r.value| == f.rows
    ensures r.Ok? ==> forall i :: 0 <= i < f.rows ==> AsNumber(Lookup(f, name).value[i]) == Some(r.value[i])
    ensures Lookup(f, name).Err? ==> r == Err(Lookup(f, name).error)
    ensures Lookup(f, name).Ok? && r.Err? ==> r == Err(NonNumeric(name))
  {
    var col :- Lookup(f, name);
    if forall i :: 0 <= i < |col| ==> AsNumber(col[i]).Some? then Ok(Numbers(col))
    else Err(NonNumeric(name))
  }

  function Numbers(col: seq<Cell>): (r: seq<real>)
    requires forall i :: 0 <= i < |col| ==> AsNumber(col[i]).Some?
    ensures |r| == |col| && forall i :: 0 <= i < |col| ==> r[i] == AsNumber(col[i]).value
  {
    seq(|col|, i requires 0 <= i < |col| => AsNumber(col[i]).value)
  }

  /** The five drivers of every row, read in the order the risk score reads
      them; the first unusable column stops the run. */
  function DriverRows(f: Frame): (r: Result<seq<Drivers>, Error>)
    requires Shaped(f)
    ensures r.Ok? <==>
      && NumericColumn(f, SATISFACTION).Ok? && NumericColumn(f, ENGAGEMENT).Ok?
      && NumericColumn(f, LAST_HIKE).Ok? && NumericColumn(f, OVERTIME).Ok?
      && NumericColumn(f, DISTANCE).Ok?
    ensures r.Ok? ==> |r.value| == f.rows
    ensures r.Ok? ==> forall i :: 0 <= i < f.rows ==>
      r.value[i] == Drivers(NumericColumn(f, SATISFACTION).value[i], NumericColumn(f, ENGAGEMENT).value[i],
                            NumericColumn(f, LAST_HIKE).value[i], NumericColumn(f, OVERTIME).value[i],
                            NumericColumn(f, DISTANCE).value[i])
  {
    var s :- NumericColumn(f, SATISFACTION);
    var e :- NumericColumn(f, ENGAGEMENT);
    var h :- NumericColumn(f, LAST_HIKE);
    var o :- NumericColumn(f, OVERTIME);
    var d :- NumericColumn(f, DISTANCE);
    Ok(seq(f.rows, i requires 0 <= i < f.rows => Drivers(s[i], e[i], h[i], o[i], d[i])))
  }

  /** The `left` column for the given rows. */
  function LeftColumn(ds: seq<Drivers>): (r: seq<Cell>)
    ensures |r| == |ds| && forall i :: 0 <= i < |ds| ==> r[i] == Int(Left(ds[i]))
  {
    seq(|ds|, i requires 0 <= i < |ds| => Int(Left(ds[i])))
  }

  /** The `risk_reasons` column for the given rows. */
  function ReasonColumn(ds: seq<Drivers>): (r: seq<Cell>)
    ensures |r| == |ds| && forall i :: 0 <= i < |ds| ==> r[i] == Text(Reason(ds[i]))
  {
    seq(|ds|, i requires 0 <= i < |ds| => Text(Reason(ds[i])))
  }

  /** What the classifier hands back: its fitted classes and one probability
      row per table row. */
  predicate Predicted(classes: seq<int>, proba: seq<seq<real>>, rows: nat) {
    FittedClasses(classes) && |proba| == rows &&
    forall i :: 0 <= i < |proba| ==> ProbabilityRow(classes, proba[i])
  }

  /** The flight risk of every row, taken from the leave probability. This
      is the corrected reading of the probability matrix; see
      `FlightRisksAsWritten`. */
  function FlightRisks(classes: seq<int>, proba: seq<seq<real>>): (r: seq<real>)
    requires Predicted(classes, proba, |proba|)
    ensures |r| == |proba|
    ensures forall i :: 0 <= i < |proba| ==> r[i] == FlightRisk(classes, proba[i]) as real
  {
    seq(|proba|, i requires 0 <= i < |proba| => FlightRisk(classes, proba[i]) as real)
  }

  /** The `flight_risk` column: whole percentages stored as floats. */
  function FlightRiskColumn(classes: seq<int>, proba: seq<seq<real>>): (r: seq<Cell>)
    requires Predicted(classes, proba, |proba|)
    ensures |r| == |proba|
    ensures forall i :: 0 <= i < |proba| ==> r[i] == Real(FlightRisks(classes, proba)[i])
  {
    var risks := FlightRisks(classes, proba);
    seq(|risks|, i requires 0 <= i < |risks| => Real(risks[i]))
  }

  /** The flight risk of every row as the last probability column gives it,
      which is how the dashboard computes it. */
  function FlightRisksAsWritten(proba: seq<seq<real>>): (r: seq<real>)
    requires forall i :: 0 <= i < |proba| ==> |proba[i]| > 0
    ensures |r| == |proba|
    ensures forall i :: 0 <= i < |proba| ==> r[i] == FlightRiskAsWritten(proba[i]) as real
  {
    seq(|proba|, i requires 0 <= i < |proba| => FlightRiskAsWritten(proba[i]) as real)
  }

  /** Once the classifier has seen a leaver, the corrected column is the
      column the dashboard computes. */
  lemma FlightRisksAgreeWhenLeaversSeen(classes: seq<int>, proba: seq<seq<real>>)
    requires Predicted(classes, proba, |proba|) && 1 in classes
    ensures forall i :: 0 <= i < |proba| ==> |proba[i]| > 0
    ensures FlightRisks(classes, proba) == FlightRisksAsWritten(proba)
  {
    forall i | 0 <= i < |proba|
      ensures |proba[i]| > 0 && FlightRisks(classes, proba)[i] == FlightRisksAsWritten(proba)[i]
    {
      AsWrittenAgreesWhenLeaversSeen(classes, proba[i]);
    }
  }

  /** When every training row was a stayer, the classifier's only column is
      the certainty of staying: as written, every row gets 100, while the
      corrected column gives every row 0. */
  lemma FlightRisksInvertedForStayersOnly(proba: seq<seq<real>>)
    requires Predicted([0], proba, |proba|)
    requires forall i :: 0 <= i < |proba| ==> proba[i][0] == 1.0
    ensures forall i :: 0 <= i < |proba| ==> |proba[i]| > 0
    ensures forall i :: 0 <= i < |proba| ==> FlightRisksAsWritten(proba)[i] == 100.0
    ensures forall i :: 0 <= i < |proba| ==> FlightRisks([0], proba)[i] == 0.0
  {
    forall i | 0 <= i < |proba|
      ensures |proba[i]| > 0 && FlightRisksAsWritten(proba)[i] == 100.0 && FlightRisks([0], proba)[i] == 0.0
    {
      AsWrittenInvertsSingleClass(proba[i]);
    }
  }

  // The steps of the run, each a function of the table before it.

  /** `df.columns = ...`: the data stay, and every header becomes normal. */
  function Normalised(f: Frame): (g: Frame)
    ensures g.data == f.data && g.rows == f.rows && |g.columns| == |f.columns|
    ensures forall j :: 0 <= j < |g.columns| ==> IsNormal(g.columns[j])
    ensures Shaped(f) ==> Shaped(g)
  {
    Frame(NormaliseAll(f.columns), f.data, f.rows)
  }

  /** The fill: the table stays rectangular, keeps its columns and data as a
      prefix, and then holds every default column. */
  function WithDefaults(f: Frame, draws: seq<seq<Cell>>): (g: Frame)
    requires Shaped(f) && DrawsFit(draws, f.rows)
    ensures Shaped(g) && g.rows == f.rows
    ensures f.columns <= g.columns && f.data <= g.data
    ensures forall k :: 0 <= k < |SPECS| ==> SPECS[k].name in g.columns
  {
    FillKeepsShape(f.columns, f.data, draws, f.rows);
    FillCoversDefaults(f.columns, f.data, draws);
    var (columns, data) := Filled(f.columns, f.data, draws);
    Frame(columns, data, f.rows)
  }

  function WithLeft(f: Frame): (r: Result<Frame, Error>)
    requires Shaped(f)
    ensures r.Ok? ==> Shaped(r.value) && r.value.rows == f.rows && f.columns <= r.value.columns
  {
    var ds :- DriverRows(f);
    Ok(Assign(f, LEFT, LeftColumn(ds)))
  }

  function WithFlightRisk(f: Frame, classes: seq<int>, proba: seq<seq<real>>): (g: Frame)
    requires Shaped(f) && Predicted(classes, proba, f.rows)
    ensures Shaped(g) && g.rows == f.rows && f.columns <= g.columns && FLIGHT_RISK in g.columns
  {
    Assign(f, FLIGHT_RISK, FlightRiskColumn(classes, proba))
  }

  function WithCategories(f: Frame): (r: Result<Frame, Error>)
    requires Shaped(f)
    ensures r.Ok? ==> Shaped(r.value) && r.value.rows == f.rows && f.columns <= r.value.columns
  {
    var risks :- NumericColumn(f, FLIGHT_RISK);
    Ok(Assign(f, RISK_CATEGORY, Summary.Categorised(risks)))
  }

  function WithReasons(f: Frame): (r: Result<Frame, Error>)
    requires Shaped(f)
    ensures r.Ok? ==> Shaped(r.value) && r.value.rows == f.rows && f.columns <= r.value.columns
  {
    var ds :- DriverRows(f);
    Ok(Assign(f, RISK_REASONS, ReasonColumn(ds)))
  }

  /** The columns the classifier reads are numeric throughout, as the scaler
      demands of every feature column. */
  predicate FeaturesNumeric(f: Frame)
    requires Shaped(f)
  {
    forall j, r :: 0 <= j < |f.columns| && f.columns[j] in FEATURES && 0 <= r < f.rows ==>
      AsNumber(f.data[j][r]).Some?
  }

  // Facts about lookup and assignment.

  lemma {:induction false} CountAppend(columns: seq<string>, x: string, name: string)
    ensures Count(columns + [x], name) == Count(columns, name) + (if x == name then 1 else 0)
  {
    if columns != [] {
      assert (columns + [x])[1..] == columns[1..] + [x];
      CountAppend(columns[1..], x, name);
    }
  }

  lemma IndexOfAppend(columns: seq<string>, x: string, name: string)
    requires name in columns + [x]
    ensures IndexOf(columns + [x], name) == if name in columns then IndexOf(columns, name) else |columns|
  {
    var j := IndexOf(columns + [x], name);
    if name in columns {
      var i := IndexOf(columns, name);
      assert (columns + [x])[i] == name;
    }
  }

  /** Writing a column adds its name once when it was absent and leaves every
      other name's count alone. */
  lemma AssignCount(f: Frame, name: string, values: seq<Cell>, other: string)
    requires Shaped(f) && |values| == f.rows
    ensures Count(Assign(f, name, values).columns, other) ==
            Count(f.columns, other) + (if other == name && name !in f.columns then 1 else 0)
  {
    if name !in f.columns {
      CountAppend(f.columns, name, other);
    }
  }

  /** Reading a column straight after writing it gives back what was written,
      unless the name was already repeated, in which case every copy was
      overwritten and the read is ambiguous. */
  lemma AssignThenLookup(f: Frame, name: string, values: seq<Cell>)
    requires Shaped(f) && |values| == f.rows
    ensures Lookup(Assign(f, name, values), name) ==
            if Count(f.columns, name) <= 1 then Ok(values) else Err(AmbiguousColumn(name))
  {
    if name !in f.columns {
      CountAppend(f.columns, name, name);
      IndexOfAppend(f.columns, name, name);
    }
  }

  /** Writing one column leaves what every other name reads unchanged. */
  lemma AssignKeepsOthers(f: Frame, name: string, values: seq<Cell>, other: string)
    requires Shaped(f) && |values| == f.rows && other != name
    ensures Lookup(Assign(f, name, values), other) == Lookup(f, other)
  {
    if name !in f.columns {
      CountAppend(f.columns, name, other);
      if other in f.columns {
        IndexOfAppend(f.columns, name, other);
      }
    }
  }

  /** Writing a column that is not a driver leaves the drivers unchanged. */
  lemma AssignKeepsDrivers(f: Frame, name: string, values: seq<Cell>)
    requires Shaped(f) && |values| == f.rows
    requires name != SATISFACTION && name != ENGAGEMENT && name != LAST_HIKE
    requires name != OVERTIME && name != DISTANCE
    ensures DriverRows(Assign(f, name, values)) == DriverRows(f)
  {
    var g := Assign(f, name, values);
    AssignKeepsOthers(f, name, values, SATISFACTION);
    AssignKeepsOthers(f, name, values, ENGAGEMENT);
    AssignKeepsOthers(f, name, values, LAST_HIKE);
    AssignKeepsOthers(f, name, values, OVERTIME);
    AssignKeepsOthers(f, name, values, DISTANCE);
    SameLookupSameNumbers(f, g, SATISFACTION);
    SameLookupSameNumbers(f, g, ENGAGEMENT);
    SameLookupSameNumbers(f, g, LAST_HIKE);
    SameLookupSameNumbers(f, g, OVERTIME);
    SameLookupSameNumbers(f, g, DISTANCE);
  }

  lemma SameLookupSameNumbers(f: Frame, g: Frame, name: string)
    requires Shaped(f) && Shaped(g) && f.rows == g.rows && Lookup(f, name) == Lookup(g, name)
    ensures NumericColumn(f, name) == NumericColumn(g, name)
  {
  }

  /** The target label is not among the classifier's features. */
  lemma LeftIsNoFeature()
    ensures LEFT !in FEATURES
  {
    assert |LEFT| == 4;
    assert forall i :: 0 <= i < |FEATURES| ==> |FEATURES[i]| != 4;
  }

  /** Writing a column that is not a feature leaves the features as they were. */
  lemma AssignKeepsFeatures(f: Frame, name: string, values: seq<Cell>)
    requires Shaped(f) && |values| == f.rows && name !in FEATURES
    ensures FeaturesNumeric(Assign(f, name, values)) == FeaturesNumeric(f)
  {
    var g := Assign(f, name, values);
    // Every feature column of one table is the same column of the other.
    forall j | 0 <= j < |g.columns| && g.columns[j] in FEATURES
      ensures j < |f.columns| && f.columns[j] == g.columns[j] && f.data[j] == g.data[j]
    {
    }
    forall j | 0 <= j < |f.columns| && f.columns[j] in FEATURES
      ensures g.columns[j] == f.columns[j] && g.data[j] == f.data[j]
    {
    }
    if FeaturesNumeric(g) {
      forall j, r | 0 <= j < |f.columns| && f.columns[j] in FEATURES && 0 <= r < f.rows
        ensures AsNumber(f.data[j][r]).Some?
      {
        assert AsNumber(g.data[j][r]).Some?;
      }
    }
    if FeaturesNumeric(f) {
      forall j, r | 0 <= j < |g.columns| && g.columns[j] in FEATURES && 0 <= r < g.rows
        ensures AsNumber(g.data[j][r]).Some?
      {
        assert AsNumber(f.data[j][r]).Some?;
      }
    }
  }

  /** A numeric column of whole-percentage floats reads back as the risks. */
  lemma FlightRiskReadsBack(f: Frame, classes: seq<int>, proba: seq<seq<real>>)
    requires Shaped(f) && Predicted(classes, proba, f.rows)
    requires Lookup(f, FLIGHT_RISK) == Ok(FlightRiskColumn(classes, proba))
    ensures NumericColumn(f, FLIGHT_RISK) == Ok(FlightRisks(classes, proba))
  {
    var col := FlightRiskColumn(classes, proba);
    var risks := FlightRisks(classes, proba);
    assert forall i :: 0 <= i < |col| ==> AsNumber(col[i]) == Some(risks[i]);
    assert Numbers(col) == risks;
  }

  /** After filling, every driver column is present, so reading the drivers
      can only fail on a repeated or non-numeric column. */
  lemma DriversPresentAfterFill(f: Frame, draws: seq<seq<Cell>>)
    requires Shaped(f) && DrawsFit(draws, f.rows)
    ensures var g := WithDefaults(f, draws);
            Shaped(g) && (DriverRows(g).Err? ==> !DriverRows(g).error.MissingColumn?)
  {
    var g := WithDefaults(f, draws);
    DriverNames();
    assert SPECS[0].name in g.columns && SPECS[1].name in g.columns && SPECS[2].name in g.columns;
    assert SPECS[3].name in g.columns && SPECS[8].name in g.columns;
    DriversPresent(g);
  }

  /** The five driver columns are among the keys the filler supplies. */
  lemma DriverNames()
    ensures SPECS[0].name == SATISFACTION && SPECS[1].name == ENGAGEMENT
    ensures SPECS[2].name == LAST_HIKE && SPECS[3].name == OVERTIME && SPECS[8].name == DISTANCE
  {
  }

  /** A table holding every driver column fails to read them only on a
      repeated or non-numeric column. */
  lemma DriversPresent(g: Frame)
    requires Shaped(g)
    requires SATISFACTION in g.columns && ENGAGEMENT in g.columns && LAST_HIKE in g.columns
    requires OVERTIME in g.columns && DISTANCE in g.columns
    ensures DriverRows(g).Err? ==> !DriverRows(g).error.MissingColumn?
  {
    ColumnPresent(g, SATISFACTION);
    ColumnPresent(g, ENGAGEMENT);
    ColumnPresent(g, LAST_HIKE);
    ColumnPresent(g, OVERTIME);
    ColumnPresent(g, DISTANCE);
  }

  lemma ColumnPresent(g: Frame, name: string)
    requires Shaped(g) && name in g.columns
    ensures NumericColumn(g, name).Err? ==> !NumericColumn(g, name).error.MissingColumn?
  {
  }

  /** The uploaded table, updated in place by each step of the run. */
  class Table {
    var columns: seq<string>
    var data: seq<seq<Cell>>
    var rows: nat

    function View(): Frame
      reads this
    {
      Frame(columns, data, rows)
    }

    ghost predicate Valid()
      reads this
    {
      Shaped(View())
    }

    constructor (columns: seq<string>, data: seq<seq<Cell>>, rows: nat)
      requires Shaped(Frame(columns, data, rows))
      ensures Valid() && View() == Frame(columns, data, rows)
    {
      this.columns := columns;
      this.data := data;
      this.rows := rows;
    }

    /** Lower-cases every header and turns its spaces into underscores. */
    method NormaliseHeaders()
      requires Valid()
      modifies this
      ensures Valid() && View() == Normalised(old(View()))
    {
      columns := NormaliseAll(columns);
    }

    /** Appends, in the order of the defaults table, each default column whose
        name is not yet a header, filled with its draw. */
    method FillDefaults(draws: seq<seq<Cell>>)
      requires Valid() && DrawsFit(draws, rows)
      modifies this
      ensures Valid() && View() == WithDefaults(old(View()), draws)
    {
      var k := 0;
      while k < |SPECS|
        invariant 0 <= k <= |SPECS| && rows == old(rows)
        invariant Valid()
        invariant FillFrom(DefaultNames(), columns, data, draws, k) ==
                  Filled(old(columns), old(data), draws)
      {
        if SPECS[k].name !in columns {
          columns := columns + [SPECS[k].name];
          data := data + [draws[k]];
        }
        k := k + 1;
      }
    }

    /** Derives the `left` label of every row from its drivers. */
    method LabelLeavers() returns (outcome: Outcome<Error>)
      requires Valid()
      modifies this
      ensures Valid()
      ensures match WithLeft(old(View()))
              case Ok(g) => outcome == Pass && View() == g
              case Err(e) => outcome == Fail(e) && View() == old(View())
    {
      var r := WithLeft(View());
      assert r == WithLeft(old(View()));
      if r.Ok? {
        columns, data := r.value.columns, r.value.data;
        outcome := Pass;
      } else {
        outcome := Fail(r.error);
      }
    }

    /** Stores the classifier's flight risk of every row. */
    method AddFlightRisk(classes: seq<int>, proba: seq<seq<real>>)
      requires Valid() && Predicted(classes, proba, rows)
      modifies this
      ensures Valid() && View() == WithFlightRisk(old(View()), classes, proba)
    {
      var g := WithFlightRisk(View(), classes, proba);
      columns, data := g.columns, g.data;
    }

    /** Labels every row with its risk tier. */
    method Categorise() returns (outcome: Outcome<Error>)
      requires Valid()
      modifies this
      ensures Valid()
      ensures match WithCategories(old(View()))
              case Ok(g) => outcome == Pass && View() == g
              case Err(e) => outcome == Fail(e) && View() == old(View())
    {
      var r := WithCategories(View());
      assert r == WithCategories(old(View()));
      if r.Ok? {
        columns, data := r.value.columns, r.value.data;
        outcome := Pass;
      } else {
        outcome := Fail(r.error);
      }
    }

    /** Explains every row by the first three warning signs it shows. */
    method Explain() returns (outcome: Outcome<Error>)
      requires Valid()
      modifies this
      ensures Valid()
      ensures match WithReasons(old(View()))
              case Ok(g) => outcome == Pass && View() == g
              case Err(e) => outcome == Fail(e) && View() == old(View())
    {
      var r := WithReasons(View());
      assert r == WithReasons(old(View()));
      if r.Ok? {
        columns, data := r.value.columns, r.value.data;
        outcome := Pass;
      } else {
        outcome := Fail(r.error);
      }
    }
  }
}
