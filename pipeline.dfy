/** One run of the dashboard over an uploaded table: normalise the headers,
    fill in missing drivers, label leavers, score the flight risk, tier it and
    explain it. */
module Pipeline {
  import opened Wrappers
  import opened Cells
  import opened Defaults
  import opened Headers
  import opened Tables
  import opened Summary
  import opened Prediction

  /** Where a run stopped: the table as the last completed step left it, and
      whether every step completed. */
  datatype Run = Run(table: Frame, outcome: Outcome<Error>)

  /** The table once its headers are normalised and its defaults filled. */
  function Prepared(f: Frame, draws: seq<seq<Cell>>): (g: Frame)
    requires Shaped(f) && DrawsFit(draws, f.rows)
    ensures Shaped(g) && g.rows == f.rows
    ensures NormaliseAll(f.columns) <= g.columns && f.data <= g.data
    ensures forall k :: 0 <= k < |SPECS| ==> SPECS[k].name in g.columns
  {
    WithDefaults(Normalised(f), draws)
  }

  /** The whole run as a function of the upload, the default draws and the
      classifier's output. */
  function Scored(f: Frame, draws: seq<seq<Cell>>, classes: seq<int>, proba: seq<seq<real>>): (r: Run)
    requires Shaped(f) && DrawsFit(draws, f.rows) && Predicted(classes, proba, f.rows)
    ensures Shaped(r.table) && r.table.rows == f.rows
    ensures NormaliseAll(f.columns) <= r.table.columns
    ensures r.outcome == Pass ==> r.table.rows >= 2
  {
    ScoredFrom(Prepared(f, draws), classes, proba)
  }

  /** The run from the prepared table on. The target column is read back as
      `y` before the split; the split needs two rows; the scaler needs numeric
      features. */
  function ScoredFrom(p: Frame, classes: seq<int>, proba: seq<seq<real>>): (r: Run)
    requires Shaped(p) && Predicted(classes, proba, p.rows)
    ensures Shaped(r.table) && r.table.rows == p.rows && p.columns <= r.table.columns
    ensures r.outcome == Pass ==> r.table.rows >= 2
  {
    match WithLeft(p)
    case Err(e) => Run(p, Fail(e))
    case Ok(labelled) =>
      if Lookup(labelled, LEFT).Err? then Run(labelled, Fail(Lookup(labelled, LEFT).error))
      else if labelled.rows < 2 then Run(labelled, Fail(TooFewRows(labelled.rows)))
      else if !FeaturesNumeric(labelled) then Run(labelled, Fail(NonNumericFeatures))
      else
        Explained(WithFlightRisk(labelled, classes, proba))
  }

  /** The last two steps of a run: the risk category, then the reasons. */
  function Explained(risked: Frame): (r: Run)
    requires Shaped(risked)
    ensures Shaped(r.table) && r.table.rows == risked.rows && risked.columns <= r.table.columns
  {
    match WithCategories(risked)
    case Err(e) => Run(risked, Fail(e))
    case Ok(categorised) =>
      match WithReasons(categorised)
      case Err(e) => Run(categorised, Fail(e))
      case Ok(explained) => Run(explained, Pass)
  }

  /** The conditions under which nothing stops the run. */
  predicate Completes(p: Frame)
    requires Shaped(p)
  {
    DriverRows(p).Ok? && Count(p.columns, LEFT) <= 1 && p.rows >= 2 &&
    FeaturesNumeric(p) && Count(p.columns, FLIGHT_RISK) <= 1
  }

  /** Runs every step on the table in place, stopping at the first failure. */
  method Analyse(t: Table, draws: seq<seq<Cell>>, classes: seq<int>, proba: seq<seq<real>>)
    returns (outcome: Outcome<Error>)
    requires t.Valid() && DrawsFit(draws, t.rows) && Predicted(classes, proba, t.rows)
    modifies t
    ensures t.Valid()
    ensures Run(t.View(), outcome) == Scored(old(t.View()), draws, classes, proba)
  {
    ghost var p := Prepared(t.View(), draws);
    t.NormaliseHeaders();
    t.FillDefaults(draws);
    assert t.View() == p;
    outcome := t.LabelLeavers();
    if outcome.Fail? {
      return;
    }
    var target := Lookup(t.View(), LEFT);
    if target.Err? {
      return Fail(target.error);
    }
    if t.rows < 2 {
      return Fail(TooFewRows(t.rows));
    }
    if !FeaturesNumeric(t.View()) {
      return Fail(NonNumericFeatures);
    }
    t.AddFlightRisk(classes, proba);
    outcome := t.Categorise();
    if outcome.Fail? {
      return;
    }
    outcome := t.Explain();
  }

  /** The run's result when nothing stops it: the prepared table with its four
      derived columns written in order. */
  lemma ScoredUnfold(p: Frame, classes: seq<int>, proba: seq<seq<real>>)
    requires Shaped(p) && Predicted(classes, proba, p.rows) && Completes(p)
    ensures var ds := DriverRows(p).value;
            var labelled := Assign(p, LEFT, LeftColumn(ds));
            var risked := Assign(labelled, FLIGHT_RISK, FlightRiskColumn(classes, proba));
            var categorised := Assign(risked, RISK_CATEGORY, Categorised(FlightRisks(classes, proba)));
            ScoredFrom(p, classes, proba) == Run(Assign(categorised, RISK_REASONS, ReasonColumn(ds)), Pass)
  {
    var ds := DriverRows(p).value;
    var left := LeftColumn(ds);
    var labelled := Assign(p, LEFT, left);
    assert WithLeft(p) == Ok(labelled);
    AssignThenLookup(p, LEFT, left);
    LeftIsNoFeature();
    AssignKeepsFeatures(p, LEFT, left);
    AssignKeepsDrivers(p, LEFT, left);
    AssignCount(p, LEFT, left, FLIGHT_RISK);
    var col := FlightRiskColumn(classes, proba);
    var risked := Assign(labelled, FLIGHT_RISK, col);
    assert WithFlightRisk(labelled, classes, proba) == risked;
    AssignThenLookup(labelled, FLIGHT_RISK, col);
    FlightRiskReadsBack(risked, classes, proba);
    var categories := Categorised(FlightRisks(classes, proba));
    var categorised := Assign(risked, RISK_CATEGORY, categories);
    assert WithCategories(risked) == Ok(categorised);
    AssignKeepsDrivers(labelled, FLIGHT_RISK, col);
    AssignKeepsDrivers(risked, RISK_CATEGORY, categories);
    assert WithReasons(categorised) == Ok(Assign(categorised, RISK_REASONS, ReasonColumn(ds)));
  }

  /** A run completes exactly when the drivers are numeric and unrepeated, the
      target and flight-risk names are not repeated, there are at least two
      rows and every feature is numeric. */
  lemma ScoredSucceeds(p: Frame, classes: seq<int>, proba: seq<seq<real>>)
    requires Shaped(p) && Predicted(classes, proba, p.rows)
    ensures ScoredFrom(p, classes, proba).outcome == Pass <==> Completes(p)
  {
    if Completes(p) {
      ScoredUnfold(p, classes, proba);
    } else if DriverRows(p).Ok? {
      var ds := DriverRows(p).value;
      var left := LeftColumn(ds);
      var labelled := Assign(p, LEFT, left);
      assert WithLeft(p) == Ok(labelled);
      AssignThenLookup(p, LEFT, left);
      LeftIsNoFeature();
    AssignKeepsFeatures(p, LEFT, left);
      if Count(p.columns, LEFT) <= 1 && p.rows >= 2 && FeaturesNumeric(p) {
        AssignCount(p, LEFT, left, FLIGHT_RISK);
        var col := FlightRiskColumn(classes, proba);
        AssignThenLookup(labelled, FLIGHT_RISK, col);
        assert WithCategories(Assign(labelled, FLIGHT_RISK, col)).Err?;
      }
    }
  }

  /** What a completed run leaves behind: every prepared header still in
      place, and the derived columns holding the leaver label and reasons of
      each row's drivers, the classifier's flight risk and its tier. A derived
      column the upload already carried twice is overwritten in both copies
      and so reads as ambiguous. */
  lemma CompletedColumns(p: Frame, classes: seq<int>, proba: seq<seq<real>>)
    requires Shaped(p) && Predicted(classes, proba, p.rows) && Completes(p)
    ensures var g := ScoredFrom(p, classes, proba).table;
            var ds := DriverRows(p).value;
            && Shaped(g) && g.rows == p.rows && p.columns <= g.columns
            && Lookup(g, LEFT) == Ok(LeftColumn(ds))
            && Lookup(g, FLIGHT_RISK) == Ok(FlightRiskColumn(classes, proba))
            && Lookup(g, RISK_CATEGORY) ==
                 (if Count(p.columns, RISK_CATEGORY) <= 1 then Ok(Categorised(FlightRisks(classes, proba)))
                  else Err(AmbiguousColumn(RISK_CATEGORY)))
            && Lookup(g, RISK_REASONS) ==
                 (if Count(p.columns, RISK_REASONS) <= 1 then Ok(ReasonColumn(ds))
                  else Err(AmbiguousColumn(RISK_REASONS)))
            && forall name :: name !in [LEFT, FLIGHT_RISK, RISK_CATEGORY, RISK_REASONS] ==>
                 Lookup(g, name) == Lookup(p, name)
  {
    CompletedKeepsOthers(p, classes, proba);
    CompletedLeft(p, classes, proba);
    CompletedFlightRisk(p, classes, proba);
    CompletedCategory(p, classes, proba);
    CompletedReasons(p, classes, proba);
  }

  lemma CompletedKeepsOthers(p: Frame, classes: seq<int>, proba: seq<seq<real>>)
    requires Shaped(p) && Predicted(classes, proba, p.rows) && Completes(p)
    ensures var g := ScoredFrom(p, classes, proba).table;
            forall name :: name !in [LEFT, FLIGHT_RISK, RISK_CATEGORY, RISK_REASONS] ==>
              Lookup(g, name) == Lookup(p, name)
  {
    ScoredUnfold(p, classes, proba);
    var ds := DriverRows(p).value;
    var left := LeftColumn(ds);
    var col := FlightRiskColumn(classes, proba);
    var labelled := Assign(p, LEFT, left);
    var risked := Assign(labelled, FLIGHT_RISK, col);
    var categories := Categorised(FlightRisks(classes, proba));
    var categorised := Assign(risked, RISK_CATEGORY, categories);
    forall name | name !in [LEFT, FLIGHT_RISK, RISK_CATEGORY, RISK_REASONS]
      ensures Lookup(ScoredFrom(p, classes, proba).table, name) == Lookup(p, name)
    {
      AssignKeepsOthers(p, LEFT, left, name);
      AssignKeepsOthers(labelled, FLIGHT_RISK, col, name);
      AssignKeepsOthers(risked, RISK_CATEGORY, categories, name);
      AssignKeepsOthers(categorised, RISK_REASONS, ReasonColumn(ds), name);
    }
  }

  lemma CompletedLeft(p: Frame, classes: seq<int>, proba: seq<seq<real>>)
    requires Shaped(p) && Predicted(classes, proba, p.rows) && Completes(p)
    ensures var g := ScoredFrom(p, classes, proba).table;
            && Shaped(g) && g.rows == p.rows && p.columns <= g.columns
            && Lookup(g, LEFT) == Ok(LeftColumn(DriverRows(p).value))
  {
    ScoredUnfold(p, classes, proba);
    var ds := DriverRows(p).value;
    var left := LeftColumn(ds);
    var col := FlightRiskColumn(classes, proba);
    var labelled := Assign(p, LEFT, left);
    var risked := Assign(labelled, FLIGHT_RISK, col);
    var categories := Categorised(FlightRisks(classes, proba));
    var categorised := Assign(risked, RISK_CATEGORY, categories);
    // Written first, the label survives three later writes.
    AssignThenLookup(p, LEFT, left);
    AssignKeepsOthers(labelled, FLIGHT_RISK, col, LEFT);
    AssignKeepsOthers(risked, RISK_CATEGORY, categories, LEFT);
    AssignKeepsOthers(categorised, RISK_REASONS, ReasonColumn(ds), LEFT);
  }

  lemma CompletedFlightRisk(p: Frame, classes: seq<int>, proba: seq<seq<real>>)
    requires Shaped(p) && Predicted(classes, proba, p.rows) && Completes(p)
    ensures var g := ScoredFrom(p, classes, proba).table;
            Shaped(g) && Lookup(g, FLIGHT_RISK) == Ok(FlightRiskColumn(classes, proba))
  {
    ScoredUnfold(p, classes, proba);
    var ds := DriverRows(p).value;
    var left := LeftColumn(ds);
    var col := FlightRiskColumn(classes, proba);
    var labelled := Assign(p, LEFT, left);
    var risked := Assign(labelled, FLIGHT_RISK, col);
    var categories := Categorised(FlightRisks(classes, proba));
    var categorised := Assign(risked, RISK_CATEGORY, categories);
    // The flight risk survives two later writes.
    AssignCount(p, LEFT, left, FLIGHT_RISK);
    AssignThenLookup(labelled, FLIGHT_RISK, col);
    AssignKeepsOthers(risked, RISK_CATEGORY, categories, FLIGHT_RISK);
    AssignKeepsOthers(categorised, RISK_REASONS, ReasonColumn(ds), FLIGHT_RISK);
  }

  lemma CompletedCategory(p: Frame, classes: seq<int>, proba: seq<seq<real>>)
    requires Shaped(p) && Predicted(classes, proba, p.rows) && Completes(p)
    ensures var g := ScoredFrom(p, classes, proba).table;
            && Shaped(g)
            && Lookup(g, RISK_CATEGORY) ==
                 (if Count(p.columns, RISK_CATEGORY) <= 1 then Ok(Categorised(FlightRisks(classes, proba)))
                  else Err(AmbiguousColumn(RISK_CATEGORY)))
  {
    ScoredUnfold(p, classes, proba);
    var ds := DriverRows(p).value;
    var left := LeftColumn(ds);
    var col := FlightRiskColumn(classes, proba);
    var labelled := Assign(p, LEFT, left);
    var risked := Assign(labelled, FLIGHT_RISK, col);
    var categories := Categorised(FlightRisks(classes, proba));
    var categorised := Assign(risked, RISK_CATEGORY, categories);
    // The tier survives the one write after it.
    AssignCount(p, LEFT, left, RISK_CATEGORY);
    AssignCount(labelled, FLIGHT_RISK, col, RISK_CATEGORY);
    AssignThenLookup(risked, RISK_CATEGORY, categories);
    AssignKeepsOthers(categorised, RISK_REASONS, ReasonColumn(ds), RISK_CATEGORY);
  }

  lemma CompletedReasons(p: Frame, classes: seq<int>, proba: seq<seq<real>>)
    requires Shaped(p) && Predicted(classes, proba, p.rows) && Completes(p)
    ensures var g := ScoredFrom(p, classes, proba).table;
            && Shaped(g)
            && Lookup(g, RISK_REASONS) ==
                 (if Count(p.columns, RISK_REASONS) <= 1 then Ok(ReasonColumn(DriverRows(p).value))
                  else Err(AmbiguousColumn(RISK_REASONS)))
  {
    ScoredUnfold(p, classes, proba);
    var ds := DriverRows(p).value;
    var left := LeftColumn(ds);
    var col := FlightRiskColumn(classes, proba);
    var labelled := Assign(p, LEFT, left);
    var risked := Assign(labelled, FLIGHT_RISK, col);
    var categories := Categorised(FlightRisks(classes, proba));
    var categorised := Assign(risked, RISK_CATEGORY, categories);
    // The reasons are written last.
    AssignCount(p, LEFT, left, RISK_REASONS);
    AssignCount(labelled, FLIGHT_RISK, col, RISK_REASONS);
    AssignCount(risked, RISK_CATEGORY, categories, RISK_REASONS);
    AssignThenLookup(categorised, RISK_REASONS, ReasonColumn(ds));
  }

  /** A completed run keeps every uploaded header, normalised, and holds
      every default column. */
  lemma ScoredKeepsHeaders(f: Frame, draws: seq<seq<Cell>>, classes: seq<int>, proba: seq<seq<real>>)
    requires Shaped(f) && DrawsFit(draws, f.rows) && Predicted(classes, proba, f.rows)
    requires Scored(f, draws, classes, proba).outcome == Pass
    ensures var g := Scored(f, draws, classes, proba).table;
            && Completes(Prepared(f, draws))
            && NormaliseAll(f.columns) <= g.columns
            && forall k :: 0 <= k < |SPECS| ==> SPECS[k].name in g.columns
  {
    var p := Prepared(f, draws);
    ScoredSucceeds(p, classes, proba);
    CompletedColumns(p, classes, proba);
    var g := Scored(f, draws, classes, proba).table;
    forall k | 0 <= k < |SPECS| ensures SPECS[k].name in g.columns {
      var j :| 0 <= j < |p.columns| && p.columns[j] == SPECS[k].name;
      assert g.columns[j] == SPECS[k].name;
    }
  }

  /** The headline figures of a completed run: the number of high-risk rows
      is the number whose flight risk is at least 70, and the cost at risk is
      the replacement cost for each of them. */
  lemma CompletedHeadlines(p: Frame, classes: seq<int>, proba: seq<seq<real>>)
    requires Shaped(p) && Predicted(classes, proba, p.rows) && Completes(p)
    requires Count(p.columns, RISK_CATEGORY) <= 1
    ensures var g := ScoredFrom(p, classes, proba).table;
            var risks := FlightRisks(classes, proba);
            && Lookup(g, RISK_CATEGORY).Ok?
            && HighRiskCount(Lookup(g, RISK_CATEGORY).value) == CountAtLeast(risks, 70.0)
            && CostAtRisk(Lookup(g, RISK_CATEGORY).value) == REPLACEMENT_COST * CountAtLeast(risks, 70.0)
  {
    CompletedColumns(p, classes, proba);
    CostCountsHighRisks(FlightRisks(classes, proba));
  }

  /** The `flight_risk` column of a completed run reads back, as numbers,
      as the flight risk of every row: the input of the top-employees view. */
  lemma CompletedRiskColumn(p: Frame, classes: seq<int>, proba: seq<seq<real>>)
    requires Shaped(p) && Predicted(classes, proba, p.rows) && Completes(p)
    ensures NumericColumn(ScoredFrom(p, classes, proba).table, FLIGHT_RISK) == Ok(FlightRisks(classes, proba))
  {
    CompletedFlightRisk(p, classes, proba);
    FlightRiskReadsBack(ScoredFrom(p, classes, proba).table, classes, proba);
  }

  /** The top-employees view over the predicted flight risks: at most ten
      rows in non-increasing order, and no row left out ranks above the last
      one shown. */
  lemma TopRisks(classes: seq<int>, proba: seq<seq<real>>)
    requires Predicted(classes, proba, |proba|)
    ensures var risks := FlightRisks(classes, proba);
            var top := TopRows(risks);
            && |top| == (if |proba| <= TOP_ROWS then |proba| else TOP_ROWS)
            && SortedDesc(top)
            && (forall k :: 0 <= k < |proba| && Ranked(k, risks[k]) !in top ==> risks[k] <= top[|top| - 1].risk)
  {
    TopRowsOrdered(FlightRisks(classes, proba));
    TopRowsBest(FlightRisks(classes, proba));
  }

  /** Every row of the top-employees view carries its own row's flight risk. */
  lemma TopRisksOwnRows(classes: seq<int>, proba: seq<seq<real>>)
    requires Predicted(classes, proba, |proba|)
    ensures forall i :: 0 <= i < |TopRows(FlightRisks(classes, proba))| ==>
              var x := TopRows(FlightRisks(classes, proba))[i];
              x.row < |proba| && x.risk == FlightRisk(classes, proba[x.row]) as real
  {
    var top := TopRows(FlightRisks(classes, proba));
    forall i | 0 <= i < |top|
      ensures top[i].row < |proba| && top[i].risk == FlightRisk(classes, proba[top[i].row]) as real
    {
      TopRiskRow(classes, proba, top[i]);
    }
  }

  /** A row of the top-employees view carries its own row's flight risk. */
  lemma TopRiskRow(classes: seq<int>, proba: seq<seq<real>>, x: Ranked)
    requires Predicted(classes, proba, |proba|) && x in TopRows(FlightRisks(classes, proba))
    ensures x.row < |proba| && x.risk == FlightRisk(classes, proba[x.row]) as real
  {
    TopRowOwnRisk(FlightRisks(classes, proba), x);
  }
}
