/** The default filler: for each of nine named fields whose column is absent,
    a column of synthesised values is appended. The random draws are supplied by
    the caller; each is constrained to the range its generator can produce. */
module Defaults {
  import opened Cells

  /** `randint(lo, hi)` draws integers in [lo, hi); `uniform(lo, hi)` reals in [lo, hi). */
  datatype Generator = RandInt(lo: int, hi: int) | Uniform(low: real, high: real)

  datatype DefaultSpec = DefaultSpec(name: string, generator: Generator)

  /** The `defaults` dictionary, in its insertion order. */
  const SPECS: seq<DefaultSpec> := [
    DefaultSpec("satisfaction_score", RandInt(1, 10)),
    DefaultSpec("engagement_score", RandInt(1, 10)),
    DefaultSpec("last_hike_months", RandInt(0, 36)),
    DefaultSpec("overtime_hours", RandInt(0, 80)),
    DefaultSpec("age", RandInt(22, 55)),
    DefaultSpec("years_at_company", RandInt(0, 15)),
    DefaultSpec("salary_lakhs", Uniform(3.0, 20.0)),
    DefaultSpec("work_life_balance", RandInt(1, 5)),
    DefaultSpec("distance_from_home", RandInt(1, 40))
  ]

  /** The `features` list handed to the classifier. */
  const FEATURES: seq<string> := [
    "age", "years_at_company", "satisfaction_score",
    "last_hike_months", "overtime_hours",
    "engagement_score", "salary_lakhs",
    "work_life_balance", "distance_from_home"
  ]

  /** A value the generator can produce. */
  predicate Admissible(g: Generator, c: Cell) {
    match g
    case RandInt(lo, hi) => c.Int? && lo <= c.i < hi
    case Uniform(low, high) => c.Real? && low <= c.x < high
  }

  /** One column of draws per default, one draw per row, each admissible. */
  predicate DrawsFit(draws: seq<seq<Cell>>, rows: nat) {
    |draws| == |SPECS| &&
    forall k :: 0 <= k < |SPECS| ==>
      |draws[k]| == rows && forall r :: 0 <= r < rows ==> Admissible(SPECS[k].generator, draws[k][r])
  }

  /** The names of the nine defaults, in dictionary order. */
  function DefaultNames(): (r: seq<string>)
    ensures |r| == |SPECS| && forall k :: 0 <= k < |SPECS| ==> r[k] == SPECS[k].name
  {
    seq(|SPECS|, k requires 0 <= k < |SPECS| => SPECS[k].name)
  }

  predicate Distinct(names: seq<string>) {
    forall i, j :: 0 <= i < j < |names| ==> names[i] != names[j]
  }

  lemma DefaultNamesDistinct()
    ensures Distinct(DefaultNames())
  {
  }

  /** The fill loop from the k-th key on: a key already among the columns is
      skipped, any other is appended together with its draws. It never changes
      a column that is already there: the header row and the columns it starts
      from are a prefix of the result, which is longer by at most one column
      per remaining key. */
  function FillFrom(names: seq<string>, columns: seq<string>, data: seq<seq<Cell>>,
                    draws: seq<seq<Cell>>, k: nat): (r: (seq<string>, seq<seq<Cell>>))
    requires k <= |names| && |draws| == |names|
    ensures |columns| <= |r.0| <= |columns| + (|names| - k)
    ensures |r.1| - |data| == |r.0| - |columns|
    ensures r.0[..|columns|] == columns && r.1[..|data|] == data
    decreases |names| - k
  {
    if k == |names| then (columns, data)
    else if names[k] in columns then FillFrom(names, columns, data, draws, k + 1)
    else FillFrom(names, columns + [names[k]], data + [draws[k]], draws, k + 1)
  }

  /** The whole fill loop over the `defaults` dictionary. */
  function Filled(columns: seq<string>, data: seq<seq<Cell>>, draws: seq<seq<Cell>>)
    : (r: (seq<string>, seq<seq<Cell>>))
    requires |draws| == |SPECS|
    ensures columns <= r.0 && data <= r.1
    ensures |r.0| - |columns| == |r.1| - |data| <= |SPECS|
  {
    FillFrom(DefaultNames(), columns, data, draws, 0)
  }

  /** The positions, from the k-th on, of the keys that are not columns. */
  function Missing(names: seq<string>, columns: seq<string>, k: nat): (m: seq<nat>)
    requires k <= |names|
    ensures |m| <= |names| - k
    ensures forall i :: 0 <= i < |m| ==> k <= m[i] < |names| && names[m[i]] !in columns
    ensures forall q :: k <= q < |names| && names[q] !in columns ==> q in m
    ensures forall i, j :: 0 <= i < j < |m| ==> m[i] < m[j]
    decreases |names| - k
  {
    if k == |names| then []
    else if names[k] in columns then Missing(names, columns, k + 1)
    else [k] + Missing(names, columns, k + 1)
  }

  function Pick<T>(xs: seq<T>, m: seq<nat>): (r: seq<T>)
    requires forall i :: 0 <= i < |m| ==> m[i] < |xs|
    ensures |r| == |m| && forall i :: 0 <= i < |m| ==> r[i] == xs[m[i]]
  {
    seq(|m|, i requires 0 <= i < |m| => xs[m[i]])
  }

  /** Checking each key against the growing header row is the same as checking
      it against the original one, because the keys are distinct: the loop
      appends exactly the missing keys, in order. `added` holds the keys
      appended before the k-th. */
  lemma {:induction false} FillAppendsMissing(names: seq<string>, columns: seq<string>,
                                             data: seq<seq<Cell>>, draws: seq<seq<Cell>>,
                                             k: nat, added: seq<nat>)
    requires k <= |names| && |draws| == |names| && Distinct(names)
    requires forall i :: 0 <= i < |added| ==> added[i] < k
    ensures var m := added + Missing(names, columns, k);
            FillFrom(names, columns + Pick(names, added), data + Pick(draws, added), draws, k)
              == (columns + Pick(names, m), data + Pick(draws, m))
    decreases |names| - k, 1
  {
    if k == |names| {
      assert added + Missing(names, columns, k) == added;
    } else {
      assert names[k] !in Pick(names, added) by {
        forall i | 0 <= i < |added| ensures Pick(names, added)[i] != names[k] {
          assert added[i] < k;
        }
      }
      if names[k] in columns {
        FillSkips(names, columns, data, draws, k, added);
      } else {
        FillAppends(names, columns, data, draws, k, added);
      }
    }
  }

  /** The step of the loop for a key that is already a column. */
  lemma {:induction false} FillSkips(names: seq<string>, columns: seq<string>,
                                    data: seq<seq<Cell>>, draws: seq<seq<Cell>>,
                                    k: nat, added: seq<nat>)
    requires k < |names| && |draws| == |names| && Distinct(names)
    requires forall i :: 0 <= i < |added| ==> added[i] < k
    requires names[k] in columns
    ensures var m := added + Missing(names, columns, k);
            FillFrom(names, columns + Pick(names, added), data + Pick(draws, added), draws, k)
              == (columns + Pick(names, m), data + Pick(draws, m))
    decreases |names| - k, 0
  {
    FillAppendsMissing(names, columns, data, draws, k + 1, added);
  }

  /** The step of the loop for a key that is not a column (nor appended yet). */
  lemma {:induction false} FillAppends(names: seq<string>, columns: seq<string>,
                                      data: seq<seq<Cell>>, draws: seq<seq<Cell>>,
                                      k: nat, added: seq<nat>)
    requires k < |names| && |draws| == |names| && Distinct(names)
    requires forall i :: 0 <= i < |added| ==> added[i] < k
    requires names[k] !in columns && names[k] !in Pick(names, added)
    ensures var m := added + Missing(names, columns, k);
            FillFrom(names, columns + Pick(names, added), data + Pick(draws, added), draws, k)
              == (columns + Pick(names, m), data + Pick(draws, m))
    decreases |names| - k, 0
  {
    var added' := added + [k];
    var cols, rows := columns + Pick(names, added), data + Pick(draws, added);
    FillStep(names, cols, rows, draws, k);
    PickSnoc(names, columns, added, k);
    PickSnoc(draws, data, added, k);
    FillAppendsMissing(names, columns, data, draws, k + 1, added');
    MissingStep(names, columns, k, added);
  }

  /** One turn of the loop for a key that is not yet a column. */
  lemma FillStep(names: seq<string>, columns: seq<string>, data: seq<seq<Cell>>,
                 draws: seq<seq<Cell>>, k: nat)
    requires k < |names| && |draws| == |names| && names[k] !in columns
    ensures FillFrom(names, columns, data, draws, k) ==
            FillFrom(names, columns + [names[k]], data + [draws[k]], draws, k + 1)
  {
  }

  /** Appending one more picked element. */
  lemma PickSnoc<T>(xs: seq<T>, base: seq<T>, added: seq<nat>, k: nat)
    requires k < |xs| && forall i :: 0 <= i < |added| ==> added[i] < |xs|
    ensures base + Pick(xs, added) + [xs[k]] == base + Pick(xs, added + [k])
  {
    assert Pick(xs, added + [k]) == Pick(xs, added) + [xs[k]];
  }

  /** A missing key heads the missing keys from it on. */
  lemma MissingStep(names: seq<string>, columns: seq<string>, k: nat, added: seq<nat>)
    requires k < |names| && names[k] !in columns
    ensures added + [k] + Missing(names, columns, k + 1) == added + Missing(names, columns, k)
  {
    assert Missing(names, columns, k) == [k] + Missing(names, columns, k + 1);
  }

  /** The whole loop appends exactly the missing keys and their draws. */
  lemma FillIsAppendMissing(names: seq<string>, columns: seq<string>,
                            data: seq<seq<Cell>>, draws: seq<seq<Cell>>)
    requires |draws| == |names| && Distinct(names)
    ensures var m := Missing(names, columns, 0);
            FillFrom(names, columns, data, draws, 0) == (columns + Pick(names, m), data + Pick(draws, m))
  {
    FillAppendsMissing(names, columns, data, draws, 0, []);
    assert columns + Pick(names, []) == columns && data + Pick(draws, []) == data;
    assert [] + Missing(names, columns, 0) == Missing(names, columns, 0);
  }

  /** `Filled`, spelled out: the original columns followed by the missing defaults. */
  lemma FilledUnfold(columns: seq<string>, data: seq<seq<Cell>>, draws: seq<seq<Cell>>)
    requires |draws| == |SPECS|
    ensures var m := Missing(DefaultNames(), columns, 0);
            Filled(columns, data, draws) == (columns + Pick(DefaultNames(), m), data + Pick(draws, m))
  {
    DefaultNamesDistinct();
    FillIsAppendMissing(DefaultNames(), columns, data, draws);
  }

  /** Afterwards every default name is a column. */
  lemma FillCoversDefaults(columns: seq<string>, data: seq<seq<Cell>>, draws: seq<seq<Cell>>)
    requires |draws| == |SPECS|
    ensures forall k :: 0 <= k < |SPECS| ==> SPECS[k].name in Filled(columns, data, draws).0
  {
    forall k | 0 <= k < |SPECS| ensures SPECS[k].name in Filled(columns, data, draws).0 {
      DefaultCovered(columns, data, draws, k);
    }
  }

  /** The k-th default is a column after the fill. */
  lemma DefaultCovered(columns: seq<string>, data: seq<seq<Cell>>, draws: seq<seq<Cell>>, k: nat)
    requires |draws| == |SPECS| && k < |SPECS|
    ensures SPECS[k].name in Filled(columns, data, draws).0
  {
    DefaultNamesDistinct();
    KeyCovered(DefaultNames(), columns, data, draws, k);
  }

  /** The k-th key is a column after the loop, whatever the key list. */
  lemma KeyCovered(names: seq<string>, columns: seq<string>, data: seq<seq<Cell>>,
                   draws: seq<seq<Cell>>, k: nat)
    requires |draws| == |names| && Distinct(names) && k < |names|
    ensures names[k] in FillFrom(names, columns, data, draws, 0).0
  {
    FillIsAppendMissing(names, columns, data, draws);
    var m := Missing(names, columns, 0);
    var cs := columns + Pick(names, m);
    if names[k] !in columns {
      var i :| 0 <= i < |m| && m[i] == k;
      assert cs[|columns| + i] == names[k];
    } else {
      var j :| 0 <= j < |columns| && columns[j] == names[k];
      assert cs[j] == names[k];
    }
  }

  /** Each appended column is a default that was missing, carrying that
      default's draws: one admissible value per row. */
  lemma FillAddsDraws(columns: seq<string>, data: seq<seq<Cell>>, draws: seq<seq<Cell>>, rows: nat)
    requires |columns| == |data| && DrawsFit(draws, rows)
    ensures var (cs, ds) := Filled(columns, data, draws);
      forall j :: |columns| <= j < |cs| ==>
        exists k :: 0 <= k < |SPECS| && SPECS[k].name !in columns &&
          cs[j] == SPECS[k].name && ds[j] == draws[k] && |ds[j]| == rows &&
          forall r :: 0 <= r < rows ==> Admissible(SPECS[k].generator, ds[j][r])
  {
    var (cs, ds) := Filled(columns, data, draws);
    forall j | |columns| <= j < |cs|
      ensures exists k :: 0 <= k < |SPECS| && SPECS[k].name !in columns &&
                cs[j] == SPECS[k].name && ds[j] == draws[k] && |ds[j]| == rows &&
                forall r :: 0 <= r < rows ==> Admissible(SPECS[k].generator, ds[j][r])
    {
      var k := AddedDefault(columns, data, draws, rows, j);
    }
  }

  /** The default behind the j-th appended column. */
  lemma AddedDefault(columns: seq<string>, data: seq<seq<Cell>>, draws: seq<seq<Cell>>, rows: nat, j: nat)
    returns (k: nat)
    requires |columns| == |data| && DrawsFit(draws, rows)
    requires |columns| <= j < |Filled(columns, data, draws).0|
    ensures var (cs, ds) := Filled(columns, data, draws);
            && k < |SPECS| && SPECS[k].name !in columns
            && cs[j] == SPECS[k].name && ds[j] == draws[k] && |ds[j]| == rows
            && forall r :: 0 <= r < rows ==> Admissible(SPECS[k].generator, ds[j][r])
  {
    k := FilledAt(columns, data, draws, j);
  }

  /** The j-th appended column is the name and the draws of a missing key. */
  lemma FilledAt(columns: seq<string>, data: seq<seq<Cell>>, draws: seq<seq<Cell>>, j: nat)
    returns (k: nat)
    requires |columns| == |data| && |draws| == |SPECS|
    requires |columns| <= j < |Filled(columns, data, draws).0|
    ensures k < |SPECS| && SPECS[k].name !in columns
    ensures Filled(columns, data, draws).0[j] == SPECS[k].name
    ensures Filled(columns, data, draws).1[j] == draws[k]
  {
    FilledUnfold(columns, data, draws);
    var m := Missing(DefaultNames(), columns, 0);
    var i := j - |columns|;
    k := m[i];
    assert Filled(columns, data, draws).0[j] == Pick(DefaultNames(), m)[i];
    assert Filled(columns, data, draws).1[j] == Pick(draws, m)[i];
  }

  /** Every name the classifier selects is one of the defaults, so after the
      fill the selection `df[features]` finds every one of them. */
  lemma FeaturesAfterFill(columns: seq<string>, data: seq<seq<Cell>>, draws: seq<seq<Cell>>, rows: nat)
    requires DrawsFit(draws, rows)
    ensures forall f :: f in FEATURES ==> f in Filled(columns, data, draws).0
  {
    FillCoversDefaults(columns, data, draws);
    assert FEATURES == [SPECS[4].name, SPECS[5].name, SPECS[0].name,
                        SPECS[2].name, SPECS[3].name, SPECS[1].name,
                        SPECS[6].name, SPECS[7].name, SPECS[8].name];
  }

  /** The fill keeps the table rectangular: every draw has one value per row. */
  lemma FillKeepsShape(columns: seq<string>, data: seq<seq<Cell>>, draws: seq<seq<Cell>>, rows: nat)
    requires |columns| == |data| && forall j :: 0 <= j < |data| ==> |data[j]| == rows
    requires DrawsFit(draws, rows)
    ensures var (cs, ds) := Filled(columns, data, draws);
            |cs| == |ds| && forall j :: 0 <= j < |ds| ==> |ds[j]| == rows
  {
    FilledUnfold(columns, data, draws);
    var m := Missing(DefaultNames(), columns, 0);
    var ds := data + Pick(draws, m);
    forall j | 0 <= j < |ds| ensures |ds[j]| == rows {
      if j >= |data| {
        assert ds[j] == draws[m[j - |data|]];
      }
    }
  }
}
