/** The aggregates shown over the scored table: the high-risk count, the cost
    at risk, and the ten employees most likely to leave. */
module Summary {
  import opened Cells
  import opened Categories

  /** `avg_replacement_cost`: 6,00,000 rupees per employee. */
  const REPLACEMENT_COST: nat := 600000

  /** How many rows the top-employees view shows. */
  const TOP_ROWS: nat := 10

  /** `(df['risk_category'] == "High Risk").sum()`. */
  function HighRiskCount(categories: seq<Cell>): (n: nat)
    ensures n <= |categories|
  {
    if categories == [] then 0
    else (if categories[0] == Text(HIGH) then 1 else 0) + HighRiskCount(categories[1..])
  }

  /** `cost_risk`: the replacement cost of every high-risk employee. */
  function CostAtRisk(categories: seq<Cell>): (c: nat)
    ensures c <= REPLACEMENT_COST * |categories|
  {
    HighRiskCount(categories) * REPLACEMENT_COST
  }

  /** The category column the pipeline writes for the given flight risks. */
  function Categorised(risks: seq<real>): (r: seq<Cell>)
    ensures |r| == |risks| && forall i :: 0 <= i < |risks| ==> r[i] == Text(LabelRisk(risks[i]))
  {
    seq(|risks|, i requires 0 <= i < |risks| => Text(LabelRisk(risks[i])))
  }

  /** How many of the values are at least t. */
  function CountAtLeast(risks: seq<real>, t: real): (n: nat)
    ensures n <= |risks|
  {
    if risks == [] then 0
    else (if risks[0] >= t then 1 else 0) + CountAtLeast(risks[1..], t)
  }

  /** Over a categorised column, the high-risk count is the number of flight
      risks of 70 or more, and the cost at risk is 600000 times that. */
  lemma {:induction false} CostCountsHighRisks(risks: seq<real>)
    ensures HighRiskCount(Categorised(risks)) == CountAtLeast(risks, 70.0)
    ensures CostAtRisk(Categorised(risks)) == REPLACEMENT_COST * CountAtLeast(risks, 70.0)
  {
    if risks != [] {
      CostCountsHighRisks(risks[1..]);
      assert Categorised(risks)[1..] == Categorised(risks[1..]);
    }
  }

  /** A row of the table with its flight risk, for ranking. */
  datatype Ranked = Ranked(row: nat, risk: real)

  /** The rows of the table in order, with their flight risks. */
  function Enumerate(risks: seq<real>): (r: seq<Ranked>)
    ensures |r| == |risks| && forall i :: 0 <= i < |risks| ==> r[i] == Ranked(i, risks[i])
  {
    seq(|risks|, i requires 0 <= i < |risks| => Ranked(i, risks[i]))
  }

  predicate SortedDesc(s: seq<Ranked>) {
    forall i, j :: 0 <= i < j < |s| ==> s[i].risk >= s[j].risk
  }

  /** Puts x before the first entry whose risk does not exceed its own. */
  function Insert(x: Ranked, s: seq<Ranked>): (r: seq<Ranked>)
    ensures multiset(r) == multiset(s) + multiset{x}
  {
    if s == [] || x.risk >= s[0].risk then [x] + s
    else
      assert s == [s[0]] + s[1..];
      [s[0]] + Insert(x, s[1..])
  }

  /** Every risk in s is at most v. */
  predicate AtMost(s: seq<Ranked>, v: real) {
    forall i :: 0 <= i < |s| ==> s[i].risk <= v
  }

  lemma {:induction false} InsertAtMost(x: Ranked, s: seq<Ranked>, v: real)
    requires AtMost(s, v) && x.risk <= v
    ensures AtMost(Insert(x, s), v)
  {
    if s != [] && x.risk < s[0].risk {
      InsertAtMost(x, s[1..], v);
    }
  }

  /** Inserting into a sorted sequence keeps it sorted. */
  lemma {:induction false} InsertSorted(x: Ranked, s: seq<Ranked>)
    requires SortedDesc(s)
    ensures SortedDesc(Insert(x, s))
  {
    if s != [] && x.risk < s[0].risk {
      InsertSorted(x, s[1..]);
      InsertAtMost(x, s[1..], s[0].risk);
    }
  }

  /** `sort_values("flight_risk", ascending=False)`, as an insertion sort. */
  function SortDesc(s: seq<Ranked>): (r: seq<Ranked>)
    ensures multiset(r) == multiset(s)
  {
    if s == [] then []
    else
      assert s == [s[0]] + s[1..];
      Insert(s[0], SortDesc(s[1..]))
  }

  lemma {:induction false} SortDescSorted(s: seq<Ranked>)
    ensures SortedDesc(SortDesc(s))
  {
    if s != [] {
      SortDescSorted(s[1..]);
      InsertSorted(s[0], SortDesc(s[1..]));
    }
  }

  /** `.head(10)` of the sorted table, as ranked rows. */
  function TopRows(risks: seq<real>): (r: seq<Ranked>)
    ensures |r| <= TOP_ROWS && r <= SortDesc(Enumerate(risks))
  {
    var sorted := SortDesc(Enumerate(risks));
    if |sorted| <= TOP_ROWS then sorted else sorted[..TOP_ROWS]
  }

  /** The view is a prefix of the whole table sorted by flight risk. */
  lemma TopRowsPrefix(risks: seq<real>)
    ensures var sorted := SortDesc(Enumerate(risks));
      && |sorted| == |risks| && SortedDesc(sorted)
      && TopRows(risks) == sorted[..|TopRows(risks)|]
  {
    var rows := Enumerate(risks);
    SortDescSorted(rows);
    assert |SortDesc(rows)| == |rows| by {
      assert |multiset(SortDesc(rows))| == |multiset(rows)|;
    }
  }

  /** The top-employees view shows min(10, n) rows of the table, each row at
      most once and with its own flight risk, in non-increasing order of
      flight risk. */
  lemma TopRowsSpec(risks: seq<real>)
    ensures var top := TopRows(risks);
      && |top| == (if |risks| <= TOP_ROWS then |risks| else TOP_ROWS)
      && SortedDesc(top)
      && multiset(top) <= multiset(Enumerate(risks))
      && (forall i :: 0 <= i < |top| ==> top[i].row < |risks| && top[i].risk == risks[top[i].row])
  {
    TopRowsOrdered(risks);
    TopRowsFromTable(risks);
    var top := TopRows(risks);
    forall i | 0 <= i < |top| ensures top[i].row < |risks| && top[i].risk == risks[top[i].row] {
      TopRowOwnRisk(risks, top[i]);
    }
  }

  /** The view has min(10, n) rows, in non-increasing order of flight risk. */
  lemma TopRowsOrdered(risks: seq<real>)
    ensures var top := TopRows(risks);
      |top| == (if |risks| <= TOP_ROWS then |risks| else TOP_ROWS) && SortedDesc(top)
  {
    TopRowsPrefix(risks);
  }

  /** The view takes its rows from the table, each at most once. */
  lemma TopRowsFromTable(risks: seq<real>)
    ensures multiset(TopRows(risks)) <= multiset(Enumerate(risks))
  {
    var sorted := SortDesc(Enumerate(risks));
    var top := TopRows(risks);
    assert sorted == top + sorted[|top|..];
    assert multiset(sorted) == multiset(top) + multiset(sorted[|top|..]);
  }

  /** A ranked row drawn from the table carries its own flight risk. */
  lemma TopRowOwnRisk(risks: seq<real>, x: Ranked)
    requires x in multiset(TopRows(risks))
    ensures x.row < |risks| && x.risk == risks[x.row]
  {
    TopRowsFromTable(risks);
    assert x in Enumerate(risks);
  }

  /** No row left out of the view has a higher flight risk than the last row
      shown. */
  lemma TopRowsBest(risks: seq<real>)
    ensures var top := TopRows(risks);
      forall k :: 0 <= k < |risks| && Ranked(k, risks[k]) !in top ==> risks[k] <= top[|top| - 1].risk
  {
    TopRowsPrefix(risks);
    var rows := Enumerate(risks);
    var sorted := SortDesc(rows);
    var top := TopRows(risks);
    forall k | 0 <= k < |risks| && Ranked(k, risks[k]) !in top ensures risks[k] <= top[|top| - 1].risk {
      assert rows[k] in multiset(sorted);
      var p :| 0 <= p < |sorted| && sorted[p] == rows[k];
      assert p >= |top|;
      assert top[|top| - 1] == sorted[|top| - 1];
    }
  }
}
