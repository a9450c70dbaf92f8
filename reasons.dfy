/** `reason`: the short explanation attached to each row, built from five
    threshold checks taken in a fixed order and cut to the first three. */
module Reasons {
  import opened Risk

  datatype Field = Satisfaction | Engagement | LastHike | Overtime | Distance

  datatype Direction = Below | Above

  /** A threshold check on one driver and the text shown when it holds. */
  datatype Check = Check(field: Field, direction: Direction, threshold: real, text: string)

  /** The checks, in the order the explanation lists them. */
  const CHECKS: seq<Check> := [
    Check(Satisfaction, Below, 5.0, "Low satisfaction"),
    Check(Engagement, Below, 5.0, "Low engagement"),
    Check(LastHike, Above, 18.0, "No recent hike"),
    Check(Overtime, Above, 50.0, "High overtime"),
    Check(Distance, Above, 25.0, "Long commute")
  ]

  /** The entries of the explanation are separated by this. */
  const SEPARATOR: string := ", "

  function Value(d: Drivers, f: Field): real {
    match f
    case Satisfaction => d.satisfaction
    case Engagement => d.engagement
    case LastHike => d.lastHike
    case Overtime => d.overtime
    case Distance => d.distance
  }

  /** A check holds strictly below or strictly above its threshold. */
  predicate Holds(d: Drivers, c: Check) {
    match c.direction
    case Below => Value(d, c.field) < c.threshold
    case Above => Value(d, c.field) > c.threshold
  }

  /** The list the row's explanation is built from, one conditional append per
      condition, as the source writes it. */
  function ReasonList(d: Drivers): (r: seq<string>)
    ensures |r| <= |CHECKS|
  {
    (if d.satisfaction < 5.0 then ["Low satisfaction"] else []) +
    (if d.engagement < 5.0 then ["Low engagement"] else []) +
    (if d.lastHike > 18.0 then ["No recent hike"] else []) +
    (if d.overtime > 50.0 then ["High overtime"] else []) +
    (if d.distance > 25.0 then ["Long commute"] else [])
  }

  /** Reference definition: the texts of the checks that hold, in order. */
  function Fired(d: Drivers, cs: seq<Check>): (r: seq<string>)
    ensures |r| <= |cs|
  {
    if cs == [] then []
    else (if Holds(d, cs[0]) then [cs[0].text] else []) + Fired(d, cs[1..])
  }

  /** `xs[:n]`. */
  function Take<T>(xs: seq<T>, n: nat): (r: seq<T>)
    ensures |r| == if |xs| < n then |xs| else n
    ensures forall i :: 0 <= i < |r| ==> r[i] == xs[i]
  {
    if |xs| < n then xs else xs[..n]
  }

  /** `", ".join(xs)`. */
  function Join(xs: seq<string>): (r: string)
    ensures xs != [] ==> xs[0] <= r
    ensures |xs| > 1 ==> xs[0] + SEPARATOR <= r
  {
    if xs == [] then ""
    else if |xs| == 1 then xs[0]
    else xs[0] + SEPARATOR + Join(xs[1..])
  }

  /** The explanation of one row: the first three entries, joined. */
  function Reason(d: Drivers): (r: string)
    ensures r == Join(Take(Fired(d, CHECKS), 3))
  {
    ReasonListIsFired(d);
    Join(Take(ReasonList(d), 3))
  }

  function CountChar(c: char, s: string): (n: nat)
    ensures n <= |s|
  {
    if s == [] then 0 else (if s[0] == c then 1 else 0) + CountChar(c, s[1..])
  }

  lemma {:induction false} CountCharAppend(c: char, s: string, t: string)
    ensures CountChar(c, s + t) == CountChar(c, s) + CountChar(c, t)
  {
    if s == [] {
      assert s + t == t;
    } else {
      assert (s + t)[1..] == s[1..] + t;
      CountCharAppend(c, s[1..], t);
    }
  }

  /** Joining entries that hold no comma leaves one comma between each pair:
      the joined text splits back into as many entries as were joined. */
  lemma {:induction false} JoinCommas(xs: seq<string>)
    requires forall i :: 0 <= i < |xs| ==> CountChar(',', xs[i]) == 0
    ensures CountChar(',', Join(xs)) == if xs == [] then 0 else |xs| - 1
  {
    if |xs| > 1 {
      JoinCommas(xs[1..]);
      CountCharAppend(',', xs[0], SEPARATOR);
      CountCharAppend(',', xs[0] + SEPARATOR, Join(xs[1..]));
    }
  }

  /** Joining non-empty entries gives the empty text only for no entries. */
  lemma JoinEmpty(xs: seq<string>)
    requires forall i :: 0 <= i < |xs| ==> xs[i] != ""
    ensures Join(xs) == "" <==> xs == []
  {
    if |xs| > 1 {
      assert |Join(xs)| >= |xs[0]|;
    }
  }

  /** The straight-line list is the reference list of the checks that hold. */
  lemma ReasonListIsFired(d: Drivers)
    ensures ReasonList(d) == Fired(d, CHECKS)
  {
    var c := CHECKS;
    var e0 := if d.satisfaction < 5.0 then ["Low satisfaction"] else [];
    var e1 := if d.engagement < 5.0 then ["Low engagement"] else [];
    var e2 := if d.lastHike > 18.0 then ["No recent hike"] else [];
    var e3 := if d.overtime > 50.0 then ["High overtime"] else [];
    var e4 := if d.distance > 25.0 then ["Long commute"] else [];
    assert Fired(d, c[5..]) == [];
    assert Fired(d, c[4..]) == e4 by { assert c[4..][1..] == c[5..]; }
    assert Fired(d, c[3..]) == e3 + e4 by { assert c[3..][1..] == c[4..]; }
    assert Fired(d, c[2..]) == e2 + (e3 + e4) by { assert c[2..][1..] == c[3..]; }
    assert Fired(d, c[1..]) == e1 + (e2 + (e3 + e4)) by { assert c[1..][1..] == c[2..]; }
    assert Fired(d, c) == e0 + (e1 + (e2 + (e3 + e4)));
    assert ReasonList(d) == e0 + e1 + e2 + e3 + e4;
    Associate(e0, e1, e2, e3, e4);
  }

  lemma Associate<T>(a: seq<T>, b: seq<T>, c: seq<T>, d: seq<T>, e: seq<T>)
    ensures a + b + c + d + e == a + (b + (c + (d + e)))
  {
  }

  lemma {:induction false} NoCommaNoCount(s: string)
    requires ',' !in s
    ensures CountChar(',', s) == 0
  {
    if s != [] {
      assert s[0] != ',';
      assert forall i :: 0 <= i < |s[1..]| ==> s[1..][i] == s[i + 1];
      NoCommaNoCount(s[1..]);
    }
  }

  lemma CheckTextPlain(j: nat)
    requires j < |CHECKS|
    ensures ',' !in CHECKS[j].text && CHECKS[j].text != ""
  {
    var t := CHECKS[j].text;
    assert t == "Low satisfaction" || t == "Low engagement" || t == "No recent hike" ||
           t == "High overtime" || t == "Long commute";
  }

  /** The texts of the checks are non-empty and hold no comma. */
  lemma CheckTextsPlain()
    ensures forall j :: 0 <= j < |CHECKS| ==> CountChar(',', CHECKS[j].text) == 0 && CHECKS[j].text != ""
  {
    forall j | 0 <= j < |CHECKS| ensures CountChar(',', CHECKS[j].text) == 0 && CHECKS[j].text != "" {
      CheckTextPlain(j);
      NoCommaNoCount(CHECKS[j].text);
    }
  }

  /** Every entry of the reference list is the text of a check that holds. */
  lemma {:induction false} FiredSound(d: Drivers, cs: seq<Check>, i: nat)
    requires i < |Fired(d, cs)|
    ensures exists j :: 0 <= j < |cs| && Holds(d, cs[j]) && cs[j].text == Fired(d, cs)[i]
  {
    var head := if Holds(d, cs[0]) then [cs[0].text] else [];
    var tail := Fired(d, cs[1..]);
    assert Fired(d, cs) == head + tail;
    if i < |head| {
      assert Holds(d, cs[0]) && cs[0].text == Fired(d, cs)[i];
    } else {
      FiredSound(d, cs[1..], i - |head|);
      var j :| 0 <= j < |cs[1..]| && Holds(d, cs[1..][j]) && cs[1..][j].text == tail[i - |head|];
      assert cs[j + 1] == cs[1..][j];
      assert Holds(d, cs[j + 1]) && cs[j + 1].text == Fired(d, cs)[i];
    }
  }

  /** Every check that holds contributes its text to the reference list. */
  lemma {:induction false} FiredComplete(d: Drivers, cs: seq<Check>)
    ensures forall j :: 0 <= j < |cs| && Holds(d, cs[j]) ==> cs[j].text in Fired(d, cs)
  {
    if cs != [] {
      FiredComplete(d, cs[1..]);
      forall j | 0 <= j < |cs| && Holds(d, cs[j]) ensures cs[j].text in Fired(d, cs) {
        if j > 0 {
          assert cs[1..][j - 1] == cs[j];
        }
      }
    }
  }

  /** The reference list is empty exactly when no check holds. */
  lemma FiredEmpty(d: Drivers, cs: seq<Check>)
    ensures Fired(d, cs) == [] <==> forall j :: 0 <= j < |cs| ==> !Holds(d, cs[j])
  {
    FiredComplete(d, cs);
    if Fired(d, cs) != [] {
      FiredSound(d, cs, 0);
    }
  }

  /** When no check text is empty or holds a comma, neither does any entry of
      the reference list. */
  lemma FiredPlain(d: Drivers, cs: seq<Check>)
    requires forall j :: 0 <= j < |cs| ==> CountChar(',', cs[j].text) == 0 && cs[j].text != ""
    ensures forall i :: 0 <= i < |Fired(d, cs)| ==>
              CountChar(',', Fired(d, cs)[i]) == 0 && Fired(d, cs)[i] != ""
  {
    forall i | 0 <= i < |Fired(d, cs)|
      ensures CountChar(',', Fired(d, cs)[i]) == 0 && Fired(d, cs)[i] != ""
    {
      FiredSound(d, cs, i);
    }
  }

  /** No entry of an explanation is empty or holds a comma. */
  lemma EntriesPlain(d: Drivers)
    ensures forall i :: 0 <= i < |Take(Fired(d, CHECKS), 3)| ==>
              CountChar(',', Take(Fired(d, CHECKS), 3)[i]) == 0 && Take(Fired(d, CHECKS), 3)[i] != ""
  {
    CheckTextsPlain();
    FiredPlain(d, CHECKS);
  }

  /** The explanation of a row is the first (up to) three texts, in check
      order, of the checks that hold for it, joined by ", ": it has at most
      three comma-separated entries, and it is empty exactly when no condition
      holds for the row. */
  lemma ReasonExplained(d: Drivers)
    ensures Reason(d) == Join(Take(Fired(d, CHECKS), 3))
    ensures CountChar(',', Reason(d)) <= 2
    ensures Reason(d) == "" <==> forall j :: 0 <= j < |CHECKS| ==> !Holds(d, CHECKS[j])
  {
    var entries := Take(Fired(d, CHECKS), 3);
    EntriesPlain(d);
    JoinCommas(entries);
    JoinEmpty(entries);
    FiredEmpty(d, CHECKS);
    assert entries == [] <==> Fired(d, CHECKS) == [];
  }
}
