/** Column-name normalisation: `df.columns.str.lower().str.replace(" ", "_")`.
    Only ASCII letters are case-mapped; see README. */
module Headers {

  predicate IsUpper(c: char) {
    'A' <= c <= 'Z'
  }

  /** `str.lower` on one character. */
  function LowerChar(c: char): (r: char)
    ensures !IsUpper(r)
    ensures !IsUpper(c) ==> r == c
    ensures IsUpper(c) ==> 'a' <= r <= 'z' && r as int - c as int == 'a' as int - 'A' as int
  {
    if IsUpper(c) then (c as int - 'A' as int + 'a' as int) as char else c
  }

  /** `str.lower` on a whole name. */
  function Lower(s: string): (r: string)
    ensures |r| == |s|
    ensures forall i :: 0 <= i < |s| ==> r[i] == LowerChar(s[i])
  {
    if s == [] then [] else [LowerChar(s[0])] + Lower(s[1..])
  }

  /** `str.replace(" ", "_")`: every space, and nothing else, becomes an underscore. */
  function ReplaceSpaces(s: string): (r: string)
    ensures |r| == |s|
    ensures forall i :: 0 <= i < |s| ==> r[i] == (if s[i] == ' ' then '_' else s[i])
  {
    if s == [] then [] else [if s[0] == ' ' then '_' else s[0]] + ReplaceSpaces(s[1..])
  }

  /** A name the normaliser leaves as it is. */
  predicate IsNormal(s: string) {
    forall i :: 0 <= i < |s| ==> s[i] != ' ' && !IsUpper(s[i])
  }

  /** One header, lower-cased and then with spaces replaced; no trimming. */
  function NormaliseHeader(s: string): (r: string)
    ensures |r| == |s| && IsNormal(r)
    ensures forall i :: 0 <= i < |s| ==> (r[i] == '_' <==> s[i] == ' ' || s[i] == '_')
    ensures forall i :: 0 <= i < |s| && s[i] != ' ' && !IsUpper(s[i]) ==> r[i] == s[i]
  {
    ReplaceSpaces(Lower(s))
  }

  /** Every header of the table, position by position; repeated names stay repeated. */
  function NormaliseAll(columns: seq<string>): (r: seq<string>)
    ensures |r| == |columns|
    ensures forall j :: 0 <= j < |columns| ==> r[j] == NormaliseHeader(columns[j])
  {
    if columns == [] then [] else [NormaliseHeader(columns[0])] + NormaliseAll(columns[1..])
  }

  /** A name is left unchanged exactly when it has no space and no upper-case letter. */
  lemma {:induction false} NormalFixedPoint(s: string)
    ensures NormaliseHeader(s) == s <==> IsNormal(s)
  {
    if IsNormal(s) {
      forall i | 0 <= i < |s| ensures NormaliseHeader(s)[i] == s[i] {
        assert Lower(s)[i] == s[i];
      }
    }
  }

  /** Normalising twice is normalising once. */
  lemma {:induction false} NormaliseIdempotent(s: string)
    ensures NormaliseHeader(NormaliseHeader(s)) == NormaliseHeader(s)
  {
    NormalFixedPoint(NormaliseHeader(s));
  }

  /** Renaming headers applied twice is applied once, for the whole header row. */
  lemma {:induction false} NormaliseAllIdempotent(columns: seq<string>)
    ensures NormaliseAll(NormaliseAll(columns)) == NormaliseAll(columns)
  {
    forall j | 0 <= j < |columns|
      ensures NormaliseAll(NormaliseAll(columns))[j] == NormaliseAll(columns)[j]
    {
      NormaliseIdempotent(columns[j]);
    }
  }

  /** Distinct headers can collide: the header row is a sequence, not a set. */
  lemma HeadersCanCollide()
    ensures NormaliseAll(["Age", "age"]) == ["age", "age"]
  {
    assert NormaliseHeader("Age") == "age";
    assert NormaliseHeader("age") == "age";
  }
}
