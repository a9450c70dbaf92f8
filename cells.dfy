/** The values a table cell can hold once a CSV file has been loaded. */
module Cells {
  import opened Wrappers

  /** An integer column value (e.g. from `randint`), a floating-point value
      (modelled as an exact real), or text (names, labels, reasons). */
  datatype Cell = Int(i: int) | Real(x: real) | Text(s: string)

  /** The number a cell stands for in arithmetic and comparisons; text has none
      (pandas raises a TypeError when it meets one there). */
  function AsNumber(c: Cell): (r: Option<real>)
    ensures r.None? <==> c.Text?
    ensures c.Int? ==> r == Some(c.i as real)
    ensures c.Real? ==> r == Some(c.x)
  {
    match c
    case Int(i) => Some(i as real)
    case Real(x) => Some(x)
    case Text(_) => None
  }
}
