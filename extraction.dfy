/** Reading the calendar fields of a task out of its formula properties. */
module Extraction {

  import opened Wrappers
  import opened Workspace

  /** `(year, week_text, month_text)`, each possibly `None`. */
  type Extracted = (Option<int>, Option<string>, Option<string>)

  const NotExtracted: Extracted := (None, None, None)

  /** `formula.get("string")`: only a string-typed result has that key. */
  function StringSlot(f: Formula): Option<string>
  {
    if f.StringResult? && f.str.Present? then Some(f.str.value) else None
  }

  /** A formula whose `"string"` slot holds non-empty text. */
  predicate HasText(f: Formula)
  {
    f.StringResult? && f.str.Present? && f.str.value != ""
  }

  /** The shapes extraction accepts: a number-typed Year formula whose
      `number` is not `null` (a missing key reads as 0), and non-empty text
      in the `"string"` slot of both the Week Number and the Month formula. */
  predicate Extractable(t: Task)
  {
    t.year.NumberResult? && !t.year.number.Null? && HasText(t.weekNumber) && HasText(t.month)
  }

  /** Extraction in the order the code performs it: Year, then Week Number,
      then Month, giving up with all three `None` at the first failure. */
  function ExtractTaskProperties(t: Task): (r: Extracted)
    // atomic: never a partial tuple
    ensures r == NotExtracted || (r.0.Some? && r.1.Some? && r.2.Some?)
    ensures r != NotExtracted <==> Extractable(t)
    ensures r != NotExtracted ==>
      && r.0.value == (if t.year.number.Present? then t.year.number.value else 0)
      && r.1.value == t.weekNumber.str.value
      && r.2.value == t.month.str.value
    // a Year formula of any other type, and a Week Number formula that is
    // not string-typed (a number-typed one included), fail extraction
    ensures !t.year.NumberResult? ==> r == NotExtracted
    ensures !t.weekNumber.StringResult? ==> r == NotExtracted
    ensures !t.month.StringResult? ==> r == NotExtracted
  {
    match t.year
    case NumberResult(n) =>
      if n.Null? then NotExtracted   // int(None) raises; the handler gives up
      else
        var year := if n.Present? then n.value else 0;
        var week := StringSlot(t.weekNumber);
        if week.None? || week.value == "" then NotExtracted
        else
          var month := StringSlot(t.month);
          if month.None? || month.value == "" then NotExtracted
          else (Some(year), week, month)
    case _ => NotExtracted
  }
}
