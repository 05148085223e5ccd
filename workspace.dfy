/** The records of the task-tracking workspace, as the batch job sees them.
    Each property the job reads is a field; a property that is missing from a
    page reads as the same value as an empty one would. */
module Workspace {

  import opened Wrappers

  /** One slot of a formula result object: the key may be missing, hold
      JSON `null`, or hold a value. */
  datatype Slot<+T> = Missing | Null | Present(value: T)

  /** The `formula` object of a formula property, by its declared `type`. */
  datatype Formula =
    | NumberResult(number: Slot<int>)
    | StringResult(str: Slot<string>)
    | OtherResult      // a boolean or date formula
    | NoFormula        // the property is absent or is not a formula

  /** One rich-text fragment of a title; `Malformed` lacks `plain_text`. */
  datatype RichText = Text(plainText: string) | Malformed

  /** One entry of a relation list, `{"id": ...}`. */
  datatype PageRef = PageRef(id: string)

  /** A page of the task collection. `lastEdited` is in whole minutes. */
  datatype Task = Task(
    id: string,
    title: seq<RichText>,
    hasDueDate: bool,
    weeklyLink: seq<PageRef>,
    monthlyLink: seq<PageRef>,
    lastEdited: int,
    year: Formula,
    weekNumber: Formula,
    month: Formula)

  /** A page of the weekly or the monthly collection: its title text
      (a week number such as "41", or a month name such as "October") and
      its Year number property, which may be empty. */
  datatype Record = Record(id: string, title: string, year: Option<int>)
}
