/** Concrete runs of one task against small summary collections. */
module Scenarios {

  import opened Wrappers
  import opened Workspace
  import opened Query
  import opened Extraction
  import opened Resolver
  import opened Discovery
  import opened RelationWriter
  import opened Sync

  /** Task "T": Year 2025, the given Week Number formula, Month "October",
      no weekly link, edited ten minutes before `now`. */
  function SampleTask(week: Formula, now: int): Task
  {
    Task("T", [Text("Write report")], true, [], [], now - 10,
         NumberResult(Present(2025)), week, StringResult(Present("October")))
  }

  /** The end-to-end case: both summary pages exist, so both links are set. */
  lemma BothLinksWritten(now: int)
    ensures Eligible(SampleTask(StringResult(Present("41")), now), now)
    ensures ProcessTask(SampleTask(StringResult(Present("41")), now),
                        Endpoint(200, [Record("W1", "41", Some(2025))]),
                        Endpoint(200, [Record("M1", "October", Some(2025))]))
         == Patched(Patch("T", map[WeeklyLinkProperty := [PageRef("W1")], MonthlyLinkProperty := [PageRef("M1")]]))
  {
  }

  /** The weekly page exists only for 2024: only the monthly link is set. */
  lemma OnlyMonthlyWhenYearDiffers(now: int)
    ensures ProcessTask(SampleTask(StringResult(Present("41")), now),
                        Endpoint(200, [Record("W1", "41", Some(2024))]),
                        Endpoint(200, [Record("M1", "October", Some(2025))]))
         == Patched(Patch("T", map[MonthlyLinkProperty := [PageRef("M1")]]))
  {
  }

  /** A number-typed Week Number formula (41) has no `"string"` slot, so
      the task is skipped and no lookup or write happens for it. */
  lemma NumberWeekSkipped(now: int, weekly: Endpoint<Record>, monthly: Endpoint<Record>)
    ensures ExtractTaskProperties(SampleTask(NumberResult(Present(41)), now)) == NotExtracted
    ensures ProcessTask(SampleTask(NumberResult(Present(41)), now), weekly, monthly)
         == Skipped("T", MissingProperties("Write report"))
  {
  }

  /** A failed weekly query and no monthly page: no request is sent. */
  lemma NothingFoundNoRequest(now: int)
    ensures ProcessTask(SampleTask(StringResult(Present("41")), now),
                        Unreachable,
                        Endpoint(500, [Record("M1", "October", Some(2025))]))
         == NoUpdate("T")
  {
  }
}
