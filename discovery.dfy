/** Selecting the tasks a run processes: recently edited, with a due date,
    and not yet linked to a weekly summary. */
module Discovery {

  import opened Workspace
  import opened Query

  /** The trailing discovery window, in minutes. */
  const WindowMinutes := 65

  /** The discovery filter, evaluated against the clock `now` in minutes. */
  predicate Eligible(t: Task, now: int)
  {
    t.hasDueDate && t.weeklyLink == [] && t.lastEdited >= now - WindowMinutes
  }

  /** The tasks returned by the discovery query, or none when it fails. */
  function GetUnlinkedTasks(e: Endpoint<Task>, now: int): (r: seq<Task>)
    ensures !Succeeds(e) ==> r == []
    ensures forall t :: t in r ==> t in e.collection && Eligible(t, now)
    ensures Succeeds(e) ==> forall t :: t in e.collection && Eligible(t, now) ==> t in r
  {
    Results(e, (t: Task) => Eligible(t, now))
  }

  /** A task that already has a weekly link is never selected again, at any
      clock reading: re-runs leave linked tasks alone. */
  lemma LinkedTaskNotRediscovered(e: Endpoint<Task>, now: int, t: Task)
    requires t.weeklyLink != []
    ensures t !in GetUnlinkedTasks(e, now)
  {
  }
}
