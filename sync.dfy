/** One run of the batch job: discover, then for each task extract, resolve
    both summary pages and write the links. */
module Sync {

  import opened Wrappers
  import opened Workspace
  import opened Query
  import opened Extraction
  import opened Resolver
  import opened Discovery
  import opened RelationWriter

  const UntitledTask := "Untitled Task"

  datatype SkipReason =
    | PropertyError                    // the title could not be read
    | MissingProperties(title: string) // extraction failed or gave a falsy field

  /** What the run did with one task. */
  datatype Outcome =
    | Skipped(taskId: string, reason: SkipReason)
    | NoUpdate(taskId: string)         // neither summary page was found
    | Patched(request: Patch)

  /** The first fragment's plain text, the placeholder for an empty title,
      or `None` when the first fragment is malformed (the code's handler
      for a missing key then skips the task). */
  function TaskTitle(t: Task): (r: Option<string>)
    ensures t.title == [] ==> r == Some(UntitledTask)
    ensures t.title != [] ==> (r.None? <==> t.title[0].Malformed?)
    ensures t.title != [] && t.title[0].Text? ==> r == Some(t.title[0].plainText)
  {
    if t.title == [] then Some(UntitledTask)
    else match t.title[0]
      case Text(s) => Some(s)
      case Malformed => None
  }

  /** `all([year, week_text, month_text])`: each present and truthy, so a
      year of 0 fails although extraction accepts it. */
  predicate AllTruthy(x: Extracted)
  {
    x.0.Some? && x.0.value != 0 && x.1.Some? && x.1.value != "" && x.2.Some? && x.2.value != ""
  }

  /** `relation` is the one-element list of the first record whose title
      and year equal `title` and `year`. */
  ghost predicate LinksFirstMatch(e: Endpoint<Record>, title: string, year: int, relation: seq<PageRef>)
  {
    e.Endpoint? &&
    exists i :: 0 <= i < |e.collection| && IsFirstMatch(e.collection, i, title, year)
                && relation == [PageRef(e.collection[i].id)]
  }

  /** The outcome of processing one task against the two summary
      collections. A task is skipped, before any lookup, exactly when its
      title is malformed, extraction fails, or the extracted year is 0.
      Otherwise no request is made exactly when neither lookup yields a
      truthy id; a request targets the task and carries a link key exactly
      when that lookup yields a truthy id, pointing at the first record whose
      title and year equal the task's extracted week (or month) text and year. */
  function ProcessTask(t: Task, weekly: Endpoint<Record>, monthly: Endpoint<Record>): (o: Outcome)
    ensures o.Skipped? <==>
      TaskTitle(t).None? || !Extractable(t) || t.year.number.Missing? || t.year.number.value == 0
    ensures o.Skipped? ==> o.taskId == t.id && (o.reason == PropertyError <==> TaskTitle(t).None?)
    ensures o.NoUpdate? ==> o.taskId == t.id
    ensures var x := ExtractTaskProperties(t);
      !o.Skipped? ==>
        && x.0.Some? && x.1.Some? && x.2.Some?
        && (o.NoUpdate? <==> !LinkFound(weekly, x.1.value, x.0.value) && !LinkFound(monthly, x.2.value, x.0.value))
    ensures var x := ExtractTaskProperties(t);
      o.Patched? ==>
        && o.request.pageId == t.id
        && (WeeklyLinkProperty in o.request.properties <==> LinkFound(weekly, x.1.value, x.0.value))
        && (MonthlyLinkProperty in o.request.properties <==> LinkFound(monthly, x.2.value, x.0.value))
        && (WeeklyLinkProperty in o.request.properties ==>
              LinksFirstMatch(weekly, x.1.value, x.0.value, o.request.properties[WeeklyLinkProperty]))
        && (MonthlyLinkProperty in o.request.properties ==>
              LinksFirstMatch(monthly, x.2.value, x.0.value, o.request.properties[MonthlyLinkProperty]))
        && forall key :: key in o.request.properties ==> key == WeeklyLinkProperty || key == MonthlyLinkProperty
  {
    var title := TaskTitle(t);
    if title.None? then Skipped(t.id, PropertyError)
    else
      var x := ExtractTaskProperties(t);
      if !AllTruthy(x) then Skipped(t.id, MissingProperties(title.value))
      else
        var weeklyId := FindPageWithYear(weekly, x.1.value, x.0.value);
        var monthlyId := FindPageWithYear(monthly, x.2.value, x.0.value);
        LookupTruthy(weekly, x.1.value, x.0.value);
        LookupTruthy(monthly, x.2.value, x.0.value);
        match PlannedPatch(t.id, weeklyId, monthlyId)
        case None => NoUpdate(t.id)
        case Some(p) => Patched(p)
  }

  /** The outcomes of a run over `tasks`, one per task and in order. */
  function ProcessAll(tasks: seq<Task>, weekly: Endpoint<Record>, monthly: Endpoint<Record>): (r: seq<Outcome>)
    ensures |r| == |tasks|
    ensures forall i :: 0 <= i < |tasks| ==> r[i] == ProcessTask(tasks[i], weekly, monthly)
  {
    if tasks == [] then []
    else [ProcessTask(tasks[0], weekly, monthly)] + ProcessAll(tasks[1..], weekly, monthly)
  }

  /** The batch run. The clock reading `now` and the three query endpoints
      stand for the network; the result lists one outcome per discovered task. */
  method Run(tasksEndpoint: Endpoint<Task>, now: int, weekly: Endpoint<Record>, monthly: Endpoint<Record>)
    returns (outcomes: seq<Outcome>)
    ensures outcomes == ProcessAll(GetUnlinkedTasks(tasksEndpoint, now), weekly, monthly)
  {
    var tasksToProcess := GetUnlinkedTasks(tasksEndpoint, now);
    outcomes := [];
    if tasksToProcess == [] {
      return;
    }
    for i := 0 to |tasksToProcess|
      invariant |outcomes| == i
      invariant forall k :: 0 <= k < i ==> outcomes[k] == ProcessTask(tasksToProcess[k], weekly, monthly)
    {
      var task := tasksToProcess[i];
      ghost var expected := ProcessTask(task, weekly, monthly);
      ProcessTaskCases(task, weekly, monthly);
      var title := TaskTitle(task);
      if title.None? {
        assert expected == Skipped(task.id, PropertyError);
        outcomes := outcomes + [Skipped(task.id, PropertyError)];
        continue;
      }
      var x := ExtractTaskProperties(task);
      if !AllTruthy(x) {
        assert expected == Skipped(task.id, MissingProperties(title.value));
        outcomes := outcomes + [Skipped(task.id, MissingProperties(title.value))];
        continue;
      }
      var weeklyPageId := FindPageWithYear(weekly, x.1.value, x.0.value);
      var monthlyPageId := FindPageWithYear(monthly, x.2.value, x.0.value);
      var request := UpdateTaskRelations(task.id, weeklyPageId, monthlyPageId);
      if request.None? {
        assert expected == NoUpdate(task.id);
        outcomes := outcomes + [NoUpdate(task.id)];
      } else {
        assert expected == Patched(request.value);
        outcomes := outcomes + [Patched(request.value)];
      }
    }
  }

  /** The value of `ProcessTask` on each of its three paths, in the order
      the loop of `Run` takes them. It restates the function's body case by
      case and serves only to keep the proof of `Run` small. */
  lemma ProcessTaskCases(t: Task, weekly: Endpoint<Record>, monthly: Endpoint<Record>)
    ensures TaskTitle(t).None? ==> ProcessTask(t, weekly, monthly) == Skipped(t.id, PropertyError)
    ensures TaskTitle(t).Some? && !AllTruthy(ExtractTaskProperties(t)) ==>
      ProcessTask(t, weekly, monthly) == Skipped(t.id, MissingProperties(TaskTitle(t).value))
    ensures TaskTitle(t).Some? && AllTruthy(ExtractTaskProperties(t)) ==>
      var x := ExtractTaskProperties(t);
      var p := PlannedPatch(t.id, FindPageWithYear(weekly, x.1.value, x.0.value), FindPageWithYear(monthly, x.2.value, x.0.value));
      ProcessTask(t, weekly, monthly) == if p.None? then NoUpdate(t.id) else Patched(p.value)
  {
  }

  /** Tasks are processed independently: a run over two batches is the two
      runs one after the other. */
  lemma {:induction false} ProcessAllAppend(a: seq<Task>, b: seq<Task>, weekly: Endpoint<Record>, monthly: Endpoint<Record>)
    ensures ProcessAll(a + b, weekly, monthly) == ProcessAll(a, weekly, monthly) + ProcessAll(b, weekly, monthly)
  {
    if a != [] {
      assert (a + b)[1..] == a[1..] + b;
      ProcessAllAppend(a[1..], b, weekly, monthly);
    }
  }

  /** A skipped task depends on neither summary collection: it is decided
      before any lookup, and no request is made for it. */
  lemma SkipNeedsNoLookup(t: Task, weekly: Endpoint<Record>, monthly: Endpoint<Record>,
                          weekly': Endpoint<Record>, monthly': Endpoint<Record>)
    requires ProcessTask(t, weekly, monthly).Skipped?
    ensures ProcessTask(t, weekly', monthly') == ProcessTask(t, weekly, monthly)
  {
  }

  /** A Year formula with a missing or zero number passes extraction as
      year 0, and the task is then skipped for a falsy field. */
  lemma YearZeroSkipped(t: Task, weekly: Endpoint<Record>, monthly: Endpoint<Record>)
    requires TaskTitle(t).Some? && Extractable(t)
    requires t.year.number.Missing? || t.year.number == Present(0)
    ensures ExtractTaskProperties(t).0 == Some(0)
    ensures ProcessTask(t, weekly, monthly) == Skipped(t.id, MissingProperties(TaskTitle(t).value))
  {
  }

  /** A lookup yields a truthy id exactly when `LinkFound` holds, and that id
      is the first matching record's. */
  lemma LookupTruthy(e: Endpoint<Record>, title: string, year: int)
    ensures Truthy(FindPageWithYear(e, title, year)) <==> LinkFound(e, title, year)
    ensures Truthy(FindPageWithYear(e, title, year)) ==>
      exists i :: 0 <= i < |e.collection| && IsFirstMatch(e.collection, i, title, year)
                  && FindPageWithYear(e, title, year).value == e.collection[i].id
  {
  }

  /** Once the store has applied a request that sets the weekly link, the
      task is never discovered again: re-runs leave it alone. */
  lemma WeeklyLinkedNotReselected(t: Task, weekly: Endpoint<Record>, monthly: Endpoint<Record>, at: int, later: int)
    requires ProcessTask(t, weekly, monthly).Patched?
    requires WeeklyLinkProperty in ProcessTask(t, weekly, monthly).request.properties
    ensures ProcessTask(t, weekly, monthly).request.pageId == t.id
    ensures !Eligible(ApplyPatch(t, ProcessTask(t, weekly, monthly).request, at), later)
  {
  }

  /** A request that sets only the monthly link leaves the weekly link empty,
      and the write itself refreshes the last-edited time: the next run within
      the window selects the task again and sends the same request, which
      overwrites the monthly link with the same value. */
  lemma MonthlyOnlyRepeats(t: Task, weekly: Endpoint<Record>, monthly: Endpoint<Record>, now: int, at: int, later: int)
    requires Eligible(t, now)
    requires ProcessTask(t, weekly, monthly).Patched?
    requires WeeklyLinkProperty !in ProcessTask(t, weekly, monthly).request.properties
    requires later - WindowMinutes <= at
    ensures ProcessTask(t, weekly, monthly).request.pageId == t.id
    ensures var t' := ApplyPatch(t, ProcessTask(t, weekly, monthly).request, at);
      Eligible(t', later) && ProcessTask(t', weekly, monthly) == ProcessTask(t, weekly, monthly)
  {
  }
}
