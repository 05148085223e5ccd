/** The partial update that links a task to its summary pages. */
module RelationWriter {

  import opened Wrappers
  import opened Workspace

  const WeeklyLinkProperty := "Weekly Link"
  const MonthlyLinkProperty := "Monthly Link"

  /** The `properties` object of a PATCH: property name to relation list. */
  type Properties = map<string, seq<PageRef>>

  /** One PATCH request against the page `pageId`. */
  datatype Patch = Patch(pageId: string, properties: Properties)

  /** Python truthiness of a resolved id: present and not the empty string. */
  predicate Truthy(id: Option<string>)
  {
    id.Some? && id.value != ""
  }

  /** The request `update_task_relations` issues, or `None` when it issues none. */
  function PlannedPatch(taskId: string, weekly: Option<string>, monthly: Option<string>): (r: Option<Patch>)
    ensures r.None? <==> !Truthy(weekly) && !Truthy(monthly)
    ensures r.Some? ==>
      && r.value.pageId == taskId
      && (WeeklyLinkProperty in r.value.properties <==> Truthy(weekly))
      && (MonthlyLinkProperty in r.value.properties <==> Truthy(monthly))
      && (Truthy(weekly) ==> r.value.properties[WeeklyLinkProperty] == [PageRef(weekly.value)])
      && (Truthy(monthly) ==> r.value.properties[MonthlyLinkProperty] == [PageRef(monthly.value)])
      && forall key :: key in r.value.properties ==> key == WeeklyLinkProperty || key == MonthlyLinkProperty
  {
    var w: Properties := if Truthy(weekly) then map[WeeklyLinkProperty := [PageRef(weekly.value)]] else map[];
    var m: Properties := if Truthy(monthly) then map[MonthlyLinkProperty := [PageRef(monthly.value)]] else map[];
    if Truthy(weekly) || Truthy(monthly) then Some(Patch(taskId, w + m)) else None
  }

  /** Builds the payload by conditional insertion and reports the request it
      would send, or `None` when the payload is empty. */
  method UpdateTaskRelations(taskId: string, weekly: Option<string>, monthly: Option<string>)
    returns (request: Option<Patch>)
    ensures request == PlannedPatch(taskId, weekly, monthly)
  {
    var propertiesToUpdate: Properties := map[];
    if Truthy(weekly) {
      propertiesToUpdate := propertiesToUpdate[WeeklyLinkProperty := [PageRef(weekly.value)]];
    }
    if Truthy(monthly) {
      propertiesToUpdate := propertiesToUpdate[MonthlyLinkProperty := [PageRef(monthly.value)]];
    }
    if propertiesToUpdate == map[] {
      assert WeeklyLinkProperty !in propertiesToUpdate && MonthlyLinkProperty !in propertiesToUpdate;
      return None;
    }
    request := Some(Patch(taskId, propertiesToUpdate));
    assert PlannedPatch(taskId, weekly, monthly).Some?;
    assert propertiesToUpdate == PlannedPatch(taskId, weekly, monthly).value.properties;
  }

  /** The store's effect of a successful PATCH on the task it names: each
      relation in the payload replaces the old list, the others are kept,
      and the last-edited time becomes `at`. */
  function ApplyPatch(t: Task, p: Patch, at: int): (r: Task)
    requires p.pageId == t.id
  {
    t.(weeklyLink := if WeeklyLinkProperty in p.properties then p.properties[WeeklyLinkProperty] else t.weeklyLink,
       monthlyLink := if MonthlyLinkProperty in p.properties then p.properties[MonthlyLinkProperty] else t.monthlyLink,
       lastEdited := at)
  }

  /** Relations are overwritten, not appended: applying the same request
      twice leaves the task as applying it once. */
  lemma ApplyPatchIdempotent(t: Task, p: Patch, at: int)
    requires p.pageId == t.id
    ensures ApplyPatch(ApplyPatch(t, p, at), p, at) == ApplyPatch(t, p, at)
  {
  }
}
