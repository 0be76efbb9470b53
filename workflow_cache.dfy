/** `updateWorkflowCache` (ui/src/app/event.service.ts:322-356): what a workflow event does to
    the workflow held in `WorkflowState`. Modelled as written: the gate compares with `!==`, a
    delete does not evict the workflow, and a workflow that is not on screen is left alone. */
module WorkflowCache {
  import opened Js
  import opened EventModel

  /** The gate of :328-329: a workflow is loaded and it is NOT the event's workflow (its project
      key or its name differs from the event's). A loaded workflow whose name is undefined is
      still a truthy object. */
  predicate WorkflowGate(wf: Option<WorkflowSnapshot>, e: Event)
  {
    wf.Some? && wf.value.workflow.Some? &&
    (wf.value.projectKey != e.projectKey || wf.value.workflow.value.name != e.workflowName)
  }

  /** The viewer has this workflow open: a truthy route key equal to the event's project key and
      a route `workflowName` equal to the event's workflow name. */
  predicate ViewingWorkflow(route: RouteParams, e: Event)
  {
    Truthy(route.key) && route.key == e.projectKey && route.workflowName == e.workflowName
  }

  /** The actions for one event, given the workflow state. */
  function UpdateWorkflowCache(ty: EventTypes, e: Event, wf: Option<WorkflowSnapshot>,
                               route: RouteParams, user: string): (ms: seq<Mutation>)
    ensures AllFrom(ms, WorkflowStep)
    ensures |ms| <= 1
    ensures ms != [] ==> e.typeEvent != "" && WorkflowGate(wf, e)
  {
    if e.typeEvent == "" || !WorkflowGate(wf, e) then []
    else if e.typeEvent == ty.workflowDelete then [DeleteWorkflowInProject(e.workflowName)]
    else if !ViewingWorkflow(route, e) then []
    else if e.username != Some(user) then [ExternalChangeWorkflow(e.projectKey, e.workflowName)]
    else [GetWorkflow(e.projectKey, e.workflowName)]
  }

  /** Past the gate: a delete only strips the name from the project, a workflow not on screen
      is neither evicted nor refreshed, another user's change is flagged and the viewer's own
      change reloads the workflow. */
  lemma WorkflowDecisionTable(ty: EventTypes, e: Event, wf: Option<WorkflowSnapshot>, route: RouteParams, user: string)
    requires e.typeEvent != "" && WorkflowGate(wf, e)
    ensures e.typeEvent == ty.workflowDelete ==>
            UpdateWorkflowCache(ty, e, wf, route, user) == [DeleteWorkflowInProject(e.workflowName)]
    ensures e.typeEvent != ty.workflowDelete && !ViewingWorkflow(route, e) ==>
            UpdateWorkflowCache(ty, e, wf, route, user) == []
    ensures e.typeEvent != ty.workflowDelete && ViewingWorkflow(route, e) ==>
            UpdateWorkflowCache(ty, e, wf, route, user) ==
            (if e.username == Some(user) then [GetWorkflow(e.projectKey, e.workflowName)]
             else [ExternalChangeWorkflow(e.projectKey, e.workflowName)])
  {
  }

  /** Because of the `!==` gate, an event about the very workflow held in the store issues
      nothing, even another user's change to the workflow on screen, for which the shared
      decision would flag an external change. */
  lemma CachedWorkflowEventsIgnored(ty: EventTypes, e: Event, route: RouteParams, user: string)
    requires e.typeEvent != ""
    requires ViewingWorkflow(route, e) && e.username != Some(user)
    ensures SharedShape(true, true, false, e.typeEvent == ty.workflowDelete, false) == ExternalChange
    ensures UpdateWorkflowCache(ty, e, Some(WorkflowSnapshot(e.projectKey, Some(LoadedWorkflow(e.workflowName)))), route, user) == []
  {
  }
}
