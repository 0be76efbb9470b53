/** `updateWorkflowRunCache` (ui/src/app/event.service.ts:358-401): what a run event does to the
    run and node-run on screen. The run fetch of :376-379 is modelled as one action,
    `FetchRunAndUpdateList`, standing for the fetch and the `UpdateWorkflowRunList` its answer
    dispatches. */
module WorkflowRunCache {
  import opened Js
  import opened EventModel

  /** The route is on the event's workflow: strict equality of the route key and `workflowName`
      with the event's (an undefined pair counts as equal). */
  predicate OnEventWorkflow(route: RouteParams, e: Event)
  {
    route.key == e.projectKey && route.workflowName == e.workflowName
  }

  /** The route's `number` is the text of the event's run number. */
  predicate OnEventRun(route: RouteParams, e: Event)
  {
    route.number == Some(NatToString(e.workflowRunNum))
  }

  /** The action refers to the event's project, workflow and run number. */
  predicate AboutEventRun(m: Mutation, e: Event)
  {
    match m
    case GetWorkflowRun(pk, wn, n) => pk == e.projectKey && wn == e.workflowName && n == e.workflowRunNum
    case FetchRunAndUpdateList(pk, wn, n) => pk == e.projectKey && wn == e.workflowName && n == e.workflowRunNum
    case GetWorkflowNodeRun(pk, wn, n, _) => pk == e.projectKey && wn == e.workflowName && n == e.workflowRunNum
    case _ => false
  }

  /** The actions for one event, given the route. The `switch` compares with `===`, the first
      matching case winning. */
  function UpdateWorkflowRunCache(ty: EventTypes, e: Event, route: RouteParams): (ms: seq<Mutation>)
    ensures AllFrom(ms, RunStep)
    ensures forall m :: m in ms ==> AboutEventRun(m, e)
    ensures ms != [] ==> e.typeEvent != "" && OnEventWorkflow(route, e) &&
                         (e.typeEvent == ty.runWorkflowPrefix || e.typeEvent == ty.runWorkflowNode)
  {
    if e.typeEvent == "" || !OnEventWorkflow(route, e) then []
    else if e.typeEvent == ty.runWorkflowPrefix then
      if OnEventRun(route, e) then [GetWorkflowRun(e.projectKey, e.workflowName, e.workflowRunNum)]
      else [FetchRunAndUpdateList(e.projectKey, e.workflowName, e.workflowRunNum)]
    else if e.typeEvent == ty.runWorkflowNode then
      if OnEventRun(route, e) then
        [GetWorkflowRun(e.projectKey, e.workflowName, e.workflowRunNum)] +
        // The node-run id is the route's, not the event's.
        (if Truthy(route.nodeId) then [GetWorkflowNodeRun(e.projectKey, e.workflowName, e.workflowRunNum, route.nodeId.value)]
         else [])
      else []
    else []
  }

  /** A run event on the workflow on screen refreshes the run in place exactly when the route
      shows the decimal text of the event's run number, and otherwise fetches the run into the
      list: when the route shows another run, when it shows no run (the workflow page), and when
      its `number` is not the canonical text of any run number (such as "05"). */
  lemma RunEventRefreshesOrFetches(ty: EventTypes, e: Event, route: RouteParams)
    requires e.typeEvent != "" && e.typeEvent == ty.runWorkflowPrefix && OnEventWorkflow(route, e)
    ensures route.number == Some(NatToString(e.workflowRunNum)) ==>
            UpdateWorkflowRunCache(ty, e, route) == [GetWorkflowRun(e.projectKey, e.workflowName, e.workflowRunNum)]
    ensures forall shown: nat :: route.number == Some(NatToString(shown)) && shown != e.workflowRunNum ==>
            UpdateWorkflowRunCache(ty, e, route) == [FetchRunAndUpdateList(e.projectKey, e.workflowName, e.workflowRunNum)]
    ensures route.number.None? ==>
            UpdateWorkflowRunCache(ty, e, route) == [FetchRunAndUpdateList(e.projectKey, e.workflowName, e.workflowRunNum)]
    ensures (forall n: nat :: route.number != Some(NatToString(n))) ==>
            UpdateWorkflowRunCache(ty, e, route) == [FetchRunAndUpdateList(e.projectKey, e.workflowName, e.workflowRunNum)]
  {
    forall shown: nat | route.number == Some(NatToString(shown)) && shown != e.workflowRunNum
      ensures UpdateWorkflowRunCache(ty, e, route) == [FetchRunAndUpdateList(e.projectKey, e.workflowName, e.workflowRunNum)]
    {
      NatToStringInjective(shown, e.workflowRunNum);
    }
  }

  /** A node-run event refreshes the run, and the route's node-run when one is open, only when
      the route shows the decimal text of that very run; it does nothing when the route shows
      another run, no run, or text that is not a run number. */
  lemma NodeRunEventOnlyForShownRun(ty: EventTypes, e: Event, route: RouteParams)
    requires e.typeEvent != "" && e.typeEvent == ty.runWorkflowNode && e.typeEvent != ty.runWorkflowPrefix
    requires OnEventWorkflow(route, e)
    ensures forall shown: nat :: route.number == Some(NatToString(shown)) && shown != e.workflowRunNum ==>
            UpdateWorkflowRunCache(ty, e, route) == []
    ensures route.number.None? ==> UpdateWorkflowRunCache(ty, e, route) == []
    ensures (forall n: nat :: route.number != Some(NatToString(n))) ==> UpdateWorkflowRunCache(ty, e, route) == []
    ensures route.number == Some(NatToString(e.workflowRunNum)) && !Truthy(route.nodeId) ==>
            UpdateWorkflowRunCache(ty, e, route) == [GetWorkflowRun(e.projectKey, e.workflowName, e.workflowRunNum)]
    ensures route.number == Some(NatToString(e.workflowRunNum)) && Truthy(route.nodeId) ==>
            UpdateWorkflowRunCache(ty, e, route) ==
            [GetWorkflowRun(e.projectKey, e.workflowName, e.workflowRunNum),
             GetWorkflowNodeRun(e.projectKey, e.workflowName, e.workflowRunNum, route.nodeId.value)]
  {
    forall shown: nat | route.number == Some(NatToString(shown)) && shown != e.workflowRunNum
      ensures UpdateWorkflowRunCache(ty, e, route) == []
    {
      NatToStringInjective(shown, e.workflowRunNum);
    }
  }

  /** The viewer is on run 5 of workflow W1 in project P1 with node-run N2 open; a node-run event
      for that run refreshes run 5 and node-run N2, in that order. */
  lemma NodeRunScenario(ty: EventTypes, e: Event)
    requires ty.runWorkflowNode != "" && ty.runWorkflowNode != ty.runWorkflowPrefix
    requires e.typeEvent == ty.runWorkflowNode && e.projectKey == Some("P1")
    requires e.workflowName == Some("W1") && e.workflowRunNum == 5
    ensures UpdateWorkflowRunCache(ty, e, RouteParams(Some("P1"), None, None, Some("W1"), Some("5"), Some("N2"))) ==
            [GetWorkflowRun(Some("P1"), Some("W1"), 5), GetWorkflowNodeRun(Some("P1"), Some("W1"), 5, "N2")]
  {
    assert NatToString(5) == "5";
  }
}
