/** The values the event service reads and the store actions it issues: events, route
    parameters, cache snapshots, the timeline filter and the mutations (one constructor per
    action dispatched in ui/src/app/event.service.ts). */
module EventModel {
  import opened Js

  /** The `EventType` taxonomy. Its string values are defined in a model file that is not part
      of this model, so the decision functions take them as a parameter and every property is
      proved for any assignment of strings to these names. */
  datatype EventTypes = EventTypes(
    operation: string,                 // OPERATION
    runWorkflowNodeJob: string,        // RUN_WORKFLOW_NODE_JOB
    projectPrefix: string,             // PROJECT_PREFIX
    projectDelete: string,             // PROJECT_DELETE
    projectVariablePrefix: string,     // PROJECT_VARIABLE_PREFIX
    projectPermissionPrefix: string,   // PROJECT_PERMISSION_PREFIX
    projectKeyPrefix: string,          // PROJECT_KEY_PREFIX
    projectIntegrationPrefix: string,  // PROJECT_INTEGRATION_PREFIX
    environmentPrefix: string,         // ENVIRONMENT_PREFIX
    applicationPrefix: string,         // APPLICATION_PREFIX
    applicationAdd: string,            // APPLICATION_ADD
    applicationUpdate: string,         // APPLICATION_UPDATE
    applicationDelete: string,         // APPLICATION_DELETE
    pipelinePrefix: string,            // PIPELINE_PREFIX
    pipelineAdd: string,               // PIPELINE_ADD
    pipelineUpdate: string,            // PIPELINE_UPDATE
    pipelineDelete: string,            // PIPELINE_DELETE
    pipelineParameterPrefix: string,   // PIPELINE_PARAMETER_PREFIX
    workflowPrefix: string,            // WORKFLOW_PREFIX
    workflowAdd: string,               // WORKFLOW_ADD
    workflowUpdate: string,            // WORKFLOW_UPDATE
    workflowDelete: string,            // WORKFLOW_DELETE
    runWorkflowPrefix: string,         // RUN_WORKFLOW_PREFIX
    runWorkflowNode: string,           // RUN_WORKFLOW_NODE
    broadcastPrefix: string,           // BROADCAST_PREFIX
    broadcastAdd: string,              // BROADCAST_ADD
    broadcastUpdate: string,           // BROADCAST_UPDATE
    broadcastDelete: string)           // BROADCAST_DELETE

  /** The broadcast object carried by a broadcast event; its fields are not interpreted here. */
  datatype BroadcastEvent = BroadcastEvent(id: int, title: string, content: string)

  /** The parts of an event's `payload` the service reads. */
  datatype Payload = Payload(
    isJobRunPayload: bool,                 // `payload instanceof EventWorkflowNodeJobRunPayload`
    broadcast: Option<BroadcastEvent>,     // `payload['Broadcast']`
    newBroadcast: Option<BroadcastEvent>,  // `payload['NewBroadcast']`
    broadcastId: Option<int>)              // `payload['BroadcastID']`

  /** A push event. `typeEvent` is "" both when `type_event` is missing and when it is empty:
      every step treats the two alike. */
  datatype Event = Event(
    typeEvent: string,
    projectKey: Option<string>,
    applicationName: Option<string>,
    pipelineName: Option<string>,
    workflowName: Option<string>,
    workflowRunNum: nat,
    username: Option<string>,
    payload: Payload)

  /** The route parameters the service keeps (`routeParams['key']`, `['appName']`, ...). */
  datatype RouteParams = RouteParams(
    key: Option<string>,
    appName: Option<string>,
    pipName: Option<string>,
    workflowName: Option<string>,
    number: Option<string>,
    nodeId: Option<string>)

  /** The project held by `ProjectState`, when there is one. */
  datatype ProjectSnapshot = ProjectSnapshot(key: string)

  /** The `workflow` object held by `WorkflowState`; its `name` may itself be undefined. */
  datatype LoadedWorkflow = LoadedWorkflow(name: Option<string>)

  /** `WorkflowState`: its project key and its `workflow`, `None` when unset. */
  datatype WorkflowSnapshot = WorkflowSnapshot(projectKey: Option<string>, workflow: Option<LoadedWorkflow>)

  /** One read of the store taken when the event arrives: the cached project, the keys of the
      cached applications (`key + '/' + name`) and pipelines (`key + '-' + name`), and the
      workflow state (`None` when the state itself is null). */
  datatype StoreSnapshot = StoreSnapshot(
    project: Option<ProjectSnapshot>,
    applications: set<string>,
    pipelines: set<string>,
    workflow: Option<WorkflowSnapshot>)

  /** One entry of the timeline filter: a project and the workflows to mute in it. */
  datatype ProjectFilter = ProjectFilter(key: string, workflowNames: seq<string>)

  /** The timeline filter; `projects` may be undefined. */
  datatype TimelineFilter = TimelineFilter(projects: Option<seq<ProjectFilter>>)

  /** A `LoadOpts(queryParam, fieldName)` requested by a project resync. */
  datatype LoadOpt = LoadOpt(queryParam: string, fieldName: string)

  /** One action issued by the service: a store dispatch, a broadcast-store call, a run fetch
      whose answer updates the run list, or an addition to the timeline. */
  datatype Mutation =
    | UpdateOperation(operation: Payload)
    | UpdateQueue(job: Payload)
    | DeleteProjectFromCache(projectKey: string)
    | ExternalChangeProject(projectKey: string)
    | ResyncProject(projectKey: string, opts: seq<LoadOpt>)
    | DeleteFromCacheApplication(appProject: Option<string>, applicationName: Option<string>)
    | DeleteApplicationInProject(deletedApplication: Option<string>)
    | ExternalChangeApplication(appProject: Option<string>, applicationName: Option<string>)
    | ResyncApplication(appProject: Option<string>, applicationName: Option<string>)
    | DeleteFromCachePipeline(pipProject: Option<string>, pipelineName: Option<string>)
    | DeletePipelineInProject(deletedPipeline: Option<string>)
    | ExternalChangePipeline(pipProject: Option<string>, pipelineName: Option<string>)
    | ResyncPipeline(pipProject: Option<string>, pipelineName: Option<string>)
    | DeleteWorkflowInProject(deletedWorkflow: Option<string>)
    | ExternalChangeWorkflow(wfProject: Option<string>, workflowName: Option<string>)
    | GetWorkflow(wfProject: Option<string>, workflowName: Option<string>)
    | GetWorkflowRun(runProject: Option<string>, runWorkflow: Option<string>, num: nat)
    | FetchRunAndUpdateList(runProject: Option<string>, runWorkflow: Option<string>, num: nat)
    | GetWorkflowNodeRun(runProject: Option<string>, runWorkflow: Option<string>, num: nat, nodeRunId: string)
    | AddBroadcast(broadcastEvent: BroadcastEvent)
    | RemoveBroadcast(broadcastId: Option<int>)
    | TimelineAdd(event: Event)

  /** The step of `manageEvent` that issues an action. */
  datatype Step =
    | OperationStep | QueueStep | ProjectStep
    | ApplicationStep | PipelineStep | WorkflowStep | RunStep | BroadcastStep
    | TimelineStep

  /** The five per-entity handlers of which at most one runs for an event. */
  predicate IsEntityStep(s: Step)
  {
    s.ApplicationStep? || s.PipelineStep? || s.WorkflowStep? || s.RunStep? || s.BroadcastStep?
  }

  /** Which step issues a mutation: every kind of action is issued by exactly one step. */
  function StepOf(m: Mutation): Step
  {
    match m
    case UpdateOperation(_) => OperationStep
    case UpdateQueue(_) => QueueStep
    case DeleteProjectFromCache(_) => ProjectStep
    case ExternalChangeProject(_) => ProjectStep
    case ResyncProject(_, _) => ProjectStep
    case DeleteFromCacheApplication(_, _) => ApplicationStep
    case DeleteApplicationInProject(_) => ApplicationStep
    case ExternalChangeApplication(_, _) => ApplicationStep
    case ResyncApplication(_, _) => ApplicationStep
    case DeleteFromCachePipeline(_, _) => PipelineStep
    case DeletePipelineInProject(_) => PipelineStep
    case ExternalChangePipeline(_, _) => PipelineStep
    case ResyncPipeline(_, _) => PipelineStep
    case DeleteWorkflowInProject(_) => WorkflowStep
    case ExternalChangeWorkflow(_, _) => WorkflowStep
    case GetWorkflow(_, _) => WorkflowStep
    case GetWorkflowRun(_, _, _) => RunStep
    case FetchRunAndUpdateList(_, _, _) => RunStep
    case GetWorkflowNodeRun(_, _, _, _) => RunStep
    case AddBroadcast(_) => BroadcastStep
    case RemoveBroadcast(_) => BroadcastStep
    case TimelineAdd(_) => TimelineStep
  }

  /** The position of a step in `manageEvent` (event.service.ts:114-148). */
  function StepRank(s: Step): nat
  {
    match s
    case OperationStep => 0
    case QueueStep => 1
    case ProjectStep => 2
    case TimelineStep => 4
    case _ => 3
  }

  /** Every mutation in `ms` was issued by step `s`. */
  predicate AllFrom(ms: seq<Mutation>, s: Step)
  {
    forall m :: m in ms ==> StepOf(m) == s
  }

  /** The mutations of `ms` appear in the order of the steps that issued them. */
  ghost predicate InStepOrder(ms: seq<Mutation>)
  {
    forall i, j :: 0 <= i < j < |ms| ==> StepRank(StepOf(ms[i])) <= StepRank(StepOf(ms[j]))
  }

  /** The mutations of `ms` issued by step `s`, in their order. */
  function Only(ms: seq<Mutation>, s: Step): seq<Mutation>
  {
    if ms == [] then []
    else (if StepOf(ms[0]) == s then [ms[0]] else []) + Only(ms[1..], s)
  }

  /** Selecting the mutations of one step distributes over concatenation. */
  lemma {:induction false} OnlyAppend(a: seq<Mutation>, b: seq<Mutation>, s: Step)
    ensures Only(a + b, s) == Only(a, s) + Only(b, s)
  {
    if a != [] {
      var head := if StepOf(a[0]) == s then [a[0]] else [];
      assert (a + b)[0] == a[0] && (a + b)[1..] == a[1..] + b;
      assert Only(a + b, s) == head + Only(a[1..] + b, s);
      OnlyAppend(a[1..], b, s);
      assert Only(a, s) == head + Only(a[1..], s);
    } else {
      assert a + b == b;
    }
  }

  /** Selecting the step that issued everything keeps everything. */
  lemma {:induction false} OnlyAll(ms: seq<Mutation>, s: Step)
    requires AllFrom(ms, s)
    ensures Only(ms, s) == ms
  {
    if ms != [] {
      assert ms[0] in ms;
      OnlyAll(ms[1..], s);
      assert [ms[0]] + ms[1..] == ms;
    }
  }

  /** Selecting another step keeps nothing. */
  lemma {:induction false} OnlyOther(ms: seq<Mutation>, s: Step, other: Step)
    requires AllFrom(ms, s) && other != s
    ensures Only(ms, other) == []
  {
    if ms != [] {
      assert ms[0] in ms;
      assert forall m :: m in ms[1..] ==> m in ms;
      OnlyOther(ms[1..], s, other);
    }
  }

  /** The selection keeps exactly the mutations of `ms` that step `s` issued. */
  lemma {:induction false} OnlyMembers(ms: seq<Mutation>, s: Step)
    ensures forall m :: m in Only(ms, s) <==> m in ms && StepOf(m) == s
  {
    if ms != [] {
      OnlyMembers(ms[1..], s);
      assert ms == [ms[0]] + ms[1..];
    }
  }

  /** Appending a block whose steps all come later keeps the step order. */
  lemma InStepOrderAppend(a: seq<Mutation>, b: seq<Mutation>, k: nat)
    requires InStepOrder(a) && InStepOrder(b)
    requires forall m :: m in a ==> StepRank(StepOf(m)) <= k
    requires forall m :: m in b ==> StepRank(StepOf(m)) >= k
    ensures InStepOrder(a + b)
  {
    forall i, j | 0 <= i < j < |a + b|
      ensures StepRank(StepOf((a + b)[i])) <= StepRank(StepOf((a + b)[j]))
    {
      if j < |a| {
        assert (a + b)[i] == a[i] && (a + b)[j] == a[j];
      } else if i >= |a| {
        assert (a + b)[i] == b[i - |a|] && (a + b)[j] == b[j - |a|];
      } else {
        assert (a + b)[i] == a[i] && a[i] in a;
        assert (a + b)[j] == b[j - |a|] && b[j - |a|] in b;
      }
    }
  }

  /** A block issued by one step is in step order, and every mutation in it has that step's
      rank. */
  lemma AllFromInStepOrder(x: seq<Mutation>, sx: Step)
    requires AllFrom(x, sx)
    ensures InStepOrder(x)
    ensures forall m :: m in x ==> StepRank(StepOf(m)) == StepRank(sx)
  {
    forall i, j | 0 <= i < j < |x|
      ensures StepRank(StepOf(x[i])) <= StepRank(StepOf(x[j]))
    {
      assert x[i] in x && x[j] in x;
    }
  }

  /** The value paired with the first entry of `table` whose string is a prefix of `t`: the
      meaning of an `if (t.indexOf(p1) === 0) ... else if (t.indexOf(p2) === 0) ...` chain. */
  function FirstPrefixMatch<T>(table: seq<(string, T)>, t: string): Option<T>
  {
    if table == [] then None
    else if StartsWith(t, table[0].0) then Some(table[0].1)
    else FirstPrefixMatch(table[1..], t)
  }

  /** Entry `i` is the first entry of `table` whose prefix matches `t`. */
  ghost predicate FirstMatchAt<T>(table: seq<(string, T)>, t: string, i: nat)
  {
    i < |table| && StartsWith(t, table[i].0) &&
    forall j :: 0 <= j < i ==> !StartsWith(t, table[j].0)
  }

  /** The chain picks the value of the first matching entry, and picks nothing exactly when
      no entry matches. */
  lemma {:induction false} FirstPrefixMatchSpec<T>(table: seq<(string, T)>, t: string)
    ensures FirstPrefixMatch(table, t).None? <==>
            forall i :: 0 <= i < |table| ==> !StartsWith(t, table[i].0)
    ensures FirstPrefixMatch(table, t).Some? ==>
            exists i: nat :: FirstMatchAt(table, t, i) && table[i].1 == FirstPrefixMatch(table, t).value
  {
    if table == [] {
    } else if StartsWith(t, table[0].0) {
      assert FirstMatchAt(table, t, 0);
    } else {
      FirstPrefixMatchSpec(table[1..], t);
      if FirstPrefixMatch(table[1..], t).Some? {
        var i: nat :| FirstMatchAt(table[1..], t, i) && table[1..][i].1 == FirstPrefixMatch(table[1..], t).value;
        assert FirstMatchAt(table, t, i + 1);
      } else {
        forall i | 0 <= i < |table| ensures !StartsWith(t, table[i].0) {
          if i > 0 {
            assert table[i] == table[1..][i - 1];
          }
        }
      }
    }
  }

  /** The outcome of one per-entity cache handler, as the shared decision names them. */
  datatype Outcome = NoEffect | Evict | ExternalChange | Resync

  /** The decision the project, application and pipeline handlers share: nothing to do for an entity that is
      not cached; evict a cached entity the viewer is not looking at; flag a change made by
      someone else to the entity being viewed; evict on the viewer's own delete; otherwise
      resync, except for the kinds of change whose resync is skipped. */
  function SharedShape(cached: bool, viewing: bool, ownEvent: bool, isDelete: bool, skipResync: bool): (o: Outcome)
    ensures o == NoEffect <==> !cached || (viewing && ownEvent && !isDelete && skipResync)
    ensures o == Evict <==> cached && (!viewing || (ownEvent && isDelete))
    ensures o == ExternalChange <==> cached && viewing && !ownEvent
    ensures o == Resync <==> cached && viewing && ownEvent && !isDelete && !skipResync
  {
    if !cached then NoEffect
    else if !viewing then Evict
    else if !ownEvent then ExternalChange
    else if isDelete then Evict
    else if skipResync then NoEffect
    else Resync
  }
}
