/** `manageEvent` (ui/src/app/event.service.ts:110-149) and the handling of an inbound socket
    message (:85-90): the actions issued for one event, step by step in the order of the
    source. */
module Router {
  import opened Js
  import opened EventModel
  import opened ProjectCache
  import opened ApplicationCache
  import opened PipelineCache
  import opened WorkflowCache
  import opened WorkflowRunCache
  import opened BroadcastCache
  import opened Timeline

  /** An inbound socket message: its status, and the event when the status is 'OK'. */
  datatype WebSocketEvent = WebSocketEvent(status: string, event: Option<Event>, error: string)

  /** `OPERATION`-prefixed events update the operation they carry (:114-117). */
  function OperationUpdate(ty: EventTypes, e: Event): (ms: seq<Mutation>)
    ensures AllFrom(ms, OperationStep)
    ensures ms != [] <==> StartsWith(e.typeEvent, ty.operation)
  {
    if StartsWith(e.typeEvent, ty.operation) then [UpdateOperation(e.payload)] else []
  }

  /** `RUN_WORKFLOW_NODE_JOB`-prefixed events update the queue, but only with a job-run payload;
      any other payload is only logged (:118-125). */
  function QueueUpdate(ty: EventTypes, e: Event): (ms: seq<Mutation>)
    ensures AllFrom(ms, QueueStep)
    ensures ms != [] <==> StartsWith(e.typeEvent, ty.runWorkflowNodeJob) && e.payload.isJobRunPayload
  {
    if StartsWith(e.typeEvent, ty.runWorkflowNodeJob) && e.payload.isJobRunPayload then [UpdateQueue(e.payload)] else []
  }

  /** The events forwarded to the project handler (:126-134). The source lists the three
      pipeline types twice (:129-132); the repetition changes nothing and is written once here. */
  predicate ConcernsProject(ty: EventTypes, t: string)
  {
    StartsWith(t, ty.projectPrefix) || StartsWith(t, ty.environmentPrefix) ||
    t == ty.applicationAdd || t == ty.applicationUpdate || t == ty.applicationDelete ||
    t == ty.pipelineAdd || t == ty.pipelineUpdate || t == ty.pipelineDelete ||
    StartsWith(t, ty.pipelineParameterPrefix) ||
    t == ty.workflowAdd || t == ty.workflowUpdate || t == ty.workflowDelete
  }

  /** The project step: the project handler, for the events that concern the project. */
  function ProjectUpdate(ty: EventTypes, e: Event, store: StoreSnapshot, route: RouteParams, user: string): (ms: seq<Mutation>)
    ensures AllFrom(ms, ProjectStep)
    ensures ms != [] ==> ConcernsProject(ty, e.typeEvent)
  {
    if ConcernsProject(ty, e.typeEvent) then UpdateProjectCache(ty, e, store.project, route, user) else []
  }

  /** The per-entity handlers, by the prefix that selects them, in the order they are tried
      (:137-147). */
  function EntityTable(ty: EventTypes): seq<(string, Step)>
  {
    [ (ty.applicationPrefix, ApplicationStep),
      (ty.pipelinePrefix, PipelineStep),
      (ty.workflowPrefix, WorkflowStep),
      (ty.runWorkflowPrefix, RunStep),
      (ty.broadcastPrefix, BroadcastStep) ]
  }

  /** The per-entity handler chosen for a type: the first of the `else if` chain that matches. */
  function SelectHandler(ty: EventTypes, t: string): Option<Step>
  {
    FirstPrefixMatch(EntityTable(ty), t)
  }

  /** The chosen handler is one of the five entity handlers, the first in the chain's order
      whose prefix the type starts with; none is chosen exactly when no prefix matches. */
  lemma SelectHandlerSpec(ty: EventTypes, t: string)
    ensures SelectHandler(ty, t).None? <==>
            forall i :: 0 <= i < |EntityTable(ty)| ==> !StartsWith(t, EntityTable(ty)[i].0)
    ensures SelectHandler(ty, t).Some? ==>
            IsEntityStep(SelectHandler(ty, t).value) &&
            exists i: nat :: FirstMatchAt(EntityTable(ty), t, i) && EntityTable(ty)[i].1 == SelectHandler(ty, t).value
  {
    FirstPrefixMatchSpec(EntityTable(ty), t);
    if SelectHandler(ty, t).Some? {
      var i: nat :| FirstMatchAt(EntityTable(ty), t, i) && EntityTable(ty)[i].1 == SelectHandler(ty, t).value;
      assert IsEntityStep(EntityTable(ty)[i].1);
    }
  }

  /** The handler for an entity step, reading the part of the store it selects. */
  function EntityHandler(s: Step, ty: EventTypes, e: Event, store: StoreSnapshot,
                         route: RouteParams, user: string): (ms: seq<Mutation>)
    ensures AllFrom(ms, s)
  {
    match s
    case ApplicationStep => UpdateApplicationCache(ty, e, store.applications, route, user)
    case PipelineStep => UpdatePipelineCache(ty, e, store.pipelines, route, user)
    case WorkflowStep => UpdateWorkflowCache(ty, e, store.workflow, route, user)
    case RunStep => UpdateWorkflowRunCache(ty, e, route)
    case BroadcastStep => UpdateBroadcastCache(ty, e)
    case _ => []
  }

  /** The entity step: the chosen handler, if any. */
  function EntityUpdate(ty: EventTypes, e: Event, store: StoreSnapshot, route: RouteParams, user: string): seq<Mutation>
  {
    match SelectHandler(ty, e.typeEvent)
    case Some(s) => EntityHandler(s, ty, e, store, route, user)
    case None => []
  }

  /** The actions issued for one event, in order: operation, queue, project, the chosen entity
      handler, timeline. An absent event or an empty or missing type issues nothing. */
  function ManageEvent(ty: EventTypes, ev: Option<Event>, store: StoreSnapshot, route: RouteParams,
                       filter: Option<TimelineFilter>, user: string): (ms: seq<Mutation>)
    ensures ev.None? || ev.value.typeEvent == "" ==> ms == []
  {
    match ev
    case None => []
    case Some(e) =>
      if e.typeEvent == "" then []
      else OperationUpdate(ty, e) + QueueUpdate(ty, e) + ProjectUpdate(ty, e, store, route, user) +
           EntityUpdate(ty, e, store, route, user) + ManageEventForTimeline(ty, e, filter)
  }

  /** An 'OK' message is handed to `manageEvent`; any other status only raises a toast. */
  function HandleMessage(ty: EventTypes, msg: WebSocketEvent, store: StoreSnapshot, route: RouteParams,
                         filter: Option<TimelineFilter>, user: string): (ms: seq<Mutation>)
    ensures msg.status != "OK" ==> ms == []
    ensures msg.status == "OK" && msg.event.None? ==> ms == []
  {
    if msg.status == "OK" then ManageEvent(ty, msg.event, store, route, filter, user) else []
  }

  /** A block issued by one step is all of that step's actions and none of any other's. */
  lemma OnlyOfBlock(x: seq<Mutation>, sx: Step, s: Step)
    requires AllFrom(x, sx)
    ensures Only(x, s) == if s == sx then x else []
  {
    if s == sx { OnlyAll(x, s); } else { OnlyOther(x, sx, s); }
  }

  /** Selecting a step's actions from five blocks selects them block by block. */
  lemma OnlyOfFive(a: seq<Mutation>, b: seq<Mutation>, c: seq<Mutation>, d: seq<Mutation>, f: seq<Mutation>, s: Step)
    ensures Only(a + b + c + d + f, s) == Only(a, s) + Only(b, s) + Only(c, s) + Only(d, s) + Only(f, s)
  {
    OnlyAppend(a, b, s);
    OnlyAppend(a + b, c, s);
    OnlyAppend(a + b + c, d, s);
    OnlyAppend(a + b + c + d, f, s);
  }

  /** The block of the chosen entity handler, if any, is all of that handler's actions and
      none of any other step's. */
  lemma OnlyOfEntityBlock(d: seq<Mutation>, chosen: Option<Step>, s: Step)
    requires chosen.None? ==> d == []
    requires chosen.Some? ==> AllFrom(d, chosen.value)
    ensures Only(d, s) == if chosen == Some(s) then d else []
  {
    if chosen.Some? {
      OnlyOfBlock(d, chosen.value, s);
    }
  }

  /** Five parts of which at most one is kept whole and the others are empty add up to the one
      that is kept, if any. */
  lemma KeepOne<T>(ra: seq<T>, rb: seq<T>, rc: seq<T>, rd: seq<T>, rf: seq<T>,
                   a: seq<T>, b: seq<T>, c: seq<T>, d: seq<T>, f: seq<T>,
                   ka: bool, kb: bool, kc: bool, kd: bool, kf: bool)
    requires ra == (if ka then a else []) && rb == (if kb then b else []) && rc == (if kc then c else [])
    requires rd == (if kd then d else []) && rf == (if kf then f else [])
    requires ka ==> !kb && !kc && !kd && !kf
    requires kb ==> !kc && !kd && !kf
    requires kc ==> !kd && !kf
    requires kd ==> !kf
    ensures ra + rb + rc + rd + rf ==
            if ka then a else if kb then b else if kc then c else if kd then d else if kf then f else []
  {
  }

  /** Five blocks of which each keeps all or none of its actions under the selection of `s`:
      the selection of the whole is the one block that keeps its actions, if any. */
  lemma OnlyOfSelectedBlocks(a: seq<Mutation>, b: seq<Mutation>, c: seq<Mutation>, d: seq<Mutation>, f: seq<Mutation>,
                             chosen: Option<Step>, s: Step)
    requires Only(a, s) == (if s == OperationStep then a else [])
    requires Only(b, s) == (if s == QueueStep then b else [])
    requires Only(c, s) == (if s == ProjectStep then c else [])
    requires Only(f, s) == (if s == TimelineStep then f else [])
    requires Only(d, s) == (if chosen == Some(s) then d else [])
    requires chosen.Some? ==> IsEntityStep(chosen.value)
    ensures s == OperationStep ==> Only(a + b + c + d + f, s) == a
    ensures s == QueueStep ==> Only(a + b + c + d + f, s) == b
    ensures s == ProjectStep ==> Only(a + b + c + d + f, s) == c
    ensures s == TimelineStep ==> Only(a + b + c + d + f, s) == f
    ensures IsEntityStep(s) ==> Only(a + b + c + d + f, s) == if chosen == Some(s) then d else []
  {
    OnlyOfFive(a, b, c, d, f, s);
    KeepOne(Only(a, s), Only(b, s), Only(c, s), Only(d, s), Only(f, s), a, b, c, d, f,
            s == OperationStep, s == QueueStep, s == ProjectStep, chosen == Some(s), s == TimelineStep);
  }

  /** The router's output is five blocks, each issued by one step (the fourth by the chosen
      entity handler, if any): selecting a step's actions from the whole picks out its block. */
  lemma OnlyOfBlocks(a: seq<Mutation>, b: seq<Mutation>, c: seq<Mutation>, d: seq<Mutation>, f: seq<Mutation>,
                     chosen: Option<Step>, s: Step)
    requires AllFrom(a, OperationStep) && AllFrom(b, QueueStep) && AllFrom(c, ProjectStep) && AllFrom(f, TimelineStep)
    requires chosen.None? ==> d == []
    requires chosen.Some? ==> IsEntityStep(chosen.value) && AllFrom(d, chosen.value)
    ensures s == OperationStep ==> Only(a + b + c + d + f, s) == a
    ensures s == QueueStep ==> Only(a + b + c + d + f, s) == b
    ensures s == ProjectStep ==> Only(a + b + c + d + f, s) == c
    ensures s == TimelineStep ==> Only(a + b + c + d + f, s) == f
    ensures IsEntityStep(s) ==> Only(a + b + c + d + f, s) == if chosen == Some(s) then d else []
  {
    OnlyOfBlock(a, OperationStep, s);
    OnlyOfBlock(b, QueueStep, s);
    OnlyOfBlock(c, ProjectStep, s);
    OnlyOfBlock(f, TimelineStep, s);
    OnlyOfEntityBlock(d, chosen, s);
    OnlyOfSelectedBlocks(a, b, c, d, f, chosen, s);
  }

  /** Five blocks issued by the steps in their order, the fourth by an entity handler, are in
      step order. */
  lemma BlocksInStepOrder(a: seq<Mutation>, b: seq<Mutation>, c: seq<Mutation>, d: seq<Mutation>, f: seq<Mutation>,
                          chosen: Option<Step>)
    requires AllFrom(a, OperationStep) && AllFrom(b, QueueStep) && AllFrom(c, ProjectStep) && AllFrom(f, TimelineStep)
    requires chosen.None? ==> d == []
    requires chosen.Some? ==> IsEntityStep(chosen.value) && AllFrom(d, chosen.value)
    ensures InStepOrder(a + b + c + d + f)
  {
    AllFromInStepOrder(a, OperationStep);
    AllFromInStepOrder(b, QueueStep);
    AllFromInStepOrder(c, ProjectStep);
    AllFromInStepOrder(f, TimelineStep);
    if chosen.Some? {
      AllFromInStepOrder(d, chosen.value);
    }
    InStepOrderAppend(a, b, 1);
    InStepOrderAppend(a + b, c, 2);
    InStepOrderAppend(a + b + c, d, 3);
    InStepOrderAppend(a + b + c + d, f, 4);
  }

  /** The steps are independent: the actions of each step in the router's output are exactly
      what that step issues on its own, so the operation, queue, project and timeline steps do
      not depend on which entity handler is chosen, and every entity handler but the chosen one
      contributes nothing. */
  lemma StepsAreIndependent(ty: EventTypes, e: Event, store: StoreSnapshot, route: RouteParams,
                            filter: Option<TimelineFilter>, user: string)
    requires e.typeEvent != ""
    ensures Only(ManageEvent(ty, Some(e), store, route, filter, user), OperationStep) == OperationUpdate(ty, e)
    ensures Only(ManageEvent(ty, Some(e), store, route, filter, user), QueueStep) == QueueUpdate(ty, e)
    ensures Only(ManageEvent(ty, Some(e), store, route, filter, user), ProjectStep) ==
            ProjectUpdate(ty, e, store, route, user)
    ensures Only(ManageEvent(ty, Some(e), store, route, filter, user), TimelineStep) ==
            ManageEventForTimeline(ty, e, filter)
    ensures forall s :: IsEntityStep(s) ==>
            Only(ManageEvent(ty, Some(e), store, route, filter, user), s) ==
            (if SelectHandler(ty, e.typeEvent) == Some(s) then EntityHandler(s, ty, e, store, route, user) else [])
  {
    var a, b, c := OperationUpdate(ty, e), QueueUpdate(ty, e), ProjectUpdate(ty, e, store, route, user);
    var d, f := EntityUpdate(ty, e, store, route, user), ManageEventForTimeline(ty, e, filter);
    var chosen := SelectHandler(ty, e.typeEvent);
    var ms := ManageEvent(ty, Some(e), store, route, filter, user);
    assert ms == a + b + c + d + f;
    SelectHandlerSpec(ty, e.typeEvent);
    OnlyOfBlocks(a, b, c, d, f, chosen, OperationStep);
    OnlyOfBlocks(a, b, c, d, f, chosen, QueueStep);
    OnlyOfBlocks(a, b, c, d, f, chosen, ProjectStep);
    OnlyOfBlocks(a, b, c, d, f, chosen, TimelineStep);
    forall s | IsEntityStep(s)
      ensures Only(ms, s) == (if chosen == Some(s) then EntityHandler(s, ty, e, store, route, user) else [])
    {
      OnlyOfBlocks(a, b, c, d, f, chosen, s);
    }
  }

  /** At most one entity handler acts on an event: every entity action in the router's output
      comes from the handler chosen by the first matching prefix. */
  lemma OneEntityHandler(ty: EventTypes, e: Event, store: StoreSnapshot, route: RouteParams,
                         filter: Option<TimelineFilter>, user: string)
    requires e.typeEvent != ""
    ensures forall m :: m in ManageEvent(ty, Some(e), store, route, filter, user) && IsEntityStep(StepOf(m)) ==>
            SelectHandler(ty, e.typeEvent) == Some(StepOf(m))
  {
    var ms := ManageEvent(ty, Some(e), store, route, filter, user);
    StepsAreIndependent(ty, e, store, route, filter, user);
    forall m | m in ms && IsEntityStep(StepOf(m)) ensures SelectHandler(ty, e.typeEvent) == Some(StepOf(m)) {
      OnlyMembers(ms, StepOf(m));
    }
  }

  /** A job event without a job-run payload never reaches the queue. */
  lemma NoQueueUpdateWithoutJobPayload(ty: EventTypes, e: Event, store: StoreSnapshot, route: RouteParams,
                                       filter: Option<TimelineFilter>, user: string)
    requires !e.payload.isJobRunPayload
    ensures forall m :: m in ManageEvent(ty, Some(e), store, route, filter, user) ==> !m.UpdateQueue?
  {
    if e.typeEvent != "" {
      var ms := ManageEvent(ty, Some(e), store, route, filter, user);
      StepsAreIndependent(ty, e, store, route, filter, user);
      forall m | m in ms ensures !m.UpdateQueue? {
        OnlyMembers(ms, QueueStep);
      }
    }
  }

  /** The router issues its actions in the order of its steps: operation, queue, project,
      entity handler, timeline. */
  lemma ActionsInStepOrder(ty: EventTypes, ev: Option<Event>, store: StoreSnapshot, route: RouteParams,
                           filter: Option<TimelineFilter>, user: string)
    ensures InStepOrder(ManageEvent(ty, ev, store, route, filter, user))
  {
    if ev.Some? && ev.value.typeEvent != "" {
      var e := ev.value;
      var a, b, c := OperationUpdate(ty, e), QueueUpdate(ty, e), ProjectUpdate(ty, e, store, route, user);
      var d, f := EntityUpdate(ty, e, store, route, user), ManageEventForTimeline(ty, e, filter);
      assert ManageEvent(ty, ev, store, route, filter, user) == a + b + c + d + f;
      SelectHandlerSpec(ty, e.typeEvent);
      BlocksInStepOrder(a, b, c, d, f, SelectHandler(ty, e.typeEvent));
    }
  }
}
