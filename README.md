# Event service cache-consistency model

A Dafny model of the cache-consistency decision engine of the CDS web UI's `EventService`
(`ui/src/app/event.service.ts`). For every push event the service decides which store actions
to issue. It may ignore the event, evict a cached project, application or pipeline, flag an
external change, resync part of an entity, strip a child name from the cached project, refresh a
workflow run or node run, add or remove a broadcast, or add the event to the timeline.

Each handler is a pure function. It takes the event, one snapshot of the store, the route
parameters and the logged-in user's name, and returns the list of actions (`Mutation`s) it
dispatches. `manageEvent` concatenates the steps' lists in the source's order. The service's
own state is a class with methods: the subscription filter, the `connected` flag, the timeline
filter and the route. Each method states its new state in full.

Modules, one per component:

- `Js` (js.dfy): JavaScript semantics the code relies on. `undefined` is an `Option`. It also
  models truthiness, `+` string coercion, `indexOf(p) === 0`, `indexOf(w) !== -1` and
  `Number.prototype.toString`.
- `EventModel` (event_model.dfy): events, route parameters, store snapshots, the timeline filter
  and the `Mutation`s. It also has the step that issues each mutation, the first-prefix-match
  chain, and `SharedShape`. `SharedShape` is the decision the project, application and
  pipeline handlers share: not cached → nothing; not viewed → evict; someone else's change →
  flag it; own delete → evict; own change → scoped resync unless it is skipped. Each of the
  three handlers is proved equal to it, with its own delete and skip rules.
- `ProjectCache`, `ApplicationCache`, `PipelineCache`, `WorkflowCache`, `WorkflowRunCache`,
  `BroadcastCache`: the six `update*Cache` handlers.
- `Timeline`: `manageEventForTimeline`.
- `Router`: `manageEvent` and the dispatch of an inbound socket message.
- `Service`: the `EventService` class and its state.

The `EventType` taxonomy strings are defined in a model file that is not part of this model.
They are a record parameter (`EventTypes`), so every property is proved for every assignment of
strings to the type names.

Points where the handlers differ from one another, as the code has them:

- The project (:183), application (:245) and pipeline (:283) handlers go on only when the
  cached entity *is* the event's. The workflow handler's gate (:328-329) compares with `!==`.
  It goes on only when the stored workflow is *not* the event's workflow.
  `WorkflowCache.CachedWorkflowEventsIgnored` proves the consequence: another user's change to
  the workflow on screen, which is also the workflow in the store, issues nothing.
- Application and pipeline deletes evict the entity and strip its name from the project. They
  do this whatever the route and whoever the actor (:249-253, :287-294).
- A workflow delete only strips the name from the project (:331-333). A workflow not on screen
  is left in the store.
- Only the project handler skips the viewer's own 'Variable' and 'Parameter' events (:227). The
  application handler skips only 'Variable' (:269), and the pipeline handler never skips (:315).
- Timeline admission needs the type to equal the run type exactly (:155). A prefix match is not
  enough.
- The node-run id that is refreshed comes from the route's `nodeId`, not from the event (:395).

## Model

| member | source | states |
|---|---|---|
| `Js.ContainsIff` | ui/src/app/event.service.ts:227 | the left-to-right scan used for `indexOf(w) !== -1` holds exactly when some position of the type string starts a copy of `w` |
| `Js.ContainsFromPrefix` | ui/src/app/event.service.ts:208-228 | a word found in a taxonomy prefix is found in every type string that starts with that prefix |
| `Js.NatToStringInjective` | ui/src/app/event.service.ts:367 | two run numbers print the same decimal text exactly when they are equal, so comparing the route's `number` with `workflow_run_num.toString()` compares run numbers |
| `EventModel.FirstPrefixMatchSpec` | ui/src/app/event.service.ts:137-147 | an `if indexOf(p) === 0 … else if …` chain picks the entry of the first prefix the type starts with, and picks nothing exactly when no prefix matches |
| `EventModel.SharedShape` | ui/src/app/event.service.ts:180-229 | the shared decision: nothing exactly when not cached or an own skipped change; evict exactly when cached and either not viewed or an own delete; flag exactly another actor's change to the viewed entity; resync exactly an own, non-delete, non-skipped change to the viewed entity |
| `ProjectCache.UpdateProjectCache` | ui/src/app/event.service.ts:176-231 | the project handler issues at most one project action, and only when a project is cached under the event's `project_key` and the type is non-empty |
| `ProjectCache.ProjectFollowsSharedShape` | ui/src/app/event.service.ts:180-229 | for a cached project: a key mismatch does nothing; when the project is not the route's (truthy) key, exactly one `DeleteProjectFromCache`; another actor gives exactly one `ExternalChangeProject`, even for a delete or a variable edit; the viewer's own `PROJECT_DELETE` evicts; the viewer's own 'Variable'/'Parameter' event does nothing; any other own event gives one `ResyncProject` with the scoped options |
| `ProjectCache.ResyncOptsFirstMatch` | ui/src/app/event.service.ts:207-225 | the resync options are those of the first prefix that matches, in the order variables, groups, keys, integrations, application names, pipeline names, environment names, workflow names + labels; they are empty exactly when none matches |
| `ProjectCache.PermissionEditResyncsGroups` | ui/src/app/event.service.ts:210-211 | the viewer's own permission event resyncs only `groups` |
| `ProjectCache.OwnVariableEditIsSilent` | ui/src/app/event.service.ts:208-229 | when the variable prefix mentions 'Variable', the viewer's own variable event on the project on screen issues nothing at all |
| `ApplicationCache.UpdateApplicationCache` | ui/src/app/event.service.ts:233-274 | the application handler issues only application actions, at most two, and only when `project_key + '/' + application_name` is cached |
| `ApplicationCache.ApplicationFollowsSharedShape` | ui/src/app/event.service.ts:255-271 | every non-delete event follows the shared decision: evict when not viewed, flag another actor's change, resync the viewer's own change unless the type contains 'Variable' |
| `ApplicationCache.ApplicationDeleteIgnoresRouteAndActor` | ui/src/app/event.service.ts:249-253 | a delete of a cached application evicts it and removes its name from the project, whatever the route and the actor |
| `PipelineCache.UpdatePipelineCache` | ui/src/app/event.service.ts:276-320 | the pipeline handler issues only pipeline actions, at most two, and only when `project_key + '-' + pipeline_name` is cached |
| `PipelineCache.PipelineFollowsSharedShape` | ui/src/app/event.service.ts:296-318 | every non-delete event follows the shared decision, with the resync never skipped |
| `PipelineCache.PipelineDeleteIgnoresRouteAndActor` | ui/src/app/event.service.ts:287-294 | a delete of a cached pipeline evicts it and removes its name from the project, whatever the route and the actor |
| `WorkflowCache.UpdateWorkflowCache` | ui/src/app/event.service.ts:322-356 | the workflow handler issues at most one workflow action, and only past the gate: a workflow is stored and its project key or name differs from the event's |
| `WorkflowCache.WorkflowDecisionTable` | ui/src/app/event.service.ts:331-355 | past the gate: `WORKFLOW_DELETE` gives only `DeleteWorkflowInProject`; a workflow not on screen gives nothing; another actor gives `ExternalChangeWorkflow`; the viewer's own change gives `GetWorkflow` |
| `WorkflowCache.CachedWorkflowEventsIgnored` | ui/src/app/event.service.ts:326-330 | an event about the very workflow in the store issues nothing, even another user's change to the workflow on screen, which the shared decision would flag |
| `WorkflowRunCache.UpdateWorkflowRunCache` | ui/src/app/event.service.ts:358-401 | run actions only, all about the event's project, workflow and run number; none unless the route's `key` and `workflowName` strictly equal the event's and the type is `RUN_WORKFLOW_PREFIX` or `RUN_WORKFLOW_NODE` |
| `WorkflowRunCache.RunEventRefreshesOrFetches` | ui/src/app/event.service.ts:366-381 | for any route on the event's workflow, a run event gives `GetWorkflowRun` when the route's `number` is the decimal text of the event's run; it fetches the run into the list when the route shows another run, no run at all, or text that is no run number's |
| `WorkflowRunCache.NodeRunEventOnlyForShownRun` | ui/src/app/event.service.ts:382-399 | a node-run event does nothing when the route shows another run, no run, or text that is no run number's; on the event's run it gives `GetWorkflowRun`, followed by `GetWorkflowNodeRun` with the route's `nodeId` when that is truthy |
| `WorkflowRunCache.NodeRunScenario` | ui/src/app/event.service.ts:382-399 | on run 5 of W1 in P1 with node N2 open, a node-run event for that run gives exactly: refresh run 5, refresh node-run N2 |
| `BroadcastCache.UpdateBroadcastCache` | ui/src/app/event.service.ts:403-424 | at most one broadcast action, and only for the add, update and delete types |
| `BroadcastCache.BroadcastDecisionTable` | ui/src/app/event.service.ts:407-423 | add stores `payload['Broadcast']` and update stores `payload['NewBroadcast']`, each only when present; delete always removes `payload['BroadcastID']` |
| `BroadcastCache.BroadcastActions` | ui/src/app/event.service.ts:407-423 | a broadcast is stored exactly when an add carries it as `Broadcast` or an update carries it as `NewBroadcast`; an id is removed exactly when the event is a delete and the id is the payload's `BroadcastID` |
| `Timeline.FindProjectSpec` | ui/src/app/event.service.ts:159 | `projects.find` returns the first entry whose key equals the event's project key, and nothing exactly when no entry does |
| `Timeline.FindName` | ui/src/app/event.service.ts:161 | `workflow_names.find` returns the event's workflow name exactly when it is listed |
| `Timeline.ManageEventForTimeline` | ui/src/app/event.service.ts:151-174 | the timeline gets at most the event itself, as a value, and gets it exactly when the type equals `RUN_WORKFLOW_PREFIX` and the filter does not mute it |
| `Timeline.MutedIff` | ui/src/app/event.service.ts:156-166 | an event is muted exactly when the first filter entry for its project lists its workflow name and that name is non-empty; later entries for the same project are never consulted |
| `Router.OperationUpdate` | ui/src/app/event.service.ts:114-117 | `UpdateOperation` is issued exactly for `OPERATION`-prefixed types |
| `Router.QueueUpdate` | ui/src/app/event.service.ts:118-125 | `UpdateQueue` is issued exactly for job-prefixed types that carry a job-run payload |
| `Router.ProjectUpdate` | ui/src/app/event.service.ts:126-136 | the project handler acts only on the structural types listed |
| `Router.SelectHandlerSpec` | ui/src/app/event.service.ts:137-147 | the entity handler chosen is the first, in the order application, pipeline, workflow, run, broadcast, whose prefix the type starts with |
| `Router.EntityHandler` | ui/src/app/event.service.ts:137-147 | each entity handler issues only actions of its own entity |
| `Router.ManageEvent` | ui/src/app/event.service.ts:110-113 | an absent event, or one with an empty or missing type, issues nothing, not even a timeline addition |
| `Router.HandleMessage` | ui/src/app/event.service.ts:85-90 | a message whose status is not 'OK' issues no action |
| `Router.StepsAreIndependent` | ui/src/app/event.service.ts:110-148 | the actions of each step in the output are exactly what that step issues alone. The operation, queue, project and timeline steps do not depend on the handler choice. Every entity handler except the chosen one contributes nothing |
| `Router.OneEntityHandler` | ui/src/app/event.service.ts:137-147 | every entity action in the output comes from the single handler chosen by the first matching prefix |
| `Router.NoQueueUpdateWithoutJobPayload` | ui/src/app/event.service.ts:118-125 | an event without a job-run payload never yields `UpdateQueue` |
| `Router.ActionsInStepOrder` | ui/src/app/event.service.ts:114-148 | the actions come in step order: operation, queue, project, entity handler, timeline |
| `Service.EventService.constructor` | ui/src/app/event.service.ts:49-54 | the service starts unconnected, without filters, with the given route and an empty outbox |
| `Service.EventService.InitFilter` | ui/src/app/event.service.ts:56-58 | replaces the timeline filter and keeps the invariant |
| `Service.EventService.UpdateRoute` | ui/src/app/event.service.ts:60-62 | replaces the route parameters and keeps the invariant |
| `Service.EventService.OnOpen` | ui/src/app/event.service.ts:72-78 | an 'open' notification sets `connected` and sends the current filter, if any, exactly once; anything else changes nothing; afterwards the last message sent is the current filter |
| `Service.EventService.AddOperationFilter` | ui/src/app/event.service.ts:98-101 | sets the current filter's `operation` and always sends the filter; with no current filter nothing changes (the source throws) |
| `Service.EventService.UpdateFilter` | ui/src/app/event.service.ts:103-108 | replaces the current filter and sends it exactly when `connected`; afterwards the last message sent (if connected) is the current filter |
| `Service.EventService.Receive` | ui/src/app/event.service.ts:85-90 | decides the actions for a message from the service's own route and timeline filter, without changing state |
| `Service.FilterHeldUntilOpen` | ui/src/app/event.service.ts:103-108 | a filter set before the socket opens is not sent then, and is sent exactly once when the socket opens |

## Left out

- The WebSocket transport: building the URL from the page location and base href, creating the
  socket, and `retryWhen(delay(5000))` (event.service.ts:64-84). These are I/O and retry
  plumbing. Only their effect on the `connected` and `currentFilter` state and the messages
  sent (`outbox`) is modelled.
- rxjs message buffering. `WebSocketSubject` queues messages handed to it before the socket
  opens. The model records what the service hands over, not what reaches the wire.
- A lost connection. Nothing in the source sets `connected` back to false, and the model keeps
  that.
- Toasts, `TranslateService` and `console` calls. They are presentation only.
- The store reducers. What `ResyncProject`, the `ExternalChange*` actions, the `DeleteFromCache*`
  actions, `UpdateWorkflowRunList` and `BroadcastStore.addBroadcastInCache` /
  `removeBroadcastFromCache` do inside the store is not part of this model. Neither are
  `Operation.FromWS` and `Broadcast.fromEvent`. The actions carry their arguments as values.
- The asynchronous run fetch (:376-379) is one action, `FetchRunAndUpdateList`. When its
  answer lands relative to later events is a concurrency matter and is not modelled.
- Reads of the store. Every handler reads one `StoreSnapshot` taken when the event arrives.
  In the source each handler reads its own slice of the store when it runs.
- Exceptions the source can raise: no logged-in user, an event without a `payload` on a
  broadcast type, a run event without `workflow_run_num` (the model's run number is always
  present), and `addOperationFilter` before `startWebsocket`. The one exception modelled is
  `addOperationFilter` without a current filter.
- Number formatting. `NatToString` gives plain decimal digits. JavaScript switches to exponent
  notation at 10^21, and no run number reaches that.
- `instanceof EventWorkflowNodeJobRunPayload` is a boolean in the payload.
- Deep copies and aliasing. `cloneDeep` (:57, :169) is value semantics. In the source,
  `addOperationFilter` changes the object the caller passed to `updateFilter`, and the
  messages already handed to the socket, in place. Values here keep the sent messages as they
  were sent.
- The values of the `EventType` strings. They are defined in a model file that is not part of
  this model, so no property depends on them.
- ui/src/app/views/settings/user/edit/user.edit.component.ts is not part of this model. It is
  view glue around HTTP calls.
- ui/src/app/views/workflow/run/node/pipeline/spawninfo/spawninfo.component.ts is not part of
  this model. It drives a web worker and a foreign formatting library.
