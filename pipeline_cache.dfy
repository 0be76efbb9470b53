/** `updatePipelineCache` (ui/src/app/event.service.ts:276-320): what a pipeline event does to
    the pipelines held in `PipelinesState`. */
module PipelineCache {
  import opened Js
  import opened EventModel

  /** The cache key `project_key + '-' + pipeline_name` (undefined parts print as "undefined"). */
  function PipKey(e: Event): string
  {
    ToStr(e.projectKey) + "-" + ToStr(e.pipelineName)
  }

  /** The viewer has this pipeline open: a truthy route key equal to the event's project key
      and a route `pipName` equal to the event's pipeline name. */
  predicate ViewingPipeline(route: RouteParams, e: Event)
  {
    Truthy(route.key) && route.key == e.projectKey && route.pipName == e.pipelineName
  }

  /** The actions for one event, given the keys of the cached pipelines (an unset state or map
      holds no key, :283). */
  function UpdatePipelineCache(ty: EventTypes, e: Event, pips: set<string>,
                               route: RouteParams, user: string): (ms: seq<Mutation>)
    ensures AllFrom(ms, PipelineStep)
    ensures |ms| <= 2
    ensures ms != [] ==> e.typeEvent != "" && PipKey(e) in pips
  {
    if e.typeEvent == "" || PipKey(e) !in pips then []
    // A delete bypasses the route and actor checks.
    else if e.typeEvent == ty.pipelineDelete then
      [DeleteFromCachePipeline(e.projectKey, e.pipelineName), DeletePipelineInProject(e.pipelineName)]
    else if !ViewingPipeline(route, e) then [DeleteFromCachePipeline(e.projectKey, e.pipelineName)]
    else if e.username != Some(user) then [ExternalChangePipeline(e.projectKey, e.pipelineName)]
    // No kind of event suppresses the resync here.
    else [ResyncPipeline(e.projectKey, e.pipelineName)]
  }

  /** How each outcome of the shared decision shape is dispatched for a pipeline. */
  function PipelineEffect(o: Outcome, e: Event): seq<Mutation>
  {
    match o
    case NoEffect => []
    case Evict => [DeleteFromCachePipeline(e.projectKey, e.pipelineName)]
    case ExternalChange => [ExternalChangePipeline(e.projectKey, e.pipelineName)]
    case Resync => [ResyncPipeline(e.projectKey, e.pipelineName)]
  }

  /** Every event but a delete follows the shared decision shape with the resync never skipped,
      so even the viewer's own parameter edit resyncs the pipeline. */
  lemma PipelineFollowsSharedShape(ty: EventTypes, e: Event, pips: set<string>, route: RouteParams, user: string)
    requires e.typeEvent != "" && e.typeEvent != ty.pipelineDelete
    ensures UpdatePipelineCache(ty, e, pips, route, user) ==
            PipelineEffect(SharedShape(PipKey(e) in pips, ViewingPipeline(route, e),
                                       e.username == Some(user), false, false), e)
  {
  }

  /** A delete of a cached pipeline evicts it and strips its name from the project whatever the
      route and whoever the actor. */
  lemma PipelineDeleteIgnoresRouteAndActor(ty: EventTypes, e: Event, pips: set<string>, route: RouteParams, user: string)
    requires e.typeEvent != "" && e.typeEvent == ty.pipelineDelete && PipKey(e) in pips
    ensures UpdatePipelineCache(ty, e, pips, route, user) ==
            [DeleteFromCachePipeline(e.projectKey, e.pipelineName), DeletePipelineInProject(e.pipelineName)]
  {
  }
}
