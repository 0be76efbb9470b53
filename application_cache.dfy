/** `updateApplicationCache` (ui/src/app/event.service.ts:233-274): what an application event
    does to the applications held in `ApplicationsState`. */
module ApplicationCache {
  import opened Js
  import opened EventModel

  /** The cache key `project_key + '/' + application_name` (undefined parts print as "undefined"). */
  function AppKey(e: Event): string
  {
    ToStr(e.projectKey) + "/" + ToStr(e.applicationName)
  }

  /** The viewer has this application open: a truthy route key equal to the event's project key
      and a route `appName` equal to the event's application name. */
  predicate ViewingApplication(route: RouteParams, e: Event)
  {
    Truthy(route.key) && route.key == e.projectKey && route.appName == e.applicationName
  }

  /** The actions for one event, given the keys of the cached applications. An unset or empty
      applications map (:241-243) holds no key, so the lookup of :245 covers it. */
  function UpdateApplicationCache(ty: EventTypes, e: Event, apps: set<string>,
                                  route: RouteParams, user: string): (ms: seq<Mutation>)
    ensures AllFrom(ms, ApplicationStep)
    ensures |ms| <= 2
    ensures ms != [] ==> e.typeEvent != "" && AppKey(e) in apps
  {
    if e.typeEvent == "" || AppKey(e) !in apps then []
    // A delete bypasses the route and actor checks.
    else if e.typeEvent == ty.applicationDelete then
      [DeleteFromCacheApplication(e.projectKey, e.applicationName), DeleteApplicationInProject(e.applicationName)]
    else if !ViewingApplication(route, e) then [DeleteFromCacheApplication(e.projectKey, e.applicationName)]
    else if e.username != Some(user) then [ExternalChangeApplication(e.projectKey, e.applicationName)]
    // Only 'Variable' suppresses the resync here, not 'Parameter'.
    else if !Contains(e.typeEvent, "Variable") then [ResyncApplication(e.projectKey, e.applicationName)]
    else []
  }

  /** How each outcome of the shared decision shape is dispatched for an application. */
  function ApplicationEffect(o: Outcome, e: Event): seq<Mutation>
  {
    match o
    case NoEffect => []
    case Evict => [DeleteFromCacheApplication(e.projectKey, e.applicationName)]
    case ExternalChange => [ExternalChangeApplication(e.projectKey, e.applicationName)]
    case Resync => [ResyncApplication(e.projectKey, e.applicationName)]
  }

  /** Every event but a delete follows the shared decision shape, with the resync skipped only
      when the type mentions 'Variable'. */
  lemma ApplicationFollowsSharedShape(ty: EventTypes, e: Event, apps: set<string>, route: RouteParams, user: string)
    requires e.typeEvent != "" && e.typeEvent != ty.applicationDelete
    ensures UpdateApplicationCache(ty, e, apps, route, user) ==
            ApplicationEffect(SharedShape(AppKey(e) in apps, ViewingApplication(route, e),
                                          e.username == Some(user), false, Contains(e.typeEvent, "Variable")), e)
  {
  }

  /** A delete of a cached application evicts it and strips its name from the project whatever
      the route and whoever the actor, where the shared shape would evict only on the viewer's
      own delete of the application on screen. */
  lemma ApplicationDeleteIgnoresRouteAndActor(ty: EventTypes, e: Event, apps: set<string>, route: RouteParams, user: string)
    requires e.typeEvent != "" && e.typeEvent == ty.applicationDelete && AppKey(e) in apps
    ensures UpdateApplicationCache(ty, e, apps, route, user) ==
            [DeleteFromCacheApplication(e.projectKey, e.applicationName), DeleteApplicationInProject(e.applicationName)]
  {
  }
}
