/** `updateProjectCache` (ui/src/app/event.service.ts:176-231): what a structural event does
    to the project held in `ProjectState`. */
module ProjectCache {
  import opened Js
  import opened EventModel

  /** The sub-collections a project resync reloads, keyed by the taxonomy prefix that selects
      them, in the order the handler tests the prefixes. */
  function ProjectOptTable(ty: EventTypes): seq<(string, seq<LoadOpt>)>
  {
    [ (ty.projectVariablePrefix, [LoadOpt("withVariables", "variables")]),
      (ty.projectPermissionPrefix, [LoadOpt("withGroups", "groups")]),
      (ty.projectKeyPrefix, [LoadOpt("withKeys", "keys")]),
      (ty.projectIntegrationPrefix, [LoadOpt("withIntegrations", "integrations")]),
      (ty.applicationPrefix, [LoadOpt("withApplicationNames", "application_names")]),
      (ty.pipelinePrefix, [LoadOpt("withPipelineNames", "pipeline_names")]),
      (ty.environmentPrefix, [LoadOpt("withEnvironmentNames", "environment_names")]),
      (ty.workflowPrefix, [LoadOpt("withWorkflowNames", "workflow_names"), LoadOpt("withLabels", "labels")]) ]
  }

  /** The `opts` of the resync: those of the first matching prefix, none when nothing matches. */
  function ResyncOpts(ty: EventTypes, t: string): seq<LoadOpt>
  {
    match FirstPrefixMatch(ProjectOptTable(ty), t)
    case Some(opts) => opts
    case None => []
  }

  /** The viewer has this project open: `routeParams['key']` is truthy and equals its key. */
  predicate ViewingProject(route: RouteParams, key: string)
  {
    Truthy(route.key) && route.key == Some(key)
  }

  /** The viewer's own edits of variables and parameters are not resynced. */
  predicate SkipsProjectResync(t: string)
  {
    Contains(t, "Variable") || Contains(t, "Parameter")
  }

  /** The actions for one event, given the cached project (if any), the route and the name of
      the logged-in user. */
  function UpdateProjectCache(ty: EventTypes, e: Event, project: Option<ProjectSnapshot>,
                              route: RouteParams, user: string): (ms: seq<Mutation>)
    ensures AllFrom(ms, ProjectStep)
    ensures |ms| <= 1
    ensures ms != [] ==> e.typeEvent != "" && project.Some? && e.projectKey == Some(project.value.key)
  {
    if e.typeEvent == "" then []
    else match project
      case None => []
      case Some(p) =>
        if e.projectKey != Some(p.key) then []
        else if !ViewingProject(route, p.key) then [DeleteProjectFromCache(p.key)]
        else if e.username != Some(user) then [ExternalChangeProject(p.key)]
        else if e.typeEvent == ty.projectDelete then [DeleteProjectFromCache(p.key)]
        else if !SkipsProjectResync(e.typeEvent) then [ResyncProject(p.key, ResyncOpts(ty, e.typeEvent))]
        else []
  }

  /** How each outcome of the shared decision shape is dispatched for a project. */
  function ProjectEffect(o: Outcome, key: string, opts: seq<LoadOpt>): seq<Mutation>
  {
    match o
    case NoEffect => []
    case Evict => [DeleteProjectFromCache(key)]
    case ExternalChange => [ExternalChangeProject(key)]
    case Resync => [ResyncProject(key, opts)]
  }

  /** The project handler follows the shared decision shape exactly: not cached under the
      event's key, nothing; not viewed, evict; viewed and changed by someone else, flag it
      (even for a delete or a variable edit); the viewer's own delete, evict; the viewer's own
      variable or parameter edit, nothing; any other own change, one scoped resync. */
  lemma ProjectFollowsSharedShape(ty: EventTypes, e: Event, p: ProjectSnapshot, route: RouteParams, user: string)
    requires e.typeEvent != ""
    ensures UpdateProjectCache(ty, e, Some(p), route, user) ==
            ProjectEffect(SharedShape(e.projectKey == Some(p.key), ViewingProject(route, p.key),
                                      e.username == Some(user), e.typeEvent == ty.projectDelete,
                                      SkipsProjectResync(e.typeEvent)),
                          p.key, ResyncOpts(ty, e.typeEvent))
  {
  }

  /** The resync options are those of the first prefix, in the handler's order, that the event
      type starts with; they are empty exactly when none of the eight prefixes matches. */
  lemma ResyncOptsFirstMatch(ty: EventTypes, t: string)
    ensures ResyncOpts(ty, t) == [] <==>
            forall i :: 0 <= i < |ProjectOptTable(ty)| ==> !StartsWith(t, ProjectOptTable(ty)[i].0)
    ensures ResyncOpts(ty, t) != [] ==>
            exists i: nat :: FirstMatchAt(ProjectOptTable(ty), t, i) && ProjectOptTable(ty)[i].1 == ResyncOpts(ty, t)
  {
    var table := ProjectOptTable(ty);
    FirstPrefixMatchSpec(table, t);
    if FirstPrefixMatch(table, t).Some? {
      var i: nat :| FirstMatchAt(table, t, i) && table[i].1 == FirstPrefixMatch(table, t).value;
      assert table[i].1 != [];
    }
  }

  /** A permission event that is not also a variable event resyncs only the groups. */
  lemma PermissionEditResyncsGroups(ty: EventTypes, e: Event, p: ProjectSnapshot, route: RouteParams, user: string)
    requires e.typeEvent != "" && e.typeEvent != ty.projectDelete && !SkipsProjectResync(e.typeEvent)
    requires e.projectKey == Some(p.key) && ViewingProject(route, p.key) && e.username == Some(user)
    requires StartsWith(e.typeEvent, ty.projectPermissionPrefix) && !StartsWith(e.typeEvent, ty.projectVariablePrefix)
    ensures UpdateProjectCache(ty, e, Some(p), route, user) == [ResyncProject(p.key, [LoadOpt("withGroups", "groups")])]
  {
    var table := ProjectOptTable(ty);
    assert !StartsWith(e.typeEvent, table[0].0);
    assert table[1..][0] == (ty.projectPermissionPrefix, [LoadOpt("withGroups", "groups")]);
    assert FirstPrefixMatch(table, e.typeEvent) == FirstPrefixMatch(table[1..], e.typeEvent);
  }

  /** When the taxonomy's variable prefix mentions 'Variable', the viewer's own variable edit on
      the project on screen issues no action at all. */
  lemma OwnVariableEditIsSilent(ty: EventTypes, e: Event, p: ProjectSnapshot, route: RouteParams, user: string)
    requires Contains(ty.projectVariablePrefix, "Variable")
    requires StartsWith(e.typeEvent, ty.projectVariablePrefix) && e.typeEvent != ty.projectDelete
    requires e.projectKey == Some(p.key) && ViewingProject(route, p.key) && e.username == Some(user)
    ensures UpdateProjectCache(ty, e, Some(p), route, user) == []
  {
    ContainsFromPrefix(ty.projectVariablePrefix, e.typeEvent, "Variable");
  }
}
