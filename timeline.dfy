/** `manageEventForTimeline` (ui/src/app/event.service.ts:151-174): whether a run event is
    added to the timeline or muted by the timeline filter. */
module Timeline {
  import opened Js
  import opened EventModel

  /** `projects.find(p => p.key === key)`: the first entry for the key. */
  function FindProject(projects: seq<ProjectFilter>, key: Option<string>): Option<ProjectFilter>
  {
    if projects == [] then None
    else if Some(projects[0].key) == key then Some(projects[0])
    else FindProject(projects[1..], key)
  }

  /** Entry `i` is the first entry of `projects` for `key`. */
  ghost predicate FirstProjectAt(projects: seq<ProjectFilter>, key: Option<string>, i: nat)
  {
    i < |projects| && Some(projects[i].key) == key &&
    forall j :: 0 <= j < i ==> Some(projects[j].key) != key
  }

  /** `find` returns the first entry for the key, and nothing exactly when no entry has it. */
  lemma {:induction false} FindProjectSpec(projects: seq<ProjectFilter>, key: Option<string>)
    ensures FindProject(projects, key).None? <==> forall i :: 0 <= i < |projects| ==> Some(projects[i].key) != key
    ensures FindProject(projects, key).Some? ==>
            exists i: nat :: FirstProjectAt(projects, key, i) && projects[i] == FindProject(projects, key).value
  {
    if projects != [] && Some(projects[0].key) != key {
      FindProjectSpec(projects[1..], key);
      if FindProject(projects[1..], key).Some? {
        var i: nat :| FirstProjectAt(projects[1..], key, i) && projects[1..][i] == FindProject(projects[1..], key).value;
        assert FirstProjectAt(projects, key, i + 1);
      } else {
        forall i | 0 <= i < |projects| ensures Some(projects[i].key) != key {
          if i > 0 {
            assert projects[i] == projects[1..][i - 1];
          }
        }
      }
    } else if projects != [] {
      assert FirstProjectAt(projects, key, 0);
    }
  }

  /** `names.find(w => w === name)`: the name itself when it is listed. */
  function FindName(names: seq<string>, name: Option<string>): (r: Option<string>)
    ensures r.Some? <==> name.Some? && name.value in names
    ensures r.Some? ==> r == name
  {
    if names == [] then None
    else if Some(names[0]) == name then Some(names[0])
    else FindName(names[1..], name)
  }

  /** The filter mutes the event: the first filter entry for the event's project lists the
      event's workflow, and the name found is truthy (an empty name never mutes). */
  predicate Muted(filter: Option<TimelineFilter>, e: Event)
  {
    filter.Some? && filter.value.projects.Some? &&
    match FindProject(filter.value.projects.value, e.projectKey)
    case None => false
    case Some(entry) => Truthy(FindName(entry.workflowNames, e.workflowName))
  }

  /** The actions for one event: only an event whose type is exactly the run type is considered,
      and it is added unless muted. The event added is the event itself: a value, so later
      changes elsewhere cannot reach it (the deep copy of :169). */
  function ManageEventForTimeline(ty: EventTypes, e: Event, filter: Option<TimelineFilter>): (ms: seq<Mutation>)
    ensures AllFrom(ms, TimelineStep)
    ensures ms == [] || ms == [TimelineAdd(e)]
    ensures ms != [] <==> e.typeEvent != "" && e.typeEvent == ty.runWorkflowPrefix && !Muted(filter, e)
  {
    if e.typeEvent == "" then []
    else if e.typeEvent == ty.runWorkflowPrefix && !Muted(filter, e) then [TimelineAdd(e)]
    else []
  }

  /** The event is muted exactly when the filter has a project list whose first entry for the
      event's project lists the event's (non-empty) workflow name; entries for the same project
      further down the list are never consulted. */
  lemma MutedIff(filter: Option<TimelineFilter>, e: Event)
    ensures Muted(filter, e) <==>
            filter.Some? && filter.value.projects.Some? && e.workflowName.Some? && e.workflowName.value != "" &&
            exists i: nat :: FirstProjectAt(filter.value.projects.value, e.projectKey, i) &&
                             e.workflowName.value in filter.value.projects.value[i].workflowNames
  {
    if filter.Some? && filter.value.projects.Some? {
      var projects := filter.value.projects.value;
      FindProjectSpec(projects, e.projectKey);
      if FindProject(projects, e.projectKey).Some? {
        var i: nat :| FirstProjectAt(projects, e.projectKey, i) && projects[i] == FindProject(projects, e.projectKey).value;
        forall k: nat | FirstProjectAt(projects, e.projectKey, k) ensures k == i {
        }
      }
    }
  }
}
