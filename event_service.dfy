/** The state `EventService` keeps between events (ui/src/app/event.service.ts:40-108): the
    subscription filter sent to the server, whether the socket has opened, the timeline filter
    and the route parameters. What the service hands to the socket is recorded in `outbox`. */
module Service {
  import opened Js
  import opened EventModel
  import Router

  /** The subscription message sent to the server: its criteria, which the service never looks
      into, and the `operation` it may set. */
  datatype WebSocketMessage = WebSocketMessage(criteria: map<string, string>, operation: Option<string>)

  class EventService {
    var currentFilter: Option<WebSocketMessage>
    var connected: bool
    var filter: Option<TimelineFilter>
    var routeParams: RouteParams
    /** Every message handed to `websocket.next`, oldest first. */
    ghost var outbox: seq<WebSocketMessage>

    /** Once the socket has opened, the last message sent is the current subscription filter:
        the server's subscription mirrors the client's. */
    ghost predicate Valid()
      reads this
    {
      connected && currentFilter.Some? ==> outbox != [] && outbox[|outbox| - 1] == currentFilter.value
    }

    /** The service starts unconnected, with no filters and the route the router service gives. */
    constructor (initialRoute: RouteParams)
      ensures Valid()
      ensures routeParams == initialRoute && !connected
      ensures currentFilter.None? && filter.None? && outbox == []
    {
      routeParams := initialRoute;
      connected := false;
      currentFilter := None;
      filter := None;
      outbox := [];
    }

    /** `initFilter` (:56-58): replaces the timeline filter with a copy of `f`. */
    method InitFilter(f: TimelineFilter)
      requires Valid()
      modifies this`filter
      ensures Valid() && filter == Some(f)
    {
      filter := Some(f);
    }

    /** `updateRoute` (:60-62): replaces the route parameters. */
    method UpdateRoute(params: RouteParams)
      requires Valid()
      modifies this`routeParams
      ensures Valid() && routeParams == params
    {
      routeParams := params;
    }

    /** The socket's open observer (:72-78): an 'open' notification marks the service connected
        and resends the current filter, if there is one, before anything else; any other
        notification changes nothing. Nothing ever marks the service disconnected again. */
    method OnOpen(valueType: string)
      requires Valid()
      modifies this`connected, this`outbox
      ensures Valid()
      ensures valueType == "open" ==>
              connected && outbox == old(outbox) + (if currentFilter.Some? then [currentFilter.value] else [])
      ensures valueType != "open" ==> connected == old(connected) && outbox == old(outbox)
    {
      if valueType == "open" {
        connected := true;
        if currentFilter.Some? {
          outbox := outbox + [currentFilter.value];
        }
      }
    }

    /** `addOperationFilter` (:98-101): sets the operation of the current filter and sends it,
        whether or not the socket has opened. Without a current filter the source throws before
        changing anything: `ok` is false and nothing changes. */
    method AddOperationFilter(uuid: string) returns (ok: bool)
      requires Valid()
      modifies this`currentFilter, this`outbox
      ensures Valid()
      ensures ok == old(currentFilter).Some?
      ensures ok ==> currentFilter == Some(old(currentFilter).value.(operation := Some(uuid))) &&
                     outbox == old(outbox) + [currentFilter.value]
      ensures !ok ==> currentFilter == old(currentFilter) && outbox == old(outbox)
    {
      ok := currentFilter.Some?;
      if ok {
        currentFilter := Some(currentFilter.value.(operation := Some(uuid)));
        outbox := outbox + [currentFilter.value];
      }
    }

    /** `updateFilter` (:103-108): replaces the current filter and sends it exactly when the
        socket has opened; otherwise the open observer sends it later. */
    method UpdateFilter(f: WebSocketMessage)
      modifies this`currentFilter, this`outbox
      ensures Valid()
      ensures currentFilter == Some(f)
      ensures outbox == if connected then old(outbox) + [f] else old(outbox)
    {
      currentFilter := Some(f);
      if connected {
        outbox := outbox + [f];
      }
    }

    /** The socket's message handler (:85-90) with `manageEvent` (:110-149): the actions for an
        inbound message, decided from the service's own route and timeline filter; the
        service's state is left as it was. */
    method Receive(ty: EventTypes, msg: Router.WebSocketEvent, store: StoreSnapshot, user: string)
      returns (ms: seq<Mutation>)
      ensures ms == Router.HandleMessage(ty, msg, store, routeParams, filter, user)
      ensures msg.status != "OK" ==> ms == []
    {
      ms := Router.HandleMessage(ty, msg, store, routeParams, filter, user);
    }
  }

  /** A filter set before the socket opens is held, then sent once when it opens, before any
      other message. */
  method FilterHeldUntilOpen(route: RouteParams, f: WebSocketMessage) returns (service: EventService)
    ensures fresh(service) && service.Valid()
    ensures service.connected && service.currentFilter == Some(f) && service.outbox == [f]
  {
    service := new EventService(route);
    service.UpdateFilter(f);
    assert service.outbox == [];
    service.OnOpen("open");
  }
}
