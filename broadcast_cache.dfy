/** `updateBroadcastCache` (ui/src/app/event.service.ts:403-424): broadcast events add to or
    remove from the broadcast store; no route or actor is consulted. */
module BroadcastCache {
  import opened Js
  import opened EventModel

  /** The actions for one event. The `switch` compares with `===`, the first matching case
      winning; a missing `Broadcast` or `NewBroadcast` payload entry is a no-op, while a delete
      passes `payload['BroadcastID']` on as it is, even when it is undefined. */
  function UpdateBroadcastCache(ty: EventTypes, e: Event): (ms: seq<Mutation>)
    ensures AllFrom(ms, BroadcastStep)
    ensures |ms| <= 1
    ensures ms != [] ==> e.typeEvent != "" &&
                         (e.typeEvent == ty.broadcastAdd || e.typeEvent == ty.broadcastUpdate || e.typeEvent == ty.broadcastDelete)
  {
    if e.typeEvent == "" then []
    else if e.typeEvent == ty.broadcastAdd then
      match e.payload.broadcast
      case Some(b) => [AddBroadcast(b)]
      case None => []
    else if e.typeEvent == ty.broadcastUpdate then
      match e.payload.newBroadcast
      case Some(b) => [AddBroadcast(b)]
      case None => []
    else if e.typeEvent == ty.broadcastDelete then [RemoveBroadcast(e.payload.broadcastId)]
    else []
  }

  /** Add stores the payload's `Broadcast` and update its `NewBroadcast`, each only when present;
      delete always removes by the payload's id. */
  lemma BroadcastDecisionTable(ty: EventTypes, e: Event)
    requires e.typeEvent != ""
    ensures e.typeEvent == ty.broadcastAdd ==>
            UpdateBroadcastCache(ty, e) == (if e.payload.broadcast.Some? then [AddBroadcast(e.payload.broadcast.value)] else [])
    ensures e.typeEvent != ty.broadcastAdd && e.typeEvent == ty.broadcastUpdate ==>
            UpdateBroadcastCache(ty, e) == (if e.payload.newBroadcast.Some? then [AddBroadcast(e.payload.newBroadcast.value)] else [])
    ensures e.typeEvent != ty.broadcastAdd && e.typeEvent != ty.broadcastUpdate && e.typeEvent == ty.broadcastDelete ==>
            UpdateBroadcastCache(ty, e) == [RemoveBroadcast(e.payload.broadcastId)]
  {
  }

  /** Each broadcast action, characterised on its own: a broadcast `b` is stored exactly when
      the event is an add carrying `b` as its `Broadcast`, or an update (and not an add)
      carrying `b` as its `NewBroadcast`; an id is removed exactly when the event is a delete
      (and neither an add nor an update) and the id is the payload's `BroadcastID`. */
  lemma BroadcastActions(ty: EventTypes, e: Event)
    ensures forall b :: AddBroadcast(b) in UpdateBroadcastCache(ty, e) <==>
            e.typeEvent != "" &&
            ((e.typeEvent == ty.broadcastAdd && e.payload.broadcast == Some(b)) ||
             (e.typeEvent != ty.broadcastAdd && e.typeEvent == ty.broadcastUpdate && e.payload.newBroadcast == Some(b)))
    ensures forall id :: RemoveBroadcast(id) in UpdateBroadcastCache(ty, e) <==>
            e.typeEvent != "" && e.typeEvent != ty.broadcastAdd && e.typeEvent != ty.broadcastUpdate &&
            e.typeEvent == ty.broadcastDelete && id == e.payload.broadcastId
  {
  }
}
