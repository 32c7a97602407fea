/** All prepared scenes and shared visits of one service, and the device reservations between
    them: opening, every scene's own steps, shared transports, crashes and restarts. */
module SceneReservations {
  import opened Contracts
  import opened EndpointPreparation
  import opened SceneProtocol

  /** A scene's catalog key: owner, session and scenario. */
  type Key = string

  /** What a device is reserved for. */
  datatype Holder = ForScene(key: Key) | ForShared(visit: nat)

  datatype Reason = ConflictingReservations | UnreadableCheckpoint | StorageUnavailable

  /** Recovering: restoring saved scenes, before listening. StartRefused: start gave up. */
  datatype Mode = Running | Down | Recovering | StartRefused(reason: Reason)

  datatype World = World(
    mode: Mode,
    scenes: map<Key, Scene>,
    shared: map<nat, seq<Device>>,
    scopes: map<Device, Holder>)

  datatype Move =
    | Open(key: Key, devices: seq<Device>, admitted: bool, saved: bool)
    | Act(key: Key, event: Event)
    | OpenShared(visit: nat, devices: seq<Device>, admitted: bool)
    | CloseShared(visit: nat, closed: bool)
    | ProcessDies
    | StartUp
    | RestoreScene(key: Key, saved: bool)
    | Listen

  function Reserving(scopes: map<Device, Holder>, devices: seq<Device>, h: Holder): (r: map<Device, Holder>)
    ensures r.Keys == scopes.Keys + Members(devices)
    ensures forall d | d in r :: r[d] == if d in devices then h else scopes[d]
  {
    map d | d in scopes.Keys + Members(devices) :: if d in devices then h else scopes[d]
  }

  function Releasing(scopes: map<Device, Holder>, h: Holder): map<Device, Holder> {
    map d | d in scopes && scopes[d] != h :: scopes[d]
  }

  predicate Free(scopes: map<Device, Holder>, devices: seq<Device>) { forall d | d in devices :: d !in scopes }

  predicate Held(scopes: map<Device, Holder>, devices: seq<Device>, h: Holder) {
    forall d | d in devices :: d in scopes && scopes[d] == h
  }

  /** The database after the process is gone. */
  function Persisted(scenes: map<Key, Scene>): map<Key, Scene> {
    map k | k in scenes && scenes[k].saved.Some? :: scenes[k].(memory := None)
  }

  function Fallen(w: World, mode: Mode): World { World(mode, Persisted(w.scenes), map[], map[]) }

  /** A known key answers with what it has; otherwise every device must be free and all are
      reserved at once, unless the intent cannot be written: then the visit stays in the
      catalog without a task or a reservation. */
  function OpenScene(w: World, k: Key, devices: seq<Device>, admitted: bool, saves: bool): World {
    if k in w.scenes || !DistinctEndpoints(devices) || !admitted || !Free(w.scopes, devices) then w
    else
      w.(scenes := w.scenes[k := Opening(devices, saves)],
         scopes := if saves then Reserving(w.scopes, devices, ForScene(k)) else w.scopes)
  }

  /** What the service lets happen to a scene: device requests come through its reservation,
      and a close call settles it only once nothing is reserved for it. */
  predicate Permitted(w: World, k: Key, e: Event) {
    && Ordinary(e)
    && (e.Receive? ==> e.device in w.scopes && w.scopes[e.device] == ForScene(k))
    && (e.CloseReturn? ==> forall d | d in w.scopes :: w.scopes[d] != ForScene(k))
  }

  predicate Completes(s: Scene, e: Event) {
    e.CleanupDone? && e.saved && s.memory.Some? && s.memory.value.close == Ending({}, false)
  }

  /** A scene's own step; the reservation goes with the end of a cleanup that succeeded. */
  function ActScene(w: World, k: Key, e: Event): World {
    if k !in w.scenes || !Permitted(w, k, e) then w
    else
      w.(scenes := w.scenes[k := Step(w.scenes[k], e)],
         scopes := if Completes(w.scenes[k], e) then Releasing(w.scopes, ForScene(k)) else w.scopes)
  }

  function ReserveShared(w: World, i: nat, devices: seq<Device>, admitted: bool): World {
    if i in w.shared || !DistinctEndpoints(devices) || !admitted || !Free(w.scopes, devices) then w
    else w.(shared := w.shared[i := devices], scopes := Reserving(w.scopes, devices, ForShared(i)))
  }

  /** A shared transport that cannot be closed keeps its devices reserved. */
  function RetireShared(w: World, i: nat, closed: bool): World {
    if i !in w.shared || !closed then w
    else w.(shared := w.shared - {i}, scopes := Releasing(w.scopes, ForShared(i)))
  }

  /** One saved scene's recovery: rewritten, then reserved unless it is complete. */
  function RestoreOne(w: World, k: Key, saves: bool): World {
    if k !in w.scenes || w.scenes[k].memory.Some? || w.scenes[k].saved.None? then w
    else
      var s := w.scenes[k];
      var v := Restore(s.devices, s.saved.value);
      if v.None? then Fallen(w, StartRefused(UnreadableCheckpoint))
      else if !saves then Fallen(w, StartRefused(StorageUnavailable))
      else if v.value.cleanupComplete then w.(scenes := w.scenes[k := Recover(s, true)])
      else if !Free(w.scopes, s.devices) then
        Fallen(w.(scenes := w.scenes[k := Recover(s, true)]), StartRefused(ConflictingReservations))
      else w.(scenes := w.scenes[k := Recover(s, true)], scopes := Reserving(w.scopes, s.devices, ForScene(k)))
  }

  function Perform(w: World, m: Move): World {
    match m
    case Open(k, devices, admitted, saves) => if w.mode == Running then OpenScene(w, k, devices, admitted, saves) else w
    case Act(k, e) => if w.mode == Running then ActScene(w, k, e) else w
    case OpenShared(i, devices, admitted) => if w.mode == Running then ReserveShared(w, i, devices, admitted) else w
    case CloseShared(i, closed) => if w.mode == Running then RetireShared(w, i, closed) else w
    case ProcessDies => Fallen(w, Down)
    case StartUp => if w.mode == Running || w.mode == Recovering then w else w.(mode := Recovering)
    case RestoreScene(k, saves) => if w.mode == Recovering then RestoreOne(w, k, saves) else w
    case Listen =>
      if w.mode == Recovering && forall k | k in w.scenes :: w.scenes[k].memory.Some? then w.(mode := Running) else w
  }

  function PerformAll(w: World, ms: seq<Move>): World
    decreases ms
  {
    if ms == [] then w else PerformAll(Perform(w, ms[0]), ms[1..])
  }

  function NewWorld(): World { World(Running, map[], map[], map[]) }
}
