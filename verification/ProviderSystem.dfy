/** The provider as a whole: its scenes and shared visits, which reserve devices, and its locked
    provision and revoke calls, which look at those reservations, interleaved in every order with
    each other, crashes and restarts. */
module ProviderSystem {
  import opened Contracts
  import opened OperationLedger
  import opened LedgerHistory
  import opened EndpointPreparation
  import opened SceneProtocol
  import opened SceneGuarantees
  import opened SceneReservations
  import opened ReservationSoundness
  import Theorems = SceneTheorems
  import Transport = TransportResources
  import Resources = ResourceConservation
  import Ledger = LedgerAnswers
  import Answers = ServiceAnswers

  /** A process and its database; what stands at the transports outlives both. */
  datatype System = System(world: World, rows: Table, standing: set<Transport.Resource>)

  datatype Occurrence =
    | Internal(move: Move)
    | Provisions(q: Transport.ProvisionRequest, attempt: Transport.Attempt)
    | Revokes(v: Revocation, now: int, faults: Transport.Faults)

  /** What a locked call sees: the devices reserved are those some scene or shared visit holds. */
  function Seen(y: System): Transport.Service { Transport.Service(y.rows, y.standing, y.world.scopes.Keys) }

  function Called(y: System, after: Transport.Service): System { y.(rows := after.rows, standing := after.standing) }

  /** One step; calls are only served by a process that listens. */
  function Take(y: System, a: Occurrence): System {
    match a
    case Internal(m) => y.(world := Perform(y.world, m))
    case Provisions(q, attempt) =>
      if y.world.mode == Running then Called(y, Transport.ProvisionOnce(Seen(y), q, attempt).1) else y
    case Revokes(v, now, f) =>
      if y.world.mode == Running then Called(y, Transport.RevokeOnce(Seen(y), v, now, f).1) else y
  }

  function TakeAll(y: System, actions: seq<Occurrence>): System
    decreases actions
  {
    if actions == [] then y else TakeAll(Take(y, actions[0]), actions[1..])
  }

  function NewSystem(): System { System(NewWorld(), [], {}) }

  predicate Proper(a: Occurrence) {
    a.Provisions? ==> Resources.ProperRequest(a.q) && Resources.Alone(a.attempt)
  }

  predicate AllProper(actions: seq<Occurrence>) { forall a | a in actions :: Proper(a) }

  // -- What every run keeps ----------------------------------------------------------------------

  /** A scene that holds a device has been saved. */
  ghost predicate HoldersAreSaved(w: World) {
    forall d | d in w.scopes && w.scopes[d].ForScene? ::
      w.scopes[d].key in w.scenes && w.scenes[w.scopes[d].key].saved.Some?
  }

  ghost predicate SystemInv(y: System) { Sound(y.world) && HoldersAreSaved(y.world) && Inv(y.rows) }

  lemma StepKeepsSaved(s: Scene, e: Event)
    requires s.saved.Some?
    ensures Step(s, e).saved.Some?
  {
    if !Ordinary(e) { Theorems.ProcessStepRow(s, e); }
    else if s.memory.None? { Theorems.GoneStays(s, e); }
    else { Theorems.StepRow(s, e); }
  }

  lemma ActKeepsSaved(w: World, k: Key, e: Event)
    requires HoldersAreSaved(w)
    ensures HoldersAreSaved(ActScene(w, k, e))
  {
    if k in w.scenes && w.scenes[k].saved.Some? { StepKeepsSaved(w.scenes[k], e); }
  }

  lemma RestoreKeepsSaved(w: World, k: Key, saves: bool)
    requires HoldersAreSaved(w)
    ensures HoldersAreSaved(RestoreOne(w, k, saves))
  {
    if k in w.scenes && w.scenes[k].saved.Some? { StepKeepsSaved(w.scenes[k], Restart(true)); }
  }

  lemma MoveKeepsSaved(w: World, m: Move)
    requires HoldersAreSaved(w)
    ensures HoldersAreSaved(Perform(w, m))
  {
    match m
    case Act(k, e) => if w.mode == Running { ActKeepsSaved(w, k, e); }
    case RestoreScene(k, saves) => if w.mode == Recovering { RestoreKeepsSaved(w, k, saves); }
    case _ =>
  }

  lemma CallKeepsRows(y: System, a: Occurrence)
    requires Inv(y.rows) && Proper(a)
    ensures Inv(Take(y, a).rows)
  {
    match a
    case Internal(m) =>
    case Provisions(q, attempt) => Resources.CallExtendsRows(Seen(y), Resources.ProvisionCall(q, attempt));
    case Revokes(v, now, f) => Resources.CallExtendsRows(Seen(y), Resources.RevokeCall(v, now, f));
  }

  lemma TakeKeepsInv(y: System, a: Occurrence)
    requires SystemInv(y) && Proper(a)
    ensures SystemInv(Take(y, a))
  {
    CallKeepsRows(y, a);
    if a.Internal? {
      MoveKeepsSound(y.world, a.move);
      MoveKeepsSaved(y.world, a.move);
    }
  }

  lemma {:induction false} RunKeepsInv(y: System, actions: seq<Occurrence>)
    requires SystemInv(y) && AllProper(actions)
    ensures SystemInv(TakeAll(y, actions))
    decreases actions
  {
    if actions != [] {
      TakeKeepsInv(y, actions[0]);
      RunKeepsInv(Take(y, actions[0]), actions[1..]);
    }
  }

  lemma ReachedInv(actions: seq<Occurrence>)
    requires AllProper(actions)
    ensures SystemInv(TakeAll(NewSystem(), actions))
  {
    RunKeepsInv(NewSystem(), actions);
  }

  // -- Calls on a reserved device ------------------------------------------------------------------

  function RevocationsOf(t: Table, device: string): set<Row> {
    set r | r in t && r.kind == Revoke && r.ref.identity.device == device
  }

  /** The identity's channel authorises what it did, on the resource it did, and no revocation of
      its device has been recorded. */
  predicate RowsKeep(t: Table, u: Table, id: Identity) {
    && Resources.CurrentAuthority(u, id) == Resources.CurrentAuthority(t, id)
    && RevocationsOf(u, id.device) == RevocationsOf(t, id.device)
  }

  predicate Untouched(y: System, t: System, id: Identity) { RowsKeep(y.rows, t.rows, id) }

  lemma NoNewRevocation(t: Table, u: Table, device: string)
    requires Inv(t) && Extends(t, u)
    requires forall i | |t| <= i < |u| :: u[i].kind != Revoke || u[i].ref.identity.device != device
    ensures RevocationsOf(u, device) == RevocationsOf(t, device)
  {
    forall i | 0 <= i < |t| ensures u[i].kind == t[i].kind && (t[i].kind == Revoke ==> u[i] == t[i]) {
      assert Moves(t[i], u[..|t|][i]) && RowOk(t[i]);
    }
    forall r ensures r in RevocationsOf(u, device) <==> r in RevocationsOf(t, device) {
      if r in RevocationsOf(u, device) { var i :| 0 <= i < |u| && u[i] == r; assert t[i] in t; }
      if r in RevocationsOf(t, device) { var i :| 0 <= i < |t| && t[i] == r; assert u[i] in u; }
    }
  }

  lemma ProvisionAddsNoRevocation(s: Transport.Service, q: Transport.ProvisionRequest, attempt: Transport.Attempt)
    requires Inv(s.rows) && Resources.ProperRequest(q) && Resources.Alone(attempt)
    ensures var u := Transport.ProvisionOnce(s, q, attempt).1.rows;
            Extends(s.rows, u) && forall i | |s.rows| <= i < |u| :: u[i].kind != Revoke
  {
    var base := Transport.UpTo(s, attempt.now);
    Resources.ExpiryMovesNothing(s, attempt.now);
    Resources.ProvisionEffect(base, q, attempt);
    Resources.CallExtendsRows(s, Resources.ProvisionCall(q, attempt));
    GrantsOnly(base, q, attempt, Transport.ProvisionOn(base, q, attempt).1.rows);
  }

  lemma GrantsOnly(base: Transport.Service, q: Transport.ProvisionRequest, attempt: Transport.Attempt, rows: Table)
    requires Resources.ProperRequest(q) && Resources.LeavesRows(base, q, attempt, rows)
    ensures forall i | |base.rows| <= i < |rows| :: rows[i].kind != Revoke
  {}

  /** A provision of any identity leaves a reserved device's channel as it is. */
  lemma ProvisionSparesReserved(s: Transport.Service, q: Transport.ProvisionRequest, attempt: Transport.Attempt,
                                id: Identity)
    requires Inv(s.rows) && Resources.ProperRequest(q) && Resources.Alone(attempt) && id.device in s.reserved
    ensures RowsKeep(s.rows, Transport.ProvisionOnce(s, q, attempt).1.rows, id)
  {
    Resources.ReservedProvisionKeepsAuthority(s, q, attempt, id);
    ProvisionAddsNoRevocation(s, q, attempt);
    NoNewRevocation(s.rows, Transport.ProvisionOnce(s, q, attempt).1.rows, id.device);
  }

  lemma RevokeAddsOwnOnly(s: Transport.Service, v: Revocation, now: int, f: Transport.Faults)
    requires Inv(s.rows)
    ensures var u := Transport.RevokeOnce(s, v, now, f).1.rows;
            && Extends(s.rows, u)
            && (forall i | |s.rows| <= i < |u| :: u[i].ref.identity == v.ref.identity)
            && (v.ref.identity.device in s.reserved ==> |u| == |s.rows|)
  {
    Resources.ExpiryMovesNothing(s, now);
    Resources.RevokeEffect(Transport.UpTo(s, now), v, now, f);
    Resources.CallExtendsRows(s, Resources.RevokeCall(v, now, f));
    if v.ref.identity.device in s.reserved { Resources.ReservedRevokeOnlyExpires(s, v, now, f); }
  }

  /** So does a revocation of any identity, its own included. */
  lemma RevokeSparesReserved(s: Transport.Service, v: Revocation, now: int, f: Transport.Faults, id: Identity)
    requires Inv(s.rows) && id.device in s.reserved
    ensures RowsKeep(s.rows, Transport.RevokeOnce(s, v, now, f).1.rows, id)
  {
    Resources.ReservedRevokeKeepsAuthority(s, v, now, f, id);
    RevokeAddsOwnOnly(s, v, now, f);
    NoNewRevocation(s.rows, Transport.RevokeOnce(s, v, now, f).1.rows, id.device);
  }

  lemma TakeSparesReserved(y: System, a: Occurrence, id: Identity)
    requires Inv(y.rows) && Proper(a) && (y.world.mode == Running ==> id.device in y.world.scopes)
    ensures Untouched(y, Take(y, a), id)
  {
    if y.world.mode == Running {
      match a
      case Internal(m) =>
      case Provisions(q, attempt) => ProvisionSparesReserved(Seen(y), q, attempt, id);
      case Revokes(v, now, f) => RevokeSparesReserved(Seen(y), v, now, f, id);
    }
  }

  // -- While a scene engages the device -----------------------------------------------------------

  predicate Engages(y: System, k: Key, device: Device) { k in y.world.scenes && Engaged(y.world.scenes[k], device) }

  /** Wherever a run has got to: nothing that happens while a scene engages a device changes what
      the device's channel authorises or the resource it names, or records its revocation; and no
      conversation of its own is opened for it. */
  lemma EngagedDeviceIsUntouched(happened: seq<Occurrence>, a: Occurrence, k: Key, id: Identity)
    requires AllProper(happened) && Proper(a) && Engages(TakeAll(NewSystem(), happened), k, id.device)
    ensures var y := TakeAll(NewSystem(), happened);
            && Untouched(y, Take(y, a), id)
            && (y.world.mode == Running ==>
                  forall ref: DeviceRef, now | ref.identity == id ::
                    !Transport.ConvergeServing(Seen(y), ref, true, now).SessionOpened?)
  {
    var y := TakeAll(NewSystem(), happened);
    ReachedInv(happened);
    if y.world.mode == Running { EngagedIsHeld(y.world, k, id.device); }
    TakeSparesReserved(y, a, id);
  }

  /** The scene engages the device now and after every step. */
  predicate EngagesThroughout(y: System, happened: seq<Occurrence>, k: Key, device: Device)
    decreases happened
  {
    Engages(y, k, device) && (happened == [] || EngagesThroughout(Take(y, happened[0]), happened[1..], k, device))
  }

  lemma {:induction false} EngagementFreezes(y: System, more: seq<Occurrence>, k: Key, id: Identity)
    requires SystemInv(y) && AllProper(more) && EngagesThroughout(y, more, k, id.device)
    ensures Untouched(y, TakeAll(y, more), id)
    decreases more
  {
    if more != [] {
      if y.world.mode == Running { EngagedIsHeld(y.world, k, id.device); }
      TakeSparesReserved(y, more[0], id);
      TakeKeepsInv(y, more[0]);
      EngagementFreezes(Take(y, more[0]), more[1..], k, id);
    }
  }

  /** Over every run, for as long as a scene engages a device, through crashes and restarts: its
      channel authorises the same on the same resource, and no revocation of it is recorded. */
  lemma EngagedAuthorityIsFrozen(happened: seq<Occurrence>, more: seq<Occurrence>, k: Key, id: Identity)
    requires AllProper(happened) && AllProper(more)
    requires EngagesThroughout(TakeAll(NewSystem(), happened), more, k, id.device)
    ensures Untouched(TakeAll(NewSystem(), happened), TakeAll(TakeAll(NewSystem(), happened), more), id)
  {
    ReachedInv(happened);
    EngagementFreezes(TakeAll(NewSystem(), happened), more, k, id);
  }

  // -- Until the holder's closure is saved -----------------------------------------------------------

  /** The scene's completed closure is saved: its producers are gone and every device it woke has
      confirmed its end. */
  predicate ClosureSaved(w: World, k: Key) {
    && k in w.scenes && w.scenes[k].saved.Some? && w.scenes[k].saved.value.cleanupComplete
    && w.scenes[k].quiesced && w.scenes[k].woken <= w.scenes[k].confirmed
  }

  /** The device is the scene's: held by it, or its row is what a restart will hold it by. */
  predicate Guarded(w: World, k: Key, d: Device) {
    && k in w.scenes && d in w.scenes[k].devices && w.scenes[k].saved.Some?
    && (w.scenes[k].memory.Some? ==> d in w.scopes && w.scopes[d] == ForScene(k))
  }

  lemma HeldIsGuarded(w: World, k: Key, d: Device)
    requires Sound(w) && HoldersAreSaved(w) && d in w.scopes && w.scopes[d] == ForScene(k)
    ensures Guarded(w, k, d)
  {
    assert ScopeOk(w, d);
  }

  lemma CompleteRowIsClosure(w: World, k: Key)
    requires k in w.scenes && SceneInv(w.scenes[k]) && w.scenes[k].saved.Some?
    requires w.scenes[k].saved.value.cleanupComplete
    ensures ClosureSaved(w, k)
  {}

  lemma GuardedIsHeld(w: World, k: Key, d: Device)
    requires Sound(w) && w.mode == Running && Guarded(w, k, d)
    ensures d in w.scopes && w.scopes[d] == ForScene(k) && w.scenes[k].memory.Some? && SceneInv(w.scenes[k])
  {
    assert SceneFine(w, k);
  }

  lemma OwnActKeepsGuard(w: World, k: Key, e: Event, d: Device)
    requires Sound(w) && w.mode == Running && Guarded(w, k, d) && Permitted(w, k, e)
    ensures Guarded(ActScene(w, k, e), k, d) || ClosureSaved(ActScene(w, k, e), k)
  {
    var s := w.scenes[k];
    GuardedIsHeld(w, k, d);
    StepKeepsSaved(s, e);
    Theorems.StepKeepsDevices(s, e);
    if Completes(s, e) { CompletionProves(s, e); }
    StepGuards(w, k, Step(s, e), Completes(s, e), d);
  }

  lemma StepGuards(w: World, k: Key, n: Scene, releases: bool, d: Device)
    requires Guarded(w, k, d) && w.scenes[k].memory.Some? && n.saved.Some? && n.devices == w.scenes[k].devices
    requires releases ==> n.saved.value.cleanupComplete && n.quiesced && n.woken <= n.confirmed
    ensures Guarded(Replaced(w, k, n, releases), k, d) || ClosureSaved(Replaced(w, k, n, releases), k)
  {}

  lemma OtherActKeepsGuard(w: World, j: Key, e: Event, k: Key, d: Device)
    requires j != k && Guarded(w, k, d)
    ensures Guarded(ActScene(w, j, e), k, d)
  {}

  lemma FallKeepsGuard(w: World, mode: Mode, k: Key, d: Device)
    requires Guarded(w, k, d)
    ensures Guarded(Fallen(w, mode), k, d)
  {}

  lemma CollisionKeepsGuard(w: World, j: Key, n: Scene, k: Key, d: Device)
    requires Guarded(w, k, d) && j in w.scenes && n.devices == w.scenes[j].devices && n.saved.Some?
    ensures Guarded(Fallen(w.(scenes := w.scenes[j := n]), StartRefused(ConflictingReservations)), k, d)
  {}

  lemma ReturnKeepsGuard(w: World, j: Key, n: Scene, reserves: bool, k: Key, d: Device)
    requires Guarded(w, k, d) && j in w.scenes && n.devices == w.scenes[j].devices && n.saved.Some? && n.memory.Some?
    requires SceneInv(n) && reserves == !n.saved.value.cleanupComplete
    requires (reserves ==> Free(w.scopes, n.devices)) && w.scenes[j].memory.None?
    ensures Guarded(Returned(w, j, n, reserves), k, d) || ClosureSaved(Returned(w, j, n, reserves), k)
  {
    if j == k && !reserves { CompleteRowIsClosure(Returned(w, j, n, reserves), k); }
  }

  lemma ReturnedAs(w: World, j: Key)
    requires j in w.scenes && w.scenes[j].memory.None? && w.scenes[j].saved.Some?
    requires Restore(w.scenes[j].devices, w.scenes[j].saved.value).Some?
    ensures var n, reserves := Recover(w.scenes[j], true), !w.scenes[j].saved.value.cleanupComplete;
            RestoreOne(w, j, true)
            == if reserves && !Free(w.scopes, w.scenes[j].devices)
               then Fallen(w.(scenes := w.scenes[j := n]), StartRefused(ConflictingReservations))
               else Returned(w, j, n, reserves)
  {}

  lemma RestoreKeepsGuard(w: World, j: Key, saves: bool, k: Key, d: Device)
    requires Sound(w) && w.mode == Recovering && Guarded(w, k, d)
    ensures Guarded(RestoreOne(w, j, saves), k, d) || ClosureSaved(RestoreOne(w, j, saves), k)
  {
    if j in w.scenes && w.scenes[j].memory.None? && w.scenes[j].saved.Some? {
      FallKeepsGuard(w, StartRefused(UnreadableCheckpoint), k, d);
      FallKeepsGuard(w, StartRefused(StorageUnavailable), k, d);
      if Restore(w.scenes[j].devices, w.scenes[j].saved.value).Some? && saves { ReadableKeepsGuard(w, j, k, d); }
    }
  }

  lemma ReadableKeepsGuard(w: World, j: Key, k: Key, d: Device)
    requires Sound(w) && Guarded(w, k, d)
    requires j in w.scenes && w.scenes[j].memory.None? && w.scenes[j].saved.Some?
    requires Restore(w.scenes[j].devices, w.scenes[j].saved.value).Some?
    ensures Guarded(RestoreOne(w, j, true), k, d) || ClosureSaved(RestoreOne(w, j, true), k)
  {
    var n, reserves := Recover(w.scenes[j], true), !w.scenes[j].saved.value.cleanupComplete;
    SoundScenes(w);
    RecoveredScene(w.scenes[j]);
    ReturnedAs(w, j);
    if reserves && !Free(w.scopes, w.scenes[j].devices) { CollisionKeepsGuard(w, j, n, k, d); }
    else { ReturnKeepsGuard(w, j, n, reserves, k, d); }
  }

  lemma OpeningKeepsGuard(w: World, m: Move, k: Key, d: Device)
    requires m.Open? || m.OpenShared? || m.CloseShared?
    requires Guarded(w, k, d) && d in w.scopes && w.scopes[d] == ForScene(k)
    ensures Guarded(Perform(w, m), k, d)
  {}

  /** A guarded device stays guarded until its scene's closure is saved, whatever happens. */
  lemma MoveKeepsGuard(w: World, m: Move, k: Key, d: Device)
    requires Sound(w) && Guarded(w, k, d)
    ensures Guarded(Perform(w, m), k, d) || ClosureSaved(Perform(w, m), k)
  {
    if w.mode == Running { GuardedIsHeld(w, k, d); }
    if m.ProcessDies? {
      FallKeepsGuard(w, Down, k, d);
    } else if w.mode == Running {
      if !m.Act? {
        if m.Open? || m.OpenShared? || m.CloseShared? { OpeningKeepsGuard(w, m, k, d); }
      } else if m.key != k {
        OtherActKeepsGuard(w, m.key, m.event, k, d);
      } else if Permitted(w, k, m.event) {
        OwnActKeepsGuard(w, k, m.event, d);
      }
    } else if m.RestoreScene? && w.mode == Recovering {
      RestoreKeepsGuard(w, m.key, m.saved, k, d);
    }
  }

  lemma TakeKeepsGuard(y: System, a: Occurrence, k: Key, id: Identity)
    requires SystemInv(y) && Proper(a) && Guarded(y.world, k, id.device)
    ensures var t := Take(y, a);
            && SystemInv(t) && Untouched(y, t, id)
            && (Guarded(t.world, k, id.device) || ClosureSaved(t.world, k))
  {
    if y.world.mode == Running { GuardedIsHeld(y.world, k, id.device); }
    TakeSparesReserved(y, a, id);
    TakeKeepsInv(y, a);
    if a.Internal? { MoveKeepsGuard(y.world, a.move, k, id.device); }
  }

  /** At some point of the run the scene's completed closure is saved. */
  predicate ClosesIn(y: System, more: seq<Occurrence>, k: Key)
    decreases more
  {
    ClosureSaved(y.world, k) || (more != [] && ClosesIn(Take(y, more[0]), more[1..], k))
  }

  lemma {:induction false} GuardFreezes(y: System, more: seq<Occurrence>, k: Key, id: Identity)
    requires SystemInv(y) && AllProper(more) && Guarded(y.world, k, id.device) && !ClosesIn(y, more, k)
    ensures var t := TakeAll(y, more); SystemInv(t) && Guarded(t.world, k, id.device) && Untouched(y, t, id)
    decreases more
  {
    if more != [] {
      var t := Take(y, more[0]);
      TakeKeepsGuard(y, more[0], k, id);
      assert !ClosesIn(t, more[1..], k);
      GuardFreezes(t, more[1..], k, id);
    }
  }

  /** Over every run: from when a scene has reserved a device, whatever is called, crashed or
      restarted, what its channel authorises, the resource it names and its revocations stay the
      same until that scene's completed closure has been saved. */
  lemma AuthorityOutlastsReservation(happened: seq<Occurrence>, more: seq<Occurrence>, k: Key, id: Identity)
    requires AllProper(happened) && AllProper(more)
    requires var w := TakeAll(NewSystem(), happened).world; id.device in w.scopes && w.scopes[id.device] == ForScene(k)
    ensures var y := TakeAll(NewSystem(), happened);
            !ClosesIn(y, more, k) ==> Untouched(y, TakeAll(y, more), id)
  {
    var y := TakeAll(NewSystem(), happened);
    ReachedInv(happened);
    HeldIsGuarded(y.world, k, id.device);
    if !ClosesIn(y, more, k) { GuardFreezes(y, more, k, id); }
  }

  // -- Retiring the reservation first -----------------------------------------------------------------

  /** _provision: once; if a reservation is in the way, its scope is retired, which takes as long
      as it takes, with whatever else happens meanwhile, and may fail; then once more. */
  function ProvisionRetiring(y: System, q: Transport.ProvisionRequest, first: Transport.Attempt,
                             meanwhile: seq<Occurrence>, trouble: Option<DomainError>, second: Transport.Attempt)
    : (Result<Response>, System)
  {
    var result := Transport.ProvisionOnce(Seen(y), q, first).0;
    var t := Take(y, Provisions(q, first));
    if result != Failure(TransportTransitionRequired) then (result, t)
    else
      var u := TakeAll(t, meanwhile);
      if trouble.Some? then (Failure(trouble.value), u)
      else (Transport.ProvisionOnce(Seen(u), q, second).0, Take(u, Provisions(q, second)))
  }

  /** revoke: the same. */
  function RevokeRetiring(y: System, v: Revocation, now: int, first: Transport.Faults, meanwhile: seq<Occurrence>,
                          trouble: Option<DomainError>, later: int, second: Transport.Faults)
    : (Result<Response>, System)
  {
    var result := Transport.RevokeOnce(Seen(y), v, now, first).0;
    var t := Take(y, Revokes(v, now, first));
    if result != Failure(TransportTransitionRequired) then (result, t)
    else
      var u := TakeAll(t, meanwhile);
      if trouble.Some? then (Failure(trouble.value), u)
      else (Transport.RevokeOnce(Seen(u), v, later, second).0, Take(u, Revokes(v, later, second)))
  }

  lemma CallsMoveNothing(y: System, a: Occurrence)
    requires !a.Internal?
    ensures Take(y, a).world == y.world
  {}

  /** One call, what happens next, and maybe another call, while the device is guarded. */
  lemma TriesFreeze(y: System, a: Occurrence, meanwhile: seq<Occurrence>, b: Occurrence, k: Key, id: Identity)
    requires SystemInv(y) && Proper(a) && Proper(b) && AllProper(meanwhile) && !a.Internal? && !b.Internal?
    requires Guarded(y.world, k, id.device) && !ClosesIn(Take(y, a), meanwhile, k)
    ensures var t := Take(y, a);
            var u := TakeAll(t, meanwhile);
            Untouched(y, t, id) && Untouched(y, u, id) && Untouched(y, Take(u, b), id)
  {
    TakeKeepsGuard(y, a, k, id);
    CallsMoveNothing(y, a);
    GuardFreezes(Take(y, a), meanwhile, k, id);
    TakeKeepsGuard(TakeAll(Take(y, a), meanwhile), b, k, id);
  }

  lemma ProvisionRetiringFreezes(y: System, q: Transport.ProvisionRequest, first: Transport.Attempt,
                                 meanwhile: seq<Occurrence>, trouble: Option<DomainError>,
                                 second: Transport.Attempt, k: Key, id: Identity)
    requires SystemInv(y) && Guarded(y.world, k, id.device) && AllProper(meanwhile)
    requires Proper(Provisions(q, first)) && Proper(Provisions(q, second))
    requires !ClosesIn(Take(y, Provisions(q, first)), meanwhile, k)
    ensures Untouched(y, ProvisionRetiring(y, q, first, meanwhile, trouble, second).1, id)
  {
    TriesFreeze(y, Provisions(q, first), meanwhile, Provisions(q, second), k, id);
  }

  lemma RevokeRetiringFreezes(y: System, v: Revocation, now: int, first: Transport.Faults, meanwhile: seq<Occurrence>,
                              trouble: Option<DomainError>, later: int, second: Transport.Faults, k: Key, id: Identity)
    requires SystemInv(y) && Guarded(y.world, k, id.device) && AllProper(meanwhile)
    requires !ClosesIn(Take(y, Revokes(v, now, first)), meanwhile, k)
    ensures Untouched(y, RevokeRetiring(y, v, now, first, meanwhile, trouble, later, second).1, id)
  {
    TriesFreeze(y, Revokes(v, now, first), meanwhile, Revokes(v, later, second), k, id);
  }

  /** A provision of a device a scene has reserved, with the retirement it asks for, changes what
      the device's channel authorises, or the resource it names, only if the scene's completed
      closure was saved in between. */
  lemma AuthorityChangesOnlyAfterClosure(happened: seq<Occurrence>, q: Transport.ProvisionRequest,
                                         first: Transport.Attempt, meanwhile: seq<Occurrence>,
                                         trouble: Option<DomainError>, second: Transport.Attempt, k: Key, id: Identity)
    requires AllProper(happened) && AllProper(meanwhile)
    requires Resources.ProperRequest(q) && Resources.Alone(first) && Resources.Alone(second)
    requires var w := TakeAll(NewSystem(), happened).world; id.device in w.scopes && w.scopes[id.device] == ForScene(k)
    ensures var y := TakeAll(NewSystem(), happened);
            || Untouched(y, ProvisionRetiring(y, q, first, meanwhile, trouble, second).1, id)
            || ClosesIn(Take(y, Provisions(q, first)), meanwhile, k)
  {
    var y := TakeAll(NewSystem(), happened);
    ReachedInv(happened);
    HeldIsGuarded(y.world, k, id.device);
    if !ClosesIn(Take(y, Provisions(q, first)), meanwhile, k) {
      ProvisionRetiringFreezes(y, q, first, meanwhile, trouble, second, k, id);
    }
  }

  /** A revocation of a device a scene has reserved, with the retirement it asks for, is recorded
      only if the scene's completed closure was saved in between. */
  lemma RevocationCommitsOnlyAfterClosure(happened: seq<Occurrence>, v: Revocation, now: int, first: Transport.Faults,
                                          meanwhile: seq<Occurrence>, trouble: Option<DomainError>,
                                          later: int, second: Transport.Faults, k: Key, id: Identity)
    requires AllProper(happened) && AllProper(meanwhile)
    requires var w := TakeAll(NewSystem(), happened).world; id.device in w.scopes && w.scopes[id.device] == ForScene(k)
    ensures var y := TakeAll(NewSystem(), happened);
            || Untouched(y, RevokeRetiring(y, v, now, first, meanwhile, trouble, later, second).1, id)
            || ClosesIn(Take(y, Revokes(v, now, first)), meanwhile, k)
  {
    var y := TakeAll(NewSystem(), happened);
    ReachedInv(happened);
    HeldIsGuarded(y.world, k, id.device);
    if !ClosesIn(Take(y, Revokes(v, now, first)), meanwhile, k) {
      RevokeRetiringFreezes(y, v, now, first, meanwhile, trouble, later, second, k, id);
    }
  }

  /** Nobody waits for a device that is not reserved: the first try answers, whatever may come. */
  lemma UnreservedIsAnsweredAtOnce(y: System, q: Transport.ProvisionRequest, first: Transport.Attempt,
                                   meanwhile: seq<Occurrence>, trouble: Option<DomainError>, second: Transport.Attempt,
                                   v: Revocation, now: int, faults: Transport.Faults, later: int,
                                   again: Transport.Faults)
    ensures q.ref.identity.device !in y.world.scopes ==>
              ProvisionRetiring(y, q, first, meanwhile, trouble, second)
              == (Transport.ProvisionOnce(Seen(y), q, first).0, Take(y, Provisions(q, first)))
    ensures v.ref.identity.device !in y.world.scopes ==>
              RevokeRetiring(y, v, now, faults, meanwhile, trouble, later, again)
              == (Transport.RevokeOnce(Seen(y), v, now, faults).0, Take(y, Revokes(v, now, faults)))
  {
    if q.ref.identity.device !in y.world.scopes {
      Answers.UnreservedNeedNotWait(Seen(y), q, first);
      AnsweredAtOnce(y, q, first, meanwhile, trouble, second);
    }
    if v.ref.identity.device !in y.world.scopes {
      Answers.UnreservedRevocationNeedNotWait(Seen(y), v, now, faults);
      RevokedAtOnce(y, v, now, faults, meanwhile, trouble, later, again);
    }
  }

  lemma AnsweredAtOnce(y: System, q: Transport.ProvisionRequest, first: Transport.Attempt,
                       meanwhile: seq<Occurrence>, trouble: Option<DomainError>, second: Transport.Attempt)
    requires Transport.ProvisionOnce(Seen(y), q, first).0 != Failure(TransportTransitionRequired)
    ensures ProvisionRetiring(y, q, first, meanwhile, trouble, second)
         == (Transport.ProvisionOnce(Seen(y), q, first).0, Take(y, Provisions(q, first)))
  {}

  lemma RevokedAtOnce(y: System, v: Revocation, now: int, first: Transport.Faults, meanwhile: seq<Occurrence>,
                      trouble: Option<DomainError>, later: int, second: Transport.Faults)
    requires Transport.RevokeOnce(Seen(y), v, now, first).0 != Failure(TransportTransitionRequired)
    ensures RevokeRetiring(y, v, now, first, meanwhile, trouble, later, second)
         == (Transport.RevokeOnce(Seen(y), v, now, first).0, Take(y, Revokes(v, now, first)))
  {}

  /** A provision nothing on record speaks against: no row of its generation or a newer one. */
  ghost predicate OpensGeneration(t: Table, ref: DeviceRef) {
    !Ledger.Outdated(t, ref) && forall r | r in t :: r.ref != ref
  }

  /** A provision of a new generation, asked while its device is reserved, ends as the retirement
      does if that fails; if it frees the device, it is granted by the second try. */
  lemma ProvisionIsGrantedAfterRetirement(y: System, q: Transport.ProvisionRequest, first: Transport.Attempt,
                                          meanwhile: seq<Occurrence>, trouble: Option<DomainError>,
                                          second: Transport.Attempt)
    requires SystemInv(y) && AllProper(meanwhile) && q.kind == Provision && q.ref.identity.device in y.world.scopes
    requires y.world.mode == Running
    requires var base := Transport.UpTo(Seen(y), first.now);
             Answers.Undisturbed(base, q, first) && OpensGeneration(base.rows, q.ref)
    requires var u := TakeAll(Take(y, Provisions(q, first)), meanwhile);
             var base := Transport.UpTo(Seen(u), second.now);
             && u.world.mode == Running && q.ref.identity.device !in u.world.scopes
             && Answers.Undisturbed(base, q, second) && OpensGeneration(base.rows, q.ref)
    ensures var u := TakeAll(Take(y, Provisions(q, first)), meanwhile);
            var (result, after) := ProvisionRetiring(y, q, first, meanwhile, trouble, second);
            if trouble.Some? then result == Failure(trouble.value) && after == u
            else Answers.Granted(result, Seen(after), q, second, second.selected)
  {
    var u := TakeAll(Take(y, Provisions(q, first)), meanwhile);
    NewGenerationHasNoChannel(Transport.UpTo(Seen(y), first.now).rows, q.ref);
    NewGenerationHasNoChannel(Transport.UpTo(Seen(u), second.now).rows, q.ref);
    Answers.ProvisionIsAnswered(Seen(y), q, first);
    TakeKeepsInv(y, Provisions(q, first));
    RunKeepsInv(Take(y, Provisions(q, first)), meanwhile);
    Answers.ProvisionIsAnswered(Seen(u), q, second);
  }

  lemma NewGenerationHasNoChannel(t: Table, ref: DeviceRef)
    requires OpensGeneration(t, ref)
    ensures forall l | CurrentChannel(t, ref.identity) == Some(l) :: l.ref != ref
  {}

  /** A first revocation asked while its device is reserved: the same. */
  lemma RevocationSucceedsAfterRetirement(y: System, v: Revocation, now: int, first: Transport.Faults,
                                          meanwhile: seq<Occurrence>, trouble: Option<DomainError>,
                                          later: int, second: Transport.Faults)
    requires SystemInv(y) && AllProper(meanwhile) && v.ref.identity.device in y.world.scopes && y.world.mode == Running
    requires var t := Transport.UpTo(Seen(y), now).rows;
             Ledger.UnrecordedRevocation(t, v) && !Ledger.Outdated(t, v.ref)
    requires var u := TakeAll(Take(y, Revokes(v, now, first)), meanwhile);
             var t := Transport.UpTo(Seen(u), later).rows;
             && u.world.mode == Running && v.ref.identity.device !in u.world.scopes
             && Ledger.UnrecordedRevocation(t, v) && !Ledger.Outdated(t, v.ref)
             && !second.storeFails && !second.closeFails && forall r | r in t :: r.adapterName in second.configured
    ensures var u := TakeAll(Take(y, Revokes(v, now, first)), meanwhile);
            var (result, after) := RevokeRetiring(y, v, now, first, meanwhile, trouble, later, second);
            if trouble.Some? then result == Failure(trouble.value) && after == u
            else
              && result == Success(Response(None, v.body)) && CurrentChannel(after.rows, v.ref.identity).None?
              && exists r :: r in after.rows && Ledger.RecordsRevocation(r, v)
  {
    var u := TakeAll(Take(y, Revokes(v, now, first)), meanwhile);
    Answers.RevocationIsAnswered(Seen(y), v, now, first);
    TakeKeepsInv(y, Revokes(v, now, first));
    RunKeepsInv(Take(y, Revokes(v, now, first)), meanwhile);
    Answers.RevocationIsAnswered(Seen(u), v, later, second);
  }

  // -- Shared visits --------------------------------------------------------------------------------------

  /** What ends a shared visit's reservation: its transport closed, or its process gone. */
  predicate EndsShared(a: Occurrence, i: nat) {
    a.Internal? && (a.move.ProcessDies? || (a.move.CloseShared? && a.move.visit == i && a.move.closed))
  }

  lemma SharedHoldStays(w: World, m: Move, i: nat, d: Device)
    requires Sound(w) && d in w.scopes && w.scopes[d] == ForShared(i) && !EndsShared(Internal(m), i)
    ensures d in Perform(w, m).scopes && Perform(w, m).scopes[d] == ForShared(i)
  {
    assert ScopeOk(w, d);
  }

  lemma {:induction false} SharedHoldFreezes(y: System, more: seq<Occurrence>, i: nat, id: Identity)
    requires SystemInv(y) && AllProper(more) && forall a | a in more :: !EndsShared(a, i)
    requires id.device in y.world.scopes && y.world.scopes[id.device] == ForShared(i)
    ensures Untouched(y, TakeAll(y, more), id)
    decreases more
  {
    if more != [] {
      TakeSparesReserved(y, more[0], id);
      TakeKeepsInv(y, more[0]);
      assert !EndsShared(more[0], i);
      if more[0].Internal? { SharedHoldStays(y.world, more[0].move, i, id.device); }
      SharedHoldFreezes(Take(y, more[0]), more[1..], i, id);
    }
  }

  /** Over every run: a device a shared visit has reserved keeps its channel, as above, until that
      visit's transport is closed or the process is gone. */
  lemma SharedAuthorityIsFrozen(happened: seq<Occurrence>, more: seq<Occurrence>, i: nat, id: Identity)
    requires AllProper(happened) && AllProper(more) && forall a | a in more :: !EndsShared(a, i)
    requires var w := TakeAll(NewSystem(), happened).world; id.device in w.scopes && w.scopes[id.device] == ForShared(i)
    ensures var y := TakeAll(NewSystem(), happened); Untouched(y, TakeAll(y, more), id)
  {
    ReachedInv(happened);
    SharedHoldFreezes(TakeAll(NewSystem(), happened), more, i, id);
  }
}
