/** Persisted scenes: which write lets them collide, and that without it they never do. */
module ReservationSafety {
  import opened Contracts
  import opened EndpointPreparation
  import opened SceneProtocol
  import opened SceneGuarantees
  import opened SceneReservations
  import opened SceneTheorems
  import opened ReservationSoundness

  /** Saved, and not yet safe to forget. */
  predicate Incomplete(s: Scene) { s.saved.Some? && !s.saved.value.cleanupComplete }

  /** A visit in memory that needs no reservation: its intent never became durable, or its
      saved closure is complete and its records still prove it. */
  predicate Resting(s: Scene) {
    && s.memory.Some? && s.memory.value.visit.state != Ready
    && var m := s.memory.value;
       if m.run == Detached then s.saved.None?
       else
         && m.run == Finished && (m.close == Idle || m.close == Ending({}, false))
         && s.saved.Some? && s.saved.value.cleanupComplete
         && m.visit.producersRevoked && Attempted(m.visit) <= m.visit.endedDevices
  }

  ghost predicate SceneOk(w: World, k: Key)
    requires k in w.scenes
  {
    var s := w.scenes[k];
    && (s.memory.Some? ==> Held(w.scopes, s.devices, ForScene(k)) || Resting(s))
    && (s.saved.None? ==> w.mode == Running)
  }

  predicate Apart(s: Scene, t: Scene) { forall d | d in s.devices :: d !in t.devices }

  /** Persisted scenes that still own endpoints own different ones. */
  ghost predicate PersistedApart(w: World) {
    forall j, k | j in w.scenes && k in w.scenes && j != k && Incomplete(w.scenes[j]) && Incomplete(w.scenes[k]) ::
      Apart(w.scenes[j], w.scenes[k])
  }

  /** While recovering, the scenes holding devices are restored incomplete ones. */
  ghost predicate HoldersIncomplete(w: World) {
    forall d | d in w.scopes ::
      w.scopes[d].ForScene? && w.scopes[d].key in w.scenes && Incomplete(w.scenes[w.scopes[d].key])
  }

  ghost predicate WorldInv(w: World) {
    && Sound(w)
    && (forall k | k in w.scenes :: SceneOk(w, k))
    && PersistedApart(w)
    && (w.mode == Recovering ==> HoldersIncomplete(w))
  }

  // -- One scene at rest ------------------------------------------------------------------

  /** A close call writing the row of a visit whose closure is not complete. */
  predicate WritesIncomplete(s: Scene, e: Event) {
    && s.memory.Some? && !s.memory.value.visit.cleanupComplete
    && ((e.CloseCall? && e.saved && s.memory.value.visit.state != Closed) || (e.CloseReturn? && e.saved))
  }

  lemma RestingThroughClose(s: Scene, e: Event)
    requires SceneInv(s) && Resting(s) && IsCloseEvent(e)
    ensures Resting(CloseStep(s, s.memory.value, e))
  {
    var v := s.memory.value.visit;
    assert s.memory.value.run != Detached ==> PendingEnds(v) == {};
  }

  lemma RestingThroughCall(s: Scene, e: Event)
    requires SceneInv(s) && Resting(s) && (e.EndObserved? || e.StatusLost? || e.CloseCall? || e.CloseReturn?)
    ensures Resting(CallStep(s, s.memory.value, e)) <==> !WritesIncomplete(s, e)
  {}

  lemma RestingThroughRun(s: Scene, e: Event)
    requires SceneInv(s) && Resting(s) && IsRunEvent(e)
    ensures Resting(RunStep(s, s.memory.value, e))
  {}

  /** A visit at rest stays at rest, except through a close call that writes it incomplete. */
  lemma RestingIff(s: Scene, e: Event)
    requires SceneInv(s) && Resting(s) && Ordinary(e) && !e.Receive?
    ensures Resting(Step(s, e)) <==> !WritesIncomplete(s, e)
  {
    if IsRunEvent(e) { RestingThroughRun(s, e); }
    else if IsCloseEvent(e) { RestingThroughClose(s, e); }
    else { RestingThroughCall(s, e); }
  }

  /** The end of a successful cleanup leaves the visit at rest. */
  lemma CompletionRests(s: Scene, e: Event)
    requires SceneInv(s) && Completes(s, e)
    ensures Resting(Step(s, e))
  {
    assert Attempted(s.memory.value.visit) == s.memory.value.visit.commandIds.Keys;
    forall d | d in s.memory.value.visit.commandIds.Keys ensures d in s.memory.value.visit.endedDevices {
      assert d !in PendingEnds(s.memory.value.visit);
    }
  }

  // -- Holders ------------------------------------------------------------------------------

  /** While listening, a persisted incomplete scene holds its devices, so two are apart. */
  lemma HoldersAreApart(w: World)
    requires w.mode == Running && forall k | k in w.scenes :: SceneOk(w, k) && SceneFine(w, k)
    ensures PersistedApart(w)
  {
    forall j, k | j in w.scenes && k in w.scenes && j != k && Incomplete(w.scenes[j]) && Incomplete(w.scenes[k])
      ensures Apart(w.scenes[j], w.scenes[k])
    {
      assert SceneOk(w, j) && SceneOk(w, k) && SceneFine(w, j) && SceneFine(w, k);
      assert Held(w.scopes, w.scenes[j].devices, ForScene(j)) && Held(w.scopes, w.scenes[k].devices, ForScene(k));
    }
  }

  lemma OthersStayOk(w: World, t: World, h: Holder)
    requires Undisturbed(w, t, h) && forall k | k in w.scenes :: SceneOk(w, k)
    ensures forall k | k in t.scenes && ForScene(k) != h :: SceneOk(t, k)
  {
    forall k | k in t.scenes && ForScene(k) != h ensures SceneOk(t, k) { assert SceneOk(w, k); }
  }

  /** While listening, a step on behalf of one holder need only look after that holder. */
  lemma OneHolderStep(w: World, t: World, h: Holder)
    requires WorldInv(w) && w.mode == Running && Undisturbed(w, t, h) && Sound(t)
    requires h.ForScene? && h.key in t.scenes ==> SceneOk(t, h.key)
    ensures WorldInv(t)
  {
    OthersStayOk(w, t, h);
    HoldersAreApart(t);
  }

  lemma OpeningIsOk(w: World, k: Key, devices: Selection, saves: bool)
    requires w.mode == Running
    ensures var t := w.(scenes := w.scenes[k := Opening(devices, saves)],
                        scopes := if saves then Reserving(w.scopes, devices, ForScene(k)) else w.scopes);
            SceneOk(t, k)
  {}

  lemma OpenKeepsInv(w: World, k: Key, devices: seq<Device>, admitted: bool, saves: bool)
    requires WorldInv(w) && w.mode == Running
    ensures WorldInv(OpenScene(w, k, devices, admitted, saves))
  {
    OpenKeepsSound(w, k, devices, admitted, saves);
    if k !in w.scenes && DistinctEndpoints(devices) && admitted && Free(w.scopes, devices) {
      NotAHolder(w, ForScene(k));
      OpeningDisturbsNone(w, k, devices, saves);
      OpeningIsOk(w, k, devices, saves);
      OneHolderStep(w, OpenScene(w, k, devices, admitted, saves), ForScene(k));
    }
  }

  lemma SharedKeepsInv(w: World, i: nat, devices: seq<Device>, admitted: bool)
    requires WorldInv(w) && w.mode == Running
    ensures WorldInv(ReserveShared(w, i, devices, admitted))
  {
    SharedKeepsSound(w, i, devices, admitted);
    if i !in w.shared && DistinctEndpoints(devices) && admitted && Free(w.scopes, devices) {
      NotAHolder(w, ForShared(i));
      SharingDisturbsNone(w, i, devices);
      OneHolderStep(w, ReserveShared(w, i, devices, admitted), ForShared(i));
    }
  }

  lemma RetireSharedKeepsInv(w: World, i: nat, closed: bool)
    requires WorldInv(w) && w.mode == Running
    ensures WorldInv(RetireShared(w, i, closed))
  {
    RetireSharedKeepsSound(w, i, closed);
    if i in w.shared && closed { OneHolderStep(w, RetireShared(w, i, closed), ForShared(i)); }
  }

  lemma FallKeepsInv(w: World, mode: Mode)
    requires WorldInv(w) && mode != Running && mode != Recovering
    ensures WorldInv(Fallen(w, mode))
  {
    var t := Fallen(w, mode);
    SoundScenes(w);
    FallIsSound(w, mode);
    forall j, k | j in t.scenes && k in t.scenes && j != k && Incomplete(t.scenes[j]) && Incomplete(t.scenes[k])
      ensures Apart(t.scenes[j], t.scenes[k])
    {
      assert Incomplete(w.scenes[j]) && Incomplete(w.scenes[k]);
      assert Apart(w.scenes[j], w.scenes[k]);
    }
  }

  // -- A scene's own steps ----------------------------------------------------------------------

  /** The write that must not happen: a close call, on a visit holding nothing, that persists
      it as incomplete. */
  predicate OrphanWrite(w: World, m: Move) {
    && m.Act? && w.mode == Running && m.key in w.scenes && Permitted(w, m.key, m.event)
    && !Held(w.scopes, w.scenes[m.key].devices, ForScene(m.key))
    && WritesIncomplete(w.scenes[m.key], m.event)
  }

  lemma ActDisturbsNone(w: World, k: Key, e: Event)
    requires k in w.scenes
    ensures Undisturbed(w, ActScene(w, k, e), ForScene(k))
  {}

  /** A scene holding its devices may take any step. */
  lemma HeldActKeepsInv(w: World, k: Key, e: Event)
    requires WorldInv(w) && w.mode == Running && k in w.scenes && Permitted(w, k, e)
    requires Held(w.scopes, w.scenes[k].devices, ForScene(k))
    ensures WorldInv(ActScene(w, k, e))
  {
    var s, t := w.scenes[k], ActScene(w, k, e);
    HoldersAreAttached(w, k);
    ActKeepsSound(w, k, e);
    ActDisturbsNone(w, k, e);
    StepKeepsDevices(s, e);
    StepStaysAttached(s, e);
    if Completes(s, e) { CompletionRests(s, e); }
    assert SceneOk(t, k);
    OneHolderStep(w, t, ForScene(k));
  }

  lemma HoldsNothing(w: World, k: Key)
    requires WorldInv(w) && w.mode == Running && k in w.scenes && !Held(w.scopes, w.scenes[k].devices, ForScene(k))
    ensures SceneInv(w.scenes[k]) && Resting(w.scenes[k]) && Holdless(w, ForScene(k))
    ensures Releasing(w.scopes, ForScene(k)) == w.scopes
  {
    assert SceneOk(w, k) && SceneFine(w, k);
    AllOrNone(w, k);
  }

  lemma NothingHeldNeedsRest(w: World, k: Key)
    requires k in w.scenes && w.scenes[k].memory.Some?
    requires !Held(w.scopes, w.scenes[k].devices, ForScene(k)) && !Resting(w.scenes[k])
    ensures !WorldInv(w)
  {
    assert !SceneOk(w, k);
  }

  /** A visit holding nothing may take any step but the orphan write. */
  lemma RestingActKeepsInvIff(w: World, k: Key, e: Event)
    requires WorldInv(w) && w.mode == Running && k in w.scenes && Permitted(w, k, e)
    requires !Held(w.scopes, w.scenes[k].devices, ForScene(k))
    ensures WorldInv(ActScene(w, k, e)) <==> !WritesIncomplete(w.scenes[k], e)
  {
    var s, t := w.scenes[k], ActScene(w, k, e);
    HoldsNothing(w, k);
    ActKeepsSound(w, k, e);
    ActDisturbsNone(w, k, e);
    StepKeepsDevices(s, e);
    RestingIff(s, e);
    RecordsOnlyGrow(s, e);
    assert t.scopes == w.scopes;
    if WritesIncomplete(s, e) { NothingHeldNeedsRest(t, k); } else { OneHolderStep(w, t, ForScene(k)); }
  }

  // -- Recovery ---------------------------------------------------------------------------------

  /** Recovery finds the devices of an incomplete scene free: no other saved scene has them. */
  lemma RecoveryFindsDevicesFree(w: World, k: Key)
    requires WorldInv(w) && w.mode == Recovering && k in w.scenes && w.scenes[k].memory.None? && Incomplete(w.scenes[k])
    ensures Free(w.scopes, w.scenes[k].devices)
  {
    forall d | d in w.scopes ensures d !in w.scenes[k].devices {
      assert ScopeOk(w, d);
    }
  }

  lemma ReplacedApart(w: World, k: Key, n: Scene, scopes: map<Device, Holder>)
    requires PersistedApart(w) && k in w.scenes && n.devices == w.scenes[k].devices
    requires Incomplete(n) <==> Incomplete(w.scenes[k])
    ensures PersistedApart(w.(scenes := w.scenes[k := n], scopes := scopes))
  {
    var t := w.(scenes := w.scenes[k := n], scopes := scopes);
    forall i, j | i in t.scenes && j in t.scenes && i != j && Incomplete(t.scenes[i]) && Incomplete(t.scenes[j])
      ensures Apart(t.scenes[i], t.scenes[j])
    {
      assert Incomplete(w.scenes[i]) && Incomplete(w.scenes[j]);
      assert Apart(w.scenes[i], w.scenes[j]);
    }
  }

  lemma ReturnedRests(s: Scene)
    requires SceneInv(s) && s.memory.None? && s.saved.Some? && Restore(s.devices, s.saved.value).Some? && !Incomplete(s)
    ensures Resting(Recover(s, true))
  {}

  lemma ReturnedHolders(w: World, k: Key, n: Scene)
    requires HoldersIncomplete(w) && Holdless(w, ForScene(k))
    ensures HoldersIncomplete(Returned(w, k, n, Incomplete(n)))
  {}

  /** Putting a recovered scene back, reserved iff it is incomplete. */
  lemma ReturnedKeepsInv(w: World, k: Key, n: Scene)
    requires WorldInv(w) && w.mode == Recovering && k in w.scenes && w.scenes[k].memory.None?
    requires n.devices == w.scenes[k].devices && n.memory.Some? && n.memory.value.run == Finished && n.saved.Some?
    requires (Incomplete(n) <==> Incomplete(w.scenes[k])) && (!Incomplete(n) ==> Resting(n))
    requires Sound(Returned(w, k, n, Incomplete(n)))
    ensures WorldInv(Returned(w, k, n, Incomplete(n)))
  {
    var t := Returned(w, k, n, Incomplete(n));
    if Incomplete(n) { RecoveryFindsDevicesFree(w, k); }
    NobodyHoldsForTheGone(w, k);
    ReturningDisturbsNone(w, k, n, Incomplete(n));
    ReturnedHolders(w, k, n);
    OthersStayOk(w, t, ForScene(k));
    ReplacedApart(w, k, n, t.scopes);
    forall j | j in t.scenes ensures SceneOk(t, j) {
      if j != k { assert ForScene(j) != ForScene(k); }
    }
  }

  lemma RestoreKeepsInv(w: World, k: Key, saves: bool)
    requires WorldInv(w) && w.mode == Recovering
    ensures WorldInv(RestoreOne(w, k, saves))
    ensures RestoreOne(w, k, saves).mode != StartRefused(ConflictingReservations)
  {
    if k in w.scenes && w.scenes[k].memory.None? && w.scenes[k].saved.Some? {
      var s := w.scenes[k];
      SoundScenes(w);
      FallKeepsInv(w, StartRefused(UnreadableCheckpoint));
      FallKeepsInv(w, StartRefused(StorageUnavailable));
      if Restore(s.devices, s.saved.value).Some? && saves {
        RecoveredScene(s);
        if Incomplete(s) { RecoveryFindsDevicesFree(w, k); } else { ReturnedRests(s); }
        RestoreKeepsSound(w, k, saves);
        assert RestoreOne(w, k, saves) == Returned(w, k, Recover(s, true), Incomplete(s));
        ReturnedKeepsInv(w, k, Recover(s, true));
      }
    }
  }

  // -- Every move ---------------------------------------------------------------------------------

  lemma ActKeepsInvIff(w: World, k: Key, e: Event)
    requires WorldInv(w) && w.mode == Running
    ensures WorldInv(ActScene(w, k, e)) <==> !OrphanWrite(w, Act(k, e))
  {
    if k in w.scenes && Permitted(w, k, e) {
      if Held(w.scopes, w.scenes[k].devices, ForScene(k)) {
        HeldActKeepsInv(w, k, e);
      } else {
        RestingActKeepsInvIff(w, k, e);
      }
    }
  }

  lemma StartKeepsInv(w: World)
    requires WorldInv(w) && w.mode != Running && w.mode != Recovering
    ensures WorldInv(w.(mode := Recovering))
  {
    StartKeepsSound(w);
    var t := w.(mode := Recovering);
    forall k | k in t.scenes ensures SceneOk(t, k) { assert SceneOk(w, k); }
  }

  lemma ListenKeepsInv(w: World)
    requires WorldInv(w) && w.mode == Recovering && forall k | k in w.scenes :: w.scenes[k].memory.Some?
    ensures WorldInv(w.(mode := Running))
  {
    ListenKeepsSound(w);
    var t := w.(mode := Running);
    forall k | k in t.scenes ensures SceneOk(t, k) { assert SceneOk(w, k); }
  }

  lemma VisitMoveKeepsInv(w: World, m: Move)
    requires WorldInv(w) && w.mode == Running && (m.Open? || m.OpenShared? || m.CloseShared?)
    ensures WorldInv(Perform(w, m))
  {
    match m
    case Open(k, devices, admitted, saves) => OpenKeepsInv(w, k, devices, admitted, saves);
    case OpenShared(i, devices, admitted) => SharedKeepsInv(w, i, devices, admitted);
    case CloseShared(i, closed) => RetireSharedKeepsInv(w, i, closed);
  }

  lemma StartMoveKeepsInv(w: World, m: Move)
    requires WorldInv(w) && (m.StartUp? || m.ProcessDies?)
    ensures WorldInv(Perform(w, m))
  {
    if m.ProcessDies? {
      FallKeepsInv(w, Down);
    } else if w.mode != Running && w.mode != Recovering {
      StartKeepsInv(w);
    }
  }

  lemma RecoveryMoveKeepsInv(w: World, m: Move)
    requires WorldInv(w) && (m.RestoreScene? || m.Listen?)
    ensures WorldInv(Perform(w, m))
  {
    if w.mode == Recovering {
      if m.RestoreScene? {
        RestoreKeepsInv(w, m.key, m.saved);
      } else if forall k | k in w.scenes :: w.scenes[k].memory.Some? {
        ListenKeepsInv(w);
      }
    }
  }

  lemma OnlyRestoresCollide(w: World, m: Move)
    requires !m.RestoreScene? || w.mode != Recovering
    ensures Perform(w, m).mode == StartRefused(ConflictingReservations)
        ==> w.mode == StartRefused(ConflictingReservations)
  {}

  lemma VisitMovesNeedListening(w: World, m: Move)
    requires w.mode != Running && (m.Open? || m.Act? || m.OpenShared? || m.CloseShared?)
    ensures Perform(w, m) == w
  {}

  /** Whatever the move, persisted scenes stay apart and recoverable exactly when it is not an
      orphan write. */
  lemma MoveKeepsInvIff(w: World, m: Move)
    requires WorldInv(w)
    ensures WorldInv(Perform(w, m)) <==> !OrphanWrite(w, m)
    ensures Perform(w, m).mode == StartRefused(ConflictingReservations)
        ==> w.mode == StartRefused(ConflictingReservations)
  {
    if m.RestoreScene? && w.mode == Recovering {
      RestoreKeepsInv(w, m.key, m.saved);
    } else {
      OnlyRestoresCollide(w, m);
    }
    if m.ProcessDies? || m.StartUp? { StartMoveKeepsInv(w, m); }
    else if m.RestoreScene? || m.Listen? { RecoveryMoveKeepsInv(w, m); }
    else if w.mode != Running { VisitMovesNeedListening(w, m); }
    else if m.Act? { ActKeepsInvIff(w, m.key, m.event); }
    else { VisitMoveKeepsInv(w, m); }
  }

  /** No move of the run is an orphan write. */
  predicate NoOrphanWrites(w: World, ms: seq<Move>)
    decreases ms
  {
    ms == [] || (!OrphanWrite(w, ms[0]) && NoOrphanWrites(Perform(w, ms[0]), ms[1..]))
  }

  lemma {:induction false} RunKeepsWorldInv(w: World, ms: seq<Move>)
    requires WorldInv(w) && w.mode != StartRefused(ConflictingReservations) && NoOrphanWrites(w, ms)
    ensures WorldInv(PerformAll(w, ms)) && PerformAll(w, ms).mode != StartRefused(ConflictingReservations)
    decreases ms
  {
    if ms != [] {
      MoveKeepsInvIff(w, ms[0]);
      RunKeepsWorldInv(Perform(w, ms[0]), ms[1..]);
    }
  }

  /** In every run without orphan writes, crashes and restarts included, persisted scenes that are
      not complete share no device, and a restart never finds conflicting reservations. */
  lemma PersistedScenesStayApart(ms: seq<Move>, j: Key, k: Key)
    requires NoOrphanWrites(NewWorld(), ms)
    ensures var w := PerformAll(NewWorld(), ms);
            && w.mode != StartRefused(ConflictingReservations)
            && (j in w.scenes && k in w.scenes && j != k && Incomplete(w.scenes[j]) && Incomplete(w.scenes[k]) ==>
                  Apart(w.scenes[j], w.scenes[k]))
  {
    RunKeepsWorldInv(NewWorld(), ms);
  }
}
