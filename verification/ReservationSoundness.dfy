/** Reservations over every interleaving, crash and restart, whatever is written when: who may
    hold a device, which devices a scene may be engaged with, and when a reservation ends. */
module ReservationSoundness {
  import opened Contracts
  import opened EndpointPreparation
  import opened SceneProtocol
  import opened SceneGuarantees
  import opened SceneReservations
  import opened SceneTheorems

  /** Sent room.join, and not yet known to have ended. */
  predicate Engaged(s: Scene, d: Device) { d in s.woken && d !in s.confirmed }

  /** A visit in memory that can no longer engage a device and has none engaged. */
  predicate Idles(s: Scene) {
    && s.memory.Some? && (s.memory.value.run == Detached || s.memory.value.run == Finished)
    && s.memory.value.wakes == {} && s.woken <= s.confirmed
  }

  /** Who holds a device holds its whole selection. */
  ghost predicate ScopeOk(w: World, d: Device)
    requires d in w.scopes
  {
    match w.scopes[d]
    case ForScene(k) =>
      && k in w.scenes && d in w.scenes[k].devices && Held(w.scopes, w.scenes[k].devices, ForScene(k))
      && w.scenes[k].memory.Some? && w.scenes[k].memory.value.run != Detached
    case ForShared(i) => i in w.shared && d in w.shared[i] && Held(w.scopes, w.shared[i], ForShared(i))
  }

  /** A visit in memory holds its whole selection or idles. */
  ghost predicate SceneFine(w: World, k: Key)
    requires k in w.scenes
  {
    var s := w.scenes[k];
    && SceneInv(s)
    && (s.memory.Some? ==> Held(w.scopes, s.devices, ForScene(k)) || Idles(s))
    && (s.memory.None? ==> w.mode != Running)
  }

  ghost predicate EngagedApart(w: World) {
    forall j, k, d | j in w.scenes && k in w.scenes && j != k && Engaged(w.scenes[j], d) :: !Engaged(w.scenes[k], d)
  }

  ghost predicate Sound(w: World) {
    && (forall d | d in w.scopes :: ScopeOk(w, d))
    && (forall k | k in w.scenes :: SceneFine(w, k))
    && EngagedApart(w)
    && (w.mode != Running ==> w.shared == map[])
    && (w.mode != Running && w.mode != Recovering ==>
          w.scopes == map[] && forall k | k in w.scenes :: w.scenes[k].memory.None?)
  }

  // -- One scene -----------------------------------------------------------------------

  lemma IdlesThroughRun(s: Scene, e: Event)
    requires Idles(s) && IsRunEvent(e)
    ensures RunStep(s, s.memory.value, e) == s || Idles(RunStep(s, s.memory.value, e))
  {}

  /** An idle visit stays idle. */
  lemma IdlesForGood(s: Scene, e: Event)
    requires Idles(s) && Ordinary(e)
    ensures Idles(Step(s, e))
  {
    if IsRunEvent(e) { IdlesThroughRun(s, e); }
    else if IsCloseEvent(e) { IdlesThroughClose(s, e); }
    else { CallStepShape(s, s.memory.value, e); IdlesThroughCall(s, e); }
  }

  lemma IdlesThroughClose(s: Scene, e: Event)
    requires Idles(s) && IsCloseEvent(e)
    ensures Idles(CloseStep(s, s.memory.value, e))
  {}

  lemma IdlesThroughCall(s: Scene, e: Event)
    requires Idles(s)
    ensures Idles(CallStep(s, s.memory.value, e))
  {}

  /** What a completed closure has established. */
  lemma CompletionProves(s: Scene, e: Event)
    requires SceneInv(s) && Completes(s, e)
    ensures var t := Step(s, e);
            && t.saved.Some? && t.saved.value.cleanupComplete && t.quiesced && t.woken <= t.confirmed
            && t.memory.Some? && t.memory.value.run == Finished && t.memory.value.wakes == {} && Idles(t)
  {
    StepKeepsInv(s, e);
  }

  lemma RunStaysAttached(s: Scene, m: Memory, e: Event)
    requires s.memory == Some(m) && m.run != Detached
    ensures RunStep(s, m, e).memory.Some? ==> RunStep(s, m, e).memory.value.run != Detached
  {}

  lemma StepStaysAttached(s: Scene, e: Event)
    requires s.memory.Some? && s.memory.value.run != Detached && Ordinary(e)
    ensures Step(s, e).memory.Some? && Step(s, e).memory.value.run != Detached
  {
    var m := s.memory.value;
    if IsRunEvent(e) {
      RunStepShape(s, m, e);
      RunStaysAttached(s, m, e);
      assert Step(s, e) == RunStep(s, m, e);
    } else if IsCloseEvent(e) {
      CloseStepShape(s, m, e);
      assert Step(s, e) == CloseStep(s, m, e);
    } else {
      CallStepShape(s, m, e);
      assert Step(s, e) == CallStep(s, m, e);
    }
  }

  lemma EngagedIsSelected(s: Scene, d: Device)
    requires SceneInv(s) && Engaged(s, d)
    ensures d in s.devices && !Idles(s) && s.saved.Some? && !s.saved.value.cleanupComplete
  {}

  // -- One holder at a time ----------------------------------------------------------------

  /** While listening, an engaged device is held by its scene, so by no other. */
  lemma HoldersKeepEngagedApart(w: World)
    requires w.mode == Running && forall k | k in w.scenes :: SceneFine(w, k)
    ensures EngagedApart(w)
  {
    forall j, k, d | j in w.scenes && k in w.scenes && j != k && Engaged(w.scenes[j], d)
      ensures !Engaged(w.scenes[k], d)
    {
      assert SceneFine(w, j) && SceneFine(w, k);
      EngagedIsSelected(w.scenes[j], d);
      if Engaged(w.scenes[k], d) { EngagedIsSelected(w.scenes[k], d); }
    }
  }

  /** Every other holder keeps everything a step leaves alone. */
  ghost predicate Undisturbed(w: World, t: World, h: Holder) {
    && t.mode == w.mode
    && (forall d | d in t.scopes && t.scopes[d] != h :: d in w.scopes && w.scopes[d] == t.scopes[d])
    && (forall d | d in w.scopes && w.scopes[d] != h :: d in t.scopes && t.scopes[d] == w.scopes[d])
    && (forall k | k in w.scenes && ForScene(k) != h :: k in t.scenes && t.scenes[k] == w.scenes[k])
    && (forall k | k in t.scenes && ForScene(k) != h :: k in w.scenes)
    && (forall i | i in w.shared && ForShared(i) != h :: i in t.shared && t.shared[i] == w.shared[i])
  }

  lemma OthersKeepScopes(w: World, t: World, h: Holder)
    requires Undisturbed(w, t, h) && forall d | d in w.scopes :: ScopeOk(w, d)
    ensures forall d | d in t.scopes && t.scopes[d] != h :: ScopeOk(t, d)
  {
    forall d | d in t.scopes && t.scopes[d] != h ensures ScopeOk(t, d) { assert ScopeOk(w, d); }
  }

  lemma OthersKeepScenes(w: World, t: World, h: Holder)
    requires Undisturbed(w, t, h) && forall k | k in w.scenes :: SceneFine(w, k)
    ensures forall k | k in t.scenes && ForScene(k) != h :: SceneFine(t, k)
  {
    forall k | k in t.scenes && ForScene(k) != h ensures SceneFine(t, k) { assert SceneFine(w, k); }
  }

  /** While listening, a step on behalf of one holder need only look after that holder. */
  lemma OneHolderSound(w: World, t: World, h: Holder)
    requires Sound(w) && w.mode == Running && Undisturbed(w, t, h)
    requires forall d | d in t.scopes && t.scopes[d] == h :: ScopeOk(t, d)
    requires h.ForScene? && h.key in t.scenes ==> SceneFine(t, h.key)
    ensures Sound(t)
  {
    OthersKeepScopes(w, t, h);
    OthersKeepScenes(w, t, h);
    HoldersKeepEngagedApart(t);
  }

  predicate Holdless(w: World, h: Holder) { forall d | d in w.scopes :: w.scopes[d] != h }

  lemma NotAHolder(w: World, h: Holder)
    requires Sound(w)
    requires match h { case ForScene(k) => k !in w.scenes case ForShared(i) => i !in w.shared }
    ensures Holdless(w, h)
  {
    forall d | d in w.scopes ensures w.scopes[d] != h { assert ScopeOk(w, d); }
  }

  lemma AllOrNone(w: World, k: Key)
    requires Sound(w) && k in w.scenes && !Held(w.scopes, w.scenes[k].devices, ForScene(k))
    ensures Holdless(w, ForScene(k))
  {
    forall d | d in w.scopes ensures w.scopes[d] != ForScene(k) { assert ScopeOk(w, d); }
  }

  lemma HoldersAreAttached(w: World, k: Key)
    requires Sound(w) && k in w.scenes && Held(w.scopes, w.scenes[k].devices, ForScene(k))
    ensures SceneInv(w.scenes[k]) && w.scenes[k].memory.Some? && w.scenes[k].memory.value.run != Detached
  {
    var d := w.scenes[k].devices[0];
    assert d in w.scenes[k].devices && ScopeOk(w, d) && SceneFine(w, k);
  }

  // -- Opening and sharing --------------------------------------------------------------------

  lemma OpeningDisturbsNone(w: World, k: Key, devices: Selection, saves: bool)
    requires k !in w.scenes && Free(w.scopes, devices) && Holdless(w, ForScene(k))
    ensures var t := w.(scenes := w.scenes[k := Opening(devices, saves)],
                        scopes := if saves then Reserving(w.scopes, devices, ForScene(k)) else w.scopes);
            && Undisturbed(w, t, ForScene(k))
            && (forall d | d in t.scopes && t.scopes[d] == ForScene(k) :: ScopeOk(t, d))
            && (w.mode == Running ==> SceneFine(t, k))
  {
    OpeningKeepsInv(devices, saves);
  }

  lemma OpenKeepsSound(w: World, k: Key, devices: seq<Device>, admitted: bool, saves: bool)
    requires Sound(w) && w.mode == Running
    ensures Sound(OpenScene(w, k, devices, admitted, saves))
  {
    if k !in w.scenes && DistinctEndpoints(devices) && admitted && Free(w.scopes, devices) {
      NotAHolder(w, ForScene(k));
      OpeningDisturbsNone(w, k, devices, saves);
      OneHolderSound(w, OpenScene(w, k, devices, admitted, saves), ForScene(k));
    }
  }

  lemma SharingDisturbsNone(w: World, i: nat, devices: seq<Device>)
    requires i !in w.shared && Free(w.scopes, devices) && Holdless(w, ForShared(i))
    ensures var t := w.(shared := w.shared[i := devices], scopes := Reserving(w.scopes, devices, ForShared(i)));
            && Undisturbed(w, t, ForShared(i))
            && (forall d | d in t.scopes && t.scopes[d] == ForShared(i) :: ScopeOk(t, d))
  {}

  lemma SharedKeepsSound(w: World, i: nat, devices: seq<Device>, admitted: bool)
    requires Sound(w) && w.mode == Running
    ensures Sound(ReserveShared(w, i, devices, admitted))
  {
    if i !in w.shared && DistinctEndpoints(devices) && admitted && Free(w.scopes, devices) {
      NotAHolder(w, ForShared(i));
      SharingDisturbsNone(w, i, devices);
      OneHolderSound(w, ReserveShared(w, i, devices, admitted), ForShared(i));
    }
  }

  lemma RetireSharedKeepsSound(w: World, i: nat, closed: bool)
    requires Sound(w) && w.mode == Running
    ensures Sound(RetireShared(w, i, closed))
  {
    if i in w.shared && closed { OneHolderSound(w, RetireShared(w, i, closed), ForShared(i)); }
  }

  // -- A scene's own steps ----------------------------------------------------------------------

  function Replaced(w: World, k: Key, n: Scene, releases: bool): World {
    w.(scenes := w.scenes[k := n], scopes := if releases then Releasing(w.scopes, ForScene(k)) else w.scopes)
  }

  /** One scene moves on: while it holds its devices, or idling. */
  lemma ReplacingKeepsSound(w: World, k: Key, n: Scene, releases: bool)
    requires Sound(w) && w.mode == Running && k in w.scenes
    requires SceneInv(n) && n.devices == w.scenes[k].devices && n.memory.Some?
    requires Idles(n) || (Held(w.scopes, n.devices, ForScene(k)) && !releases)
    requires Held(w.scopes, n.devices, ForScene(k)) && !releases ==> n.memory.value.run != Detached
    ensures Sound(Replaced(w, k, n, releases))
  {
    var t := Replaced(w, k, n, releases);
    assert Undisturbed(w, t, ForScene(k));
    forall x | x in t.scopes && t.scopes[x] == ForScene(k) ensures ScopeOk(t, x) { assert ScopeOk(w, x); }
    assert SceneFine(t, k);
    OneHolderSound(w, t, ForScene(k));
  }

  lemma ActKeepsSound(w: World, k: Key, e: Event)
    requires Sound(w) && w.mode == Running
    ensures Sound(ActScene(w, k, e))
  {
    if k in w.scenes && Permitted(w, k, e) {
      var s := w.scenes[k];
      assert SceneFine(w, k);
      StepKeepsInv(s, e);
      StepKeepsDevices(s, e);
      if Completes(s, e) { CompletionProves(s, e); }
      if Held(w.scopes, s.devices, ForScene(k)) {
        HoldersAreAttached(w, k);
        StepStaysAttached(s, e);
      } else {
        IdlesForGood(s, e);
      }
      ReplacingKeepsSound(w, k, Step(s, e), Completes(s, e));
    }
  }

  // -- Crash and recovery -------------------------------------------------------------------------

  lemma FallIsSound(w: World, mode: Mode)
    requires (forall k | k in w.scenes :: SceneInv(w.scenes[k])) && EngagedApart(w)
    requires mode != Running && mode != Recovering
    ensures Sound(Fallen(w, mode))
  {
    var t := Fallen(w, mode);
    forall j, k, d | j in t.scenes && k in t.scenes && j != k && Engaged(t.scenes[j], d)
      ensures !Engaged(t.scenes[k], d)
    {
      assert Engaged(w.scenes[j], d);
    }
  }

  lemma SoundScenes(w: World)
    requires Sound(w)
    ensures forall k | k in w.scenes :: SceneInv(w.scenes[k])
  {
    forall k | k in w.scenes ensures SceneInv(w.scenes[k]) { assert SceneFine(w, k); }
  }

  lemma NobodyHoldsForTheGone(w: World, k: Key)
    requires Sound(w) && k in w.scenes && w.scenes[k].memory.None?
    ensures Holdless(w, ForScene(k))
  {
    forall d | d in w.scopes ensures w.scopes[d] != ForScene(k) { assert ScopeOk(w, d); }
  }

  /** A row that can be restored comes back idle if its closure is complete. */
  lemma RecoveredScene(s: Scene)
    requires SceneInv(s) && s.memory.None? && s.saved.Some? && Restore(s.devices, s.saved.value).Some?
    ensures var r := Recover(s, true);
            && SceneInv(r) && r.devices == s.devices && r.memory.Some? && r.memory.value.run == Finished
            && r.woken == s.woken && r.confirmed == s.confirmed && r.saved.Some?
            && r.saved.value.cleanupComplete == s.saved.value.cleanupComplete
            && (s.saved.value.cleanupComplete ==> Idles(r))
  {
    ProcessStepKeepsInv(s, Restart(true));
  }

  /** The world with one scene back, holding its devices or idle. */
  function Returned(w: World, k: Key, n: Scene, reserves: bool): World {
    w.(scenes := w.scenes[k := n], scopes := if reserves then Reserving(w.scopes, n.devices, ForScene(k)) else w.scopes)
  }

  lemma ReturningDisturbsNone(w: World, k: Key, n: Scene, reserves: bool)
    requires Holdless(w, ForScene(k)) && (reserves ==> Free(w.scopes, n.devices))
    requires n.memory.Some? && n.memory.value.run == Finished
    ensures var t := Returned(w, k, n, reserves);
            && Undisturbed(w, t, ForScene(k))
            && (forall d | d in t.scopes && t.scopes[d] == ForScene(k) :: ScopeOk(t, d))
            && (reserves ==> Held(t.scopes, n.devices, ForScene(k)))
  {}

  lemma SameEngagements(w: World, t: World, k: Key)
    requires EngagedApart(w) && k in w.scenes && t.scenes.Keys == w.scenes.Keys
    requires forall j | j in w.scenes && j != k :: t.scenes[j] == w.scenes[j]
    requires t.scenes[k].woken == w.scenes[k].woken && t.scenes[k].confirmed == w.scenes[k].confirmed
    ensures EngagedApart(t)
  {
    forall i, j, d | i in t.scenes && j in t.scenes && i != j && Engaged(t.scenes[i], d)
      ensures !Engaged(t.scenes[j], d)
    {
      assert Engaged(w.scenes[i], d);
    }
  }

  lemma ReturningKeepsSound(w: World, k: Key, n: Scene, reserves: bool)
    requires Sound(w) && w.mode == Recovering && k in w.scenes && w.scenes[k].memory.None?
    requires SceneInv(n) && n.devices == w.scenes[k].devices && n.memory.Some? && n.memory.value.run == Finished
    requires n.woken == w.scenes[k].woken && n.confirmed == w.scenes[k].confirmed
    requires if reserves then Free(w.scopes, n.devices) else Idles(n)
    ensures Sound(Returned(w, k, n, reserves))
  {
    var t := Returned(w, k, n, reserves);
    NobodyHoldsForTheGone(w, k);
    ReturningDisturbsNone(w, k, n, reserves);
    OthersKeepScopes(w, t, ForScene(k));
    OthersKeepScenes(w, t, ForScene(k));
    SameEngagements(w, t, k);
    forall j | j in t.scenes ensures SceneFine(t, j) {
      if j != k { assert ForScene(j) != ForScene(k); }
    }
  }

  lemma CollisionIsSound(w: World, k: Key)
    requires Sound(w) && w.mode == Recovering && k in w.scenes && w.scenes[k].memory.None? && w.scenes[k].saved.Some?
    requires Restore(w.scenes[k].devices, w.scenes[k].saved.value).Some?
    ensures var t := w.(scenes := w.scenes[k := Recover(w.scenes[k], true)]);
            Sound(Fallen(t, StartRefused(ConflictingReservations)))
  {
    SoundScenes(w);
    RecoveredScene(w.scenes[k]);
    var t := w.(scenes := w.scenes[k := Recover(w.scenes[k], true)]);
    SameEngagements(w, t, k);
    FallIsSound(t, StartRefused(ConflictingReservations));
  }

  lemma RestoreKeepsSound(w: World, k: Key, saves: bool)
    requires Sound(w) && w.mode == Recovering
    ensures Sound(RestoreOne(w, k, saves))
  {
    if k in w.scenes && w.scenes[k].memory.None? && w.scenes[k].saved.Some? {
      var s := w.scenes[k];
      SoundScenes(w);
      FallIsSound(w, StartRefused(UnreadableCheckpoint));
      FallIsSound(w, StartRefused(StorageUnavailable));
      if Restore(s.devices, s.saved.value).Some? && saves {
        var n, incomplete := Recover(s, true), !s.saved.value.cleanupComplete;
        RecoveredScene(s);
        CollisionIsSound(w, k);
        if !incomplete || Free(w.scopes, s.devices) {
          ReturningKeepsSound(w, k, n, incomplete);
          assert RestoreOne(w, k, saves) == Returned(w, k, n, incomplete);
        }
      }
    }
  }

  lemma StartKeepsSound(w: World)
    requires Sound(w) && w.mode != Running && w.mode != Recovering
    ensures Sound(w.(mode := Recovering))
  {
    var t := w.(mode := Recovering);
    forall k | k in t.scenes ensures SceneFine(t, k) { assert SceneFine(w, k); }
  }

  lemma ListeningKeepsFine(w: World)
    requires forall k | k in w.scenes :: SceneFine(w, k) && w.scenes[k].memory.Some?
    ensures forall k | k in w.scenes :: SceneFine(w.(mode := Running), k)
  {
    forall k | k in w.scenes ensures SceneFine(w.(mode := Running), k) { assert SceneFine(w, k); }
  }

  lemma ListenKeepsSound(w: World)
    requires Sound(w) && w.mode == Recovering && forall k | k in w.scenes :: w.scenes[k].memory.Some?
    ensures Sound(w.(mode := Running))
  {
    var t := w.(mode := Running);
    ListeningKeepsFine(w);
    forall d | d in t.scopes ensures ScopeOk(t, d) { assert ScopeOk(w, d); }
  }

  // -- Every run ------------------------------------------------------------------------------------

  /** Every move keeps reservations sound. */
  lemma MoveKeepsSound(w: World, m: Move)
    requires Sound(w)
    ensures Sound(Perform(w, m))
  {
    match m
    case Open(k, devices, admitted, saves) => if w.mode == Running { OpenKeepsSound(w, k, devices, admitted, saves); }
    case Act(k, e) => if w.mode == Running { ActKeepsSound(w, k, e); }
    case OpenShared(i, devices, admitted) => if w.mode == Running { SharedKeepsSound(w, i, devices, admitted); }
    case CloseShared(i, closed) => if w.mode == Running { RetireSharedKeepsSound(w, i, closed); }
    case ProcessDies => SoundScenes(w); FallIsSound(w, Down);
    case RestoreScene(k, saves) => if w.mode == Recovering { RestoreKeepsSound(w, k, saves); }
    case StartUp => if w.mode != Running && w.mode != Recovering { StartKeepsSound(w); }
    case Listen =>
      if w.mode == Recovering && forall k | k in w.scenes :: w.scenes[k].memory.Some? { ListenKeepsSound(w); }
  }

  lemma {:induction false} RunKeepsSound(w: World, ms: seq<Move>)
    requires Sound(w)
    ensures Sound(PerformAll(w, ms))
    decreases ms
  {
    if ms != [] {
      MoveKeepsSound(w, ms[0]);
      RunKeepsSound(Perform(w, ms[0]), ms[1..]);
    }
  }

  /** In every run a reserved device's selection, a scene's or a shared visit's, is reserved as a
      whole for the same holder. */
  lemma SelectionsAreHeldWhole(ms: seq<Move>, d: Device)
    requires d in PerformAll(NewWorld(), ms).scopes
    ensures var w := PerformAll(NewWorld(), ms);
            match w.scopes[d]
            case ForScene(k) =>
              k in w.scenes && d in w.scenes[k].devices && Held(w.scopes, w.scenes[k].devices, ForScene(k))
            case ForShared(i) => i in w.shared && d in w.shared[i] && Held(w.scopes, w.shared[i], ForShared(i))
  {
    RunKeepsSound(NewWorld(), ms);
    assert ScopeOk(PerformAll(NewWorld(), ms), d);
  }

  /** In every run, crashes and restarts included, no device is engaged by two scenes at once. */
  lemma DevicesAreEngagedOnce(ms: seq<Move>, j: Key, k: Key, d: Device)
    requires var w := PerformAll(NewWorld(), ms);
             j in w.scenes && k in w.scenes && Engaged(w.scenes[j], d) && Engaged(w.scenes[k], d)
    ensures j == k
  {
    RunKeepsSound(NewWorld(), ms);
  }

  lemma EngagedIsHeld(w: World, k: Key, d: Device)
    requires Sound(w) && w.mode == Running && k in w.scenes && Engaged(w.scenes[k], d)
    ensures d in w.scopes && w.scopes[d] == ForScene(k)
  {
    assert SceneFine(w, k);
    EngagedIsSelected(w.scenes[k], d);
  }

  /** In every run, while the service listens, an engaged device is reserved for its scene: no
      other scene and no shared visit can have it. */
  lemma EngagedIsReserved(ms: seq<Move>, k: Key, d: Device)
    requires var w := PerformAll(NewWorld(), ms); w.mode == Running && k in w.scenes && Engaged(w.scenes[k], d)
    ensures var w := PerformAll(NewWorld(), ms); d in w.scopes && w.scopes[d] == ForScene(k)
  {
    RunKeepsSound(NewWorld(), ms);
    EngagedIsHeld(PerformAll(NewWorld(), ms), k, d);
  }

  lemma OnlyCompletionReleases(w: World, m: Move, k: Key, d: Device)
    requires w.mode == Running && !m.ProcessDies? && d in w.scopes && w.scopes[d] == ForScene(k)
    requires !(d in Perform(w, m).scopes && Perform(w, m).scopes[d] == ForScene(k))
    ensures m.Act? && m.key == k && k in w.scenes && Permitted(w, k, m.event) && Completes(w.scenes[k], m.event)
  {}

  /** In every run a scene loses a device while the process lives only once its completed closure
      is saved: producers gone, every woken device ended. */
  lemma ReservationOutlivesClosure(ms: seq<Move>, m: Move, k: Key, d: Device)
    requires var w := PerformAll(NewWorld(), ms);
             && w.mode == Running && !m.ProcessDies? && d in w.scopes && w.scopes[d] == ForScene(k)
             && !(d in Perform(w, m).scopes && Perform(w, m).scopes[d] == ForScene(k))
    ensures var t := Perform(PerformAll(NewWorld(), ms), m);
            && k in t.scenes && t.scenes[k].saved.Some? && t.scenes[k].saved.value.cleanupComplete
            && t.scenes[k].quiesced && t.scenes[k].woken <= t.scenes[k].confirmed
  {
    var w := PerformAll(NewWorld(), ms);
    RunKeepsSound(NewWorld(), ms);
    OnlyCompletionReleases(w, m, k, d);
    assert SceneFine(w, k);
    CompletionProves(w.scenes[k], m.event);
  }
}
