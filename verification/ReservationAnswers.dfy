/** Who gets a reservation and who gives one back, move by move, in terms of who holds what. */
module ReservationAnswers {
  import opened Contracts
  import opened EndpointPreparation
  import opened SceneProtocol
  import opened SceneReservations

  /** Outside a selection every device is held as before. */
  predicate KeepsOthers(w: World, t: World, devices: seq<Device>) {
    && (forall d | d in w.scopes && d !in devices :: d in t.scopes && t.scopes[d] == w.scopes[d])
    && (forall d | d in t.scopes && d !in devices :: d in w.scopes)
  }

  /** A selection that can be reserved: some devices, all different, none of them held. */
  predicate Available(w: World, devices: seq<Device>) {
    && |devices| > 0 && (forall i, j | 0 <= i < |devices| && 0 <= j < |devices| && devices[i] == devices[j] :: i == j)
    && forall d | d in w.scopes :: d !in devices
  }

  lemma AvailableMeansFree(w: World, devices: seq<Device>)
    ensures Available(w, devices) <==> DistinctEndpoints(devices) && Free(w.scopes, devices)
  {}

  /** A listening service reserves the whole selection for a shared visit exactly if the visit is
      new, its selection was admitted, and the selection is available; otherwise nothing changes. */
  lemma SharedVisitIsReservedIff(w: World, i: nat, devices: seq<Device>, admitted: bool)
    requires w.mode == Running
    ensures var t := Perform(w, OpenShared(i, devices, admitted));
            if i !in w.shared && admitted && Available(w, devices) then
              && Held(t.scopes, devices, ForShared(i)) && KeepsOthers(w, t, devices)
              && t == w.(shared := w.shared[i := devices], scopes := t.scopes)
            else t == w
  {
    AvailableMeansFree(w, devices);
  }

  /** A shared visit gives its devices back exactly when its transport is closed: then nothing is
      held for it any more, and whatever another holds stays held. */
  lemma SharedVisitReleasesIff(w: World, i: nat, closed: bool)
    requires w.mode == Running
    ensures var t := Perform(w, CloseShared(i, closed));
            if i in w.shared && closed then
              && (forall d | d in t.scopes :: t.scopes[d] != ForShared(i)) && OnlyFrees(w, t, ForShared(i))
              && i !in t.shared && t.shared.Keys == w.shared.Keys - {i}
              && (forall j | j in t.shared :: t.shared[j] == w.shared[j])
              && t.mode == w.mode && t.scenes == w.scenes
            else t == w
  {}

  /** Devices of one holder are freed, and nobody else's. */
  predicate OnlyFrees(w: World, t: World, h: Holder) {
    && (forall d | d in t.scopes :: d in w.scopes && t.scopes[d] == w.scopes[d])
    && (forall d | d in w.scopes && w.scopes[d] != h :: d in t.scopes)
  }

  /** A listening service opens a scene exactly if its key is new, its selection was admitted, and
      the selection is available: the scene starts with nothing recorded, and if its intent was
      written its devices are all reserved and its task begins; if not, none is and it has no
      task. Otherwise nothing changes. */
  lemma SceneIsOpenedIff(w: World, k: Key, devices: seq<Device>, admitted: bool, saves: bool)
    requires w.mode == Running
    ensures var t := Perform(w, Open(k, devices, admitted, saves));
            if k !in w.scenes && admitted && Available(w, devices) then
              && DistinctEndpoints(devices)
              && t == w.(scenes := w.scenes[k := t.scenes[k]], scopes := t.scopes)
              && Starts(t.scenes[k], devices, saves)
              && (if saves then Held(t.scopes, devices, ForScene(k)) && KeepsOthers(w, t, devices)
                  else t.scopes == w.scopes)
            else t == w
  {
    AvailableMeansFree(w, devices);
  }

  /** A visit with nothing recorded, its intent in the row if it was written. */
  predicate Starts(s: Scene, devices: Selection, saves: bool) {
    && s.devices == devices && s.woken == {} && s.confirmed == {} && !s.quiesced && s.activations == []
    && s.memory.Some? && s.memory.value.run == (if saves then Validating else Detached)
    && s.memory.value.close == Idle && s.memory.value.wakes == {}
    && var v := s.memory.value.visit;
       && v.devices == devices && v.state == Preparing && v.error == v.primaryError == v.cleanupError == []
       && v.commandIds == v.sessions == map[] && v.endedDevices == {}
       && !v.prepared && !v.stopped && !v.cleanupFailed && !v.cleanupComplete && !v.producersRevoked
       && s.saved == if saves then Some(LifecycleCheckpoint(v)) else None
  }

  /** A scene's own step moves it alone; its devices are given back exactly when it ends a cleanup
      that succeeded, and a step the service does not let happen changes nothing. */
  lemma SceneStepReleasesIff(w: World, k: Key, e: Event)
    requires w.mode == Running && k in w.scenes
    ensures var t := Perform(w, Act(k, e));
            var allowed := && !e.Crash? && !e.Restart?
                           && (e.Receive? ==> e.device in w.scopes && w.scopes[e.device] == ForScene(k))
                           && (e.CloseReturn? ==> forall d | d in w.scopes :: w.scopes[d] != ForScene(k));
            var done := && e.CleanupDone? && e.saved && w.scenes[k].memory.Some?
                        && w.scenes[k].memory.value.close == Ending({}, false);
            if !allowed then t == w
            else
              && t == w.(scenes := w.scenes[k := Step(w.scenes[k], e)], scopes := t.scopes)
              && (if done then (forall d | d in t.scopes :: t.scopes[d] != ForScene(k)) && OnlyFrees(w, t, ForScene(k))
                  else t.scopes == w.scopes)
  {}

  /** The process is gone: every saved scene is left with its row and none of its memory, and there
      is no reservation and no shared visit. */
  ghost predicate OnlyRowsLeft(w: World, t: World) {
    && t.shared == map[] && t.scopes == map[]
    && (forall k :: k in t.scenes <==> k in w.scenes && w.scenes[k].saved.Some?)
    && forall k | k in t.scenes :: t.scenes[k] == w.scenes[k].(memory := None)
  }

  lemma CrashKeepsRows(w: World)
    ensures Perform(w, ProcessDies).mode == Down && OnlyRowsLeft(w, Perform(w, ProcessDies))
  {}

  /** Each move waits for its time: visits only while listening, restoring only while recovering,
      which a start begins and listening ends once every scene is back. */
  lemma MovesWaitForTheirMode(w: World, m: Move)
    ensures w.mode != Running && (m.Open? || m.Act? || m.OpenShared? || m.CloseShared?) ==> Perform(w, m) == w
    ensures w.mode != Recovering && (m.RestoreScene? || m.Listen?) ==> Perform(w, m) == w
    ensures m.StartUp? ==>
              Perform(w, m) == if w.mode == Running || w.mode == Recovering then w else w.(mode := Recovering)
    ensures m.Listen? && w.mode == Recovering ==>
              Perform(w, m) == if forall k | k in w.scenes :: w.scenes[k].memory.Some? then w.(mode := Running) else w
  {}

  /** Restoring a saved scene gives the start up, and with it the process, if its row cannot be read
      or written back, or, for a visit not yet closed, if one of its devices is held, its row written
      back by then; otherwise the visit is back, holding its whole selection unless it is closed. A
      scene without a row, or already back, is left alone. */
  lemma RestoringDecides(w: World, k: Key, saves: bool)
    requires w.mode == Recovering
    ensures var t := Perform(w, RestoreScene(k, saves));
            if k !in w.scenes || w.scenes[k].memory.Some? || w.scenes[k].saved.None? then t == w
            else
              var s := w.scenes[k];
              var back := w.(scenes := w.scenes[k := Step(s, Restart(true))]);
              var closed := s.saved.value.cleanupComplete;
              if Restore(s.devices, s.saved.value).None? then
                t.mode == StartRefused(UnreadableCheckpoint) && OnlyRowsLeft(w, t)
              else if !saves then t.mode == StartRefused(StorageUnavailable) && OnlyRowsLeft(w, t)
              else if !closed && exists d :: d in s.devices && d in w.scopes then
                t.mode == StartRefused(ConflictingReservations) && OnlyRowsLeft(back, t)
              else
                && t == back.(scopes := t.scopes)
                && (if closed then t.scopes == w.scopes
                    else Held(t.scopes, s.devices, ForScene(k)) && KeepsOthers(w, t, s.devices))
  {}

  /** Nothing happens to a scene that is not there. */
  lemma UnknownSceneIsLeftAlone(w: World, k: Key, e: Event)
    requires k !in w.scenes
    ensures Perform(w, Act(k, e)) == w
  {}
}
