/** What every run of a prepared scene keeps, crashes included. */
module SceneGuarantees {
  import opened Contracts
  import opened EndpointPreparation
  import opened SceneProtocol

  // -- The invariant -----------------------------------------------------------------

  ghost predicate NonEmpty(m: map<Device, string>) { forall d | d in m :: m[d] != "" }

  /** What a checkpoint says about itself. */
  ghost predicate Coherent(devices: Selection, c: Checkpoint) {
    && c.sessions.Keys <= c.commandIds.Keys <= Members(devices)
    && NonEmpty(c.commandIds)
    && c.endedDevices <= c.commandIds.Keys
    && (c.endedDevices != {} ==> c.producersRevoked)
    && (c.cleanupComplete ==> c.producersRevoked && c.endedDevices == c.commandIds.Keys)
  }

  ghost predicate VisitInv(v: Visit) {
    && Coherent(v.devices, LifecycleCheckpoint(v))
    && (v.cleanupComplete ==> v.state == Closed)
    && (v.prepared ==> v.sessions.Keys == Members(v.devices))
  }

  /** A saved row never claims more than what happened, and never forgets a woken device. */
  ghost predicate SavedInv(s: Scene) {
    if s.saved.None? then s.woken == {}
    else
      var c := s.saved.value;
      && Coherent(s.devices, c)
      && s.woken <= c.commandIds.Keys
      && c.endedDevices <= s.confirmed
      && (c.producersRevoked ==> s.quiesced)
  }

  /** Later in one visit's life: commands, confirmed ends and the producers' revocation only grow. */
  ghost predicate Later(c: Checkpoint, d: Checkpoint) {
    && c.commandIds.Keys <= d.commandIds.Keys
    && c.endedDevices <= d.endedDevices
    && (c.producersRevoked ==> d.producersRevoked)
  }

  ghost predicate After(v: Visit, w: Visit) {
    w.devices == v.devices && Later(LifecycleCheckpoint(v), LifecycleCheckpoint(w))
  }

  ghost predicate PhaseInv(m: Memory, activations: seq<map<Device, string>>) {
    var v := m.visit;
    && (m.run == Validating ==> v.commandIds == map[])
    && (m.run in {Validating, Waiting} ==> activations == [])
    && (m.run in {Finished, Detached} ==> m.wakes == {})
    && (m.run != Finished ==> m.close == Idle && !v.cleanupComplete)
    && (m.close == Quiescing ==> !v.producersRevoked)
    && (m.close.Ending? ==>
          && v.producersRevoked && m.close.inFlight <= PendingEnds(v)
          && (!m.close.failed ==> m.close.inFlight == PendingEnds(v))
          && (v.cleanupComplete ==> !m.close.failed))
  }

  /** Memory is ahead of the saved row and no further than what happened. */
  ghost predicate MemoryInv(s: Scene, m: Memory) {
    var v := m.visit;
    && VisitInv(v) && v.devices == s.devices
    && v.endedDevices <= s.confirmed && (v.producersRevoked ==> s.quiesced)
    && (s.saved.Some? ==> Later(s.saved.value, LifecycleCheckpoint(v)))
    && (m.wakes != {} ==> s.saved.Some? && m.wakes <= s.saved.value.commandIds.Keys)
    && PhaseInv(m, s.activations)
  }

  ghost predicate ActivationInv(s: Scene) {
    |s.activations| <= 1 && forall a | a in s.activations :: a.Keys == Members(s.devices)
  }

  ghost predicate SceneInv(s: Scene) {
    && SavedInv(s)
    && (s.memory.Some? ==> MemoryInv(s, s.memory.value))
    && ActivationInv(s)
  }

  // -- Sizes -----------------------------------------------------------------------------

  /** Counting suffices: as many bound devices as selected ones means every selected one. */
  lemma {:induction false} AllBound(devices: seq<Device>, bound: set<Device>)
    requires forall i, j | 0 <= i < j < |devices| :: devices[i] != devices[j]
    requires bound <= Members(devices)
    ensures |Members(devices)| == |devices|
    ensures |bound| == |devices| ==> bound == Members(devices)
  {
    MembersCount(devices);
    SubsetOfSameSize(bound, Members(devices));
  }

  lemma {:induction false} MembersCount(devices: seq<Device>)
    requires forall i, j | 0 <= i < j < |devices| :: devices[i] != devices[j]
    ensures |Members(devices)| == |devices|
  {
    if devices != [] {
      var n := |devices| - 1;
      MembersCount(devices[..n]);
      assert Members(devices) == Members(devices[..n]) + {devices[n]};
    }
  }

  lemma {:induction false} SubsetOfSameSize(a: set<Device>, b: set<Device>)
    requires a <= b
    ensures |a| <= |b|
    ensures |a| == |b| ==> a == b
  {
    if a != {} {
      var d :| d in a;
      SubsetOfSameSize(a - {d}, b - {d});
      assert a == (a - {d}) + {d} && b == (b - {d}) + {d};
    }
  }

  // -- Steps keep the invariant -------------------------------------------------------------

  lemma OpeningKeepsInv(devices: Selection, saves: bool)
    ensures SceneInv(Opening(devices, saves))
  {}

  /** The shape of every step: memory moves to a later visit, and what is written, if
      anything, is the checkpoint of a visit between the two. */
  lemma PutKeepsInv(s: Scene, m: Memory, n: Memory, u: Visit, w: Option<Checkpoint>)
    requires SceneInv(s) && s.memory == Some(m)
    requires VisitInv(n.visit) && VisitInv(u) && After(m.visit, u) && After(u, n.visit)
    requires w.Some? ==> w.value == LifecycleCheckpoint(u)
    requires n.visit.endedDevices <= s.confirmed && (n.visit.producersRevoked ==> s.quiesced)
    requires n.wakes <= m.wakes || (w.Some? && n.wakes <= u.commandIds.Keys)
    requires PhaseInv(n, s.activations)
    ensures SceneInv(Put(s, n, w))
  {}

  /** A step that leaves the visit alone. */
  lemma MoveKeepsInv(s: Scene, m: Memory, n: Memory)
    requires SceneInv(s) && s.memory == Some(m)
    requires n.visit == m.visit && n.wakes <= m.wakes && PhaseInv(n, s.activations)
    ensures SceneInv(Put(s, n, None))
  {
    PutKeepsInv(s, m, n, m.visit, None);
  }

  lemma CommandKeepsVisitInv(v: Visit, d: Device, id: CommandId)
    requires VisitInv(v) && d in v.devices && !v.cleanupComplete && v.endedDevices == {}
    ensures var w := v.(commandIds := v.commandIds[d := id]); VisitInv(w) && After(v, w)
  {
    var w := v.(commandIds := v.commandIds[d := id]);
    assert w.commandIds.Keys == v.commandIds.Keys + {d};
  }

  lemma {:induction false} CommandedKeepsVisitInv(v: Visit, ids: seq<CommandId>, m: nat)
    requires VisitInv(v) && m <= |v.devices| == |ids|
    requires !v.cleanupComplete && v.endedDevices == {}
    ensures VisitInv(Commanded(v, ids, m)) && After(v, Commanded(v, ids, m))
    ensures m > 0 ==> After(Commanded(v, ids, m - 1), Commanded(v, ids, m))
  {
    if m > 0 {
      CommandedKeepsVisitInv(v, ids, m - 1);
      CommandKeepsVisitInv(Commanded(v, ids, m - 1), v.devices[m - 1], ids[m - 1]);
    }
  }

  lemma AllRecordedKeepsInv(s: Scene, m: Memory, ids: seq<CommandId>)
    requires SceneInv(s) && s.memory == Some(m) && m.run == Validating && |ids| == |m.visit.devices|
    ensures var w := Commanded(m.visit, ids, |ids|);
            SceneInv(Put(s, m.(visit := w, run := Waiting, wakes := Members(m.visit.devices)),
                         Some(LifecycleCheckpoint(w))))
  {
    var v, w := m.visit, Commanded(m.visit, ids, |ids|);
    CommandedKeepsVisitInv(v, ids, |v.devices|);
    assert v.devices[..|v.devices|] == v.devices;
    PutKeepsInv(s, m, m.(visit := w, run := Waiting, wakes := Members(v.devices)), w, Some(LifecycleCheckpoint(w)));
  }

  lemma WriteFailureVisits(v: Visit, ids: seq<CommandId>, saves: nat, cause: Cause)
    requires VisitInv(v) && saves < |v.devices| == |ids| && !v.cleanupComplete && v.endedDevices == {}
    ensures var u, w := Commanded(v, ids, saves), RunFailed(Commanded(v, ids, saves + 1), cause);
            && VisitInv(u) && After(v, u) && VisitInv(w) && After(u, w)
            && w == v.(state := w.state, error := w.error, primaryError := w.primaryError, commandIds := w.commandIds)
  {
    CommandedKeepsVisitInv(v, ids, saves);
    CommandedKeepsVisitInv(v, ids, saves + 1);
    FailureKeepsVisitInv(Commanded(v, ids, saves + 1), cause);
  }

  lemma FailedWakeKeepsInv(s: Scene, m: Memory, u: Visit, w: Visit, row: Option<Checkpoint>)
    requires SceneInv(s) && s.memory == Some(m) && m.run == Validating
    requires VisitInv(u) && After(m.visit, u) && VisitInv(w) && After(u, w)
    requires w == m.visit.(state := w.state, error := w.error, primaryError := w.primaryError,
                            commandIds := w.commandIds)
    requires row.Some? ==> row.value == LifecycleCheckpoint(u)
    ensures SceneInv(Put(s, m.(visit := w, run := Unwinding), row))
  {
    PutKeepsInv(s, m, m.(visit := w, run := Unwinding), u, row);
  }

  lemma WriteFailureKeepsInv(s: Scene, m: Memory, ids: seq<CommandId>, saves: nat, cause: Cause)
    requires SceneInv(s) && s.memory == Some(m) && m.run == Validating && |ids| == |m.visit.devices|
    requires saves < |m.visit.devices|
    ensures var w := RunFailed(Commanded(m.visit, ids, saves + 1), cause);
            var row := if saves == 0 then None else Some(LifecycleCheckpoint(Commanded(m.visit, ids, saves)));
            SceneInv(Put(s, m.(visit := w, run := Unwinding), row))
  {
    var u, w := Commanded(m.visit, ids, saves), RunFailed(Commanded(m.visit, ids, saves + 1), cause);
    WriteFailureVisits(m.visit, ids, saves, cause);
    FailedWakeKeepsInv(s, m, u, w, if saves == 0 then None else Some(LifecycleCheckpoint(u)));
  }

  lemma WakeKeepsInv(s: Scene, m: Memory, ids: seq<CommandId>, saves: nat, cause: Cause)
    requires SceneInv(s) && s.memory == Some(m)
    ensures SceneInv(WakeStep(s, m, ids, saves, cause))
  {
    if m.run == Validating && |ids| == |m.visit.devices| {
      if saves >= |ids| { AllRecordedKeepsInv(s, m, ids); } else { WriteFailureKeepsInv(s, m, ids, saves, cause); }
    }
  }

  lemma FailureKeepsVisitInv(v: Visit, cause: Cause)
    requires VisitInv(v) && !v.cleanupComplete
    ensures VisitInv(RunFailed(v, cause)) && After(v, RunFailed(v, cause))
  {}

  lemma FailKeepsInv(s: Scene, m: Memory, cause: Cause)
    requires SceneInv(s) && s.memory == Some(m) && (Awaiting(m.run))
    ensures SceneInv(FailStep(s, m, cause))
  {
    FailureKeepsVisitInv(m.visit, cause);
    PutKeepsInv(s, m, m.(visit := RunFailed(m.visit, cause), run := Unwinding), m.visit, None);
  }

  /** Activation happens once, and only with a session bound for every endpoint. */
  lemma ActivateKeepsInv(s: Scene, m: Memory, cause: Cause)
    requires SceneInv(s) && s.memory == Some(m)
    ensures SceneInv(ActivateStep(s, m, cause))
  {
    if m.run == Waiting && m.visit.prepared {
      if m.visit.stopped { FailKeepsInv(s, m, cause); } else { MoveKeepsInv(s, m, m.(run := Activating)); }
    }
  }

  lemma RestatedKeepsVisitInv(v: Visit, state: State)
    requires VisitInv(v) && !v.cleanupComplete
    ensures VisitInv(v.(state := state)) && After(v, v.(state := state))
  {}

  lemma UnwoundKeepsVisitInv(v: Visit)
    requires VisitInv(v) && !v.cleanupComplete
    ensures var w := Unwound(v);
            && VisitInv(w) && After(v, w) && !w.cleanupComplete
            && w.endedDevices == v.endedDevices && w.producersRevoked == v.producersRevoked
  {
    RestatedKeepsVisitInv(v, v.state);
    RestatedKeepsVisitInv(v, Closing);
    assert v.(state := v.state) == v;
  }

  lemma ReadyKeepsVisitInv(v: Visit, saves: bool, cause: Cause)
    requires VisitInv(v) && !v.cleanupComplete
    ensures var w := BecomeReady(v, saves, cause);
            && VisitInv(w.visit) && After(v, w.visit) && !w.visit.cleanupComplete
            && (w.saved.Some? ==> w.saved.value == LifecycleCheckpoint(w.visit))
            && w.visit.endedDevices == v.endedDevices && w.visit.producersRevoked == v.producersRevoked
  {}

  lemma ReceiptsKeepInv(s: Scene, m: Memory, saves: bool, cause: Cause)
    requires SceneInv(s) && s.memory == Some(m)
    ensures SceneInv(ReceiptsStep(s, m, saves, cause))
  {
    if m.run == Confirming {
      var w := BecomeReady(m.visit, saves, cause);
      ReadyKeepsVisitInv(m.visit, saves, cause);
      UnwoundKeepsVisitInv(w.visit);
      if w.ok && m.visit.stopped {
        PutKeepsInv(s, m, m.(visit := Unwound(w.visit), run := Finished, wakes := {}), w.visit, w.saved);
      } else {
        PutKeepsInv(s, m, m.(visit := w.visit, run := if w.ok then Serving else Unwinding), w.visit, w.saved);
      }
    }
  }

  lemma UnwindKeepsInv(s: Scene, m: Memory)
    requires SceneInv(s) && s.memory == Some(m)
    ensures SceneInv(UnwindStep(s, m))
  {
    if m.run == Unwinding {
      PutKeepsInv(s, m, m.(visit := Unwound(m.visit), run := Finished, wakes := {}), m.visit, None);
    }
  }

  lemma MoveRunKeepsInv(s: Scene, m: Memory, allowed: bool, run: RunPhase, wakes: set<Device>)
    requires SceneInv(s) && s.memory == Some(m) && wakes <= m.wakes
    requires allowed ==> m.run != Finished && run != Validating && run != Waiting && run != Detached
    requires allowed && run == Finished ==> wakes == {}
    ensures SceneInv(MoveRun(s, m, allowed, run, wakes))
  {
    if allowed { MoveKeepsInv(s, m, m.(run := run, wakes := wakes)); }
  }

  /** A device is only ever woken by a command that is already saved. */
  lemma DeliverKeepsInv(s: Scene, m: Memory, d: Device)
    requires SceneInv(s) && s.memory == Some(m) && d in m.wakes
    ensures SceneInv(s.(woken := s.woken + {d}))
  {}

  lemma BeginKeepsInv(s: Scene, m: Memory)
    requires SceneInv(s) && s.memory == Some(m)
    ensures SceneInv(BeginCleanup(s, m))
  {
    var v := m.visit;
    if m.close == Idle && m.run == Finished {
      if v.producersRevoked { MoveKeepsInv(s, m, m.(close := Ending(PendingEnds(v), false))); }
      else { MoveKeepsInv(s, m, m.(close := Quiescing)); }
    }
  }

  lemma QuiesceKeepsInv(s: Scene, m: Memory, saves: bool, cause: Cause, savesError: bool)
    requires SceneInv(s) && s.memory == Some(m)
    ensures SceneInv(QuiesceStep(s, m, saves, cause, savesError))
  {
    if m.close == Quiescing {
      var w := ProducersGone(m.visit, saves, cause, savesError);
      var n := m.(visit := w.visit, close := if w.ok then Ending(PendingEnds(w.visit), false) else Idle);
      PutKeepsInv(s.(quiesced := true), m, n, w.visit, w.saved);
    }
  }

  lemma EndKeepsInv(s: Scene, m: Memory, d: Device, saves: bool)
    requires SceneInv(s) && s.memory == Some(m)
    ensures SceneInv(EndStep(s, m, d, saves))
  {
    if InFlight(m, d) {
      var w := EndpointGone(m.visit, d, saves);
      var n := m.(visit := w.visit, close := Ending(m.close.inFlight - {d}, m.close.failed || !saves));
      assert PendingEnds(w.visit) == PendingEnds(m.visit) - {d};
      PutKeepsInv(s.(confirmed := s.confirmed + {d}), m, n, w.visit, w.saved);
    }
  }

  lemma EndFailKeepsInv(s: Scene, m: Memory, d: Device)
    requires SceneInv(s) && s.memory == Some(m)
    ensures SceneInv(EndFailStep(s, m, d))
  {
    if InFlight(m, d) { MoveKeepsInv(s, m, m.(close := Ending(m.close.inFlight - {d}, true))); }
  }

  lemma FailCleanupKeepsInv(s: Scene, m: Memory, cause: Cause, saves: bool)
    requires SceneInv(s) && s.memory == Some(m)
    ensures SceneInv(FailCleanup(s, m, cause, saves))
  {
    if m.close == Quiescing || (m.close.Ending? && (m.close.inFlight != {} || m.close.failed)) {
      var w := CleanupInterrupted(m.visit, cause, saves);
      PutKeepsInv(s, m, m.(visit := w.visit, close := Idle), w.visit, w.saved);
    }
  }

  /** Completion is claimed only with the producers gone and every attempted device confirmed. */
  lemma CompleteKeepsInv(s: Scene, m: Memory, saves: bool)
    requires SceneInv(s) && s.memory == Some(m)
    ensures SceneInv(CompleteCleanup(s, m, saves))
  {
    if m.close == Ending({}, false) {
      assert m.visit.endedDevices == m.visit.commandIds.Keys by {
        assert Attempted(m.visit) == m.visit.commandIds.Keys;
        forall d | d in m.visit.commandIds.Keys ensures d in m.visit.endedDevices {
          assert d !in PendingEnds(m.visit);
        }
      }
      var w := FinishCleanup(m.visit, saves);
      PutKeepsInv(s, m, m.(visit := w.visit, close := Idle), w.visit, w.saved);
    }
  }

  /** Bookkeeping that leaves everything but the state and the error texts alone. */
  predicate Relabels(v: Visit, w: Visit) {
    w == v.(state := w.state, error := w.error, primaryError := w.primaryError, stopped := w.stopped)
    && (v.cleanupComplete ==> w.state == Closed)
  }

  lemma RelabelKeepsInv(s: Scene, m: Memory, u: Visit, v: Visit, w: Option<Checkpoint>)
    requires SceneInv(s) && s.memory == Some(m) && Relabels(m.visit, u) && Relabels(m.visit, v)
    requires w.Some? ==> w.value == LifecycleCheckpoint(u)
    ensures SceneInv(Put(s, m.(visit := v), w))
  {
    PutKeepsInv(s, m, m.(visit := v), u, w);
  }

  lemma BindingKeepsVisitInv(v: Visit, d: Device, conversation: string, prepared: bool)
    requires VisitInv(v) && d in v.commandIds
    requires prepared ==> v.prepared || |v.sessions[d := conversation]| == |v.devices|
    ensures var bound := v.(sessions := v.sessions[d := conversation]);
            VisitInv(bound) && After(v, bound) && VisitInv(bound.(prepared := prepared))
  {
    var bound := v.(sessions := v.sessions[d := conversation]);
    assert bound.sessions.Keys == v.sessions.Keys + {d};
    AllBound(v.devices, bound.sessions.Keys);
    assert |bound.sessions| == |bound.sessions.Keys|;
  }

  lemma BindKeepsInv(s: Scene, m: Memory, d: Device, conversation: string, prepared: bool, w: Option<Checkpoint>)
    requires SceneInv(s) && s.memory == Some(m) && d in m.visit.commandIds
    requires prepared ==> m.visit.prepared || |m.visit.sessions[d := conversation]| == |m.visit.devices|
    requires w.Some? ==> w.value == LifecycleCheckpoint(m.visit.(sessions := m.visit.sessions[d := conversation]))
    ensures var bound := m.visit.(sessions := m.visit.sessions[d := conversation], prepared := prepared);
            SceneInv(Put(s, m.(visit := bound), w))
  {
    var bound := m.visit.(sessions := m.visit.sessions[d := conversation]);
    BindingKeepsVisitInv(m.visit, d, conversation, prepared);
    BoundPhase(m, bound.sessions, prepared, s.activations);
    assert Attempted(bound) == Attempted(m.visit);
    PutKeepsInv(s, m, m.(visit := bound.(prepared := prepared)), bound, w);
  }

  lemma BoundPhase(m: Memory, sessions: map<Device, string>, prepared: bool, activations: seq<map<Device, string>>)
    requires PhaseInv(m, activations) && sessions.Keys + m.visit.commandIds.Keys == Attempted(m.visit)
    ensures PhaseInv(m.(visit := m.visit.(sessions := sessions, prepared := prepared)), activations)
  {}

  /** A request either leaves what is durable alone or binds one conversation to a device
      that was asked to join. */
  lemma RequestShape(v: Visit, d: Device, r: ServingRequest, saves: bool)
    requires VisitInv(v)
    ensures var w := Request(v, d, r, saves);
            var bound := v.(sessions := v.sessions[d := r.conversationId]);
            || (w.saved == None && w.visit == v.(stopped := w.visit.stopped))
            || (d in v.commandIds && w.saved == (if saves then Some(LifecycleCheckpoint(bound)) else None)
                && w.visit == bound.(prepared := v.prepared || (saves && |bound.sessions| == |bound.devices|)))
  {}

  lemma ReceiveKeepsInv(s: Scene, m: Memory, d: Device, r: ServingRequest, saves: bool)
    requires SceneInv(s) && s.memory == Some(m)
    ensures SceneInv(ReceiveStep(s, m, d, r, saves))
  {
    var v := m.visit;
    var w := Request(v, d, r, saves);
    RequestShape(v, d, r, saves);
    if w.saved == None && w.visit == v.(stopped := w.visit.stopped) {
      RelabelKeepsInv(s, m, v, w.visit, None);
    } else {
      BindKeepsInv(s, m, d, r.conversationId, w.visit.prepared, w.saved);
    }
  }

  lemma RelabelledKeepsInv(s: Scene, m: Memory, w: Written, u: Visit)
    requires SceneInv(s) && s.memory == Some(m) && Relabels(m.visit, w.visit) && Relabels(m.visit, u)
    requires w.saved.Some? ==> w.saved.value == LifecycleCheckpoint(u)
    ensures SceneInv(PutWritten(s, m, w))
  {
    RelabelKeepsInv(s, m, u, w.visit, w.saved);
  }

  /** What recovery does to a coherent saved row: accepted iff no conversation id is empty. */
  lemma RestorableIff(devices: Selection, c: Checkpoint)
    requires Coherent(devices, c)
    ensures Restore(devices, c).Some? <==> NonEmpty(c.sessions)
  {
    assert c.sessions.Keys + c.commandIds.Keys == c.commandIds.Keys;
  }

  lemma PreparingStepKeepsInv(s: Scene, e: Event)
    requires SceneInv(s) && s.memory.Some? && (e.Wake? || e.Deliver? || e.Activate?)
    ensures SceneInv(Step(s, e))
  {
    var m := s.memory.value;
    match e
    case Wake(ids, saves, cause) => WakeKeepsInv(s, m, ids, saves, cause);
    case Deliver(d) => if d in m.wakes { DeliverKeepsInv(s, m, d); }
    case Activate(cause) => ActivateKeepsInv(s, m, cause);
  }

  lemma OutcomeStepKeepsInv(s: Scene, e: Event)
    requires SceneInv(s) && s.memory.Some? && (e.ReceiptsDone? || e.RunFails? || e.Unwind?)
    ensures SceneInv(Step(s, e))
  {
    var m := s.memory.value;
    match e
    case ReceiptsDone(saves, cause) => ReceiptsKeepInv(s, m, saves, cause);
    case RunFails(cause) => if Awaiting(m.run) { FailKeepsInv(s, m, cause); }
    case Unwind => UnwindKeepsInv(s, m);
  }

  lemma MoveStepKeepsInv(s: Scene, e: Event)
    requires SceneInv(s) && s.memory.Some? && (e.ActivationDone? || e.StopSeen? || e.Cancel? || e.Abandon?)
    ensures SceneInv(Step(s, e))
  {
    var m := s.memory.value;
    match e
    case ActivationDone => MoveRunKeepsInv(s, m, m.run == Activating, Confirming, m.wakes);
    case StopSeen => MoveRunKeepsInv(s, m, m.run == Serving && m.visit.stopped, Unwinding, m.wakes);
    case Cancel => MoveRunKeepsInv(s, m, Awaiting(m.run) || m.run == Serving, Unwinding, m.wakes);
    case Abandon => MoveRunKeepsInv(s, m, m.run == Validating || m.run == Unwinding, Finished, {});
  }

  lemma QuiescingStepKeepsInv(s: Scene, e: Event)
    requires SceneInv(s) && s.memory.Some? && (e.CleanupBegin? || e.QuiesceDone?)
    ensures SceneInv(Step(s, e))
  {
    var m := s.memory.value;
    match e
    case CleanupBegin => BeginKeepsInv(s, m);
    case QuiesceDone(saves, cause, savesError) => QuiesceKeepsInv(s, m, saves, cause, savesError);
  }

  lemma EndingStepKeepsInv(s: Scene, e: Event)
    requires SceneInv(s) && s.memory.Some? && (e.EndConfirmed? || e.EndFailed?)
    ensures SceneInv(Step(s, e))
  {
    var m := s.memory.value;
    match e
    case EndConfirmed(d, saves) => EndKeepsInv(s, m, d, saves);
    case EndFailed(d) => EndFailKeepsInv(s, m, d);
  }

  lemma ConcludingStepKeepsInv(s: Scene, e: Event)
    requires SceneInv(s) && s.memory.Some? && (e.CleanupFails? || e.CleanupDone?)
    ensures SceneInv(Step(s, e))
  {
    var m := s.memory.value;
    match e
    case CleanupFails(cause, saves) => FailCleanupKeepsInv(s, m, cause, saves);
    case CleanupDone(saves) => CompleteKeepsInv(s, m, saves);
  }

  lemma ReceiveStepKeepsInv(s: Scene, e: Event)
    requires SceneInv(s) && s.memory.Some? && e.Receive?
    ensures SceneInv(Step(s, e))
  {
    ReceiveKeepsInv(s, s.memory.value, e.device, e.request, e.saved);
  }

  lemma ObservedStepKeepsInv(s: Scene, e: Event)
    requires SceneInv(s) && s.memory.Some? && e.EndObserved?
    ensures SceneInv(Step(s, e))
  {
    var m := s.memory.value;
    RelabelKeepsInv(s, m, m.visit, SessionEnded(m.visit, e.reason), None);
  }

  lemma StatusStepKeepsInv(s: Scene, e: Event)
    requires SceneInv(s) && s.memory.Some? && e.StatusLost?
    ensures SceneInv(Step(s, e))
  {
    var m := s.memory.value;
    var w := LoseReachability(m.visit, e.saved);
    if m.visit.state == Ready { RelabelledKeepsInv(s, m, w, w.visit.(stopped := m.visit.stopped)); }
  }

  lemma CloseCallStepKeepsInv(s: Scene, e: Event)
    requires SceneInv(s) && s.memory.Some? && (e.CloseCall? || e.CloseReturn?)
    ensures SceneInv(Step(s, e))
  {
    var m := s.memory.value;
    var v := m.visit;
    match e
    case CloseCall(clears, saves) =>
      var w := CloseRequested(v, clears, saves);
      if v.state != Closed { RelabelledKeepsInv(s, m, w, w.visit); }
    case CloseReturn(saves) =>
      var w := CloseSettled(v, saves);
      RelabelledKeepsInv(s, m, w, w.visit);
  }

  lemma ProcessStepKeepsInv(s: Scene, e: Event)
    requires SceneInv(s) && (e.Crash? || e.Restart?)
    ensures SceneInv(Step(s, e))
  {}

  lemma StepKeepsInv(s: Scene, e: Event)
    requires SceneInv(s)
    ensures SceneInv(Step(s, e))
  {
    if e.Crash? || e.Restart? { ProcessStepKeepsInv(s, e); }
    else if s.memory.None? {}
    else if e.Wake? || e.Deliver? || e.Activate? { PreparingStepKeepsInv(s, e); }
    else if e.ReceiptsDone? || e.RunFails? || e.Unwind? { OutcomeStepKeepsInv(s, e); }
    else if e.ActivationDone? || e.StopSeen? || e.Cancel? || e.Abandon? { MoveStepKeepsInv(s, e); }
    else if e.CleanupFails? || e.CleanupDone? { ConcludingStepKeepsInv(s, e); }
    else if e.CleanupBegin? || e.QuiesceDone? { QuiescingStepKeepsInv(s, e); }
    else if e.EndConfirmed? || e.EndFailed? { EndingStepKeepsInv(s, e); }
    else if e.CloseCall? || e.CloseReturn? { CloseCallStepKeepsInv(s, e); }
    else if e.Receive? { ReceiveStepKeepsInv(s, e); }
    else if e.EndObserved? { ObservedStepKeepsInv(s, e); }
    else { StatusStepKeepsInv(s, e); }
  }
}
