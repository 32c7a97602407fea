/** What a prepared scene does with each thing that happens to it, in terms of its visit's own
    fields, its task, its close transaction and its saved row. */
module SceneAnswers {
  import opened Contracts
  import opened EndpointPreparation
  import opened SceneProtocol
  import opened SceneGuarantees
  import opened SceneTheorems

  // -- Requests ------------------------------------------------------------------------------

  /** The request names a selected device of an active visit, by the join command that device was
      sent or, without a command, by the conversation it is bound to. */
  predicate Ours(v: Visit, d: Device, r: ServingRequest) {
    && d in v.devices && (v.state == Preparing || v.state == Ready)
    && (if r.controlRequestId.Some? then d in v.commandIds && v.commandIds[d] == r.controlRequestId.value
        else d in v.sessions && v.sessions[d] == r.conversationId)
  }

  predicate Bound(v: Visit, d: Device, conversation: string) { d in v.sessions && v.sessions[d] == conversation }

  /** A device may name the conversation it is bound to, or bind one while the visit prepares. */
  predicate MayBind(v: Visit, d: Device, conversation: string) {
    Bound(v, d, conversation) || (v.state == Preparing && d !in v.sessions)
  }

  /** Only a request that is ours is accepted: a stop always, a start that may bind if its
      checkpoint is written. */
  lemma RequestIsAnswered(v: Visit, d: Device, r: ServingRequest, saves: bool)
    ensures Request(v, d, r, saves).answer
         == (if !Ours(v, d, r) then Refused(InvalidTransition)
             else if r.action == Stop then Accepted
             else if !MayBind(v, d, r.conversationId) then Refused(InvalidTransition)
             else if saves then Accepted else Refused(StorageFailed))
  {}

  /** A refused request changes nothing, unless it was its checkpoint that failed. */
  lemma RefusedChangesNothing(s: Scene, d: Device, r: ServingRequest, saves: bool)
    requires s.memory.Some?
    requires var v := s.memory.value.visit;
             !Ours(v, d, r) || (r.action == Start && !MayBind(v, d, r.conversationId))
    ensures Step(s, Receive(d, r, saves)) == s
  {}

  /** A stop for the conversation its device is bound to stops the visit, and its task, if it is
      serving, then ends; a stop for any other conversation is accepted and stops nothing. Neither
      changes anything else. */
  lemma StopIsHeard(s: Scene, m: Memory, d: Device, r: ServingRequest, saves: bool)
    requires s.memory == Some(m) && Ours(m.visit, d, r) && r.action == Stop
    ensures var t := Step(s, Receive(d, r, saves));
            && t == s.(memory := t.memory) && t.memory.Some?
            && t.memory.value == m.(visit := m.visit.(stopped := t.memory.value.visit.stopped))
            && (t.memory.value.visit.stopped <==> m.visit.stopped || Bound(m.visit, d, r.conversationId))
            && (m.run == Serving ==>
                  && Step(t, StopSeen).memory.Some?
                  && Step(t, StopSeen).memory.value.run
                     == (if m.visit.stopped || Bound(m.visit, d, r.conversationId) then Unwinding else Serving))
  {
    var t := Step(s, Receive(d, r, saves));
    assert t == ReceiveStep(s, m, d, r, saves);
  }

  /** A start that may bind binds exactly that conversation to exactly that device; the row, if it
      is written, says so and nothing else new; and the visit is prepared once every selected
      device is bound and that is saved. */
  lemma StartBinds(s: Scene, m: Memory, d: Device, r: ServingRequest, saves: bool)
    requires SceneInv(s) && s.memory == Some(m) && Ours(m.visit, d, r) && r.action == Start
    requires MayBind(m.visit, d, r.conversationId)
    ensures var t := Step(s, Receive(d, r, saves));
            && t == s.(memory := t.memory, saved := t.saved) && t.memory.Some?
            && var w := t.memory.value.visit;
               && t.memory.value == m.(visit := w)
               && w == m.visit.(sessions := m.visit.sessions[d := r.conversationId], prepared := w.prepared)
               && (w.prepared <==> m.visit.prepared || (saves && forall x | x in w.devices :: x in w.sessions))
               && t.saved == if saves then Some(LifecycleCheckpoint(w)) else s.saved
  {
    var bound := m.visit.sessions[d := r.conversationId];
    AllSelectedBound(m.visit, d, r.conversationId);
    StartStep(s, m, d, r, saves);
  }

  lemma StartStep(s: Scene, m: Memory, d: Device, r: ServingRequest, saves: bool)
    requires s.memory == Some(m) && Ours(m.visit, d, r) && r.action == Start && MayBind(m.visit, d, r.conversationId)
    ensures var bound := m.visit.(sessions := m.visit.sessions[d := r.conversationId]);
            Step(s, Receive(d, r, saves))
            == Put(s, m.(visit := bound.(prepared := bound.prepared || (saves && |bound.sessions| == |bound.devices|))),
                   if saves then Some(LifecycleCheckpoint(bound)) else None)
  {
    assert Step(s, Receive(d, r, saves)) == ReceiveStep(s, m, d, r, saves);
  }

  lemma AllSelectedBound(v: Visit, d: Device, conversation: string)
    requires VisitInv(v) && d in v.devices
    ensures var bound := v.sessions[d := conversation];
            |bound| == |v.devices| <==> forall x | x in v.devices :: x in bound
  {
    var bound := v.sessions[d := conversation];
    assert bound.Keys == v.sessions.Keys + {d} && |bound| == |bound.Keys|;
    AllBound(v.devices, bound.Keys);
    if forall x | x in v.devices :: x in bound { assert bound.Keys == Members(v.devices); }
  }

  // -- The scene's task ------------------------------------------------------------------------

  /** A session that ends for a reason fails a visit that is active and was not told to stop, for
      exactly that reason; any other end only stops it. */
  lemma EndIsObserved(s: Scene, m: Memory, reason: Option<Cause>)
    requires s.memory == Some(m)
    ensures var t := Step(s, EndObserved(reason));
            var active := m.visit.state == Preparing || m.visit.state == Ready;
            t == s.(memory := Some(m.(visit :=
                   if reason.Some? && active && !m.visit.stopped
                   then m.visit.(stopped := true, state := Failed, primaryError := [reason.value],
                                 error := [reason.value])
                   else m.visit.(stopped := true))))
  {}

  /** Exactly the first n devices have commands, each its own. */
  predicate CommandedFirst(commands: map<Device, string>, devices: seq<Device>, ids: seq<CommandId>, n: nat)
    requires n <= |devices| == |ids|
  {
    && commands.Keys <= Members(devices)
    && forall i {:trigger ids[i]} | 0 <= i < |devices| ::
         Lookup(commands, devices[i]) == if i < n then Some(ids[i]) else None
  }

  /** The scene after a run that failed for a cause. */
  predicate FailedRun(m: Memory, n: Memory, cause: Cause) {
    && n.run == Unwinding && n.visit.state == Failed && n.visit.error == n.visit.primaryError
    && n.visit.primaryError == (if m.visit.primaryError == [] then [cause] else m.visit.primaryError)
    && n == m.(run := n.run, visit := m.visit.(state := n.visit.state, error := n.visit.error,
                                               primaryError := n.visit.primaryError, commandIds := n.visit.commandIds))
  }

  /** Only the first joins are saved: the scene fails for that cause, the next command is in memory
      only, and nobody is woken. */
  predicate JoinsCutShort(s: Scene, m: Memory, t: Scene, ids: seq<CommandId>, saves: nat, cause: Cause)
    requires saves < |ids| == |m.visit.devices|
  {
    && t == s.(memory := t.memory, saved := t.saved) && t.memory.Some?
    && FailedRun(m, t.memory.value, cause)
    && CommandedFirst(t.memory.value.visit.commandIds, m.visit.devices, ids, saves + 1)
    && (if saves == 0 then t.saved == s.saved
        else t.saved.Some? && CommandedFirst(t.saved.value.commandIds, m.visit.devices, ids, saves))
  }

  lemma UnsavedJoinFails(s: Scene, m: Memory, ids: seq<CommandId>, saves: nat, cause: Cause)
    requires s.memory == Some(m) && m.run == Validating && m.visit.commandIds == map[]
    requires |ids| == |m.visit.devices| && saves < |ids|
    ensures JoinsCutShort(s, m, Step(s, Wake(ids, saves, cause)), ids, saves, cause)
  {
    var t := UnsavedJoin(s, m, ids, saves, cause);
  }

  lemma UnsavedJoin(s: Scene, m: Memory, ids: seq<CommandId>, saves: nat, cause: Cause) returns (t: Scene)
    requires s.memory == Some(m) && m.run == Validating && m.visit.commandIds == map[]
    requires |ids| == |m.visit.devices| && saves < |ids|
    ensures t == Step(s, Wake(ids, saves, cause)) && JoinsCutShort(s, m, t, ids, saves, cause)
  {
    var before, after;
    t, before, after := UnsavedJoinStep(s, m, ids, saves, cause);
  }

  lemma UnsavedJoinStep(s: Scene, m: Memory, ids: seq<CommandId>, saves: nat, cause: Cause)
    returns (t: Scene, before: Visit, after: Visit)
    requires s.memory == Some(m) && m.run == Validating && m.visit.commandIds == map[]
    requires |ids| == |m.visit.devices| && saves < |ids|
    ensures t == Step(s, Wake(ids, saves, cause))
    ensures t == s.(memory := Some(m.(visit := RunFailed(after, cause), run := Unwinding)),
                    saved := if saves == 0 then s.saved else Some(LifecycleCheckpoint(before)))
    ensures FirstCommanded(m.visit, after, ids, saves + 1) && FirstCommanded(m.visit, before, ids, saves)
  {
    before := FirstCommands(m.visit, ids, saves);
    after := FirstCommands(m.visit, ids, saves + 1);
    t := CutShort(s, m, ids, saves, cause, before, after);
  }

  lemma CutShort(s: Scene, m: Memory, ids: seq<CommandId>, saves: nat, cause: Cause, before: Visit, after: Visit)
    returns (t: Scene)
    requires s.memory == Some(m) && m.run == Validating && |ids| == |m.visit.devices| && saves < |ids|
    requires before == Commanded(m.visit, ids, saves) && after == Commanded(m.visit, ids, saves + 1)
    ensures t == Step(s, Wake(ids, saves, cause))
    ensures t == s.(memory := Some(m.(visit := RunFailed(after, cause), run := Unwinding)),
                    saved := if saves == 0 then s.saved else Some(LifecycleCheckpoint(before)))
  {
    t := Step(s, Wake(ids, saves, cause));
    assert t == WakeStep(s, m, ids, saves, cause);
  }

  /** With every command saved the scene waits, and every selected device is about to be sent its
      own; without a command per device nothing happens. */
  lemma SavedJoinsWake(s: Scene, m: Memory, ids: seq<CommandId>, saves: nat, cause: Cause)
    requires s.memory == Some(m) && m.visit.commandIds == map[] && |m.visit.devices| <= saves
    ensures var t := Step(s, Wake(ids, saves, cause));
            if m.run != Validating || |ids| != |m.visit.devices| then t == s
            else
              && t == s.(memory := t.memory, saved := t.saved) && t.memory.Some?
              && var n := t.memory.value;
                 && n == m.(run := Waiting, wakes := Members(m.visit.devices),
                            visit := m.visit.(commandIds := n.visit.commandIds))
                 && CommandedFirst(n.visit.commandIds, m.visit.devices, ids, |ids|)
                 && t.saved == Some(LifecycleCheckpoint(n.visit))
  {
    if m.run == Validating && |ids| == |m.visit.devices| {
      var all := FirstCommands(m.visit, ids, |ids|);
      assert Step(s, Wake(ids, saves, cause)) == WakeStep(s, m, ids, saves, cause);
    }
  }

  predicate FirstCommanded(v: Visit, w: Visit, ids: seq<CommandId>, n: nat)
    requires n <= |v.devices| == |ids|
  {
    w == v.(commandIds := w.commandIds) && CommandedFirst(w.commandIds, v.devices, ids, n)
  }

  lemma FirstCommands(v: Visit, ids: seq<CommandId>, n: nat) returns (w: Visit)
    requires v.commandIds == map[] && n <= |ids| == |v.devices|
    ensures w == Commanded(v, ids, n) && FirstCommanded(v, w, ids, n)
  {
    w := Commanded(v, ids, n);
    forall i | 0 <= i < |v.devices|
      ensures Lookup(w.commandIds, v.devices[i]) == if i < n then Some(ids[i]) else None
    {
      if i < n { CommandedAt(v, ids, n, i); }
    }
  }

  /** A waiting scene whose devices are all prepared is activated with exactly their conversations,
      unless it was stopped: then it fails. Nothing else activates one. */
  lemma ActivatesIff(s: Scene, m: Memory, e: Event)
    requires s.memory == Some(m)
    ensures Step(s, e).activations
         == if e.Activate? && m.run == Waiting && m.visit.prepared && !m.visit.stopped
            then s.activations + [m.visit.sessions] else s.activations
    ensures e.Activate? && m.run == Waiting && m.visit.prepared ==>
              && Step(s, e).memory.Some?
              && Step(s, e).memory.value.run == (if m.visit.stopped then Unwinding else Activating)
              && (m.visit.stopped ==> Step(s, e).memory.value.visit.state == Failed)
              && (!m.visit.stopped ==> Step(s, e).memory.value.visit == m.visit)
  {}

  /** When its receipts are in and that is saved, the scene is ready and serves, or ends if it was
      already stopped; if it cannot be saved, it fails. */
  lemma ReceiptsDecide(s: Scene, m: Memory, saves: bool, cause: Cause)
    requires s.memory == Some(m) && m.run == Confirming
    ensures var t := Step(s, ReceiptsDone(saves, cause));
            && t == s.(memory := t.memory, saved := t.saved) && t.memory.Some?
            && var n := t.memory.value;
               if saves then
                 && t.saved == Some(LifecycleCheckpoint(m.visit.(state := Ready)))
                 && n == if m.visit.stopped then m.(run := Finished, wakes := {}, visit := m.visit.(state := Closing))
                         else m.(run := Serving, visit := m.visit.(state := Ready))
               else t.saved == s.saved && FailedRun(m, n, cause) && n.visit.commandIds == m.visit.commandIds
  {
    assert Step(s, ReceiptsDone(saves, cause)) == ReceiptsStep(s, m, saves, cause);
  }

  lemma ReceiptsNeedConfirming(s: Scene, m: Memory, saves: bool, cause: Cause)
    requires s.memory == Some(m) && m.run != Confirming
    ensures Step(s, ReceiptsDone(saves, cause)) == s
  {}

  /** A task that fails while it awaits something fails its visit, for the first cause recorded. */
  lemma TaskFails(s: Scene, m: Memory, cause: Cause)
    requires s.memory == Some(m)
    ensures var t := Step(s, RunFails(cause));
            var awaiting := m.run == Validating || m.run == Waiting || m.run == Activating || m.run == Confirming;
            if !awaiting then t == s
            else
              && t == s.(memory := t.memory) && t.memory.Some?
              && var w := t.memory.value.visit;
                 && t.memory.value == m.(visit := w, run := Unwinding)
                 && w == m.visit.(state := Failed, error := w.primaryError, primaryError := w.primaryError)
                 && w.primaryError == (if m.visit.primaryError == [] then [cause] else m.visit.primaryError)
  {}

  /** A task that is told to stop, or cancelled, unwinds; unwinding ends it, closing unless failed. */
  lemma TaskEnds(s: Scene, m: Memory)
    requires s.memory == Some(m)
    ensures var running := m.run in {Validating, Waiting, Activating, Confirming, Serving};
            Step(s, Cancel) == if running then s.(memory := Some(m.(run := Unwinding))) else s
    ensures Step(s, StopSeen)
         == if m.run == Serving && m.visit.stopped then s.(memory := Some(m.(run := Unwinding))) else s
    ensures Step(s, Unwind)
         == if m.run != Unwinding then s
            else s.(memory := Some(m.(run := Finished, wakes := {},
                                      visit := m.visit.(state := if m.visit.state == Failed then Failed else Closing))))
  {
    if m.run == Unwinding { UnwindingEnds(s, m); }
  }

  /** A task cancelled before it woke anybody, or while it unwinds, just ends; activation done, its
      receipts are awaited. */
  lemma TaskMovesOn(s: Scene, m: Memory)
    requires s.memory == Some(m)
    ensures var abandons := m.run == Validating || m.run == Unwinding;
            Step(s, Abandon) == if abandons then s.(memory := Some(m.(run := Finished, wakes := {}))) else s
    ensures Step(s, ActivationDone) == if m.run == Activating then s.(memory := Some(m.(run := Confirming))) else s
  {}

  lemma UnwindingEnds(s: Scene, m: Memory)
    requires s.memory == Some(m) && m.run == Unwinding
    ensures Step(s, Unwind)
         == s.(memory := Some(m.(run := Finished, wakes := {},
                                 visit := m.visit.(state := if m.visit.state == Failed then Failed else Closing))))
  {
    assert m.visit.(state := m.visit.state) == m.visit;
  }

  /** A device is sent its join exactly if its wake is under way. */
  lemma DeliversIff(s: Scene, m: Memory, d: Device)
    requires s.memory == Some(m)
    ensures Step(s, Deliver(d)) == s.(woken := if d in m.wakes then s.woken + {d} else s.woken)
  {}

  // -- Closing -----------------------------------------------------------------------------------

  /** A close attempt begins once the task is over and no other is under way: with the producers
      still to quiesce, or else with every device that may have been woken and has not confirmed. */
  lemma CleanupBegins(s: Scene, m: Memory)
    requires s.memory == Some(m)
    ensures var t := Step(s, CleanupBegin);
            if m.run != Finished || m.close != Idle then t == s
            else if !m.visit.producersRevoked then t == s.(memory := Some(m.(close := Quiescing)))
            else t == s.(memory := Some(m.(close := Ending(
                           m.visit.sessions.Keys + m.visit.commandIds.Keys - m.visit.endedDevices, false))))
  {}

  /** How a failed attempt leaves the visit: failed, what it showed first kept as its cause, and
      the cleanup's reason beside it. */
  predicate CleanupFailed(v: Visit, w: Visit, reason: Cause) {
    && w.state == Failed && w.cleanupFailed && w.cleanupError == [reason] && w.error == w.primaryError + [reason]
    && w.primaryError == (if v.primaryError == [] && !v.cleanupFailed then v.error else v.primaryError)
    && w == v.(state := w.state, error := w.error, primaryError := w.primaryError, cleanupError := w.cleanupError,
               cleanupFailed := w.cleanupFailed)
  }

  /** Producers that confirm their teardown are recorded gone; if that cannot be saved the attempt
      fails there. */
  lemma QuiescingDecides(s: Scene, m: Memory, saves: bool, cause: Cause, savesError: bool)
    requires s.memory == Some(m) && m.close == Quiescing
    ensures var t := Step(s, QuiesceDone(saves, cause, savesError));
            var gone := m.visit.(producersRevoked := true);
            && t.quiesced && t.memory.Some?
            && if saves then
                 && t.memory.value.visit == gone && t.saved == Some(LifecycleCheckpoint(gone))
                 && t.memory.value.close
                    == Ending(m.visit.sessions.Keys + m.visit.commandIds.Keys - m.visit.endedDevices, false)
               else
                 && CleanupFailed(gone, t.memory.value.visit, cause) && t.memory.value.close == Idle
                 && t.saved == if savesError then Some(LifecycleCheckpoint(t.memory.value.visit)) else s.saved
  {}

  /** Each device asked to end confirms, and is recorded, or does not; an attempt with a failure
      cannot complete, and fails for the reason it raises. */
  lemma EndsDecide(s: Scene, m: Memory, d: Device, saves: bool)
    requires s.memory == Some(m) && m.close.Ending? && d in m.close.inFlight
    ensures var t := Step(s, EndConfirmed(d, saves));
            && t.confirmed == s.confirmed + {d} && t.memory.Some?
            && t.memory.value.visit == m.visit.(endedDevices := m.visit.endedDevices + {d})
            && t.memory.value.close == Ending(m.close.inFlight - {d}, m.close.failed || !saves)
            && t.saved == if saves then Some(LifecycleCheckpoint(t.memory.value.visit)) else s.saved
    ensures Step(s, EndFailed(d)) == s.(memory := Some(m.(close := Ending(m.close.inFlight - {d}, true))))
  {}

  /** No end is taken from a device that is not being asked. */
  lemma UnaskedEndsAreIgnored(s: Scene, m: Memory, d: Device, saves: bool)
    requires s.memory == Some(m) && (m.close.Idle? || m.close.Quiescing? || d !in m.close.inFlight)
    ensures Step(s, EndConfirmed(d, saves)) == s && Step(s, EndFailed(d)) == s
  {}

  lemma InterruptedFails(s: Scene, m: Memory, cause: Cause, saves: bool)
    requires s.memory == Some(m)
    ensures var t := Step(s, CleanupFails(cause, saves));
            var underway := m.close == Quiescing || (m.close.Ending? && (m.close.inFlight != {} || m.close.failed));
            if !underway then t == s
            else
              && t.memory.Some? && t.memory.value.close == Idle && CleanupFailed(m.visit, t.memory.value.visit, cause)
              && t.saved == if saves then Some(LifecycleCheckpoint(t.memory.value.visit)) else s.saved
  {}

  /** With every device confirmed the visit is closed, its error what first went wrong; if that
      cannot be saved it is a failed attempt instead, and the row stays as it was. */
  lemma CompletionDecides(s: Scene, m: Memory, saves: bool)
    requires s.memory == Some(m)
    ensures var t := Step(s, CleanupDone(saves));
            if m.close != Ending({}, false) then t == s
            else
              && t.memory.Some? && t.memory.value.close == Idle
              && var w := t.memory.value.visit;
                 if saves then
                   && w == m.visit.(state := Closed, error := m.visit.primaryError, cleanupError := [],
                                    cleanupFailed := false, cleanupComplete := true)
                   && t.saved == Some(LifecycleCheckpoint(w))
                 else
                   && w.state == Failed && !w.cleanupComplete && w.cleanupFailed && t.saved == s.saved
                   && w.primaryError == m.visit.primaryError
                   && w.cleanupError == [CheckpointNotCommitted]
                   && w.error == m.visit.primaryError + [CheckpointNotCommitted]
  {}

  // -- Status reads and close calls -----------------------------------------------------------------

  /** A ready visit whose endpoints are gone closes for that reason; it is stopped once that is
      saved. Any other visit is left alone. */
  lemma LostEndpointsClose(s: Scene, m: Memory, saves: bool)
    requires s.memory == Some(m)
    ensures var t := Step(s, StatusLost(saves));
            var lost := m.visit.(state := Closing, primaryError := [ReachabilityLost], error := [ReachabilityLost]);
            if m.visit.state != Ready then t == s
            else
              && t.memory == Some(m.(visit := lost.(stopped := m.visit.stopped || saves)))
              && t.saved == if saves then Some(LifecycleCheckpoint(lost)) else s.saved
  {}

  /** A close call marks a visit that is not closed as closing, a team's with its error cleared; once
      the close is through the visit is closed and shows what first went wrong. */
  lemma CloseCallsMark(s: Scene, m: Memory, clears: bool, saves: bool)
    requires s.memory == Some(m)
    ensures var t := Step(s, CloseCall(clears, saves));
            if m.visit.state == Closed then t == s
            else
              && t.memory == Some(m.(visit := m.visit.(state := Closing,
                                                       error := if clears then [] else m.visit.error)))
              && t.saved == if saves then Some(LifecycleCheckpoint(t.memory.value.visit)) else s.saved
    ensures var t := Step(s, CloseReturn(saves));
            && t.memory == Some(m.(visit := m.visit.(state := Closed, error := m.visit.primaryError)))
            && t.saved == if saves then Some(LifecycleCheckpoint(t.memory.value.visit)) else s.saved
  {}

  // -- The process ------------------------------------------------------------------------------------

  /** A row is refused if it names a device not selected, ended or bound without having been asked,
      holds an empty id, or claims a completion it does not prove. */
  lemma RestoreRefusesIff(devices: Selection, c: Checkpoint)
    ensures Restore(devices, c).None? <==>
              || (exists d :: (d in c.sessions || d in c.commandIds) && d !in devices)
              || (exists d :: d in c.endedDevices && d !in c.sessions && d !in c.commandIds)
              || (exists d :: d in c.sessions && c.sessions[d] == "")
              || (exists d :: d in c.commandIds && c.commandIds[d] == "")
              || (c.cleanupComplete
                  && (!c.producersRevoked || c.endedDevices != c.sessions.Keys + c.commandIds.Keys))
  {
    var attempted := c.sessions.Keys + c.commandIds.Keys;
    assert attempted <= Members(devices) <==> !exists d :: (d in c.sessions || d in c.commandIds) && d !in devices;
    assert c.endedDevices <= attempted <==> !exists d :: d in c.endedDevices && d !in c.sessions && d !in c.commandIds;
  }

  /** A row that is not refused comes back whole: the visit is closed if the row says its cleanup is
      complete and closing if not, whatever state was saved, and nothing is signalled. */
  lemma RestoredShowsRow(devices: Selection, c: Checkpoint)
    requires Restore(devices, c).Some?
    ensures var v := Restore(devices, c).value;
            && v.devices == devices && !v.prepared && !v.stopped
            && v.state == (if c.cleanupComplete then Closed else Closing)
            && LifecycleCheckpoint(v) == c.(state := v.state)
  {}

  /** A crash forgets what is in memory and nothing else; a restart installs the row it can read,
      its task over and no close under way, and writes it back. */
  lemma ProcessComesBack(s: Scene, saves: bool)
    ensures Step(s, Crash) == s.(memory := None)
    ensures var t := Step(s, Restart(saves));
            if s.memory.Some? || s.saved.None? || Restore(s.devices, s.saved.value).None? then t == s
            else
              && t.memory == Some(Memory(Restore(s.devices, s.saved.value).value, Finished, Idle, {}))
              && t == s.(memory := t.memory, saved := t.saved)
              && t.saved == if saves then Some(LifecycleCheckpoint(t.memory.value.visit)) else s.saved
  {}
}
