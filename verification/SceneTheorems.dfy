/** The promises of a prepared scene, over every sequence of steps, crashes and restarts. */
module SceneTheorems {
  import opened Contracts
  import opened EndpointPreparation
  import opened SceneProtocol
  import opened SceneGuarantees

  /** Every run keeps the scene invariant. */
  lemma {:induction false} RunKeepsInv(s: Scene, es: seq<Event>)
    requires SceneInv(s)
    ensures SceneInv(Run(s, es))
    decreases es
  {
    if es != [] {
      StepKeepsInv(s, es[0]);
      RunKeepsInv(Step(s, es[0]), es[1..]);
    }
  }

  // -- Crash safety ------------------------------------------------------------------

  /** In every run, however it is crashed and restarted: a device sent room.join is in the
      saved command ids; a saved completion means the producers were gone and every woken
      device confirmed its end. */
  lemma SavedRowNeverForgets(devices: Selection, saves: bool, es: seq<Event>)
    ensures var s := Run(Opening(devices, saves), es);
            && (s.woken != {} ==> s.saved.Some? && s.woken <= s.saved.value.commandIds.Keys)
            && (s.saved.Some? && s.saved.value.cleanupComplete ==> s.quiesced && s.woken <= s.confirmed)
  {
    OpeningKeepsInv(devices, saves);
    RunKeepsInv(Opening(devices, saves), es);
  }

  /** A crash at any point followed by a restart brings back a visit that will end every device
      ever woken, iff none of the saved conversation ids is empty; otherwise recovery refuses
      the row and the visit stays gone. */
  lemma RecoveryCoversEveryWokenDevice(devices: Selection, saves: bool, es: seq<Event>, rewrites: bool)
    ensures var s := Run(Opening(devices, saves), es);
            var r := Run(Opening(devices, saves), es + [Crash, Restart(rewrites)]);
            && (r.memory.Some? <==> s.saved.Some? && NonEmpty(s.saved.value.sessions))
            && (r.memory.Some? ==> s.woken <= Attempted(r.memory.value.visit))
  {
    var o := Opening(devices, saves);
    OpeningKeepsInv(devices, saves);
    RunKeepsInv(o, es);
    RunConcat(o, es, [Crash, Restart(rewrites)]);
    var s := Run(o, es);
    RunTwo(s, Crash, Restart(rewrites));
    if s.saved.Some? { RestorableIff(s.devices, s.saved.value); RunKeepsDevices(o, es); }
  }

  lemma {:induction false} RunConcat(s: Scene, es: seq<Event>, fs: seq<Event>)
    ensures Run(s, es + fs) == Run(Run(s, es), fs)
    decreases es
  {
    if es == [] {
      assert es + fs == fs;
    } else {
      assert (es + fs)[1..] == es[1..] + fs;
      RunConcat(Step(s, es[0]), es[1..], fs);
    }
  }

  lemma StepKeepsDevices(s: Scene, e: Event)
    ensures Step(s, e).devices == s.devices
  {}

  lemma {:induction false} RunKeepsDevices(s: Scene, es: seq<Event>)
    ensures Run(s, es).devices == s.devices
    decreases es
  {
    if es != [] { StepKeepsDevices(s, es[0]); RunKeepsDevices(Step(s, es[0]), es[1..]); }
  }

  // -- Activation ----------------------------------------------------------------------

  /** Over every run, restarts included, the scene's worker is activated at most once, and then
      with exactly one session for every selected endpoint. */
  lemma ActivatedAtMostOnce(devices: Selection, saves: bool, es: seq<Event>)
    ensures var s := Run(Opening(devices, saves), es);
            |s.activations| <= 1 && forall a | a in s.activations :: a.Keys == Members(devices)
  {
    OpeningKeepsInv(devices, saves);
    RunKeepsInv(Opening(devices, saves), es);
    RunKeepsDevices(Opening(devices, saves), es);
  }

  // -- Steps of one process --------------------------------------------------------------

  lemma RunTwo(s: Scene, e: Event, f: Event)
    ensures Run(s, [e, f]) == Step(Step(s, e), f)
  {
    assert [e, f][1..] == [f];
    assert Run(Step(s, e), [f]) == Run(Step(Step(s, e), f), []);
  }

  predicate TaskTouches(m: Memory, n: Memory) {
    && TaskRelabels(m.visit, n.visit)
    && n.close == m.close
    && (m.run == Finished ==> n.run == Finished && n.visit == m.visit)
  }

  predicate TaskRelabels(v: Visit, w: Visit) {
    && w == v.(state := w.state, error := w.error, primaryError := w.primaryError, commandIds := w.commandIds)
    && v.commandIds.Keys <= w.commandIds.Keys
  }

  lemma CommandedRelabels(v: Visit, ids: seq<CommandId>, m: nat)
    requires m <= |v.devices| == |ids|
    ensures TaskRelabels(v, Commanded(v, ids, m)) && Commanded(v, ids, m).primaryError == v.primaryError
    ensures Commanded(v, ids, m).state == v.state && Commanded(v, ids, m).error == v.error
  {}

  lemma RecordRelabels(v: Visit, ids: seq<CommandId>, saves: nat, cause: Cause)
    requires |v.devices| == |ids|
    ensures var w := RecordCommands(v, ids, saves, cause);
            && TaskRelabels(v, w.visit)
            && w.visit.primaryError == (if v.primaryError != [] || w.ok then v.primaryError else [cause])
            && (if w.ok then w.visit.state == v.state else w.visit.state == Failed)
  {
    if saves >= |v.devices| { CommandedRelabels(v, ids, |v.devices|); } else { CommandedRelabels(v, ids, saves + 1); }
  }

  lemma WakeShape(s: Scene, m: Memory, ids: seq<CommandId>, saves: nat, cause: Cause)
    requires s.memory == Some(m)
    ensures var t := WakeStep(s, m, ids, saves, cause); t.memory.Some? && TaskTouches(m, t.memory.value)
  {
    if m.run == Validating && |ids| == |m.visit.devices| { RecordRelabels(m.visit, ids, saves, cause); }
  }

  /** What the scene's task may touch: state, errors and, at the wake, the command ids. */
  lemma RunStepShape(s: Scene, m: Memory, e: Event)
    requires s.memory == Some(m)
    ensures var t := RunStep(s, m, e); t.memory.Some? && TaskTouches(m, t.memory.value)
  {
    if e.Wake? { WakeShape(s, m, e.ids, e.saves, e.cause); }
    else if e.Activate? { ActivateShape(s, m, e.cause); }
    else if e.ReceiptsDone? { ReceiptsShape(s, m, e.saved, e.cause); }
    else if e.RunFails? { if Awaiting(m.run) { FailShape(s, m, e.cause); } }
    else if e.Unwind? { UnwindShape(s, m); }
  }

  lemma FailShape(s: Scene, m: Memory, cause: Cause)
    requires s.memory == Some(m) && m.run != Finished
    ensures var t := FailStep(s, m, cause); t.memory.Some? && TaskTouches(m, t.memory.value)
  {}

  lemma ActivateShape(s: Scene, m: Memory, cause: Cause)
    requires s.memory == Some(m)
    ensures var t := ActivateStep(s, m, cause); t.memory.Some? && TaskTouches(m, t.memory.value)
  {
    if m.run == Waiting && m.visit.prepared && m.visit.stopped { FailShape(s, m, cause); }
  }

  lemma ReceiptsShape(s: Scene, m: Memory, saves: bool, cause: Cause)
    requires s.memory == Some(m)
    ensures var t := ReceiptsStep(s, m, saves, cause); t.memory.Some? && TaskTouches(m, t.memory.value)
  {
    ReadyRelabels(m.visit, saves, cause);
  }

  lemma ReadyRelabels(v: Visit, saves: bool, cause: Cause)
    ensures var w := BecomeReady(v, saves, cause).visit; TaskRelabels(v, w) && TaskRelabels(v, Unwound(w))
  {
    var w := BecomeReady(v, saves, cause).visit;
    assert w == v.(state := w.state, primaryError := w.primaryError, error := w.error);
  }

  lemma UnwindShape(s: Scene, m: Memory)
    requires s.memory == Some(m)
    ensures var t := UnwindStep(s, m); t.memory.Some? && TaskTouches(m, t.memory.value)
  {
    var w := Unwound(m.visit);
    assert w == m.visit.(state := w.state);
  }

  /** What the close transaction may touch: never a session or a command. */
  lemma CloseStepShape(s: Scene, m: Memory, e: Event)
    requires s.memory == Some(m)
    ensures var t := CloseStep(s, m, e);
            && t.memory.Some? && t.memory.value.run == m.run
            && var w, v := t.memory.value.visit, m.visit;
               && w.commandIds == v.commandIds && w.sessions == v.sessions && w.devices == v.devices
               && v.endedDevices <= w.endedDevices && (v.producersRevoked ==> w.producersRevoked)
  {}

  predicate CallTouches(m: Memory, n: Memory) {
    && n.run == m.run && n.close == m.close
    && n.visit == m.visit.(state := n.visit.state, error := n.visit.error, primaryError := n.visit.primaryError,
                           stopped := n.visit.stopped, sessions := n.visit.sessions, prepared := n.visit.prepared)
  }

  lemma RequestTouches(v: Visit, d: Device, r: ServingRequest, saves: bool)
    ensures var w := Request(v, d, r, saves).visit;
            w == v.(stopped := w.stopped, sessions := w.sessions, prepared := w.prepared)
  {
    var bound := v.(sessions := v.sessions[d := r.conversationId]);
    var w := Request(v, d, r, saves).visit;
    assert w == v || w == v.(stopped := w.stopped) || w == bound.(prepared := w.prepared);
  }

  lemma ReceiveShape(s: Scene, m: Memory, d: Device, r: ServingRequest, saves: bool)
    requires s.memory == Some(m)
    ensures var t := ReceiveStep(s, m, d, r, saves); t.memory.Some? && CallTouches(m, t.memory.value)
  {
    RequestTouches(m.visit, d, r, saves);
  }

  /** What calls from outside may touch: state, errors and the binding of a conversation. */
  lemma CallStepShape(s: Scene, m: Memory, e: Event)
    requires s.memory == Some(m)
    ensures var t := CallStep(s, m, e);
            && t.memory.Some? && CallTouches(m, t.memory.value)
            && (!e.Receive? ==> t.memory.value.visit.sessions == m.visit.sessions)
  {
    if e.Receive? { ReceiveShape(s, m, e.device, e.request, e.saved); }
  }

  /** A conversation bound to a device is never replaced, and only a device that was asked to
      join can be bound. */
  lemma SessionsAreWriteOnce(s: Scene, e: Event)
    requires s.memory.Some? && Ordinary(e)
    ensures Step(s, e).memory.Some?
    ensures var v, w := s.memory.value.visit, Step(s, e).memory.value.visit;
            && (forall d | d in v.sessions :: d in w.sessions && w.sessions[d] == v.sessions[d])
            && (forall d | d in w.sessions && d !in v.sessions :: e.Receive? && d == e.device && d in v.commandIds)
  {
    var m := s.memory.value;
    if IsRunEvent(e) {
      RunStepShape(s, m, e);
      assert Step(s, e) == RunStep(s, m, e);
    } else if IsCloseEvent(e) {
      CloseStepShape(s, m, e);
      assert Step(s, e) == CloseStep(s, m, e);
    } else if e.Receive? {
      ReceiveBindsOnce(s, m, e.device, e.request, e.saved);
    } else {
      CallStepShape(s, m, e);
      assert Step(s, e) == CallStep(s, m, e);
    }
  }

  lemma ReceiveBindsOnce(s: Scene, m: Memory, d: Device, r: ServingRequest, saves: bool)
    ensures ReceiveStep(s, m, d, r, saves).memory.Some?
    ensures var v, w := m.visit, ReceiveStep(s, m, d, r, saves).memory.value.visit;
            && (forall x | x in v.sessions :: x in w.sessions && w.sessions[x] == v.sessions[x])
            && (forall x | x in w.sessions && x !in v.sessions :: x == d && x in v.commandIds)
  {
    RequestBindsOnce(m.visit, d, r, saves);
  }

  lemma RequestSessions(v: Visit, d: Device, r: ServingRequest, saves: bool)
    ensures var w := Request(v, d, r, saves).visit;
            || w.sessions == v.sessions
            || (w.sessions == v.sessions[d := r.conversationId]
                && (d in v.sessions ==> v.sessions[d] == r.conversationId) && (d !in v.sessions ==> d in v.commandIds))
  {}

  lemma RequestBindsOnce(v: Visit, d: Device, r: ServingRequest, saves: bool)
    ensures var w := Request(v, d, r, saves).visit;
            && (forall x | x in v.sessions :: x in w.sessions && w.sessions[x] == v.sessions[x])
            && (forall x | x in w.sessions && x !in v.sessions :: x == d && x in v.commandIds)
  {
    RequestSessions(v, d, r, saves);
  }

  /** Within a process nothing recorded is taken back: commands, confirmed ends and the
      producers' revocation only grow. */
  lemma RecordsOnlyGrow(s: Scene, e: Event)
    requires s.memory.Some? && Ordinary(e)
    ensures Step(s, e).memory.Some? && After(s.memory.value.visit, Step(s, e).memory.value.visit)
  {
    var m := s.memory.value;
    if IsRunEvent(e) {
      RunStepShape(s, m, e);
      assert Step(s, e) == RunStep(s, m, e);
    } else if IsCloseEvent(e) {
      CloseStepShape(s, m, e);
      assert Step(s, e) == CloseStep(s, m, e);
    } else {
      CallStepShape(s, m, e);
      assert Step(s, e) == CallStep(s, m, e);
    }
  }

  predicate OneProcess(es: seq<Event>) { forall e | e in es :: Ordinary(e) }

  /** Over any run of one process: nothing recorded is taken back and no conversation replaced. */
  lemma {:induction false} RunsOnlyAddRecords(s: Scene, es: seq<Event>)
    requires s.memory.Some? && OneProcess(es)
    ensures Run(s, es).memory.Some?
    ensures var v, w := s.memory.value.visit, Run(s, es).memory.value.visit;
            && v.commandIds.Keys <= w.commandIds.Keys && v.endedDevices <= w.endedDevices
            && (v.producersRevoked ==> w.producersRevoked)
            && forall d | d in v.sessions :: d in w.sessions && w.sessions[d] == v.sessions[d]
    decreases es
  {
    if es != [] {
      RecordsOnlyGrow(s, es[0]);
      SessionsAreWriteOnce(s, es[0]);
      RunsOnlyAddRecords(Step(s, es[0]), es[1..]);
    }
  }

  // -- The close transaction ------------------------------------------------------------------

  function Asked(s: Scene): set<Device> {
    if s.memory.Some? && s.memory.value.close.Ending? then s.memory.value.close.inFlight else {}
  }

  lemma CloseStepAsks(s: Scene, m: Memory, e: Event)
    requires SceneInv(s) && s.memory == Some(m)
    ensures forall d | d in Asked(CloseStep(s, m, e)) && d !in Asked(s) :: d !in m.visit.endedDevices
    ensures CloseStep(s, m, e).memory.Some?
    ensures Asked(CloseStep(s, m, e)) != {} ==> CloseStep(s, m, e).memory.value.visit.producersRevoked
  {}

  /** A device is asked to end only after the producers confirmed their teardown, and never
      when its end is already on record, in memory or saved. */
  lemma EndsAreAskedAfterQuiesce(s: Scene, e: Event, d: Device)
    requires SceneInv(s) && s.memory.Some? && d in Asked(Step(s, e)) && d !in Asked(s)
    ensures Step(s, e).quiesced
    ensures d !in s.memory.value.visit.endedDevices
    ensures s.saved.Some? ==> d !in s.saved.value.endedDevices
  {
    var m := s.memory.value;
    StepKeepsInv(s, e);
    if IsRunEvent(e) { RunStepShape(s, m, e); }
    else if IsCloseEvent(e) { CloseStepAsks(s, m, e); }
    else if Ordinary(e) { CallStepShape(s, m, e); }
  }

  /** What a close attempt still has to obtain. */
  function Outstanding(c: Checkpoint): nat {
    (if c.producersRevoked then 0 else 1) + |c.sessions.Keys + c.commandIds.Keys - c.endedDevices|
  }

  lemma OutstandingShrinks(c: Checkpoint, d: Checkpoint)
    requires Later(c, d) && c.sessions.Keys <= c.commandIds.Keys == d.commandIds.Keys
    requires d.sessions.Keys <= d.commandIds.Keys
    ensures Outstanding(d) <= Outstanding(c)
  {
    assert c.sessions.Keys + c.commandIds.Keys == c.commandIds.Keys;
    assert d.sessions.Keys + d.commandIds.Keys == d.commandIds.Keys;
    SubsetOfSameSize(d.commandIds.Keys - d.endedDevices, c.commandIds.Keys - c.endedDevices);
  }

  lemma FinishedKeepsCommands(s: Scene, e: Event)
    requires s.memory.Some? && s.memory.value.run == Finished && Ordinary(e)
    ensures Step(s, e).memory.Some? && Step(s, e).memory.value.run == Finished
    ensures Step(s, e).memory.value.visit.commandIds == s.memory.value.visit.commandIds
  {
    var m := s.memory.value;
    if IsRunEvent(e) {
      RunStepShape(s, m, e);
      assert Step(s, e) == RunStep(s, m, e);
    } else if IsCloseEvent(e) {
      CloseStepShape(s, m, e);
      assert Step(s, e) == CloseStep(s, m, e);
    } else {
      CallStepShape(s, m, e);
      assert Step(s, e) == CallStep(s, m, e);
    }
  }

  /** Once the scene's task is over, no step of any close attempt, retry or late callback makes
      more outstanding. */
  lemma ClosingNeverRegresses(s: Scene, e: Event)
    requires SceneInv(s) && s.memory.Some? && s.memory.value.run == Finished && Ordinary(e)
    ensures Step(s, e).memory.Some?
    ensures Outstanding(LifecycleCheckpoint(Step(s, e).memory.value.visit))
         <= Outstanding(LifecycleCheckpoint(s.memory.value.visit))
  {
    RecordsOnlyGrow(s, e);
    FinishedKeepsCommands(s, e);
    StepKeepsInv(s, e);
    OutstandingShrinks(LifecycleCheckpoint(s.memory.value.visit), LifecycleCheckpoint(Step(s, e).memory.value.visit));
  }

  /** Nor does any run of steps, however many attempts it holds. */
  lemma {:induction false} RetriesNeverRegress(s: Scene, es: seq<Event>)
    requires SceneInv(s) && s.memory.Some? && s.memory.value.run == Finished && OneProcess(es)
    ensures Run(s, es).memory.Some? && Run(s, es).memory.value.run == Finished
    ensures Outstanding(LifecycleCheckpoint(Run(s, es).memory.value.visit))
         <= Outstanding(LifecycleCheckpoint(s.memory.value.visit))
    decreases es
  {
    if es != [] {
      StepKeepsInv(s, es[0]);
      FinishedKeepsCommands(s, es[0]);
      ClosingNeverRegresses(s, es[0]);
      RetriesNeverRegress(Step(s, es[0]), es[1..]);
    }
  }

  /** Recovery resumes with exactly what the saved row left outstanding. */
  lemma RecoveryResumesWhereSaved(s: Scene, rewrites: bool)
    requires SceneInv(s) && s.memory.None? && Step(s, Restart(rewrites)).memory.Some?
    ensures Outstanding(LifecycleCheckpoint(Step(s, Restart(rewrites)).memory.value.visit))
        == Outstanding(s.saved.value)
  {}

  /** The steps of an attempt in which every adapter call and checkpoint succeeds. */
  function Confirmations(pending: seq<Device>): seq<Event> {
    seq(|pending|, i requires 0 <= i < |pending| => EndConfirmed(pending[i], true))
  }

  function QuietPrefix(v: Visit): seq<Event> {
    if v.producersRevoked then [CleanupBegin] else [CleanupBegin, QuiesceDone(true, CheckpointNotCommitted, true)]
  }

  function SmoothAttempt(v: Visit, pending: seq<Device>): seq<Event> {
    QuietPrefix(v) + Confirmations(pending) + [CleanupDone(true)]
  }

  lemma ConfirmationStep(s: Scene, m: Memory, d: Device)
    requires s.memory == Some(m) && InFlight(m, d) && !m.close.failed
    ensures Step(s, EndConfirmed(d, true)).memory
         == Some(m.(visit := m.visit.(endedDevices := m.visit.endedDevices + {d}),
                    close := Ending(m.close.inFlight - {d}, false)))
  {}

  lemma ConfirmationsSplit(pending: seq<Device>)
    requires pending != []
    requires forall i, j | 0 <= i < j < |pending| :: pending[i] != pending[j]
    ensures Confirmations(pending) == [EndConfirmed(pending[0], true)] + Confirmations(pending[1..])
    ensures Members(pending) == {pending[0]} + Members(pending[1..])
    ensures Members(pending) - {pending[0]} == Members(pending[1..])
  {}

  lemma {:induction false} ConfirmationsDrain(s: Scene, m: Memory, pending: seq<Device>)
    requires s.memory == Some(m) && m.close == Ending(Members(pending), false)
    requires forall i, j | 0 <= i < j < |pending| :: pending[i] != pending[j]
    ensures Run(s, Confirmations(pending)).memory
         == Some(m.(visit := m.visit.(endedDevices := m.visit.endedDevices + Members(pending)),
                    close := Ending({}, false)))
    decreases |pending|
  {
    var ended := m.visit.endedDevices;
    if pending == [] {
      assert Confirmations(pending) == [] && Members(pending) == {};
      assert ended + {} == ended;
    } else {
      var d, rest := pending[0], pending[1..];
      var t := Step(s, EndConfirmed(d, true));
      ConfirmationsSplit(pending);
      ConfirmationStep(s, m, d);
      ConfirmationsDrain(t, t.memory.value, rest);
      RunConcat(s, [EndConfirmed(d, true)], Confirmations(rest));
      RunOne(s, EndConfirmed(d, true));
      assert ended + {d} + Members(rest) == ended + Members(pending);
    }
  }

  /** Beginning an attempt, and quiescing the producers if that is still to do. */
  lemma AttemptReachesEnding(s: Scene)
    requires s.memory.Some? && s.memory.value.run == Finished && s.memory.value.close == Idle
    ensures var v := s.memory.value.visit;
            var quiet := if v.producersRevoked then Step(s, CleanupBegin)
                         else Step(Step(s, CleanupBegin), QuiesceDone(true, CheckpointNotCommitted, true));
            && quiet.memory.Some?
            && quiet.memory.value.visit == v.(producersRevoked := true)
            && quiet.memory.value.close == Ending(PendingEnds(v), false)
  {
    var v := s.memory.value.visit;
    assert PendingEnds(v.(producersRevoked := true)) == PendingEnds(v);
  }

  lemma DrainedAttemptCompletes(s: Scene)
    requires s.memory.Some? && s.memory.value.close == Ending({}, false)
    ensures var r := Step(s, CleanupDone(true));
            && r.memory.Some? && r.saved == Some(LifecycleCheckpoint(r.memory.value.visit))
            && var v, w := s.memory.value.visit, r.memory.value.visit;
               && w.cleanupComplete && w.state == Closed && PendingEnds(w) == PendingEnds(v)
               && w.error == w.primaryError == v.primaryError && w.cleanupError == []
  {}

  lemma QuietRun(s: Scene)
    requires s.memory.Some? && s.memory.value.run == Finished && s.memory.value.close == Idle
    ensures var v := s.memory.value.visit;
            var quiet := Run(s, QuietPrefix(v));
            && quiet.memory.Some?
            && quiet.memory.value.visit == v.(producersRevoked := true)
            && quiet.memory.value.close == Ending(PendingEnds(v), false)
  {
    var quiesce := QuiesceDone(true, CheckpointNotCommitted, true);
    if s.memory.value.visit.producersRevoked { RunOne(s, CleanupBegin); } else { RunTwo(s, CleanupBegin, quiesce); }
    AttemptReachesEnding(s);
  }

  /** From any reachable point with the task over and no attempt under way, an attempt whose
      calls all succeed completes: closed, saved, nothing outstanding, the initiating failure
      kept as the outcome and the cleanup error cleared. */
  lemma SmoothAttemptCompletes(s: Scene, pending: seq<Device>)
    requires SceneInv(s) && s.memory.Some? && s.memory.value.run == Finished && s.memory.value.close == Idle
    requires Members(pending) == PendingEnds(s.memory.value.visit)
    requires forall i, j | 0 <= i < j < |pending| :: pending[i] != pending[j]
    ensures var r := Run(s, SmoothAttempt(s.memory.value.visit, pending));
            && r.memory.Some? && r.saved == Some(LifecycleCheckpoint(r.memory.value.visit))
            && var w := r.memory.value.visit;
               && w.cleanupComplete && w.state == Closed && PendingEnds(w) == {}
               && w.error == w.primaryError == s.memory.value.visit.primaryError && w.cleanupError == []
  {
    var v := s.memory.value.visit;
    var quiet := Run(s, QuietPrefix(v));
    QuietRun(s);
    ConfirmationsDrain(quiet, quiet.memory.value, pending);
    var drained := Run(quiet, Confirmations(pending));
    DrainedAttemptCompletes(drained);
    SmoothAttemptRun(s, v, pending);
  }

  lemma SmoothAttemptRun(s: Scene, v: Visit, pending: seq<Device>)
    ensures Run(s, SmoothAttempt(v, pending))
         == Step(Run(Run(s, QuietPrefix(v)), Confirmations(pending)), CleanupDone(true))
  {
    var quiet := Run(s, QuietPrefix(v));
    RunConcat(s, QuietPrefix(v), Confirmations(pending) + [CleanupDone(true)]);
    RunConcat(quiet, Confirmations(pending), [CleanupDone(true)]);
    RunOne(Run(quiet, Confirmations(pending)), CleanupDone(true));
    assert SmoothAttempt(v, pending) == QuietPrefix(v) + (Confirmations(pending) + [CleanupDone(true)]);
  }

  lemma RunOne(s: Scene, e: Event)
    ensures Run(s, [e]) == Step(s, e)
  {
    assert Run(Step(s, e), []) == Step(s, e);
  }

  // -- Round trip -------------------------------------------------------------------------

  /** Restoring a reachable visit's own checkpoint is accepted iff its conversation ids are all
      non-empty, and gives the visit back with its state normalised: closed exactly when
      cleanup is complete, otherwise closing. */
  lemma CheckpointRoundTrip(v: Visit)
    requires VisitInv(v)
    ensures var r := Restore(v.devices, LifecycleCheckpoint(v));
            && (r.Some? <==> NonEmpty(v.sessions))
            && (r.Some? ==>
                  && r.value == v.(state := r.value.state, prepared := false, stopped := false)
                  && r.value.state == (if v.cleanupComplete then Closed else Closing)
                  && LifecycleCheckpoint(r.value) == LifecycleCheckpoint(v).(state := r.value.state)
                  && VisitInv(r.value))
  {
    RestorableIff(v.devices, LifecycleCheckpoint(v));
  }

  // -- The first cause -----------------------------------------------------------------------

  /** A ready visit has no cause; elsewhere a recorded cause comes with a stop already signalled. */
  ghost predicate CauseInv(m: Memory) {
    && (m.visit.primaryError != [] && (Accepting(m.visit) || Awaiting(m.run)) ==> m.visit.stopped)
    && (m.visit.state == Ready ==> m.visit.primaryError == [] && !Awaiting(m.run))
  }

  ghost predicate CauseKept(m: Memory, n: Memory) {
    m.visit.primaryError != [] ==> n.visit.primaryError == m.visit.primaryError
  }

  ghost predicate CauseSafe(m: Memory, t: Scene) {
    t.memory.Some? && CauseInv(t.memory.value) && CauseKept(m, t.memory.value)
  }

  lemma RunStepKeepsCause(s: Scene, m: Memory, e: Event)
    requires s.memory == Some(m) && CauseInv(m) && IsRunEvent(e)
    ensures CauseSafe(m, RunStep(s, m, e))
  {
    if e.Wake? { WakeKeepsCause(s, m, e.ids, e.saves, e.cause); }
    else if e.Activate? { ActivateKeepsCause(s, m, e.cause); }
    else if e.ReceiptsDone? { ReceiptsKeepCause(s, m, e.saved, e.cause); }
    else if e.Unwind? { UnwindKeepsCause(s, m); }
  }

  lemma ActivateKeepsCause(s: Scene, m: Memory, cause: Cause)
    requires s.memory == Some(m) && CauseInv(m)
    ensures CauseSafe(m, ActivateStep(s, m, cause))
  {}

  lemma ReceiptsKeepCause(s: Scene, m: Memory, saves: bool, cause: Cause)
    requires s.memory == Some(m) && CauseInv(m)
    ensures CauseSafe(m, ReceiptsStep(s, m, saves, cause))
  {}

  lemma UnwindKeepsCause(s: Scene, m: Memory)
    requires s.memory == Some(m) && CauseInv(m)
    ensures CauseSafe(m, UnwindStep(s, m))
  {}

  lemma WakeKeepsCause(s: Scene, m: Memory, ids: seq<CommandId>, saves: nat, cause: Cause)
    requires s.memory == Some(m) && CauseInv(m)
    ensures WakeStep(s, m, ids, saves, cause).memory.Some?
    ensures var n := WakeStep(s, m, ids, saves, cause).memory.value; CauseInv(n) && CauseKept(m, n)
  {
    if m.run == Validating && |ids| == |m.visit.devices| { RecordRelabels(m.visit, ids, saves, cause); }
  }

  lemma CleanupErrorKeepsCause(m: Memory, v: Visit, reason: Cause)
    requires CauseInv(m) && m.run == Finished && v.primaryError == m.visit.primaryError
    ensures var n := m.(visit := RecordCleanupError(v, reason), close := Idle); CauseInv(n) && CauseKept(m, n)
  {}

  lemma QuiesceKeepsCause(s: Scene, m: Memory, saves: bool, cause: Cause, savesError: bool)
    requires s.memory == Some(m) && CauseInv(m) && (m.close != Idle ==> m.run == Finished)
    ensures CauseSafe(m, QuiesceStep(s, m, saves, cause, savesError))
  {
    if m.close == Quiescing && !saves { CleanupErrorKeepsCause(m, m.visit.(producersRevoked := true), cause); }
  }

  lemma FailCleanupKeepsCause(s: Scene, m: Memory, cause: Cause, saves: bool)
    requires s.memory == Some(m) && CauseInv(m) && (m.close != Idle ==> m.run == Finished)
    ensures CauseSafe(m, FailCleanup(s, m, cause, saves))
  {
    if m.close != Idle { CleanupErrorKeepsCause(m, m.visit, cause); }
  }

  lemma CompleteKeepsCause(s: Scene, m: Memory, saves: bool)
    requires s.memory == Some(m) && CauseInv(m) && (m.close != Idle ==> m.run == Finished)
    ensures CauseSafe(m, CompleteCleanup(s, m, saves))
  {}

  lemma CloseStepKeepsCause(s: Scene, m: Memory, e: Event)
    requires s.memory == Some(m) && CauseInv(m) && (m.close != Idle ==> m.run == Finished)
    ensures CauseSafe(m, CloseStep(s, m, e))
  {
    if e.QuiesceDone? { QuiesceKeepsCause(s, m, e.saved, e.cause, e.savedError); }
    else if e.CleanupFails? { FailCleanupKeepsCause(s, m, e.cause, e.saved); }
    else if e.CleanupDone? { CompleteKeepsCause(s, m, e.saved); }
  }

  lemma ReceiveKeepsCause(s: Scene, m: Memory, d: Device, r: ServingRequest, saves: bool)
    requires s.memory == Some(m) && CauseInv(m)
    ensures ReceiveStep(s, m, d, r, saves).memory.Some?
    ensures var n := ReceiveStep(s, m, d, r, saves).memory.value; CauseInv(n) && CauseKept(m, n)
  {}

  lemma CallStepKeepsCause(s: Scene, m: Memory, e: Event)
    requires s.memory == Some(m) && CauseInv(m) && Ordinary(e) && !IsRunEvent(e) && !IsCloseEvent(e)
    ensures CauseSafe(m, Step(s, e))
  {
    if e.Receive? { ReceiveKeepsCause(s, m, e.device, e.request, e.saved); }
  }

  lemma ClosingMeansFinished(s: Scene)
    requires SceneInv(s) && s.memory.Some?
    ensures s.memory.value.close != Idle ==> s.memory.value.run == Finished
  {}

  lemma StepKeepsCause(s: Scene, m: Memory, e: Event)
    requires s.memory == Some(m) && CauseInv(m) && Ordinary(e) && (m.close != Idle ==> m.run == Finished)
    ensures CauseSafe(m, Step(s, e))
  {
    if IsRunEvent(e) {
      RunStepKeepsCause(s, m, e);
      assert Step(s, e) == RunStep(s, m, e);
    } else if IsCloseEvent(e) {
      CloseStepKeepsCause(s, m, e);
      assert Step(s, e) == CloseStep(s, m, e);
    } else {
      CallStepKeepsCause(s, m, e);
    }
  }

  // -- What a written row carries ----------------------------------------------------------------

  /** The row a step writes has its cause and its conversations from before or after the step. */
  ghost predicate RowBetween(s: Scene, m: Memory, t: Scene) {
    t.memory.Some? && (t.saved == s.saved || (t.saved.Some? && Between(m.visit, t.saved.value, t.memory.value.visit)))
  }

  ghost predicate Between(v: Visit, c: Checkpoint, w: Visit) {
    && (c.primaryError == v.primaryError || c.primaryError == w.primaryError)
    && (c.sessions == v.sessions || c.sessions == w.sessions)
  }

  lemma WakeRow(s: Scene, m: Memory, ids: seq<CommandId>, saves: nat, cause: Cause)
    requires s.memory == Some(m)
    ensures RowBetween(s, m, WakeStep(s, m, ids, saves, cause))
  {
    if m.run == Validating && |ids| == |m.visit.devices| {
      if saves >= |ids| { CommandedRelabels(m.visit, ids, |ids|); } else { CommandedRelabels(m.visit, ids, saves); }
    }
  }

  lemma RunStepRow(s: Scene, m: Memory, e: Event)
    requires s.memory == Some(m)
    ensures RowBetween(s, m, RunStep(s, m, e))
  {
    if e.Wake? { WakeRow(s, m, e.ids, e.saves, e.cause); }
  }

  lemma CloseStepRow(s: Scene, m: Memory, e: Event)
    requires s.memory == Some(m)
    ensures RowBetween(s, m, CloseStep(s, m, e))
  {}

  lemma CallStepRow(s: Scene, m: Memory, e: Event)
    requires s.memory == Some(m)
    ensures RowBetween(s, m, CallStep(s, m, e))
  {}

  lemma StepRow(s: Scene, e: Event)
    requires s.memory.Some? && Ordinary(e)
    ensures RowBetween(s, s.memory.value, Step(s, e))
  {
    var m := s.memory.value;
    if IsRunEvent(e) {
      RunStepRow(s, m, e);
      assert Step(s, e) == RunStep(s, m, e);
    } else if IsCloseEvent(e) {
      CloseStepRow(s, m, e);
      assert Step(s, e) == CloseStep(s, m, e);
    } else {
      CallStepRow(s, m, e);
      assert Step(s, e) == CallStep(s, m, e);
    }
  }

  lemma GoneStays(s: Scene, e: Event)
    requires s.memory.None? && Ordinary(e)
    ensures Step(s, e) == s
  {}

  /** A process step leaves the row alone or writes it back as it restored it. */
  lemma ProcessStepRow(s: Scene, e: Event)
    requires e.Crash? || e.Restart?
    ensures var t := Step(s, e);
            && (t.saved == s.saved
                || (s.saved.Some? && t.saved.Some? && t.saved.value.primaryError == s.saved.value.primaryError
                    && t.saved.value.sessions == s.saved.value.sessions))
            && (t.memory.Some? ==>
                  || t == s
                  || (s.memory.None? && s.saved.Some? && CauseInv(t.memory.value)
                      && t.memory.value.visit.primaryError == s.saved.value.primaryError
                      && t.memory.value.visit.sessions == s.saved.value.sessions))
  {}

  // -- The first cause, over runs --------------------------------------------------------------------

  ghost predicate CauseKnown(s: Scene) { s.memory.Some? ==> CauseInv(s.memory.value) }

  lemma StepKeepsCauseKnown(s: Scene, e: Event)
    requires SceneInv(s) && CauseKnown(s)
    ensures CauseKnown(Step(s, e))
  {
    if !Ordinary(e) { ProcessStepRow(s, e); }
    else if s.memory.None? { GoneStays(s, e); }
    else {
      ClosingMeansFinished(s);
      StepKeepsCause(s, s.memory.value, e);
    }
  }

  lemma {:induction false} RunKeepsCauseKnown(s: Scene, es: seq<Event>)
    requires SceneInv(s) && CauseKnown(s)
    ensures SceneInv(Run(s, es)) && CauseKnown(Run(s, es))
    decreases es
  {
    if es != [] {
      StepKeepsInv(s, es[0]);
      StepKeepsCauseKnown(s, es[0]);
      RunKeepsCauseKnown(Step(s, es[0]), es[1..]);
    }
  }

  lemma ReachedKnowsCause(devices: Selection, saves: bool, es: seq<Event>)
    ensures SceneInv(Run(Opening(devices, saves), es)) && CauseKnown(Run(Opening(devices, saves), es))
  {
    OpeningKeepsInv(devices, saves);
    RunKeepsCauseKnown(Opening(devices, saves), es);
  }

  /** Wherever a run has got to, crashes and restarts included, every step of the process keeps
      the first recorded cause; and a visit that reads as ready has none, so the read that finds
      its endpoints gone records one and never replaces one. */
  lemma FirstCauseIsKept(devices: Selection, saves: bool, es: seq<Event>, e: Event)
    requires Run(Opening(devices, saves), es).memory.Some? && Ordinary(e)
    ensures var s := Run(Opening(devices, saves), es);
            && Step(s, e).memory.Some? && CauseKept(s.memory.value, Step(s, e).memory.value)
            && (s.memory.value.visit.state == Ready ==> s.memory.value.visit.primaryError == [])
  {
    var s := Run(Opening(devices, saves), es);
    ReachedKnowsCause(devices, saves, es);
    ClosingMeansFinished(s);
    StepKeepsCause(s, s.memory.value, e);
  }

  function SavedCause(s: Scene): ErrorText { if s.saved.Some? then s.saved.value.primaryError else [] }

  /** A saved cause is the one in memory. */
  ghost predicate CauseAgrees(s: Scene) {
    && CauseKnown(s)
    && (s.memory.Some? && SavedCause(s) != [] ==> s.memory.value.visit.primaryError == SavedCause(s))
  }

  lemma WrittenRowAgrees(s: Scene, m: Memory, t: Scene)
    requires s.memory == Some(m) && CauseAgrees(s) && RowBetween(s, m, t) && CauseSafe(m, t)
    ensures CauseAgrees(t) && (SavedCause(s) != [] ==> SavedCause(t) == SavedCause(s))
  {}

  lemma StepKeepsSavedCause(s: Scene, e: Event)
    requires SceneInv(s) && CauseAgrees(s)
    ensures CauseAgrees(Step(s, e)) && (SavedCause(s) != [] ==> SavedCause(Step(s, e)) == SavedCause(s))
  {
    if !Ordinary(e) { ProcessStepRow(s, e); }
    else if s.memory.None? { GoneStays(s, e); }
    else {
      StepRow(s, e);
      ClosingMeansFinished(s);
      StepKeepsCause(s, s.memory.value, e);
      WrittenRowAgrees(s, s.memory.value, Step(s, e));
    }
  }

  lemma {:induction false} RunKeepsSavedCause(s: Scene, es: seq<Event>)
    requires SceneInv(s) && CauseAgrees(s)
    ensures SceneInv(Run(s, es)) && CauseAgrees(Run(s, es))
    ensures SavedCause(s) != [] ==> SavedCause(Run(s, es)) == SavedCause(s)
    decreases es
  {
    if es != [] {
      StepKeepsInv(s, es[0]);
      StepKeepsSavedCause(s, es[0]);
      RunKeepsSavedCause(Step(s, es[0]), es[1..]);
    }
  }

  /** Until the process dies the cause stays in memory, and the next row written carries it. */
  lemma {:induction false} ProcessKeepsCause(s: Scene, es: seq<Event>)
    requires SceneInv(s) && CauseKnown(s) && s.memory.Some? && s.memory.value.visit.primaryError != []
    requires OneProcess(es)
    ensures var t := Run(s, es);
            && t.memory.Some? && t.memory.value.visit.primaryError == s.memory.value.visit.primaryError
            && (t.saved == s.saved || SavedCause(t) == s.memory.value.visit.primaryError)
    decreases es
  {
    if es != [] {
      StepKeepsInv(s, es[0]);
      StepKeepsCauseKnown(s, es[0]);
      StepRow(s, es[0]);
      ClosingMeansFinished(s);
      StepKeepsCause(s, s.memory.value, es[0]);
      ProcessKeepsCause(Step(s, es[0]), es[1..]);
    }
  }

  /** From opening, through any callbacks, status reads, failures, retries, failed checkpoints,
      crashes and restarts: a cause that was saved stays, saved and in memory; one that is only in
      memory stays for as long as the process lives. */
  lemma FirstCauseSurvives(devices: Selection, saves: bool, es: seq<Event>, more: seq<Event>)
    ensures var s := Run(Opening(devices, saves), es);
            var t := Run(s, more);
            && (SavedCause(s) != [] ==>
                  && SavedCause(t) == SavedCause(s)
                  && (t.memory.Some? ==> t.memory.value.visit.primaryError == SavedCause(s)))
            && (s.memory.Some? && s.memory.value.visit.primaryError != [] && OneProcess(more) ==>
                  t.memory.Some? && t.memory.value.visit.primaryError == s.memory.value.visit.primaryError)
  {
    var s := Run(Opening(devices, saves), es);
    OpeningKeepsInv(devices, saves);
    RunKeepsSavedCause(Opening(devices, saves), es);
    RunKeepsSavedCause(s, more);
    if s.memory.Some? && s.memory.value.visit.primaryError != [] && OneProcess(more) { ProcessKeepsCause(s, more); }
  }

  /** A crash and a restart keep a recorded cause exactly if the row holds one by then; otherwise
      the visit comes back without any, and no row has been written since the cause appeared. */
  lemma CauseSurvivesCrashIff(devices: Selection, saves: bool, es: seq<Event>, more: seq<Event>, rewrites: bool)
    requires var s := Run(Opening(devices, saves), es); s.memory.Some? && s.memory.value.visit.primaryError != []
    requires OneProcess(more)
    ensures var s := Run(Opening(devices, saves), es);
            var t := Run(s, more);
            var r := Run(t, [Crash, Restart(rewrites)]);
            r.memory.Some? ==>
              && (r.memory.value.visit.primaryError == s.memory.value.visit.primaryError <==> SavedCause(t) != [])
              && (SavedCause(t) == [] ==> r.memory.value.visit.primaryError == [] && t.saved == s.saved)
  {
    var s := Run(Opening(devices, saves), es);
    var t := Run(s, more);
    OpeningKeepsInv(devices, saves);
    RunKeepsSavedCause(Opening(devices, saves), es);
    ProcessKeepsCause(s, more);
    RunTwo(t, Crash, Restart(rewrites));
    ProcessStepRow(Step(t, Crash), Restart(rewrites));
  }

  // -- Scenes that wake everybody ------------------------------------------------------------------

  lemma {:induction false} CommandedAt(v: Visit, ids: seq<CommandId>, m: nat, i: nat)
    requires i < m <= |v.devices| == |ids|
    ensures v.devices[i] in Commanded(v, ids, m).commandIds && Commanded(v, ids, m).commandIds[v.devices[i]] == ids[i]
    decreases m
  {
    if i < m - 1 {
      CommandedAt(v, ids, m - 1, i);
      assert v.devices[i] != v.devices[m - 1];
    }
  }

  /** A selection whose join commands have all been recorded. */
  ghost predicate Joined(v: Visit, devices: Selection, ids: seq<CommandId>) {
    && |ids| == |devices| && v == NewVisit(devices).(commandIds := v.commandIds)
    && v.commandIds.Keys == Members(devices)
    && forall i | 0 <= i < |devices| :: v.commandIds[devices[i]] == ids[i]
  }

  lemma CommandedIsJoined(devices: Selection, ids: seq<CommandId>)
    requires |ids| == |devices|
    ensures Joined(Commanded(NewVisit(devices), ids, |ids|), devices, ids)
  {
    var v := Commanded(NewVisit(devices), ids, |ids|);
    assert devices[..|ids|] == devices;
    assert v.commandIds.Keys == {} + Members(devices) == Members(devices);
    forall i | 0 <= i < |devices| ensures devices[i] in v.commandIds && v.commandIds[devices[i]] == ids[i] {
      CommandedAt(NewVisit(devices), ids, |ids|, i);
    }
  }

  lemma AllRecorded(s: Scene, m: Memory, ids: seq<CommandId>, cause: Cause)
    requires s.memory == Some(m) && m.run == Validating && |ids| == |m.visit.devices|
    ensures var v := Commanded(m.visit, ids, |ids|);
            Step(s, Wake(ids, |ids|, cause))
            == Put(s, m.(visit := v, run := Waiting, wakes := Members(m.visit.devices)), Some(LifecycleCheckpoint(v)))
  {
    assert Step(s, Wake(ids, |ids|, cause)) == WakeStep(s, m, ids, |ids|, cause);
  }

  lemma EverybodyWakes(devices: Selection, ids: seq<CommandId>, cause: Cause) returns (v: Visit)
    requires |ids| == |devices|
    ensures Joined(v, devices, ids)
    ensures var t := Step(Opening(devices, true), Wake(ids, |ids|, cause));
            && t.memory == Some(Memory(v, Waiting, Idle, Members(devices))) && t.saved == Some(LifecycleCheckpoint(v))
            && t.devices == devices && t.woken == {} && t.confirmed == {} && t.activations == []
  {
    v := Commanded(NewVisit(devices), ids, |ids|);
    CommandedIsJoined(devices, ids);
    AllRecorded(Opening(devices, true), Memory(NewVisit(devices), Validating, Idle, {}), ids, cause);
  }

  function AnswerOf(devices: seq<Device>, ids: seq<CommandId>, conversations: seq<string>, i: nat): Event
    requires i < |devices| == |ids| == |conversations|
  {
    Receive(devices[i], ServingRequest(Start, conversations[i], Some(ids[i])), true)
  }

  /** The first n devices answering their own join commands, in order. */
  function Answers(devices: seq<Device>, ids: seq<CommandId>, conversations: seq<string>, n: nat): seq<Event>
    requires n <= |devices| == |ids| == |conversations|
  {
    if n == 0 then []
    else Answers(devices, ids, conversations, n - 1) + [AnswerOf(devices, ids, conversations, n - 1)]
  }

  /** The first n devices, each with its own conversation. */
  function Bindings(devices: seq<Device>, conversations: seq<string>, n: nat): map<Device, string>
    requires n <= |devices| == |conversations|
  {
    if n == 0 then map[] else Bindings(devices, conversations, n - 1)[devices[n - 1] := conversations[n - 1]]
  }

  lemma {:induction false} BindingsAt(devices: Selection, conversations: seq<string>, n: nat)
    requires n <= |devices| == |conversations|
    ensures |Bindings(devices, conversations, n)| == n
    ensures forall i | n <= i < |devices| :: devices[i] !in Bindings(devices, conversations, n)
    decreases n
  {
    if n > 0 { BindingsAt(devices, conversations, n - 1); }
  }

  lemma {:induction false} BindingIs(devices: Selection, conversations: seq<string>, n: nat, i: nat)
    requires i < n <= |devices| == |conversations|
    ensures var b := Bindings(devices, conversations, n); devices[i] in b && b[devices[i]] == conversations[i]
    decreases n
  {
    if i < n - 1 {
      BindingIs(devices, conversations, n - 1, i);
      assert devices[i] != devices[n - 1];
    }
  }

  lemma AnswerBinds(s: Scene, m: Memory, d: Device, id: CommandId, conversation: string)
    requires s.memory == Some(m) && m.visit.state == Preparing && d in m.visit.devices && d !in m.visit.sessions
    requires Lookup(m.visit.commandIds, d) == Some(id)
    ensures var bound := m.visit.sessions[d := conversation];
            Step(s, Receive(d, ServingRequest(Start, conversation, Some(id)), true)).memory
            == Some(m.(visit := m.visit.(sessions := bound,
                                         prepared := m.visit.prepared || |bound| == |m.visit.devices|)))
  {
    var r := ServingRequest(Start, conversation, Some(id));
    assert Belongs(m.visit, d, r) && Lookup(m.visit.sessions, d) == None;
    assert Step(s, Receive(d, r, true)) == ReceiveStep(s, m, d, r, true);
  }

  lemma StepKeepsActivations(s: Scene, e: Event)
    requires e.Receive?
    ensures Step(s, e).activations == s.activations
  {}

  /** The visit once the first n devices have answered. */
  function Answered(v: Visit, conversations: seq<string>, n: nat): Visit
    requires n <= |v.devices| == |conversations|
  {
    v.(sessions := Bindings(v.devices, conversations, n), prepared := n == |v.devices|)
  }

  lemma AnswersNext(s: Scene, v: Visit, ids: seq<CommandId>, conversations: seq<string>, n: nat)
    requires Joined(v, v.devices, ids) && n < |ids| == |conversations|
    requires s.memory == Some(Memory(Answered(v, conversations, n), Waiting, Idle, Members(v.devices)))
    ensures Step(s, AnswerOf(v.devices, ids, conversations, n)).memory
         == Some(Memory(Answered(v, conversations, n + 1), Waiting, Idle, Members(v.devices)))
    ensures Step(s, AnswerOf(v.devices, ids, conversations, n)).activations == s.activations
  {
    BindingsAt(v.devices, conversations, n);
    BindingsAt(v.devices, conversations, n + 1);
    AnswerBinds(s, s.memory.value, v.devices[n], ids[n], conversations[n]);
    StepKeepsActivations(s, AnswerOf(v.devices, ids, conversations, n));
  }

  lemma {:induction false} AnswersBind(s: Scene, v: Visit, ids: seq<CommandId>, conversations: seq<string>, n: nat)
    requires Joined(v, v.devices, ids) && n <= |ids| == |conversations| && s.activations == []
    requires s.memory == Some(Memory(v, Waiting, Idle, Members(v.devices)))
    ensures var t := Run(s, Answers(v.devices, ids, conversations, n));
            && t.activations == []
            && t.memory == Some(Memory(Answered(v, conversations, n), Waiting, Idle, Members(v.devices)))
    decreases n
  {
    if n > 0 {
      var answers := Answers(v.devices, ids, conversations, n - 1);
      var e := AnswerOf(v.devices, ids, conversations, n - 1);
      AnswersBind(s, v, ids, conversations, n - 1);
      AnswersNext(Run(s, answers), v, ids, conversations, n - 1);
      RunConcat(s, answers, [e]);
      RunOne(Run(s, answers), e);
    }
  }

  /** A preparation in which every command is recorded, every device answers and every call
      succeeds. */
  function SmoothPreparation(devices: Selection, ids: seq<CommandId>, conversations: seq<string>, cause: Cause)
    : seq<Event>
    requires |devices| == |ids| == |conversations|
  {
    [Wake(ids, |ids|, cause)] + Answers(devices, ids, conversations, |ids|)
    + [Activate(cause), ActivationDone] + [ReceiptsDone(true, cause)]
  }

  lemma PreparedServes(s: Scene, cause: Cause)
    requires s.memory.Some? && s.memory.value.run == Waiting && s.activations == []
    requires s.memory.value.visit.prepared && !s.memory.value.visit.stopped
    ensures var m := s.memory.value;
            var t := Step(Run(s, [Activate(cause), ActivationDone]), ReceiptsDone(true, cause));
            && t.memory == Some(m.(visit := m.visit.(state := Ready), run := Serving))
            && t.saved == Some(LifecycleCheckpoint(t.memory.value.visit)) && t.activations == [m.visit.sessions]
  {
    RunTwo(s, Activate(cause), ActivationDone);
  }

  /** For every selection such a preparation ends serving: ready, saved so, and activated once
      with exactly the conversation each device answered. */
  lemma SmoothPreparationServes(devices: Selection, ids: seq<CommandId>, conversations: seq<string>, cause: Cause)
    requires |devices| == |ids| == |conversations|
    ensures var s := Run(Opening(devices, true), SmoothPreparation(devices, ids, conversations, cause));
            && s.memory.Some? && s.memory.value.run == Serving
            && var v := s.memory.value.visit;
               && v.state == Ready && !v.stopped && v.primaryError == [] && s.saved == Some(LifecycleCheckpoint(v))
               && s.activations == [v.sessions]
               && forall i | 0 <= i < |devices| ::
                    devices[i] in v.sessions && v.sessions[devices[i]] == conversations[i]
  {
    forall i | 0 <= i < |devices|
      ensures var b := Bindings(devices, conversations, |devices|); devices[i] in b && b[devices[i]] == conversations[i]
    {
      BindingIs(devices, conversations, |devices|, i);
    }
    var o, wake := Opening(devices, true), Wake(ids, |ids|, cause);
    var answers := Answers(devices, ids, conversations, |ids|);
    var v := EverybodyWakes(devices, ids, cause);
    var woken := Step(o, wake);
    RunOne(o, wake);
    AnswersBind(woken, v, ids, conversations, |ids|);
    RunConcat(o, [wake], answers);
    var bound := Run(woken, answers);
    PreparedServes(bound, cause);
    RunConcat(o, [wake] + answers, [Activate(cause), ActivationDone]);
    RunConcat(o, [wake] + answers + [Activate(cause), ActivationDone], [ReceiptsDone(true, cause)]);
    RunOne(Run(bound, [Activate(cause), ActivationDone]), ReceiptsDone(true, cause));
  }

  /** The cause lost to a crash, for every selection: the task fails while it waits, and the
      process dies before its close has written anything. The visit comes back without a cause,
      and a close that succeeds then ends it without an error. */
  lemma CauseLostToCrash(devices: Selection, ids: seq<CommandId>, cause: Cause, rewrites: bool)
    requires |ids| == |devices|
    ensures var failed := Run(Opening(devices, true), [Wake(ids, |ids|, cause), RunFails(cause)]);
            var r := Run(failed, [Crash, Restart(rewrites)]);
            && failed.memory.Some? && failed.memory.value.visit.primaryError == [cause]
            && r.memory.Some? && r.memory.value.visit.primaryError == []
            && var closed := Run(r, SmoothAttempt(r.memory.value.visit, devices));
               closed.memory.Some? && closed.memory.value.visit.state == Closed && closed.memory.value.visit.error == []
  {
    var o, es := Opening(devices, true), [Wake(ids, |ids|, cause), RunFails(cause)];
    var v := WokenFails(devices, ids, cause);
    var failed := Run(o, es);
    RunTwo(failed, Crash, Restart(rewrites));
    FailedComesBack(failed, v, ids, rewrites);
    OpeningKeepsInv(devices, true);
    RunKeepsInv(o, es);
    RunKeepsInv(failed, [Crash, Restart(rewrites)]);
    RecoveredCloses(Run(failed, [Crash, Restart(rewrites)]), devices);
  }

  lemma WokenFails(devices: Selection, ids: seq<CommandId>, cause: Cause) returns (v: Visit)
    requires |ids| == |devices|
    ensures Joined(v, devices, ids)
    ensures var failed := Run(Opening(devices, true), [Wake(ids, |ids|, cause), RunFails(cause)]);
            && failed.memory.Some? && failed.memory.value.visit.primaryError == [cause] && failed.devices == devices
            && failed.saved == Some(LifecycleCheckpoint(v))
  {
    v := EverybodyWakes(devices, ids, cause);
    RunTwo(Opening(devices, true), Wake(ids, |ids|, cause), RunFails(cause));
    FirstFailure(Step(Opening(devices, true), Wake(ids, |ids|, cause)), v, cause);
  }

  lemma FirstFailure(s: Scene, v: Visit, cause: Cause)
    requires s.memory == Some(Memory(v, Waiting, Idle, Members(v.devices))) && v.primaryError == []
    ensures var t := Step(s, RunFails(cause));
            && t.memory.Some? && t.memory.value.visit.primaryError == [cause]
            && t.devices == s.devices && t.saved == s.saved
  {}

  lemma RecoveredCloses(r: Scene, devices: Selection)
    requires SceneInv(r) && r.memory.Some? && r.memory.value.run == Finished && r.memory.value.close == Idle
    requires PendingEnds(r.memory.value.visit) == Members(devices) && r.memory.value.visit.primaryError == []
    ensures var closed := Run(r, SmoothAttempt(r.memory.value.visit, devices));
            closed.memory.Some? && closed.memory.value.visit.state == Closed && closed.memory.value.visit.error == []
  {
    SmoothAttemptCompletes(r, devices);
  }

  lemma FailedComesBack(s: Scene, v: Visit, ids: seq<CommandId>, rewrites: bool)
    requires Joined(v, s.devices, ids) && s.saved == Some(LifecycleCheckpoint(v))
    ensures var r := Step(Step(s, Crash), Restart(rewrites));
            && r.memory.Some? && r.memory.value.run == Finished && r.memory.value.close == Idle
            && r.memory.value.visit.primaryError == [] && PendingEnds(r.memory.value.visit) == Members(s.devices)
  {
    CommandsAreNonEmpty(v, s.devices, ids);
    assert v.sessions.Keys + v.commandIds.Keys - {} == Members(s.devices);
  }

  lemma CommandsAreNonEmpty(v: Visit, devices: Selection, ids: seq<CommandId>)
    requires Joined(v, devices, ids)
    ensures NonEmpty(v.commandIds)
  {
    forall d | d in v.commandIds ensures v.commandIds[d] != "" {
      assert d in Members(devices);
      var i :| 0 <= i < |devices| && devices[i] == d;
    }
  }

  /** A status read that finds a serving visit's endpoints gone ends its task exactly if the read
      could save that; otherwise the visit says it is closing while its task serves on, and no
      later read does anything about it. */
  lemma LostReadStopsIff(s: Scene, saves: bool, again: bool)
    requires s.memory.Some? && s.memory.value.run == Serving
    requires s.memory.value.visit.state == Ready && !s.memory.value.visit.stopped
    ensures var t := Step(s, StatusLost(saves));
            && t.memory.Some? && t.memory.value.run == Serving && t.memory.value.visit.state == Closing
            && Step(t, StatusLost(again)) == t
            && Step(t, StopSeen).memory.Some?
            && (Step(t, StopSeen).memory.value.run == Unwinding <==> saves)
  {
    var t := Step(s, StatusLost(saves));
    assert t.memory.value.visit.stopped == saves;
  }

  // -- Rows that cannot be read back ---------------------------------------------------------------

  /** No device answers its join command with an empty conversation id. */
  predicate IdsGiven(es: seq<Event>) { forall e | e in es && e.Receive? :: e.request.conversationId != "" }

  ghost predicate IdsKept(s: Scene) {
    (s.memory.Some? ==> NonEmpty(s.memory.value.visit.sessions)) && (s.saved.Some? ==> NonEmpty(s.saved.value.sessions))
  }

  lemma BindsAnswered(v: Visit, d: Device, r: ServingRequest, saves: bool)
    ensures var w := Request(v, d, r, saves).visit;
            w.sessions == v.sessions || w.sessions == v.sessions[d := r.conversationId]
  {}

  lemma BetweenKeepsIds(v: Visit, c: Checkpoint, w: Visit)
    requires NonEmpty(v.sessions) && NonEmpty(w.sessions) && Between(v, c, w)
    ensures NonEmpty(c.sessions)
  {}

  lemma SessionsKeepIds(s: Scene, m: Memory, e: Event)
    requires s.memory == Some(m) && Ordinary(e) && NonEmpty(m.visit.sessions)
    requires e.Receive? ==> e.request.conversationId != ""
    ensures Step(s, e).memory.Some? && NonEmpty(Step(s, e).memory.value.visit.sessions)
  {
    if IsRunEvent(e) {
      RunStepShape(s, m, e);
      assert Step(s, e) == RunStep(s, m, e);
    } else if IsCloseEvent(e) {
      CloseStepShape(s, m, e);
      assert Step(s, e) == CloseStep(s, m, e);
    } else {
      CallStepShape(s, m, e);
      assert Step(s, e) == CallStep(s, m, e);
      if e.Receive? { ReceiveKeepsIds(s, m, e.device, e.request, e.saved); }
    }
  }

  lemma ReceiveKeepsIds(s: Scene, m: Memory, d: Device, r: ServingRequest, saves: bool)
    requires s.memory == Some(m) && NonEmpty(m.visit.sessions) && r.conversationId != ""
    ensures ReceiveStep(s, m, d, r, saves).memory.Some?
    ensures NonEmpty(ReceiveStep(s, m, d, r, saves).memory.value.visit.sessions)
  {
    BindsAnswered(m.visit, d, r, saves);
  }

  lemma StepKeepsIds(s: Scene, e: Event)
    requires IdsKept(s) && (e.Receive? ==> e.request.conversationId != "")
    ensures IdsKept(Step(s, e))
  {
    if !Ordinary(e) { ProcessStepRow(s, e); }
    else if s.memory.None? { GoneStays(s, e); }
    else {
      StepRow(s, e);
      var t := Step(s, e);
      SessionsKeepIds(s, s.memory.value, e);
      if t.saved != s.saved { BetweenKeepsIds(s.memory.value.visit, t.saved.value, t.memory.value.visit); }
    }
  }

  lemma {:induction false} RunKeepsIds(s: Scene, es: seq<Event>)
    requires IdsKept(s) && IdsGiven(es)
    ensures IdsKept(Run(s, es))
    decreases es
  {
    if es != [] {
      StepKeepsIds(s, es[0]);
      RunKeepsIds(Step(s, es[0]), es[1..]);
    }
  }

  /** Over every run in which no device answers with an empty conversation id, a crash and a
      restart bring the visit back exactly if it was ever saved. */
  lemma GivenIdsAreRecovered(devices: Selection, saves: bool, es: seq<Event>, rewrites: bool)
    requires IdsGiven(es)
    ensures var s := Run(Opening(devices, saves), es);
            Run(Opening(devices, saves), es + [Crash, Restart(rewrites)]).memory.Some? <==> s.saved.Some?
  {
    RunKeepsIds(Opening(devices, saves), es);
    RecoveryCoversEveryWokenDevice(devices, saves, es, rewrites);
  }

  /** For every selection and every device of it: an empty conversation id is accepted and saved,
      and that row is refused at the restart; the woken device is then ended by nobody. */
  lemma EmptyIdIsNotRecovered(devices: Selection, ids: seq<CommandId>, i: nat, cause: Cause, rewrites: bool)
    requires |ids| == |devices| && i < |devices|
    ensures var es := [Wake(ids, |ids|, cause), Deliver(devices[i]),
                       Receive(devices[i], ServingRequest(Start, "", Some(ids[i])), true)];
            var s := Run(Opening(devices, true), es);
            && s.memory.Some? && s.memory.value.visit.sessions == map[devices[i] := ""]
            && s.woken == {devices[i]} && s.confirmed == {}
            && Run(Opening(devices, true), es + [Crash, Restart(rewrites)]).memory.None?
  {
    var wake, answer := Wake(ids, |ids|, cause), Receive(devices[i], ServingRequest(Start, "", Some(ids[i])), true);
    var o, es := Opening(devices, true), [wake, Deliver(devices[i]), answer];
    var v := EverybodyWakes(devices, ids, cause);
    RunTwo(o, wake, Deliver(devices[i]));
    RunConcat(o, [wake, Deliver(devices[i])], [answer]);
    assert [wake, Deliver(devices[i])] + [answer] == es;
    RunOne(Run(o, [wake, Deliver(devices[i])]), answer);
    assert {} + {devices[i]} == {devices[i]};
    AnsweredEmpty(Run(o, [wake, Deliver(devices[i])]), v, ids, i);
    RecoveryCoversEveryWokenDevice(devices, true, es, rewrites);
  }

  lemma AnsweredEmpty(s: Scene, v: Visit, ids: seq<CommandId>, i: nat)
    requires Joined(v, v.devices, ids) && i < |ids|
    requires s.memory == Some(Memory(v, Waiting, Idle, Members(v.devices)))
    ensures var t := Step(s, Receive(v.devices[i], ServingRequest(Start, "", Some(ids[i])), true));
            && t.memory.Some? && t.memory.value.visit.sessions == map[v.devices[i] := ""]
            && t.woken == s.woken && t.confirmed == s.confirmed
            && t.saved.Some? && !NonEmpty(t.saved.value.sessions)
  {
    var d := v.devices[i];
    var r := ServingRequest(Start, "", Some(ids[i]));
    assert Belongs(v, d, r) && Lookup(v.sessions, d) == None;
    assert v.sessions[d := ""] == map[d := ""];
    assert Step(s, Receive(d, r, true)) == ReceiveStep(s, s.memory.value, d, r, true);
    assert (map[d := ""])[d] == "";
  }
}
