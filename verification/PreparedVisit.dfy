/** class EndpointPreparation of endpoint_preparation.py: fields updated in place, each method
    proved against the functions on a visit's fields, and the close transaction against a run
    of the scene protocol. */
module PreparedVisit {
  import opened Contracts
  import opened EndpointPreparation
  import opened SceneProtocol
  import opened SceneTheorems

  /** What the adapter and the checkpoint callback do during one close attempt. */
  datatype Outcomes = Outcomes(
    quiesces: bool,
    quiesceSaved: bool,
    confirms: set<Device>,
    endsSaved: set<Device>,
    cause: Cause,
    errorSaved: bool,
    closureSaved: bool)

  function EndEvent(o: Outcomes, d: Device): Event {
    if d in o.confirms then EndConfirmed(d, d in o.endsSaved) else EndFailed(d)
  }

  /** One end per pending endpoint among the first n, in selection order. */
  function EndEvents(v: Visit, o: Outcomes, n: nat): seq<Event> requires n <= |v.devices| {
    if n == 0 then []
    else EndEvents(v, o, n - 1) + (if v.devices[n - 1] in PendingEnds(v) then [EndEvent(o, v.devices[n - 1])] else [])
  }

  predicate AllEnd(v: Visit, o: Outcomes) { forall d | d in PendingEnds(v) :: d in o.confirms && d in o.endsSaved }

  function Conclusion(v: Visit, o: Outcomes): Event {
    if AllEnd(v, o) then CleanupDone(o.closureSaved) else CleanupFails(o.cause, o.errorSaved)
  }

  /** Beginning an attempt, and quiescing the producers if that is still to do. */
  function Quieting(v: Visit, o: Outcomes): seq<Event> {
    if v.producersRevoked then [CleanupBegin] else [CleanupBegin, QuiesceDone(o.quiesceSaved, o.cause, o.errorSaved)]
  }

  /** The steps of one close attempt. */
  function AttemptEvents(v: Visit, o: Outcomes): seq<Event> {
    if v.producersRevoked || (o.quiesces && o.quiesceSaved) then
      Quieting(v, o) + EndEvents(v, o, |v.devices|) + [Conclusion(v, o)]
    else if o.quiesces then Quieting(v, o)
    else [CleanupBegin, CleanupFails(o.cause, o.errorSaved)]
  }

  /** A scene whose task is over, with this visit in memory and this row saved. */
  function AtRest(v: Visit, saved: Option<Checkpoint>): Scene {
    Scene(v.devices, Some(Memory(v, Finished, Idle, {})), saved, {}, false, {}, [])
  }

  lemma EndReturns(s: Scene, m: Memory, o: Outcomes, d: Device)
    requires s.memory == Some(m) && InFlight(m, d)
    ensures var r := Step(s, EndEvent(o, d));
            var ended := if d in o.confirms then m.visit.endedDevices + {d} else m.visit.endedDevices;
            var v := m.visit.(endedDevices := ended);
            var failed := m.close.failed || !(d in o.confirms && d in o.endsSaved);
            && r.memory == Some(m.(visit := v, close := Ending(m.close.inFlight - {d}, failed)))
            && r.saved == if d in o.confirms && d in o.endsSaved then Some(LifecycleCheckpoint(v)) else s.saved
  {
    assert m.visit.(endedDevices := m.visit.endedDevices) == m.visit;
  }

  datatype Ends = Ends(visit: Visit, saved: Option<Checkpoint>, failed: bool)

  /** One endpoint's end: confirmed or not, and recorded or not. */
  function AfterEnd(e: Ends, o: Outcomes, d: Device): Ends {
    if d !in o.confirms then e.(failed := true)
    else
      var v := e.visit.(endedDevices := e.visit.endedDevices + {d});
      if d in o.endsSaved then Ends(v, Some(LifecycleCheckpoint(v)), e.failed) else Ends(v, e.saved, true)
  }

  /** The ends of the first n endpoints that were pending in v. */
  function AfterEnds(v: Visit, saved: Option<Checkpoint>, o: Outcomes, n: nat): Ends requires n <= |v.devices| {
    if n == 0 then Ends(v, saved, false)
    else
      var e := AfterEnds(v, saved, o, n - 1);
      if v.devices[n - 1] in PendingEnds(v) then AfterEnd(e, o, v.devices[n - 1]) else e
  }

  /** The attempt up to the ends: failed if the producers' teardown is not confirmed and saved. */
  function AfterQuiesce(v: Visit, saved: Option<Checkpoint>, o: Outcomes): Ends {
    if v.producersRevoked then Ends(v, saved, false)
    else
      var w := if o.quiesces then ProducersGone(v, o.quiesceSaved, o.cause, o.errorSaved)
               else CleanupInterrupted(v, o.cause, o.errorSaved);
      Ends(w.visit, Stored(saved, w.saved), !w.ok)
  }

  /** The attempt once the ends are back. */
  function Concluded(e: Ends, o: Outcomes): Ends {
    var w := if e.failed then CleanupInterrupted(e.visit, o.cause, o.errorSaved)
             else FinishCleanup(e.visit, o.closureSaved);
    Ends(w.visit, Stored(e.saved, w.saved), !w.ok)
  }

  function CloseAttempt(v: Visit, saved: Option<Checkpoint>, o: Outcomes): Ends {
    var q := AfterQuiesce(v, saved, o);
    if q.failed then q else Concluded(AfterEnds(q.visit, q.saved, o, |q.visit.devices|), o)
  }

  lemma {:induction false} EndsOnlyEnd(v: Visit, saved: Option<Checkpoint>, o: Outcomes, n: nat)
    requires n <= |v.devices|
    ensures var w := AfterEnds(v, saved, o, n).visit; w == v.(endedDevices := w.endedDevices)
  {
    if n > 0 {
      EndsOnlyEnd(v, saved, o, n - 1);
      OneEndOnlyEnds(AfterEnds(v, saved, o, n - 1), o, v.devices[n - 1]);
    }
  }

  lemma OneEndOnlyEnds(e: Ends, o: Outcomes, d: Device)
    ensures AfterEnd(e, o, d).visit == e.visit.(endedDevices := AfterEnd(e, o, d).visit.endedDevices)
  {}

  lemma {:induction false} EndsSoFar(v: Visit, saved: Option<Checkpoint>, o: Outcomes, n: nat)
    requires n <= |v.devices|
    ensures AfterEnds(v, saved, o, n).visit.endedDevices
         == v.endedDevices + PendingEnds(v) * Members(v.devices[..n]) * o.confirms
  {
    if n == 0 {
      assert v.endedDevices + PendingEnds(v) * Members(v.devices[..0]) * o.confirms == v.endedDevices;
    } else {
      EndsSoFar(v, saved, o, n - 1);
      NextMember(v.devices, n - 1);
      EndsUnion(PendingEnds(v), Members(v.devices[..n - 1]), v.devices[n - 1], o.confirms, v.endedDevices);
    }
  }

  lemma {:induction false} FailuresSoFar(v: Visit, saved: Option<Checkpoint>, o: Outcomes, n: nat)
    requires n <= |v.devices|
    ensures AfterEnds(v, saved, o, n).failed
         == !(forall d | d in PendingEnds(v) && d in v.devices[..n] :: d in o.confirms && d in o.endsSaved)
  {
    if n > 0 {
      FailuresSoFar(v, saved, o, n - 1);
      assert v.devices[..n] == v.devices[..n - 1] + [v.devices[n - 1]];
    }
  }

  lemma NextMember(devices: Selection, n: nat)
    requires n < |devices|
    ensures Members(devices[..n + 1]) == Members(devices[..n]) + {devices[n]} && devices[n] !in Members(devices[..n])
  {
    assert devices[..n + 1] == devices[..n] + [devices[n]];
  }

  lemma EndsUnion(pending: set<Device>, done: set<Device>, d: Device, confirms: set<Device>, ended: set<Device>)
    ensures ended + pending * (done + {d}) * confirms
         == ended + pending * done * confirms + (if d in pending && d in confirms then {d} else {})
  {}

  /** An endpoint is pending now iff it was when the ends were asked for. */
  lemma StillPending(v: Visit, saved: Option<Checkpoint>, o: Outcomes, n: nat)
    requires n < |v.devices|
    ensures v.devices[n] in PendingEnds(AfterEnds(v, saved, o, n).visit) <==> v.devices[n] in PendingEnds(v)
  {
    EndsOnlyEnd(v, saved, o, n);
    EndsSoFar(v, saved, o, n);
    NextMember(v.devices, n);
  }

  /** All ends are back: what was confirmed is on record, and it failed unless all was. */
  lemma AllEndsBack(v: Visit, saved: Option<Checkpoint>, o: Outcomes)
    requires Attempted(v) <= Members(v.devices)
    ensures var e := AfterEnds(v, saved, o, |v.devices|);
            && e.visit == v.(endedDevices := v.endedDevices + PendingEnds(v) * o.confirms)
            && e.failed == !AllEnd(v, o)
  {
    EndsOnlyEnd(v, saved, o, |v.devices|);
    EndsSoFar(v, saved, o, |v.devices|);
    FailuresSoFar(v, saved, o, |v.devices|);
    assert v.devices[..|v.devices|] == v.devices;
    assert PendingEnds(v) * Members(v.devices) == PendingEnds(v);
  }

  /** The ends as steps of the scene protocol. */
  lemma {:induction false} EndsAreSteps(start: Scene, v: Visit, o: Outcomes, n: nat)
    requires n <= |v.devices| && start.memory == Some(Memory(v, Finished, Ending(PendingEnds(v), false), {}))
    ensures var r, e := Run(start, EndEvents(v, o, n)), AfterEnds(v, start.saved, o, n);
            && r.saved == e.saved
            && r.memory
               == Some(Memory(e.visit, Finished, Ending(PendingEnds(v) - Members(v.devices[..n]), e.failed), {}))
  {
    if n == 0 {
      assert PendingEnds(v) - Members(v.devices[..0]) == PendingEnds(v);
    } else {
      var d := v.devices[n - 1];
      EndsAreSteps(start, v, o, n - 1);
      NextMember(v.devices, n - 1);
      var before := Run(start, EndEvents(v, o, n - 1));
      var left := PendingEnds(v) - Members(v.devices[..n - 1]);
      assert PendingEnds(v) - Members(v.devices[..n]) == left - {d};
      if d in PendingEnds(v) {
        EndReturns(before, before.memory.value, o, d);
        RunConcat(start, EndEvents(v, o, n - 1), [EndEvent(o, d)]);
        RunOne(before, EndEvent(o, d));
      } else {
        assert left - {d} == left;
        assert EndEvents(v, o, n) == EndEvents(v, o, n - 1);
      }
    }
  }

  lemma RecordingAll(v: Visit, ids: seq<CommandId>, saves: nat, cause: Cause)
    requires |v.devices| == |ids| && saves >= |ids|
    ensures RecordCommands(v, ids, saves, cause)
         == Written(Commanded(v, ids, |ids|), Some(LifecycleCheckpoint(Commanded(v, ids, |ids|))), true)
  {}

  lemma RecordingSome(v: Visit, ids: seq<CommandId>, saves: nat, cause: Cause)
    requires |v.devices| == |ids| && saves < |ids|
    ensures RecordCommands(v, ids, saves, cause)
         == Written(RunFailed(Commanded(v, ids, saves + 1), cause),
                    if saves == 0 then None else Some(LifecycleCheckpoint(Commanded(v, ids, saves))), false)
  {}

  lemma CommandedStaysInside(v: Visit, ids: seq<CommandId>, n: nat)
    requires n <= |v.devices| == |ids| && Attempted(v) <= Members(v.devices)
    ensures Attempted(Commanded(v, ids, n)) <= Members(v.devices)
  {
    assert Members(v.devices[..n]) <= Members(v.devices);
  }

  datatype Joins = Joins(visit: Visit, saved: Option<Checkpoint>)

  function AfterJoin(j: Joins, d: Device, id: CommandId, saves: bool): Joins {
    var v := j.visit.(commandIds := j.visit.commandIds[d := id]);
    Joins(v, if saves then Some(LifecycleCheckpoint(v)) else j.saved)
  }

  function AfterJoins(v: Visit, saved: Option<Checkpoint>, ids: seq<CommandId>, saves: nat, n: nat): Joins
    requires n <= |v.devices| == |ids|
  {
    if n == 0 then Joins(v, saved)
    else AfterJoin(AfterJoins(v, saved, ids, saves, n - 1), v.devices[n - 1], ids[n - 1], n - 1 < saves)
  }

  lemma QuietAttempt(s: Scene, v: Visit, o: Outcomes)
    requires s == AtRest(v, s.saved) && (v.producersRevoked || (o.quiesces && o.quiesceSaved))
    ensures var q, r := AfterQuiesce(v, s.saved, o), Run(s, Quieting(v, o));
            && !q.failed && r.saved == q.saved && PendingEnds(q.visit) == PendingEnds(v)
            && r.memory == Some(Memory(q.visit, Finished, Ending(PendingEnds(q.visit), false), {}))
  {
    if v.producersRevoked { RunOne(s, CleanupBegin); }
    else { RunTwo(s, CleanupBegin, QuiesceDone(true, o.cause, o.errorSaved)); }
  }

  lemma UnquietAttempt(s: Scene, v: Visit, o: Outcomes)
    requires s == AtRest(v, s.saved) && !v.producersRevoked && !(o.quiesces && o.quiesceSaved)
    ensures var q, r := AfterQuiesce(v, s.saved, o), Run(s, AttemptEvents(v, o));
            q.failed && r.saved == q.saved && r.memory == Some(Memory(q.visit, Finished, Idle, {}))
  {
    RunTwo(s, CleanupBegin,
           if o.quiesces then QuiesceDone(false, o.cause, o.errorSaved) else CleanupFails(o.cause, o.errorSaved));
  }

  lemma ConclusionStep(s: Scene, e: Ends, o: Outcomes)
    requires s.memory == Some(Memory(e.visit, Finished, Ending({}, e.failed), {})) && s.saved == e.saved
    ensures var c := Concluded(e, o);
            var r := Step(s, if e.failed then CleanupFails(o.cause, o.errorSaved) else CleanupDone(o.closureSaved));
            r.saved == c.saved && r.memory == Some(Memory(c.visit, Finished, Idle, {}))
  {}

  /** A close attempt is the run of the scene protocol that its outcomes make. */
  lemma CloseAttemptIsARun(v: Visit, saved: Option<Checkpoint>, o: Outcomes)
    requires Attempted(v) <= Members(v.devices)
    ensures var c, r := CloseAttempt(v, saved, o), Run(AtRest(v, saved), AttemptEvents(v, o));
            r.saved == c.saved && r.memory == Some(Memory(c.visit, Finished, Idle, {}))
  {
    var s, n := AtRest(v, saved), |v.devices|;
    if !v.producersRevoked && !(o.quiesces && o.quiesceSaved) {
      UnquietAttempt(s, v, o);
    } else {
      var q := AfterQuiesce(v, saved, o);
      var quiet := Run(s, Quieting(v, o));
      QuietAttempt(s, v, o);
      EndsAreSteps(quiet, q.visit, o, n);
      AllEndsBack(q.visit, q.saved, o);
      var e := AfterEnds(q.visit, q.saved, o, n);
      var back := Run(quiet, EndEvents(q.visit, o, n));
      assert q.visit.devices[..n] == q.visit.devices;
      assert PendingEnds(q.visit) - Members(q.visit.devices[..n]) == {};
      ConclusionStep(back, e, o);
      SameEnds(v, q.visit, o, n);
      RunThree(s, Quieting(v, o), EndEvents(v, o, n), Conclusion(v, o));
    }
  }

  lemma {:induction false} SameEnds(v: Visit, w: Visit, o: Outcomes, n: nat)
    requires w.devices == v.devices && PendingEnds(w) == PendingEnds(v) && n <= |v.devices|
    ensures EndEvents(w, o, n) == EndEvents(v, o, n)
  {
    if n > 0 { SameEnds(v, w, o, n - 1); }
  }

  lemma RunThree(s: Scene, es: seq<Event>, fs: seq<Event>, e: Event)
    ensures Run(s, es + fs + [e]) == Step(Run(Run(s, es), fs), e)
  {
    RunConcat(s, es + fs, [e]);
    RunConcat(s, es, fs);
    RunOne(Run(s, es + fs), e);
  }

  /** An attempt succeeds exactly when the producers are gone, every pending endpoint confirms
      and every checkpoint is written; then it is closed for good with the initiating failure as
      its outcome. A failed one stays incomplete, keeps every confirmation it got, and keeps the
      initiating failure. */
  lemma CloseAttemptOutcome(v: Visit, saved: Option<Checkpoint>, o: Outcomes)
    requires Attempted(v) <= Members(v.devices)
    ensures var c := CloseAttempt(v, saved, o);
            var quiet := v.producersRevoked || (o.quiesces && o.quiesceSaved);
            && (!c.failed <==> quiet && AllEnd(v, o) && o.closureSaved)
            && (!c.failed ==> c.saved == Some(LifecycleCheckpoint(c.visit))
                              && c.visit.cleanupComplete && c.visit.state == Closed
                              && c.visit.error == c.visit.primaryError == v.primaryError && c.visit.cleanupError == [])
            && (c.failed ==> c.visit.state == Failed && c.visit.cleanupFailed
                             && (!v.cleanupComplete ==> !c.visit.cleanupComplete))
            && c.visit.sessions == v.sessions && c.visit.commandIds == v.commandIds
            && c.visit.producersRevoked == (v.producersRevoked || o.quiesces)
            && c.visit.endedDevices == v.endedDevices + (if quiet then PendingEnds(v) * o.confirms else {})
            && (v.primaryError != [] ==> c.visit.primaryError == v.primaryError)
  {
    QuiesceOutcome(v, saved, o);
    var q := AfterQuiesce(v, saved, o);
    if !q.failed {
      AllEndsBack(q.visit, q.saved, o);
      ConclusionOutcome(AfterEnds(q.visit, q.saved, o, |v.devices|), o);
    }
  }

  lemma QuiesceOutcome(v: Visit, saved: Option<Checkpoint>, o: Outcomes)
    ensures var q := AfterQuiesce(v, saved, o);
            && (!q.failed <==> v.producersRevoked || (o.quiesces && o.quiesceSaved))
            && (!q.failed ==> q.visit == v.(producersRevoked := true) && PendingEnds(q.visit) == PendingEnds(v))
            && (q.failed ==> Interrupted(v.(producersRevoked := q.visit.producersRevoked), q.visit)
                             && q.visit.producersRevoked == (v.producersRevoked || o.quiesces))
  {
    if !v.producersRevoked {
      InterruptionOutcome(v.(producersRevoked := o.quiesces), o.cause);
      assert v.(producersRevoked := false) == v;
    }
  }

  /** What an interruption does: it fails the visit and keeps its records and initiating failure. */
  predicate Interrupted(v: Visit, w: Visit) {
    && w == v.(state := Failed, error := w.error, primaryError := w.primaryError, cleanupError := w.cleanupError,
               cleanupFailed := true)
    && (v.primaryError != [] ==> w.primaryError == v.primaryError)
  }

  lemma InterruptionOutcome(v: Visit, cause: Cause)
    ensures Interrupted(v, RecordCleanupError(v, cause))
  {}

  lemma ConclusionOutcome(e: Ends, o: Outcomes)
    ensures var c := Concluded(e, o);
            && (!c.failed <==> !e.failed && o.closureSaved)
            && (if c.failed then
                  Interrupted(e.visit.(cleanupComplete := c.visit.cleanupComplete), c.visit)
                  && (c.visit.cleanupComplete ==> e.visit.cleanupComplete)
                else
                  && c.saved == Some(LifecycleCheckpoint(c.visit))
                  && c.visit == e.visit.(state := Closed, error := e.visit.primaryError, cleanupError := [],
                                         cleanupFailed := false, cleanupComplete := true))
  {
    if e.failed {
      InterruptionOutcome(e.visit, o.cause);
    } else if !o.closureSaved {
      var v := e.visit;
      assert FinishCleanup(v, false).visit
          == RecordCleanupError(v.(state := Closed, error := v.primaryError, cleanupError := [], cleanupFailed := false,
                                   cleanupComplete := false), CheckpointNotCommitted);
    }
  }

  lemma {:induction false} JoinsAreCommands(v: Visit, saved: Option<Checkpoint>, ids: seq<CommandId>, saves: nat,
                                            n: nat)
    requires n <= |v.devices| == |ids| && n <= saves + 1
    ensures var j, last := AfterJoins(v, saved, ids, saves, n), if n <= saves then n else saves;
            && j.visit == Commanded(v, ids, n)
            && j.saved == if last == 0 then saved else Some(LifecycleCheckpoint(Commanded(v, ids, last)))
  {
    if n > 0 { JoinsAreCommands(v, saved, ids, saves, n - 1); }
  }

  lemma JoinsAreRecorded(v: Visit, saved: Option<Checkpoint>, ids: seq<CommandId>, saves: nat, cause: Cause)
    requires |v.devices| == |ids|
    ensures var w, all := RecordCommands(v, ids, saves, cause), saves >= |ids|;
            var j := AfterJoins(v, saved, ids, saves, if all then |ids| else saves + 1);
            && w.ok == all && Stored(saved, w.saved) == j.saved
            && w.visit == (if all then j.visit else RunFailed(j.visit, cause))
            && (Attempted(v) <= Members(v.devices) ==> Attempted(j.visit) <= Members(v.devices))
  {
    var n := if saves >= |ids| then |ids| else saves + 1;
    JoinsAreCommands(v, saved, ids, saves, n);
    if Attempted(v) <= Members(v.devices) { CommandedStaysInside(v, ids, n); }
    if saves >= |ids| { RecordingAll(v, ids, saves, cause); } else { RecordingSome(v, ids, saves, cause); }
  }

  function Bound(v: Visit, d: Device, conversation: string, saves: bool): Visit {
    var sessions := v.sessions[d := conversation];
    v.(sessions := sessions, prepared := v.prepared || (saves && |sessions| == |v.devices|))
  }

  lemma RequestBinds(v: Visit, d: Device, r: ServingRequest, saves: bool)
    requires Belongs(v, d, r) && r.action == Action.Start
    requires Lookup(v.sessions, d) == Some(r.conversationId) || (v.state == Preparing && d !in v.sessions)
    ensures var q := Request(v, d, r, saves);
            && q.visit == Bound(v, d, r.conversationId, saves)
            && q.answer == (if saves then Accepted else Answer.Refused(StorageFailed))
            && q.saved == (if saves then Some(LifecycleCheckpoint(Bound(v, d, r.conversationId, saves))) else None)
  {}

  lemma KeysAfter(m: map<Device, string>, d: Device, x: string)
    ensures m[d := x].Keys == m.Keys + {d}
  {}

  class Preparation {
    const devices: Selection
    var state: State
    var error: ErrorText
    var primaryError: ErrorText
    var cleanupError: ErrorText
    var commandIds: map<Device, string>
    var sessions: map<Device, string>
    var prepared: bool
    var stopped: bool
    var cleanupFailed: bool
    var cleanupComplete: bool
    var producersRevoked: bool
    var endedDevices: set<Device>
    /** The row the checkpoint callback writes. */
    var saved: Option<Checkpoint>

    function Snapshot(): Visit reads this {
      Visit(devices, state, error, primaryError, cleanupError, commandIds, sessions, prepared, stopped,
            cleanupFailed, cleanupComplete, producersRevoked, endedDevices)
    }

    /** Only selected endpoints are ever asked to join or bound to a conversation. */
    ghost predicate Valid() reads `sessions, `commandIds { sessions.Keys + commandIds.Keys <= Members(devices) }

    constructor (selected: Selection)
      ensures Valid() && Snapshot() == NewVisit(selected) && saved == None
    {
      devices := selected;
      state, error, primaryError, cleanupError := Preparing, [], [], [];
      commandIds, sessions, prepared, stopped := map[], map[], false, false;
      cleanupFailed, cleanupComplete, producersRevoked, endedDevices := false, false, false, {};
      saved := None;
    }

    /** The checkpoint callback. */
    method Save(saves: bool)
      modifies `saved
      ensures saved == if saves then Some(LifecycleCheckpoint(Snapshot())) else old(saved)
    {
      if saves {
        saved := Some(Checkpoint(state, error, primaryError, cleanupError, sessions, commandIds, producersRevoked,
                                 endedDevices, cleanupFailed, cleanupComplete));
      }
    }

    /** A request belongs to this visit by its own join command or an already bound conversation. */
    method Recognise(d: Device, r: ServingRequest) returns (ours: bool)
      ensures ours == Belongs(Snapshot(), d, r)
    {
      if d !in devices || (state != Preparing && state != Ready) { return false; }
      if r.controlRequestId.Some? {
        ours := r.controlRequestId == Lookup(commandIds, d);
      } else {
        ours := Lookup(sessions, d) == Some(r.conversationId);
      }
    }

    method Ask(d: Device, r: ServingRequest, saves: bool) returns (answer: Answer)
      requires Valid()
      modifies `sessions, `prepared, `stopped, `saved
      ensures Valid()
      ensures var q := Request(old(Snapshot()), d, r, saves);
              answer == q.answer && Snapshot() == q.visit && saved == Stored(old(saved), q.saved)
    {
      var ours := Recognise(d, r);
      if !ours { return Answer.Refused(InvalidTransition); }
      var previous := Lookup(sessions, d);
      if r.action == Action.Stop {
        if previous == Some(r.conversationId) { stopped := true; }
        return Accepted;
      }
      if previous != Some(r.conversationId) && (state != Preparing || previous.Some?) {
        return Answer.Refused(InvalidTransition);
      }
      RequestBinds(Snapshot(), d, r, saves);
      var ok := Bind(d, r.conversationId, saves);
      answer := if ok then Accepted else Answer.Refused(StorageFailed);
    }

    /** Bind a conversation; prepared once every endpoint has one and that is saved. */
    method Bind(d: Device, conversation: string, saves: bool) returns (ok: bool)
      requires Valid() && d in devices
      modifies `sessions, `prepared, `saved
      ensures Valid() && ok == saves
      ensures Snapshot() == Bound(old(Snapshot()), d, conversation, saves)
      ensures saved == if saves then Some(LifecycleCheckpoint(Snapshot())) else old(saved)
    {
      BindSession(d, conversation, saves);
      if saves && |sessions| == |devices| { prepared := true; }
      ok := saves;
    }

    method BindSession(d: Device, conversation: string, saves: bool)
      requires Valid() && d in devices
      modifies `sessions, `saved
      ensures Valid()
      ensures Snapshot() == old(Snapshot()).(sessions := old(sessions)[d := conversation])
      ensures saved == if saves then Some(LifecycleCheckpoint(Snapshot())) else old(saved)
    {
      KeysAfter(sessions, d, conversation);
      sessions := sessions[d := conversation];
      Save(saves);
    }

    method ObserveEnd(reason: Option<Cause>)
      modifies `state, `error, `primaryError, `stopped
      ensures Snapshot() == SessionEnded(old(Snapshot()), reason) && saved == old(saved)
    {
      if reason.Some? && (state == Preparing || state == Ready) && !stopped {
        primaryError, error, state := [reason.value], [reason.value], Failed;
      }
      stopped := true;
    }

    /** Record one join command per endpoint, each saved before the next; the first write that
        fails ends the run. */
    method RecordJoins(ids: seq<CommandId>, saves: nat, cause: Cause) returns (ok: bool)
      requires Valid() && |ids| == |devices|
      modifies `commandIds, `state, `error, `primaryError, `saved
      ensures Valid()
      ensures var w := RecordCommands(old(Snapshot()), ids, saves, cause);
              Snapshot() == w.visit && ok == w.ok && saved == Stored(old(saved), w.saved)
    {
      JoinsAreRecorded(Snapshot(), saved, ids, saves, cause);
      ok := RecordEach(ids, saves);
      if !ok { FailRun(cause); }
    }

    /** The join commands in order, up to and including the first that cannot be saved. */
    method RecordEach(ids: seq<CommandId>, saves: nat) returns (ok: bool)
      requires |ids| == |devices|
      modifies `commandIds, `saved
      ensures ok == (saves >= |devices|)
      ensures Joins(Snapshot(), saved)
           == AfterJoins(old(Snapshot()), old(saved), ids, saves, if ok then |devices| else saves + 1)
    {
      ghost var v := Snapshot();
      var i := 0;
      while i < |devices|
        invariant 0 <= i <= |devices| && i <= saves
        invariant Joins(Snapshot(), saved) == AfterJoins(v, old(saved), ids, saves, i)
      {
        RecordJoin(devices[i], ids[i], i < saves);
        if i >= saves { return false; }
        i := i + 1;
      }
      ok := true;
    }

    method RecordJoin(d: Device, id: CommandId, saves: bool)
      modifies `commandIds, `saved
      ensures Joins(Snapshot(), saved) == AfterJoin(Joins(old(Snapshot()), old(saved)), d, id, saves)
    {
      commandIds := commandIds[d := id];
      Save(saves);
    }

    /** A run that raises. */
    method FailRun(cause: Cause)
      modifies `state, `error, `primaryError
      ensures Snapshot() == RunFailed(old(Snapshot()), cause) && saved == old(saved)
    {
      state := Failed;
      if primaryError == [] { primaryError := [cause]; }
      error := primaryError;
    }

    method NoteCleanupError(reason: Cause)
      modifies `state, `error, `primaryError, `cleanupError, `cleanupFailed
      ensures Snapshot() == RecordCleanupError(old(Snapshot()), reason) && saved == old(saved)
    {
      if primaryError == [] && !cleanupFailed { primaryError := error; }
      cleanupError := [reason];
      error := primaryError + [reason];
      cleanupFailed := true;
      state := Failed;
    }

    method RestoreLifecycle(c: Checkpoint) returns (accepted: bool)
      requires Snapshot() == NewVisit(devices)
      modifies this
      ensures Valid() && saved == old(saved)
      ensures var r := Restore(devices, c);
              accepted == r.Some? && Snapshot() == if r.Some? then r.value else old(Snapshot())
    {
      if !Restorable(devices, c) { return false; }
      Install(c);
      accepted := true;
    }

    method Install(c: Checkpoint)
      modifies this
      ensures saved == old(saved)
      ensures Snapshot() == Visit(devices, if c.cleanupComplete then Closed else Closing, c.error, c.primaryError,
                                  c.cleanupError, c.commandIds, c.sessions, old(prepared), old(stopped),
                                  c.cleanupFailed,
                                  c.cleanupComplete, c.producersRevoked, c.endedDevices)
    {
      InstallRecords(c);
      error, primaryError, cleanupError := c.error, c.primaryError, c.cleanupError;
      cleanupFailed, cleanupComplete := c.cleanupFailed, c.cleanupComplete;
      state := if cleanupComplete then Closed else Closing;
    }

    method InstallRecords(c: Checkpoint)
      modifies `sessions, `commandIds, `producersRevoked, `endedDevices
      ensures sessions == c.sessions && commandIds == c.commandIds
      ensures producersRevoked == c.producersRevoked && endedDevices == c.endedDevices
    {
      sessions, commandIds := c.sessions, c.commandIds;
      producersRevoked, endedDevices := c.producersRevoked, c.endedDevices;
    }

    method EndOne(d: Device, o: Outcomes) returns (confirmed: bool)
      modifies `endedDevices, `saved
      ensures var e := AfterEnd(Ends(old(Snapshot()), old(saved), false), o, d);
              Snapshot() == e.visit && saved == e.saved && confirmed == !e.failed
    {
      if d !in o.confirms { return false; }
      endedDevices := endedDevices + {d};
      Save(d in o.endsSaved);
      confirmed := d in o.endsSaved;
    }

    /** The ends of one attempt, as they come back. */
    method EndPending(o: Outcomes) returns (failed: bool)
      modifies `endedDevices, `saved
      ensures var e := AfterEnds(old(Snapshot()), old(saved), o, |devices|);
              Snapshot() == e.visit && saved == e.saved && failed == e.failed
    {
      ghost var v := Snapshot();
      failed := false;
      var i := 0;
      while i < |devices|
        invariant 0 <= i <= |devices|
        invariant Ends(Snapshot(), saved, failed) == AfterEnds(v, old(saved), o, i)
      {
        StillPending(v, old(saved), o, i);
        var d := devices[i];
        if (d in sessions || d in commandIds) && d !in endedDevices {
          var confirmed := EndOne(d, o);
          failed := failed || !confirmed;
        }
        i := i + 1;
      }
    }

    /** The producers' teardown, if that is still to do. */
    method Quiesce(o: Outcomes) returns (quiet: bool)
      modifies `state, `error, `primaryError, `cleanupError, `cleanupFailed, `producersRevoked, `saved
      ensures Ends(Snapshot(), saved, !quiet) == AfterQuiesce(old(Snapshot()), old(saved), o)
    {
      if producersRevoked { return true; }
      if o.quiesces {
        producersRevoked := true;
        Save(o.quiesceSaved);
        if o.quiesceSaved { return true; }
      }
      Interrupt(o);
      quiet := false;
    }

    /** An attempt that raises before it is complete. */
    method Interrupt(o: Outcomes)
      modifies `state, `error, `primaryError, `cleanupError, `cleanupFailed, `saved
      ensures var w := CleanupInterrupted(old(Snapshot()), o.cause, o.errorSaved);
              Snapshot() == w.visit && saved == Stored(old(saved), w.saved)
    {
      NoteCleanupError(o.cause);
      Save(o.errorSaved);
    }

    /** Everything confirmed: closed, once that is durable. */
    method Finish(saves: bool) returns (ok: bool)
      modifies `state, `error, `primaryError, `cleanupError, `cleanupFailed, `cleanupComplete, `saved
      ensures var w := FinishCleanup(old(Snapshot()), saves);
              Snapshot() == w.visit && saved == Stored(old(saved), w.saved) && ok == w.ok
    {
      MarkClosed();
      Save(saves);
      if !saves {
        cleanupComplete := false;
        NoteCleanupError(CheckpointNotCommitted);
      }
      ok := saves;
    }

    method MarkClosed()
      modifies `state, `error, `cleanupError, `cleanupFailed, `cleanupComplete
      ensures Snapshot() == FinishCleanup(old(Snapshot()), true).visit
    {
      state, error, cleanupError, cleanupFailed, cleanupComplete := Closed, primaryError, [], false, true;
    }

    /** One attempt of the close transaction. */
    method Cleanup(o: Outcomes) returns (ok: bool)
      modifies `state, `error, `primaryError, `cleanupError, `cleanupFailed, `cleanupComplete, `producersRevoked,
               `endedDevices, `saved
      ensures Ends(Snapshot(), saved, !ok) == CloseAttempt(old(Snapshot()), old(saved), o)
    {
      var quiet := Quiesce(o);
      if !quiet { return false; }
      var failed := EndPending(o);
      if failed {
        Interrupt(o);
        return false;
      }
      ok := Finish(o.closureSaved);
    }
  }
}
