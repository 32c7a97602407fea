/** endpoint_preparation.py as functions on a visit's fields: one function per stretch of
    code between two awaits. A checkpoint write may fail; where it can, whether it
    succeeds is an argument and the row written last, if any, is part of the result. */
module EndpointPreparation {
  import opened Contracts

  type Device = string

  /** Why something failed: never an empty text. */
  datatype Cause = ReachabilityLost | CheckpointNotCommitted | Reported(text: string)

  /** An error text: the causes joined in it, none for the empty string. */
  type ErrorText = seq<Cause>

  type CommandId = s: string | s != "" witness "join"

  predicate DistinctEndpoints(devices: seq<Device>) {
    devices != [] && forall i, j | 0 <= i < j < |devices| :: devices[i] != devices[j]
  }

  /** Endpoints a preparation accepts: some, and all different. */
  type Selection = devices: seq<Device> | DistinctEndpoints(devices) witness ["device"]

  datatype State = Preparing | Ready | Failed | Closing | Closed

  datatype Action = Start | Stop

  datatype ServingRequest = ServingRequest(action: Action, conversationId: string, controlRequestId: Option<string>)

  datatype Visit = Visit(
    devices: Selection,
    state: State,
    error: ErrorText,
    primaryError: ErrorText,
    cleanupError: ErrorText,
    commandIds: map<Device, string>,
    sessions: map<Device, string>,
    prepared: bool,
    stopped: bool,
    cleanupFailed: bool,
    cleanupComplete: bool,
    producersRevoked: bool,
    endedDevices: set<Device>)

  /** The durable part of a visit. */
  datatype Checkpoint = Checkpoint(
    state: State,
    error: ErrorText,
    primaryError: ErrorText,
    cleanupError: ErrorText,
    sessions: map<Device, string>,
    commandIds: map<Device, string>,
    producersRevoked: bool,
    endedDevices: set<Device>,
    cleanupFailed: bool,
    cleanupComplete: bool)

  datatype Written = Written(visit: Visit, saved: Option<Checkpoint>, ok: bool)

  function Members(devices: seq<Device>): set<Device> { set d | d in devices }

  function NewVisit(devices: Selection): Visit {
    Visit(devices, Preparing, [], [], [], map[], map[], false, false, false, false, false, {})
  }

  function LifecycleCheckpoint(v: Visit): Checkpoint {
    Checkpoint(v.state, v.error, v.primaryError, v.cleanupError, v.sessions, v.commandIds,
               v.producersRevoked, v.endedDevices, v.cleanupFailed, v.cleanupComplete)
  }

  /** The checkpoint callback at the end of a stretch. */
  function Write(v: Visit, saves: bool): Written {
    Written(v, if saves then Some(LifecycleCheckpoint(v)) else None, saves)
  }

  /** Devices this visit may have woken or been answered by: what cleanup must end. */
  function Attempted(v: Visit): set<Device> { v.sessions.Keys + v.commandIds.Keys }

  function Lookup(m: map<Device, string>, d: Device): Option<string> {
    if d in m then Some(m[d]) else None
  }

  // -- Preparing -----------------------------------------------------------------

  predicate Accepting(v: Visit) { v.state == Preparing || v.state == Ready }

  /** A request belongs to this visit by its own join command, or by an already bound
      conversation. */
  predicate Belongs(v: Visit, d: Device, r: ServingRequest) {
    d in v.devices && Accepting(v)
    && (if r.controlRequestId.Some? then Lookup(v.commandIds, d) == r.controlRequestId
        else Lookup(v.sessions, d) == Some(r.conversationId))
  }

  datatype Answer = Refused(error: DomainError) | Accepted

  datatype Requested = Requested(answer: Answer, visit: Visit, saved: Option<Checkpoint>)

  function Request(v: Visit, d: Device, r: ServingRequest, saves: bool): Requested {
    var previous := Lookup(v.sessions, d);
    var same := previous == Some(r.conversationId);
    if !Belongs(v, d, r) then Requested(Refused(InvalidTransition), v, None)
    else if r.action == Stop then Requested(Accepted, v.(stopped := v.stopped || same), None)
    else if !same && (v.state != Preparing || previous.Some?) then Requested(Refused(InvalidTransition), v, None)
    else
      var bound := v.(sessions := v.sessions[d := r.conversationId]);
      if saves then
        Requested(Accepted, bound.(prepared := bound.prepared || |bound.sessions| == |bound.devices|),
                  Some(LifecycleCheckpoint(bound)))
      else
        Requested(Refused(StorageFailed), bound, None)
  }

  function SessionEnded(v: Visit, reason: Option<Cause>): Visit {
    var w := if reason.Some? && Accepting(v) && !v.stopped
             then v.(primaryError := [reason.value], error := [reason.value], state := Failed) else v;
    w.(stopped := true)
  }

  /** The visit after the join commands of the first m devices have been recorded. */
  function Commanded(v: Visit, ids: seq<CommandId>, m: nat): (w: Visit)
    requires m <= |v.devices| == |ids|
    ensures w == v.(commandIds := w.commandIds)
    ensures w.commandIds.Keys == v.commandIds.Keys + Members(v.devices[..m])
  {
    if m == 0 then v
    else
      var w := Commanded(v, ids, m - 1);
      assert v.devices[..m] == v.devices[..m - 1] + [v.devices[m - 1]];
      w.(commandIds := w.commandIds[v.devices[m - 1] := ids[m - 1]])
  }

  function RunFailed(v: Visit, cause: Cause): Visit {
    var primary := if v.primaryError != [] then v.primaryError else [cause];
    v.(state := Failed, primaryError := primary, error := primary)
  }

  /** Record and checkpoint one join command per device, in order; `saves` writes succeed
      before one fails. Wakes exist only when all of them did. */
  function RecordCommands(v: Visit, ids: seq<CommandId>, saves: nat, cause: Cause): Written
    requires |v.devices| == |ids|
  {
    if saves >= |v.devices| then Write(Commanded(v, ids, |v.devices|), true)
    else
      Written(RunFailed(Commanded(v, ids, saves + 1), cause),
              if saves == 0 then None else Some(LifecycleCheckpoint(Commanded(v, ids, saves))), false)
  }

  /** All receipts succeeded: ready, once that is durable. */
  function BecomeReady(v: Visit, saves: bool, cause: Cause): Written {
    var ready := v.(state := Ready);
    if saves then Write(ready, true) else Written(RunFailed(ready, cause), None, false)
  }

  function Unwound(v: Visit): Visit { if v.state == Failed then v else v.(state := Closing) }

  // -- Closing -------------------------------------------------------------------

  function RecordCleanupError(v: Visit, reason: Cause): Visit {
    var primary := if v.primaryError == [] && !v.cleanupFailed then v.error else v.primaryError;
    v.(primaryError := primary, cleanupError := [reason], error := primary + [reason],
       cleanupFailed := true, state := Failed)
  }

  function CleanupInterrupted(v: Visit, reason: Cause, saves: bool): Written {
    Write(RecordCleanupError(v, reason), saves).(ok := false)
  }

  /** Producers confirmed gone; if that cannot be recorded the attempt fails there. */
  function ProducersGone(v: Visit, saves: bool, reason: Cause, savesError: bool): Written {
    var revoked := v.(producersRevoked := true);
    if saves then Write(revoked, true) else CleanupInterrupted(revoked, reason, savesError)
  }

  function EndpointGone(v: Visit, d: Device, saves: bool): Written {
    Write(v.(endedDevices := v.endedDevices + {d}), saves)
  }

  /** The close transaction's last stretch. */
  function FinishCleanup(v: Visit, saves: bool): Written {
    var closed := v.(state := Closed, error := v.primaryError, cleanupError := [], cleanupFailed := false,
                     cleanupComplete := true);
    if saves then Write(closed, true)
    else Written(RecordCleanupError(closed.(cleanupComplete := false), CheckpointNotCommitted), None, false)
  }

  // -- What the service does to a visit ------------------------------------------------

  /** A status read finding a ready visit's endpoints gone. */
  function LoseReachability(v: Visit, saves: bool): Written {
    var lost := v.(state := Closing, primaryError := [Cause.ReachabilityLost], error := [Cause.ReachabilityLost]);
    if saves then Written(lost.(stopped := true), Some(LifecycleCheckpoint(lost)), true) else Write(lost, false)
  }

  function CloseRequested(v: Visit, clearsError: bool, saves: bool): Written {
    Write(v.(state := Closing, error := if clearsError then [] else v.error), saves)
  }

  function CloseSettled(v: Visit, saves: bool): Written {
    Write(v.(state := Closed, error := v.primaryError), saves)
  }

  // -- Recovery --------------------------------------------------------------------

  predicate Restorable(devices: Selection, c: Checkpoint) {
    var attempted := c.sessions.Keys + c.commandIds.Keys;
    && attempted <= Members(devices) && c.endedDevices <= attempted
    && (forall d | d in c.sessions :: c.sessions[d] != "")
    && (forall d | d in c.commandIds :: c.commandIds[d] != "")
    && (c.cleanupComplete ==> c.producersRevoked && c.endedDevices == attempted)
  }

  function Restore(devices: Selection, c: Checkpoint): Option<Visit> {
    if !Restorable(devices, c) then None
    else
      Some(Visit(devices, if c.cleanupComplete then Closed else Closing, c.error, c.primaryError, c.cleanupError,
                 c.commandIds, c.sessions, false, false, c.cleanupFailed, c.cleanupComplete, c.producersRevoked,
                 c.endedDevices))
  }
}
