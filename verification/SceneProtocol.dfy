/** One prepared scene as a state machine over atomic steps: its run, the callbacks and
    status reads that interleave with it at awaits, its close transaction, and crashes that
    keep only the saved checkpoint. */
module SceneProtocol {
  import opened Contracts
  import opened EndpointPreparation

  /** Where the scene's task stands. Detached: the intent checkpoint failed, so no task was
      created. */
  datatype RunPhase = Validating | Waiting | Activating | Confirming | Serving | Unwinding | Finished | Detached

  /** Where the close transaction stands; it holds the close lock unless idle. */
  datatype ClosePhase = Idle | Quiescing | Ending(inFlight: set<Device>, failed: bool)

  datatype Memory = Memory(visit: Visit, run: RunPhase, close: ClosePhase, wakes: set<Device>)

  /** What is in memory, what is in the database, and what has happened out there: devices
      sent room.join, the producers' teardown, devices that confirmed their end, and the
      session maps activation was called with. */
  datatype Scene = Scene(
    devices: Selection,
    memory: Option<Memory>,
    saved: Option<Checkpoint>,
    woken: set<Device>,
    quiesced: bool,
    confirmed: set<Device>,
    activations: seq<map<Device, string>>)

  datatype Event =
    // the scene's task
    | Wake(ids: seq<CommandId>, saves: nat, cause: Cause)
    | Deliver(device: Device)
    | Activate(cause: Cause)
    | ActivationDone
    | ReceiptsDone(saved: bool, cause: Cause)
    | RunFails(cause: Cause)
    | StopSeen
    | Cancel
    | Unwind
    | Abandon
    // callbacks and calls from outside
    | Receive(device: Device, request: ServingRequest, saved: bool)
    | EndObserved(reason: Option<Cause>)
    | StatusLost(saved: bool)
    | CloseCall(clearsError: bool, saved: bool)
    | CloseReturn(saved: bool)
    // the close transaction
    | CleanupBegin
    | QuiesceDone(saved: bool, cause: Cause, savedError: bool)
    | EndConfirmed(device: Device, saved: bool)
    | EndFailed(device: Device)
    | CleanupFails(cause: Cause, saved: bool)
    | CleanupDone(saved: bool)
    // the process
    | Crash
    | Restart(saved: bool)

  function Stored(before: Option<Checkpoint>, w: Option<Checkpoint>): Option<Checkpoint> {
    if w.Some? then w else before
  }

  function Put(s: Scene, m: Memory, w: Option<Checkpoint>): Scene {
    s.(memory := Some(m), saved := Stored(s.saved, w))
  }

  function PendingEnds(v: Visit): set<Device> { Attempted(v) - v.endedDevices }

  // -- The scene's task; a step its phase does not allow changes nothing -------------------

  function WakeStep(s: Scene, m: Memory, ids: seq<CommandId>, saves: nat, cause: Cause): Scene {
    if m.run != Validating || |ids| != |m.visit.devices| then s
    else
      var w := RecordCommands(m.visit, ids, saves, cause);
      Put(s, if w.ok then m.(visit := w.visit, run := Waiting, wakes := Members(m.visit.devices))
             else m.(visit := w.visit, run := Unwinding), w.saved)
  }

  function FailStep(s: Scene, m: Memory, cause: Cause): Scene {
    Put(s, m.(visit := RunFailed(m.visit, cause), run := Unwinding), None)
  }

  /** All endpoints prepared: install the observers, look for a stop, and activate. */
  function ActivateStep(s: Scene, m: Memory, cause: Cause): Scene {
    if m.run != Waiting || !m.visit.prepared then s
    else if m.visit.stopped then FailStep(s, m, cause)
    else Put(s, m.(run := Activating), None).(activations := s.activations + [m.visit.sessions])
  }

  /** All receipts in: ready, and on to serving. A stop already signalled is seen at once, for
      nothing suspends between the visit being ready and, its wakes long done, its task's end. */
  function ReceiptsStep(s: Scene, m: Memory, saves: bool, cause: Cause): Scene {
    if m.run != Confirming then s
    else
      var w := BecomeReady(m.visit, saves, cause);
      if w.ok && m.visit.stopped then Put(s, m.(visit := Unwound(w.visit), run := Finished, wakes := {}), w.saved)
      else Put(s, m.(visit := w.visit, run := if w.ok then Serving else Unwinding), w.saved)
  }

  function UnwindStep(s: Scene, m: Memory): Scene {
    if m.run != Unwinding then s
    else Put(s, m.(visit := Unwound(m.visit), run := Finished, wakes := {}), None)
  }

  predicate Awaiting(p: RunPhase) { p == Validating || p == Waiting || p == Activating || p == Confirming }

  function MoveRun(s: Scene, m: Memory, allowed: bool, run: RunPhase, wakes: set<Device>): Scene {
    if allowed then Put(s, m.(run := run, wakes := wakes), None) else s
  }

  function RunStep(s: Scene, m: Memory, e: Event): Scene {
    match e
    case Wake(ids, saves, cause) => WakeStep(s, m, ids, saves, cause)
    case Deliver(d) => if d in m.wakes then s.(woken := s.woken + {d}) else s
    case Activate(cause) => ActivateStep(s, m, cause)
    case ActivationDone => MoveRun(s, m, m.run == Activating, Confirming, m.wakes)
    case ReceiptsDone(saves, cause) => ReceiptsStep(s, m, saves, cause)
    case RunFails(cause) => if Awaiting(m.run) then FailStep(s, m, cause) else s
    case StopSeen => MoveRun(s, m, m.run == Serving && m.visit.stopped, Unwinding, m.wakes)
    case Cancel => MoveRun(s, m, Awaiting(m.run) || m.run == Serving, Unwinding, m.wakes)
    case Unwind => UnwindStep(s, m)
    case Abandon => MoveRun(s, m, m.run == Validating || m.run == Unwinding, Finished, {})
    case _ => s
  }

  // -- The close transaction ---------------------------------------------------------------

  function BeginCleanup(s: Scene, m: Memory): Scene {
    if m.close != Idle || m.run != Finished then s
    else if m.visit.producersRevoked then Put(s, m.(close := Ending(PendingEnds(m.visit), false)), None)
    else Put(s, m.(close := Quiescing), None)
  }

  function QuiesceStep(s: Scene, m: Memory, saves: bool, cause: Cause, savesError: bool): Scene {
    if m.close != Quiescing then s
    else
      var w := ProducersGone(m.visit, saves, cause, savesError);
      Put(s.(quiesced := true),
          m.(visit := w.visit, close := if w.ok then Ending(PendingEnds(w.visit), false) else Idle), w.saved)
  }

  function InFlight(m: Memory, d: Device): bool { m.close.Ending? && d in m.close.inFlight }

  function EndStep(s: Scene, m: Memory, d: Device, saves: bool): Scene {
    if !InFlight(m, d) then s
    else
      var w := EndpointGone(m.visit, d, saves);
      Put(s.(confirmed := s.confirmed + {d}),
          m.(visit := w.visit, close := Ending(m.close.inFlight - {d}, m.close.failed || !saves)), w.saved)
  }

  function EndFailStep(s: Scene, m: Memory, d: Device): Scene {
    if !InFlight(m, d) then s else Put(s, m.(close := Ending(m.close.inFlight - {d}, true)), None)
  }

  function FailCleanup(s: Scene, m: Memory, cause: Cause, saves: bool): Scene {
    if m.close == Quiescing || (m.close.Ending? && (m.close.inFlight != {} || m.close.failed)) then
      var w := CleanupInterrupted(m.visit, cause, saves);
      Put(s, m.(visit := w.visit, close := Idle), w.saved)
    else s
  }

  function CompleteCleanup(s: Scene, m: Memory, saves: bool): Scene {
    if m.close != Ending({}, false) then s
    else
      var w := FinishCleanup(m.visit, saves);
      Put(s, m.(visit := w.visit, close := Idle), w.saved)
  }

  function CloseStep(s: Scene, m: Memory, e: Event): Scene {
    match e
    case CleanupBegin => BeginCleanup(s, m)
    case QuiesceDone(saves, cause, savesError) => QuiesceStep(s, m, saves, cause, savesError)
    case EndConfirmed(d, saves) => EndStep(s, m, d, saves)
    case EndFailed(d) => EndFailStep(s, m, d)
    case CleanupFails(cause, saves) => FailCleanup(s, m, cause, saves)
    case CleanupDone(saves) => CompleteCleanup(s, m, saves)
    case _ => s
  }

  // -- Callbacks and calls ------------------------------------------------------------------

  function PutWritten(s: Scene, m: Memory, w: Written): Scene { Put(s, m.(visit := w.visit), w.saved) }

  function ReceiveStep(s: Scene, m: Memory, d: Device, r: ServingRequest, saves: bool): Scene {
    var w := Request(m.visit, d, r, saves);
    Put(s, m.(visit := w.visit), w.saved)
  }

  function CallStep(s: Scene, m: Memory, e: Event): Scene {
    match e
    case Receive(d, r, saves) => ReceiveStep(s, m, d, r, saves)
    case EndObserved(reason) => Put(s, m.(visit := SessionEnded(m.visit, reason)), None)
    case StatusLost(saves) => if m.visit.state == Ready then PutWritten(s, m, LoseReachability(m.visit, saves)) else s
    case CloseCall(clears, saves) =>
      if m.visit.state != Closed then PutWritten(s, m, CloseRequested(m.visit, clears, saves)) else s
    case CloseReturn(saves) => PutWritten(s, m, CloseSettled(m.visit, saves))
    case _ => s
  }

  /** Recovery installs the saved visit with its task past running, and writes it back. */
  function Recover(s: Scene, saves: bool): Scene {
    if s.memory.Some? || s.saved.None? || Restore(s.devices, s.saved.value).None? then s
    else
      var v := Restore(s.devices, s.saved.value).value;
      Put(s, Memory(v, Finished, Idle, {}), Write(v, saves).saved)
  }

  predicate IsRunEvent(e: Event) {
    e.Wake? || e.Deliver? || e.Activate? || e.ActivationDone? || e.ReceiptsDone? || e.RunFails?
    || e.StopSeen? || e.Cancel? || e.Unwind? || e.Abandon?
  }

  predicate IsCloseEvent(e: Event) {
    e.CleanupBegin? || e.QuiesceDone? || e.EndConfirmed? || e.EndFailed? || e.CleanupFails? || e.CleanupDone?
  }

  /** A step of one process. */
  predicate Ordinary(e: Event) { !e.Crash? && !e.Restart? }

  function Step(s: Scene, e: Event): Scene {
    if e.Crash? then s.(memory := None)
    else if e.Restart? then Recover(s, e.saved)
    else if s.memory.None? then s
    else if IsRunEvent(e) then RunStep(s, s.memory.value, e)
    else if IsCloseEvent(e) then CloseStep(s, s.memory.value, e)
    else CallStep(s, s.memory.value, e)
  }

  function Run(s: Scene, es: seq<Event>): Scene
    decreases es
  {
    if es == [] then s else Run(Step(s, es[0]), es[1..])
  }

  /** A scene whose selection has just been admitted; its intent was written or not. */
  function Opening(devices: Selection, saves: bool): Scene {
    var v := NewVisit(devices);
    Scene(devices, Some(Memory(v, if saves then Validating else Detached, Idle, {})), Write(v, saves).saved,
          {}, false, {}, [])
  }
}
