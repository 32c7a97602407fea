/** service.py's locked provision, revoke and serve steps over the ledger, the standing
    transport resources and the device reservations.

    Adapter contract (ports.py): `open` leaves the resource its handle names standing and
    `close` destroys it, whoever else's handle names it too; one that raises has closed nothing. */
module TransportResources {
  import opened Contracts
  import opened OperationLedger
  import opened LedgerHistory
  import opened LedgerGuarantees

  /** A standing resource is what its adapter calls it; no identity is part of its name. */
  datatype Resource = Resource(adapter: string, name: string)

  /** What one service process can see: the table, the resources standing at the
      transports, and the devices some transport scope has reserved. */
  datatype Service = Service(rows: Table, standing: set<Resource>, reserved: set<string>)

  datatype ProvisionRequest = ProvisionRequest(
    kind: Kind,
    operationId: string,
    ref: DeviceRef,
    ownerId: string,
    manifestRevision: string,
    policy: Option<OutputPolicy>,
    fingerprint: string)

  datatype Grant = Grant(handle: Handle, expiresAt: int, channelId: string, body: string)

  /** What one call meets: the adapters configured by now, whether stopping or closing what it
      has to close raises, and whether the database fails on commit. */
  datatype Faults = Faults(configured: set<string>, closeFails: bool, storeFails: bool)

  /** What the environment contributes to one attempt: the clock, the adapter the registry
      selects (none unless it is configured), its view of the previous binding, what `open`
      returned (None when it failed), the transactions and resources a second process on the
      same database contributed while it ran, and what goes wrong. */
  datatype Attempt = Attempt(
    now: int,
    selected: string,
    bindingCurrent: bool,
    grant: Option<Grant>,
    meanwhile: seq<Transaction>,
    peers: set<Resource>,
    faults: Faults)

  function Named(adapter: string, h: Handle): set<Resource> {
    if h.resource == "" then {} else {Resource(adapter, h.resource)}
  }

  /** Whether two credential generations retain one standing resource. */
  predicate SameResource(leftAdapter: string, left: Handle, rightAdapter: string, right: Handle) {
    leftAdapter == rightAdapter && left.resource != "" && left.resource == right.resource
  }

  predicate SameAsRow(adapter: string, h: Handle, row: Option<Row>) {
    row.Some? && SameResource(adapter, h, row.value.adapterName, row.value.handle)
  }

  /** The resource the device's current channel still stands on. */
  function Retained(t: Table, id: Identity): set<Resource> {
    var live := CurrentChannel(t, id);
    if live.Some? then Named(live.value.adapterName, live.value.handle) else {}
  }

  /** Some device's current channel stands on the resource. */
  ghost predicate Claimed(t: Table, r: Resource) { exists id :: r in Retained(t, id) }

  /** Standing resources that no live row names. */
  ghost function Orphans(s: Service): set<Resource> { set r | r in s.standing && !Claimed(s.rows, r) }

  ghost predicate ServiceInv(s: Service) {
    Inv(s.rows) && forall id :: Retained(s.rows, id) <= s.standing
  }

  function Close(s: Service, adapter: string, h: Handle): Service {
    s.(standing := s.standing - Named(adapter, h))
  }

  // -- Provision -----------------------------------------------------------------

  predicate SameAuthority(q: ProvisionRequest, previous: Option<Row>, adapter: string) {
    q.kind == Refresh && previous.Some?
    && previous.value.ref == q.ref && previous.value.ownerId == q.ownerId
    && previous.value.manifestRevision == q.manifestRevision
    && previous.value.response.policy == q.policy && previous.value.adapterName == adapter
  }

  function GrantRow(q: ProvisionRequest, g: Grant, adapter: string, now: int): Row {
    Row(q.operationId, q.kind, q.fingerprint, q.ref, q.ownerId, q.manifestRevision, adapter, g.handle,
        g.channelId, Response(q.policy, g.body), g.expiresAt, Active, "", now, now)
  }

  function ChosenAdapter(q: ProvisionRequest, previous: Option<Row>, a: Attempt): string {
    if q.kind == Refresh && previous.Some? then previous.value.adapterName else a.selected
  }

  function RuntimeRefreshOf(q: ProvisionRequest, previous: Option<Row>, a: Attempt): Option<Row> {
    if q.kind == Refresh && previous.Some? && !a.bindingCurrent then previous else None
  }

  /** Asking the adapter to stop and close; what goes wrong, if anything. */
  function CloseReached(s: Service, adapter: string, h: Handle, f: Faults): (Option<DomainError>, Service) {
    if f.closeFails then (Some(BackendUnavailable), s) else (None, Close(s, adapter, h))
  }

  /** Closing what one handle names unless the given row stands on the same resource; what
      keeps it from being closed, if anything, is the error. The row's own adapter is looked up
      first. */
  function CloseUnless(s: Service, adapter: string, h: Handle, row: Option<Row>, f: Faults)
    : (Option<DomainError>, Service)
  {
    if row.Some? && row.value.adapterName !in f.configured then (Some(NoAdapterAvailable), s)
    else if SameAsRow(adapter, h, row) then (None, s)
    else CloseReached(s, adapter, h, f)
  }

  function Unless(trouble: Option<DomainError>, result: Result<Response>): Result<Response> {
    if trouble.Some? then Failure(trouble.value) else result
  }

  /** The replaced channel: its adapter is looked up, then it is closed unless the grant stands
      on the same resource. */
  function RetirePrevious(s: Service, previous: Row, adapter: string, h: Handle, f: Faults)
    : (Option<DomainError>, Service)
  {
    if previous.adapterName !in f.configured then (Some(NoAdapterAvailable), s)
    else if SameResource(previous.adapterName, previous.handle, adapter, h) then (None, s)
    else CloseReached(s, previous.adapterName, previous.handle, f)
  }

  /** What happens to the resources once the ledger has answered. The handle of a replayed row
      that has ended is scrubbed: reading it fails before anything is closed. */
  function Settle(s: Service, adapter: string, g: Grant, previous: Option<Row>, outcome: Outcome, f: Faults)
    : (Result<Response>, Service)
  {
    match outcome
    case Refused(e) =>
      var (trouble, t) := CloseUnless(s, adapter, g.handle, previous, f);
      (Unless(trouble, Failure(e)), t)
    case Stored(committed, true) =>
      if committed.adapterName !in f.configured then (Failure(NoAdapterAvailable), s)
      else if !Live(committed) then (Failure(UnreadableHandle), s)
      else
        var (trouble, t) := CloseUnless(s, adapter, g.handle, Some(committed), f);
        (Unless(trouble, Success(committed.response)), t)
    case Stored(committed, false) =>
      if previous.None? || SameKey(previous.value, committed) then (Success(committed.response), s)
      else
        var (trouble, t) := RetirePrevious(s, previous.value, adapter, g.handle, f);
        (Unless(trouble, Success(committed.response)), t)
  }

  /** From the grant in hand to the committed row and the retired predecessor. */
  function CommitGrant(s: Service, q: ProvisionRequest, a: Attempt, g: Grant, previous: Option<Row>)
    : (Result<Response>, Service)
  {
    var adapter := ChosenAdapter(q, previous, a);
    if a.faults.storeFails then Settle(s, adapter, g, previous, Refused(BackendUnavailable), a.faults)
    else
      var (outcome, rows) := CreateProvision(s.rows, GrantRow(q, g, adapter, a.now), a.now,
                                             RuntimeRefreshOf(q, previous, a));
      Settle(s.(rows := rows), adapter, g, previous, outcome, a.faults)
  }

  /** Past the checks that touch nothing: mint a candidate grant and commit it. */
  function OpenAndCommit(s: Service, q: ProvisionRequest, a: Attempt, previous: Option<Row>)
    : (Result<Response>, Service)
  {
    var adapter := ChosenAdapter(q, previous, a);
    var reserved := q.ref.identity.device in s.reserved;
    if adapter !in a.faults.configured then (Failure(NoAdapterAvailable), s)
    else if reserved && !SameAuthority(q, previous, adapter) then (Failure(TransportTransitionRequired), s)
    else if a.grant.None? then (Failure(BackendUnavailable), s)
    else
      var g := a.grant.value;
      var minted := s.(rows := Run(s.rows, a.meanwhile), standing := s.standing + a.peers + Named(adapter, g.handle));
      if reserved && !SameResource(adapter, g.handle, adapter, previous.value.handle) then
        var (trouble, t) := CloseReached(minted, adapter, g.handle, a.faults);
        (Unless(trouble, Failure(TransportTransitionRequired)), t)
      else
        CommitGrant(minted, q, a, g, previous)
  }

  /** The attempt against a table already expired up to now. */
  function ProvisionOn(s: Service, q: ProvisionRequest, a: Attempt): (Result<Response>, Service) {
    var stored := Find(s.rows, q.ref, q.kind, q.operationId);
    var previous := CurrentChannel(s.rows, q.ref.identity);
    if Stale(s.rows, q.ref) then (Failure(StaleGeneration), s)
    else if stored.Some? then
      if stored.value.fingerprint != q.fingerprint then (Failure(IdempotencyConflict), s)
      else if stored.value.status == Fenced || stored.value.status == Revoked then (Failure(InvalidTransition), s)
      else (Success(stored.value.response), s)
    else if previous.Some? && previous.value.ref == q.ref
            && !PolicyKept(previous.value.response.policy, q.policy) then (Failure(InvalidTransition), s)
    else OpenAndCommit(s, q, a, previous)
  }

  function UpTo(s: Service, now: int): Service { s.(rows := Expire(s.rows, now)) }

  function ProvisionOnce(s: Service, q: ProvisionRequest, a: Attempt): (Result<Response>, Service) {
    ProvisionOn(UpTo(s, a.now), q, a)
  }

  // -- Revoke --------------------------------------------------------------------

  /** Closing the channel of the exact generation being revoked, if it is active. */
  function CloseActive(s: Service, ref: DeviceRef, f: Faults): (Option<DomainError>, Service) {
    var active := ActiveDevice(s.rows, ref);
    if active.None? then (None, s)
    else if active.value.adapterName !in f.configured then (Some(NoAdapterAvailable), s)
    else CloseReached(s, active.value.adapterName, active.value.handle, f)
  }

  /** The channel is closed first; the database may then fail to take the revocation. */
  function CloseAndRecord(s: Service, v: Revocation, now: int, f: Faults): (Result<Response>, Service) {
    var (trouble, t) := CloseActive(s, v.ref, f);
    if trouble.Some? then (Failure(trouble.value), t)
    else if f.storeFails then (Failure(BackendUnavailable), t)
    else
      var (outcome, rows) := CompleteRevocation(s.rows, v, now);
      match outcome
      case Refused(e) => (Failure(e), t)
      case Stored(row, _) => (Success(row.response), t.(rows := rows))
  }

  function RevokeOn(s: Service, v: Revocation, now: int, f: Faults): (Result<Response>, Service) {
    var prior := Find(s.rows, v.ref, Revoke, v.operationId);
    if Stale(s.rows, v.ref) then (Failure(StaleGeneration), s)
    else if prior.Some? then
      if prior.value.fingerprint != v.fingerprint then (Failure(IdempotencyConflict), s)
      else (Success(prior.value.response), s)
    else if v.ref.identity.device in s.reserved then (Failure(TransportTransitionRequired), s)
    else CloseAndRecord(s, v, now, f)
  }

  function RevokeOnce(s: Service, v: Revocation, now: int, f: Faults): (Result<Response>, Service) {
    RevokeOn(UpTo(s, now), v, now, f)
  }

  // -- Serve ---------------------------------------------------------------------

  datatype Serving = SessionOpened(row: Row) | SessionClosed(row: Row) | Declined(error: DomainError)

  /** A credential gates starting, never stopping. */
  function ConvergeServing(s: Service, ref: DeviceRef, start: bool, now: int): Serving {
    var t := Expire(s.rows, now);
    var active := ActiveDevice(t, ref);
    var current := CurrentChannel(t, ref.identity);
    var lapsed := if current.Some? && current.value.status == Expired && current.value.ref == ref then current
                  else None;
    var channel := if active.None? && !start then lapsed else active;
    if channel.None? then Declined(UnknownChannel)
    else if start && ref.identity.device in s.reserved then Declined(InvalidTransition)
    else if start then SessionOpened(channel.value) else SessionClosed(channel.value)
  }
}
