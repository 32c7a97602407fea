/** The Provider's operation ledger as a transaction function on the table: each
    BEGIN IMMEDIATE ... COMMIT of store.py is one step from a table to a table. */
module OperationLedger {
  import opened Contracts

  datatype Kind = Provision | Refresh | Revoke

  datatype Status = Active | Expired | Fenced | Revoked | Completed

  /** response_json: the output policy it may carry, and everything else in it. */
  datatype Response = Response(policy: Option<OutputPolicy>, body: string)

  /** handle_json: the transport resource the adapter reads out of it (empty when it names
      none), and everything else in it. */
  datatype Handle = Handle(resource: string, details: string)

  const SCRUBBED := Handle("", "")

  datatype Row = Row(
    operationId: string,
    kind: Kind,
    fingerprint: string,
    ref: DeviceRef,
    ownerId: string,
    manifestRevision: string,
    adapterName: string,
    handle: Handle,
    channelId: string,
    response: Response,
    expiresAt: int,
    status: Status,
    terminalReason: string,
    createdAt: int,
    updatedAt: int)

  /** The table in insertion order; rows are updated in place and never deleted. */
  type Table = seq<Row>

  predicate IsGrant(r: Row) { r.kind != Revoke }

  /** A row that still bears a credential, used or lapsed. */
  predicate Live(r: Row) { r.status == Active || r.status == Expired }

  predicate SameKey(a: Row, b: Row) {
    a.ref == b.ref && a.kind == b.kind && a.operationId == b.operationId
  }

  // -- Statements ------------------------------------------------------------

  function ExpireRow(r: Row, now: int): Row {
    if r.status == Active && r.expiresAt <= now
    then r.(status := Expired, terminalReason := "credential_expired", updatedAt := now)
    else r
  }

  /** Ending a row's lifecycle scrubs its credential. */
  function EndRow(r: Row, status: Status, reason: string, now: int): Row {
    r.(status := status, terminalReason := reason, handle := SCRUBBED, expiresAt := 0, updatedAt := now)
  }

  function FenceOlderRow(r: Row, ref: DeviceRef, reason: string, now: int): Row {
    if r.ref.identity == ref.identity && Live(r) && Older(r.ref.generation, ref.generation)
    then EndRow(r, Fenced, reason, now) else r
  }

  function EndGenerationRow(r: Row, ref: DeviceRef, status: Status, reason: string, now: int): Row {
    if r.ref == ref && Live(r) then EndRow(r, status, reason, now) else r
  }

  function Expire(t: Table, now: int): (u: Table) {
    seq(|t|, i requires 0 <= i < |t| => ExpireRow(t[i], now))
  }

  function FenceOlder(t: Table, ref: DeviceRef, reason: string, now: int): (u: Table) {
    seq(|t|, i requires 0 <= i < |t| => FenceOlderRow(t[i], ref, reason, now))
  }

  function EndGeneration(t: Table, ref: DeviceRef, status: Status, reason: string, now: int): (u: Table) {
    seq(|t|, i requires 0 <= i < |t| => EndGenerationRow(t[i], ref, status, reason, now))
  }

  // -- Queries ---------------------------------------------------------------

  /** Greatest generation ever recorded for an identity. */
  function LatestGeneration(t: Table, id: Identity): (g: Option<Generation>)
    ensures g.None? <==> forall i | 0 <= i < |t| :: t[i].ref.identity != id
    ensures g.Some? ==> exists i | 0 <= i < |t| :: t[i].ref == DeviceRef(id, g.value)
    ensures g.Some? ==> forall i | 0 <= i < |t| && t[i].ref.identity == id ::
                          !Older(g.value, t[i].ref.generation)
  {
    if t == [] then None
    else
      var rest, last := LatestGeneration(t[..|t| - 1], id), t[|t| - 1].ref;
      if last.identity == id && (rest.None? || Older(rest.value, last.generation))
      then (assert t[|t| - 1].ref == DeviceRef(id, last.generation); Some(last.generation))
      else
        assert rest.Some? ==> forall i | 0 <= i < |t| - 1 :: t[..|t| - 1][i] == t[i];
        rest
  }

  /** The row with a given primary key. */
  function Find(t: Table, ref: DeviceRef, kind: Kind, operationId: string): (r: Option<Row>)
    ensures r.Some? ==> r.value in t && r.value.ref == ref && r.value.kind == kind
                        && r.value.operationId == operationId
    ensures r.None? ==> forall x | x in t :: !(x.ref == ref && x.kind == kind && x.operationId == operationId)
  {
    if t == [] then None
    else if t[0].ref == ref && t[0].kind == kind && t[0].operationId == operationId then Some(t[0])
    else Find(t[1..], ref, kind, operationId)
  }

  /** The active row of exactly this generation. */
  function ActiveDevice(t: Table, ref: DeviceRef): (r: Option<Row>)
    ensures r.Some? ==> r.value in t && r.value.ref == ref && r.value.status == Active
    ensures r.None? ==> forall x | x in t :: !(x.ref == ref && x.status == Active)
  {
    if t == [] then None
    else if t[0].ref == ref && t[0].status == Active then Some(t[0])
    else ActiveDevice(t[1..], ref)
  }

  predicate Bearing(r: Row, id: Identity) { r.ref.identity == id && IsGrant(r) && Live(r) }

  /** ORDER BY generation DESC, created_at_ms DESC. */
  predicate Precedes(a: Row, b: Row) {
    Older(b.ref.generation, a.ref.generation)
    || (a.ref.generation == b.ref.generation && b.createdAt < a.createdAt)
  }

  /** First credential-bearing row of an identity in that order. */
  function CurrentChannel(t: Table, id: Identity): (r: Option<Row>)
    ensures r.Some? ==> r.value in t && Bearing(r.value, id)
    ensures r.None? <==> forall x | x in t :: !Bearing(x, id)
  {
    if t == [] then None
    else
      var rest := CurrentChannel(t[1..], id);
      if Bearing(t[0], id) && (rest.None? || !Precedes(rest.value, t[0])) then Some(t[0]) else rest
  }

  // -- Transactions ------------------------------------------------------------

  datatype Outcome = Stored(row: Row, replayed: bool) | Refused(error: DomainError)

  predicate BreaksUniqueness(t: Table, value: Row) {
    exists i | 0 <= i < |t| ::
      SameKey(t[i], value)
      || (value.status == Active && t[i].status == Active && t[i].ref.identity == value.ref.identity)
  }

  /** The INSERT, refused by the primary key or by the unique index on active devices. */
  function Insert(before: Table, t: Table, value: Row): (Outcome, Table) {
    if BreaksUniqueness(t, value) then (Refused(ConstraintViolated), before)
    else (Stored(value, false), t + [value])
  }

  predicate PolicyRegresses(t: Table, value: Row) {
    exists i | 0 <= i < |t| ::
      t[i].ref == value.ref && IsGrant(t[i]) && !PolicyKept(t[i].response.policy, value.response.policy)
  }

  predicate HasGeneration(t: Table, ref: DeviceRef) { exists i | 0 <= i < |t| :: t[i].ref == ref }

  /** What makes one existing row a reason to refresh: expiry, a new Manifest, a newer
      policy, or the adapter's own observation of stale inputs on exactly that row. */
  predicate Justifies(r: Row, value: Row, runtime: Option<Row>) {
    IsGrant(r)
    && (r.status == Expired
        || (r.status == Active
            && (r.manifestRevision != value.manifestRevision
                || PolicyAdvances(r.response.policy, value.response.policy)
                || (runtime.Some?
                    && r.operationId == runtime.value.operationId
                    && r.handle == runtime.value.handle
                    && r.adapterName == runtime.value.adapterName))))
  }

  predicate RefreshJustified(t: Table, value: Row, runtime: Option<Row>) {
    exists i | 0 <= i < |t| :: t[i].ref == value.ref && Justifies(t[i], value, runtime)
  }

  /** Why a fresh operation may not commit against an expired-up-to-now table. */
  predicate Inadmissible(t: Table, value: Row, runtime: Option<Row>) {
    if LatestGeneration(t, value.ref.identity) == Some(value.ref.generation) then
      PolicyRegresses(t, value)
      || (value.kind == Provision && HasGeneration(t, value.ref))
      || (value.kind == Refresh && !RefreshJustified(t, value, runtime))
    else
      value.kind != Provision
  }

  predicate Stale(t: Table, ref: DeviceRef) {
    var latest := LatestGeneration(t, ref.identity);
    latest.Some? && Older(ref.generation, latest.value)
  }

  predicate Advances(t: Table, ref: DeviceRef) {
    var latest := LatestGeneration(t, ref.identity);
    latest.Some? && Older(latest.value, ref.generation)
  }

  /** Rows a new grant supersedes, ended. */
  function Supersede(t: Table, value: Row, now: int): Table {
    if Advances(t, value.ref) then FenceOlder(t, value.ref, "generation_advanced", now)
    else if value.kind == Refresh then EndGeneration(t, value.ref, Fenced, "credential_refreshed", now)
    else t
  }

  /** A refused transaction rolls back, including the expiry it began with. */
  function CreateProvision(before: Table, value: Row, now: int, runtime: Option<Row>): (Outcome, Table) {
    var t := Expire(before, now);
    var prior := Find(t, value.ref, value.kind, value.operationId);
    if Stale(t, value.ref) then (Refused(StaleGeneration), before)
    else if prior.Some? then
      if prior.value.fingerprint != value.fingerprint then (Refused(IdempotencyConflict), before)
      else (Stored(prior.value, true), t)
    else if Inadmissible(t, value, runtime) then (Refused(InvalidTransition), before)
    else Insert(before, Supersede(t, value, now), value)
  }

  datatype Revocation = Revocation(operationId: string, fingerprint: string, ref: DeviceRef, body: string)

  function RevocationRow(v: Revocation, now: int): Row {
    Row(v.operationId, Revoke, v.fingerprint, v.ref, "", "", "", SCRUBBED, "", Response(None, v.body), 0,
        Completed, "claim_revoked", now, now)
  }

  function Withdraw(t: Table, ref: DeviceRef, now: int): Table {
    var fenced := if Advances(t, ref) then FenceOlder(t, ref, "generation_advanced", now) else t;
    EndGeneration(fenced, ref, Revoked, "claim_revoked", now)
  }

  function CompleteRevocation(before: Table, v: Revocation, now: int): (Outcome, Table) {
    var t := Expire(before, now);
    var prior := Find(t, v.ref, Revoke, v.operationId);
    if Stale(t, v.ref) then (Refused(StaleGeneration), before)
    else if prior.Some? then
      if prior.value.fingerprint != v.fingerprint then (Refused(IdempotencyConflict), before)
      else (Stored(prior.value, true), t)
    else Insert(before, Withdraw(t, v.ref, now), RevocationRow(v, now))
  }

  /** What service.py hands to create_provision: a grant operation, active. */
  predicate NewGrant(value: Row) { IsGrant(value) && value.status == Active }

  datatype Transaction =
    | ExpireCredentials(now: int)
    | Create(value: Row, at: int, runtime: Option<Row>)
    | Complete(revocation: Revocation, at: int)

  predicate WellFormed(x: Transaction) { x.Create? ==> NewGrant(x.value) }

  function Commit(t: Table, x: Transaction): Table {
    match x
    case ExpireCredentials(now) => Expire(t, now)
    case Create(value, at, runtime) => CreateProvision(t, value, at, runtime).1
    case Complete(v, at) => CompleteRevocation(t, v, at).1
  }

  function Run(t: Table, xs: seq<Transaction>): Table
    decreases xs
  {
    if xs == [] then t else Run(Commit(t, xs[0]), xs[1..])
  }
}
