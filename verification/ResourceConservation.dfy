/** Which transport resources stand, and what a reservation freezes, over every sequence
    of locked service calls. */
module ResourceConservation {
  import opened Contracts
  import opened OperationLedger
  import opened LedgerHistory
  import opened LedgerGuarantees
  import opened TransportResources

  // -- What transactions do to the standing authority --------------------------------------

  /** What a device's current channel authorises, and on which resource. */
  datatype Authority = Authority(
    ref: DeviceRef,
    ownerId: string,
    manifestRevision: string,
    policy: Option<OutputPolicy>,
    adapter: string,
    resource: string)

  function AuthorityOf(r: Row): Authority {
    Authority(r.ref, r.ownerId, r.manifestRevision, r.response.policy, r.adapterName, r.handle.resource)
  }

  function CurrentAuthority(t: Table, id: Identity): Option<Authority> {
    var live := CurrentChannel(t, id);
    if live.Some? then Some(AuthorityOf(live.value)) else None
  }

  predicate SameBearing(a: Row, b: Row) { AuthorityOf(a) == AuthorityOf(b) && Live(a) == Live(b) }

  /** Two tables whose rows of an identity agree leave it the same authority and resource. */
  lemma AuthorityFrame(t: Table, u: Table, id: Identity)
    requires Inv(t) && Inv(u) && |t| <= |u|
    requires forall i | 0 <= i < |t| && (t[i].ref.identity == id || u[i].ref.identity == id) :: SameBearing(t[i], u[i])
    requires forall i | |t| <= i < |u| :: u[i].ref.identity != id
    ensures CurrentAuthority(u, id) == CurrentAuthority(t, id) && Retained(u, id) == Retained(t, id)
  {
    var l, m := CurrentChannel(t, id), CurrentChannel(u, id);
    if l.Some? {
      var i :| 0 <= i < |t| && t[i] == l.value;
      LiveRowIsCurrentChannel(u, i);
    } else if m.Some? {
      var i :| 0 <= i < |u| && u[i] == m.value;
      LiveRowIsCurrentChannel(t, i);
    }
  }

  lemma ExpiryRetains(t: Table, now: int, id: Identity)
    requires Inv(t)
    ensures Inv(Expire(t, now)) && Retained(Expire(t, now), id) == Retained(t, id)
    ensures CurrentAuthority(Expire(t, now), id) == CurrentAuthority(t, id)
  {
    ExpiryKeepsInvariant(t, now);
    AuthorityFrame(t, Expire(t, now), id);
  }

  lemma GrowthRetains(t: Table, u: Table, now: int, id: Identity)
    requires Inv(t) && Inv(u) && |u| == |t| + 1 && u[|t|].ref.identity != id
    requires forall i | 0 <= i < |t| :: u[i].ref == t[i].ref
    requires forall i | 0 <= i < |t| && t[i].ref.identity == id :: u[i] == Expire(t, now)[i]
    ensures Retained(u, id) == Retained(t, id) && CurrentAuthority(u, id) == CurrentAuthority(t, id)
  {
    AuthorityFrame(t, u, id);
  }

  lemma CommittedGrantRetains(t: Table, u: Table, value: Row, now: int, runtime: Option<Row>)
    requires Inv(t) && NewGrant(value) && Fresh(t, value)
    requires CreateProvision(t, value, now, runtime) == (Stored(value, false), u)
    ensures Inv(u) && Retained(u, value.ref.identity) == Named(value.adapterName, value.handle)
    ensures CurrentAuthority(u, value.ref.identity) == Some(AuthorityOf(value))
    ensures forall id | id != value.ref.identity ::
              Retained(u, id) == Retained(t, id) && CurrentAuthority(u, id) == CurrentAuthority(t, id)
  {
    CreateKeepsInvariant(t, value, now, runtime);
    CommittedGrantTakesOver(t, value, now, runtime);
    ExtensionKeepsRefs(t, u);
    forall id | id != value.ref.identity
      ensures Retained(u, id) == Retained(t, id) && CurrentAuthority(u, id) == CurrentAuthority(t, id)
    {
      GrowthRetains(t, u, now, id);
    }
  }

  lemma ExtensionKeepsRefs(t: Table, u: Table)
    requires Extends(t, u)
    ensures forall i | 0 <= i < |t| :: u[i].ref == t[i].ref
  {
    assert forall i | 0 <= i < |t| :: Moves(t[i], u[..|t|][i]);
  }

  predicate RevocationCommits(t: Table, v: Revocation) {
    !Stale(t, v.ref) && Find(t, v.ref, Revoke, v.operationId).None?
  }

  lemma WithdrawLeavesOthers(t: Table, ref: DeviceRef, now: int, i: int)
    requires 0 <= i < |t| && t[i].ref.identity != ref.identity
    ensures Withdraw(t, ref, now)[i] == t[i]
  {}

  lemma RevocationRetains(t: Table, u: Table, v: Revocation, now: int)
    requires Inv(t) && Expire(t, now) == t && RevocationCommits(t, v)
    requires u == CompleteRevocation(t, v, now).1
    ensures CompleteRevocation(t, v, now).0 == Stored(RevocationRow(v, now), false)
    ensures Inv(u) && CurrentChannel(u, v.ref.identity).None?
    ensures forall id | id != v.ref.identity ::
              Retained(u, id) == Retained(t, id) && CurrentAuthority(u, id) == CurrentAuthority(t, id)
  {
    RevokeKeepsInvariant(t, v, now);
    WithdrawnRowFits(t, v, now);
    FittingRowIsInsertable(t, Withdraw(t, v.ref, now), RevocationRow(v, now));
    RevokedDeviceHasNoChannel(u);
    ExtensionKeepsRefs(t, u);
    forall id | id != v.ref.identity
      ensures Retained(u, id) == Retained(t, id) && CurrentAuthority(u, id) == CurrentAuthority(t, id)
    {
      forall i | 0 <= i < |t| && t[i].ref.identity == id ensures u[i] == Expire(t, now)[i] {
        WithdrawLeavesOthers(t, v.ref, now, i);
      }
      GrowthRetains(t, u, now, id);
    }
  }

  // -- What a provision opens, commits and closes ---------------------------------------------

  /** One service process: nothing else writes the database or opens resources meanwhile. */
  predicate Alone(a: Attempt) { a.meanwhile == [] && a.peers == {} }

  predicate ProperRequest(q: ProvisionRequest) { q.kind != Revoke }

  /** The attempt reaches adapter.open and obtains a grant. */
  predicate Mints(base: Service, q: ProvisionRequest, a: Attempt) {
    var previous := CurrentChannel(base.rows, q.ref.identity);
    && !Stale(base.rows, q.ref) && Find(base.rows, q.ref, q.kind, q.operationId).None? && a.grant.Some?
    && ChosenAdapter(q, previous, a) in a.faults.configured
    && (previous.Some? && previous.value.ref == q.ref ==> PolicyKept(previous.value.response.policy, q.policy))
    && (q.ref.identity.device in base.reserved ==> SameAuthority(q, previous, ChosenAdapter(q, previous, a)))
  }

  function Candidate(base: Service, q: ProvisionRequest, a: Attempt): Row
    requires a.grant.Some?
  {
    GrantRow(q, a.grant.value, ChosenAdapter(q, CurrentChannel(base.rows, q.ref.identity), a), a.now)
  }

  /** The candidate stands on the resource the current channel stands on. */
  predicate Renews(base: Service, q: ProvisionRequest, a: Attempt)
    requires a.grant.Some?
  {
    SameAsRow(Candidate(base, q, a).adapterName, a.grant.value.handle, CurrentChannel(base.rows, q.ref.identity))
  }

  /** The candidate becomes the channel. */
  predicate Takes(base: Service, q: ProvisionRequest, a: Attempt) {
    && Mints(base, q, a) && !a.faults.storeFails
    && (q.ref.identity.device in base.reserved ==> Renews(base, q, a))
    && LiveRowAdmits(base.rows, Candidate(base, q, a),
                     RuntimeRefreshOf(q, CurrentChannel(base.rows, q.ref.identity), a))
  }

  function Opened(base: Service, q: ProvisionRequest, a: Attempt): set<Resource> {
    if Mints(base, q, a) then Named(Candidate(base, q, a).adapterName, a.grant.value.handle) else {}
  }

  /** What an attempt has no use for: nothing if it minted nothing or renews the same resource;
      else the predecessor's resource once the candidate has taken over, and the candidate's own
      when it has not. */
  function Superfluous(base: Service, q: ProvisionRequest, a: Attempt): set<Resource> {
    if !Mints(base, q, a) || Renews(base, q, a) then {}
    else if Takes(base, q, a) then Retained(base.rows, q.ref.identity)
    else Opened(base, q, a)
  }

  /** Nothing keeps the attempt from closing: the adapter of the channel it saw is still configured,
      and stopping and closing do not raise. */
  predicate CanClose(base: Service, q: ProvisionRequest, f: Faults) {
    var previous := CurrentChannel(base.rows, q.ref.identity);
    (previous.Some? ==> previous.value.adapterName in f.configured) && !f.closeFails
  }

  function ProvisionCloses(base: Service, q: ProvisionRequest, a: Attempt): set<Resource> {
    if CanClose(base, q, a.faults) then Superfluous(base, q, a) else {}
  }

  /** The candidate has taken over, but its predecessor cannot be closed: the call fails although
      it committed. */
  predicate Halts(base: Service, q: ProvisionRequest, a: Attempt) {
    Takes(base, q, a) && !Renews(base, q, a) && CurrentChannel(base.rows, q.ref.identity).Some?
    && !CanClose(base, q, a.faults)
  }

  /** The table an attempt leaves: the candidate has taken its identity over, or nothing changed. */
  ghost predicate LeavesRows(base: Service, q: ProvisionRequest, a: Attempt, rows: Table) {
    if !Takes(base, q, a) then rows == base.rows
    else
      && Inv(rows) && Extends(base.rows, rows)
      && |rows| == |base.rows| + 1 && rows[|base.rows|] == Candidate(base, q, a)
      && CurrentChannel(rows, q.ref.identity) == Some(Candidate(base, q, a))
      && (forall id | id != q.ref.identity :: Retained(rows, id) == Retained(base.rows, id))
      && (forall id | id != q.ref.identity :: CurrentAuthority(rows, id) == CurrentAuthority(base.rows, id))
  }

  lemma FreshCreateOutcome(t: Table, value: Row, now: int, runtime: Option<Row>)
    requires Inv(t) && Fresh(t, value)
    ensures var outcome := CreateProvision(t, value, now, runtime).0;
            outcome.Refused? || outcome == Stored(value, false)
  {
    ExpiryKeepsKeys(t, now, value);
    FreshIsNotFound(Expire(t, now), value);
  }

  lemma CandidateIsAnswered(base: Service, value: Row, now: int, runtime: Option<Row>)
    requires Inv(base.rows) && Expire(base.rows, now) == base.rows && NewGrant(value)
    requires Find(base.rows, value.ref, value.kind, value.operationId).None?
    ensures var (outcome, rows) := CreateProvision(base.rows, value, now, runtime);
            if LiveRowAdmits(base.rows, value, runtime) then
              && outcome == Stored(value, false) && Inv(rows) && Extends(base.rows, rows)
              && |rows| == |base.rows| + 1 && rows[|base.rows|] == value
              && CurrentChannel(rows, value.ref.identity) == Some(value)
              && (forall id | id != value.ref.identity :: Retained(rows, id) == Retained(base.rows, id))
              && (forall id | id != value.ref.identity :: CurrentAuthority(rows, id) == CurrentAuthority(base.rows, id))
            else outcome.Refused? && rows == base.rows
  {
    var (outcome, rows) := CreateProvision(base.rows, value, now, runtime);
    FreshIsNotFound(base.rows, value);
    AdmissionDecidedByLiveRow(base.rows, value, now, runtime);
    FreshCreateOutcome(base.rows, value, now, runtime);
    if outcome == Stored(value, false) {
      CreateKeepsInvariant(base.rows, value, now, runtime);
      CommittedGrantTakesOver(base.rows, value, now, runtime);
      CommittedGrantRetains(base.rows, rows, value, now, runtime);
    }
  }

  lemma NothingMinted(base: Service, q: ProvisionRequest, a: Attempt)
    requires !Mints(base, q, a)
    ensures ProvisionOn(base, q, a).1 == base
    ensures Find(base.rows, q.ref, q.kind, q.operationId).None? ==> ProvisionOn(base, q, a).0.Failure?
  {}

  /** A candidate given up, for the error that is there or the one met in closing it. */
  function GivenUp(s: Service, q: ProvisionRequest, a: Attempt, previous: Option<Row>, e: DomainError)
    : (Result<Response>, Service)
    requires a.grant.Some?
  {
    Settle(s, ChosenAdapter(q, previous, a), a.grant.value, previous, Refused(e), a.faults)
  }

  function MintedService(base: Service, q: ProvisionRequest, a: Attempt): Service {
    base.(standing := base.standing + Opened(base, q, a))
  }

  lemma MintedIsCommitted(base: Service, q: ProvisionRequest, a: Attempt)
    requires Mints(base, q, a) && Alone(a)
    ensures var previous := CurrentChannel(base.rows, q.ref.identity);
            ProvisionOn(base, q, a) ==
              if q.ref.identity.device in base.reserved && !Renews(base, q, a) then
                GivenUp(MintedService(base, q, a), q, a, previous, TransportTransitionRequired)
              else CommitGrant(MintedService(base, q, a), q, a, a.grant.value, previous)
  {
    assert base.standing + {} + Opened(base, q, a) == base.standing + Opened(base, q, a);
  }

  /** What an attempt comes to, given what it opened and where it ended. */
  ghost predicate EndsAs(base: Service, q: ProvisionRequest, a: Attempt, result: Result<Response>, after: Service) {
    && after.reserved == base.reserved && LeavesRows(base, q, a, after.rows)
    && after.standing == base.standing + Opened(base, q, a) - ProvisionCloses(base, q, a)
    && (Takes(base, q, a) ==>
          if Halts(base, q, a) then result.Failure? else result == Success(Response(q.policy, a.grant.value.body)))
    && (!Takes(base, q, a) && Find(base.rows, q.ref, q.kind, q.operationId).None? ==> result.Failure?)
  }

  /** A candidate given up: closed if it can be, unless it renews what the current channel stands on. */
  lemma CandidateGivenUp(base: Service, q: ProvisionRequest, a: Attempt, e: DomainError)
    requires Mints(base, q, a) && !Takes(base, q, a)
    ensures var previous := CurrentChannel(base.rows, q.ref.identity);
            var (result, after) := GivenUp(MintedService(base, q, a), q, a, previous, e);
            EndsAs(base, q, a, result, after)
  {
    var minted := MintedService(base, q, a);
    assert base.standing + Opened(base, q, a) - {} == minted.standing;
  }

  lemma TakenStanding(base: Service, q: ProvisionRequest, a: Attempt, rows: Table)
    requires Takes(base, q, a)
    ensures var (result, after) := Settle(MintedService(base, q, a).(rows := rows), Candidate(base, q, a).adapterName,
                                          a.grant.value, CurrentChannel(base.rows, q.ref.identity),
                                          Stored(Candidate(base, q, a), false), a.faults);
            && (if Halts(base, q, a) then result.Failure?
                else result == Success(Response(q.policy, a.grant.value.body)))
            && after == Service(rows, base.standing + Opened(base, q, a) - ProvisionCloses(base, q, a), base.reserved)
  {
    var previous := CurrentChannel(base.rows, q.ref.identity);
    if previous.Some? { assert !SameKey(previous.value, Candidate(base, q, a)); }
    assert base.standing + Opened(base, q, a) - {} == base.standing + Opened(base, q, a);
  }

  /** A candidate taken: its predecessor's resource is closed if it can be, unless the two are one. */
  lemma CandidateTaken(base: Service, q: ProvisionRequest, a: Attempt, rows: Table)
    requires Takes(base, q, a) && LeavesRows(base, q, a, rows)
    ensures var (result, after) := Settle(MintedService(base, q, a).(rows := rows), Candidate(base, q, a).adapterName,
                                          a.grant.value, CurrentChannel(base.rows, q.ref.identity),
                                          Stored(Candidate(base, q, a), false), a.faults);
            EndsAs(base, q, a, result, after)
  {
    TakenStanding(base, q, a, rows);
  }

  lemma CommitEnds(base: Service, q: ProvisionRequest, a: Attempt)
    requires Inv(base.rows) && Expire(base.rows, a.now) == base.rows && ProperRequest(q) && Mints(base, q, a)
    requires q.ref.identity.device in base.reserved ==> Renews(base, q, a)
    ensures var (result, after) := CommitGrant(MintedService(base, q, a), q, a, a.grant.value,
                                               CurrentChannel(base.rows, q.ref.identity));
            EndsAs(base, q, a, result, after)
  {
    var previous := CurrentChannel(base.rows, q.ref.identity);
    var value, runtime := Candidate(base, q, a), RuntimeRefreshOf(q, previous, a);
    if a.faults.storeFails {
      CandidateGivenUp(base, q, a, BackendUnavailable);
    } else {
      var (outcome, rows) := CreateProvision(base.rows, value, a.now, runtime);
      CandidateIsAnswered(base, value, a.now, runtime);
      if Takes(base, q, a) { CandidateTaken(base, q, a, rows); } else { CandidateGivenUp(base, q, a, outcome.error); }
    }
  }

  /** Exactly what one attempt does, decided by the table and the attempt before it: which
      resource it opens and closes, what it leaves in the table, and whether it succeeds. */
  lemma ProvisionEffect(base: Service, q: ProvisionRequest, a: Attempt)
    requires Inv(base.rows) && Expire(base.rows, a.now) == base.rows && ProperRequest(q) && Alone(a)
    ensures EndsAs(base, q, a, ProvisionOn(base, q, a).0, ProvisionOn(base, q, a).1)
  {
    if !Mints(base, q, a) {
      NothingMinted(base, q, a);
    } else {
      MintedIsCommitted(base, q, a);
      if q.ref.identity.device in base.reserved && !Renews(base, q, a) {
        CandidateGivenUp(base, q, a, TransportTransitionRequired);
      } else {
        CommitEnds(base, q, a);
      }
    }
  }

  // -- What a revocation closes ------------------------------------------------------------------

  /** The active row of a reference, when there is one, is the device's current channel. */
  lemma RevokedChannelIsActiveRow(t: Table, ref: DeviceRef)
    requires Inv(t)
    ensures var live := CurrentChannel(t, ref.identity);
            ActiveDevice(t, ref)
            == if live.Some? && live.value.ref == ref && live.value.status == Active then live else None
  {
    var live, active := CurrentChannel(t, ref.identity), ActiveDevice(t, ref);
    if active.Some? {
      var i :| 0 <= i < |t| && t[i] == active.value;
      LiveRowIsCurrentChannel(t, i);
    } else if live.Some? {
      assert live.value in t;
    }
  }

  /** The current channel is active at exactly the revoked generation. */
  predicate RevokesActive(base: Service, v: Revocation) {
    var live := CurrentChannel(base.rows, v.ref.identity);
    live.Some? && live.value.ref == v.ref && live.value.status == Active
  }

  /** It gets past closing: what it has to close, it can. */
  predicate Revokes(base: Service, v: Revocation, f: Faults) {
    && RevocationCommits(base.rows, v) && v.ref.identity.device !in base.reserved
    && (RevokesActive(base, v) ==>
          CurrentChannel(base.rows, v.ref.identity).value.adapterName in f.configured && !f.closeFails)
  }

  function RevokeCloses(base: Service, v: Revocation, f: Faults): set<Resource> {
    if Revokes(base, v, f) && RevokesActive(base, v) then Retained(base.rows, v.ref.identity) else {}
  }

  /** The table a revocation leaves: the device has no channel, or nothing changed. */
  ghost predicate RevokedRows(base: Service, v: Revocation, now: int, f: Faults, rows: Table) {
    if f.storeFails || !Revokes(base, v, f) then rows == base.rows
    else
      && Inv(rows) && Extends(base.rows, rows) && rows == Withdraw(base.rows, v.ref, now) + [RevocationRow(v, now)]
      && CurrentChannel(rows, v.ref.identity).None?
      && (forall id | id != v.ref.identity :: Retained(rows, id) == Retained(base.rows, id))
      && (forall id | id != v.ref.identity :: CurrentAuthority(rows, id) == CurrentAuthority(base.rows, id))
  }

  lemma RevocationRows(base: Service, v: Revocation, now: int, f: Faults)
    requires Inv(base.rows) && Expire(base.rows, now) == base.rows && Revokes(base, v, f) && !f.storeFails
    ensures RevokedRows(base, v, now, f, CompleteRevocation(base.rows, v, now).1)
    ensures CompleteRevocation(base.rows, v, now).0.Stored?
  {
    RevocationRetains(base.rows, CompleteRevocation(base.rows, v, now).1, v, now);
    RevokeKeepsInvariant(base.rows, v, now);
  }

  lemma ClosedByRevocation(base: Service, v: Revocation, f: Faults)
    requires Inv(base.rows) && RevocationCommits(base.rows, v) && v.ref.identity.device !in base.reserved
    ensures CloseActive(base, v.ref, f).1 == base.(standing := base.standing - RevokeCloses(base, v, f))
    ensures CloseActive(base, v.ref, f).0.None? <==> Revokes(base, v, f)
  {
    RevokedChannelIsActiveRow(base.rows, v.ref);
    assert base.standing - {} == base.standing;
  }

  lemma NothingRevoked(base: Service, v: Revocation, now: int, f: Faults)
    requires !RevocationCommits(base.rows, v) || v.ref.identity.device in base.reserved
    ensures RevokeOn(base, v, now, f).1 == base
  {}

  /** Exactly what one revocation does, decided by the table before it. */
  lemma RevokeEffect(base: Service, v: Revocation, now: int, f: Faults)
    requires Inv(base.rows) && Expire(base.rows, now) == base.rows
    ensures var after := RevokeOn(base, v, now, f).1;
            && after.reserved == base.reserved && after.standing == base.standing - RevokeCloses(base, v, f)
            && RevokedRows(base, v, now, f, after.rows)
  {
    if !RevocationCommits(base.rows, v) || v.ref.identity.device in base.reserved {
      NothingRevoked(base, v, now, f);
    } else {
      ClosedByRevocation(base, v, f);
      if Revokes(base, v, f) && !f.storeFails { RevocationRows(base, v, now, f); }
    }
    assert base.standing - {} == base.standing;
  }

  // -- Serving ----------------------------------------------------------------------

  /** A conversation opens iff the exact generation is the active current channel and no scope
      holds the device; a stop is honoured iff that generation is the current channel,
      active or lapsed, reserved or not. */
  lemma ServingFollowsChannel(s: Service, ref: DeviceRef, now: int)
    requires Inv(s.rows)
    ensures var live := CurrentChannel(Expire(s.rows, now), ref.identity);
            var current := live.Some? && live.value.ref == ref;
            && (ConvergeServing(s, ref, true, now).SessionOpened?
                <==> current && live.value.status == Active && ref.identity.device !in s.reserved)
            && (ConvergeServing(s, ref, false, now).SessionClosed? <==> current)
            && (current ==> ConvergeServing(s, ref, false, now) == SessionClosed(live.value))
  {
    ExpiryKeepsInvariant(s.rows, now);
    RevokedChannelIsActiveRow(Expire(s.rows, now), ref);
    var live := CurrentChannel(Expire(s.rows, now), ref.identity);
    if live.Some? {
      CurrentChannelIsLive(Expire(s.rows, now), ref.identity);
    }
  }

  // -- Calls --------------------------------------------------------------------------------------

  datatype Call =
    | ProvisionCall(q: ProvisionRequest, attempt: Attempt)
    | RevokeCall(v: Revocation, now: int, faults: Faults)
    | ReserveCall(devices: set<string>)
    | ReleaseCall(devices: set<string>)

  predicate ProperCall(c: Call) { c.ProvisionCall? ==> ProperRequest(c.q) && Alone(c.attempt) }

  function Perform(s: Service, c: Call): Service {
    match c
    case ProvisionCall(q, a) => ProvisionOnce(s, q, a).1
    case RevokeCall(v, now, f) => RevokeOnce(s, v, now, f).1
    case ReserveCall(devices) => s.(reserved := s.reserved + devices)
    case ReleaseCall(devices) => s.(reserved := s.reserved - devices)
  }

  function PerformAll(s: Service, cs: seq<Call>): Service
    decreases cs
  {
    if cs == [] then s else PerformAll(Perform(s, cs[0]), cs[1..])
  }

  /** Expiry, with which every call begins, moves nothing. */
  lemma ExpiryMovesNothing(s: Service, now: int)
    requires Inv(s.rows)
    ensures Inv(UpTo(s, now).rows) && Extends(s.rows, UpTo(s, now).rows)
    ensures Expire(UpTo(s, now).rows, now) == UpTo(s, now).rows
    ensures forall id :: && Retained(UpTo(s, now).rows, id) == Retained(s.rows, id)
                         && CurrentAuthority(UpTo(s, now).rows, id) == CurrentAuthority(s.rows, id)
    ensures forall r :: Claimed(UpTo(s, now).rows, r) <==> Claimed(s.rows, r)
  {
    ExpiryKeepsInvariant(s.rows, now);
    forall id
      ensures Retained(Expire(s.rows, now), id) == Retained(s.rows, id)
      ensures CurrentAuthority(Expire(s.rows, now), id) == CurrentAuthority(s.rows, id)
    {
      ExpiryRetains(s.rows, now, id);
    }
  }

  // -- Standing: the live rows' resources ----------------------------------------------------------

  /** No current channel of another identity stands on what is closed. */
  ghost predicate SparesOthers(t: Table, id: Identity, closed: set<Resource>) {
    forall other | other != id :: Retained(t, other) !! closed
  }

  /** What a caller could check before the call: it closes no other identity's resource, and a
      revocation that closes something is also committed. */
  ghost predicate Harmless(s: Service, c: Call) {
    match c
    case ProvisionCall(q, a) => SparesOthers(s.rows, q.ref.identity, ProvisionCloses(UpTo(s, a.now), q, a))
    case RevokeCall(v, now, f) =>
      var closed := RevokeCloses(UpTo(s, now), v, f);
      SparesOthers(s.rows, v.ref.identity, closed) && (f.storeFails ==> closed == {})
    case ReserveCall(_) => true
    case ReleaseCall(_) => true
  }

  /** When a call's own device is served and no other's row changes, the invariant is kept
      exactly when nothing of the others is closed. */
  lemma StandingIff(base: Service, after: Service, id: Identity, minted: set<Resource>, closed: set<Resource>)
    requires ServiceInv(base) && Inv(after.rows) && after.standing == base.standing + minted - closed
    requires forall other | other != id :: Retained(after.rows, other) == Retained(base.rows, other)
    requires Retained(after.rows, id) <= after.standing
    ensures ServiceInv(after) <==> SparesOthers(base.rows, id, closed)
  {
    forall other | other != id
      ensures Retained(after.rows, other) <= after.standing <==> Retained(base.rows, other) !! closed
    {}
  }

  lemma OwnResourceStands(base: Service, q: ProvisionRequest, a: Attempt, after: Service)
    requires ServiceInv(base) && LeavesRows(base, q, a, after.rows)
    requires after.standing == base.standing + Opened(base, q, a) - ProvisionCloses(base, q, a)
    ensures Inv(after.rows) && Retained(after.rows, q.ref.identity) <= after.standing
    ensures forall other | other != q.ref.identity :: Retained(after.rows, other) == Retained(base.rows, other)
  {}

  /** A provision attempt leaves every live row's resource standing: its own device's always,
      the others' exactly when it closes none of theirs. */
  lemma ProvisionKeepsStandingIff(s: Service, q: ProvisionRequest, a: Attempt)
    requires ServiceInv(s) && ProperRequest(q) && Alone(a)
    ensures var after := ProvisionOnce(s, q, a).1;
            && Inv(after.rows) && Retained(after.rows, q.ref.identity) <= after.standing
            && (ServiceInv(after) <==> SparesOthers(s.rows, q.ref.identity, ProvisionCloses(UpTo(s, a.now), q, a)))
  {
    var base := UpTo(s, a.now);
    ExpiryMovesNothing(s, a.now);
    ProvisionEffect(base, q, a);
    var after := ProvisionOn(base, q, a).1;
    OwnResourceStands(base, q, a, after);
    StandingIff(base, after, q.ref.identity, Opened(base, q, a), ProvisionCloses(base, q, a));
  }

  /** A revocation leaves every live row's resource standing exactly when it closes no other
      identity's and, if it closes its own, the database takes it. */
  lemma RevokeKeepsStandingIff(s: Service, v: Revocation, now: int, f: Faults)
    requires ServiceInv(s)
    ensures var after, closed := RevokeOnce(s, v, now, f).1, RevokeCloses(UpTo(s, now), v, f);
            && Inv(after.rows)
            && (ServiceInv(after) <==> SparesOthers(s.rows, v.ref.identity, closed) && (f.storeFails ==> closed == {}))
  {
    ExpiryMovesNothing(s, now);
    RevokeOnKeepsStandingIff(UpTo(s, now), v, now, f);
  }

  lemma RevokeOnKeepsStandingIff(base: Service, v: Revocation, now: int, f: Faults)
    requires ServiceInv(base) && Expire(base.rows, now) == base.rows
    ensures var after, closed := RevokeOn(base, v, now, f).1, RevokeCloses(base, v, f);
            && Inv(after.rows)
            && (ServiceInv(after)
                <==> SparesOthers(base.rows, v.ref.identity, closed) && (f.storeFails ==> closed == {}))
  {
    RevokeEffect(base, v, now, f);
    var after, closed := RevokeOn(base, v, now, f).1, RevokeCloses(base, v, f);
    RevokedOwnStandsIff(base, v, now, f, after);
    if f.storeFails ==> closed == {} { StandingIff(base, after, v.ref.identity, {}, closed); }
  }

  lemma RevokedOwnStandsIff(base: Service, v: Revocation, now: int, f: Faults, after: Service)
    requires ServiceInv(base) && RevokedRows(base, v, now, f, after.rows)
    requires after.standing == base.standing - RevokeCloses(base, v, f)
    ensures Inv(after.rows)
    ensures forall other | other != v.ref.identity :: Retained(after.rows, other) == Retained(base.rows, other)
    ensures Retained(after.rows, v.ref.identity) <= after.standing
        <==> (f.storeFails ==> RevokeCloses(base, v, f) == {})
  {}

  lemma CallKeepsStandingIff(s: Service, c: Call)
    requires ServiceInv(s) && ProperCall(c)
    ensures ServiceInv(Perform(s, c)) <==> Harmless(s, c)
  {
    match c
    case ProvisionCall(q, a) => ProvisionKeepsStandingIff(s, q, a);
    case RevokeCall(v, now, f) => RevokeKeepsStandingIff(s, v, now, f);
    case ReserveCall(_) =>
    case ReleaseCall(_) =>
  }

  ghost predicate HarmlessRun(s: Service, cs: seq<Call>)
    decreases cs
  {
    cs == [] || (Harmless(s, cs[0]) && HarmlessRun(Perform(s, cs[0]), cs[1..]))
  }

  /** Along the run, every live row's resource stands after every call. */
  ghost predicate StandsThroughout(s: Service, cs: seq<Call>)
    decreases cs
  {
    ServiceInv(s) && (cs == [] || StandsThroughout(Perform(s, cs[0]), cs[1..]))
  }

  /** Over every run the live rows' resources stand after every call exactly when every call is
      harmless. */
  lemma {:induction false} RunStandsIff(s: Service, cs: seq<Call>)
    requires ServiceInv(s) && forall c | c in cs :: ProperCall(c)
    ensures StandsThroughout(s, cs) <==> HarmlessRun(s, cs)
    decreases cs
  {
    if cs != [] {
      CallKeepsStandingIff(s, cs[0]);
      if Harmless(s, cs[0]) { RunStandsIff(Perform(s, cs[0]), cs[1..]); }
      else { BrokenDoesNotStand(Perform(s, cs[0]), cs[1..]); }
    }
  }

  lemma BrokenDoesNotStand(s: Service, cs: seq<Call>)
    requires !ServiceInv(s)
    ensures !StandsThroughout(s, cs)
  {}

  lemma {:induction false} EndStands(s: Service, cs: seq<Call>)
    requires StandsThroughout(s, cs)
    ensures ServiceInv(PerformAll(s, cs))
    decreases cs
  {
    if cs != [] { EndStands(Perform(s, cs[0]), cs[1..]); }
  }

  // -- Names that tell identities apart -------------------------------------------------------------

  /** Each current channel stands on a resource whose name is its own identity's. */
  ghost predicate OwnNames(t: Table, owner: map<string, Identity>) {
    forall id, r | r in Retained(t, id) :: r.name in owner && owner[r.name] == id
  }

  /** The adapter names the attempt's resource for the attempt's identity. */
  predicate NamesOwn(c: Call, owner: map<string, Identity>) {
    c.ProvisionCall? && c.attempt.grant.Some? && c.attempt.grant.value.handle.resource != "" ==>
      var name := c.attempt.grant.value.handle.resource;
      name in owner && owner[name] == c.q.ref.identity
  }

  lemma OwnNamesSpare(t: Table, owner: map<string, Identity>, id: Identity, closed: set<Resource>)
    requires OwnNames(t, owner) && forall r | r in closed :: r.name in owner && owner[r.name] == id
    ensures SparesOthers(t, id, closed)
  {}

  lemma ProvisionOwnNames(s: Service, q: ProvisionRequest, a: Attempt, owner: map<string, Identity>)
    requires Inv(s.rows) && ProperCall(ProvisionCall(q, a))
    requires OwnNames(s.rows, owner) && NamesOwn(ProvisionCall(q, a), owner)
    ensures OwnNames(ProvisionOnce(s, q, a).1.rows, owner)
    ensures SparesOthers(s.rows, q.ref.identity, ProvisionCloses(UpTo(s, a.now), q, a))
  {
    var base := UpTo(s, a.now);
    ExpiryMovesNothing(s, a.now);
    ProvisionEffect(base, q, a);
    ClosesOwnNames(base, q, a, owner);
    LeavesOwnNames(base, q, a, owner, ProvisionOn(base, q, a).1.rows);
    OwnNamesSpare(s.rows, owner, q.ref.identity, ProvisionCloses(base, q, a));
  }

  lemma ClosesOwnNames(base: Service, q: ProvisionRequest, a: Attempt, owner: map<string, Identity>)
    requires OwnNames(base.rows, owner) && NamesOwn(ProvisionCall(q, a), owner)
    ensures forall r | r in ProvisionCloses(base, q, a) :: r.name in owner && owner[r.name] == q.ref.identity
  {}

  lemma LeavesOwnNames(base: Service, q: ProvisionRequest, a: Attempt, owner: map<string, Identity>, rows: Table)
    requires OwnNames(base.rows, owner) && NamesOwn(ProvisionCall(q, a), owner) && LeavesRows(base, q, a, rows)
    ensures OwnNames(rows, owner)
  {}

  lemma RevokeOwnNames(s: Service, v: Revocation, now: int, f: Faults, owner: map<string, Identity>)
    requires Inv(s.rows) && OwnNames(s.rows, owner)
    ensures OwnNames(RevokeOnce(s, v, now, f).1.rows, owner)
    ensures SparesOthers(s.rows, v.ref.identity, RevokeCloses(UpTo(s, now), v, f))
  {
    ExpiryMovesNothing(s, now);
    RevokeEffect(UpTo(s, now), v, now, f);
    OwnNamesSpare(s.rows, owner, v.ref.identity, RevokeCloses(UpTo(s, now), v, f));
  }

  /** If resource names tell identities apart, as the design says they do, no run without a
      revocation the database fails to take ever closes a live row's resource. */
  lemma {:induction false} DistinctNamesAreHarmless(s: Service, cs: seq<Call>, owner: map<string, Identity>)
    requires ServiceInv(s) && OwnNames(s.rows, owner)
    requires forall c | c in cs :: ProperCall(c) && NamesOwn(c, owner) && (c.RevokeCall? ==> !c.faults.storeFails)
    ensures HarmlessRun(s, cs) && ServiceInv(PerformAll(s, cs)) && OwnNames(PerformAll(s, cs).rows, owner)
    decreases cs
  {
    if cs != [] {
      match cs[0] {
        case ProvisionCall(q, a) => ProvisionOwnNames(s, q, a, owner);
        case RevokeCall(v, now, f) => RevokeOwnNames(s, v, now, f, owner);
        case ReserveCall(_) =>
        case ReleaseCall(_) =>
      }
      CallKeepsStandingIff(s, cs[0]);
      DistinctNamesAreHarmless(Perform(s, cs[0]), cs[1..], owner);
    }
  }

  // -- Orphans: resources no live row names -----------------------------------------------------

  /** A revocation that commits but closes nothing: the device's channel is live, stands on a
      resource no other device's channel stands on, yet is not active at exactly the revoked
      generation. */
  ghost predicate Leaks(s: Service, v: Revocation, now: int, f: Faults) {
    var base := UpTo(s, now);
    && Revokes(base, v, f) && !f.storeFails && !RevokesActive(base, v)
    && exists r :: r in Retained(s.rows, v.ref.identity) && !ClaimedElsewhere(s.rows, v.ref.identity, r)
  }

  /** Another identity's current channel stands on the resource. */
  ghost predicate ClaimedElsewhere(t: Table, id: Identity, r: Resource) {
    exists other :: other != id && r in Retained(t, other)
  }

  /** Who claims a resource once one identity's channel may have gone and no other's has. */
  lemma ClaimsWithout(t: Table, u: Table, id: Identity, r: Resource)
    requires forall other | other != id :: Retained(u, other) == Retained(t, other)
    ensures Claimed(t, r) <==> ClaimedElsewhere(t, id, r) || r in Retained(t, id)
    ensures Claimed(u, r) <==> ClaimedElsewhere(t, id, r) || r in Retained(u, id)
  {
    if ClaimedElsewhere(t, id, r) {
      var other :| other != id && r in Retained(t, other);
      assert r in Retained(u, other);
    }
  }

  /** What an attempt leaves standing that no live row names: what it had no use for but could not
      close, unless another identity's channel stands on it. */
  ghost function Leftover(s: Service, q: ProvisionRequest, a: Attempt): set<Resource> {
    var base := UpTo(s, a.now);
    if CanClose(base, q, a.faults) then {}
    else set r | r in Superfluous(base, q, a) && !ClaimedElsewhere(s.rows, q.ref.identity, r)
  }

  /** Exactly what a provision attempt adds to the orphans, however it ends: nothing if it can
      close what it has no use for, else that. */
  lemma ProvisionOrphansExactly(s: Service, q: ProvisionRequest, a: Attempt)
    requires Inv(s.rows) && ProperRequest(q) && Alone(a)
    ensures var after := ProvisionOnce(s, q, a).1;
            && Orphans(after) <= Orphans(s) + Leftover(s, q, a)
            && (ServiceInv(s) ==> Leftover(s, q, a) <= Orphans(after))
  {
    var base, id := UpTo(s, a.now), q.ref.identity;
    ExpiryMovesNothing(s, a.now);
    ProvisionEffect(base, q, a);
    var after := ProvisionOn(base, q, a).1;
    forall r ensures ProvidedAsClaimed(s, q, a, after, r) {
      ProvidedIsClaimed(s, q, a, after, r);
    }
    forall r ensures r in Orphans(after) ==> r in Orphans(s) + Leftover(s, q, a) {
      assert ProvidedAsClaimed(s, q, a, after, r);
      SuperfluousOrNot(base, q, a, r);
    }
    forall r | ServiceInv(s) && r in Leftover(s, q, a) ensures r in Orphans(after) {
      assert ProvidedAsClaimed(s, q, a, after, r);
      SuperfluousOrNot(base, q, a, r);
      assert Retained(s.rows, id) <= s.standing;
    }
  }

  /** One resource across an attempt, in terms of who claims it. */
  ghost predicate ProvidedAsClaimed(s: Service, q: ProvisionRequest, a: Attempt, after: Service, r: Resource) {
    var base, id := UpTo(s, a.now), q.ref.identity;
    && (Claimed(s.rows, r) <==> ClaimedElsewhere(s.rows, id, r) || r in Retained(s.rows, id))
    && (Claimed(after.rows, r) <==>
          ClaimedElsewhere(s.rows, id, r)
          || r in (if Takes(base, q, a) then Opened(base, q, a) else Retained(s.rows, id)))
  }

  lemma ProvidedIsClaimed(s: Service, q: ProvisionRequest, a: Attempt, after: Service, r: Resource)
    requires forall id :: Retained(UpTo(s, a.now).rows, id) == Retained(s.rows, id)
    requires LeavesRows(UpTo(s, a.now), q, a, after.rows)
    ensures ProvidedAsClaimed(s, q, a, after, r)
  {
    ClaimsWithout(s.rows, after.rows, q.ref.identity, r);
  }

  /** What a minted candidate and the channel before it stand on is the same, or superfluous once. */
  lemma SuperfluousOrNot(base: Service, q: ProvisionRequest, a: Attempt, r: Resource)
    ensures var kept := if Takes(base, q, a) then Opened(base, q, a) else Retained(base.rows, q.ref.identity);
            && (r in Superfluous(base, q, a) ==> r !in kept)
            && (r in Superfluous(base, q, a) ==> r in Retained(base.rows, q.ref.identity) + Opened(base, q, a))
            && (r in Opened(base, q, a) + Retained(base.rows, q.ref.identity) && r !in kept
                ==> r in Superfluous(base, q, a))
  {}

  /** Exactly what a revocation adds to the orphans: the live row's own resource, precisely when
      that row is lapsed or of another generation and no other device's channel stands on it. */
  lemma RevokeOrphansExactly(s: Service, v: Revocation, now: int, f: Faults)
    requires Inv(s.rows)
    ensures var after := RevokeOnce(s, v, now, f).1;
            var leaked := if Leaks(s, v, now, f) then Retained(s.rows, v.ref.identity) else {};
            Orphans(after) <= Orphans(s) + leaked && (ServiceInv(s) ==> Orphans(after) == Orphans(s) + leaked)
  {
    var base, id := UpTo(s, now), v.ref.identity;
    ExpiryMovesNothing(s, now);
    RevokeEffect(base, v, now, f);
    var after := RevokeOn(base, v, now, f).1;
    assert Revokes(base, v, f) && !f.storeFails ==> Retained(after.rows, id) == {};
    assert !(Revokes(base, v, f) && !f.storeFails) ==> Retained(after.rows, id) == Retained(s.rows, id);
    forall r ensures RevokedAsClaimed(s, v, now, f, after, r) { ClaimsWithout(s.rows, after.rows, id, r); }
    OrphansFollow(s, v, now, f, after);
  }

  /** One resource across a revocation, in terms of who claims it. */
  ghost predicate RevokedAsClaimed(s: Service, v: Revocation, now: int, f: Faults, after: Service, r: Resource) {
    var id := v.ref.identity;
    && (Claimed(s.rows, r) <==> ClaimedElsewhere(s.rows, id, r) || r in Retained(s.rows, id))
    && (Claimed(after.rows, r) <==>
          ClaimedElsewhere(s.rows, id, r)
          || (!(Revokes(UpTo(s, now), v, f) && !f.storeFails) && r in Retained(s.rows, id)))
  }

  lemma OrphansFollow(s: Service, v: Revocation, now: int, f: Faults, after: Service)
    requires var base := UpTo(s, now);
             && Retained(base.rows, v.ref.identity) == Retained(s.rows, v.ref.identity)
             && after.standing == s.standing - RevokeCloses(base, v, f)
    requires forall r :: RevokedAsClaimed(s, v, now, f, after, r)
    ensures var leaked := if Leaks(s, v, now, f) then Retained(s.rows, v.ref.identity) else {};
            Orphans(after) <= Orphans(s) + leaked && (ServiceInv(s) ==> Orphans(after) == Orphans(s) + leaked)
  {
    var id := v.ref.identity;
    var leaked := if Leaks(s, v, now, f) then Retained(s.rows, id) else {};
    forall r ensures r in Orphans(after) ==> r in Orphans(s) + leaked {
      assert RevokedAsClaimed(s, v, now, f, after, r);
    }
    forall r | ServiceInv(s) && r in Orphans(s) + leaked ensures r in Orphans(after) {
      assert RevokedAsClaimed(s, v, now, f, after, r);
    }
  }

  /** The call leaves a resource standing that no live row names any more. */
  ghost predicate LeaksOn(s: Service, c: Call) {
    match c
    case ProvisionCall(q, a) => Leftover(s, q, a) != {}
    case RevokeCall(v, now, f) => Leaks(s, v, now, f)
    case ReserveCall(_) => false
    case ReleaseCall(_) => false
  }

  /** No call of the run does. */
  ghost predicate LeakFree(s: Service, cs: seq<Call>)
    decreases cs
  {
    || cs == []
    || (!LeaksOn(s, cs[0]) && LeakFree(Perform(s, cs[0]), cs[1..]))
  }

  lemma CallExtendsRows(s: Service, c: Call)
    requires Inv(s.rows) && ProperCall(c)
    ensures Inv(Perform(s, c).rows) && Extends(s.rows, Perform(s, c).rows)
  {
    match c
    case ProvisionCall(q, a) =>
      ExpiryMovesNothing(s, a.now);
      ProvisionEffect(UpTo(s, a.now), q, a);
      if Takes(UpTo(s, a.now), q, a) { ExtendsCompose(s.rows, UpTo(s, a.now).rows, Perform(s, c).rows); }
    case RevokeCall(v, now, f) =>
      ExpiryMovesNothing(s, now);
      RevokeEffect(UpTo(s, now), v, now, f);
      if Revokes(UpTo(s, now), v, f) && !f.storeFails { ExtendsCompose(s.rows, UpTo(s, now).rows, Perform(s, c).rows); }
    case ReserveCall(_) => ExtendsItself(s.rows);
    case ReleaseCall(_) => ExtendsItself(s.rows);
  }

  /** Over every run: the table only grows and stays lawful; without a leaking call no orphan is
      ever added. */
  lemma {:induction false} RunConserves(s: Service, cs: seq<Call>)
    requires Inv(s.rows) && forall c | c in cs :: ProperCall(c)
    ensures Inv(PerformAll(s, cs).rows) && Extends(s.rows, PerformAll(s, cs).rows)
    ensures LeakFree(s, cs) ==> Orphans(PerformAll(s, cs)) <= Orphans(s)
    decreases cs
  {
    if cs == [] {
      ExtendsItself(s.rows);
    } else {
      var c, t := cs[0], Perform(s, cs[0]);
      CallExtendsRows(s, c);
      if c.ProvisionCall? { ProvisionOrphansExactly(s, c.q, c.attempt); }
      if c.RevokeCall? { RevokeOrphansExactly(s, c.v, c.now, c.faults); }
      RunConserves(t, cs[1..]);
      ExtendsCompose(s.rows, t.rows, PerformAll(t, cs[1..]).rows);
    }
  }

  /** From an empty service, over every run of harmless calls none of which leaks, what
      stands is exactly what the current channels name. */
  lemma StandingIsExactlyClaimed(reserved: set<string>, cs: seq<Call>, r: Resource)
    requires forall c | c in cs :: ProperCall(c)
    requires LeakFree(Service([], {}, reserved), cs) && HarmlessRun(Service([], {}, reserved), cs)
    ensures var s := PerformAll(Service([], {}, reserved), cs);
            r in s.standing <==> Claimed(s.rows, r)
  {
    var empty := Service([], {}, reserved);
    var s := PerformAll(empty, cs);
    RunConserves(empty, cs);
    RunStandsIff(empty, cs);
    EndStands(empty, cs);
    assert Orphans(empty) == {};
    if r in s.standing { assert r !in Orphans(s); }
  }

  // -- Reserved devices ---------------------------------------------------------------------------

  /** While a device is reserved, no provision changes what its channel authorises or the
      resource it stands on: only a renewal of the same authority commits. */
  lemma ReservedProvisionKeepsAuthority(s: Service, q: ProvisionRequest, a: Attempt, id: Identity)
    requires Inv(s.rows) && ProperRequest(q) && Alone(a) && id.device in s.reserved
    ensures CurrentAuthority(ProvisionOnce(s, q, a).1.rows, id) == CurrentAuthority(s.rows, id)
  {
    ExpiryMovesNothing(s, a.now);
    ProvisionEffect(UpTo(s, a.now), q, a);
  }

  /** While a device is reserved no revocation of it commits and none closes anything: the call
      only applies expiry, and succeeds only by repeating a recorded answer. */
  lemma ReservedRevokeOnlyExpires(s: Service, v: Revocation, now: int, f: Faults)
    requires v.ref.identity.device in s.reserved
    ensures RevokeOnce(s, v, now, f).1 == UpTo(s, now)
    ensures RevokeOnce(s, v, now, f).0.Success? ==> Find(UpTo(s, now).rows, v.ref, Revoke, v.operationId).Some?
  {}

  lemma ReservedRevokeKeepsAuthority(s: Service, v: Revocation, now: int, f: Faults, id: Identity)
    requires Inv(s.rows) && id.device in s.reserved
    ensures CurrentAuthority(RevokeOnce(s, v, now, f).1.rows, id) == CurrentAuthority(s.rows, id)
  {
    ExpiryMovesNothing(s, now);
    RevokeEffect(UpTo(s, now), v, now, f);
  }

  lemma AuthorityRetains(t: Table, u: Table, id: Identity)
    requires CurrentAuthority(t, id) == CurrentAuthority(u, id)
    ensures Retained(t, id) == Retained(u, id)
  {}

  /** As long as no release names the device, no run of calls changes what its channel
      authorises, at which generation, or the resource it names. */
  lemma {:induction false} ReservationFreezesAuthority(s: Service, cs: seq<Call>, id: Identity)
    requires Inv(s.rows) && forall c | c in cs :: ProperCall(c)
    requires id.device in s.reserved
    requires forall c | c in cs && c.ReleaseCall? :: id.device !in c.devices
    ensures CurrentAuthority(PerformAll(s, cs).rows, id) == CurrentAuthority(s.rows, id)
    ensures Retained(PerformAll(s, cs).rows, id) == Retained(s.rows, id)
    decreases cs
  {
    if cs != [] {
      var c := cs[0];
      CallExtendsRows(s, c);
      if c.ProvisionCall? {
        ReservedProvisionKeepsAuthority(s, c.q, c.attempt, id);
      } else if c.RevokeCall? {
        ReservedRevokeKeepsAuthority(s, c.v, c.now, c.faults, id);
      }
      CallKeepsReservation(s, c, id.device);
      ReservationFreezesAuthority(Perform(s, c), cs[1..], id);
    }
    AuthorityRetains(s.rows, PerformAll(s, cs).rows, id);
  }

  lemma CallKeepsReservation(s: Service, c: Call, device: string)
    requires Inv(s.rows) && ProperCall(c) && device in s.reserved && (c.ReleaseCall? ==> device !in c.devices)
    ensures device in Perform(s, c).reserved
  {
    match c
    case ProvisionCall(q, a) =>
      ExpiryMovesNothing(s, a.now);
      ProvisionEffect(UpTo(s, a.now), q, a);
    case RevokeCall(v, now, f) =>
      ExpiryMovesNothing(s, now);
      RevokeEffect(UpTo(s, now), v, now, f);
    case ReserveCall(_) =>
    case ReleaseCall(_) =>
  }
}
