/** What a caller of the service is answered: a grant, a revocation or a conversation asked for, and
    an operation retried after anything else has happened. */
module ServiceAnswers {
  import opened Contracts
  import opened OperationLedger
  import opened LedgerHistory
  import opened LedgerGuarantees
  import opened LedgerAnswers
  import opened TransportResources
  import opened ResourceConservation

  // -- Retry ---------------------------------------------------------------------------

  predicate SameOperation(p: ProvisionRequest, q: ProvisionRequest) {
    p.ref == q.ref && p.kind == q.kind && p.operationId == q.operationId
  }

  /** The answer to an operation that is on record as `row`. */
  ghost function RetryAnswer(t: Table, retry: ProvisionRequest, fingerprint: string, response: Response, row: Row)
    : Result<Response>
  {
    if Outdated(t, retry.ref) then Failure(StaleGeneration)
    else if retry.fingerprint != fingerprint then Failure(IdempotencyConflict)
    else if CurrentChannel(t, retry.ref.identity) == Some(row) then Success(response)
    else Failure(InvalidTransition)
  }

  /** A committed provision retried after any further calls only applies expiry: nothing is
      opened, closed or recorded. It gets the response stored the first time while its row still
      is the device's channel and is refused once that row has been superseded or revoked; with
      other content, or below a newer generation, it is always refused. */
  lemma RetriedProvisionIsAnswered(s: Service, q: ProvisionRequest, a: Attempt, cs: seq<Call>,
                                   retry: ProvisionRequest, b: Attempt)
    requires Inv(s.rows) && ProperRequest(q) && Alone(a) && Takes(UpTo(s, a.now), q, a)
    requires forall c | c in cs :: ProperCall(c)
    requires SameOperation(retry, q)
    ensures var u := PerformAll(ProvisionOnce(s, q, a).1, cs);
            var t := UpTo(u, b.now).rows;
            var row := Find(t, q.ref, q.kind, q.operationId);
            && ProvisionOnce(u, retry, b).1 == UpTo(u, b.now)
            && row.Some? && row.value.fingerprint == q.fingerprint
            && row.value.response == Response(q.policy, a.grant.value.body)
            && ProvisionOnce(u, retry, b).0
               == RetryAnswer(t, retry, q.fingerprint, Response(q.policy, a.grant.value.body), row.value)
  {
    var base := UpTo(s, a.now);
    ExpiryMovesNothing(s, a.now);
    ProvisionEffect(base, q, a);
    var first := ProvisionOnce(s, q, a).1;
    var value := Candidate(base, q, a);
    RunConserves(first, cs);
    var u := PerformAll(first, cs);
    ExpiryMovesNothing(u, b.now);
    ExtendsCompose(first.rows, u.rows, UpTo(u, b.now).rows);
    RecordedRowStays(first.rows, UpTo(u, b.now).rows, value);
    RecordedIsAnswered(UpTo(u, b.now), retry, b, value);
  }

  /** A row once recorded is found under its key for good, with its stamp unchanged. */
  lemma RecordedRowStays(t: Table, u: Table, r: Row)
    requires Inv(u) && Extends(t, u) && r in t
    ensures Find(u, r.ref, r.kind, r.operationId).Some? && SameStamp(r, Find(u, r.ref, r.kind, r.operationId).value)
  {
    var i :| 0 <= i < |t| && t[i] == r;
    assert Moves(t[i], u[..|t|][i]);
    FindReturnsRecorded(u, i);
  }

  /** A grant on record that is not stale has ended, or is its device's channel. */
  lemma RecordedIsAnswered(base: Service, retry: ProvisionRequest, b: Attempt, r: Row)
    requires Inv(base.rows) && IsGrant(r) && retry.ref == r.ref && retry.kind == r.kind
    requires retry.operationId == r.operationId
    requires var found := Find(base.rows, r.ref, r.kind, r.operationId); found.Some? && SameStamp(r, found.value)
    ensures var found := Find(base.rows, r.ref, r.kind, r.operationId).value;
            ProvisionOn(base, retry, b) == (RetryAnswer(base.rows, retry, r.fingerprint, r.response, found), base)
  {
    GrantIsChannelIffLive(base.rows, Find(base.rows, r.ref, r.kind, r.operationId).value);
    StaleIsOutdated(base.rows, retry.ref);
    RecordedByStatus(base, retry, b);
  }

  lemma RecordedByStatus(base: Service, retry: ProvisionRequest, b: Attempt)
    requires Find(base.rows, retry.ref, retry.kind, retry.operationId).Some?
    ensures var found := Find(base.rows, retry.ref, retry.kind, retry.operationId).value;
            ProvisionOn(base, retry, b) == (
              if Stale(base.rows, retry.ref) then Failure(StaleGeneration)
              else if retry.fingerprint != found.fingerprint then Failure(IdempotencyConflict)
              else if found.status == Fenced || found.status == Revoked then Failure(InvalidTransition)
              else Success(found.response), base)
  {}

  lemma GrantIsChannelIffLive(t: Table, r: Row)
    requires Inv(t) && r in t && IsGrant(r)
    ensures CurrentChannel(t, r.ref.identity) == Some(r) <==> Live(r)
    ensures !Live(r) <==> r.status == Fenced || r.status == Revoked
  {
    var i :| 0 <= i < |t| && t[i] == r;
    assert RowOk(t[i]);
    if Live(r) { LiveRowIsCurrentChannel(t, i); }
  }

  // -- Revocation ----------------------------------------------------------------------------

  /** A first revocation is refused below a newer generation, while a scene or shared visit holds
      the device, or when its active channel cannot be closed or the database fails; otherwise it
      succeeds with its own response, its row recorded and the device left without a channel. */
  lemma RevocationIsAnswered(s: Service, v: Revocation, now: int, f: Faults)
    requires Inv(s.rows) && UnrecordedRevocation(UpTo(s, now).rows, v)
    ensures var t := UpTo(s, now).rows;
            var (result, after) := RevokeOnce(s, v, now, f);
            if Outdated(t, v.ref) then result == Failure(StaleGeneration) && after == UpTo(s, now)
            else if v.ref.identity.device in s.reserved then
              result == Failure(TransportTransitionRequired) && after == UpTo(s, now)
            else if exists r :: r in t && r.ref == v.ref && r.status == Active && r.adapterName !in f.configured then
              result == Failure(NoAdapterAvailable) && after == UpTo(s, now)
            else if (exists r :: r in t && r.ref == v.ref && r.status == Active) && f.closeFails then
              result == Failure(BackendUnavailable) && after == UpTo(s, now)
            else if f.storeFails then result == Failure(BackendUnavailable) && after.rows == t
            else
              && result == Success(Response(None, v.body)) && CurrentChannel(after.rows, v.ref.identity).None?
              && exists r :: r in after.rows && RecordsRevocation(r, v)
  {
    var base := UpTo(s, now);
    ExpiryMovesNothing(s, now);
    StaleIsOutdated(base.rows, v.ref);
    if !Stale(base.rows, v.ref) && v.ref.identity.device !in s.reserved {
      ActiveRowIsFound(base.rows, v.ref);
      AdmittedRevocationIsAnswered(base, v, now, f);
    }
  }

  lemma AdmittedRevocationIsAnswered(base: Service, v: Revocation, now: int, f: Faults)
    requires Inv(base.rows) && Expire(base.rows, now) == base.rows && UnrecordedRevocation(base.rows, v)
    requires !Stale(base.rows, v.ref) && v.ref.identity.device !in base.reserved
    ensures var active := ActiveDevice(base.rows, v.ref);
            var (result, after) := RevokeOn(base, v, now, f);
            if active.Some? && active.value.adapterName !in f.configured then
              result == Failure(NoAdapterAvailable) && after == base
            else if active.Some? && f.closeFails then result == Failure(BackendUnavailable) && after == base
            else if f.storeFails then result == Failure(BackendUnavailable) && after.rows == base.rows
            else
              && result == Success(Response(None, v.body)) && CurrentChannel(after.rows, v.ref.identity).None?
              && exists r :: r in after.rows && RecordsRevocation(r, v)
  {
    NewRevocationIsLast(base.rows, v, now);
    RevokedDeviceHasNoChannelNow(base, v, now);
    var row := RevocationRow(v, now);
    assert row in Withdraw(base.rows, v.ref, now) + [row] && RecordsRevocation(row, v);
  }

  lemma RevokedDeviceHasNoChannelNow(base: Service, v: Revocation, now: int)
    requires Inv(base.rows) && Expire(base.rows, now) == base.rows && RevocationCommits(base.rows, v)
    ensures CurrentChannel(CompleteRevocation(base.rows, v, now).1, v.ref.identity).None?
  {
    RevocationRetains(base.rows, CompleteRevocation(base.rows, v, now).1, v, now);
  }

  lemma ActiveRowIsFound(t: Table, ref: DeviceRef)
    requires Inv(t)
    ensures var active := ActiveDevice(t, ref);
            && (active.Some? <==> exists r :: r in t && r.ref == ref && r.status == Active)
            && (forall r | r in t && r.ref == ref && r.status == Active :: active == Some(r))
  {
    forall r | r in t && r.ref == ref && r.status == Active ensures ActiveDevice(t, ref) == Some(r) {
      var i :| 0 <= i < |t| && t[i] == r;
      LiveRowIsCurrentChannel(t, i);
    }
  }

  /** A revocation that committed, repeated after any further calls, only applies expiry: nothing is
      closed or recorded again. It gets its first response back; with other content it is a
      conflict, and below a newer generation outdated. */
  lemma RetriedRevocationIsAnswered(s: Service, v: Revocation, now: int, f: Faults, cs: seq<Call>,
                                    retry: Revocation, later: int, g: Faults)
    requires Inv(s.rows) && Revokes(UpTo(s, now), v, f) && !f.storeFails
    requires forall c | c in cs :: ProperCall(c)
    requires retry.ref == v.ref && retry.operationId == v.operationId
    ensures var u := PerformAll(RevokeOnce(s, v, now, f).1, cs);
            RevokeOnce(u, retry, later, g)
            == (if Outdated(UpTo(u, later).rows, v.ref) then Failure(StaleGeneration)
                else if retry.fingerprint != v.fingerprint then Failure(IdempotencyConflict)
                else Success(Response(None, v.body)), UpTo(u, later))
  {
    var first := RevokeOnce(s, v, now, f).1;
    ExpiryMovesNothing(s, now);
    RevokeEffect(UpTo(s, now), v, now, f);
    var row := RevocationRow(v, now);
    assert first.rows[|first.rows| - 1] == row && row in first.rows;
    RunConserves(first, cs);
    var u := PerformAll(first, cs);
    ExpiryMovesNothing(u, later);
    ExtendsCompose(first.rows, u.rows, UpTo(u, later).rows);
    RecordedRowStays(first.rows, UpTo(u, later).rows, row);
    StaleIsOutdated(UpTo(u, later).rows, v.ref);
  }

  // -- Provision and refresh -------------------------------------------------------------------

  /** A new operation, asked of a lone process in which no adapter, database or close fails. */
  predicate Undisturbed(base: Service, q: ProvisionRequest, a: Attempt) {
    var previous := CurrentChannel(base.rows, q.ref.identity);
    && Find(base.rows, q.ref, q.kind, q.operationId).None?
    && Alone(a) && a.grant.Some? && !a.faults.storeFails && !a.faults.closeFails
    && (previous.Some? ==> previous.value.adapterName in a.faults.configured)
    && (q.kind != Refresh || previous.None? ==> a.selected in a.faults.configured)
  }

  /** The row a request and its grant make, at an adapter. */
  predicate MadeFor(r: Row, q: ProvisionRequest, g: Grant, adapter: string, now: int) {
    && r.operationId == q.operationId && r.kind == q.kind && r.fingerprint == q.fingerprint && r.ref == q.ref
    && r.ownerId == q.ownerId && r.manifestRevision == q.manifestRevision && r.adapterName == adapter
    && r.handle == g.handle && r.channelId == g.channelId && r.response == Response(q.policy, g.body)
    && r.expiresAt == g.expiresAt && r.status == Active && r.terminalReason == ""
    && r.createdAt == now && r.updatedAt == now
  }

  /** The request succeeded: its response is given, and its grant is the device's channel. */
  predicate Granted(result: Result<Response>, after: Service, q: ProvisionRequest, a: Attempt, adapter: string)
    requires a.grant.Some?
  {
    var channel := CurrentChannel(after.rows, q.ref.identity);
    && result == Success(Response(q.policy, a.grant.value.body))
    && channel.Some? && MadeFor(channel.value, q, a.grant.value, adapter, a.now)
  }

  /** A minted candidate whose attempt can close what it must is answered as the ledger decides. */
  lemma MintedIsAnswered(base: Service, q: ProvisionRequest, a: Attempt)
    requires Inv(base.rows) && Expire(base.rows, a.now) == base.rows && ProperRequest(q)
    requires Undisturbed(base, q, a) && Mints(base, q, a)
    requires q.ref.identity.device in base.reserved ==> Renews(base, q, a)
    ensures var value := Candidate(base, q, a);
            var runtime := RuntimeRefreshOf(q, CurrentChannel(base.rows, q.ref.identity), a);
            var outcome := CreateProvision(base.rows, value, a.now, runtime).0;
            var (result, after) := ProvisionOn(base, q, a);
            && (outcome.Refused? ==> result == Failure(outcome.error))
            && (outcome == Stored(value, false) ==> Granted(result, after, q, a, value.adapterName))
  {
    MintedIsCommitted(base, q, a);
    ProvisionEffect(base, q, a);
    var value := Candidate(base, q, a);
    FreshIsNotFound(base.rows, value);
    var channel := CurrentChannel(base.rows, q.ref.identity);
    AdmissionDecidedByLiveRow(base.rows, value, a.now, RuntimeRefreshOf(q, channel, a));
    RefusalIsPassedOn(MintedService(base, q, a), q, a, a.grant.value, channel);
  }

  lemma RefusalIsPassedOn(minted: Service, q: ProvisionRequest, a: Attempt, g: Grant, previous: Option<Row>)
    requires !a.faults.storeFails && !a.faults.closeFails
    requires previous.Some? ==> previous.value.adapterName in a.faults.configured
    ensures var value := GrantRow(q, g, ChosenAdapter(q, previous, a), a.now);
            var outcome := CreateProvision(minted.rows, value, a.now, RuntimeRefreshOf(q, previous, a)).0;
            outcome.Refused? ==> CommitGrant(minted, q, a, g, previous).0 == Failure(outcome.error)
  {}

  lemma CandidateIsUnrecorded(base: Service, q: ProvisionRequest, a: Attempt)
    requires Find(base.rows, q.ref, q.kind, q.operationId).None? && a.grant.Some?
    ensures Unrecorded(base.rows, Candidate(base, q, a))
  {}

  /** What a request meets before anything is opened. */
  lemma UnmintedIsAnswered(base: Service, q: ProvisionRequest, a: Attempt)
    requires Undisturbed(base, q, a)
    ensures var previous := CurrentChannel(base.rows, q.ref.identity);
            var (result, after) := ProvisionOn(base, q, a);
            if Outdated(base.rows, q.ref) then result == Failure(StaleGeneration) && after == base
            else if previous.Some? && previous.value.ref == q.ref
                    && TakesBack(previous.value.response.policy, q.policy) then
              result == Failure(InvalidTransition) && after == base
            else if q.ref.identity.device in base.reserved && !SameAuthorityAsked(q, previous) then
              result == Failure(TransportTransitionRequired) && after == base
            else Mints(base, q, a)
  {
    StaleIsOutdated(base.rows, q.ref);
    var previous := CurrentChannel(base.rows, q.ref.identity);
    if previous.Some? { KeptOrTakenBack(previous.value.response.policy, q.policy); }
  }

  /** A refresh of exactly the channel the device has, for the same owner, Manifest and policy. */
  predicate SameAuthorityAsked(q: ProvisionRequest, previous: Option<Row>) {
    && q.kind == Refresh && previous.Some? && previous.value.ref == q.ref && previous.value.ownerId == q.ownerId
    && previous.value.manifestRevision == q.manifestRevision && previous.value.response.policy == q.policy
  }

  /** A provision is outdated below a newer generation, an invalid transition if its generation
      already has a row or it takes a policy back, and must wait while the device is reserved;
      otherwise it is granted at the selected adapter. */
  lemma ProvisionIsAnswered(s: Service, q: ProvisionRequest, a: Attempt)
    requires Inv(s.rows) && q.kind == Provision && Undisturbed(UpTo(s, a.now), q, a)
    ensures var base := UpTo(s, a.now);
            var previous := CurrentChannel(base.rows, q.ref.identity);
            var (result, after) := ProvisionOnce(s, q, a);
            if Outdated(base.rows, q.ref) then result == Failure(StaleGeneration)
            else if previous.Some? && previous.value.ref == q.ref
                    && TakesBack(previous.value.response.policy, q.policy) then result == Failure(InvalidTransition)
            else if q.ref.identity.device in s.reserved then result == Failure(TransportTransitionRequired)
            else if exists r :: r in base.rows && r.ref == q.ref then result == Failure(InvalidTransition)
            else Granted(result, after, q, a, a.selected)
  {
    var base := UpTo(s, a.now);
    ExpiryMovesNothing(s, a.now);
    UnmintedIsAnswered(base, q, a);
    if Mints(base, q, a) && q.ref.identity.device !in base.reserved {
      var runtime := RuntimeRefreshOf(q, CurrentChannel(base.rows, q.ref.identity), a);
      MintedIsAnswered(base, q, a);
      CandidateIsUnrecorded(base, q, a);
      ProvisionCommitsIff(base.rows, Candidate(base, q, a), a.now, runtime);
    }
  }

  /** A refresh of a device's channel at exactly its reference stays on that channel's adapter. It
      is an invalid transition if it takes a policy back; while the device is reserved it must wait
      unless it keeps the whole authority and its grant the resource; and it is granted exactly if
      the channel has lapsed or the Manifest, the policy or what the adapter sees of it has moved
      on, else an invalid transition. */
  lemma RefreshIsAnswered(s: Service, q: ProvisionRequest, a: Attempt, l: Row)
    requires Inv(s.rows) && q.kind == Refresh && Undisturbed(UpTo(s, a.now), q, a)
    requires CurrentChannel(UpTo(s, a.now).rows, q.ref.identity) == Some(l) && l.ref == q.ref
    ensures var (result, after) := ProvisionOnce(s, q, a);
            var resource := a.grant.value.handle.resource;
            var stale := || l.status == Expired || l.manifestRevision != q.manifestRevision || !a.bindingCurrent
                         || (q.policy.Some? && q.policy.value.revision > Revision(l.response.policy));
            if TakesBack(l.response.policy, q.policy) then result == Failure(InvalidTransition)
            else if q.ref.identity.device in s.reserved
                    && (!SameAuthorityAsked(q, Some(l)) || resource == "" || resource != l.handle.resource) then
              result == Failure(TransportTransitionRequired)
            else if stale then Granted(result, after, q, a, l.adapterName)
            else result == Failure(InvalidTransition)
  {
    var base := UpTo(s, a.now);
    ExpiryMovesNothing(s, a.now);
    CurrentChannelIsLive(base.rows, q.ref.identity);
    NotStaleAtLatest(base.rows, q.ref);
    StaleIsOutdated(base.rows, q.ref);
    UnmintedIsAnswered(base, q, a);
    if Mints(base, q, a) {
      if q.ref.identity.device in base.reserved && !Renews(base, q, a) {
        UnrenewedMustWait(base, q, a);
      } else {
        var runtime := RuntimeRefreshOf(q, Some(l), a);
        MintedIsAnswered(base, q, a);
        CandidateIsUnrecorded(base, q, a);
        RefreshCommitsIff(base.rows, Candidate(base, q, a), a.now, runtime, l);
      }
    }
  }

  lemma UnrenewedMustWait(base: Service, q: ProvisionRequest, a: Attempt)
    requires Undisturbed(base, q, a) && Mints(base, q, a)
    requires q.ref.identity.device in base.reserved && !Renews(base, q, a)
    ensures ProvisionOn(base, q, a).0 == Failure(TransportTransitionRequired)
  {
    MintedIsCommitted(base, q, a);
  }

  /** A refresh of a device whose channel is gone or at another reference is never granted. */
  lemma RefreshWithoutChannelIsRefused(s: Service, q: ProvisionRequest, a: Attempt)
    requires Inv(s.rows) && q.kind == Refresh && Undisturbed(UpTo(s, a.now), q, a)
    requires forall l | CurrentChannel(UpTo(s, a.now).rows, q.ref.identity) == Some(l) :: l.ref != q.ref
    ensures ProvisionOnce(s, q, a).0 == Failure(
              if Outdated(UpTo(s, a.now).rows, q.ref) then StaleGeneration
              else if q.ref.identity.device in s.reserved then TransportTransitionRequired
              else InvalidTransition)
  {
    var base := UpTo(s, a.now);
    ExpiryMovesNothing(s, a.now);
    UnmintedIsAnswered(base, q, a);
    if Mints(base, q, a) {
      var runtime := RuntimeRefreshOf(q, CurrentChannel(base.rows, q.ref.identity), a);
      MintedIsAnswered(base, q, a);
      CandidateIsUnrecorded(base, q, a);
      RefreshNeedsItsChannel(base.rows, Candidate(base, q, a), a.now, runtime);
    }
  }

  /** What goes wrong before the ledger is asked: the adapter to use, a refresh's own and else the
      selected one, is not configured, or opening fails. Nothing is opened or changed. */
  lemma UnopenedIsAnswered(s: Service, q: ProvisionRequest, a: Attempt)
    requires var base := UpTo(s, a.now);
             var previous := CurrentChannel(base.rows, q.ref.identity);
             && Find(base.rows, q.ref, q.kind, q.operationId).None? && !Outdated(base.rows, q.ref)
             && (previous.Some? && previous.value.ref == q.ref ==> !TakesBack(previous.value.response.policy, q.policy))
    ensures var base := UpTo(s, a.now);
            var previous := CurrentChannel(base.rows, q.ref.identity);
            var adapter := if q.kind == Refresh && previous.Some? then previous.value.adapterName else a.selected;
            && (adapter !in a.faults.configured ==> ProvisionOnce(s, q, a) == (Failure(NoAdapterAvailable), base))
            && (adapter in a.faults.configured && q.ref.identity.device !in s.reserved && a.grant.None? ==>
                  ProvisionOnce(s, q, a) == (Failure(BackendUnavailable), base))
  {
    var base := UpTo(s, a.now);
    StaleIsOutdated(base.rows, q.ref);
    var previous := CurrentChannel(base.rows, q.ref.identity);
    if previous.Some? { KeptOrTakenBack(previous.value.response.policy, q.policy); }
  }

  /** When the database fails on commit, an unreserved device's caller is told the backend is
      unavailable, or that the adapter its channel was opened by is. */
  lemma UncommittedIsAnswered(base: Service, q: ProvisionRequest, a: Attempt)
    requires Mints(base, q, a) && Alone(a) && a.faults.storeFails && q.ref.identity.device !in base.reserved
    ensures var previous := CurrentChannel(base.rows, q.ref.identity);
            ProvisionOn(base, q, a).0
            == Failure(if previous.Some? && previous.value.adapterName !in a.faults.configured then NoAdapterAvailable
                       else BackendUnavailable)
  {
    MintedIsCommitted(base, q, a);
  }

  lemma LedgerNeverAsksToWait(t: Table, value: Row, now: int, runtime: Option<Row>, v: Revocation)
    ensures CreateProvision(t, value, now, runtime).0 != OperationLedger.Refused(TransportTransitionRequired)
    ensures CompleteRevocation(t, v, now).0 != OperationLedger.Refused(TransportTransitionRequired)
  {}

  lemma SettlingNeverAsksToWait(s: Service, adapter: string, g: Grant, previous: Option<Row>, outcome: Outcome,
                                f: Faults)
    requires outcome != OperationLedger.Refused(TransportTransitionRequired)
    ensures Settle(s, adapter, g, previous, outcome, f).0 != Failure(TransportTransitionRequired)
  {}

  lemma CommittingNeverAsksToWait(s: Service, q: ProvisionRequest, a: Attempt, g: Grant, previous: Option<Row>,
                                  v: Revocation)
    ensures CommitGrant(s, q, a, g, previous).0 != Failure(TransportTransitionRequired)
  {
    var adapter, runtime := ChosenAdapter(q, previous, a), RuntimeRefreshOf(q, previous, a);
    var (outcome, rows) := CreateProvision(s.rows, GrantRow(q, g, adapter, a.now), a.now, runtime);
    LedgerNeverAsksToWait(s.rows, GrantRow(q, g, adapter, a.now), a.now, runtime, v);
    SettlingNeverAsksToWait(s, adapter, g, previous, OperationLedger.Refused(BackendUnavailable), a.faults);
    SettlingNeverAsksToWait(s.(rows := rows), adapter, g, previous, outcome, a.faults);
  }

  /** Only a device a scene or shared visit holds is told to wait for it. */
  lemma UnreservedNeedNotWait(s: Service, q: ProvisionRequest, a: Attempt)
    requires q.ref.identity.device !in s.reserved
    ensures ProvisionOnce(s, q, a).0 != Failure(TransportTransitionRequired)
  {
    if a.grant.Some? {
      var base, g := UpTo(s, a.now), a.grant.value;
      var previous := CurrentChannel(base.rows, q.ref.identity);
      var adapter := ChosenAdapter(q, previous, a);
      var minted := base.(rows := Run(base.rows, a.meanwhile),
                          standing := base.standing + a.peers + Named(adapter, g.handle));
      CommittingNeverAsksToWait(minted, q, a, g, previous, Revocation("", "", q.ref, ""));
    }
  }

  lemma UnreservedRevocationNeedNotWait(s: Service, v: Revocation, now: int, f: Faults)
    requires v.ref.identity.device !in s.reserved
    ensures RevokeOnce(s, v, now, f).0 != Failure(TransportTransitionRequired)
  {
    RecordingNeverAsksToWait(UpTo(s, now), v, now, f);
  }

  lemma RecordingNeverAsksToWait(s: Service, v: Revocation, now: int, f: Faults)
    ensures CloseAndRecord(s, v, now, f).0 != Failure(TransportTransitionRequired)
  {
    LedgerNeverAsksToWait(s.rows, RevocationRow(v, now), now, None, v);
  }

  lemma NotStaleAtLatest(t: Table, ref: DeviceRef)
    requires LatestGeneration(t, ref.identity) == Some(ref.generation)
    ensures !Stale(t, ref)
  {}

  // -- Renewal --------------------------------------------------------------------------

  /** A lapsed channel asked to be renewed under a fresh operation id, while nothing fails. */
  predicate AsksRenewal(base: Service, q: ProvisionRequest, a: Attempt, l: Row) {
    && q.kind == Refresh && CurrentChannel(base.rows, q.ref.identity) == Some(l)
    && l.status == Expired && l.ref == q.ref
    && Find(base.rows, q.ref, q.kind, q.operationId).None?
    && Alone(a) && a.grant.Some? && !a.faults.storeFails && l.adapterName in a.faults.configured && !a.faults.closeFails
  }

  /** The request keeps the policy, and while its device is reserved everything else too. */
  predicate KeepsAuthority(base: Service, q: ProvisionRequest, a: Attempt, l: Row)
    requires a.grant.Some?
  {
    && PolicyKept(l.response.policy, q.policy)
    && (q.ref.identity.device in base.reserved ==>
          && q.ownerId == l.ownerId && q.manifestRevision == l.manifestRevision && q.policy == l.response.policy
          && a.grant.value.handle.resource == l.handle.resource != "")
  }

  /** A lapsed channel is renewed exactly when the request keeps its policy and, while the device
      is reserved, its whole authority and its resource. Then the fresh grant is the channel. */
  lemma LapsedChannelIsRenewedIff(s: Service, q: ProvisionRequest, a: Attempt, l: Row)
    requires Inv(s.rows) && AsksRenewal(UpTo(s, a.now), q, a, l)
    ensures var (result, after) := ProvisionOnce(s, q, a);
            && (result.Success? <==> KeepsAuthority(UpTo(s, a.now), q, a, l))
            && (result.Success? ==>
                  && result.value == Response(q.policy, a.grant.value.body)
                  && CurrentChannel(after.rows, q.ref.identity)
                      == Some(GrantRow(q, a.grant.value, l.adapterName, a.now)))
  {
    KeptOrTakenBack(l.response.policy, q.policy);
    RefreshIsAnswered(s, q, a, l);
  }

  // -- Conversations -------------------------------------------------------------------------------

  /** A start opens the device's active row of exactly this generation: there must be one, or the
      channel is unknown, and no scene or shared visit may hold the device. A stop closes the
      device's channel of this generation, active or lapsed, whoever holds it, if there is one. */
  lemma ServingIsAnswered(s: Service, ref: DeviceRef, now: int, r: Row)
    requires Inv(s.rows) && r in UpTo(s, now).rows && r.ref == ref && (r.status == Active || r.status == Expired)
    ensures ConvergeServing(s, ref, true, now)
         == (if r.status == Expired then Declined(UnknownChannel)
             else if ref.identity.device in s.reserved then Declined(InvalidTransition)
             else SessionOpened(r))
    ensures ConvergeServing(s, ref, false, now) == SessionClosed(r)
  {
    var t := UpTo(s, now).rows;
    ExpiryMovesNothing(s, now);
    var i :| 0 <= i < |t| && t[i] == r;
    LiveRowIsCurrentChannel(t, i);
  }

  lemma NothingToServe(s: Service, ref: DeviceRef, start: bool, now: int)
    requires forall r | r in UpTo(s, now).rows && r.ref == ref :: r.status != Active && r.status != Expired
    ensures ConvergeServing(s, ref, start, now) == Declined(UnknownChannel)
  {}
}
