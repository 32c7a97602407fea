/** What a call leaves standing, and what it is told when something goes wrong, in terms of rows,
    handles and faults. */
module ResourceAnswers {
  import opened Contracts
  import opened OperationLedger
  import opened LedgerHistory
  import opened LedgerGuarantees
  import opened LedgerAnswers
  import opened TransportResources
  import opened ResourceConservation
  import opened ServiceAnswers

  /** A handle names this resource of its adapter. */
  predicate Names(adapter: string, h: Handle, r: Resource) { h.resource != "" && r == Resource(adapter, h.resource) }

  predicate RowNames(row: Option<Row>, r: Resource) { row.Some? && Names(row.value.adapterName, row.value.handle, r) }

  /** The adapter a request is opened by: a refresh's own, and else the selected one. */
  function OpenedBy(q: ProvisionRequest, previous: Option<Row>, a: Attempt): string {
    if q.kind == Refresh && previous.Some? then previous.value.adapterName else a.selected
  }

  /** Nothing speaks against opening a candidate: the request is not outdated, takes no policy back,
      and asks for the same authority while its device is reserved. */
  ghost predicate Opens(base: Service, q: ProvisionRequest) {
    var previous := CurrentChannel(base.rows, q.ref.identity);
    && !Outdated(base.rows, q.ref)
    && (previous.Some? && previous.value.ref == q.ref ==> !TakesBack(previous.value.response.policy, q.policy))
    && (q.ref.identity.device in base.reserved ==> SameAuthorityAsked(q, previous))
  }

  lemma UndisturbedMints(base: Service, q: ProvisionRequest, a: Attempt)
    requires Undisturbed(base, q, a)
    ensures Opens(base, q) <==> Mints(base, q, a)
  {
    UnmintedIsAnswered(base, q, a);
    StaleIsOutdated(base.rows, q.ref);
    var previous := CurrentChannel(base.rows, q.ref.identity);
    if previous.Some? { KeptOrTakenBack(previous.value.response.policy, q.policy); }
  }

  /** When nothing fails: a request that succeeds leaves its grant's resource standing and its
      predecessor's not, unless they are one; a request that fails leaves everything as it was but
      for its own candidate, closed again unless its predecessor stands on it. */
  lemma ResourcesAreSettled(s: Service, q: ProvisionRequest, a: Attempt, r: Resource)
    requires Inv(s.rows) && ProperRequest(q) && Undisturbed(UpTo(s, a.now), q, a)
    ensures var base := UpTo(s, a.now);
            var previous := CurrentChannel(base.rows, q.ref.identity);
            var (result, after) := ProvisionOnce(s, q, a);
            var candidate := Opens(base, q) && Names(OpenedBy(q, previous, a), a.grant.value.handle, r);
            r in after.standing
            <==> if candidate && RowNames(previous, r) then true
                 else if result.Success? then candidate || (r in s.standing && !RowNames(previous, r))
                 else r in s.standing && !candidate
  {
    ExpiryMovesNothing(s, a.now);
    SettledOn(UpTo(s, a.now), q, a, r);
  }

  lemma SettledOn(base: Service, q: ProvisionRequest, a: Attempt, r: Resource)
    requires Inv(base.rows) && Expire(base.rows, a.now) == base.rows && ProperRequest(q) && Undisturbed(base, q, a)
    ensures var previous := CurrentChannel(base.rows, q.ref.identity);
            var (result, after) := ProvisionOn(base, q, a);
            var candidate := Opens(base, q) && Names(OpenedBy(q, previous, a), a.grant.value.handle, r);
            r in after.standing
            <==> if candidate && RowNames(previous, r) then true
                 else if result.Success? then candidate || (r in base.standing && !RowNames(previous, r))
                 else r in base.standing && !candidate
  {
    var effect := ProvisionOn(base, q, a);
    ProvisionEffect(base, q, a);
    UndisturbedMints(base, q, a);
    if Mints(base, q, a) { WhatIsClosed(base, q, a, r); }
    assert effect.0.Success? <==> Takes(base, q, a);
  }

  lemma WhatIsClosed(base: Service, q: ProvisionRequest, a: Attempt, r: Resource)
    requires Undisturbed(base, q, a) && Mints(base, q, a)
    ensures var previous := CurrentChannel(base.rows, q.ref.identity);
            var candidate := Names(OpenedBy(q, previous, a), a.grant.value.handle, r);
            && (r in Opened(base, q, a) <==> candidate)
            && (r in ProvisionCloses(base, q, a)
                <==> if Takes(base, q, a) then RowNames(previous, r) && !candidate
                     else candidate && !RowNames(previous, r))
  {}

  /** The candidate stands on what its predecessor stands on. */
  predicate StaysOn(q: ProvisionRequest, previous: Option<Row>, a: Attempt)
    requires a.grant.Some?
  {
    && previous.Some? && previous.value.adapterName == OpenedBy(q, previous, a)
    && previous.value.handle.resource == a.grant.value.handle.resource != ""
  }

  /** What stands in the way of settling the resources, if anything: the predecessor's adapter is not
      configured any more, or what is to be closed cannot be. */
  function Trouble(q: ProvisionRequest, previous: Option<Row>, a: Attempt, closes: bool): Option<DomainError>
    requires a.grant.Some?
  {
    if previous.Some? && previous.value.adapterName !in a.faults.configured then Some(NoAdapterAvailable)
    else if closes && !StaysOn(q, previous, a) && a.faults.closeFails then Some(BackendUnavailable)
    else None
  }

  /** A candidate the ledger refuses, or the database does not take, answers with that refusal unless
      something stands in the way of closing it. A committed one answers with its response unless
      something stands in the way of closing its predecessor. */
  lemma TroubleIsAnswered(base: Service, q: ProvisionRequest, a: Attempt)
    requires Inv(base.rows) && Expire(base.rows, a.now) == base.rows && ProperRequest(q)
    requires Mints(base, q, a) && Alone(a)
    requires q.ref.identity.device in base.reserved ==> StaysOn(q, CurrentChannel(base.rows, q.ref.identity), a)
    ensures var previous := CurrentChannel(base.rows, q.ref.identity);
            var outcome := CreateProvision(base.rows, Candidate(base, q, a), a.now, RuntimeRefreshOf(q, previous, a)).0;
            var result := ProvisionOn(base, q, a).0;
            if a.faults.storeFails || outcome.Refused? then
              var trouble := Trouble(q, previous, a, true);
              result == Failure(if trouble.Some? then trouble.value
                                else if a.faults.storeFails then BackendUnavailable else outcome.error)
            else
              var trouble := Trouble(q, previous, a, previous.Some?);
              result == if trouble.Some? then Failure(trouble.value)
                        else Success(Response(q.policy, a.grant.value.body))
  {
    MintedIsCommitted(base, q, a);
    var previous := CurrentChannel(base.rows, q.ref.identity);
    CandidateIsAnswered(base, Candidate(base, q, a), a.now, RuntimeRefreshOf(q, previous, a));
    SettlingIsAnswered(base, q, a, previous);
  }

  lemma SettlingIsAnswered(base: Service, q: ProvisionRequest, a: Attempt, previous: Option<Row>)
    requires a.grant.Some?
    requires previous == CurrentChannel(base.rows, q.ref.identity)
    requires Find(base.rows, q.ref, q.kind, q.operationId).None?
    ensures var value := Candidate(base, q, a);
            forall s, e :: Settle(s, value.adapterName, a.grant.value, previous, Refused(e), a.faults).0
              == Failure(var trouble := Trouble(q, previous, a, true); if trouble.Some? then trouble.value else e)
    ensures var value := Candidate(base, q, a);
            forall s :: Settle(s, value.adapterName, a.grant.value, previous, Stored(value, false), a.faults).0
              == (var trouble := Trouble(q, previous, a, previous.Some?);
                  if trouble.Some? then Failure(trouble.value) else Success(value.response))
  {
    if previous.Some? { assert !SameKey(previous.value, Candidate(base, q, a)); }
  }

  /** What a second process commits and opens while the adapter is asked is there when the grant is
      committed: the ledger decides on the table it left, and only what this attempt closes is taken
      from what it opened. */
  lemma InterferenceIsSeen(base: Service, q: ProvisionRequest, a: Attempt, r: Resource)
    requires Mints(base, q, a) && q.ref.identity.device !in base.reserved
    ensures var previous := CurrentChannel(base.rows, q.ref.identity);
            var t := Run(base.rows, a.meanwhile);
            var after := ProvisionOn(base, q, a).1;
            && after.rows == (if a.faults.storeFails then t
                              else CreateProvision(t, Candidate(base, q, a), a.now, RuntimeRefreshOf(q, previous, a)).1)
            && ((r in base.standing || r in a.peers)
                && !RowNames(previous, r) && !Names(OpenedBy(q, previous, a), a.grant.value.handle, r)
                ==> r in after.standing)
            && (r in after.standing ==>
                  r in base.standing || r in a.peers || Names(OpenedBy(q, previous, a), a.grant.value.handle, r))
  {
    var previous, g := CurrentChannel(base.rows, q.ref.identity), a.grant.value;
    var seen := base.(rows := Run(base.rows, a.meanwhile),
                      standing := base.standing + a.peers + Named(OpenedBy(q, previous, a), g.handle));
    MintedMeanwhile(base, q, a, seen);
    CommittingTouches(seen, q, a, g, previous, r);
  }

  lemma MintedMeanwhile(base: Service, q: ProvisionRequest, a: Attempt, seen: Service)
    requires Mints(base, q, a) && q.ref.identity.device !in base.reserved
    requires var previous := CurrentChannel(base.rows, q.ref.identity);
             seen == base.(rows := Run(base.rows, a.meanwhile),
                           standing := base.standing + a.peers
                                       + Named(OpenedBy(q, previous, a), a.grant.value.handle))
    ensures ProvisionOn(base, q, a)
         == CommitGrant(seen, q, a, a.grant.value, CurrentChannel(base.rows, q.ref.identity))
  {}

  lemma CommittingTouches(s: Service, q: ProvisionRequest, a: Attempt, g: Grant, previous: Option<Row>, r: Resource)
    ensures var adapter := OpenedBy(q, previous, a);
            var after := CommitGrant(s, q, a, g, previous).1;
            && after.rows == (if a.faults.storeFails then s.rows
                              else CreateProvision(s.rows, GrantRow(q, g, adapter, a.now), a.now,
                                                   RuntimeRefreshOf(q, previous, a)).1)
            && (r in after.standing ==> r in s.standing)
            && (r in s.standing && !RowNames(previous, r) && !Names(adapter, g.handle, r) ==> r in after.standing)
  {
    var adapter := OpenedBy(q, previous, a);
    var runtime := RuntimeRefreshOf(q, previous, a);
    var (outcome, rows) := CreateProvision(s.rows, GrantRow(q, g, adapter, a.now), a.now, runtime);
    SettlingTouches(s, adapter, g, previous, Refused(BackendUnavailable), a.faults, r);
    SettlingTouches(s.(rows := rows), adapter, g, previous, outcome, a.faults, r);
  }

  lemma SettlingTouches(s: Service, adapter: string, g: Grant, previous: Option<Row>, outcome: Outcome, f: Faults,
                        r: Resource)
    ensures var after := Settle(s, adapter, g, previous, outcome, f).1;
            && after.rows == s.rows && (r in after.standing ==> r in s.standing)
            && (r in s.standing && !RowNames(previous, r) && !Names(adapter, g.handle, r) ==> r in after.standing)
  {}

  /** While its device is reserved, a candidate on another resource is closed again: the request must
      wait, unless that fails. */
  lemma ReplacementMustWait(base: Service, q: ProvisionRequest, a: Attempt)
    requires Mints(base, q, a) && Alone(a) && q.ref.identity.device in base.reserved
    requires !StaysOn(q, CurrentChannel(base.rows, q.ref.identity), a)
    ensures var g, adapter := a.grant.value.handle, CurrentChannel(base.rows, q.ref.identity).value.adapterName;
            var (result, after) := ProvisionOn(base, q, a);
            && result == Failure(if a.faults.closeFails then BackendUnavailable else TransportTransitionRequired)
            && after.rows == base.rows
            && forall r :: r in after.standing
                 <==> if a.faults.closeFails then r in base.standing || Names(adapter, g, r)
                      else r in base.standing && !Names(adapter, g, r)
  {}

  /** The revocation gets as far as closing this resource: the active row of exactly its reference
      names it and its adapter can close it. */
  ghost predicate ClosesOnTheWay(base: Service, v: Revocation, f: Faults, r: Resource) {
    && !Outdated(base.rows, v.ref) && v.ref.identity.device !in base.reserved && !f.closeFails
    && exists x :: x in base.rows && x.ref == v.ref && x.status == Active
                   && x.adapterName in f.configured && Names(x.adapterName, x.handle, r)
  }

  /** A first revocation closes that resource, whether or not the database then takes it, and leaves
      every other as it was. */
  lemma RevocationSettlesResources(s: Service, v: Revocation, now: int, f: Faults, r: Resource)
    requires Inv(s.rows) && UnrecordedRevocation(UpTo(s, now).rows, v)
    ensures r in RevokeOnce(s, v, now, f).1.standing
            <==> r in s.standing && !ClosesOnTheWay(UpTo(s, now), v, f, r)
  {
    ExpiryMovesNothing(s, now);
    RevokeEffect(UpTo(s, now), v, now, f);
    ClosesExactly(UpTo(s, now), v, f, r);
  }

  lemma ClosesExactly(base: Service, v: Revocation, f: Faults, r: Resource)
    requires Inv(base.rows) && UnrecordedRevocation(base.rows, v)
    ensures r in RevokeCloses(base, v, f) <==> ClosesOnTheWay(base, v, f, r)
  {
    StaleIsOutdated(base.rows, v.ref);
    RevokedChannelIsActiveRow(base.rows, v.ref);
    ActiveRowIsFound(base.rows, v.ref);
    assert r in RevokeCloses(base, v, f) <==> Revokes(base, v, f) && RowNames(ActiveDevice(base.rows, v.ref), r);
  }
}
