/** What each transaction of the ledger answers, and what it does to each row, in terms of the
    rows' own fields. */
module LedgerAnswers {
  import opened Contracts
  import opened OperationLedger
  import opened LedgerHistory
  import opened LedgerGuarantees

  // -- Generations and policies --------------------------------------------------------------

  /** Generations are ordered by owner domain, then claim, then trust epoch: a strict total order
      in which each counter decides among equals of the ones before it. */
  lemma GenerationsAreOrdered(a: Generation, b: Generation, c: Generation)
    ensures a.ownerDomain != b.ownerDomain ==> (Older(a, b) <==> a.ownerDomain < b.ownerDomain)
    ensures a.ownerDomain == b.ownerDomain && a.claim != b.claim ==> (Older(a, b) <==> a.claim < b.claim)
    ensures a.ownerDomain == b.ownerDomain && a.claim == b.claim ==> (Older(a, b) <==> a.trustEpoch < b.trustEpoch)
    ensures Older(a, b) && Older(b, c) ==> Older(a, c)
    ensures a == b || Older(a, b) || Older(b, a)
    ensures !(Older(a, b) && Older(b, a))
  {}

  /** A newer generation of the device is on record. */
  ghost predicate Outdated(t: Table, ref: DeviceRef) {
    exists r :: r in t && r.ref.identity == ref.identity && Older(ref.generation, r.ref.generation)
  }

  lemma StaleIsOutdated(t: Table, ref: DeviceRef)
    ensures Stale(t, ref) <==> Outdated(t, ref)
  {
    var latest := LatestGeneration(t, ref.identity);
    if latest.Some? {
      var k :| 0 <= k < |t| && t[k].ref == DeviceRef(ref.identity, latest.value);
      if Stale(t, ref) { assert t[k] in t; }
      if Outdated(t, ref) {
        var r :| r in t && r.ref.identity == ref.identity && Older(ref.generation, r.ref.generation);
        var i :| 0 <= i < |t| && t[i] == r;
        GenerationsAreOrdered(ref.generation, r.ref.generation, latest.value);
        GenerationsAreOrdered(r.ref.generation, latest.value, ref.generation);
      }
    } else {
      forall r | r in t ensures r.ref.identity != ref.identity { var i :| 0 <= i < |t| && t[i] == r; }
    }
  }

  /** The incoming policy takes back what a grant was given: it is missing, has a smaller revision,
      or reuses the revision with other content. */
  predicate TakesBack(given: Option<OutputPolicy>, incoming: Option<OutputPolicy>) {
    given.Some?
    && (incoming.None?
        || incoming.value.revision < given.value.revision
        || (incoming.value.revision == given.value.revision && incoming.value.allowed != given.value.allowed))
  }

  lemma KeptOrTakenBack(given: Option<OutputPolicy>, incoming: Option<OutputPolicy>)
    ensures PolicyKept(given, incoming) <==> !TakesBack(given, incoming)
  {}

  function Revision(policy: Option<OutputPolicy>): nat { if policy.Some? then policy.value.revision else 0 }

  // -- The current channel ---------------------------------------------------------------------

  /** Live grants of one device. */
  predicate Serves(r: Row, id: Identity) {
    r.ref.identity == id && (r.kind == Provision || r.kind == Refresh) && (r.status == Active || r.status == Expired)
  }

  /** In any table, lawful or not, the current channel is a live grant of its device that no other
      beats: none is of a newer generation, and none of its own was created later. */
  lemma {:induction false} ChannelComesFirst(t: Table, id: Identity)
    ensures var r := CurrentChannel(t, id);
            if r.None? then forall x | x in t :: !Serves(x, id)
            else
              && r.value in t && Serves(r.value, id)
              && forall x | x in t && Serves(x, id) ::
                   && !Older(r.value.ref.generation, x.ref.generation)
                   && (x.ref.generation == r.value.ref.generation ==> x.createdAt <= r.value.createdAt)
    decreases |t|
  {
    if t != [] {
      ChannelComesFirst(t[1..], id);
      var rest, r := CurrentChannel(t[1..], id), CurrentChannel(t, id);
      if rest.Some? {
        forall x | x in t && Serves(x, id)
          ensures !Older(r.value.ref.generation, x.ref.generation)
          ensures x.ref.generation == r.value.ref.generation ==> x.createdAt <= r.value.createdAt
        {
          GenerationsAreOrdered(rest.value.ref.generation, t[0].ref.generation, x.ref.generation);
          GenerationsAreOrdered(t[0].ref.generation, rest.value.ref.generation, x.ref.generation);
          GenerationsAreOrdered(t[0].ref.generation, x.ref.generation, rest.value.ref.generation);
          assert x == t[0] || x in t[1..];
        }
      }
    }
  }

  // -- Grants ----------------------------------------------------------------------------------

  /** No operation of this reference and kind has this id. */
  predicate Unrecorded(t: Table, value: Row) {
    forall r | r in t :: r.ref != value.ref || r.kind != value.kind || r.operationId != value.operationId
  }

  /** Something about an active channel has gone stale: its Manifest, its policy, or what the
      adapter observed of exactly this row. */
  predicate HasReason(l: Row, value: Row, runtime: Option<Row>) {
    || l.manifestRevision != value.manifestRevision
    || (value.response.policy.Some? && value.response.policy.value.revision > Revision(l.response.policy))
    || (runtime.Some? && runtime.value.operationId == l.operationId && runtime.value.handle == l.handle
        && runtime.value.adapterName == l.adapterName)
  }

  /** A new refresh of a device's channel at exactly its reference commits if and only if it takes
      no policy back and the channel has lapsed or there is a reason; otherwise it is refused as an
      invalid transition and nothing changes. */
  lemma RefreshCommitsIff(t: Table, value: Row, now: int, runtime: Option<Row>, l: Row)
    requires Inv(t) && value.kind == Refresh && value.status == Active && Unrecorded(t, value)
    requires CurrentChannel(Expire(t, now), value.ref.identity) == Some(l) && l.ref == value.ref
    ensures var (outcome, after) := CreateProvision(t, value, now, runtime);
            if !TakesBack(l.response.policy, value.response.policy)
               && (l.status == Expired || HasReason(l, value, runtime))
            then outcome == Stored(value, false)
            else outcome == Refused(InvalidTransition) && after == t
  {
    var e := Expire(t, now);
    ExpiryKeepsInvariant(t, now);
    CurrentChannelIsLive(e, value.ref.identity);
    KeptOrTakenBack(l.response.policy, value.response.policy);
    AdmissionDecidedByLiveRow(t, value, now, runtime);
    NewAndCurrent(t, value, now, runtime);
  }

  /** Anything else a new grant meets at its device's newest generation is an invalid transition. */
  lemma NewAndCurrent(t: Table, value: Row, now: int, runtime: Option<Row>)
    requires Inv(t) && NewGrant(value) && Unrecorded(t, value) && !Stale(Expire(t, now), value.ref)
    ensures var outcome := CreateProvision(t, value, now, runtime).0;
            outcome == Stored(value, false) || outcome == Refused(InvalidTransition)
  {
    var e := Expire(t, now);
    ExpiryKeepsInvariant(t, now);
    ExpiryKeepsKeys(t, now, value);
    FreshIsNotFound(e, value);
    AdmissionDecidedByLiveRow(t, value, now, runtime);
    if !Inadmissible(e, value, runtime) { GuardIsLiveRowGuard(e, value, runtime); }
  }

  /** A new refresh where the device's channel is not at exactly its reference, or is gone, never
      commits: it is outdated or an invalid transition. */
  lemma RefreshNeedsItsChannel(t: Table, value: Row, now: int, runtime: Option<Row>)
    requires Inv(t) && value.kind == Refresh && value.status == Active && Unrecorded(t, value)
    requires forall l | CurrentChannel(Expire(t, now), value.ref.identity) == Some(l) :: l.ref != value.ref
    ensures CreateProvision(t, value, now, runtime)
         == (Refused(if Outdated(t, value.ref) then StaleGeneration else InvalidTransition), t)
  {
    var e := Expire(t, now);
    ExpiryKeepsInvariant(t, now);
    ExpiryKeepsOutdated(t, now, value.ref);
    StaleIsOutdated(e, value.ref);
    AdmissionDecidedByLiveRow(t, value, now, runtime);
    if !Stale(e, value.ref) { NewAndCurrent(t, value, now, runtime); }
  }

  /** A new provision commits if and only if no row of its device has its generation or a newer
      one. */
  lemma ProvisionCommitsIff(t: Table, value: Row, now: int, runtime: Option<Row>)
    requires Inv(t) && value.kind == Provision && value.status == Active && Unrecorded(t, value)
    ensures var (outcome, after) := CreateProvision(t, value, now, runtime);
            if Outdated(t, value.ref) then outcome == Refused(StaleGeneration) && after == t
            else if exists r :: r in t && r.ref == value.ref then outcome == Refused(InvalidTransition) && after == t
            else outcome == Stored(value, false)
  {
    var e := Expire(t, now);
    ExpiryKeepsInvariant(t, now);
    ExpiryKeepsOutdated(t, now, value.ref);
    StaleIsOutdated(e, value.ref);
    AdmissionDecidedByLiveRow(t, value, now, runtime);
    if !Stale(e, value.ref) {
      NewAndCurrent(t, value, now, runtime);
      FirstOfGeneration(t, e, value.ref, now);
    }
  }

  lemma FirstOfGeneration(t: Table, e: Table, ref: DeviceRef, now: int)
    requires e == Expire(t, now) && !Stale(e, ref)
    ensures var latest := LatestGeneration(e, ref.identity);
            (latest.None? || Older(latest.value, ref.generation)) <==> !exists r :: r in t && r.ref == ref
  {
    var latest := LatestGeneration(e, ref.identity);
    if r :| r in t && r.ref == ref {
      var i :| 0 <= i < |t| && t[i] == r;
      assert e[i].ref == ref;
    } else if latest.Some? {
      GenerationsAreOrdered(latest.value, ref.generation, ref.generation);
      var k :| 0 <= k < |e| && e[k].ref == DeviceRef(ref.identity, latest.value);
      assert t[k] in t && t[k].ref == e[k].ref;
    }
  }

  /** Below a newer generation every grant and every revocation is refused as such. */
  lemma OutdatedIsRefused(t: Table, value: Row, now: int, runtime: Option<Row>, v: Revocation)
    ensures Outdated(t, value.ref) ==> CreateProvision(t, value, now, runtime) == (Refused(StaleGeneration), t)
    ensures Outdated(t, v.ref) ==> CompleteRevocation(t, v, now) == (Refused(StaleGeneration), t)
  {
    ExpiryKeepsOutdated(t, now, value.ref);
    StaleIsOutdated(Expire(t, now), value.ref);
    ExpiryKeepsOutdated(t, now, v.ref);
    StaleIsOutdated(Expire(t, now), v.ref);
  }

  /** The database refuses exactly a second row of one operation and a second active row of one
      device; it adds any other at the end. */
  lemma ConstraintsRefuseIff(before: Table, t: Table, value: Row)
    ensures Insert(before, t, value)
         == if exists r :: r in t && ((r.ref == value.ref && r.kind == value.kind && r.operationId == value.operationId)
                                      || (r.ref.identity == value.ref.identity && r.status == value.status == Active))
            then (Refused(ConstraintViolated), before) else (Stored(value, false), t + [value])
  {}

  lemma OutdatedFollows(t: Table, u: Table, ref: DeviceRef)
    requires |t| == |u| && forall i | 0 <= i < |t| :: u[i].ref == t[i].ref
    ensures Outdated(t, ref) ==> Outdated(u, ref)
  {
    if Outdated(t, ref) {
      var r :| r in t && r.ref.identity == ref.identity && Older(ref.generation, r.ref.generation);
      var i :| 0 <= i < |t| && t[i] == r;
      assert u[i] in u;
    }
  }

  lemma ExpiryKeepsOutdated(t: Table, now: int, ref: DeviceRef)
    ensures Outdated(Expire(t, now), ref) <==> Outdated(t, ref)
  {
    OutdatedFollows(t, Expire(t, now), ref);
    OutdatedFollows(Expire(t, now), t, ref);
  }

  // -- What happens to each row ---------------------------------------------------------------------

  /** How a row ends: in this status, for this reason, its credential scrubbed. */
  predicate EndedAs(before: Row, after: Row, status: Status, reason: string, now: int) {
    after == before.(status := status, terminalReason := reason, handle := Handle("", ""), expiresAt := 0,
                     updatedAt := now)
  }

  predicate LapsedAs(before: Row, after: Row, now: int) {
    after == before.(status := Expired, terminalReason := "credential_expired", updatedAt := now)
  }

  /** Expiry lapses exactly the active rows whose deadline has come, and scrubs nothing. */
  lemma ExpiryLapsesExactly(t: Table, now: int, i: int)
    requires 0 <= i < |t|
    ensures |Expire(t, now)| == |t|
    ensures var u := Expire(t, now);
            if t[i].status == Active && t[i].expiresAt <= now then LapsedAs(t[i], u[i], now) else u[i] == t[i]
    ensures Expire(t, now)[i].status == Active ==> Expire(t, now)[i].expiresAt > now
  {}

  /** What a committed grant does to each row before it: of its device, those still live end, for
      being refreshed at the same generation or overtaken by a newer one; no other row changes but
      for expiry. */
  lemma CommittedGrantEndsExactly(t: Table, value: Row, now: int, runtime: Option<Row>, i: int)
    requires Inv(t) && NewGrant(value) && Unrecorded(t, value)
    requires CreateProvision(t, value, now, runtime).0 == Stored(value, false) && 0 <= i < |t|
    ensures var e, u := Expire(t, now)[i], CreateProvision(t, value, now, runtime).1;
            |u| == |t| + 1 && u[|t|] == value
            && (if t[i].ref.identity != value.ref.identity || (e.status != Active && e.status != Expired) then u[i] == e
                else EndedAs(e, u[i], Fenced, if e.ref == value.ref then "credential_refreshed"
                                              else "generation_advanced", now))
  {
    var e := Expire(t, now);
    CommittedGrantIsLast(t, value, now, runtime);
    CommittedGrantTakesOver(t, value, now, runtime);
    ExpiryKeepsInvariant(t, now);
    AdmissionDecidedByLiveRow(t, value, now, runtime);
    if Live(e[i]) && e[i].ref.identity == value.ref.identity {
      LiveRowIsCurrentChannel(e, i);
      SupersededEndsAs(e, value, now, i);
    } else {
      SupersedeSparesEnded(e, value, now, i);
    }
  }

  lemma SupersedeSparesEnded(e: Table, value: Row, now: int, i: int)
    requires 0 <= i < |e| && (!Live(e[i]) || e[i].ref.identity != value.ref.identity)
    ensures Supersede(e, value, now)[i] == e[i]
  {}

  /** Fencing ends exactly the device's live rows of older generations, in any table. */
  lemma FenceEndsExactly(e: Table, ref: DeviceRef, reason: string, now: int, i: int)
    requires 0 <= i < |e|
    ensures |FenceOlder(e, ref, reason, now)| == |e|
    ensures var r := FenceOlder(e, ref, reason, now)[i];
            if e[i].ref.identity == ref.identity && (e[i].status == Active || e[i].status == Expired)
               && Older(e[i].ref.generation, ref.generation)
            then EndedAs(e[i], r, Fenced, reason, now) else r == e[i]
  {}

  /** Ending a generation ends exactly the live rows at its reference. */
  lemma EndsGenerationExactly(e: Table, ref: DeviceRef, status: Status, reason: string, now: int, i: int)
    requires 0 <= i < |e|
    ensures |EndGeneration(e, ref, status, reason, now)| == |e|
    ensures var r := EndGeneration(e, ref, status, reason, now)[i];
            if e[i].ref == ref && (e[i].status == Active || e[i].status == Expired)
            then EndedAs(e[i], r, status, reason, now) else r == e[i]
  {}

  lemma SupersededEndsAs(e: Table, value: Row, now: int, i: int)
    requires 0 <= i < |e| && Live(e[i]) && e[i].ref.identity == value.ref.identity && IsGrant(value)
    requires LatestGeneration(e, value.ref.identity) == Some(e[i].ref.generation)
    requires if value.kind == Provision then Older(e[i].ref.generation, value.ref.generation) else e[i].ref == value.ref
    ensures |Supersede(e, value, now)| == |e|
    ensures EndedAs(e[i], Supersede(e, value, now)[i], Fenced,
                    if e[i].ref == value.ref then "credential_refreshed" else "generation_advanced", now)
  {
    GenerationsAreOrdered(e[i].ref.generation, value.ref.generation, value.ref.generation);
    if value.kind == Provision { FenceEndsExactly(e, value.ref, "generation_advanced", now, i); }
    else { EndsGenerationExactly(e, value.ref, Fenced, "credential_refreshed", now, i); }
  }

  // -- Revocations ------------------------------------------------------------------------------------

  predicate UnrecordedRevocation(t: Table, v: Revocation) {
    forall r | r in t :: r.ref != v.ref || r.kind != Revoke || r.operationId != v.operationId
  }

  /** The row a revocation records. */
  predicate RecordsRevocation(r: Row, v: Revocation) {
    && r.kind == Revoke && r.ref == v.ref && r.operationId == v.operationId && r.fingerprint == v.fingerprint
    && r.status == Completed && r.response == Response(None, v.body) && r.handle == Handle("", "")
  }

  /** A new revocation at a generation not older than the newest commits: its own row is last, the
      rows of exactly that generation that were live are revoked, live rows of older ones are
      fenced, and no other row changes but for expiry. */
  lemma RevocationEndsExactly(t: Table, v: Revocation, now: int, i: int)
    requires Inv(t) && UnrecordedRevocation(t, v) && !Outdated(t, v.ref) && 0 <= i < |t|
    ensures var e, (outcome, u) := Expire(t, now)[i], CompleteRevocation(t, v, now);
            && outcome.Stored? && !outcome.replayed && RecordsRevocation(outcome.row, v)
            && |u| == |t| + 1 && u[|t|] == outcome.row
            && (if t[i].ref.identity != v.ref.identity || (e.status != Active && e.status != Expired) then u[i] == e
                else if e.ref == v.ref then EndedAs(e, u[i], Status.Revoked, "claim_revoked", now)
                else EndedAs(e, u[i], Fenced, "generation_advanced", now))
  {
    var e := Expire(t, now);
    ExpiryKeepsInvariant(t, now);
    ExpiryKeepsOutdated(t, now, v.ref);
    StaleIsOutdated(e, v.ref);
    NewRevocationIsLast(t, v, now);
    if Live(e[i]) && e[i].ref.identity == v.ref.identity {
      LiveRowIsCurrentChannel(e, i);
      GenerationsAreOrdered(e[i].ref.generation, v.ref.generation, v.ref.generation);
      WithdrawnEndsAs(e, v.ref, now, i);
    } else {
      WithdrawSparesEnded(e, v.ref, now, i);
    }
  }

  /** A revocation on record, presented again: outdated below a newer generation, a conflict with
      other content, and otherwise its recorded row, nothing changed but expiry. */
  lemma RepeatedRevocationMeetsItsRow(t: Table, k: int, v: Revocation, now: int)
    requires Inv(t) && 0 <= k < |t| && t[k].kind == Revoke && t[k].ref == v.ref && t[k].operationId == v.operationId
    ensures CompleteRevocation(t, v, now)
         == (if Outdated(t, v.ref) then (Refused(StaleGeneration), t)
             else if v.fingerprint != t[k].fingerprint then (Refused(IdempotencyConflict), t)
             else (Stored(t[k], true), Expire(t, now)))
  {
    var e := Expire(t, now);
    ExpiryKeepsInvariant(t, now);
    ExpiryKeepsOutdated(t, now, v.ref);
    StaleIsOutdated(e, v.ref);
    assert RowOk(t[k]);
    ExpiryLapsesExactly(t, now, k);
    FindReturnsRecorded(e, k);
  }

  lemma NewRevocationIsLast(t: Table, v: Revocation, now: int)
    requires Inv(t) && UnrecordedRevocation(t, v) && !Stale(Expire(t, now), v.ref)
    ensures CompleteRevocation(t, v, now)
         == (Stored(RevocationRow(v, now), false), Withdraw(Expire(t, now), v.ref, now) + [RevocationRow(v, now)])
  {
    var e := Expire(t, now);
    ExpiryKeepsInvariant(t, now);
    forall r | r in e ensures r.ref != v.ref || r.kind != Revoke || r.operationId != v.operationId {
      var k :| 0 <= k < |e| && e[k] == r;
      assert t[k] in t;
    }
    WithdrawnRowFits(e, v, now);
    FittingRowIsInsertable(t, Withdraw(e, v.ref, now), RevocationRow(v, now));
  }

  lemma WithdrawSparesEnded(e: Table, ref: DeviceRef, now: int, i: int)
    requires 0 <= i < |e| && (!Live(e[i]) || e[i].ref.identity != ref.identity)
    ensures Withdraw(e, ref, now)[i] == e[i]
  {}

  lemma WithdrawnEndsAs(e: Table, ref: DeviceRef, now: int, i: int)
    requires 0 <= i < |e| && Live(e[i]) && e[i].ref.identity == ref.identity
    requires LatestGeneration(e, ref.identity) == Some(e[i].ref.generation)
    requires e[i].ref == ref || Older(e[i].ref.generation, ref.generation)
    ensures if e[i].ref == ref then EndedAs(e[i], Withdraw(e, ref, now)[i], Status.Revoked, "claim_revoked", now)
            else EndedAs(e[i], Withdraw(e, ref, now)[i], Fenced, "generation_advanced", now)
  {}
}
