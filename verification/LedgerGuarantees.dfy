/** What callers of the ledger may rely on, for every history it can have. */
module LedgerGuarantees {
  import opened Contracts
  import opened OperationLedger
  import opened LedgerHistory

  // -- One live row per device ---------------------------------------------------

  /** Any live row is the current channel of its identity, whatever the sort order of the
      query, and carries the greatest generation recorded there. So every observable row
      equals its own current channel. */
  lemma LiveRowIsCurrentChannel(t: Table, i: int)
    requires Inv(t) && 0 <= i < |t| && Live(t[i])
    ensures CurrentChannel(t, t[i].ref.identity) == Some(t[i])
    ensures forall r | r in t && Bearing(r, t[i].ref.identity) :: r == t[i]
    ensures LatestGeneration(t, t[i].ref.identity) == Some(t[i].ref.generation)
    ensures forall j | i < j < |t| :: t[j].ref.identity != t[i].ref.identity
    ensures ActiveDevice(t, t[i].ref) == if t[i].status == Active then Some(t[i]) else None
  {
    LiveIsNewest(t, i);
    OneBearing(t, i);
    OneActive(t, i);
    CurrentIsOnlyBearing(t, t[i]);
  }

  lemma CurrentIsOnlyBearing(t: Table, r: Row)
    requires r in t && Bearing(r, r.ref.identity) && forall x | x in t && Bearing(x, r.ref.identity) :: x == r
    ensures CurrentChannel(t, r.ref.identity) == Some(r)
  {}

  lemma OneBearing(t: Table, i: int)
    requires Inv(t) && 0 <= i < |t| && Live(t[i])
    ensures Bearing(t[i], t[i].ref.identity)
    ensures forall r | r in t && Bearing(r, t[i].ref.identity) :: r == t[i]
  {
    LiveIsNewest(t, i);
    assert RowOk(t[i]);
    forall r | r in t && Bearing(r, t[i].ref.identity) ensures r == t[i] {
      var j :| 0 <= j < |t| && t[j] == r;
    }
  }

  lemma OneActive(t: Table, i: int)
    requires Inv(t) && 0 <= i < |t| && Live(t[i])
    ensures ActiveDevice(t, t[i].ref) == if t[i].status == Active then Some(t[i]) else None
  {
    LiveIsNewest(t, i);
    assert RowOk(t[i]) && t[i] in t;
    var active := ActiveDevice(t, t[i].ref);
    if active.Some? {
      var j :| 0 <= j < |t| && t[j] == active.value;
    }
  }

  /** The current channel, when there is one, is a live row of the newest generation. */
  lemma CurrentChannelIsLive(t: Table, id: Identity)
    requires Inv(t) && CurrentChannel(t, id).Some?
    ensures exists i :: 0 <= i < |t| && t[i] == CurrentChannel(t, id).value && Live(t[i])
    ensures LatestGeneration(t, id) == Some(CurrentChannel(t, id).value.ref.generation)
  {
    var r := CurrentChannel(t, id).value;
    var i :| 0 <= i < |t| && t[i] == r;
    LiveIsNewest(t, i);
  }

  // -- Admission -----------------------------------------------------------------

  /** Checking an incoming policy against the live row alone decides exactly what the
      ledger's scan of every grant of that generation decides. */
  lemma PolicyCheckNeedsOnlyLiveRow(t: Table, value: Row, l: Row)
    requires Inv(t) && CurrentChannel(t, value.ref.identity) == Some(l) && l.ref == value.ref
    ensures PolicyRegresses(t, value) <==> !PolicyKept(l.response.policy, value.response.policy)
  {
    var k :| 0 <= k < |t| && t[k] == l;
    LiveIsNewest(t, k);
    forall i | 0 <= i < |t| && t[i].ref == value.ref && IsGrant(t[i])
      ensures PolicyKept(l.response.policy, value.response.policy)
              ==> PolicyKept(t[i].response.policy, value.response.policy)
    {
      if i != k { assert PairOk(t[i], t[k]); }
    }
  }

  /** The whole admission guard, restated on the one live row: a fresh operation commits iff
      it is a provision of a generation newer than all recorded ones, or a refresh of
      exactly the live row that keeps its policy and has a reason. */
  predicate LiveRowAdmits(t: Table, value: Row, runtime: Option<Row>) {
    var latest := LatestGeneration(t, value.ref.identity);
    var live := CurrentChannel(t, value.ref.identity);
    if value.kind == Provision then
      latest.None? || Older(latest.value, value.ref.generation)
    else
      live.Some? && live.value.ref == value.ref
      && PolicyKept(live.value.response.policy, value.response.policy)
      && Justifies(live.value, value, runtime)
  }

  predicate Fresh(t: Table, value: Row) {
    forall r | r in t :: !SameKey(r, value)
  }

  lemma ExpiryKeepsKeys(t: Table, now: int, value: Row)
    ensures Fresh(Expire(t, now), value) <==> Fresh(t, value)
  {
    var e := Expire(t, now);
    if Fresh(t, value) {
      forall r | r in e ensures !SameKey(r, value) {
        var i :| 0 <= i < |e| && e[i] == r;
        assert t[i] in t;
      }
    }
    if Fresh(e, value) {
      forall r | r in t ensures !SameKey(r, value) {
        var i :| 0 <= i < |t| && t[i] == r;
        assert e[i] in e;
      }
    }
  }

  lemma JustifyingRowIsLive(t: Table, value: Row, runtime: Option<Row>)
    requires Inv(t)
    ensures RefreshJustified(t, value, runtime) <==>
            var live := CurrentChannel(t, value.ref.identity);
            live.Some? && live.value.ref == value.ref && Justifies(live.value, value, runtime)
  {
    if RefreshJustified(t, value, runtime) {
      var k :| 0 <= k < |t| && t[k].ref == value.ref && Justifies(t[k], value, runtime);
      LiveRowIsCurrentChannel(t, k);
    }
  }

  lemma GuardIsLiveRowGuard(t: Table, value: Row, runtime: Option<Row>)
    requires Inv(t) && NewGrant(value)
    ensures !Stale(t, value.ref) && !Inadmissible(t, value, runtime) <==> LiveRowAdmits(t, value, runtime)
  {
    var live, latest := CurrentChannel(t, value.ref.identity), LatestGeneration(t, value.ref.identity);
    JustifyingRowIsLive(t, value, runtime);
    if latest == Some(value.ref.generation) {
      assert HasGeneration(t, value.ref);
      if live.Some? && live.value.ref == value.ref { PolicyCheckNeedsOnlyLiveRow(t, value, live.value); }
    } else if live.Some? {
      CurrentChannelIsLive(t, value.ref.identity);
    }
  }

  lemma FreshIsNotFound(t: Table, value: Row)
    ensures Fresh(t, value) <==> Find(t, value.ref, value.kind, value.operationId).None?
  {}

  lemma AdmissionDecidedByLiveRow(t: Table, value: Row, now: int, runtime: Option<Row>)
    requires Inv(t) && NewGrant(value) && Fresh(t, value)
    ensures CreateProvision(t, value, now, runtime).0 == Stored(value, false)
            <==> LiveRowAdmits(Expire(t, now), value, runtime)
    ensures !LiveRowAdmits(Expire(t, now), value, runtime)
            ==> CreateProvision(t, value, now, runtime).1 == t
  {
    var e := Expire(t, now);
    ExpiryKeepsInvariant(t, now);
    ExpiryKeepsKeys(t, now, value);
    FreshIsNotFound(e, value);
    GuardIsLiveRowGuard(e, value, runtime);
    if Admitted(e, value, runtime) {
      AdmittedGrantFits(e, value, now, runtime);
      FittingRowIsInsertable(t, Supersede(e, value, now), value);
    }
  }

  /** A live last row is its device's channel, and every earlier row of the device is scrubbed. */
  lemma LastRowTakesOver(u: Table, i: int)
    requires Inv(u) && 0 <= i < |u| - 1 && Live(u[|u| - 1]) && u[i].ref.identity == u[|u| - 1].ref.identity
    ensures !Live(u[i]) && u[i].handle == SCRUBBED
  {
    LiveIsNewest(u, |u| - 1);
    if Live(u[i]) { LiveIsNewest(u, i); }
    assert RowOk(u[i]);
  }

  lemma SupersedeSparesOthers(t: Table, value: Row, now: int, i: int)
    requires 0 <= i < |t| && t[i].ref.identity != value.ref.identity
    ensures Supersede(t, value, now)[i] == t[i]
  {}

  lemma CommittedGrantIsLast(t: Table, value: Row, now: int, runtime: Option<Row>)
    requires CreateProvision(t, value, now, runtime).0 == Stored(value, false) && Fresh(t, value)
    ensures CreateProvision(t, value, now, runtime).1 == Supersede(Expire(t, now), value, now) + [value]
  {
    ExpiryKeepsKeys(t, now, value);
  }

  /** After a grant commits it is the device's current channel, its predecessor's credential
      is gone, and every other identity is untouched but for expiry. */
  lemma CommittedGrantTakesOver(t: Table, value: Row, now: int, runtime: Option<Row>)
    requires Inv(t) && NewGrant(value) && Fresh(t, value)
    requires CreateProvision(t, value, now, runtime).0 == Stored(value, false)
    ensures var u := CreateProvision(t, value, now, runtime).1;
            && CurrentChannel(u, value.ref.identity) == Some(value)
            && |u| == |t| + 1 && u[|t|] == value
            && (forall i | 0 <= i < |t| && t[i].ref.identity == value.ref.identity ::
                  !Live(u[i]) && u[i].handle == SCRUBBED)
            && (forall i | 0 <= i < |t| && t[i].ref.identity != value.ref.identity :: u[i] == Expire(t, now)[i])
  {
    var u := CreateProvision(t, value, now, runtime).1;
    CreateKeepsInvariant(t, value, now, runtime);
    CommittedGrantIsLast(t, value, now, runtime);
    SupersedeKeepsLength(Expire(t, now), value, now);
    LiveRowIsCurrentChannel(u, |t|);
    forall i | 0 <= i < |t|
      ensures t[i].ref.identity == value.ref.identity ==> !Live(u[i]) && u[i].handle == SCRUBBED
      ensures t[i].ref.identity != value.ref.identity ==> u[i] == Expire(t, now)[i]
    {
      SupersededRow(t, Supersede(Expire(t, now), value, now), u, value, now, i);
    }
  }

  lemma SupersedeKeepsLength(t: Table, value: Row, now: int)
    ensures |Supersede(t, value, now)| == |t|
  {}

  lemma SupersededRow(t: Table, w: Table, u: Table, value: Row, now: int, i: int)
    requires Inv(u) && Live(value) && w == Supersede(Expire(t, now), value, now) && u == w + [value]
    requires 0 <= i < |t| == |w|
    ensures t[i].ref.identity == value.ref.identity ==> !Live(u[i]) && u[i].handle == SCRUBBED
    ensures t[i].ref.identity != value.ref.identity ==> u[i] == Expire(t, now)[i]
  {
    SupersedeKeepsRefs(Expire(t, now), value, now, i);
    assert u[i] == w[i];
    if t[i].ref.identity == value.ref.identity { LastRowTakesOver(u, i); }
    else { SupersedeSparesOthers(Expire(t, now), value, now, i); }
  }

  lemma SupersedeKeepsRefs(t: Table, value: Row, now: int, i: int)
    requires 0 <= i < |t|
    ensures Supersede(t, value, now)[i].ref == t[i].ref
  {}

  /** A lapsed credential can always be renewed: a fresh refresh of the lapsed generation
      that keeps the policy commits, needing no other reason. */
  lemma LapsedCredentialCanBeRefreshed(t: Table, value: Row, now: int, runtime: Option<Row>, l: Row)
    requires Inv(t) && NewGrant(value) && Fresh(t, value) && value.kind == Refresh
    requires CurrentChannel(Expire(t, now), value.ref.identity) == Some(l)
    requires l.status == Expired && l.ref == value.ref
    requires PolicyKept(l.response.policy, value.response.policy)
    ensures CreateProvision(t, value, now, runtime).0 == Stored(value, false)
  {
    AdmissionDecidedByLiveRow(t, value, now, runtime);
  }

  // -- Replay ----------------------------------------------------------------------

  /** Uniqueness of keys: the row found under a key is the one recorded there. */
  lemma FindReturnsRecorded(t: Table, i: int)
    requires Inv(t) && 0 <= i < |t|
    ensures Find(t, t[i].ref, t[i].kind, t[i].operationId) == Some(t[i])
  {
    assert t[i] in t;
    var found := Find(t, t[i].ref, t[i].kind, t[i].operationId);
    var j :| 0 <= j < |t| && t[j] == found.value;
    if j < i { assert false; } else if i < j { assert false; }
  }

  /** An operation presented again under a recorded key. */
  lemma RetryMeetsRecordedRow(t: Table, k: int, retry: Row, now: int, observed: Option<Row>)
    requires Inv(t) && 0 <= k < |t| && SameKey(retry, t[k])
    ensures var (outcome, after) := CreateProvision(t, retry, now, observed);
            if Stale(Expire(t, now), retry.ref) then outcome == Refused(StaleGeneration) && after == t
            else if retry.fingerprint != t[k].fingerprint then
              outcome == Refused(IdempotencyConflict) && after == t
            else
              outcome == Stored(Expire(t, now)[k], true) && after == Expire(t, now)
  {
    ExpiryKeepsInvariant(t, now);
    FindReturnsRecorded(Expire(t, now), k);
  }

  lemma RowMoves(t: Table, u: Table, i: int)
    requires Extends(t, u) && 0 <= i < |t|
    ensures Moves(t[i], u[i])
  {
    assert Moves(t[i], u[..|t|][i]);
  }

  /** A committed operation retried after any further history either meets a newer
      generation, or gets back the response stored the first time while nothing changes but
      expiry; with different content it is always refused and nothing changes at all. */
  lemma RetryReturnsStoredResponse(t: Table, value: Row, at: int, runtime: Option<Row>,
                                   xs: seq<Transaction>, retry: Row, now: int, observed: Option<Row>)
    requires Inv(t) && NewGrant(value) && Fresh(t, value)
    requires CreateProvision(t, value, at, runtime).0 == Stored(value, false)
    requires forall x | x in xs :: WellFormed(x)
    requires SameKey(retry, value)
    ensures var u := Run(CreateProvision(t, value, at, runtime).1, xs);
            var (outcome, after) := CreateProvision(u, retry, now, observed);
            if Stale(Expire(u, now), value.ref) then outcome == Refused(StaleGeneration) && after == u
            else if retry.fingerprint != value.fingerprint then
              outcome == Refused(IdempotencyConflict) && after == u
            else
              outcome.Stored? && outcome.replayed && outcome.row.response == value.response
              && SameStamp(outcome.row, value) && after == Expire(u, now)
  {
    var c := CreateProvision(t, value, at, runtime).1;
    CreateKeepsInvariant(t, value, at, runtime);
    CommittedGrantTakesOver(t, value, at, runtime);
    RunKeepsInvariant(c, xs);
    var u := Run(c, xs);
    RowMoves(c, u, |t|);
    RetryMeetsRecordedRow(u, |t|, retry, now, observed);
  }

  // -- Grammar of a generation --------------------------------------------------------

  /** The kinds recorded at one generation of a device, in order. */
  function Lifecycle(t: Table, ref: DeviceRef): (ks: seq<Kind>)
    ensures forall k | k in ks :: exists i :: 0 <= i < |t| && t[i].ref == ref && t[i].kind == k
    ensures forall i | 0 <= i < |t| && t[i].ref == ref :: t[i].kind in ks
  {
    if t == [] then []
    else
      var n := |t| - 1;
      var front := Lifecycle(t[..n], ref);
      assert forall i | 0 <= i < n :: t[..n][i] == t[i];
      if t[n].ref == ref then front + [t[n].kind] else front
  }

  predicate Ended(ks: seq<Kind>, n: nat) {
    n <= |ks| && forall i | n <= i < |ks| :: ks[i] == Revoke
  }

  predicate Granted(ks: seq<Kind>, n: nat) {
    n <= |ks| && (n > 0 ==> ks[0] == Provision) && forall i | 1 <= i < n :: ks[i] == Refresh
  }

  /** (PROVISION REFRESH*)? REVOKE* */
  ghost predicate LawfulLifecycle(ks: seq<Kind>) {
    exists n: nat :: Granted(ks, n) && Ended(ks, n)
  }

  lemma PrefixKeepsInvariant(t: Table)
    requires Inv(t) && t != []
    ensures Inv(t[..|t| - 1])
  {
    var u := t[..|t| - 1];
    forall j | 0 <= j < |u| && u[j].kind == Refresh ensures exists p :: p < j && Opens(u, p, u[j].ref) {
      var p :| p < j && Opens(t, p, t[j].ref);
      assert Opens(u, p, u[j].ref);
    }
  }

  lemma LawfulStep(front: seq<Kind>, k: Kind)
    requires LawfulLifecycle(front)
    requires k == Provision ==> front == []
    requires k == Refresh ==> front != [] && forall i | 0 <= i < |front| :: front[i] != Revoke
    ensures LawfulLifecycle(front + [k])
  {
    var n: nat :| Granted(front, n) && Ended(front, n);
    var ks := front + [k];
    match k
    case Provision => assert Granted(ks, 1) && Ended(ks, 1);
    case Refresh => assert Granted(ks, |ks|) && Ended(ks, |ks|);
    case Revoke => assert Granted(ks, n) && Ended(ks, n);
  }

  /** Every generation's history reads (PROVISION REFRESH*)? REVOKE*. */
  lemma {:induction false} GenerationGrammar(t: Table, ref: DeviceRef)
    requires Inv(t)
    ensures LawfulLifecycle(Lifecycle(t, ref))
  {
    if t == [] {
      assert Granted([], 0) && Ended([], 0);
    } else {
      var n := |t| - 1;
      var front := Lifecycle(t[..n], ref);
      PrefixKeepsInvariant(t);
      GenerationGrammar(t[..n], ref);
      if t[n].ref == ref {
        forall m | 0 <= m < |front| ensures t[n].kind != Provision && (t[n].kind == Refresh ==> front[m] != Revoke) {
          assert front[m] in front;
          var i :| 0 <= i < n && t[i].ref == ref && t[i].kind == front[m];
          assert PairOk(t[i], t[n]);
        }
        if t[n].kind == Refresh {
          var p :| p < n && Opens(t, p, ref);
          assert t[..n][p].kind in front;
        }
        if front != [] { assert front[0] in front; }
        LawfulStep(front, t[n].kind);
      }
    }
  }

  // -- Revocation is terminal -----------------------------------------------------------

  /** A live row and a revocation of the same device: the live row's generation is strictly
      greater and its provision was recorded after the revocation. */
  lemma LiveRowOutranksRevocation(t: Table, k: int, i: int)
    requires Inv(t) && 0 <= k < |t| && t[k].kind == Revoke
    requires 0 <= i < |t| && Live(t[i]) && t[i].ref.identity == t[k].ref.identity
    ensures Older(t[k].ref.generation, t[i].ref.generation)
    ensures exists p :: k < p && Opens(t, p, t[i].ref)
  {
    assert RowOk(t[k]) && RowOk(t[i]);
    LiveIsNewest(t, i);
    assert PairOk(t[k], t[i]);
    if t[i].kind == Provision {
      assert Opens(t, i, t[i].ref);
    } else {
      var p :| p < i && Opens(t, p, t[i].ref);
      assert t[p].ref == t[i].ref;
      if p < k { assert false; }
      assert k < p;
    }
  }

  /** A device whose newest row is a revocation has no channel. */
  lemma RevokedDeviceHasNoChannel(t: Table)
    requires Inv(t) && t != [] && t[|t| - 1].kind == Revoke
    ensures CurrentChannel(t, t[|t| - 1].ref.identity).None?
  {
    var n := |t| - 1;
    assert RowOk(t[n]);
    forall r | r in t ensures !Bearing(r, t[n].ref.identity) {
      var i :| 0 <= i < |t| && t[i] == r;
      if i < n { assert PairOk(t[i], t[n]); }
    }
  }

  /** Once a generation has a revocation, even one recorded before any provision, every live
      row of that device in any later table belongs to a strictly greater generation whose
      own provision was recorded after the revocation. */
  lemma RevocationIsTerminal(t: Table, k: int, xs: seq<Transaction>, i: int)
    requires Inv(t) && 0 <= k < |t| && t[k].kind == Revoke
    requires forall x | x in xs :: WellFormed(x)
    requires 0 <= i < |Run(t, xs)| && Live(Run(t, xs)[i])
    requires Run(t, xs)[i].ref.identity == t[k].ref.identity
    ensures Older(t[k].ref.generation, Run(t, xs)[i].ref.generation)
    ensures exists p :: k < p && Opens(Run(t, xs), p, Run(t, xs)[i].ref)
  {
    RunKeepsInvariant(t, xs);
    var u := Run(t, xs);
    assert Moves(t[k], u[..|t|][k]);
    LiveRowOutranksRevocation(u, k, i);
  }

  lemma RevokedGenerationAdmitsNothing(t: Table, k: int, value: Row, runtime: Option<Row>)
    requires Inv(t) && 0 <= k < |t| && t[k].kind == Revoke
    requires NewGrant(value) && value.ref.identity == t[k].ref.identity
    requires !Older(t[k].ref.generation, value.ref.generation)
    ensures !LiveRowAdmits(t, value, runtime)
  {
    var live, latest := CurrentChannel(t, value.ref.identity), LatestGeneration(t, value.ref.identity);
    assert latest.Some? && !Older(latest.value, t[k].ref.generation);
    if live.Some? {
      var i :| 0 <= i < |t| && t[i] == live.value;
      LiveRowOutranksRevocation(t, k, i);
    }
  }

  /** A grant at a revoked generation, or at any older one, is refused after any history. */
  lemma RevokedGenerationTakesNoGrant(t: Table, k: int, xs: seq<Transaction>, value: Row, now: int,
                                      runtime: Option<Row>)
    requires Inv(t) && 0 <= k < |t| && t[k].kind == Revoke
    requires forall x | x in xs :: WellFormed(x)
    requires NewGrant(value) && value.ref.identity == t[k].ref.identity
    requires !Older(t[k].ref.generation, value.ref.generation) && Fresh(Run(t, xs), value)
    ensures CreateProvision(Run(t, xs), value, now, runtime).0 != Stored(value, false)
    ensures CreateProvision(Run(t, xs), value, now, runtime).1 == Run(t, xs)
  {
    var u := Run(t, xs);
    RunKeepsInvariant(t, xs);
    AdmissionDecidedByLiveRow(u, value, now, runtime);
    var e := Expire(u, now);
    ExpiryKeepsInvariant(u, now);
    ExtendsCompose(t, u, e);
    assert Moves(t[k], e[..|t|][k]);
    RevokedGenerationAdmitsNothing(e, k, value, runtime);
  }
}
