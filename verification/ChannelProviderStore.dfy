/** The store object of store.py: one table, changed in place by transactions that either
    commit whole or leave it as it was. */
module ChannelProviderStore {
  import opened Contracts
  import opened OperationLedger
  import opened LedgerHistory
  import LedgerGuarantees

  class Store {
    var rows: Table

    ghost predicate Valid()
      reads this
    {
      Inv(rows)
    }

    constructor ()
      ensures Valid() && rows == []
    {
      rows := [];
    }

    method ExpireCredentials(now: int)
      requires Valid()
      modifies this
      ensures Valid() && rows == Expire(old(rows), now)
    {
      ExpiryKeepsInvariant(rows, now);
      rows := Expire(rows, now);
    }

    /** The device's current channel is its one live row, active or lapsed. */
    method Current(id: Identity) returns (r: Option<Row>)
      requires Valid()
      ensures r.Some? ==> r.value in rows && Bearing(r.value, id)
                          && LatestGeneration(rows, id) == Some(r.value.ref.generation)
      ensures forall x | x in rows && Bearing(x, id) :: r == Some(x)
    {
      r := CurrentChannel(rows, id);
      if r.Some? {
        ghost var i :| 0 <= i < |rows| && rows[i] == r.value;
        LedgerGuarantees.LiveRowIsCurrentChannel(rows, i);
      }
    }

    /** Rows that can still be observed: each is its own device's current channel. */
    method ObservableProvisions() returns (observed: seq<Row>)
      requires Valid()
      ensures forall r :: r in observed <==> r in rows && Live(r)
      ensures forall r | r in observed :: CurrentChannel(rows, r.ref.identity) == Some(r)
    {
      observed := [];
      for i := 0 to |rows|
        invariant forall r :: r in observed <==> r in rows[..i] && Live(r)
      {
        assert rows[..i + 1] == rows[..i] + [rows[i]];
        if Live(rows[i]) { observed := observed + [rows[i]]; }
      }
      assert rows[..|rows|] == rows;
      forall r | r in observed ensures CurrentChannel(rows, r.ref.identity) == Some(r) {
        var i :| 0 <= i < |rows| && rows[i] == r;
        LedgerGuarantees.LiveRowIsCurrentChannel(rows, i);
      }
    }

    method FenceOlderRows(t: Table, ref: DeviceRef, reason: string, now: int) returns (u: Table)
      ensures u == FenceOlder(t, ref, reason, now)
    {
      u := t;
      for i := 0 to |t|
        invariant |u| == |t|
        invariant forall j | 0 <= j < i :: u[j] == FenceOlderRow(t[j], ref, reason, now)
        invariant forall j | i <= j < |t| :: u[j] == t[j]
      {
        if t[i].ref.identity == ref.identity && Live(t[i]) && Older(t[i].ref.generation, ref.generation) {
          u := u[i := EndRow(t[i], Fenced, reason, now)];
        }
      }
    }

    /** Whether some grant of the generation carries a policy the incoming one would regress. */
    method RegressesPolicy(t: Table, value: Row) returns (regresses: bool)
      ensures regresses <==> PolicyRegresses(t, value)
    {
      for i := 0 to |t|
        invariant forall j | 0 <= j < i :: t[j].ref == value.ref && IsGrant(t[j])
                                           ==> PolicyKept(t[j].response.policy, value.response.policy)
      {
        if t[i].ref == value.ref && IsGrant(t[i]) && !PolicyKept(t[i].response.policy, value.response.policy) {
          return true;
        }
      }
      return false;
    }

    method Create(value: Row, now: int, runtime: Option<Row>) returns (outcome: Outcome)
      requires Valid() && NewGrant(value)
      modifies this
      ensures Valid()
      ensures (outcome, rows) == CreateProvision(old(rows), value, now, runtime)
      ensures outcome != Refused(ConstraintViolated)
    {
      CreateKeepsInvariant(rows, value, now, runtime);
      var t := Expire(rows, now);
      var latest := LatestGeneration(t, value.ref.identity);
      if latest.Some? && Older(value.ref.generation, latest.value) {
        return Refused(StaleGeneration);
      }
      var prior := Find(t, value.ref, value.kind, value.operationId);
      if prior.Some? {
        if prior.value.fingerprint != value.fingerprint {
          return Refused(IdempotencyConflict);
        }
        rows := t;
        return Stored(prior.value, true);
      }
      if latest == Some(value.ref.generation) {
        var regresses := RegressesPolicy(t, value);
        if regresses
           || (value.kind == Provision && HasGeneration(t, value.ref))
           || (value.kind == Refresh && !RefreshJustified(t, value, runtime)) {
          return Refused(InvalidTransition);
        }
      } else if value.kind != Provision {
        return Refused(InvalidTransition);
      }
      if latest.Some? && Older(latest.value, value.ref.generation) {
        t := FenceOlderRows(t, value.ref, "generation_advanced", now);
      } else if value.kind == Refresh {
        t := EndGeneration(t, value.ref, Fenced, "credential_refreshed", now);
      }
      if BreaksUniqueness(t, value) {
        return Refused(ConstraintViolated);
      }
      rows := t + [value];
      return Stored(value, false);
    }

    method Revoke(v: Revocation, now: int) returns (outcome: Outcome)
      requires Valid()
      modifies this
      ensures Valid()
      ensures (outcome, rows) == CompleteRevocation(old(rows), v, now)
      ensures outcome != Refused(ConstraintViolated)
      ensures outcome.Stored? && !outcome.replayed ==> CurrentChannel(rows, v.ref.identity).None?
    {
      RevokeKeepsInvariant(rows, v, now);
      var t := Expire(rows, now);
      var latest := LatestGeneration(t, v.ref.identity);
      if latest.Some? && Older(v.ref.generation, latest.value) {
        return Refused(StaleGeneration);
      }
      var prior := Find(t, v.ref, OperationLedger.Revoke, v.operationId);
      if prior.Some? {
        if prior.value.fingerprint != v.fingerprint {
          return Refused(IdempotencyConflict);
        }
        rows := t;
        return Stored(prior.value, true);
      }
      if latest.Some? && Older(latest.value, v.ref.generation) {
        t := FenceOlderRows(t, v.ref, "generation_advanced", now);
      }
      t := EndGeneration(t, v.ref, Revoked, "claim_revoked", now);
      if BreaksUniqueness(t, RevocationRow(v, now)) {
        return Refused(ConstraintViolated);
      }
      rows := t + [RevocationRow(v, now)];
      LedgerGuarantees.RevokedDeviceHasNoChannel(rows);
      return Stored(RevocationRow(v, now), false);
    }
  }
}
