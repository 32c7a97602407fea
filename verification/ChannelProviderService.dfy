/** The service object of service.py as one process sees it: locked calls that drive the
    store and the adapter step by step. */
module ChannelProviderService {
  import opened Contracts
  import opened OperationLedger
  import opened LedgerHistory
  import opened LedgerGuarantees
  import opened TransportResources
  import opened ResourceConservation
  import ChannelProviderStore

  class Provider {
    const store: ChannelProviderStore.Store
    var standing: set<Resource>
    var reserved: set<string>

    ghost function State(): Service
      reads this, store
    {
      Service(store.rows, standing, reserved)
    }

    ghost predicate Valid()
      reads this, store
    {
      Inv(store.rows)
    }

    constructor ()
      ensures Valid() && State() == Service([], {}, {}) && fresh(store)
    {
      store := new ChannelProviderStore.Store();
      standing, reserved := {}, {};
    }

    /** adapter.open: the resource the new handle names stands from now on. */
    method Open(adapter: string, h: Handle)
      modifies this`standing
      ensures standing == old(standing) + Named(adapter, h)
    {
      standing := standing + Named(adapter, h);
    }

    /** adapter.close, unless stopping or closing raises: the resource is gone, for everyone. */
    method Close(adapter: string, h: Handle, f: Faults) returns (trouble: Option<DomainError>)
      modifies this`standing
      ensures (trouble, State()) == CloseReached(old(State()), adapter, h, f)
    {
      if f.closeFails { return Some(BackendUnavailable); }
      standing := standing - Named(adapter, h);
      trouble := None;
    }

    /** Close a candidate unless the given row, whose adapter is looked up first, stands on the
        same resource. */
    method CloseUnless(adapter: string, h: Handle, row: Option<Row>, f: Faults) returns (trouble: Option<DomainError>)
      modifies this`standing
      ensures (trouble, State()) == TransportResources.CloseUnless(old(State()), adapter, h, row, f)
    {
      if row.Some? && row.value.adapterName !in f.configured { return Some(NoAdapterAvailable); }
      if SameAsRow(adapter, h, row) { return None; }
      trouble := Close(adapter, h, f);
    }

    method RetirePrevious(previous: Row, adapter: string, h: Handle, f: Faults) returns (trouble: Option<DomainError>)
      modifies this`standing
      ensures (trouble, State()) == TransportResources.RetirePrevious(old(State()), previous, adapter, h, f)
    {
      if previous.adapterName !in f.configured { return Some(NoAdapterAvailable); }
      if SameResource(previous.adapterName, previous.handle, adapter, h) { return None; }
      trouble := Close(previous.adapterName, previous.handle, f);
    }

    method Settle(adapter: string, g: Grant, previous: Option<Row>, outcome: Outcome, f: Faults)
      returns (result: Result<Response>)
      modifies this`standing
      ensures (result, State()) == TransportResources.Settle(old(State()), adapter, g, previous, outcome, f)
    {
      match outcome
      case Refused(e) =>
        var trouble := CloseUnless(adapter, g.handle, previous, f);
        return Failure(if trouble.Some? then trouble.value else e);
      case Stored(committed, replayed) =>
        var trouble := None;
        if replayed {
          if committed.adapterName !in f.configured { return Failure(NoAdapterAvailable); }
          if !Live(committed) { return Failure(UnreadableHandle); }
          trouble := CloseUnless(adapter, g.handle, Some(committed), f);
        } else if previous.Some? && !SameKey(previous.value, committed) {
          trouble := RetirePrevious(previous.value, adapter, g.handle, f);
        }
        return if trouble.Some? then Failure(trouble.value) else Success(committed.response);
    }

    method CommitGrant(q: ProvisionRequest, a: Attempt, g: Grant, previous: Option<Row>)
      returns (result: Result<Response>)
      requires Inv(store.rows) && ProperRequest(q)
      modifies this`standing, store
      ensures (result, State()) == TransportResources.CommitGrant(old(State()), q, a, g, previous)
      ensures Inv(store.rows)
    {
      var adapter := ChosenAdapter(q, previous, a);
      var outcome := Refused(BackendUnavailable);
      if !a.faults.storeFails {
        outcome := store.Create(GrantRow(q, g, adapter, a.now), a.now, RuntimeRefreshOf(q, previous, a));
      }
      result := Settle(adapter, g, previous, outcome, a.faults);
    }

    method OpenAndCommit(q: ProvisionRequest, a: Attempt, previous: Option<Row>) returns (result: Result<Response>)
      requires Inv(store.rows) && ProperRequest(q) && Alone(a)
      modifies this`standing, store
      ensures (result, State()) == TransportResources.OpenAndCommit(old(State()), q, a, previous)
      ensures Inv(store.rows)
    {
      var adapter := ChosenAdapter(q, previous, a);
      var isReserved := q.ref.identity.device in reserved;
      if adapter !in a.faults.configured {
        return Failure(NoAdapterAvailable);
      }
      if isReserved && !SameAuthority(q, previous, adapter) {
        return Failure(TransportTransitionRequired);
      }
      if a.grant.None? {
        return Failure(BackendUnavailable);
      }
      var g := a.grant.value;
      Open(adapter, g.handle);
      assert standing == old(standing) + a.peers + Named(adapter, g.handle);
      if isReserved && !SameResource(adapter, g.handle, adapter, previous.value.handle) {
        var trouble := Close(adapter, g.handle, a.faults);
        return Failure(if trouble.Some? then trouble.value else TransportTransitionRequired);
      }
      result := CommitGrant(q, a, g, previous);
    }

    method ProvisionOnce(q: ProvisionRequest, a: Attempt) returns (result: Result<Response>)
      requires Valid() && ProperRequest(q) && Alone(a)
      modifies this`standing, store
      ensures (result, State()) == TransportResources.ProvisionOnce(old(State()), q, a)
      ensures Valid() && Orphans(State()) <= Orphans(old(State())) + Leftover(old(State()), q, a)
      ensures ServiceInv(old(State())) ==>
                (ServiceInv(State())
                 <==> SparesOthers(old(store.rows), q.ref.identity, ProvisionCloses(UpTo(old(State()), a.now), q, a)))
    {
      ProvisionOrphansExactly(State(), q, a);
      if ServiceInv(State()) { ProvisionKeepsStandingIff(State(), q, a); }
      store.ExpireCredentials(a.now);
      if Stale(store.rows, q.ref) {
        return Failure(StaleGeneration);
      }
      var stored := Find(store.rows, q.ref, q.kind, q.operationId);
      if stored.Some? {
        if stored.value.fingerprint != q.fingerprint {
          return Failure(IdempotencyConflict);
        }
        if stored.value.status == Fenced || stored.value.status == Revoked {
          return Failure(InvalidTransition);
        }
        return Success(stored.value.response);
      }
      var previous := store.Current(q.ref.identity);
      CurrentIsChannel(store.rows, q.ref.identity, previous);
      if previous.Some? && previous.value.ref == q.ref && !PolicyKept(previous.value.response.policy, q.policy) {
        return Failure(InvalidTransition);
      }
      result := OpenAndCommit(q, a, previous);
    }

    method CloseActive(ref: DeviceRef, f: Faults) returns (trouble: Option<DomainError>)
      modifies this`standing
      ensures (trouble, State()) == TransportResources.CloseActive(old(State()), ref, f)
    {
      var active := ActiveDevice(store.rows, ref);
      if active.None? { return None; }
      if active.value.adapterName !in f.configured { return Some(NoAdapterAvailable); }
      trouble := Close(active.value.adapterName, active.value.handle, f);
    }

    method RevokeOnce(v: Revocation, now: int, f: Faults) returns (result: Result<Response>)
      requires Valid()
      modifies this`standing, store
      ensures (result, State()) == TransportResources.RevokeOnce(old(State()), v, now, f)
      ensures Valid()
      ensures ServiceInv(old(State())) ==>
                var closed := RevokeCloses(UpTo(old(State()), now), v, f);
                ServiceInv(State())
                <==> SparesOthers(old(store.rows), v.ref.identity, closed) && (f.storeFails ==> closed == {})
    {
      if ServiceInv(State()) { RevokeKeepsStandingIff(State(), v, now, f); }
      store.ExpireCredentials(now);
      if Stale(store.rows, v.ref) {
        return Failure(StaleGeneration);
      }
      var prior := Find(store.rows, v.ref, Revoke, v.operationId);
      if prior.Some? {
        if prior.value.fingerprint != v.fingerprint {
          return Failure(IdempotencyConflict);
        }
        return Success(prior.value.response);
      }
      if v.ref.identity.device in reserved {
        return Failure(TransportTransitionRequired);
      }
      result := CloseAndRecord(v, now, f);
    }

    /** The channel is closed before the revocation is committed; the database may fail to take it. */
    method CloseAndRecord(v: Revocation, now: int, f: Faults) returns (result: Result<Response>)
      requires Valid()
      modifies this`standing, store
      ensures Valid()
      ensures (result, State()) == TransportResources.CloseAndRecord(old(State()), v, now, f)
    {
      var trouble := CloseActive(v.ref, f);
      if trouble.Some? { return Failure(trouble.value); }
      if f.storeFails { return Failure(BackendUnavailable); }
      var outcome := store.Revoke(v, now);
      match outcome
      case Refused(e) => return Failure(e);
      case Stored(row, _) => return Success(row.response);
    }

    method ConvergeServing(ref: DeviceRef, start: bool, now: int) returns (served: Serving)
      requires Valid()
      modifies store
      ensures Valid() && State() == UpTo(old(State()), now)
      ensures served == TransportResources.ConvergeServing(old(State()), ref, start, now)
      ensures served.SessionOpened? ==>
                ref.identity.device !in reserved && served.row.status == Active && served.row.ref == ref
    {
      ExpiryMovesNothing(State(), now);
      store.ExpireCredentials(now);
      var channel := ActiveDevice(store.rows, ref);
      if channel.None? && !start {
        var current := store.Current(ref.identity);
        CurrentIsChannel(store.rows, ref.identity, current);
        if current.Some? && current.value.status == Expired && current.value.ref == ref {
          channel := current;
        }
      }
      if channel.None? {
        return Declined(UnknownChannel);
      }
      if start && ref.identity.device in reserved {
        return Declined(InvalidTransition);
      }
      return if start then SessionOpened(channel.value) else SessionClosed(channel.value);
    }
  }

  lemma CurrentIsChannel(t: Table, id: Identity, r: Option<Row>)
    requires r.Some? ==> r.value in t && Bearing(r.value, id)
    requires forall x | x in t && Bearing(x, id) :: r == Some(x)
    ensures r == CurrentChannel(t, id)
  {}
}
