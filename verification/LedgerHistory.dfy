/** What every history of the ledger keeps. The unique index covers only active rows;
    the guards rely on the stronger invariant stated here. */
module LedgerHistory {
  import opened Contracts
  import opened OperationLedger

  // -- The invariant -----------------------------------------------------------

  /** Only revocations are `completed`, and an ended grant bears no credential. */
  predicate RowOk(r: Row) {
    (r.kind == Revoke <==> r.status == Completed)
    && (!Live(r) ==> r.handle == SCRUBBED && r.expiresAt == 0)
  }

  /** How a later row `b` may relate to an earlier `a`, liveness aside: keys are unique,
      generations never go back, a generation starts with its provision, takes no refresh
      after a revocation, and keeps its policy. */
  predicate Follows(a: Row, b: Row) {
    !SameKey(a, b)
    && (a.ref.identity == b.ref.identity ==> !Older(b.ref.generation, a.ref.generation))
    && (a.ref == b.ref ==>
          && b.kind != Provision
          && (b.kind == Refresh ==> a.kind != Revoke)
          && (IsGrant(a) && IsGrant(b) ==> PolicyKept(a.response.policy, b.response.policy)))
  }

  /** How a row `a` must relate to every row `b` recorded after it. A live row has no
      successor at all. */
  predicate PairOk(a: Row, b: Row) {
    Follows(a, b) && (a.ref.identity == b.ref.identity ==> !Live(a))
  }

  predicate Opens(t: Table, p: int, ref: DeviceRef) {
    0 <= p < |t| && t[p].ref == ref && t[p].kind == Provision
  }

  ghost predicate Inv(t: Table) {
    && (forall i | 0 <= i < |t| :: RowOk(t[i]))
    && (forall i, j | 0 <= i < j < |t| :: PairOk(t[i], t[j]))
    && (forall j | 0 <= j < |t| && t[j].kind == Refresh :: exists p :: p < j && Opens(t, p, t[j].ref))
  }

  // -- Rows only move forward -----------------------------------------------------

  /** Everything about a row that no transaction rewrites. */
  predicate SameStamp(a: Row, b: Row) {
    SameKey(a, b) && a.fingerprint == b.fingerprint && a.ownerId == b.ownerId
    && a.manifestRevision == b.manifestRevision && a.adapterName == b.adapterName
    && a.channelId == b.channelId && a.response == b.response && a.createdAt == b.createdAt
  }

  /** active -> expired -> ended, never back; an ended row is frozen. */
  predicate Moves(a: Row, b: Row) {
    SameStamp(a, b)
    && (!Live(a) ==> b == a)
    && (a.status == Expired ==> b.status != Active)
    && (Live(b) ==> b.handle == a.handle && b.expiresAt == a.expiresAt)
    && (RowOk(a) ==> RowOk(b))
  }

  ghost predicate Rewrites(t: Table, u: Table) {
    |u| == |t| && forall i | 0 <= i < |t| :: Moves(t[i], u[i])
  }

  ghost predicate Extends(t: Table, u: Table) { |t| <= |u| && Rewrites(t, u[..|t|]) }

  lemma RewriteKeepsInvariant(t: Table, u: Table)
    requires Inv(t) && Rewrites(t, u)
    ensures Inv(u)
  {
    forall i, j | 0 <= i < j < |u| ensures PairOk(u[i], u[j]) {
      assert PairOk(t[i], t[j]) && Moves(t[i], u[i]) && Moves(t[j], u[j]);
    }
    forall j | 0 <= j < |u| && u[j].kind == Refresh ensures exists p :: p < j && Opens(u, p, u[j].ref) {
      assert Moves(t[j], u[j]);
      var p :| p < j && Opens(t, p, t[j].ref);
      assert Moves(t[p], u[p]);
      assert Opens(u, p, u[j].ref);
    }
  }

  lemma RewritesCompose(t: Table, u: Table, v: Table)
    requires Rewrites(t, u) && Rewrites(u, v)
    ensures Rewrites(t, v)
  {
    forall i | 0 <= i < |t| ensures Moves(t[i], v[i]) {
      assert Moves(t[i], u[i]) && Moves(u[i], v[i]);
    }
  }

  lemma ExtendsCompose(t: Table, u: Table, v: Table)
    requires Extends(t, u) && Extends(u, v)
    ensures Extends(t, v)
  {
    forall i | 0 <= i < |t| ensures Moves(t[i], v[..|t|][i]) {
      assert Moves(t[i], u[..|t|][i]) && Moves(u[i], v[..|u|][i]);
    }
  }

  lemma ExpireRewrites(t: Table, now: int)
    ensures Rewrites(t, Expire(t, now))
  {}

  lemma SupersedeRewrites(t: Table, value: Row, now: int)
    ensures Rewrites(t, Supersede(t, value, now))
  {}

  lemma WithdrawRewrites(t: Table, ref: DeviceRef, now: int)
    ensures Rewrites(t, Withdraw(t, ref, now))
  {
    var fenced := if Advances(t, ref) then FenceOlder(t, ref, "generation_advanced", now) else t;
    assert Rewrites(t, fenced) && Rewrites(fenced, Withdraw(t, ref, now));
    RewritesCompose(t, fenced, Withdraw(t, ref, now));
  }

  // -- Each transaction keeps the invariant -------------------------------------------

  lemma AppendKeepsInvariant(t: Table, value: Row)
    requires Inv(t) && RowOk(value)
    requires forall i | 0 <= i < |t| :: PairOk(t[i], value)
    requires value.kind == Refresh ==> exists p :: Opens(t, p, value.ref)
    ensures Inv(t + [value])
  {
    var u := t + [value];
    forall j | 0 <= j < |u| && u[j].kind == Refresh ensures exists p :: p < j && Opens(u, p, u[j].ref) {
      if j < |t| {
        var p :| p < j && Opens(t, p, t[j].ref);
        assert Opens(u, p, u[j].ref);
      } else {
        var p :| Opens(t, p, value.ref);
        assert Opens(u, p, u[j].ref);
      }
    }
  }

  /** A live row carries the greatest generation of its identity and is its newest row. */
  lemma LiveIsNewest(t: Table, i: int)
    requires Inv(t) && 0 <= i < |t| && Live(t[i])
    ensures LatestGeneration(t, t[i].ref.identity) == Some(t[i].ref.generation)
    ensures forall j | 0 <= j < |t| && j != i && t[j].ref.identity == t[i].ref.identity :: j < i && !Live(t[j])
  {
    forall j | 0 <= j < |t| && j != i && t[j].ref.identity == t[i].ref.identity
      ensures j < i && !Live(t[j]) && !Older(t[i].ref.generation, t[j].ref.generation)
    {
      if j > i { assert false; }
      assert PairOk(t[j], t[i]);
    }
    var latest := LatestGeneration(t, t[i].ref.identity);
    var k :| 0 <= k < |t| && t[k].ref == DeviceRef(t[i].ref.identity, latest.value);
    assert !Older(latest.value, t[i].ref.generation);
    assert k == i || !Older(t[i].ref.generation, t[k].ref.generation);
  }

  lemma MovedRowFits(a: Row, moved: Row, b: Row)
    requires Follows(a, b) && Moves(a, moved)
    requires a.ref.identity == b.ref.identity ==> !Live(moved)
    ensures PairOk(moved, b)
  {}

  predicate Admitted(t: Table, value: Row, runtime: Option<Row>) {
    NewGrant(value) && !Stale(t, value.ref)
    && Find(t, value.ref, value.kind, value.operationId).None?
    && !Inadmissible(t, value, runtime)
  }

  lemma AdmittedGrantFollows(t: Table, value: Row, runtime: Option<Row>, i: int)
    requires Inv(t) && Admitted(t, value, runtime) && 0 <= i < |t|
    ensures Follows(t[i], value)
  {
    assert t[i] in t;
    if t[i].ref.identity == value.ref.identity {
      var latest := LatestGeneration(t, value.ref.identity);
      assert !Older(latest.value, t[i].ref.generation);
      if t[i].ref == value.ref {
        assert latest == Some(value.ref.generation);
        forall k | 0 <= k < |t| && t[k].ref == value.ref && Live(t[k]) ensures t[i].kind != Revoke {
          LiveIsNewest(t, k);
        }
      }
    }
  }

  /** A new grant leaves no other live row at its identity. */
  lemma SupersedeSilences(t: Table, value: Row, now: int, runtime: Option<Row>, i: int)
    requires Inv(t) && Admitted(t, value, runtime) && 0 <= i < |t|
    requires t[i].ref.identity == value.ref.identity
    ensures !Live(Supersede(t, value, now)[i])
  {
    if Live(t[i]) { LiveIsNewest(t, i); }
  }

  lemma RefreshHasProvision(t: Table, value: Row, runtime: Option<Row>)
    requires Inv(t) && Admitted(t, value, runtime) && value.kind == Refresh
    ensures exists p :: Opens(t, p, value.ref)
  {
    var k :| 0 <= k < |t| && t[k].ref == value.ref && Justifies(t[k], value, runtime);
    if t[k].kind == Refresh {
      var p :| p < k && Opens(t, p, t[k].ref);
      assert Opens(t, p, value.ref);
    } else {
      assert Opens(t, k, value.ref);
    }
  }

  /** Once admitted, a grant fits after every row recorded before it. */
  lemma AdmittedGrantFits(t: Table, value: Row, now: int, runtime: Option<Row>)
    requires Inv(t) && Admitted(t, value, runtime)
    ensures forall i | 0 <= i < |t| :: PairOk(Supersede(t, value, now)[i], value)
    ensures value.kind == Refresh ==> exists p :: Opens(Supersede(t, value, now), p, value.ref)
  {
    var u := Supersede(t, value, now);
    SupersedeRewrites(t, value, now);
    forall i | 0 <= i < |t| ensures PairOk(u[i], value) {
      AdmittedGrantFollows(t, value, runtime, i);
      if t[i].ref.identity == value.ref.identity { SupersedeSilences(t, value, now, runtime, i); }
      MovedRowFits(t[i], u[i], value);
    }
    if value.kind == Refresh {
      RefreshHasProvision(t, value, runtime);
      var p :| Opens(t, p, value.ref);
      assert Moves(t[p], u[p]) && Opens(u, p, value.ref);
    }
  }

  lemma WithdrawSilences(t: Table, ref: DeviceRef, now: int, i: int)
    requires Inv(t) && !Stale(t, ref) && 0 <= i < |t| && t[i].ref.identity == ref.identity
    ensures !Live(Withdraw(t, ref, now)[i])
  {
    if Live(t[i]) { LiveIsNewest(t, i); }
  }

  lemma RevocationFollows(t: Table, v: Revocation, now: int, i: int)
    requires !Stale(t, v.ref) && Find(t, v.ref, Revoke, v.operationId).None? && 0 <= i < |t|
    ensures Follows(t[i], RevocationRow(v, now))
  {
    assert t[i] in t;
    var latest := LatestGeneration(t, v.ref.identity);
    assert t[i].ref.identity == v.ref.identity ==> !Older(latest.value, t[i].ref.generation);
  }

  lemma WithdrawnRowFits(t: Table, v: Revocation, now: int)
    requires Inv(t) && !Stale(t, v.ref) && Find(t, v.ref, Revoke, v.operationId).None?
    ensures forall i | 0 <= i < |t| :: PairOk(Withdraw(t, v.ref, now)[i], RevocationRow(v, now))
  {
    var u := Withdraw(t, v.ref, now);
    WithdrawRewrites(t, v.ref, now);
    forall i | 0 <= i < |t| ensures PairOk(u[i], RevocationRow(v, now)) {
      RevocationFollows(t, v, now, i);
      if t[i].ref.identity == v.ref.identity { WithdrawSilences(t, v.ref, now, i); }
      MovedRowFits(t[i], u[i], RevocationRow(v, now));
    }
  }

  /** Neither the primary key nor the unique index can refuse an insert the guards let through. */
  lemma FittingRowIsInsertable(before: Table, t: Table, value: Row)
    requires forall i | 0 <= i < |t| :: PairOk(t[i], value)
    ensures Insert(before, t, value) == (Stored(value, false), t + [value])
  {
    forall i | 0 <= i < |t|
      ensures !(SameKey(t[i], value)
                || (value.status == Active && t[i].status == Active && t[i].ref.identity == value.ref.identity))
    {
      assert PairOk(t[i], value);
    }
  }

  lemma RewriteExtends(t: Table, u: Table)
    requires Rewrites(t, u)
    ensures Extends(t, u)
  {
    assert u[..|t|] == u;
  }

  lemma ExpiryKeepsInvariant(t: Table, now: int)
    requires Inv(t)
    ensures Inv(Expire(t, now)) && Extends(t, Expire(t, now))
  {
    ExpireRewrites(t, now);
    RewriteKeepsInvariant(t, Expire(t, now));
    RewriteExtends(t, Expire(t, now));
  }

  /** Rewriting a table and appending one fitting row keeps the invariant and every row. */
  lemma GrowthKeepsInvariant(before: Table, t: Table, u: Table, value: Row)
    requires Inv(t) && Rewrites(t, u) && RowOk(value)
    requires forall i | 0 <= i < |u| :: PairOk(u[i], value)
    requires value.kind == Refresh ==> exists p :: Opens(u, p, value.ref)
    ensures Inv(u + [value]) && Extends(t, u + [value])
    ensures Insert(before, u, value) == (Stored(value, false), u + [value])
  {
    RewriteKeepsInvariant(t, u);
    AppendKeepsInvariant(u, value);
    FittingRowIsInsertable(before, u, value);
    assert (u + [value])[..|t|] == u;
  }

  lemma ExtendsItself(t: Table)
    ensures Extends(t, t)
  {
    assert t[..|t|] == t;
  }

  /** No provision or refresh can break the invariant, lose a row, or run into a constraint. */
  lemma CreateKeepsInvariant(t: Table, value: Row, now: int, runtime: Option<Row>)
    requires Inv(t) && NewGrant(value)
    ensures Inv(CreateProvision(t, value, now, runtime).1)
    ensures CreateProvision(t, value, now, runtime).0 != Refused(ConstraintViolated)
    ensures CreateProvision(t, value, now, runtime).0.Refused? ==> CreateProvision(t, value, now, runtime).1 == t
    ensures Extends(t, CreateProvision(t, value, now, runtime).1)
  {
    ExpiryKeepsInvariant(t, now);
    ExtendsItself(t);
    if Admitted(Expire(t, now), value, runtime) {
      AdmittedInsert(t, value, now, runtime);
      AdmittedInserts(t, value, now, runtime);
    }
  }

  lemma AdmittedInserts(t: Table, value: Row, now: int, runtime: Option<Row>)
    requires Admitted(Expire(t, now), value, runtime)
    requires !BreaksUniqueness(Supersede(Expire(t, now), value, now), value)
    ensures CreateProvision(t, value, now, runtime)
         == (Stored(value, false), Supersede(Expire(t, now), value, now) + [value])
  {}

  lemma AdmittedInsert(t: Table, value: Row, now: int, runtime: Option<Row>)
    requires Inv(t) && NewGrant(value) && Admitted(Expire(t, now), value, runtime)
    ensures var u := Supersede(Expire(t, now), value, now);
            !BreaksUniqueness(u, value) && Inv(u + [value]) && Extends(t, u + [value])
  {
    var e := Expire(t, now);
    var u := Supersede(e, value, now);
    ExpiryKeepsInvariant(t, now);
    SupersedeRewrites(e, value, now);
    AdmittedGrantFits(e, value, now, runtime);
    FittingRowIsInsertable(t, u, value);
    GrowthKeepsInvariant(t, e, u, value);
    ExtendsCompose(t, e, u + [value]);
  }

  /** Nor can any revocation. */
  lemma RevokeKeepsInvariant(t: Table, v: Revocation, now: int)
    requires Inv(t)
    ensures Inv(CompleteRevocation(t, v, now).1)
    ensures CompleteRevocation(t, v, now).0 != Refused(ConstraintViolated)
    ensures CompleteRevocation(t, v, now).0.Refused? ==> CompleteRevocation(t, v, now).1 == t
    ensures Extends(t, CompleteRevocation(t, v, now).1)
  {
    var e := Expire(t, now);
    ExpiryKeepsInvariant(t, now);
    ExtendsItself(t);
    if !Stale(e, v.ref) && Find(e, v.ref, Revoke, v.operationId).None? {
      var u := Withdraw(e, v.ref, now);
      WithdrawRewrites(e, v.ref, now);
      WithdrawnRowFits(e, v, now);
      GrowthKeepsInvariant(t, e, u, RevocationRow(v, now));
      ExtendsCompose(t, e, u + [RevocationRow(v, now)]);
    }
  }

  lemma CommitKeepsInvariant(t: Table, x: Transaction)
    requires Inv(t) && WellFormed(x)
    ensures Inv(Commit(t, x)) && Extends(t, Commit(t, x))
  {
    match x
    case ExpireCredentials(now) => ExpiryKeepsInvariant(t, now);
    case Create(value, at, runtime) => CreateKeepsInvariant(t, value, at, runtime);
    case Complete(v, at) => RevokeKeepsInvariant(t, v, at);
  }

  // -- Whole histories ---------------------------------------------------------------

  /** Every history from a lawful table stays lawful, never loses a row, and moves each
      row only forward along its lifecycle. */
  lemma {:induction false} RunKeepsInvariant(t: Table, xs: seq<Transaction>)
    requires Inv(t) && forall x | x in xs :: WellFormed(x)
    ensures Inv(Run(t, xs))
    ensures Extends(t, Run(t, xs))
    decreases xs
  {
    if xs == [] {
      ExtendsItself(t);
    } else {
      var u := Commit(t, xs[0]);
      CommitKeepsInvariant(t, xs[0]);
      RunKeepsInvariant(u, xs[1..]);
      ExtendsCompose(t, u, Run(u, xs[1..]));
    }
  }

  /** In every history of the database: rows of a device come in the order of their generations,
      at most one of them is live, keys never repeat, and within a generation a later grant
      keeps the earlier one's policy or advances it. */
  lemma HistoriesAreOrdered(xs: seq<Transaction>, i: int, j: int)
    requires forall x | x in xs :: WellFormed(x)
    requires 0 <= i < j < |Run([], xs)| && Run([], xs)[i].ref.identity == Run([], xs)[j].ref.identity
    ensures var a, b := Run([], xs)[i], Run([], xs)[j];
            && !Older(b.ref.generation, a.ref.generation) && !Live(a) && !SameKey(a, b)
            && (a.ref == b.ref && IsGrant(a) && IsGrant(b) ==> PolicyKept(a.response.policy, b.response.policy))
  {
    RunKeepsInvariant([], xs);
    assert PairOk(Run([], xs)[i], Run([], xs)[j]);
  }
}
