/** Where conservation of transport resources stops: revoking a lapsed channel, a predecessor that
    cannot be closed, a revocation the database does not take, two identities sharing a resource,
    and a second process committing to the same database while a grant is being minted. */
module ResourceHazards {
  import opened Contracts
  import opened OperationLedger
  import opened LedgerHistory
  import opened LedgerGuarantees
  import opened TransportResources
  import opened ResourceConservation

  // -- Histories of first provisions -------------------------------------------------

  /** An attempt by a lone process that obtains a grant and meets no database fault. */
  predicate Smooth(a: Attempt) {
    Alone(a) && a.grant.Some? && a.selected in a.faults.configured && !a.faults.storeFails
  }

  /** A call that meets nothing but, maybe, a failing database. */
  predicate Reaches(f: Faults, adapter: string) { adapter in f.configured && !f.closeFails }

  const EMPTY := Service([], {}, {})

  /** A first provision in order: unreserved, of a device the table does not know. */
  predicate FirstProvision(s: Service, q: ProvisionRequest, a: Attempt) {
    && q.kind == Provision && Smooth(a) && q.ref.identity.device !in s.reserved
    && (forall r | r in s.rows :: r.ref.identity != q.ref.identity && !(r.status == Active && r.expiresAt <= a.now))
  }

  lemma FirstRowInserted(t: Table, row: Row, now: int)
    requires Inv(t) && NewGrant(row) && row.kind == Provision && Expire(t, now) == t
    requires forall r | r in t :: r.ref.identity != row.ref.identity
    ensures CreateProvision(t, row, now, None) == (Stored(row, false), t + [row])
    ensures CurrentChannel(t, row.ref.identity).None? && !Stale(t, row.ref)
    ensures Find(t, row.ref, row.kind, row.operationId).None?
  {
    AdmissionDecidedByLiveRow(t, row, now, None);
    CommittedGrantTakesOver(t, row, now, None);
    var u := CreateProvision(t, row, now, None).1;
    assert u[..|t|] == t && u == u[..|t|] + [row];
  }

  lemma FirstProvisionCommits(s: Service, q: ProvisionRequest, a: Attempt)
    requires Inv(s.rows) && FirstProvision(s, q, a)
    ensures var row := GrantRow(q, a.grant.value, a.selected, a.now);
            ProvisionOnce(s, q, a).1
            == Service(s.rows + [row], s.standing + Named(a.selected, a.grant.value.handle), s.reserved)
  {
    assert Expire(s.rows, a.now) == s.rows;
    FirstRowInserted(s.rows, GrantRow(q, a.grant.value, a.selected, a.now), a.now);
    assert s.standing + {} + Named(a.selected, a.grant.value.handle)
        == s.standing + Named(a.selected, a.grant.value.handle);
  }

  /** One row, not lapsed, is its device's channel. */
  lemma OneRow(row: Row, now: int)
    requires row.status == Active && row.kind == Provision
    ensures Inv([row]) && Inv([ExpireRow(row, now)]) && Expire([row], now) == [ExpireRow(row, now)]
    ensures var e := ExpireRow(row, now); CurrentChannel([e], row.ref.identity) == Some(e)
    ensures forall id | id != row.ref.identity :: Retained([ExpireRow(row, now)], id) == {}
  {
    LiveRowIsCurrentChannel([ExpireRow(row, now)], 0);
  }

  // -- Revoking a lapsed channel ---------------------------------------------------------

  lemma LapsedRow(row: Row, v: Revocation, now: int, f: Faults)
    requires !f.storeFails && row.status == Active && row.kind == Provision && row.expiresAt <= now && v.ref == row.ref
    ensures var s := Service([row], Named(row.adapterName, row.handle), {});
            var after := RevokeOnce(s, v, now, f).1;
            && after.standing == s.standing
            && forall id :: CurrentChannel(after.rows, id).None? || Retained(after.rows, id) == {}
    ensures CurrentChannel(RevokeOnce(Service([row], Named(row.adapterName, row.handle), {}), v, now, f).1.rows,
                           row.ref.identity).None?
  {
    var s := Service([row], Named(row.adapterName, row.handle), {});
    OneRow(row, now);
    var base := UpTo(s, now);
    assert Expire(base.rows, now) == base.rows;
    RevokeEffect(base, v, now, f);
    assert Revokes(base, v, f);
  }

  /** For every first provision of a device, a revocation of that very generation issued once
      the credential has lapsed leaves the device's resource standing with no row naming it. */
  lemma LapsedRevocationLeavesOrphan(q: ProvisionRequest, a: Attempt, v: Revocation, now: int, f: Faults)
    requires FirstProvision(EMPTY, q, a) && v.ref == q.ref && !f.storeFails
    requires a.grant.value.handle.resource != "" && a.grant.value.expiresAt <= now
    ensures var s := ProvisionOnce(EMPTY, q, a).1;
            var after := RevokeOnce(s, v, now, f).1;
            && CurrentChannel(after.rows, q.ref.identity).None?
            && Orphans(after) == {Resource(a.selected, a.grant.value.handle.resource)}
  {
    var row := GrantRow(q, a.grant.value, a.selected, a.now);
    FirstProvisionCommits(EMPTY, q, a);
    LapsedRow(row, v, now, f);
    assert [] + [row] == [row]
        && {} + Named(a.selected, a.grant.value.handle) == Named(a.selected, a.grant.value.handle);
  }

  // -- A predecessor that cannot be closed ---------------------------------------------------

  /** For every first provision, a provision of a later generation on another resource that can no
      longer close the first one's commits, fails, and leaves that resource standing with no row
      naming it. */
  lemma UnclosedPredecessorIsOrphaned(q: ProvisionRequest, a: Attempt, p: ProvisionRequest, b: Attempt)
    requires FirstProvision(EMPTY, q, a) && a.grant.value.handle.resource != ""
    requires p.kind == Provision && Smooth(b) && p.ref.identity == q.ref.identity
    requires Older(q.ref.generation, p.ref.generation) && !Reaches(b.faults, a.selected)
    requires !SameResource(a.selected, a.grant.value.handle, b.selected, b.grant.value.handle)
    ensures var s := ProvisionOnce(EMPTY, q, a).1;
            var (result, after) := ProvisionOnce(s, p, b);
            && result.Failure?
            && CurrentChannel(after.rows, q.ref.identity) == Some(GrantRow(p, b.grant.value, b.selected, b.now))
            && Orphans(after) == {Resource(a.selected, a.grant.value.handle.resource)}
  {
    var row := GrantRow(q, a.grant.value, a.selected, a.now);
    FirstProvisionCommits(EMPTY, q, a);
    assert [] + [row] == [row] && {} + Named(row.adapterName, row.handle) == Named(row.adapterName, row.handle);
    PredecessorStays(row, p, b);
  }

  lemma PredecessorStays(row: Row, p: ProvisionRequest, b: Attempt)
    requires row.status == Active && row.kind == Provision && row.handle.resource != ""
    requires p.ref.identity == row.ref.identity && p.kind == Provision && Smooth(b)
    requires Older(row.ref.generation, p.ref.generation) && !Reaches(b.faults, row.adapterName)
    requires !SameResource(row.adapterName, row.handle, b.selected, b.grant.value.handle)
    ensures var s := Service([row], Named(row.adapterName, row.handle), {});
            var (result, after) := ProvisionOnce(s, p, b);
            && result.Failure?
            && CurrentChannel(after.rows, row.ref.identity) == Some(GrantRow(p, b.grant.value, b.selected, b.now))
            && Orphans(after) == {Resource(row.adapterName, row.handle.resource)}
  {
    var s := Service([row], Named(row.adapterName, row.handle), {});
    NextGenerationTakes(row, p, b);
    StandsForOne(s, row);
    OneRow(row, b.now);
    ProvisionEffect(UpTo(s, b.now), p, b);
    LeavesPredecessor(s, row, p, b);
    ProvisionOrphansExactly(s, p, b);
  }

  lemma LeavesPredecessor(s: Service, row: Row, p: ProvisionRequest, b: Attempt)
    requires s == Service([row], Named(row.adapterName, row.handle), {})
    requires row.status == Active && row.kind == Provision
    requires p.ref.identity == row.ref.identity && !Reaches(b.faults, row.adapterName)
    requires Takes(UpTo(s, b.now), p, b) && !Renews(UpTo(s, b.now), p, b)
    requires forall id, r | id != row.ref.identity :: r !in Retained(s.rows, id)
    ensures Leftover(s, p, b) == Named(row.adapterName, row.handle)
    ensures Halts(UpTo(s, b.now), p, b)
  {
    OneRow(row, b.now);
  }

  lemma NextGenerationTakes(row: Row, p: ProvisionRequest, b: Attempt)
    requires row.status == Active && row.kind == Provision && p.ref.identity == row.ref.identity
    requires p.kind == Provision && Smooth(b) && Older(row.ref.generation, p.ref.generation)
    requires !SameResource(row.adapterName, row.handle, b.selected, b.grant.value.handle)
    ensures var base := Service([ExpireRow(row, b.now)], Named(row.adapterName, row.handle), {});
            Takes(base, p, b) && !Renews(base, p, b)
  {
    OneRow(row, b.now);
  }

  lemma StandsForOne(s: Service, row: Row)
    requires s.rows == [row] && row.status == Active && row.kind == Provision
    requires s.standing == Named(row.adapterName, row.handle)
    ensures ServiceInv(s) && Orphans(s) == {} && forall id, r | id != row.ref.identity :: r !in Retained(s.rows, id)
  {
    LiveRowIsCurrentChannel([row], 0);
    forall r | r in s.standing ensures Claimed(s.rows, r) { assert r in Retained(s.rows, row.ref.identity); }
  }

  // -- A revocation the database does not take ---------------------------------------------

  /** For every first provision of a device, a revocation while the credential lasts whose commit
      fails has already closed the resource: the channel stays active on nothing. */
  lemma FailedRevocationStrandsChannel(q: ProvisionRequest, a: Attempt, v: Revocation, now: int, f: Faults)
    requires FirstProvision(EMPTY, q, a) && v.ref == q.ref && Reaches(f, a.selected) && f.storeFails
    requires a.grant.value.handle.resource != "" && a.grant.value.expiresAt > now
    ensures var s := ProvisionOnce(EMPTY, q, a).1;
            var (result, after) := RevokeOnce(s, v, now, f);
            && result == Failure(BackendUnavailable)
            && ActiveDevice(after.rows, q.ref).Some?
            && Retained(after.rows, q.ref.identity) == {Resource(a.selected, a.grant.value.handle.resource)}
            && after.standing == {}
  {
    var row := GrantRow(q, a.grant.value, a.selected, a.now);
    FirstProvisionCommits(EMPTY, q, a);
    var s := ProvisionOnce(EMPTY, q, a).1;
    assert s.rows == [row];
    OneRow(row, now);
    RevokedChannelIsActiveRow([row], q.ref);
    RevokeEffect(s, v, now, f);
  }

  // -- Two identities on one resource -------------------------------------------------------

  /** Two first provisions whose grants name one resource, as for one device under two owner
      domains when the adapter names rooms by device alone: revoking the first closes the room
      the second's channel stands on. */
  lemma TwoIdentitiesShareARoom(q: ProvisionRequest, a: Attempt, p: ProvisionRequest, b: Attempt, v: Revocation,
                                now: int, f: Faults)
    requires Reaches(f, a.selected) && !f.storeFails && FirstProvision(EMPTY, q, a) && p.kind == Provision && Smooth(b)
    requires p.ref.identity != q.ref.identity && v.ref == q.ref
    requires a.selected == b.selected && a.grant.value.handle.resource == b.grant.value.handle.resource != ""
    requires a.grant.value.expiresAt > b.now && a.grant.value.expiresAt > now && b.grant.value.expiresAt > now
    ensures var s := PerformAll(EMPTY, [ProvisionCall(q, a), ProvisionCall(p, b)]);
            var after := RevokeOnce(s, v, now, f).1;
            && ServiceInv(s) && !ServiceInv(after)
            && ActiveDevice(after.rows, p.ref).Some? && after.standing == {}
  {
    var one, two := GrantRow(q, a.grant.value, a.selected, a.now), GrantRow(p, b.grant.value, b.selected, b.now);
    var room := Named(a.selected, a.grant.value.handle);
    FirstProvisionCommits(EMPTY, q, a);
    assert [] + [one] == [one] && {} + room == room;
    SecondProvisionCommits(one, room, p, b);
    PerformBoth(EMPTY, ProvisionCall(q, a), ProvisionCall(p, b));
    SharedRoomCloses(Service([one, two], room, {}), one, two, v, now, f);
  }

  lemma SecondProvisionCommits(one: Row, room: set<Resource>, p: ProvisionRequest, b: Attempt)
    requires one.status == Active && one.kind == Provision && one.expiresAt > b.now
    requires p.kind == Provision && Smooth(b) && p.ref.identity != one.ref.identity
    requires room == Named(b.selected, b.grant.value.handle)
    ensures ProvisionOnce(Service([one], room, {}), p, b).1
         == Service([one, GrantRow(p, b.grant.value, b.selected, b.now)], room, {})
  {
    OneRow(one, b.now);
    assert forall r | r in [one] :: r == one;
    FirstProvisionCommits(Service([one], room, {}), p, b);
    assert room + room == room;
  }

  lemma PerformBoth(s: Service, c: Call, d: Call)
    ensures PerformAll(s, [c, d]) == Perform(Perform(s, c), d)
  {
    assert [c, d][1..] == [d];
    assert PerformAll(Perform(s, c), [d]) == PerformAll(Perform(Perform(s, c), d), []);
  }

  lemma TwoRows(one: Row, two: Row, now: int)
    requires one.status == two.status == Active && one.kind == two.kind == Provision
    requires one.ref.identity != two.ref.identity && one.expiresAt > now && two.expiresAt > now
    ensures var t := [one, two];
            && Inv(t) && Expire(t, now) == t
            && CurrentChannel(t, one.ref.identity) == Some(one) && CurrentChannel(t, two.ref.identity) == Some(two)
            && forall id | id != one.ref.identity && id != two.ref.identity :: Retained(t, id) == {}
  {
    LiveRowIsCurrentChannel([one, two], 0);
    LiveRowIsCurrentChannel([one, two], 1);
  }

  lemma SharedRoomCloses(s: Service, one: Row, two: Row, v: Revocation, now: int, f: Faults)
    requires Reaches(f, one.adapterName) && !f.storeFails
    requires s.rows == [one, two] && s.reserved == {} && one.status == two.status == Active
    requires one.kind == two.kind == Provision && one.ref.identity != two.ref.identity && v.ref == one.ref
    requires one.adapterName == two.adapterName && one.handle.resource == two.handle.resource != ""
    requires one.expiresAt > now && two.expiresAt > now
    requires s.standing == {Resource(one.adapterName, one.handle.resource)}
    ensures var after := RevokeOnce(s, v, now, f).1;
            && ServiceInv(s) && !ServiceInv(after) && ActiveDevice(after.rows, two.ref).Some? && after.standing == {}
  {
    TwoRows(one, two, now);
    assert UpTo(s, now) == s && RevokesActive(s, v);
    RevokeKeepsStandingIff(s, v, now, f);
    assert Retained(s.rows, two.ref.identity) == RevokeCloses(s, v, f) == s.standing;
    RevokeEffect(s, v, now, f);
    SecondRowStays(s, one, two, v, now, f);
  }

  lemma SecondRowStays(s: Service, one: Row, two: Row, v: Revocation, now: int, f: Faults)
    requires s.rows == [one, two] && one.ref.identity != two.ref.identity && v.ref == one.ref && two.status == Active
    requires RevokedRows(s, v, now, f, RevokeOnce(s, v, now, f).1.rows) && Revokes(s, v, f) && !f.storeFails
    ensures ActiveDevice(RevokeOnce(s, v, now, f).1.rows, two.ref).Some?
  {
    var rows := RevokeOnce(s, v, now, f).1.rows;
    WithdrawLeavesOthers(s.rows, v.ref, now, 1);
    assert rows[1] == two && rows[1] in rows;
  }

  // -- A second process on the same database --------------------------------------------

  /** What an attempt finds once its grant is minted: the table another process left, and
      everything that stands. */
  function Meanwhile(s: Service, a: Attempt, adapter: string, g: Grant): Service {
    s.(rows := Run(s.rows, a.meanwhile), standing := s.standing + a.peers + Named(adapter, g.handle))
  }

  /** Every channel's resource is among those standing. */
  ghost predicate AllStand(t: Table, standing: set<Resource>) { forall id :: Retained(t, id) <= standing }

  /** The database fails, or the ledger refuses the grant. */
  predicate Loses(rows: Table, q: ProvisionRequest, a: Attempt, g: Grant, previous: Option<Row>) {
    a.faults.storeFails
    || CreateProvision(rows, GrantRow(q, g, ChosenAdapter(q, previous, a), a.now), a.now,
                       RuntimeRefreshOf(q, previous, a)).0.Refused?
  }

  /** Giving a candidate up closes nothing: it renews the channel the attempt saw, that channel's
      adapter is gone, or closing raises. */
  predicate KeepsCandidate(adapter: string, g: Grant, previous: Option<Row>, f: Faults) {
    SameAsRow(adapter, g.handle, previous) || f.closeFails
    || (previous.Some? && previous.value.adapterName !in f.configured)
  }

  /** When the ledger refuses a grant after another process has changed the table, every channel
      keeps its resource exactly when the candidate is not closed, or names nothing that any
      channel now stands on. */
  lemma LosingGrantSparesChannelsIff(s: Service, q: ProvisionRequest, a: Attempt, g: Grant, previous: Option<Row>)
    requires ProperRequest(q) && Loses(Run(s.rows, a.meanwhile), q, a, g, previous)
    requires AllStand(Run(s.rows, a.meanwhile), s.standing + a.peers)
    ensures var adapter, rows := ChosenAdapter(q, previous, a), Run(s.rows, a.meanwhile);
            var after := CommitGrant(Meanwhile(s, a, adapter, g), q, a, g, previous).1;
            && after.rows == rows
            && (AllStand(rows, after.standing)
                <==> || KeepsCandidate(adapter, g, previous, a.faults)
                     || forall id :: Retained(rows, id) !! Named(adapter, g.handle))
  {
    var adapter, rows := ChosenAdapter(q, previous, a), Run(s.rows, a.meanwhile);
    var minted := Meanwhile(s, a, adapter, g);
    LosingCommitGivesUp(minted, q, a, g, previous);
    GivingUpSparesIff(rows, s.standing + a.peers, adapter, g, previous, a.faults);
  }

  lemma RefusalLeavesTable(t: Table, value: Row, now: int, runtime: Option<Row>)
    ensures CreateProvision(t, value, now, runtime).0.Refused? ==> CreateProvision(t, value, now, runtime).1 == t
  {}

  lemma LosingCommitGivesUp(minted: Service, q: ProvisionRequest, a: Attempt, g: Grant, previous: Option<Row>)
    requires Loses(minted.rows, q, a, g, previous)
    ensures CommitGrant(minted, q, a, g, previous).1
         == CloseUnless(minted, ChosenAdapter(q, previous, a), g.handle, previous, a.faults).1
  {
    if !a.faults.storeFails {
      var value := GrantRow(q, g, ChosenAdapter(q, previous, a), a.now);
      RefusalLeavesTable(minted.rows, value, a.now, RuntimeRefreshOf(q, previous, a));
      assert minted.(rows := minted.rows) == minted;
    }
  }

  lemma GivingUpSparesIff(t: Table, standing: set<Resource>, adapter: string, g: Grant, previous: Option<Row>,
                          f: Faults)
    requires AllStand(t, standing)
    ensures var minted := Service(t, standing + Named(adapter, g.handle), {});
            var after := CloseUnless(minted, adapter, g.handle, previous, f).1;
            AllStand(t, after.standing)
            <==> KeepsCandidate(adapter, g, previous, f) || forall id :: Retained(t, id) !! Named(adapter, g.handle)
  {
    forall id ensures Retained(t, id) <= standing + Named(adapter, g.handle) - Named(adapter, g.handle)
                      <==> Retained(t, id) !! Named(adapter, g.handle)
    {
      assert Retained(t, id) <= standing;
    }
    forall id ensures Retained(t, id) <= standing + Named(adapter, g.handle) { assert Retained(t, id) <= standing; }
  }

  /** When a grant commits over a row another process committed meanwhile, it is the channel this
      attempt saw that is retired, if it can be, not the row superseded: that row's resource is
      left standing with no row naming it exactly unless the grant or the retired channel names it
      too, or it names none, or another device's channel stands on it. */
  lemma SupersededResourceIsOrphanedIff(s: Service, q: ProvisionRequest, a: Attempt, g: Grant, previous: Option<Row>,
                                        winner: Row)
    requires Inv(s.rows) && ProperRequest(q) && !a.faults.storeFails && forall x | x in a.meanwhile :: WellFormed(x)
    requires previous == CurrentChannel(s.rows, q.ref.identity)
    requires CurrentChannel(Run(s.rows, a.meanwhile), q.ref.identity) == Some(winner)
    requires Retained(Run(s.rows, a.meanwhile), q.ref.identity) <= s.standing + a.peers
    requires var adapter := ChosenAdapter(q, previous, a);
             var value := GrantRow(q, g, adapter, a.now);
             CreateProvision(Run(s.rows, a.meanwhile), value, a.now, RuntimeRefreshOf(q, previous, a)).0
             == Stored(value, false)
    ensures var adapter := ChosenAdapter(q, previous, a);
            var after := CommitGrant(Meanwhile(s, a, adapter, g), q, a, g, previous).1;
            var left := Named(winner.adapterName, winner.handle);
            && Retained(after.rows, q.ref.identity) == Named(adapter, g.handle) <= after.standing
            && (left !! Orphans(after)
                <==> || left == {}
                     || SameAsRow(adapter, g.handle, Some(winner))
                     || (SameAsRow(winner.adapterName, winner.handle, previous)
                         && Reaches(a.faults, winner.adapterName))
                     || ClaimedElsewhere(Run(s.rows, a.meanwhile), q.ref.identity,
                                         Resource(winner.adapterName, winner.handle.resource)))
  {
    var id, adapter := q.ref.identity, ChosenAdapter(q, previous, a);
    var rows := Run(s.rows, a.meanwhile);
    var value, runtime := GrantRow(q, g, adapter, a.now), RuntimeRefreshOf(q, previous, a);
    RunKeepsInvariant(s.rows, a.meanwhile);
    NewRowIsFresh(rows, value, a.now, runtime);
    var u := CreateProvision(rows, value, a.now, runtime).1;
    CommittedGrantRetains(rows, u, value, a.now, runtime);
    if previous.Some? { OldKeyStays(s.rows, rows, previous.value, value); }
    var minted := Meanwhile(s, a, adapter, g);
    TakenOver(minted, q, a, g, previous, value, u);
    SupersededIsOrphanedIff(minted, u, id, adapter, g, previous, winner, a.faults);
  }

  /** What a grant retires once it is committed: the channel its attempt saw, if it can. */
  function Retired(previous: Option<Row>, adapter: string, g: Grant, f: Faults): set<Resource> {
    if previous.None? || SameAsRow(adapter, g.handle, previous) || !Reaches(f, previous.value.adapterName) then {}
    else Named(previous.value.adapterName, previous.value.handle)
  }

  lemma TakenOver(minted: Service, q: ProvisionRequest, a: Attempt, g: Grant, previous: Option<Row>, value: Row,
                  u: Table)
    requires !a.faults.storeFails && value == GrantRow(q, g, ChosenAdapter(q, previous, a), a.now)
    requires CreateProvision(minted.rows, value, a.now, RuntimeRefreshOf(q, previous, a)) == (Stored(value, false), u)
    requires previous.Some? ==> !SameKey(previous.value, value)
    ensures CommitGrant(minted, q, a, g, previous).1
         == Service(u, minted.standing - Retired(previous, value.adapterName, g, a.faults), minted.reserved)
  {
    assert minted.standing - {} == minted.standing;
  }

  lemma SupersededIsOrphanedIff(minted: Service, u: Table, id: Identity, adapter: string, g: Grant,
                                previous: Option<Row>, winner: Row, f: Faults)
    requires CurrentChannel(minted.rows, id) == Some(winner) && Retained(minted.rows, id) <= minted.standing
    requires Named(adapter, g.handle) <= minted.standing
    requires Retained(u, id) == Named(adapter, g.handle)
    requires forall other | other != id :: Retained(u, other) == Retained(minted.rows, other)
    ensures var after := Service(u, minted.standing - Retired(previous, adapter, g, f), minted.reserved);
            var left := Named(winner.adapterName, winner.handle);
            && Retained(u, id) <= after.standing
            && (left !! Orphans(after)
                <==> || left == {}
                     || SameAsRow(adapter, g.handle, Some(winner))
                     || (SameAsRow(winner.adapterName, winner.handle, previous) && Reaches(f, winner.adapterName))
                     || ClaimedElsewhere(minted.rows, id, Resource(winner.adapterName, winner.handle.resource)))
  {
    ClaimsWithout(minted.rows, u, id, Resource(winner.adapterName, winner.handle.resource));
  }

  lemma NewRowIsFresh(t: Table, value: Row, now: int, runtime: Option<Row>)
    requires CreateProvision(t, value, now, runtime).0 == Stored(value, false)
    ensures Fresh(t, value)
  {
    ExpiryKeepsKeys(t, now, value);
    FreshIsNotFound(Expire(t, now), value);
  }

  lemma OldKeyStays(t: Table, u: Table, r: Row, value: Row)
    requires Extends(t, u) && r in t && Fresh(u, value)
    ensures !SameKey(r, value)
  {
    var i :| 0 <= i < |t| && t[i] == r;
    assert Moves(t[i], u[..|t|][i]) && u[i] in u;
  }

  /** What meeting its own operation already committed comes to. */
  function ReplayAnswer(committed: Row, adapter: string, g: Grant, f: Faults): Result<Response> {
    if committed.adapterName !in f.configured then Failure(NoAdapterAvailable)
    else if !Live(committed) then Failure(UnreadableHandle)
    else if f.closeFails && !SameAsRow(adapter, g.handle, Some(committed)) then Failure(BackendUnavailable)
    else Success(committed.response)
  }

  /** An attempt that finds its own operation already committed closes nothing its device's
      channel stands on. It answers if that row is still live and the candidate could be closed;
      if the row has ended, its scrubbed handle cannot be read, and the candidate is left
      standing. */
  lemma ReplayedGrantClosesNothingLive(s: Service, q: ProvisionRequest, a: Attempt, g: Grant, previous: Option<Row>)
    requires Inv(s.rows) && ProperRequest(q) && Retained(s.rows, q.ref.identity) <= s.standing && !a.faults.storeFails
    requires var value := GrantRow(q, g, ChosenAdapter(q, previous, a), a.now);
             var outcome := CreateProvision(s.rows, value, a.now, RuntimeRefreshOf(q, previous, a)).0;
             outcome.Stored? && outcome.replayed
    ensures var value := GrantRow(q, g, ChosenAdapter(q, previous, a), a.now);
            var committed := CreateProvision(s.rows, value, a.now, RuntimeRefreshOf(q, previous, a)).0.row;
            var (result, after) := CommitGrant(s, q, a, g, previous);
            && result == ReplayAnswer(committed, value.adapterName, g, a.faults)
            && (!Live(committed) ==> after.standing == s.standing)
            && after.rows == Expire(s.rows, a.now)
            && Retained(after.rows, q.ref.identity) == Retained(s.rows, q.ref.identity) <= after.standing
  {
    var value := GrantRow(q, g, ChosenAdapter(q, previous, a), a.now);
    var (outcome, rows) := CreateProvision(s.rows, value, a.now, RuntimeRefreshOf(q, previous, a));
    ReplayOnlyExpires(s.rows, value, a.now, RuntimeRefreshOf(q, previous, a));
    ExpiryRetains(s.rows, a.now, q.ref.identity);
    ExpiryKeepsInvariant(s.rows, a.now);
    if Live(outcome.row) {
      var i :| 0 <= i < |rows| && rows[i] == outcome.row;
      LiveRowIsCurrentChannel(rows, i);
    }
    ReplaySettles(s.(rows := rows), value.adapterName, g, previous, outcome.row, a.faults);
  }

  lemma ReplayOnlyExpires(t: Table, value: Row, now: int, runtime: Option<Row>)
    ensures var (outcome, rows) := CreateProvision(t, value, now, runtime);
            outcome.Stored? && outcome.replayed ==>
              rows == Expire(t, now) && outcome.row in rows && outcome.row.ref == value.ref
  {}

  lemma ReplaySettles(s: Service, adapter: string, g: Grant, previous: Option<Row>, committed: Row, f: Faults)
    requires Live(committed) ==> CurrentChannel(s.rows, committed.ref.identity) == Some(committed)
    requires Retained(s.rows, committed.ref.identity) <= s.standing
    ensures var (result, after) := Settle(s, adapter, g, previous, Stored(committed, true), f);
            && result == ReplayAnswer(committed, adapter, g, f)
            && (!Live(committed) ==> after.standing == s.standing)
            && after.rows == s.rows && Retained(s.rows, committed.ref.identity) <= after.standing
  {}
}
