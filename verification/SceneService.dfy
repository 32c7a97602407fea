/** The part of ChannelProviderService that keeps scenes, shared visits and device reservations,
    its maps updated in place, each method proved against the reservation world. */
module SceneService {
  import opened Contracts
  import opened EndpointPreparation
  import opened SceneProtocol
  import opened SceneGuarantees
  import opened SceneReservations
  import opened ReservationSoundness
  import opened ReservationSafety
  import opened ReservationHazards

  // -- Restoring every row ------------------------------------------------------------------

  /** Whether the database takes the rewrite of a row. */
  predicate Rewrites(k: Key, failing: set<Key>) { k !in failing }

  /** One restore per row, in order; the database does not take the rewrite of a failing one. */
  function Restores(rows: seq<Key>, failing: set<Key>): seq<Move> {
    seq(|rows|, i requires 0 <= i < |rows| => RestoreScene(rows[i], Rewrites(rows[i], failing)))
  }

  /** A row still to be restored can be read and written back. */
  ghost predicate Returns(w: World, k: Key, failing: set<Key>)
    requires k in w.scenes && w.scenes[k].saved.Some?
  {
    w.scenes[k].memory.Some? || (NonEmpty(w.scenes[k].saved.value.sessions) && Rewrites(k, failing))
  }

  ghost predicate AllReturn(w: World, rows: seq<Key>, failing: set<Key>)
    requires forall k | k in rows :: k in w.scenes && w.scenes[k].saved.Some?
  {
    forall k | k in rows :: Returns(w, k, failing)
  }

  predicate GivesUp(mode: Mode) {
    mode == StartRefused(UnreadableCheckpoint) || mode == StartRefused(StorageUnavailable)
  }

  /** One restore moves on to the rest, or refuses the start. */
  ghost predicate RestoreMoves(w: World, k: Key, failing: set<Key>, t: World)
    requires k in w.scenes && w.scenes[k].saved.Some?
  {
    if w.scenes[k].memory.Some? then t == w
    else if Returns(w, k, failing) then
      && t.mode == Recovering && t.scenes.Keys == w.scenes.Keys && t.scenes[k].memory.Some?
      && forall j | j in w.scenes && j != k :: t.scenes[j] == w.scenes[j]
    else GivesUp(t.mode)
  }

  lemma RestoredAs(w: World, k: Key)
    requires k in w.scenes && w.scenes[k].memory.None? && w.scenes[k].saved.Some?
    requires Restore(w.scenes[k].devices, w.scenes[k].saved.value).Some?
    requires w.scenes[k].saved.value.cleanupComplete || Free(w.scopes, w.scenes[k].devices)
    ensures RestoreOne(w, k, true)
        == Returned(w, k, Recover(w.scenes[k], true), !w.scenes[k].saved.value.cleanupComplete)
  {}

  lemma Unrestored(w: World, k: Key, saves: bool)
    requires k in w.scenes && w.scenes[k].memory.None? && w.scenes[k].saved.Some?
    requires Restore(w.scenes[k].devices, w.scenes[k].saved.value).None? || !saves
    ensures GivesUp(RestoreOne(w, k, saves).mode)
  {}

  lemma ReadableIff(w: World, k: Key)
    requires WorldInv(w) && k in w.scenes && w.scenes[k].memory.None? && w.scenes[k].saved.Some?
    ensures var s := w.scenes[k];
            && SceneInv(s)
            && (Restore(s.devices, s.saved.value).Some? <==> NonEmpty(s.saved.value.sessions))
  {
    assert SceneFine(w, k);
    RestorableIff(w.scenes[k].devices, w.scenes[k].saved.value);
  }

  lemma RestoringOne(w: World, k: Key, failing: set<Key>)
    requires WorldInv(w) && w.mode == Recovering && k in w.scenes && w.scenes[k].saved.Some?
    ensures RestoreMoves(w, k, failing, RestoreOne(w, k, Rewrites(k, failing)))
  {
    if w.scenes[k].memory.None? {
      ReadableIff(w, k);
      if Returns(w, k, failing) { RestoringReadable(w, k, failing); } else { Unrestored(w, k, Rewrites(k, failing)); }
    }
  }

  lemma RestoringReadable(w: World, k: Key, failing: set<Key>)
    requires WorldInv(w) && w.mode == Recovering && k in w.scenes && w.scenes[k].memory.None? && w.scenes[k].saved.Some?
    requires SceneInv(w.scenes[k]) && Returns(w, k, failing)
    requires Restore(w.scenes[k].devices, w.scenes[k].saved.value).Some?
    ensures RestoreMoves(w, k, failing, RestoreOne(w, k, Rewrites(k, failing)))
  {
    var s := w.scenes[k];
    RecoveredScene(s);
    if !s.saved.value.cleanupComplete { RecoveryFindsDevicesFree(w, k); }
    RestoredAs(w, k);
    ReturnedMoves(w, k, Recover(s, true), !s.saved.value.cleanupComplete, failing);
  }

  lemma ReturnedMoves(w: World, k: Key, n: Scene, reserves: bool, failing: set<Key>)
    requires w.mode == Recovering && k in w.scenes && w.scenes[k].saved.Some? && w.scenes[k].memory.None?
    requires n.memory.Some? && Returns(w, k, failing)
    ensures RestoreMoves(w, k, failing, Returned(w, k, n, reserves))
  {}

  lemma RestoresSplit(rows: seq<Key>, failing: set<Key>)
    requires rows != []
    ensures Restores(rows, failing)[0] == RestoreScene(rows[0], Rewrites(rows[0], failing))
    ensures Restores(rows, failing)[1..] == Restores(rows[1..], failing)
  {}

  lemma {:induction false} RefusedStays(w: World, rows: seq<Key>, failing: set<Key>)
    requires w.mode != Recovering
    ensures PerformAll(w, Restores(rows, failing)) == w
    decreases |rows|
  {
    if rows != [] {
      RestoresSplit(rows, failing);
      RefusedStays(w, rows[1..], failing);
    }
  }

  /** What is left to restore returns exactly as it would have. */
  lemma RestReturns(w: World, rows: seq<Key>, failing: set<Key>, t: World)
    requires rows != [] && forall k | k in rows :: k in w.scenes && w.scenes[k].saved.Some?
    requires RestoreMoves(w, rows[0], failing, t)
    requires t.mode == Recovering && forall k | k in t.scenes :: t.scenes[k].saved.Some?
    ensures t.scenes.Keys == w.scenes.Keys
    ensures AllReturn(w, rows, failing) <==> AllReturn(t, rows[1..], failing)
    ensures forall k | k in w.scenes && (w.scenes[k].memory.Some? || k == rows[0]) :: t.scenes[k].memory.Some?
  {
    assert forall k :: k in rows <==> k == rows[0] || k in rows[1..];
    assert Returns(w, rows[0], failing);
    forall k | k in rows[1..] ensures Returns(w, k, failing) <==> Returns(t, k, failing) {}
  }

  lemma RowsAreSaved(w: World)
    requires WorldInv(w) && w.mode == Recovering
    ensures forall k | k in w.scenes :: w.scenes[k].saved.Some?
  {
    forall k | k in w.scenes ensures w.scenes[k].saved.Some? { assert SceneOk(w, k); }
  }

  ghost predicate Restorables(w: World, rows: seq<Key>) {
    WorldInv(w) && w.mode == Recovering && forall k | k in rows :: k in w.scenes && w.scenes[k].saved.Some?
  }

  lemma AfterFirst(w: World, rows: seq<Key>, failing: set<Key>)
    requires rows != [] && w.mode == Recovering
    ensures PerformAll(w, Restores(rows, failing))
         == PerformAll(RestoreOne(w, rows[0], Rewrites(rows[0], failing)), Restores(rows[1..], failing))
  {
    RestoresSplit(rows, failing);
    var saves := Rewrites(rows[0], failing);
    assert Perform(w, RestoreScene(rows[0], saves)) == RestoreOne(w, rows[0], saves);
  }

  lemma FirstKeepsInv(w: World, k: Key, failing: set<Key>) returns (t: World)
    requires WorldInv(w) && w.mode == Recovering && k in w.scenes && w.scenes[k].saved.Some?
    ensures t == RestoreOne(w, k, Rewrites(k, failing)) && RestoreMoves(w, k, failing, t)
    ensures WorldInv(t) && (t.mode == Recovering ==> forall j | j in t.scenes :: t.scenes[j].saved.Some?)
  {
    t := RestoreOne(w, k, Rewrites(k, failing));
    RestoringOne(w, k, failing);
    RestoreKeepsInv(w, k, Rewrites(k, failing));
    if t.mode == Recovering { RowsAreSaved(t); }
  }

  /** The first row, and what is left to do after it. */
  lemma RestoreFirst(w: World, rows: seq<Key>, failing: set<Key>) returns (t: World)
    requires rows != [] && Restorables(w, rows)
    ensures PerformAll(w, Restores(rows, failing)) == PerformAll(t, Restores(rows[1..], failing))
    ensures t.mode != Recovering ==> GivesUp(t.mode) && !AllReturn(w, rows, failing)
    ensures t.mode == Recovering ==>
              && Restorables(t, rows[1..]) && (AllReturn(w, rows, failing) <==> AllReturn(t, rows[1..], failing))
              && t.scenes.Keys == w.scenes.Keys
              && forall k | k in w.scenes && (w.scenes[k].memory.Some? || k == rows[0]) :: t.scenes[k].memory.Some?
  {
    AfterFirst(w, rows, failing);
    t := FirstKeepsInv(w, rows[0], failing);
    if t.mode == Recovering { RestReturns(w, rows, failing, t); } else { assert !Returns(w, rows[0], failing); }
  }

  lemma {:induction false} ReturningRowsComeBack(w: World, rows: seq<Key>, failing: set<Key>)
    requires Restorables(w, rows) && AllReturn(w, rows, failing)
    ensures var t := PerformAll(w, Restores(rows, failing));
            && t.mode == Recovering && t.scenes.Keys == w.scenes.Keys
            && forall k | k in w.scenes && (w.scenes[k].memory.Some? || k in rows) :: t.scenes[k].memory.Some?
    decreases |rows|
  {
    if rows == [] {
      assert Restores(rows, failing) == [];
    } else {
      var t := RestoreFirst(w, rows, failing);
      ReturningRowsComeBack(t, rows[1..], failing);
    }
  }

  lemma {:induction false} FailingRowRefuses(w: World, rows: seq<Key>, failing: set<Key>)
    requires Restorables(w, rows) && !AllReturn(w, rows, failing)
    ensures GivesUp(PerformAll(w, Restores(rows, failing)).mode)
    decreases |rows|
  {
    var t := RestoreFirst(w, rows, failing);
    if t.mode == Recovering { FailingRowRefuses(t, rows[1..], failing); } else { RefusedStays(t, rows[1..], failing); }
  }

  /** A restart brings every saved scene back and listens exactly when every row still to be
      restored can be written back and holds no empty conversation id; otherwise it is refused
      for that reason and never for conflicting reservations. */
  lemma RecoverySucceedsIff(w: World, rows: seq<Key>, failing: set<Key>)
    requires WorldInv(w) && w.mode == Recovering && forall k :: k in rows <==> k in w.scenes
    ensures forall k | k in w.scenes :: w.scenes[k].saved.Some?
    ensures var mode := PerformAll(w, Restores(rows, failing) + [Listen]).mode;
            if AllReturn(w, rows, failing) then mode == Running else GivesUp(mode)
  {
    RowsAreSaved(w);
    PerformConcat(w, Restores(rows, failing), [Listen]);
    var t := PerformAll(w, Restores(rows, failing));
    assert PerformAll(Perform(t, Listen), []) == Perform(t, Listen);
    if AllReturn(w, rows, failing) {
      ReturningRowsComeBack(w, rows, failing);
    } else {
      FailingRowRefuses(w, rows, failing);
    }
  }

  // -- The service object -----------------------------------------------------------------------

  lemma ReservingNext(scopes: map<Device, Holder>, devices: seq<Device>, h: Holder, i: nat)
    requires i < |devices|
    ensures Reserving(scopes, devices[..i + 1], h) == Reserving(scopes, devices[..i], h)[devices[i] := h]
  {
    assert devices[..i + 1] == devices[..i] + [devices[i]];
  }

  lemma OwnDevicesOnly(w: World, k: Key)
    requires Sound(w) && k in w.scenes
    ensures forall d | d in w.scopes && w.scopes[d] == ForScene(k) :: d in w.scenes[k].devices
  {
    forall d | d in w.scopes && w.scopes[d] == ForScene(k) ensures d in w.scenes[k].devices { assert ScopeOk(w, d); }
  }

  lemma SharedDevicesOnly(w: World, i: nat)
    requires Sound(w) && i in w.shared
    ensures forall d | d in w.scopes && w.scopes[d] == ForShared(i) :: d in w.shared[i]
  {
    forall d | d in w.scopes && w.scopes[d] == ForShared(i) ensures d in w.shared[i] { assert ScopeOk(w, d); }
  }

  /** A call that only rewrites one visit and, maybe, its row. */
  function Kept(w: World, k: Key, v: Visit, row: Option<Checkpoint>): World
    requires k in w.scenes && w.scenes[k].memory.Some?
  {
    w.(scenes := w.scenes[k := Put(w.scenes[k], w.scenes[k].memory.value.(visit := v), row)])
  }

  lemma ScenePresent(w: World, k: Key)
    requires Sound(w) && w.mode == Running && k in w.scenes
    ensures w.scenes[k].memory.Some?
  {
    assert SceneFine(w, k);
  }

  lemma FinishingIs(w: World, k: Key, saves: bool)
    requires w.mode == Running
    ensures Perform(w, Act(k, CleanupDone(saves)))
         == if k !in w.scenes || w.scenes[k].memory.None? || w.scenes[k].memory.value.close != Ending({}, false) then w
            else
              var m := w.scenes[k].memory.value;
              var f := FinishCleanup(m.visit, saves);
              Replaced(w, k, Put(w.scenes[k], m.(visit := f.visit, close := Idle), f.saved), saves)
  {
    if k in w.scenes && w.scenes[k].memory.None? { assert Step(w.scenes[k], CleanupDone(saves)) == w.scenes[k]; }
  }

  lemma CompletingIs(w: World, k: Key)
    requires w.mode == Running && k in w.scenes && Completes(w.scenes[k], CleanupDone(true))
    ensures Perform(w, Act(k, CleanupDone(true))) == Replaced(w, k, Step(w.scenes[k], CleanupDone(true)), true)
  {}

  /** Devices come back only with the producers gone and every woken device ended. */
  lemma FinishingProves(w: World, k: Key) returns (t: World)
    requires Sound(w) && w.mode == Running && k in w.scenes && Completes(w.scenes[k], CleanupDone(true))
    ensures t == Perform(w, Act(k, CleanupDone(true)))
    ensures Holdless(t, ForScene(k)) && k in t.scenes && t.scenes[k].woken <= t.scenes[k].confirmed
  {
    CompletingIs(w, k);
    t := Replaced(w, k, Step(w.scenes[k], CleanupDone(true)), true);
    assert SceneInv(w.scenes[k]) by { assert SceneFine(w, k); }
    CompletionProves(w.scenes[k], CleanupDone(true));
  }

  lemma RoutedTo(w: World, d: Device)
    requires Sound(w) && d in w.scopes && w.scopes[d].ForScene?
    ensures w.scopes[d].key in w.scenes && w.scenes[w.scopes[d].key].memory.Some?
  {
    assert ScopeOk(w, d);
  }

  lemma RoutingIs(w: World, k: Key, d: Device, r: ServingRequest, saves: bool)
    requires w.mode == Running && d in w.scopes && w.scopes[d] == ForScene(k) && k in w.scenes
    requires w.scenes[k].memory.Some?
    ensures var q := Request(w.scenes[k].memory.value.visit, d, r, saves);
            Perform(w, Act(k, Receive(d, r, saves))) == Kept(w, k, q.visit, q.saved)
  {
    assert Step(w.scenes[k], Receive(d, r, saves)) == ReceiveStep(w.scenes[k], w.scenes[k].memory.value, d, r, saves);
  }

  lemma StatusIs(w: World, k: Key, saves: bool)
    requires w.mode == Running && k in w.scenes && w.scenes[k].memory.Some?
    ensures var v := w.scenes[k].memory.value.visit;
            var l := LoseReachability(v, saves);
            Perform(w, Act(k, StatusLost(saves))) == if v.state == Ready then Kept(w, k, l.visit, l.saved) else w
  {}

  lemma SettlingIs(w: World, k: Key, saves: bool)
    requires w.mode == Running && k in w.scenes && w.scenes[k].memory.Some?
    ensures var l := CloseSettled(w.scenes[k].memory.value.visit, saves);
            Perform(w, Act(k, CloseReturn(saves)))
            == if Holdless(w, ForScene(k)) then Kept(w, k, l.visit, l.saved) else w
  {
    assert Step(w.scenes[k], CloseReturn(saves)) == CallStep(w.scenes[k], w.scenes[k].memory.value, CloseReturn(saves));
  }

  class Scenes {
    var mode: Mode
    /** The prepared scenes: catalog, tasks and saved rows. */
    var scenes: map<Key, Scene>
    var shared: map<nat, seq<Device>>
    /** _transport_scopes. */
    var scopes: map<Device, Holder>

    function State(): World reads this { World(mode, scenes, shared, scopes) }

    constructor ()
      ensures State() == NewWorld() && Sound(State())
    {
      mode, scenes, shared, scopes := Running, map[], map[], map[];
    }

    method AllFree(devices: seq<Device>) returns (free: bool)
      ensures free == Free(scopes, devices)
    {
      var i := 0;
      while i < |devices|
        invariant 0 <= i <= |devices| && forall j | 0 <= j < i :: devices[j] !in scopes
      {
        if devices[i] in scopes { return false; }
        i := i + 1;
      }
      free := true;
    }

    method ReserveAll(devices: seq<Device>, h: Holder)
      modifies `scopes
      ensures scopes == Reserving(old(scopes), devices, h)
    {
      var i := 0;
      while i < |devices|
        invariant 0 <= i <= |devices|
        invariant scopes == Reserving(old(scopes), devices[..i], h)
      {
        ReservingNext(old(scopes), devices, h, i);
        scopes := scopes[devices[i] := h];
        i := i + 1;
      }
      assert devices[..|devices|] == devices;
    }

    /** Drop each of the devices that this holder still has; that is all it has. */
    method ReleaseOwn(devices: seq<Device>, h: Holder)
      requires forall d | d in scopes && scopes[d] == h :: d in devices
      modifies `scopes
      ensures scopes == Releasing(old(scopes), h)
    {
      var i := 0;
      while i < |devices|
        invariant 0 <= i <= |devices|
        invariant scopes == map d | d in old(scopes) && !(old(scopes)[d] == h && d in devices[..i]) :: old(scopes)[d]
      {
        assert forall d :: d in devices[..i + 1] <==> d in devices[..i] || d == devices[i];
        if devices[i] in scopes && scopes[devices[i]] == h { scopes := scopes - {devices[i]}; }
        i := i + 1;
      }
      assert devices[..|devices|] == devices;
    }

    method OpenPreparedScene(k: Key, devices: seq<Device>, admitted: bool, saves: bool)
      requires mode == Running
      modifies `scenes, `scopes
      ensures State() == OpenScene(old(State()), k, devices, admitted, saves)
    {
      if k in scenes || !admitted || !DistinctEndpoints(devices) { return; }
      var free := AllFree(devices);
      if !free { return; }
      scenes := scenes[k := Opening(devices, saves)];
      if saves { ReserveAll(devices, ForScene(k)); }
    }

    /** Install what a stretch of code left of a visit, and the row it wrote, if it did. */
    method Keep(k: Key, v: Visit, row: Option<Checkpoint>)
      requires k in scenes && scenes[k].memory.Some?
      modifies `scenes
      ensures State() == Kept(old(State()), k, v, row)
    {
      var s := scenes[k];
      scenes := scenes[k := s.(memory := Some(s.memory.value.(visit := v)),
                               saved := if row.Some? then row else s.saved)];
    }

    /** The end of a scene's cleanup: the visit is closed for good and its devices are given back
        one by one, unless that closure cannot be saved. */
    method FinishScene(k: Key, saves: bool) returns (ok: bool)
      requires Sound(State()) && mode == Running
      modifies `scenes, `scopes
      ensures State() == Perform(old(State()), Act(k, CleanupDone(saves)))
      ensures Sound(State())
      ensures ok == (k in old(scenes) && Completes(old(scenes)[k], CleanupDone(saves)))
      ensures if ok then Holdless(State(), ForScene(k)) && k in scenes && scenes[k].woken <= scenes[k].confirmed
              else scopes == old(scopes)
    {
      MoveKeepsSound(State(), Act(k, CleanupDone(saves)));
      FinishingIs(State(), k, saves);
      if k !in scenes || scenes[k].memory.None? || scenes[k].memory.value.close != Ending({}, false) { return false; }
      if saves { var _ := FinishingProves(State(), k); }
      OwnDevicesOnly(State(), k);
      ok := CloseForGood(k, saves);
      if ok { ReleaseOwn(scenes[k].devices, ForScene(k)); }
    }

    method CloseForGood(k: Key, saves: bool) returns (ok: bool)
      requires k in scenes && scenes[k].memory.Some?
      modifies `scenes
      ensures var m := old(scenes)[k].memory.value;
              var f := FinishCleanup(m.visit, saves);
              State()
              == Replaced(old(State()), k, Put(old(scenes)[k], m.(visit := f.visit, close := Idle), f.saved), false)
      ensures ok == saves
    {
      var s, m := scenes[k], scenes[k].memory.value;
      var w := FinishCleanup(m.visit, saves);
      scenes := scenes[k := s.(memory := Some(m.(visit := w.visit, close := Idle)),
                               saved := if w.saved.Some? then w.saved else s.saved)];
      ok := w.ok;
    }

    /** A device's request goes to the scene its reservation names, if it names one, and is
        refused there when the device has no active channel. */
    method RouteRequest(d: Device, r: ServingRequest, active: bool, saves: bool) returns (answer: Option<Answer>)
      requires Sound(State()) && mode == Running
      modifies `scenes
      ensures answer.Some? <==> d in scopes && scopes[d].ForScene?
      ensures answer.None? || !active ==> State() == old(State())
      ensures answer.Some? && !active ==> answer.value == Refused(UnknownChannel)
      ensures answer.Some? && active ==>
                var k := scopes[d].key;
                && k in old(scenes) && old(scenes)[k].memory.Some?
                && answer.value == Request(old(scenes)[k].memory.value.visit, d, r, saves).answer
                && State() == Perform(old(State()), Act(k, Receive(d, r, saves)))
    {
      if d !in scopes || scopes[d].ForShared? { return None; }
      if !active { return Some(Refused(UnknownChannel)); }
      var k := scopes[d].key;
      RoutedTo(State(), d);
      RoutingIs(State(), k, d, r, saves);
      var q := Request(scenes[k].memory.value.visit, d, r, saves);
      Keep(k, q.visit, q.saved);
      answer := Some(q.answer);
    }

    /** A status read: a ready visit whose endpoints are gone is told to close, for that reason;
        its task is signalled only once that is saved. */
    method ReadStatus(k: Key, present: bool, saves: bool)
      requires Sound(State()) && mode == Running && k in scenes
      modifies `scenes
      ensures State() == if present then old(State()) else Perform(old(State()), Act(k, StatusLost(saves)))
      ensures old(scenes)[k].memory.Some? && k in scenes && scenes[k].memory.Some?
      ensures var v, w := old(scenes)[k].memory.value.visit, scenes[k].memory.value.visit;
              if present || v.state != Ready then State() == old(State())
              else w.state == Closing && w.error == [ReachabilityLost] && w.stopped == (v.stopped || saves)
    {
      ScenePresent(State(), k);
      StatusIs(State(), k, saves);
      if present || scenes[k].memory.value.visit.state != Ready { return; }
      var w := LoseReachability(scenes[k].memory.value.visit, saves);
      Keep(k, w.visit, w.saved);
    }

    /** The end of a close call: settled once none of the visit's devices is reserved for it. */
    method SettleClose(k: Key, saves: bool) returns (settled: bool)
      requires Sound(State()) && mode == Running && k in scenes
      modifies `scenes
      ensures State() == Perform(old(State()), Act(k, CloseReturn(saves)))
      ensures settled <==> Holdless(old(State()), ForScene(k))
    {
      ScenePresent(State(), k);
      SettlingIs(State(), k, saves);
      OwnDevicesOnly(State(), k);
      var devices, i := scenes[k].devices, 0;
      while i < |devices|
        invariant 0 <= i <= |devices|
        invariant forall j | 0 <= j < i :: !(devices[j] in scopes && scopes[devices[j]] == ForScene(k))
        invariant State() == old(State())
      {
        if devices[i] in scopes && scopes[devices[i]] == ForScene(k) { return false; }
        i := i + 1;
      }
      var w := CloseSettled(scenes[k].memory.value.visit, saves);
      Keep(k, w.visit, w.saved);
      settled := true;
    }

    method ReserveShared(i: nat, devices: seq<Device>, admitted: bool)
      requires mode == Running
      modifies `shared, `scopes
      ensures State() == SceneReservations.ReserveShared(old(State()), i, devices, admitted)
    {
      if i in shared || !admitted || !DistinctEndpoints(devices) { return; }
      var free := AllFree(devices);
      if !free { return; }
      shared := shared[i := devices];
      ReserveAll(devices, ForShared(i));
    }

    method RetireShared(i: nat, closed: bool)
      requires Sound(State()) && mode == Running
      modifies `shared, `scopes
      ensures State() == SceneReservations.RetireShared(old(State()), i, closed)
    {
      if i !in shared || !closed { return; }
      SharedDevicesOnly(State(), i);
      ReleaseOwn(shared[i], ForShared(i));
      shared := shared - {i};
    }

    /** Restore every saved row in the order the store returns them, giving up at the first that
        cannot be read, written back or reserved. */
    method RestorePreparedScenes(rows: seq<Key>, failing: set<Key>)
      requires mode == Recovering
      modifies this
      ensures State() == PerformAll(old(State()), Restores(rows, failing))
    {
      var i := 0;
      while i < |rows| && mode == Recovering
        invariant 0 <= i <= |rows|
        invariant PerformAll(State(), Restores(rows[i..], failing)) == PerformAll(old(State()), Restores(rows, failing))
      {
        RestoresSplit(rows[i..], failing);
        assert rows[i..][1..] == rows[i + 1..];
        RestorePreparedScene(rows[i], Rewrites(rows[i], failing));
        i := i + 1;
      }
      if mode == Recovering {
        assert Restores(rows[i..], failing) == [];
      } else {
        RefusedStays(State(), rows[i..], failing);
      }
    }

    method RestorePreparedScene(k: Key, saves: bool)
      requires mode == Recovering
      modifies this
      ensures State() == RestoreOne(old(State()), k, saves)
    {
      if k !in scenes || scenes[k].memory.Some? || scenes[k].saved.None? { return; }
      var s := scenes[k];
      var v := Restore(s.devices, s.saved.value);
      if v.None? {
        GiveUp(UnreadableCheckpoint);
        return;
      }
      if !saves {
        GiveUp(StorageUnavailable);
        return;
      }
      scenes := scenes[k := Recover(s, true)];
      if !v.value.cleanupComplete {
        var free := AllFree(s.devices);
        if free { ReserveAll(s.devices, ForScene(k)); } else { GiveUp(ConflictingReservations); }
      }
    }

    method GiveUp(reason: Reason)
      modifies this
      ensures State() == Fallen(old(State()), StartRefused(reason))
    {
      mode, scenes, shared, scopes := StartRefused(reason), Persisted(scenes), map[], map[];
    }
  }
}
