/** smarthome/runtime.py: one owner's device states, and the replicas its attached panels build
    from snapshots and chunked deltas. */
module PanelProjection {
  import opened Contracts

  type DeviceId = string
  type PanelId = string
  /** What a device reports; empty when nothing is known. */
  type Reading = string

  datatype Registry = Registry(revision: int, devices: seq<DeviceId>, layout: string)

  datatype Entry = Entry(online: bool, state: Option<Reading>)

  /** One observation from Hub; without a state the last one still stands. */
  datatype Observation = Observation(device: DeviceId, reachable: bool, state: Option<Reading>)

  datatype Change = Change(device: DeviceId, online: bool, state: Reading)

  datatype Message =
    | Snapshot(revision: int, seqNo: nat, entries: map<DeviceId, Entry>)
    | Delta(revision: int, seqNo: nat, changes: seq<Change>)

  /** What a panel holds. */
  datatype Replica = Replica(revision: int, seqNo: nat, entries: map<DeviceId, Entry>)

  datatype Owner = Owner(registry: Option<Registry>, states: map<DeviceId, Reading>, seqNo: nat, panels: set<PanelId>)

  /** The owner, the panels' replicas, and the panels that missed a snapshot no sequence number
      tells of. */
  datatype World = World(owner: Owner, replicas: map<PanelId, Replica>, missed: set<PanelId>)

  // -- What a panel does ----------------------------------------------------------------

  function Applied(entries: map<DeviceId, Entry>, changes: seq<Change>): map<DeviceId, Entry>
    decreases |changes|
  {
    if changes == [] then entries
    else Applied(entries[changes[0].device := Entry(changes[0].online, Some(changes[0].state))], changes[1..])
  }

  /** Replace on a snapshot; apply the next delta; leave one after a gap. */
  function Received(r: Replica, m: Message): Replica {
    match m
    case Snapshot(revision, n, entries) => Replica(revision, n, entries)
    case Delta(revision, n, changes) =>
      if n == r.seqNo + 1 then Replica(revision, n, Applied(r.entries, changes)) else r
  }

  function Shown(m: Message): Replica requires m.Snapshot? { Replica(m.revision, m.seqNo, m.entries) }

  // -- What the runtime does --------------------------------------------------------------

  function Entries(devices: seq<DeviceId>, states: map<DeviceId, Reading>): map<DeviceId, Entry> {
    map d | d in devices :: if d in states then Entry(true, Some(states[d])) else Entry(false, None)
  }

  function SnapshotOf(o: Owner, r: Registry): Message { Snapshot(r.revision, o.seqNo, Entries(r.devices, o.states)) }

  /** Each panel's send succeeds unless it is lost. */
  function Delivered(replicas: map<PanelId, Replica>, to: set<PanelId>, m: Message): map<PanelId, Replica> {
    map p | p in replicas.Keys + (if m.Snapshot? then to else {}) ::
      if p !in to then replicas[p] else if p in replicas then Received(replicas[p], m) else Shown(m)
  }

  function Broadcast(w: World, m: Message, lost: set<PanelId>): World {
    w.(replicas := Delivered(w.replicas, w.owner.panels - lost, m),
       missed := if m.Snapshot? then w.missed - (w.owner.panels - lost) else w.missed)
  }

  function StateFor(states: map<DeviceId, Reading>, c: Observation): Reading {
    if c.state.Some? then c.state.value else if c.device in states then states[c.device] else ""
  }

  function Observe(states: map<DeviceId, Reading>, c: Observation): map<DeviceId, Reading> {
    if c.reachable then states[c.device := StateFor(states, c)] else states - {c.device}
  }

  datatype Batch = Batch(states: map<DeviceId, Reading>, items: seq<Change>)

  /** Fold the observations of known devices into the states, and say what panels are told. */
  function Translated(known: seq<DeviceId>, states: map<DeviceId, Reading>, changes: seq<Observation>): Batch {
    if changes == [] then Batch(states, [])
    else
      var b, c := Translated(known, states, changes[..|changes| - 1]), changes[|changes| - 1];
      if c.device !in known then b
      else Batch(Observe(b.states, c), b.items + [Change(c.device, c.reachable, StateFor(b.states, c))])
  }

  /** What happens around one broadcast: the sends that are lost, and who detaches after it. */
  datatype Fate = Fate(lost: set<PanelId>, leaving: set<PanelId>)

  function First(fates: seq<Fate>): Fate { if fates == [] then Fate({}, {}) else fates[0] }

  function Rest(fates: seq<Fate>): seq<Fate> { if fates == [] then [] else fates[1..] }

  function Detached(w: World, leaving: set<PanelId>): World {
    w.(owner := w.owner.(panels := w.owner.panels - leaving))
  }

  function SendOne(w: World, revision: int, changes: seq<Change>, fate: Fate): World {
    var next := w.(owner := w.owner.(seqNo := w.owner.seqNo + 1));
    Detached(Broadcast(next, Delta(revision, next.owner.seqNo, changes), fate.lost), fate.leaving)
  }

  function Chunk(items: seq<Change>, limit: nat): nat requires limit >= 1 { if |items| < limit then |items| else limit }

  /** A batch as deltas of at most `limit` changes. */
  function SendAll(w: World, revision: int, items: seq<Change>, limit: nat, fates: seq<Fate>): World
    requires limit >= 1
    decreases |items|
  {
    if items == [] then w
    else
      var n := Chunk(items, limit);
      SendAll(SendOne(w, revision, items[..n], First(fates)), revision, items[n..], limit, Rest(fates))
  }

  function ChangesApplied(w: World, changes: seq<Observation>, limit: nat, fates: seq<Fate>): World
    requires limit >= 1
  {
    if w.owner.registry.None? then w
    else
      var r := w.owner.registry.value;
      var b := Translated(r.devices, w.owner.states, changes);
      SendAll(w.(owner := w.owner.(states := b.states)), r.revision, b.items, limit, fates)
  }

  /** Whether a re-read replaces what panels hold without a sequence number telling. */
  predicate Silent(o: Owner, registry: Registry, states: map<DeviceId, Reading>) {
    o.registry.Some? && (o.registry.value != registry || o.states.Keys != states.Keys)
  }

  /** Re-read Hub; a changed registry or online set is a snapshot with the sequence number left
      alone, changed states one with the next number. */
  function Refreshed(w: World, registry: Registry, states: map<DeviceId, Reading>, lost: set<PanelId>): World {
    var o := w.owner;
    var next := o.(registry := Some(registry), states := states);
    if Silent(o, registry, states) then
      var t := Broadcast(w.(owner := next), SnapshotOf(next, registry), lost);
      t.(missed := t.missed + o.panels * lost)
    else if o.registry.Some? && o.states != states then
      var bumped := next.(seqNo := o.seqNo + 1);
      Broadcast(w.(owner := bumped), SnapshotOf(bumped, registry), lost)
    else w.(owner := next)
  }

  /** Attaching a panel, or its request to sync: re-read, then a snapshot of its own. */
  function Attached(w: World, p: PanelId, registry: Registry, states: map<DeviceId, Reading>, lost: set<PanelId>,
                    arrives: bool): World {
    var t := Refreshed(w, registry, states, lost);
    var o := t.owner.(panels := t.owner.panels + {p});
    if arrives then World(o, t.replicas[p := Shown(SnapshotOf(o, registry))], t.missed - {p})
    else t.(owner := o, missed := if p in w.owner.panels then t.missed else t.missed + {p})
  }

  datatype Event =
    | Reread(registry: Registry, states: map<DeviceId, Reading>, lost: set<PanelId>)
    | Attach(panel: PanelId, registry: Registry, states: map<DeviceId, Reading>, lost: set<PanelId>, arrives: bool)
    | Detach(panel: PanelId)
    | ApplyChanges(changes: seq<Observation>, fates: seq<Fate>)

  function Step(w: World, e: Event, limit: nat): World requires limit >= 1 {
    match e
    case Reread(registry, states, lost) => Refreshed(w, registry, states, lost)
    case Attach(p, registry, states, lost, arrives) => Attached(w, p, registry, states, lost, arrives)
    case Detach(p) => Detached(w, {p})
    case ApplyChanges(changes, fates) => ChangesApplied(w, changes, limit, fates)
  }

  function Run(w: World, es: seq<Event>, limit: nat): World
    requires limit >= 1
    decreases es
  {
    if es == [] then w else Run(Step(w, es[0], limit), es[1..], limit)
  }

  function NewWorld(): World { World(Owner(None, map[], 0, {}), map[], {}) }

  // -- Agreement --------------------------------------------------------------------------

  /** A panel shows exactly the registered devices, the right ones online, and their states. */
  ghost predicate Agrees(devices: seq<DeviceId>, states: map<DeviceId, Reading>, entries: map<DeviceId, Entry>) {
    && (forall d :: d in entries <==> d in devices)
    && (forall d | d in entries :: entries[d].online <==> d in states)
    && (forall d | d in entries && d in states :: entries[d].state == Some(states[d]))
  }

  ghost predicate InStep(w: World, p: PanelId) { Tracks(w, p, []) }

  /** In step but for changes still to come. */
  ghost predicate Tracks(w: World, p: PanelId, coming: seq<Change>) {
    && w.owner.registry.Some? && p in w.replicas && w.replicas[p].seqNo == w.owner.seqNo
    && Agrees(w.owner.registry.value.devices, w.owner.states, Applied(w.replicas[p].entries, coming))
  }

  /** The next delta will show a gap. */
  predicate Behind(w: World, p: PanelId) { p !in w.replicas || w.replicas[p].seqNo < w.owner.seqNo }

  /** Where every attached panel stands. */
  ghost predicate Standing(w: World, p: PanelId, coming: seq<Change>) {
    Tracks(w, p, coming) || Behind(w, p) || p in w.missed
  }

  ghost predicate WorldInv(w: World) {
    && (w.owner.panels != {} ==> w.owner.registry.Some?)
    && (forall p | p in w.replicas :: w.replicas[p].seqNo <= w.owner.seqNo)
    && (forall p | p in w.owner.panels :: Standing(w, p, []))
  }

  lemma {:induction false} AppliedConcat(entries: map<DeviceId, Entry>, a: seq<Change>, b: seq<Change>)
    ensures Applied(entries, a + b) == Applied(Applied(entries, a), b)
    decreases |a|
  {
    if a == [] {
      assert a + b == b;
    } else {
      assert (a + b)[1..] == a[1..] + b;
      AppliedConcat(entries[a[0].device := Entry(a[0].online, Some(a[0].state))], a[1..], b);
    }
  }

  /** What panels are told brings an agreeing replica to the new states. */
  lemma {:induction false} TranslationAgrees(known: seq<DeviceId>, states: map<DeviceId, Reading>,
                                             changes: seq<Observation>, entries: map<DeviceId, Entry>)
    requires Agrees(known, states, entries)
    ensures var b := Translated(known, states, changes); Agrees(known, b.states, Applied(entries, b.items))
    decreases |changes|
  {
    if changes != [] {
      var prior, c := changes[..|changes| - 1], changes[|changes| - 1];
      var b := Translated(known, states, prior);
      TranslationAgrees(known, states, prior, entries);
      if c.device in known {
        var change := Change(c.device, c.reachable, StateFor(b.states, c));
        AppliedConcat(entries, b.items, [change]);
        assert Applied(Applied(entries, b.items), [change])
            == Applied(entries, b.items)[c.device := Entry(change.online, Some(change.state))];
      }
    }
  }

  /** Only registered devices' states change. */
  lemma {:induction false} OnlyKnownChange(known: seq<DeviceId>, states: map<DeviceId, Reading>,
                                           changes: seq<Observation>, d: DeviceId)
    requires d !in known
    ensures var b := Translated(known, states, changes).states;
            (d in b <==> d in states) && (d in states ==> b[d] == states[d])
    decreases |changes|
  {
    if changes != [] { OnlyKnownChange(known, states, changes[..|changes| - 1], d); }
  }

  /** What an observation says of its device's state: the state it carries, or else the one that
      stood before it, or nothing. */
  function Said(before: map<DeviceId, Reading>, c: Observation): Reading {
    match c.state
    case Some(state) => state
    case None => if c.device in before then before[c.device] else ""
  }

  /** Without an observation of it, a device keeps what it had. */
  lemma {:induction false} UnobservedKeeps(known: seq<DeviceId>, states: map<DeviceId, Reading>,
                                           changes: seq<Observation>, d: DeviceId)
    requires forall c | c in changes :: c.device != d
    ensures var b := Translated(known, states, changes).states;
            (d in b <==> d in states) && (d in states ==> b[d] == states[d])
    decreases |changes|
  {
    if changes != [] {
      assert changes[|changes| - 1] in changes;
      UnobservedKeeps(known, states, changes[..|changes| - 1], d);
    }
  }

  /** For a registered device the last observation of the batch decides: offline if it was
      unreachable, else online with the state it was said to have, which is the one it carries, or
      the one that stood just before it. */
  lemma {:induction false} LastObservationDecides(known: seq<DeviceId>, states: map<DeviceId, Reading>,
                                                  changes: seq<Observation>, i: nat)
    requires i < |changes| && changes[i].device in known
    requires forall j | i < j < |changes| :: changes[j].device != changes[i].device
    ensures var c, b := changes[i], Translated(known, states, changes).states;
            var before := Translated(known, states, changes[..i]).states;
            && (c.device in b <==> c.reachable)
            && (c.reachable && c.state.Some? ==> b[c.device] == c.state.value)
            && (c.reachable && c.state.None? ==> b[c.device] == if c.device in before then before[c.device] else "")
    decreases |changes|
  {
    if i < |changes| - 1 {
      assert changes[..|changes| - 1][..i] == changes[..i];
      LastObservationDecides(known, states, changes[..|changes| - 1], i);
    } else {
      assert changes[..i] == changes[..|changes| - 1];
    }
  }

  /** So a device observed once in the batch, reachable and without a state, keeps the state it had
      before the batch. */
  lemma UnsaidStateStands(known: seq<DeviceId>, states: map<DeviceId, Reading>, changes: seq<Observation>, i: nat)
    requires i < |changes| && changes[i].device in known && changes[i].reachable && changes[i].state.None?
    requires forall j | 0 <= j < |changes| && j != i :: changes[j].device != changes[i].device
    ensures var d, b := changes[i].device, Translated(known, states, changes).states;
            d in b && b[d] == if d in states then states[d] else ""
  {
    LastObservationDecides(known, states, changes, i);
    UnobservedKeeps(known, states, changes[..i], changes[i].device);
  }

  /** What panels are told of observation i: nothing of an unregistered device; of any other, whether
      it is reachable and the state it was said to have, also when it is not. */
  lemma {:induction false} ToldOfEach(known: seq<DeviceId>, states: map<DeviceId, Reading>,
                                      changes: seq<Observation>, i: nat)
    requires i < |changes|
    ensures var all, before, c := Translated(known, states, changes).items, Translated(known, states, changes[..i]),
                                  changes[i];
            var through := Translated(known, states, changes[..i + 1]).items;
            && through <= all
            && through == if c.device in known
                          then before.items + [Change(c.device, c.reachable, Said(before.states, c))] else before.items
    decreases |changes|
  {
    if i < |changes| - 1 {
      var prior := changes[..|changes| - 1];
      assert prior[..i] == changes[..i] && prior[..i + 1] == changes[..i + 1];
      ToldOfEach(known, states, prior, i);
    } else {
      assert changes[..i + 1] == changes && changes[..i] == changes[..|changes| - 1];
    }
  }

  /** One delta: a panel it reaches stays with the batch, one it does not sees a gap next. */
  lemma SendOneStands(w: World, revision: int, chunk: seq<Change>, coming: seq<Change>, fate: Fate, p: PanelId)
    requires forall q | q in w.replicas :: w.replicas[q].seqNo <= w.owner.seqNo
    requires p in w.owner.panels && Standing(w, p, chunk + coming)
    ensures Standing(SendOne(w, revision, chunk, fate), p, coming)
    ensures Tracks(w, p, chunk + coming) && p !in fate.lost ==> Tracks(SendOne(w, revision, chunk, fate), p, coming)
    ensures Tracks(w, p, chunk + coming) && p in fate.lost ==> Behind(SendOne(w, revision, chunk, fate), p)
  {
    if Tracks(w, p, chunk + coming) { AppliedConcat(w.replicas[p].entries, chunk, coming); }
  }

  lemma SendOneBounds(w: World, revision: int, chunk: seq<Change>, fate: Fate)
    requires forall q | q in w.replicas :: w.replicas[q].seqNo <= w.owner.seqNo
    ensures var t := SendOne(w, revision, chunk, fate);
            && (forall q | q in t.replicas :: t.replicas[q].seqNo <= t.owner.seqNo)
            && t.owner.panels <= w.owner.panels && t.owner.registry == w.owner.registry
            && t.owner.states == w.owner.states
            && t.missed == w.missed
  {}

  lemma {:induction false} SendAllStands(w: World, revision: int, items: seq<Change>, limit: nat, fates: seq<Fate>)
    requires limit >= 1 && forall q | q in w.replicas :: w.replicas[q].seqNo <= w.owner.seqNo
    requires forall p | p in w.owner.panels :: Standing(w, p, items)
    ensures var t := SendAll(w, revision, items, limit, fates);
            && (forall q | q in t.replicas :: t.replicas[q].seqNo <= t.owner.seqNo)
            && (forall p | p in t.owner.panels :: Standing(t, p, []))
            && t.owner.panels <= w.owner.panels && t.owner.registry == w.owner.registry
    decreases |items|
  {
    if items != [] {
      var n := Chunk(items, limit);
      var t := SendOne(w, revision, items[..n], First(fates));
      assert items == items[..n] + items[n..];
      SendOneBounds(w, revision, items[..n], First(fates));
      forall p | p in t.owner.panels ensures Standing(t, p, items[n..]) {
        SendOneStands(w, revision, items[..n], items[n..], First(fates), p);
      }
      SendAllStands(t, revision, items[n..], limit, Rest(fates));
    }
  }

  // -- Every step ---------------------------------------------------------------------------

  lemma EntriesAgree(devices: seq<DeviceId>, states: map<DeviceId, Reading>)
    ensures Agrees(devices, states, Entries(devices, states))
  {}

  lemma RefreshKeepsInv(w: World, registry: Registry, states: map<DeviceId, Reading>, lost: set<PanelId>)
    requires WorldInv(w)
    ensures WorldInv(Refreshed(w, registry, states, lost))
  {
    EntriesAgree(registry.devices, states);
  }

  lemma AttachKeepsInv(w: World, p: PanelId, registry: Registry, states: map<DeviceId, Reading>, lost: set<PanelId>,
                       arrives: bool)
    requires WorldInv(w)
    ensures WorldInv(Attached(w, p, registry, states, lost, arrives))
  {
    RefreshKeepsInv(w, registry, states, lost);
    EntriesAgree(registry.devices, states);
    var t, u := Refreshed(w, registry, states, lost), Attached(w, p, registry, states, lost, arrives);
    forall q | q in u.owner.panels ensures Standing(u, q, []) {
      if q in t.owner.panels { assert Standing(t, q, []); }
    }
  }

  lemma ChangesKeepInv(w: World, changes: seq<Observation>, limit: nat, fates: seq<Fate>)
    requires WorldInv(w) && limit >= 1
    ensures WorldInv(ChangesApplied(w, changes, limit, fates))
  {
    if w.owner.registry.Some? {
      var r := w.owner.registry.value;
      var b := Translated(r.devices, w.owner.states, changes);
      var u := w.(owner := w.owner.(states := b.states));
      forall p | p in u.owner.panels ensures Standing(u, p, b.items) {
        assert Standing(w, p, []);
        if Tracks(w, p, []) { TranslationAgrees(r.devices, w.owner.states, changes, w.replicas[p].entries); }
      }
      SendAllStands(u, r.revision, b.items, limit, fates);
    }
  }

  lemma {:induction false} RunKeepsInv(w: World, es: seq<Event>, limit: nat)
    requires WorldInv(w) && limit >= 1
    ensures WorldInv(Run(w, es, limit))
    decreases es
  {
    if es != [] {
      match es[0] {
        case Reread(registry, states, lost) => RefreshKeepsInv(w, registry, states, lost);
        case Attach(p, registry, states, lost, arrives) => AttachKeepsInv(w, p, registry, states, lost, arrives);
        case Detach(p) => assert WorldInv(Detached(w, {p}));
        case ApplyChanges(changes, fates) => ChangesKeepInv(w, changes, limit, fates);
      }
      RunKeepsInv(Step(w, es[0], limit), es[1..], limit);
    }
  }

  /** Whatever is lost: whenever the owner is unlocked, every attached panel agrees with the
      runtime, or will see a gap at the next delta, or missed a snapshot that carried no new
      sequence number. */
  lemma PanelsAgreeOrCanTell(es: seq<Event>, limit: nat, p: PanelId)
    requires limit >= 1 && p in Run(NewWorld(), es, limit).owner.panels
    ensures var w := Run(NewWorld(), es, limit); InStep(w, p) || Behind(w, p) || p in w.missed
  {
    RunKeepsInv(NewWorld(), es, limit);
  }

  // -- No loss ------------------------------------------------------------------------------

  predicate Reaches(e: Event, p: PanelId) {
    match e
    case Reread(_, _, lost) => p !in lost
    case Attach(q, _, _, lost, arrives) => p !in lost && (q == p ==> arrives)
    case Detach(_) => true
    case ApplyChanges(_, fates) => forall f | f in fates :: p !in f.lost
  }

  ghost predicate Follows(w: World, p: PanelId) { p in w.owner.panels ==> InStep(w, p) }

  lemma {:induction false} SendAllFollows(w: World, revision: int, items: seq<Change>, limit: nat, fates: seq<Fate>,
                                          p: PanelId)
    requires limit >= 1 && forall q | q in w.replicas :: w.replicas[q].seqNo <= w.owner.seqNo
    requires p in w.owner.panels ==> Tracks(w, p, items)
    requires forall f | f in fates :: p !in f.lost
    ensures Follows(SendAll(w, revision, items, limit, fates), p)
    decreases |items|
  {
    if items != [] {
      var n := Chunk(items, limit);
      var t := SendOne(w, revision, items[..n], First(fates));
      assert items == items[..n] + items[n..];
      SendOneBounds(w, revision, items[..n], First(fates));
      if p in w.owner.panels { SendOneStands(w, revision, items[..n], items[n..], First(fates), p); }
      SendAllFollows(t, revision, items[n..], limit, Rest(fates), p);
    }
  }

  lemma RefreshFollows(w: World, registry: Registry, states: map<DeviceId, Reading>, lost: set<PanelId>, p: PanelId)
    requires WorldInv(w) && Follows(w, p) && p !in lost
    ensures Follows(Refreshed(w, registry, states, lost), p)
  {
    EntriesAgree(registry.devices, states);
  }

  lemma AttachFollows(w: World, q: PanelId, registry: Registry, states: map<DeviceId, Reading>, lost: set<PanelId>,
                      arrives: bool, p: PanelId)
    requires WorldInv(w) && Follows(w, p) && p !in lost && (q == p ==> arrives)
    ensures Follows(Attached(w, q, registry, states, lost, arrives), p)
  {
    RefreshFollows(w, registry, states, lost, p);
    EntriesAgree(registry.devices, states);
  }

  lemma ChangesFollow(w: World, changes: seq<Observation>, limit: nat, fates: seq<Fate>, p: PanelId)
    requires WorldInv(w) && limit >= 1 && Follows(w, p) && forall f | f in fates :: p !in f.lost
    ensures Follows(ChangesApplied(w, changes, limit, fates), p)
  {
    if w.owner.registry.Some? {
      var r := w.owner.registry.value;
      var b := Translated(r.devices, w.owner.states, changes);
      if p in w.owner.panels { TranslationAgrees(r.devices, w.owner.states, changes, w.replicas[p].entries); }
      SendAllFollows(w.(owner := w.owner.(states := b.states)), r.revision, b.items, limit, fates, p);
    }
  }

  /** When nothing sent to a panel is lost, it agrees with the runtime at every unlocking,
      however it and others attach, sync and detach, in mid-batch included. */
  lemma {:induction false} ReachedPanelFollows(w: World, es: seq<Event>, limit: nat, p: PanelId)
    requires WorldInv(w) && limit >= 1 && Follows(w, p) && forall e | e in es :: Reaches(e, p)
    ensures Follows(Run(w, es, limit), p)
    decreases es
  {
    if es != [] {
      RunKeepsInv(w, [es[0]], limit);
      assert Run(Step(w, es[0], limit), [es[0]][1..], limit) == Step(w, es[0], limit);
      assert Reaches(es[0], p);
      match es[0] {
        case Reread(registry, states, lost) => RefreshFollows(w, registry, states, lost, p);
        case Attach(q, registry, states, lost, arrives) => AttachFollows(w, q, registry, states, lost, arrives, p);
        case Detach(q) => assert Follows(Detached(w, {q}), p);
        case ApplyChanges(changes, fates) => ChangesFollow(w, changes, limit, fates, p);
      }
      ReachedPanelFollows(Step(w, es[0], limit), es[1..], limit, p);
    }
  }

  // -- What each call leaves -----------------------------------------------------------------------

  /** A re-read leaves the owner with exactly the registry and the states that were read, and the
      panels it had; only states that changed behind the same devices take a new number. */
  lemma RereadAdopts(w: World, registry: Registry, states: map<DeviceId, Reading>, lost: set<PanelId>)
    ensures var o, t := w.owner, Refreshed(w, registry, states, lost);
            && t.owner.registry == Some(registry) && t.owner.states == states && t.owner.panels == o.panels
            && t.owner.seqNo == (if o.registry == Some(registry) && o.states.Keys == states.Keys && o.states != states
                                 then o.seqNo + 1 else o.seqNo)
  {}

  /** A panel of the owner that the message of a re-read reaches shows exactly what was read, if
      there was something new; otherwise nothing is sent. */
  lemma RereadShows(w: World, registry: Registry, states: map<DeviceId, Reading>, lost: set<PanelId>, p: PanelId)
    requires w.owner.registry.Some?
    ensures var o, t := w.owner, Refreshed(w, registry, states, lost);
            var news := o.registry.value != registry || o.states != states;
            if news && p in o.panels && p !in lost then
              && p in t.replicas && t.replicas[p].revision == registry.revision && t.replicas[p].seqNo == t.owner.seqNo
              && Agrees(registry.devices, states, t.replicas[p].entries)
            else (p in t.replicas <==> p in w.replicas) && (p in w.replicas ==> t.replicas[p] == w.replicas[p])
  {}

  /** An attached panel is the owner's from then on, and shows what was read if its own snapshot
      arrives; a detached one is not, and no other panel comes or goes with either. */
  lemma PanelsComeAndGo(w: World, p: PanelId, registry: Registry, states: map<DeviceId, Reading>, lost: set<PanelId>,
                        arrives: bool)
    ensures var t := Attached(w, p, registry, states, lost, arrives);
            && t.owner.panels == w.owner.panels + {p} && t.owner.registry == Some(registry) && t.owner.states == states
            && (arrives ==> p in t.replicas && t.replicas[p].seqNo == t.owner.seqNo
                            && Agrees(registry.devices, states, t.replicas[p].entries) && p !in t.missed)
    ensures Detached(w, {p}) == w.(owner := w.owner.(panels := w.owner.panels - {p}))
  {
    RereadAdopts(w, registry, states, lost);
  }

  /** A panel replaces what it holds on a snapshot, applies the delta that is next, and leaves any
      other. */
  lemma ReceivingFollowsNumbers(r: Replica, revision: int, n: nat, entries: map<DeviceId, Entry>, c: Change)
    ensures Received(r, Snapshot(revision, n, entries)) == Replica(revision, n, entries)
    ensures Received(r, Delta(revision, n, [c]))
         == if n != r.seqNo + 1 then r
            else Replica(revision, n, r.entries[c.device := Entry(c.online, Some(c.state))])
  {
    var next := r.entries[c.device := Entry(c.online, Some(c.state))];
    assert Applied(next, [c][1..]) == next;
  }

  // -- Chunks and gaps --------------------------------------------------------------------------

  /** The deltas of one batch. */
  function Deltas(revision: int, seqNo: nat, items: seq<Change>, limit: nat): seq<Message>
    requires limit >= 1
    decreases |items|
  {
    if items == [] then []
    else
      var n := Chunk(items, limit);
      [Delta(revision, seqNo + 1, items[..n])] + Deltas(revision, seqNo + 1, items[n..], limit)
  }

  function AllChanges(ms: seq<Message>): seq<Change>
    requires forall m | m in ms :: m.Delta?
  {
    if ms == [] then [] else ms[0].changes + AllChanges(ms[1..])
  }

  /** A batch is cut into non-empty deltas within the limit, carrying consecutive sequence
      numbers and together exactly the batch, in order. */
  lemma {:induction false} DeltasPartitionTheBatch(revision: int, seqNo: nat, items: seq<Change>, limit: nat)
    requires limit >= 1
    ensures var ms := Deltas(revision, seqNo, items, limit);
            && (forall i | 0 <= i < |ms| ::
                  ms[i].Delta? && ms[i].seqNo == seqNo + 1 + i && 1 <= |ms[i].changes| <= limit)
            && AllChanges(ms) == items
    decreases |items|
  {
    if items != [] {
      var n := Chunk(items, limit);
      var rest := Deltas(revision, seqNo + 1, items[n..], limit);
      DeltasPartitionTheBatch(revision, seqNo + 1, items[n..], limit);
      assert Deltas(revision, seqNo, items, limit)[1..] == rest;
      assert items == items[..n] + items[n..];
    }
  }

  function ReceivedAll(r: Replica, ms: seq<Message>): Replica
    decreases |ms|
  {
    if ms == [] then r else ReceivedAll(Received(r, ms[0]), ms[1..])
  }

  /** Cutting a batch does not change what it does: a panel in sequence that receives the chunks
      holds what the whole batch makes of its entries. */
  lemma {:induction false} ChunksAreTheWhole(r: Replica, revision: int, items: seq<Change>, limit: nat)
    requires limit >= 1
    ensures var ms := Deltas(revision, r.seqNo, items, limit);
            var t := ReceivedAll(r, ms);
            t.entries == Applied(r.entries, items) && t.seqNo == r.seqNo + |ms|
    decreases |items|
  {
    if items != [] {
      var n := Chunk(items, limit);
      var ms := Deltas(revision, r.seqNo, items, limit);
      var next := Received(r, ms[0]);
      assert ms[1..] == Deltas(revision, next.seqNo, items[n..], limit);
      ChunksAreTheWhole(next, revision, items[n..], limit);
      AppliedConcat(r.entries, items[..n], items[n..]);
      assert items == items[..n] + items[n..];
    }
  }

  /** No snapshot gets to the panel; deltas may, or not. */
  predicate Unsnapped(e: Event, p: PanelId) {
    match e
    case Reread(_, _, lost) => p in lost
    case Attach(q, _, _, lost, arrives) => p in lost && !(q == p && arrives)
    case Detach(_) => true
    case ApplyChanges(_, _) => true
  }

  /** The panel holds what it held, and its number is still behind. */
  predicate Stuck(w: World, t: World, p: PanelId) {
    Behind(t, p) && (if p in w.replicas then p in t.replicas && t.replicas[p] == w.replicas[p] else p !in t.replicas)
  }

  lemma {:induction false} DeltasLeaveGap(w: World, revision: int, items: seq<Change>, limit: nat, fates: seq<Fate>,
                                          p: PanelId)
    requires limit >= 1 && Behind(w, p)
    ensures Stuck(w, SendAll(w, revision, items, limit, fates), p)
    decreases |items|
  {
    if items != [] {
      var n := Chunk(items, limit);
      DeltasLeaveGap(SendOne(w, revision, items[..n], First(fates)), revision, items[n..], limit, Rest(fates), p);
    }
  }

  lemma LostRefreshLeavesGap(w: World, registry: Registry, states: map<DeviceId, Reading>, lost: set<PanelId>,
                             p: PanelId)
    requires Behind(w, p) && p in lost
    ensures Stuck(w, Refreshed(w, registry, states, lost), p)
  {}

  /** A lost delta shows for as long as it matters: through any batches, however their deltas
      fare, and any re-reads and attachments of others, the panel applies nothing and its number
      stays behind, until a snapshot gets to it. */
  lemma {:induction false} GapStaysVisible(w: World, es: seq<Event>, limit: nat, p: PanelId)
    requires limit >= 1 && Behind(w, p) && forall e | e in es :: Unsnapped(e, p)
    ensures Stuck(w, Run(w, es, limit), p)
    decreases es
  {
    if es != [] {
      assert Unsnapped(es[0], p);
      match es[0] {
        case Reread(registry, states, lost) => LostRefreshLeavesGap(w, registry, states, lost, p);
        case Attach(q, registry, states, lost, arrives) => LostRefreshLeavesGap(w, registry, states, lost, p);
        case Detach(q) =>
        case ApplyChanges(changes, fates) =>
          if w.owner.registry.Some? {
            var r := w.owner.registry.value;
            var b := Translated(r.devices, w.owner.states, changes);
            DeltasLeaveGap(w.(owner := w.owner.(states := b.states)), r.revision, b.items, limit, fates, p);
          }
      }
      GapStaysVisible(Step(w, es[0], limit), es[1..], limit, p);
    }
  }

  /** Whether losing a refresh shows: for a panel in step, exactly when only states changed. */
  lemma LostRefreshShowsIff(w: World, registry: Registry, states: map<DeviceId, Reading>, lost: set<PanelId>,
                            p: PanelId)
    requires WorldInv(w) && p in w.owner.panels && p in lost && InStep(w, p)
    ensures Behind(Refreshed(w, registry, states, lost), p)
       <==> w.owner.registry == Some(registry) && w.owner.states.Keys == states.Keys && w.owner.states != states
  {}

  /** A lost registry refresh can leave a panel wrong with nothing to tell it: its number is
      current, and it applies the next delta as if nothing had happened. */
  lemma LostRegistryRefreshIsUnseen(w: World, registry: Registry, states: map<DeviceId, Reading>, lost: set<PanelId>,
                                    p: PanelId, d: DeviceId, m: Message)
    requires WorldInv(w) && p in w.owner.panels && p in lost && InStep(w, p)
    requires d in registry.devices && d !in w.owner.registry.value.devices
    requires m.Delta? && m.seqNo == w.owner.seqNo + 1 && forall c | c in m.changes :: c.device != d
    ensures var t := Refreshed(w, registry, states, lost);
            && !InStep(t, p) && !Behind(t, p)
            && Received(t.replicas[p], m).seqNo == m.seqNo
            && d !in Received(t.replicas[p], m).entries
  {
    var t := Refreshed(w, registry, states, lost);
    assert d !in t.replicas[p].entries;
    UntouchedDevice(t.replicas[p].entries, m.changes, d);
  }

  lemma {:induction false} UntouchedDevice(entries: map<DeviceId, Entry>, changes: seq<Change>, d: DeviceId)
    requires d !in entries && forall c | c in changes :: c.device != d
    ensures d !in Applied(entries, changes)
    decreases |changes|
  {
    if changes != [] {
      UntouchedDevice(entries[changes[0].device := Entry(changes[0].online, Some(changes[0].state))], changes[1..], d);
    }
  }
}
