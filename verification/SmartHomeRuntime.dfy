/** class _Owner and the methods of SmartHomeRuntime that keep it: fields updated in place, each
    method proved against the panel projection. */
module SmartHomeRuntime {
  import opened Contracts
  import opened PanelProjection

  class OwnerProjection {
    var registry: Option<Registry>
    var states: map<DeviceId, Reading>
    var seqNo: nat
    var panels: set<PanelId>
    /** What the panels hold of what was sent to them. */
    var replicas: map<PanelId, Replica>
    ghost var missed: set<PanelId>

    ghost function State(): World reads this { World(Owner(registry, states, seqNo, panels), replicas, missed) }

    constructor ()
      ensures State() == NewWorld()
    {
      registry, states, seqNo, panels, replicas, missed := None, map[], 0, {}, map[], {};
    }

    /** Send to every attached panel, in any order; a send that fails costs only its panel. */
    method SendToAll(m: Message, lost: set<PanelId>)
      modifies `replicas, `missed
      ensures State() == Broadcast(old(State()), m, lost)
    {
      var waiting := panels;
      while waiting != {}
        invariant waiting <= panels && missed == old(missed)
        invariant replicas == Delivered(old(replicas), panels - waiting - lost, m)
        decreases waiting
      {
        var p :| p in waiting;
        waiting := waiting - {p};
        if p !in lost {
          if m.Snapshot? {
            replicas := replicas[p := Shown(m)];
          } else if p in replicas {
            replicas := replicas[p := Received(replicas[p], m)];
          }
        }
      }
      assert panels - {} - lost == panels - lost;
      missed := if m.Snapshot? then missed - (panels - lost) else missed;
    }

    method BuildSnapshot(r: Registry) returns (m: Message)
      ensures m == SnapshotOf(Owner(registry, states, seqNo, panels), r)
    {
      var entries: map<DeviceId, Entry> := map[];
      var i := 0;
      while i < |r.devices|
        invariant 0 <= i <= |r.devices|
        invariant entries == Entries(r.devices[..i], states)
      {
        var d := r.devices[i];
        assert forall x :: x in r.devices[..i + 1] <==> x in r.devices[..i] || x == d;
        entries := entries[d := if d in states then Entry(true, Some(states[d])) else Entry(false, None)];
        i := i + 1;
      }
      assert r.devices[..|r.devices|] == r.devices;
      m := Snapshot(r.revision, seqNo, entries);
    }

    method ReadRegistry(current: Registry, status: map<DeviceId, Reading>, lost: set<PanelId>)
      modifies this
      ensures State() == Refreshed(old(State()), current, status, lost)
    {
      var previousRegistry, previousStates := registry, states;
      registry, states := Some(current), status;
      if previousRegistry.Some? {
        if previousRegistry.value != current || previousStates.Keys != status.Keys {
          var m := BuildSnapshot(current);
          SendToAll(m, lost);
          missed := missed + panels * lost;
        } else if previousStates != status {
          seqNo := seqNo + 1;
          var m := BuildSnapshot(current);
          SendToAll(m, lost);
        }
      }
    }

    method AttachPanel(p: PanelId, current: Registry, status: map<DeviceId, Reading>, lost: set<PanelId>, arrives: bool)
      modifies this
      ensures State() == Attached(old(State()), p, current, status, lost, arrives)
    {
      ReadRegistry(current, status, lost);
      ghost var known := p in panels;
      panels := panels + {p};
      var m := BuildSnapshot(current);
      if arrives {
        replicas := replicas[p := Shown(m)];
        missed := missed - {p};
      } else {
        missed := if known then missed else missed + {p};
      }
    }

    method DetachPanels(leaving: set<PanelId>)
      modifies `panels
      ensures State() == Detached(old(State()), leaving)
    {
      panels := panels - leaving;
    }

    /** Fold a batch of observations into the states. */
    method FoldObservations(known: seq<DeviceId>, changes: seq<Observation>) returns (items: seq<Change>)
      modifies `states
      ensures Batch(states, items) == Translated(known, old(states), changes)
    {
      items := [];
      var i := 0;
      while i < |changes|
        invariant 0 <= i <= |changes|
        invariant Batch(states, items) == Translated(known, old(states), changes[..i])
      {
        var c := changes[i];
        assert changes[..i + 1][..i] == changes[..i];
        if c.device in known {
          var state := if c.state.Some? then c.state.value else if c.device in states then states[c.device] else "";
          if c.reachable { states := states[c.device := state]; } else { states := states - {c.device}; }
          items := items + [Change(c.device, c.reachable, state)];
        }
        i := i + 1;
      }
      assert changes[..|changes|] == changes;
    }

    method ApplyChanges(changes: seq<Observation>, limit: nat, fates: seq<Fate>)
      requires limit >= 1
      modifies this
      ensures State() == ChangesApplied(old(State()), changes, limit, fates)
    {
      if registry.None? { return; }
      var revision := registry.value.revision;
      var items := FoldObservations(registry.value.devices, changes);
      ghost var start := State();
      var sent, left := 0, fates;
      while sent < |items|
        invariant 0 <= sent <= |items| && registry == old(registry)
        invariant SendAll(State(), revision, items[sent..], limit, left)
            == SendAll(start, revision, items, limit, fates)
      {
        var chunk := items[sent..][..Chunk(items[sent..], limit)];
        assert items[sent..][|chunk|..] == items[sent + |chunk|..];
        seqNo := seqNo + 1;
        SendToAll(Delta(revision, seqNo, chunk), First(left).lost);
        DetachPanels(First(left).leaving);
        left := Rest(left);
        sent := sent + |chunk|;
      }
    }
  }
}
