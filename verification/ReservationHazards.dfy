/** What an orphan write costs, and how one comes about. */
module ReservationHazards {
  import opened Contracts
  import opened EndpointPreparation
  import opened SceneProtocol
  import opened SceneGuarantees
  import opened SceneReservations
  import opened ReservationSafety
  import opened ReservationSoundness

  lemma PerformTwo(w: World, m: Move, n: Move)
    ensures PerformAll(w, [m, n]) == Perform(Perform(w, m), n)
  {
    assert [m, n][1..] == [n];
    assert PerformAll(Perform(w, m), [n]) == PerformAll(Perform(Perform(w, m), n), []);
  }

  lemma {:induction false} PerformConcat(w: World, ms: seq<Move>, ns: seq<Move>)
    ensures PerformAll(w, ms + ns) == PerformAll(PerformAll(w, ms), ns)
    decreases ms
  {
    if ms == [] {
      assert ms + ns == ns;
    } else {
      assert (ms + ns)[1..] == ms[1..] + ns;
      PerformConcat(Perform(w, ms[0]), ms[1..], ns);
    }
  }

  /** What restoring one scene does when its row can be read and written. */
  lemma RestoringReserves(w: World, k: Key)
    requires w.mode == Recovering && k in w.scenes && w.scenes[k].memory.None? && Incomplete(w.scenes[k])
    requires Restore(w.scenes[k].devices, w.scenes[k].saved.value).Some? && Free(w.scopes, w.scenes[k].devices)
    ensures var t := Perform(w, RestoreScene(k, true));
            && t.mode == Recovering && Held(t.scopes, w.scenes[k].devices, ForScene(k))
            && forall j | j in w.scenes && j != k :: j in t.scenes && t.scenes[j] == w.scenes[j]
  {}

  lemma RestoringCollides(w: World, k: Key)
    requires w.mode == Recovering && k in w.scenes && w.scenes[k].memory.None? && Incomplete(w.scenes[k])
    requires Restore(w.scenes[k].devices, w.scenes[k].saved.value).Some? && !Free(w.scopes, w.scenes[k].devices)
    ensures Perform(w, RestoreScene(k, true)).mode == StartRefused(ConflictingReservations)
  {}

  /** Two persisted incomplete scenes on the same devices cannot both come back. */
  lemma SharedDevicesRefuseRestart(w: World, j: Key, k: Key)
    requires w.mode == Running && j in w.scenes && k in w.scenes && j != k
    requires w.scenes[j].devices == w.scenes[k].devices && Incomplete(w.scenes[j]) && Incomplete(w.scenes[k])
    requires Restore(w.scenes[j].devices, w.scenes[j].saved.value).Some?
    requires Restore(w.scenes[k].devices, w.scenes[k].saved.value).Some?
    ensures PerformAll(w, [ProcessDies, StartUp] + [RestoreScene(j, true), RestoreScene(k, true)]).mode
         == StartRefused(ConflictingReservations)
  {
    var down := Perform(Perform(w, ProcessDies), StartUp);
    PerformConcat(w, [ProcessDies, StartUp], [RestoreScene(j, true), RestoreScene(k, true)]);
    PerformTwo(w, ProcessDies, StartUp);
    PerformTwo(down, RestoreScene(j, true), RestoreScene(k, true));
    RestoringReserves(down, j);
    var d := w.scenes[k].devices[0];
    assert d in w.scenes[k].devices;
    RestoringCollides(Perform(down, RestoreScene(j, true)), k);
  }

  /** After any orphan write of a readable row, opening its free devices for another scene and
      restarting is refused: the two rows claim the same devices. */
  lemma OrphanWriteRefusesRestart(w: World, m: Move, other: Key)
    requires WorldInv(w) && OrphanWrite(w, m) && other !in w.scenes
    requires NonEmpty(w.scenes[m.key].memory.value.visit.sessions) && Free(w.scopes, w.scenes[m.key].devices)
    ensures PerformAll(w, [m, Open(other, w.scenes[m.key].devices, true, true)]
                          + ([ProcessDies, StartUp] + [RestoreScene(m.key, true), RestoreScene(other, true)])).mode
         == StartRefused(ConflictingReservations)
  {
    var k, devices := m.key, w.scenes[m.key].devices;
    var open := Open(other, devices, true, true);
    PerformConcat(w, [m, open], [ProcessDies, StartUp] + [RestoreScene(k, true), RestoreScene(other, true)]);
    PerformTwo(w, m, open);
    OrphanRow(w, m);
    OpenedRow(Perform(w, m), other, devices);
    SharedDevicesRefuseRestart(Perform(Perform(w, m), open), k, other);
  }

  /** The row an orphan write leaves: incomplete, readable, holding nothing. */
  lemma OrphanRow(w: World, m: Move)
    requires WorldInv(w) && OrphanWrite(w, m) && NonEmpty(w.scenes[m.key].memory.value.visit.sessions)
    ensures var t := Perform(w, m);
            && t.mode == Running && t.scopes == w.scopes && t.scenes.Keys == w.scenes.Keys
            && t.scenes[m.key].devices == w.scenes[m.key].devices && Incomplete(t.scenes[m.key])
            && Restore(t.scenes[m.key].devices, t.scenes[m.key].saved.value).Some?
  {
    var s := w.scenes[m.key];
    assert SceneFine(w, m.key);
    OrphanStep(s, m.event);
    OrphanReadable(s, m.event);
  }

  lemma OrphanReadable(s: Scene, e: Event)
    requires SceneInv(s) && WritesIncomplete(s, e) && NonEmpty(s.memory.value.visit.sessions)
    ensures Step(s, e).saved.Some? && Restore(s.devices, Step(s, e).saved.value).Some?
  {
    StepKeepsInv(s, e);
    OrphanStep(s, e);
    RestorableIff(s.devices, Step(s, e).saved.value);
  }

  lemma OrphanStep(s: Scene, e: Event)
    requires SceneInv(s) && WritesIncomplete(s, e)
    ensures var t := Step(s, e);
            && t.devices == s.devices && Incomplete(t) && t.saved.value.sessions == s.memory.value.visit.sessions
  {}

  lemma OpenedRow(w: World, k: Key, devices: Selection)
    requires w.mode == Running && k !in w.scenes && Free(w.scopes, devices)
    ensures var t := Perform(w, Open(k, devices, true, true));
            && t.mode == Running && k in t.scenes && t.scenes[k].devices == devices && Incomplete(t.scenes[k])
            && Restore(devices, t.scenes[k].saved.value).Some?
            && forall j | j in w.scenes :: j in t.scenes && t.scenes[j] == w.scenes[j]
  {
    OpeningKeepsInv(devices, true);
    RestorableIff(devices, Opening(devices, true).saved.value);
  }

  /** A visit whose intent could not be written stays in the catalog holding nothing; closing it
      is an orphan write. */
  lemma UnwrittenIntentOrphans(w: World, k: Key, devices: Selection)
    requires WorldInv(w) && w.mode == Running && k !in w.scenes && Free(w.scopes, devices)
    ensures OrphanWrite(Perform(w, Open(k, devices, true, false)), Act(k, CloseReturn(true)))
  {
    NotAHolder(w, ForScene(k));
    var d := devices[0];
    assert d in devices;
  }

  lemma QuietAct(w: World, k: Key, e: Event)
    requires w.mode == Running && k in w.scenes && (e.CleanupBegin? || (e.CleanupDone? && !e.saved))
    ensures Perform(w, Act(k, e)) == w.(scenes := w.scenes[k := Step(w.scenes[k], e)])
  {}

  /** A cleanup repeated on a closed, released scene whose last write fails; closing it again is
      an orphan write. */
  lemma RepeatedCleanupOrphans(w: World, k: Key)
    requires WorldInv(w) && w.mode == Running && k in w.scenes && !Held(w.scopes, w.scenes[k].devices, ForScene(k))
    requires w.scenes[k].memory.value.run == Finished && w.scenes[k].memory.value.close == Idle
    ensures var t := PerformAll(w, [Act(k, CleanupBegin), Act(k, CleanupDone(false))]);
            OrphanWrite(t, Act(k, CloseReturn(true)))
  {
    var s := w.scenes[k];
    HoldsNothing(w, k);
    AllOrNone(w, k);
    PerformTwo(w, Act(k, CleanupBegin), Act(k, CleanupDone(false)));
    QuietAct(w, k, CleanupBegin);
    QuietAct(Perform(w, Act(k, CleanupBegin)), k, CleanupDone(false));
    RepeatedBegin(s);
    RepeatedCleanup(Step(s, CleanupBegin));
    HoldlessOrphan(PerformAll(w, [Act(k, CleanupBegin), Act(k, CleanupDone(false))]), k);
  }

  lemma HoldlessOrphan(w: World, k: Key)
    requires w.mode == Running && k in w.scenes && Holdless(w, ForScene(k))
    requires WritesIncomplete(w.scenes[k], CloseReturn(true))
    ensures OrphanWrite(w, Act(k, CloseReturn(true)))
  {
    var d := w.scenes[k].devices[0];
    assert d in w.scenes[k].devices;
  }

  lemma RepeatedBegin(s: Scene)
    requires Resting(s) && s.memory.value.run == Finished && s.memory.value.close == Idle
    ensures var t := Step(s, CleanupBegin);
            t.devices == s.devices && t.memory.Some? && t.memory.value.close == Ending({}, false)
  {
    assert PendingEnds(s.memory.value.visit) == {};
  }

  lemma RepeatedCleanup(s: Scene)
    requires s.memory.Some? && s.memory.value.close == Ending({}, false)
    ensures var t := Step(s, CleanupDone(false));
            && t.memory.Some? && t.devices == s.devices && WritesIncomplete(t, CloseReturn(true))
  {}
}
