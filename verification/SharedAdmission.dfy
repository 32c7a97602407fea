/** shared_admission.py: the admission barrier of one shared session, proved against a
    specification over everything that has been said to it. */
module SharedAdmission {
  import opened Contracts

  type DeviceId = string
  type InvitationId = string

  /** A command status once normalised. */
  datatype Status = Accepted | Running | Succeeded | NotAccepted(text: string)

  datatype Event =
    | Acknowledged(device: DeviceId, invitation: InvitationId, status: Status)
    | Observed(members: set<DeviceId>)
    | Polled(now: int)
    | Ended

  datatype Terms = Terms(invitations: map<DeviceId, InvitationId>, deadline: int)

  // -- The specification --------------------------------------------------------------

  /** At least two devices, nothing empty, no invitation shared, a positive deadline. */
  ghost predicate WellFormed(t: Terms) {
    && |t.invitations| >= 2 && t.deadline > 0
    && (forall d | d in t.invitations :: d != "" && t.invitations[d] != "")
    && Injective(t.invitations)
  }

  ghost predicate Injective<A, B>(m: map<A, B>) { forall a, b | a in m && b in m && m[a] == m[b] :: a == b }

  /** An acknowledgement of the device's own invitation. */
  predicate Own(t: Terms, e: Event, d: DeviceId) {
    e.Acknowledged? && e.device == d && d in t.invitations && t.invitations[d] == e.invitation
  }

  predicate Accepts(t: Terms, e: Event, d: DeviceId) { Own(t, e, d) && !e.status.NotAccepted? }

  predicate Fails(t: Terms, e: Event, d: DeviceId) { Own(t, e, d) && e.status.NotAccepted? }

  ghost predicate HasAccepted(t: Terms, h: seq<Event>, d: DeviceId) { exists e :: e in h && Accepts(t, e, d) }

  ghost predicate HasFailed(t: Terms, h: seq<Event>, d: DeviceId) { exists e :: e in h && Fails(t, e, d) }

  predicate Closes(t: Terms, e: Event) { e.Ended? || (e.Polled? && e.now >= t.deadline) }

  ghost predicate HasClosed(t: Terms, h: seq<Event>) { exists e :: e in h && Closes(t, e) }

  /** The last complete observation of the room. */
  function LastMembers(h: seq<Event>): set<DeviceId> {
    if h == [] then {} else if h[|h| - 1].Observed? then h[|h| - 1].members else LastMembers(h[..|h| - 1])
  }

  /** Before the deadline, never closed, and every invited device accepted its own invitation,
      never failed it, and was in the room at the last look. */
  ghost predicate Admitted(t: Terms, h: seq<Event>, now: int) {
    && now < t.deadline && !HasClosed(t, h)
    && forall d | d in t.invitations :: HasAccepted(t, h, d) && !HasFailed(t, h, d) && d in LastMembers(h)
  }

  // -- The barrier --------------------------------------------------------------------

  class Barrier {
    const terms: Terms
    var accepted: set<DeviceId>
    var present: set<DeviceId>
    var failed: set<DeviceId>
    var closed: bool
    /** Everything said to the barrier so far. */
    ghost var history: seq<Event>

    ghost predicate Valid() reads this {
      && closed == HasClosed(terms, history)
      && (closed ==> accepted == {} && present == {})
      && (!closed ==>
            && present == LastMembers(history) * terms.invitations.Keys
            && (forall d :: d in failed <==> HasFailed(terms, history, d))
            && (forall d :: d in accepted <==> HasAccepted(terms, history, d) && !HasFailed(terms, history, d)))
    }

    constructor (t: Terms)
      requires WellFormed(t)
      ensures Valid() && terms == t && history == []
    {
      terms := t;
      accepted, present, failed, closed, history := {}, {}, {}, false, [];
    }

    /** Builds a barrier, or refuses invitations that could not be told apart. */
    static method Convene(invitations: map<DeviceId, InvitationId>, deadline: int) returns (r: Option<Barrier>)
      ensures r.Some? <==> WellFormed(Terms(invitations, deadline))
      ensures r.Some? ==> fresh(r.value) && r.value.Valid() && r.value.history == []
                          && r.value.terms == Terms(invitations, deadline)
    {
      CountingTellsApart(invitations);
      if |invitations| < 2 || (exists d | d in invitations :: d == "" || invitations[d] == "") { return None; }
      if |invitations.Values| != |invitations| { return None; }
      if deadline <= 0 { return None; }
      var barrier := new Barrier(Terms(invitations, deadline));
      r := Some(barrier);
    }

    method Acknowledge(d: DeviceId, invitation: InvitationId, status: Status)
      requires Valid()
      modifies this
      ensures Valid() && history == old(history) + [Acknowledged(d, invitation, status)]
    {
      ghost var before := history;
      history := history + [Acknowledged(d, invitation, status)];
      Extended(terms, before, Acknowledged(d, invitation, status));
      if !closed && d in terms.invitations && terms.invitations[d] == invitation {
        if !status.NotAccepted? {
          if d !in failed { accepted := accepted + {d}; }
        } else {
          failed, accepted := failed + {d}, accepted - {d};
        }
      }
    }

    method ObserveMembers(members: set<DeviceId>)
      requires Valid()
      modifies this
      ensures Valid() && history == old(history) + [Observed(members)]
    {
      ghost var before := history;
      history := history + [Observed(members)];
      Extended(terms, before, Observed(members));
      if !closed { present := members * terms.invitations.Keys; }
    }

    method Ready(now: int) returns (ready: bool)
      requires Valid()
      modifies this
      ensures Valid() && history == old(history) + [Polled(now)]
      ensures ready == Admitted(terms, old(history), now)
    {
      ghost var before := history;
      if now >= terms.deadline { Shut(Polled(now)); }
      else {
        history := history + [Polled(now)];
        Extended(terms, before, Polled(now));
      }
      ready := !closed && failed == {} && accepted == present == terms.invitations.Keys;
      AcceptedAreInvited(terms, before);
    }

    method Close()
      requires Valid()
      modifies this
      ensures Valid() && history == old(history) + [Ended]
    {
      Shut(Ended);
    }

    method Shut(ghost e: Event)
      requires Valid() && Closes(terms, e)
      modifies this
      ensures Valid() && closed && failed == old(failed) && history == old(history) + [e]
    {
      Extended(terms, history, e);
      history := history + [e];
      closed, accepted, present := true, {}, {};
    }
  }

  /** Counting the ids decides whether each belongs to one device. */
  lemma {:induction false} CountingTellsApart<A, B>(m: map<A, B>)
    ensures |m.Values| <= |m|
    ensures |m.Values| == |m| <==> Injective(m)
    decreases |m|
  {
    if m != map[] {
      var a :| a in m;
      var rest := m - {a};
      assert m.Keys == rest.Keys + {a} && |rest| == |m| - 1;
      assert m.Values == rest.Values + {m[a]};
      CountingTellsApart(rest);
      assert m[a] in rest.Values <==> exists b :: b in m && b != a && m[b] == m[a];
      assert Injective(m) <==> Injective(rest) && m[a] !in rest.Values;
    }
  }

  lemma Extended(t: Terms, h: seq<Event>, e: Event)
    ensures HasClosed(t, h + [e]) <==> HasClosed(t, h) || Closes(t, e)
    ensures forall d :: HasAccepted(t, h + [e], d) <==> HasAccepted(t, h, d) || Accepts(t, e, d)
    ensures forall d :: HasFailed(t, h + [e], d) <==> HasFailed(t, h, d) || Fails(t, e, d)
    ensures LastMembers(h + [e]) == if e.Observed? then e.members else LastMembers(h)
  {
    var g := h + [e];
    assert g[|g| - 1] == e && g[..|g| - 1] == h;
    assert forall x :: x in g <==> x in h || x == e;
  }

  lemma AcceptedAreInvited(t: Terms, h: seq<Event>)
    ensures forall d | HasAccepted(t, h, d) || HasFailed(t, h, d) :: d in t.invitations
  {}

  // -- Permanence ---------------------------------------------------------------------

  /** Once closed, or once any invited device failed, nothing said later admits the session. */
  lemma RefusalIsPermanent(t: Terms, h: seq<Event>, later: seq<Event>, now: int)
    requires HasClosed(t, h) || exists d :: HasFailed(t, h, d)
    ensures !Admitted(t, h + later, now)
  {
    assert forall e :: e in h ==> e in h + later;
    if d :| HasFailed(t, h, d) {
      var e :| e in h && Fails(t, e, d);
      assert Fails(t, e, d) && e in h + later;
      assert HasFailed(t, h + later, d);
    }
  }

  /** A poll at or after the deadline closes the barrier: an earlier clock cannot reopen it. */
  lemma LatePollIsFinal(t: Terms, h: seq<Event>, late: int, later: seq<Event>, now: int)
    requires late >= t.deadline
    ensures !Admitted(t, h + [Polled(late)] + later, now)
  {
    Extended(t, h, Polled(late));
    RefusalIsPermanent(t, h + [Polled(late)], later, now);
  }

  /** No acknowledgement speaks for two devices. */
  lemma AnswersAreOwn(t: Terms, e: Event, f: Event, d: DeviceId, x: DeviceId)
    requires WellFormed(t) && Own(t, e, d) && Own(t, f, x) && e.invitation == f.invitation
    ensures d == x
  {
    assert t.invitations[d] == t.invitations[x];
  }

  /** Admission does not depend on the order of the acknowledgements. */
  lemma OrderOfAnswersIsImmaterial(t: Terms, h: seq<Event>, e: Event, f: Event, now: int)
    requires e.Acknowledged? && f.Acknowledged?
    ensures Admitted(t, h + [e] + [f], now) <==> Admitted(t, h + [f] + [e], now)
  {
    Extended(t, h, e);
    Extended(t, h, f);
    Extended(t, h + [e], f);
    Extended(t, h + [f], e);
  }
}
