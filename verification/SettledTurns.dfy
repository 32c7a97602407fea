/** timeline.py: one settled record per turn. */
module SettledTurns {
  import opened Contracts

  /** A timeline row: `turnId` is empty when the row names no turn. */
  datatype Record = Record(turnId: string, isFinal: bool, marks: nat, body: string)

  // -- Keys ---------------------------------------------------------------------------

  function Digit(n: nat): char requires n < 10 { ('0' as int + n) as char }

  function Decimal(n: nat): (s: string)
    ensures s != ""
  {
    if n < 10 then [Digit(n)] else Decimal(n / 10) + [Digit(n % 10)]
  }

  function DigitValue(c: char): int { c as int - '0' as int }

  function Value(s: string): int { if s == "" then 0 else 10 * Value(s[..|s| - 1]) + DigitValue(s[|s| - 1]) }

  lemma {:induction false} DecimalRoundTrip(n: nat)
    ensures Value(Decimal(n)) == n
  {
    var s := Decimal(n);
    if n < 10 {
      assert s[..|s| - 1] == "";
    } else {
      DecimalRoundTrip(n / 10);
      assert s[..|s| - 1] == Decimal(n / 10);
    }
  }

  function Anonymous(n: nat): string { "_anonymous_" + Decimal(n) }

  predicate AnonymousForm(id: string) { |id| > 11 && id[..11] == "_anonymous_" && id == Anonymous(Number(id)) }

  function Number(id: string): nat requires |id| >= 11 { if Value(id[11..]) < 0 then 0 else Value(id[11..]) }

  /** Synthesised ids tell positions apart and are never empty. */
  lemma AnonymousIdsDiffer(m: nat, n: nat)
    ensures Anonymous(m) != "" && AnonymousForm(Anonymous(m))
    ensures Anonymous(m) == Anonymous(n) ==> m == n
  {
    DecimalRoundTrip(m);
    DecimalRoundTrip(n);
    assert Anonymous(m)[11..] == Decimal(m) && Anonymous(n)[11..] == Decimal(n);
  }

  // -- The selection ----------------------------------------------------------------------

  /** Whether the candidate describes the turn better. */
  predicate Prefer(candidate: Record, incumbent: Record) {
    if candidate.isFinal != incumbent.isFinal then candidate.isFinal else candidate.marks > incumbent.marks
  }

  datatype Selection = Selection(chosen: map<string, Record>, order: seq<string>)

  function KeyFor(r: Record, distinct: nat): string { if r.turnId != "" then r.turnId else Anonymous(distinct) }

  function Selected(s: Selection, r: Record): Selection {
    var key := KeyFor(r, |s.order|);
    if key !in s.chosen then Selection(s.chosen[key := r], s.order + [key])
    else if Prefer(r, s.chosen[key]) then s.(chosen := s.chosen[key := r])
    else s
  }

  /** The selection after all records. */
  function Settle(records: seq<Record>): (s: Selection)
    ensures forall k | k in s.order :: k in s.chosen
  {
    if records == [] then Selection(map[], [])
    else Selected(Settle(records[..|records| - 1]), records[|records| - 1])
  }

  function Output(s: Selection): (out: seq<Record>)
    requires forall k | k in s.order :: k in s.chosen
    ensures |out| == |s.order|
  {
    seq(|s.order|, i requires 0 <= i < |s.order| => s.chosen[s.order[i]])
  }

  method SettledTurnRecords(records: seq<Record>) returns (out: seq<Record>)
    ensures out == Output(Settle(records))
  {
    var chosen: map<string, Record> := map[];
    var order: seq<string> := [];
    var n := 0;
    while n < |records|
      invariant 0 <= n <= |records|
      invariant Selection(chosen, order) == Settle(records[..n])
    {
      var r := records[n];
      assert records[..n + 1][..n] == records[..n];
      var key := r.turnId;
      if key == "" { key := Anonymous(|order|); }
      if key !in chosen {
        chosen := chosen[key := r];
        order := order + [key];
      } else if Prefer(r, chosen[key]) {
        chosen := chosen[key := r];
      }
      n := n + 1;
    }
    assert records[..|records|] == records;
    out := seq(|order|, i requires 0 <= i < |order| => chosen[order[i]]);
  }

  // -- What is selected ---------------------------------------------------------------------

  /** The turn that record i was filed under. */
  function KeyAt(records: seq<Record>, i: nat): string requires i < |records| {
    KeyFor(records[i], |Settle(records[..i]).order|)
  }

  /** A row that did not settle its turn says less than one that did; of two alike, the one with
      fewer marks does. */
  predicate SaysLess(a: Record, b: Record) {
    (!a.isFinal && b.isFinal) || (a.isFinal == b.isFinal && a.marks < b.marks)
  }

  /** No record of its turn says more than record i, and every earlier one says less. */
  ghost predicate EarliestBest(records: seq<Record>, i: nat) requires i < |records| {
    forall j | 0 <= j < |records| && KeyAt(records, j) == KeyAt(records, i) ::
      !SaysLess(records[i], records[j]) && (j < i ==> SaysLess(records[j], records[i]))
  }

  ghost predicate FirstOfTurn(records: seq<Record>, i: nat) requires i < |records| {
    forall j | 0 <= j < i :: KeyAt(records, j) != KeyAt(records, i)
  }

  lemma KeyAtPrefix(records: seq<Record>, r: Record, i: nat)
    requires i < |records|
    ensures KeyAt(records + [r], i) == KeyAt(records, i)
  {
    assert (records + [r])[..i] == records[..i];
  }

  lemma LastKey(records: seq<Record>, r: Record)
    ensures KeyAt(records + [r], |records|) == KeyFor(r, |Settle(records).order|)
    ensures Settle(records + [r]) == Selected(Settle(records), r)
  {
    assert (records + [r])[..|records|] == records;
  }

  /** Turns come out in the order of their first records, each turn once. */
  ghost predicate Orders(records: seq<Record>, order: seq<string>, firsts: seq<nat>) {
    && |firsts| == |order|
    && (forall a | 0 <= a < |order| ::
          firsts[a] < |records| && KeyAt(records, firsts[a]) == order[a] && FirstOfTurn(records, firsts[a]))
    && (forall a, b | 0 <= a < b < |order| :: firsts[a] < firsts[b])
    && (forall i | 0 <= i < |records| :: KeyAt(records, i) in order)
  }

  /** A turn's record is the earliest maximum of its group by finality, then marks. */
  lemma {:induction false} ChosenIsEarliestBest(records: seq<Record>, key: string)
    requires key in Settle(records).chosen
    ensures exists i | 0 <= i < |records| ::
              KeyAt(records, i) == key && Settle(records).chosen[key] == records[i] && EarliestBest(records, i)
    decreases |records|
  {
    var n := |records| - 1;
    var prior, r := records[..n], records[n];
    assert records == prior + [r];
    LastKey(prior, r);
    forall i | 0 <= i < n ensures KeyAt(records, i) == KeyAt(prior, i) { KeyAtPrefix(prior, r, i); }
    if key in Settle(prior).chosen {
      ChosenIsEarliestBest(prior, key);
      var i :| 0 <= i < n && KeyAt(prior, i) == key && Settle(prior).chosen[key] == prior[i] && EarliestBest(prior, i);
      StillBest(prior, r, i);
    } else {
      NobodyYet(prior, key);
      assert EarliestBest(records, n);
    }
  }

  lemma {:induction false} NobodyYet(records: seq<Record>, key: string)
    requires key !in Settle(records).chosen
    ensures forall i | 0 <= i < |records| :: KeyAt(records, i) != key
    decreases |records|
  {
    if records != [] {
      var n := |records| - 1;
      var prior, r := records[..n], records[n];
      assert records == prior + [r];
      LastKey(prior, r);
      NobodyYet(prior, key);
      forall i | 0 <= i < n ensures KeyAt(records, i) != key { KeyAtPrefix(prior, r, i); }
    }
  }

  /** The next record takes over exactly when it is preferred. */
  lemma StillBest(records: seq<Record>, r: Record, i: nat)
    requires i < |records| && EarliestBest(records, i)
    ensures KeyAt(records + [r], |records|) != KeyAt(records, i) || !Prefer(r, records[i]) ==>
              EarliestBest(records + [r], i)
    ensures KeyAt(records + [r], |records|) == KeyAt(records, i) && Prefer(r, records[i]) ==>
              EarliestBest(records + [r], |records|)
  {
    forall j | 0 <= j < |records| ensures KeyAt(records + [r], j) == KeyAt(records, j) { KeyAtPrefix(records, r, j); }
  }

  lemma KeysOfPrefix(records: seq<Record>, r: Record)
    ensures forall i | 0 <= i < |records| :: KeyAt(records + [r], i) == KeyAt(records, i)
  {
    forall i | 0 <= i < |records| ensures KeyAt(records + [r], i) == KeyAt(records, i) { KeyAtPrefix(records, r, i); }
  }

  lemma FirstsOfPrefix(records: seq<Record>, r: Record, i: nat)
    requires i < |records| && FirstOfTurn(records, i)
    ensures FirstOfTurn(records + [r], i)
  {
    KeysOfPrefix(records, r);
  }

  lemma KnownTurnKeepsOrder(records: seq<Record>, r: Record, order: seq<string>, firsts: seq<nat>)
    requires Orders(records, order, firsts) && KeyAt(records + [r], |records|) in order
    ensures Orders(records + [r], order, firsts)
  {
    KeysOfPrefix(records, r);
    forall a | 0 <= a < |order| ensures FirstOfTurn(records + [r], firsts[a]) { FirstsOfPrefix(records, r, firsts[a]); }
  }

  lemma NewTurnComesLast(records: seq<Record>, r: Record, order: seq<string>, firsts: seq<nat>)
    requires Orders(records, order, firsts) && FirstOfTurn(records + [r], |records|)
    ensures Orders(records + [r], order + [KeyAt(records + [r], |records|)], firsts + [|records|])
  {
    KeysOfPrefix(records, r);
    var longer, all := order + [KeyAt(records + [r], |records|)], firsts + [|records|];
    forall a | 0 <= a < |longer|
      ensures FirstOfTurn(records + [r], all[a]) && KeyAt(records + [r], all[a]) == longer[a]
    {
      if a < |order| { FirstsOfPrefix(records, r, firsts[a]); }
    }
    assert longer[|order|] == KeyAt(records + [r], |records|);
    forall k | k in order ensures k in longer {}
    forall i | 0 <= i < |records| + 1 ensures KeyAt(records + [r], i) in longer {
      if i < |records| { assert KeyAt(records, i) in order; }
    }
  }

  lemma {:induction false} ChosenAreOrdered(records: seq<Record>, key: string)
    ensures key in Settle(records).chosen <==> key in Settle(records).order
    decreases |records|
  {
    if records != [] { ChosenAreOrdered(records[..|records| - 1], key); }
  }

  /** Every turn is selected once, in the order of first appearance. */
  lemma {:induction false} OrderIsFirstAppearance(records: seq<Record>) returns (firsts: seq<nat>)
    ensures Orders(records, Settle(records).order, firsts)
    decreases |records|
  {
    if records == [] {
      firsts := [];
    } else {
      var n := |records| - 1;
      var prior, r := records[..n], records[n];
      assert records == prior + [r];
      LastKey(prior, r);
      firsts := OrderIsFirstAppearance(prior);
      var key := KeyAt(records, n);
      ChosenAreOrdered(prior, key);
      if key in Settle(prior).chosen {
        KnownTurnKeepsOrder(prior, r, Settle(prior).order, firsts);
      } else {
        NobodyYet(prior, key);
        KeysOfPrefix(prior, r);
        NewTurnComesLast(prior, r, Settle(prior).order, firsts);
        firsts := firsts + [n];
      }
    }
  }

  // -- Anonymous records ----------------------------------------------------------------------

  predicate IsAnonymous(r: Record) { r.turnId == "" }

  /** No two anonymous records are filed together unless a turn really named that id came first. */
  lemma {:induction false} AnonymousKeysGrow(records: seq<Record>, key: string)
    requires key in Settle(records).chosen
    ensures (exists j | 0 <= j < |records| :: records[j].turnId == key && key != "")
         || (exists m | 0 <= m < |Settle(records).order| :: key == Anonymous(m))
    decreases |records|
  {
    var n := |records| - 1;
    var prior, r := records[..n], records[n];
    assert records == prior + [r];
    LastKey(prior, r);
    if key in Settle(prior).chosen {
      AnonymousKeysGrow(prior, key);
      if j :| 0 <= j < |prior| && prior[j].turnId == key && key != "" { assert records[j].turnId == key; }
    } else if r.turnId != "" {
      assert records[n].turnId == key;
    }
  }

  lemma {:induction false} OrderGrows(records: seq<Record>, i: nat)
    requires i <= |records|
    ensures |Settle(records[..i]).order| <= |Settle(records).order|
    decreases |records|
  {
    if i < |records| {
      assert records[..|records| - 1][..i] == records[..i];
      OrderGrows(records[..|records| - 1], i);
    } else {
      assert records[..i] == records;
    }
  }

  /** A later anonymous record cannot meet an earlier one's key unless that id is also a real one. */
  lemma AnonymousRecordsApart(records: seq<Record>, i: nat, j: nat)
    requires i < j < |records| && IsAnonymous(records[i]) && IsAnonymous(records[j])
    requires KeyAt(records, i) == KeyAt(records, j)
    ensures exists k | 0 <= k < i :: records[k].turnId == KeyAt(records, i)
  {
    var prior := records[..i];
    var m := |Settle(prior).order|;
    AnonymousIdsDiffer(m, |Settle(records[..j]).order|);
    assert records[..i + 1] == prior + [records[i]];
    LastKey(prior, records[i]);
    assert records[..j][..i + 1] == records[..i + 1];
    OrderGrows(records[..j], i + 1);
    assert Anonymous(m) in Settle(prior).chosen;
    AnonymousKeysGrow(prior, Anonymous(m));
    forall n: nat | n < m ensures Anonymous(n) != Anonymous(m) { AnonymousIdsDiffer(n, m); }
    var k :| 0 <= k < |prior| && prior[k].turnId == Anonymous(m);
    assert records[k].turnId == KeyAt(records, i);
  }

  /** An anonymous record keeps a turn of its own exactly when no record really names the id made
      up for it. */
  lemma AnonymousStandsAloneIff(records: seq<Record>, i: nat)
    requires i < |records| && IsAnonymous(records[i])
    ensures (forall j | 0 <= j < |records| && j != i :: KeyAt(records, j) != KeyAt(records, i))
       <==> (forall j | 0 <= j < |records| :: records[j].turnId != KeyAt(records, i))
  {
    AnonymousIdsDiffer(|Settle(records[..i]).order|, 0);
    if forall j | 0 <= j < |records| :: records[j].turnId != KeyAt(records, i) {
      forall j | 0 <= j < |records| && j != i ensures KeyAt(records, j) != KeyAt(records, i) {
        if KeyAt(records, j) == KeyAt(records, i) {
          if i < j { AnonymousRecordsApart(records, i, j); } else { AnonymousRecordsApart(records, j, i); }
        }
      }
    } else {
      var j :| 0 <= j < |records| && records[j].turnId == KeyAt(records, i);
      assert KeyAt(records, j) == KeyAt(records, i) && j != i;
    }
  }

  /** A row that names no turn is dropped when an earlier turn is really called what it would be. */
  lemma RealIdSwallowsAnonymous(body: string, other: string)
    ensures var records := [Record("_anonymous_1", true, 0, body), Record("", false, 0, other)];
            Output(Settle(records)) == [records[0]]
  {
    var a, b := Record("_anonymous_1", true, 0, body), Record("", false, 0, other);
    assert [a][..0] == [] && [a, b][..1] == [a];
    LastKey([], a);
    LastKey([a], b);
    assert [] + [a] == [a] && [a] + [b] == [a, b];
    var one := Settle([a]);
    assert one.order == ["_anonymous_1"] && one.chosen == map["_anonymous_1" := a];
    assert Decimal(1) == "1";
    assert KeyFor(b, 1) == "_anonymous_1";
    assert Settle([a, b]) == one;
    assert Output(one) == [a];
  }

  // -- Idempotence ------------------------------------------------------------------------------

  /** Real ids that differ, none of them in the anonymous form. */
  ghost predicate Distinct(records: seq<Record>) {
    forall i | 0 <= i < |records| && records[i].turnId != "" ::
      !AnonymousForm(records[i].turnId) && forall j | 0 <= j < i :: records[j].turnId != records[i].turnId
  }

  lemma DistinctKeys(records: seq<Record>, i: nat, j: nat)
    requires Distinct(records) && j < i < |records|
    ensures KeyFor(records[j], j) != KeyFor(records[i], i)
  {
    AnonymousIdsDiffer(i, j);
    AnonymousIdsDiffer(j, i);
  }

  /** Records of different turns are all kept, as they are. */
  lemma {:induction false} DistinctRecordsStay(records: seq<Record>)
    requires Distinct(records)
    ensures var s := Settle(records);
            && |s.order| == |records|
            && forall i | 0 <= i < |records| ::
                 s.order[i] == KeyFor(records[i], i) && s.chosen[s.order[i]] == records[i]
    decreases |records|
  {
    if records != [] {
      var n := |records| - 1;
      var prior, r := records[..n], records[n];
      assert records == prior + [r];
      DistinctRecordsStay(prior);
      LastKey(prior, r);
      var s := Settle(prior);
      forall i | 0 <= i < n ensures s.order[i] != KeyFor(r, n) { DistinctKeys(records, n, i); }
      ChosenAreOrdered(prior, KeyFor(r, n));
      assert Settle(records) == Selection(s.chosen[KeyFor(r, n) := r], s.order + [KeyFor(r, n)]);
    }
  }

  /** When no row really has an id of the anonymous form, selecting again changes nothing. */
  lemma SettlingTwiceIsSettlingOnce(records: seq<Record>)
    requires forall r | r in records :: !AnonymousForm(r.turnId)
    ensures Output(Settle(Output(Settle(records)))) == Output(Settle(records))
  {
    var s := Settle(records);
    var out := Output(s);
    var firsts := OrderIsFirstAppearance(records);
    forall a | 0 <= a < |out| ensures out[a] in records && (out[a].turnId != "" ==> out[a].turnId == s.order[a]) {
      ChosenIsEarliestBest(records, s.order[a]);
    }
    forall i, j | 0 <= j < i < |out| && out[i].turnId != "" ensures out[j].turnId != out[i].turnId {
      assert KeyAt(records, firsts[j]) == s.order[j] && KeyAt(records, firsts[i]) == s.order[i];
      assert FirstOfTurn(records, firsts[i]);
    }
    DistinctRecordsStay(out);
    assert Output(Settle(out)) == out;
  }
}
