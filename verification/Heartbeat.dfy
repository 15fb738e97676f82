// Heartbeats as a last-writer-wins register (internal/heartbeat/heartbeat.go).
//
// ApplyHeartbeat takes three steps under two different locks: claim the time in
// `applied`, read the gate's status, write it. Heartbeats may arrive in any
// order and their steps interleave freely.
module Heartbeat {
  import opened Maps
  import G = Gates

  datatype Beat = Beat(gate: string, online: bool, number: int, at: int)

  datatype Phase = Arriving | Claimed | Read | Settled

  datatype Net = Net(store: G.Store, applied: map<string, int>, phases: seq<Phase>)

  datatype Label =
    | Deliver(i: nat)      // the next step of heartbeat i
    | Traffic(w: G.Write)  // any other store write

  function Step(n: Net, beats: seq<Beat>, l: Label): Net {
    match l
    case Traffic(w) => n.(store := G.Apply(n.store, w))
    case Deliver(i) =>
      if i >= |n.phases| || i >= |beats| then n else
      var b := beats[i];
      match n.phases[i]
      case Arriving =>
        if b.gate in n.applied && b.at < n.applied[b.gate]
        then n.(store := G.Apply(n.store, G.Read(b.gate)), phases := n.phases[i := Settled])
        else n.(applied := n.applied[b.gate := b.at], phases := n.phases[i := Claimed])
      case Claimed =>
        var stale := b.at < n.store.Get(b.gate).updatedAt;
        n.(store := G.Apply(n.store, G.Read(b.gate)), phases := n.phases[i := if stale then Settled else Read])
      case Read =>
        n.(store := G.Apply(n.store, G.Heartbeat(b.gate, b.online, b.number, b.at)),
           phases := n.phases[i := Settled])
      case Settled => n
  }

  function Run(n: Net, beats: seq<Beat>, labels: seq<Label>): Net {
    if labels == [] then n
    else Step(Run(n, beats, labels[..|labels| - 1]), beats, labels[|labels| - 1])
  }

  // ---------- Convergence ----------

  // No heartbeat of its gate is later than beats[m], which carries no record
  // number to be checked against. Others may have the same time.
  predicate Top(beats: seq<Beat>, m: nat) {
    && m < |beats| && beats[m].number <= 0
    && (forall j :: 0 <= j < |beats| && beats[j].gate == beats[m].gate ==> beats[j].at <= beats[m].at)
  }

  // A heartbeat that cannot undo the top one: it is earlier, or says the same, or
  // carries a number that the store had already given out before.
  predicate Harmless(b: Beat, top: Beat, lastSeq: int) {
    b.gate == top.gate ==> b.at < top.at || b.online == top.online || 0 < b.number <= lastSeq
  }

  predicate AllHarmless(beats: seq<Beat>, m: nat, lastSeq: int)
    requires m < |beats|
  {
    forall j :: 0 <= j < |beats| ==> Harmless(beats[j], beats[m], lastSeq)
  }

  // A fresh delivery of the heartbeats: nothing claimed, no other writer of the gate.
  predicate Fresh(n: Net, beats: seq<Beat>, gate: string) {
    |n.phases| == |beats| && (forall p :: p in n.phases ==> p == Arriving) && gate !in n.applied
  }

  predicate Undisturbed(labels: seq<Label>, gate: string) {
    forall l :: l in labels && l.Traffic? && l.w.id == gate ==> l.w.Read?
  }

  // What is known of the gate while heartbeat m is under way. `start` is the
  // store before any heartbeat.
  ghost predicate Converging(n: Net, beats: seq<Beat>, m: nat, start: G.Store)
    requires m < |beats|
  {
    var b := beats[m];
    var first, now := start.Get(b.gate), n.store.Get(b.gate);
    && |n.phases| == |beats|
    && n.store.lastSeq >= start.lastSeq
    && (n.phases[m] == Arriving ==> b.gate !in n.applied || n.applied[b.gate] <= b.at)
    && (n.phases[m] != Arriving ==> b.gate in n.applied && n.applied[b.gate] == b.at)
    && (if first.updatedAt <= b.at then
          && now.updatedAt <= b.at
          && (n.phases[m] == Settled ==>
                && now.updatedAt == b.at && now.recordSeq > start.lastSeq
                && (AllHarmless(beats, m, start.lastSeq) ==> now.online == b.online))
        else
          && now == first
          && (forall j :: 0 <= j < |beats| && beats[j].gate == b.gate ==> n.phases[j] != Read))
  }

  // A step of a heartbeat of some gate leaves the other gates alone.
  lemma DeliveryFrame(n: Net, beats: seq<Beat>, l: Label, gate: string)
    requires l.Deliver? && l.i < |n.phases| == |beats|
    ensures var q := Step(n, beats, l);
            && |q.phases| == |n.phases|
            && (forall j :: 0 <= j < |beats| && j != l.i ==> q.phases[j] == n.phases[j])
            && (beats[l.i].gate != gate ==>
                  && q.store.Get(gate) == n.store.Get(gate)
                  && (gate in q.applied <==> gate in n.applied)
                  && (gate in n.applied ==> q.applied[gate] == n.applied[gate]))
  {
    var b := beats[l.i];
    G.WriteFrame(n.store, G.Heartbeat(b.gate, b.online, b.number, b.at), gate);
    G.WriteFrame(n.store, G.Read(b.gate), gate);
  }

  lemma BeatWrites(s: G.Store, b: Beat)
    ensures var q := G.Apply(s, G.Heartbeat(b.gate, b.online, b.number, b.at));
            var before, after := s.Get(b.gate), q.Get(b.gate);
            && q.lastSeq >= s.lastSeq
            && (b.at < before.updatedAt || 0 < b.number < before.recordSeq ==> after == before)
            && (b.at >= before.updatedAt && b.number <= 0 ==> after.updatedAt == b.at)
            && (after == before || (after.updatedAt == b.at && after.online == b.online && after.recordSeq > s.lastSeq))
            && (b.at >= before.updatedAt && b.number <= 0 ==> after.online == b.online && after.recordSeq > s.lastSeq)
    ensures G.Apply(s, G.Read(b.gate)).Get(b.gate) == s.Get(b.gate)
    ensures G.Apply(s, G.Read(b.gate)).lastSeq == s.lastSeq
  {
  }

  lemma SequenceGrows(s: G.Store, w: G.Write)
    ensures G.Apply(s, w).lastSeq >= s.lastSeq
  {
  }

  lemma TrafficConverges(n: Net, beats: seq<Beat>, l: Label, m: nat, start: G.Store)
    requires m < |beats| && Converging(n, beats, m, start)
    requires l.Traffic? && (l.w.id == beats[m].gate ==> l.w.Read?)
    ensures Converging(Step(n, beats, l), beats, m, start)
  {
    G.WriteFrame(n.store, l.w, beats[m].gate);
    SequenceGrows(n.store, l.w);
  }

  // A step of a heartbeat of another gate.
  lemma ForeignConverges(n: Net, beats: seq<Beat>, l: Label, m: nat, start: G.Store)
    requires m < |beats| && Converging(n, beats, m, start)
    requires l.Deliver? && l.i < |beats| && beats[l.i].gate != beats[m].gate
    ensures Converging(Step(n, beats, l), beats, m, start)
  {
    DeliveryFrame(n, beats, l, beats[m].gate);
    BeatWrites(n.store, beats[l.i]);
  }

  lemma DeliveryConverges(n: Net, beats: seq<Beat>, l: Label, m: nat, start: G.Store)
    requires Top(beats, m) && Converging(n, beats, m, start)
    requires l.Deliver? && l.i < |beats| && beats[l.i].gate == beats[m].gate
    ensures Converging(Step(n, beats, l), beats, m, start)
  {
    DeliveryFrame(n, beats, l, beats[m].gate);
    BeatWrites(n.store, beats[l.i]);
    assert AllHarmless(beats, m, start.lastSeq) ==> Harmless(beats[l.i], beats[m], start.lastSeq);
  }

  lemma StepConverges(n: Net, beats: seq<Beat>, l: Label, m: nat, start: G.Store)
    requires Top(beats, m) && Converging(n, beats, m, start)
    requires l.Traffic? && l.w.id == beats[m].gate ==> l.w.Read?
    ensures Converging(Step(n, beats, l), beats, m, start)
  {
    if l.Traffic? {
      TrafficConverges(n, beats, l, m, start);
    } else if l.i < |beats| {
      if beats[l.i].gate == beats[m].gate {
        DeliveryConverges(n, beats, l, m, start);
      } else {
        ForeignConverges(n, beats, l, m, start);
      }
    }
  }

  lemma {:induction false} RunConverges(n: Net, beats: seq<Beat>, labels: seq<Label>, m: nat)
    requires Top(beats, m) && Fresh(n, beats, beats[m].gate) && Undisturbed(labels, beats[m].gate)
    ensures Converging(Run(n, beats, labels), beats, m, n.store)
  {
    if labels == [] {
      assert n.phases[m] in n.phases;
      forall j | 0 <= j < |beats| ensures n.phases[j] != Read {
        assert n.phases[j] in n.phases;
      }
    } else {
      var front, last := labels[..|labels| - 1], labels[|labels| - 1];
      RunConverges(n, beats, front, m);
      assert last in labels;
      StepConverges(Run(n, beats, front), beats, last, m, n.store);
    }
  }

  // In every arrival order and every interleaving, once a latest heartbeat has
  // been handled the gate holds its time for good, and its flag too when no
  // heartbeat of the same time can undo it; unless the gate's status was newer
  // than all of them, and then none of them changed it.
  lemma HeartbeatsConverge(n: Net, beats: seq<Beat>, labels: seq<Label>, m: nat)
    requires Top(beats, m) && Fresh(n, beats, beats[m].gate) && Undisturbed(labels, beats[m].gate)
    requires m < |Run(n, beats, labels).phases| && Run(n, beats, labels).phases[m] == Settled
    ensures var gate, b, e := beats[m].gate, beats[m], Run(n, beats, labels);
            && gate in e.applied && e.applied[gate] == b.at
            && (if n.store.Get(gate).updatedAt <= b.at
                then && e.store.Get(gate).updatedAt == b.at
                     && (AllHarmless(beats, m, n.store.lastSeq) ==> e.store.Get(gate).online == b.online)
                else e.store.Get(gate) == n.store.Get(gate))
  {
    RunConverges(n, beats, labels, m);
  }

  // ---------- One heartbeat at a time ----------

  // All three steps of a heartbeat with nothing in between.
  function Handled(s: G.Store, applied: map<string, int>, b: Beat): (G.Store, map<string, int>) {
    if b.gate in applied && b.at < applied[b.gate] then (G.Apply(s, G.Read(b.gate)), applied)
    else if b.at < s.Get(b.gate).updatedAt then (G.Apply(s, G.Read(b.gate)), applied[b.gate := b.at])
    else (G.Apply(s, G.Heartbeat(b.gate, b.online, b.number, b.at)), applied[b.gate := b.at])
  }

  lemma HeartbeatAfterRead(s: G.Store, b: Beat)
    ensures G.Apply(G.Apply(s, G.Read(b.gate)), G.Heartbeat(b.gate, b.online, b.number, b.at))
            == G.Apply(s, G.Heartbeat(b.gate, b.online, b.number, b.at))
    ensures G.Apply(G.Apply(s, G.Read(b.gate)), G.Read(b.gate)) == G.Apply(s, G.Read(b.gate))
  {
    var r := G.Apply(s, G.Read(b.gate));
    assert r.Get(b.gate) == s.Get(b.gate);
    var item := G.Apply(s, G.Heartbeat(b.gate, b.online, b.number, b.at)).Get(b.gate);
    assert r.statuses[b.gate := item] == s.statuses[b.gate := item];
    assert r.statuses[b.gate := s.Get(b.gate)] == s.statuses[b.gate := s.Get(b.gate)];
  }

  function Thrice(i: nat): seq<Label> {
    [Deliver(i), Deliver(i), Deliver(i)]
  }

  lemma HandledIsARun(n: Net, beats: seq<Beat>, i: nat)
    requires i < |beats| == |n.phases| && n.phases[i] == Arriving
    ensures var e := Run(n, beats, Thrice(i));
            (e.store, e.applied) == Handled(n.store, n.applied, beats[i])
            && e.phases == n.phases[i := Settled]
  {
    var n1 := Step(n, beats, Deliver(i));
    var n2 := Step(n1, beats, Deliver(i));
    assert Thrice(i)[..2] == [Deliver(i), Deliver(i)] && Thrice(i)[..2][..1] == [Deliver(i)];
    assert Run(n, beats, []) == n;
    assert [Deliver(i)][..0] == [];
    assert Run(n, beats, [Deliver(i)]) == n1;
    assert Run(n, beats, Thrice(i)[..2]) == n2;
    HeartbeatAfterRead(n.store, beats[i]);
  }

  // ---------- When the order of arrival shows ----------

  lemma {:induction false} RunConcat(n: Net, beats: seq<Beat>, a: seq<Label>, b: seq<Label>)
    ensures Run(n, beats, a + b) == Run(Run(n, beats, a), beats, b)
  {
    if b == [] {
      assert a + b == a;
    } else {
      RunConcat(n, beats, a, b[..|b| - 1]);
      assert (a + b)[..|a + b| - 1] == a + b[..|b| - 1];
    }
  }

  // Several stretches of a run, one after the other.
  function Flat(turns: seq<seq<Label>>): seq<Label> {
    if turns == [] then [] else Flat(turns[..|turns| - 1]) + turns[|turns| - 1]
  }

  function RunTurns(n: Net, beats: seq<Beat>, turns: seq<seq<Label>>): Net {
    if turns == [] then n else Run(RunTurns(n, beats, turns[..|turns| - 1]), beats, turns[|turns| - 1])
  }

  lemma {:induction false} FlatIsTurns(n: Net, beats: seq<Beat>, turns: seq<seq<Label>>)
    ensures Run(n, beats, Flat(turns)) == RunTurns(n, beats, turns)
  {
    if turns != [] {
      FlatIsTurns(n, beats, turns[..|turns| - 1]);
      RunConcat(n, beats, Flat(turns[..|turns| - 1]), turns[|turns| - 1]);
    }
  }

  // The first k heartbeats but j, each handled in one go.
  function Others(k: nat, j: nat): seq<seq<Label>> {
    seq(k, i requires 0 <= i => Turn(i, j))
  }

  function Turn(i: nat, j: nat): seq<Label> {
    if i == j then [] else Thrice(i)
  }

  predicate Capped(s: G.Store, applied: map<string, int>, gate: string, top: int) {
    s.Get(gate).updatedAt <= top && (gate in applied ==> applied[gate] <= top)
  }

  lemma HandledStaysCapped(s: G.Store, applied: map<string, int>, b: Beat, gate: string, top: int)
    requires Capped(s, applied, gate, top) && (b.gate == gate ==> b.at <= top)
    ensures var (s', applied') := Handled(s, applied, b); Capped(s', applied', gate, top)
  {
    G.WriteFrame(s, G.Heartbeat(b.gate, b.online, b.number, b.at), gate);
    G.WriteFrame(s, G.Read(b.gate), gate);
    BeatWrites(s, b);
  }

  lemma OneMoreHandled(n: Net, beats: seq<Beat>, i: nat, gate: string, top: int)
    requires i < |beats| == |n.phases| && n.phases[i] == Arriving
    requires Capped(n.store, n.applied, gate, top) && (beats[i].gate == gate ==> beats[i].at <= top)
    ensures var q := Run(n, beats, Thrice(i));
            q.phases == n.phases[i := Settled] && Capped(q.store, q.applied, gate, top)
  {
    HandledIsARun(n, beats, i);
    HandledStaysCapped(n.store, n.applied, beats[i], gate, top);
  }

  predicate SettledBelow(phases: seq<Phase>, k: nat, j: nat) {
    forall i :: 0 <= i < |phases| ==> phases[i] == if i < k && i != j then Settled else Arriving
  }

  // The first k but j are settled, the others untouched, and nothing of the gate
  // is later than the cap.
  predicate HandledBelow(n: Net, k: nat, j: nat, gate: string, top: int) {
    SettledBelow(n.phases, k, j) && Capped(n.store, n.applied, gate, top)
  }

  lemma OneMoreBelow(n: Net, beats: seq<Beat>, k: nat, j: nat, gate: string, top: int)
    requires k < |beats| == |n.phases| && HandledBelow(n, k, j, gate, top)
    requires beats[k].gate == gate ==> beats[k].at <= top
    ensures var q := Run(n, beats, Turn(k, j));
            |q.phases| == |beats| && HandledBelow(q, k + 1, j, gate, top)
  {
    if k != j {
      OneMoreHandled(n, beats, k, gate, top);
    }
  }

  lemma {:induction false} TurnsHandled(n: Net, beats: seq<Beat>, turns: seq<seq<Label>>, j: nat, gate: string, top: int)
    requires |turns| <= |beats| == |n.phases| && HandledBelow(n, 0, j, gate, top)
    requires forall i :: 0 <= i < |turns| ==> turns[i] == Turn(i, j)
    requires forall i :: 0 <= i < |beats| && beats[i].gate == gate ==> beats[i].at <= top
    ensures var e := RunTurns(n, beats, turns);
            |e.phases| == |beats| && HandledBelow(e, |turns|, j, gate, top)
  {
    if turns != [] {
      var k := |turns| - 1;
      TurnsHandled(n, beats, turns[..k], j, gate, top);
      OneMoreBelow(RunTurns(n, beats, turns[..k]), beats, k, j, gate, top);
    }
  }

  predicate AllSettled(n: Net) {
    forall p :: p in n.phases ==> p == Settled
  }

  lemma {:induction false} TurnsAreDeliveries(turns: seq<seq<Label>>, j: nat, gate: string)
    requires forall i :: 0 <= i < |turns| ==> turns[i] == Turn(i, j)
    ensures Undisturbed(Flat(turns), gate)
  {
    if turns != [] {
      TurnsAreDeliveries(turns[..|turns| - 1], j, gate);
    }
  }

  // Any of the latest heartbeats can have the last word: handle it after all the
  // others.
  lemma LastOfTheTopWins(n: Net, beats: seq<Beat>, j: nat)
    requires Top(beats, j) && Fresh(n, beats, beats[j].gate)
    requires n.store.Get(beats[j].gate).updatedAt <= beats[j].at
    ensures var labels := Flat(Others(|beats|, j)) + Thrice(j);
            var e := Run(n, beats, labels);
            && Undisturbed(labels, beats[j].gate) && AllSettled(e)
            && e.store.Get(beats[j].gate).online == beats[j].online
  {
    forall i | 0 <= i < |beats| ensures n.phases[i] == Arriving {
      assert n.phases[i] in n.phases;
    }
    TurnsHandled(n, beats, Others(|beats|, j), j, beats[j].gate, beats[j].at);
    FlatIsTurns(n, beats, Others(|beats|, j));
    TurnsAreDeliveries(Others(|beats|, j), j, beats[j].gate);
    RunConcat(n, beats, Flat(Others(|beats|, j)), Thrice(j));
    LastIsWritten(RunTurns(n, beats, Others(|beats|, j)), beats, j);
  }

  lemma LastIsWritten(n: Net, beats: seq<Beat>, j: nat)
    requires |n.phases| == |beats| && Top(beats, j)
    requires HandledBelow(n, |beats|, j, beats[j].gate, beats[j].at)
    ensures var e := Run(n, beats, Thrice(j));
            AllSettled(e) && e.store.Get(beats[j].gate).online == beats[j].online
  {
    HandledIsARun(n, beats, j);
    BeatWrites(n.store, beats[j]);
  }

  ghost predicate EndsAsTop(n: Net, beats: seq<Beat>, labels: seq<Label>, m: nat)
    requires m < |beats|
  {
    var e := Run(n, beats, labels);
    Undisturbed(labels, beats[m].gate) && AllSettled(e) ==>
      e.store.Get(beats[m].gate).online == beats[m].online
  }

  // All complete deliveries end with one flag if and only if no heartbeat of the
  // latest time can undo another. Heartbeats of that time may carry numbers, as
  // long as the store has given them out already.
  lemma OrderIsForgottenIff(n: Net, beats: seq<Beat>, m: nat)
    requires Top(beats, m) && Fresh(n, beats, beats[m].gate)
    requires n.store.Get(beats[m].gate).updatedAt <= beats[m].at
    requires forall j :: 0 <= j < |beats| && beats[j].gate == beats[m].gate && beats[j].at == beats[m].at ==>
      beats[j].number <= n.store.lastSeq
    ensures (forall labels :: EndsAsTop(n, beats, labels, m)) <==> AllHarmless(beats, m, n.store.lastSeq)
  {
    if AllHarmless(beats, m, n.store.lastSeq) {
      forall labels ensures EndsAsTop(n, beats, labels, m) {
        var e := Run(n, beats, labels);
        if Undisturbed(labels, beats[m].gate) && AllSettled(e) {
          RunConverges(n, beats, labels, m);
          assert e.phases[m] in e.phases;
        }
      }
    } else {
      var j :| 0 <= j < |beats| && !Harmless(beats[j], beats[m], n.store.lastSeq);
      LastOfTheTopWins(n, beats, j);
      assert !EndsAsTop(n, beats, Flat(Others(|beats|, j)) + Thrice(j), m);
    }
  }

  // ---------- Heartbeats that answer with the last record number ----------

  // One thing after the other: a heartbeat handled in one go, or a store write.
  datatype Event = Beats(b: Beat) | Writes(w: G.Write)

  function Handle(s: G.Store, applied: map<string, int>, events: seq<Event>): (G.Store, map<string, int>)
  {
    if events == [] then (s, applied) else
    var (s', applied') := Handle(s, applied, events[..|events| - 1]);
    match events[|events| - 1]
    case Beats(b) => Handled(s', applied', b)
    case Writes(w) => (G.Apply(s', w), applied')
  }

  predicate Elsewhere(e: Event, gate: string) {
    match e
    case Beats(b) => b.gate != gate
    case Writes(w) => w.id != gate || w.Read?
  }

  lemma {:induction false} ElsewhereKeeps(s: G.Store, applied: map<string, int>, events: seq<Event>, gate: string)
    requires forall e :: e in events ==> Elsewhere(e, gate)
    ensures var (s', applied') := Handle(s, applied, events);
            && s'.Get(gate) == s.Get(gate)
            && (gate in applied' <==> gate in applied) && (gate in applied ==> applied'[gate] == applied[gate])
  {
    if events != [] {
      var front, last := events[..|events| - 1], events[|events| - 1];
      ElsewhereKeeps(s, applied, front, gate);
      var (s', applied') := Handle(s, applied, front);
      assert last in events;
      match last {
        case Writes(w) => G.WriteFrame(s', w, gate);
        case Beats(b) =>
          G.WriteFrame(s', G.Heartbeat(b.gate, b.online, b.number, b.at), gate);
          G.WriteFrame(s', G.Read(b.gate), gate);
      }
    }
  }

  // What one heartbeat does, in the gate's own fields.
  lemma HandledEffect(s: G.Store, applied: map<string, int>, b: Beat)
    ensures var (s', applied') := Handled(s, applied, b);
            var item := s.Get(b.gate);
            var late := b.gate in applied && b.at < applied[b.gate];
            && applied' == (if late then applied else applied[b.gate := b.at])
            && (if late || b.at < item.updatedAt || 0 < b.number < item.recordSeq then G.Left(s, s', b.gate)
                else G.Took(s, s', b.gate, b.at, item.state, b.online,
                            if b.online then 0 else if item.offlineSince == 0 then b.at else item.offlineSince,
                            item.faults))
  {
    G.HeartbeatEffect(s, b.gate, b.online, b.number, b.at);
    G.FaultAndReadEffect(s, b.gate, 0);
  }

  // A device that is answered with the gate's record number and sends it with its
  // next heartbeat is listened to, as long as nobody else wrote the gate in
  // between and its clock does not step back; one that sends less is not.
  lemma EchoIsTaken(s: G.Store, applied: map<string, int>, first: Beat, between: seq<Event>, next: Beat)
    requires forall e :: e in between ==> Elsewhere(e, first.gate)
    requires next.gate == first.gate
    requires Handled(s, applied, first).0.Get(first.gate) != s.Get(first.gate)
    ensures var (s1, applied1) := Handled(s, applied, first);
            var answered := s1.Get(first.gate).recordSeq;
            var (s2, applied2) := Handle(s1, applied1, between);
            var after := Handled(s2, applied2, next).0.Get(first.gate);
            && answered == s.lastSeq + 1
            && (next.number == answered && next.at >= first.at ==>
                  after.online == next.online && after.updatedAt == next.at && after.recordSeq == s2.lastSeq + 1)
            && (0 < next.number < answered || next.at < first.at ==> after == s1.Get(first.gate))
  {
    HandledEffect(s, applied, first);
    var (s1, applied1) := Handled(s, applied, first);
    ElsewhereKeeps(s1, applied1, between, first.gate);
    var (s2, applied2) := Handle(s1, applied1, between);
    HandledEffect(s2, applied2, next);
  }

  datatype Severity = Warning | Critical

  class Monitor {
    const store: G.GateStore
    const timeout: int
    var lastSeen: map<string, int>
    var applied: map<string, int>
    var timeouts: map<string, int>

    constructor (store: G.GateStore, timeout: int)
      ensures this.store == store && this.timeout == timeout
      ensures lastSeen == map[] && applied == map[] && timeouts == map[]
    {
      this.store, this.timeout := store, timeout;
      lastSeen, applied, timeouts := map[], map[], map[];
    }

    method Ingest(gate: string, at: int)
      modifies this`lastSeen
      ensures lastSeen == old(lastSeen)[gate := at]
    {
      lastSeen := lastSeen[gate := at];
    }

    // A gate times out when it was seen and that was too long ago; the second
    // time-out of a gate and every later one is critical.
    method Check(gate: string, now: int) returns (raised: Option<Severity>)
      modifies this`timeouts, store
      ensures var last := if gate in lastSeen then lastSeen[gate] else now;
              if now - last > timeout then
                && timeouts == Plus(old(timeouts), gate, 1)
                && store.Value() == G.Apply(old(store.Value()), G.Offline(gate, now))
                && !store.Value().Get(gate).online
                && raised == Some(if old(At(timeouts, gate)) >= 1 then Critical else Warning)
              else
                timeouts == old(timeouts) && store.Value() == old(store.Value()) && raised == None
      ensures timeout >= 0 && gate !in lastSeen ==> raised == None
    {
      var last := now;
      if gate in lastSeen {
        last := lastSeen[gate];
      }
      if now - last > timeout {
        timeouts := Plus(timeouts, gate, 1);
        var timeoutCount := timeouts[gate];
        store.ApplyOffline(gate, now);
        return Some(if timeoutCount >= 2 then Critical else Warning);
      }
      return None;
    }

    method ApplyHeartbeat(b: Beat) returns (status: G.GateStatus)
      modifies this`applied, store
      ensures (store.Value(), applied) == Handled(old(store.Value()), old(applied), b)
      ensures status == store.Value().Get(b.gate)
      ensures var item := old(store.Value()).Get(b.gate);
              if (b.gate in old(applied) && b.at < old(applied)[b.gate]) || b.at < item.updatedAt
                 || 0 < b.number < item.recordSeq
              then status == item && store.lastSeq == old(store.lastSeq)
              else && status.online == b.online && status.updatedAt == b.at
                   && status.recordSeq == store.lastSeq == old(store.lastSeq) + 1
    {
      HandledEffect(store.Value(), applied, b);
      if b.gate in applied && b.at < applied[b.gate] {
        status := store.Status(b.gate);
        return;
      }
      applied := applied[b.gate := b.at];
      var current := store.Status(b.gate);
      if b.at < current.updatedAt {
        return current;
      }
      HeartbeatAfterRead(old(store.Value()), b);
      status := store.WriteHeartbeat(b.gate, b.online, b.number, b.at);
    }
  }
}
