// Opening and closing gates as a concurrent protocol (internal/gate/gate.go).
//
// Any number of Open and Close calls may be in flight. Each carries a program
// counter; each method of the gate store and of the passage counter is one
// atomic step. A schedule is any sequence of labels: a label that does not apply
// changes nothing, so a statement about all sequences is one about every
// interleaving, with every outcome of the sensors and any other store traffic.
module Actuation {
  import opened Maps
  import G = Gates
  import P = Passage

  datatype Pc =
    | OpenStart      // about to claim Opening
    | OpenActuate    // claimed; the actuator is commanded
    | OpenWait       // waiting for the sensor
    | OpenRecover    // failed; about to recover the gate
    | OpenFault      // recovered; about to record the fault
    | OpenCommit     // confirmed; about to set Open
    | OpenRecheck    // about to look whether the gate is still open
    | OpenUndo       // it was not; about to recover it
    | OpenCount      // about to count the passage
    | OpenConfirm    // about to stamp the confirmation
    | CloseStart | CloseActuate | CloseWait | CloseRecover | CloseFault | CloseCommit

  datatype Call = Call(gate: string, pc: Pc)

  // `returned` holds the result of every finished call: true for a nil error.
  datatype Plant = Plant(
    store: G.Store,
    counter: P.Counter,
    calls: map<nat, Call>,
    returned: map<nat, bool>)
  {
    function State(gate: string): G.GateState { store.Get(gate).state }
    function Start(id: nat, gate: string, pc: Pc): Plant {
      if id in calls || id in returned then this else this.(calls := calls[id := Call(gate, pc)])
    }
  }

  datatype Label =
    | CallOpen(id: nat, gate: string)
    | CallClose(id: nat, gate: string)
    | Advance(id: nat, ok: bool, at: int)   // ok: what the actuator or the sensor answers
    | Traffic(w: G.Write)                   // polls, heartbeats, faults, reads
    | ResetSession

  // The store write that a call performs at a program counter, if any.
  function WriteAt(pc: Pc, gate: string, at: int): Option<G.Write> {
    match pc
    case OpenStart => Some(G.SetState(gate, G.Opening, at))
    case OpenCommit => Some(G.SetState(gate, G.Open, at))
    case CloseStart => Some(G.SetState(gate, G.Closing, at))
    case CloseCommit => Some(G.SetState(gate, G.Closed, at))
    case OpenRecover => Some(G.Recover(gate, at))
    case OpenUndo => Some(G.Recover(gate, at))
    case CloseRecover => Some(G.Recover(gate, at))
    case OpenFault => Some(G.Fault(gate, at))
    case CloseFault => Some(G.Fault(gate, at))
    case OpenRecheck => Some(G.Read(gate))
    case OpenCount => Some(G.Read(gate))
    case _ => None
  }

  datatype Next = To(pc: Pc) | Done(ok: bool)

  // Where a call goes: `good` is the sensor's answer, whether the SetState was
  // legal, or whether the gate read as open.
  function After(pc: Pc, good: bool): Next {
    match pc
    case OpenStart => if good then To(OpenActuate) else Done(false)
    case OpenActuate => if good then To(OpenWait) else To(OpenRecover)
    case OpenWait => if good then To(OpenCommit) else To(OpenRecover)
    case OpenRecover => To(OpenFault)
    case OpenFault => Done(false)
    case OpenCommit => if good then To(OpenRecheck) else Done(false)
    case OpenRecheck => if good then To(OpenCount) else To(OpenUndo)
    case OpenUndo => Done(false)
    case OpenCount => To(OpenConfirm)
    case OpenConfirm => Done(true)
    case CloseStart => if good then To(CloseActuate) else Done(false)
    case CloseActuate => if good then To(CloseWait) else To(CloseRecover)
    case CloseWait => if good then To(CloseCommit) else To(CloseRecover)
    case CloseRecover => To(CloseFault)
    case CloseFault => Done(false)
    case CloseCommit => Done(good)
  }

  function Good(p: Plant, c: Call, ok: bool, at: int): bool {
    var w := WriteAt(c.pc, c.gate, at);
    if w.None? then ok
    else if w.value.Read? then p.State(c.gate) == G.Open
    else G.Accepted(p.store, w.value)
  }

  function CounterAfter(counter: P.Counter, state: G.GateState, c: Call, at: int): P.Counter {
    match c.pc
    case OpenCount => P.Counted(counter, c.gate, state == G.Open)
    case OpenConfirm => P.Confirmed(counter, c.gate, at)
    case _ => counter
  }

  function AdvanceCall(p: Plant, id: nat, ok: bool, at: int): Plant
    requires id in p.calls
  {
    var c := p.calls[id];
    var w := WriteAt(c.pc, c.gate, at);
    var store := if w.Some? then G.Apply(p.store, w.value) else p.store;
    var counter := CounterAfter(p.counter, p.State(c.gate), c, at);
    match After(c.pc, Good(p, c, ok, at))
    case To(pc) => Plant(store, counter, p.calls[id := Call(c.gate, pc)], p.returned)
    case Done(result) => Plant(store, counter, p.calls - {id}, p.returned[id := result])
  }

  function Step(p: Plant, l: Label): Plant {
    match l
    case CallOpen(id, gate) => p.Start(id, gate, OpenStart)
    case CallClose(id, gate) => p.Start(id, gate, CloseStart)
    case Advance(id, ok, at) => if id in p.calls then AdvanceCall(p, id, ok, at) else p
    case Traffic(w) => if w.SetState? || w.Recover? then p else p.(store := G.Apply(p.store, w))
    case ResetSession => p.(counter := P.SessionReset(p.counter))
  }

  function Run(p: Plant, labels: seq<Label>): Plant {
    if labels == [] then p
    else Step(Run(p, labels[..|labels| - 1]), labels[|labels| - 1])
  }

  // The state of a call's own gate after its step, and where the call goes.
  function StateAfter(pc: Pc, state: G.GateState): G.GateState {
    match pc
    case OpenStart => if state == G.Closed then G.Opening else state
    case OpenCommit => if state == G.Opening then G.Open else state
    case CloseStart => if state == G.Open then G.Closing else state
    case CloseCommit => if state == G.Closing then G.Closed else state
    case OpenRecover => if G.Moving(state) then G.Closed else state
    case OpenUndo => if G.Moving(state) then G.Closed else state
    case CloseRecover => if G.Moving(state) then G.Closed else state
    case _ => state
  }

  function GoodAfter(pc: Pc, state: G.GateState, ok: bool): bool {
    match pc
    case OpenStart => state == G.Closed
    case OpenCommit => state == G.Opening
    case CloseStart => state == G.Open
    case CloseCommit => state == G.Closing
    case OpenRecover => G.Moving(state)
    case OpenUndo => G.Moving(state)
    case CloseRecover => G.Moving(state)
    case OpenFault => true
    case CloseFault => true
    case OpenRecheck => state == G.Open
    case OpenCount => state == G.Open
    case _ => ok
  }

  lemma WriteMoves(s: G.Store, pc: Pc, gate: string, at: int, other: string)
    requires WriteAt(pc, gate, at).Some?
    ensures G.Apply(s, WriteAt(pc, gate, at).value).Get(gate).state == StateAfter(pc, s.Get(gate).state)
    ensures other != gate ==> G.Apply(s, WriteAt(pc, gate, at).value).Get(other) == s.Get(other)
  {
    var w := WriteAt(pc, gate, at).value;
    G.WriteFrame(s, w, other);
  }

  // Seen from one gate, a step is a move of its state and of the acting call.
  lemma AdvanceMoves(p: Plant, l: Label, gate: string)
    requires l.Advance? && l.id in p.calls
    ensures var c, q := p.calls[l.id], Step(p, l);
            var good := GoodAfter(c.pc, p.State(c.gate), l.ok);
            && good == Good(p, c, l.ok, l.at)
            && q.State(gate) == (if gate == c.gate then StateAfter(c.pc, p.State(gate)) else p.State(gate))
            && (match After(c.pc, good)
                case To(pc) => l.id in q.calls && q.calls[l.id] == Call(c.gate, pc)
                case Done(_) => l.id !in q.calls)
  {
    var c := p.calls[l.id];
    if WriteAt(c.pc, c.gate, l.at).Some? {
      WriteMoves(p.store, c.pc, c.gate, l.at, gate);
    }
  }

  lemma RestStays(p: Plant, l: Label, gate: string)
    requires !(l.Advance? && l.id in p.calls)
    ensures Step(p, l).State(gate) == p.State(gate)
    ensures Step(p, l).counter.totals == p.counter.totals
    ensures HasActor(l) ==> forall phase :: phase != Outside ==>
      In(Step(p, l), l.id, gate, phase) == In(p, l.id, gate, phase)
  {
    if l.Traffic? {
      G.WriteFrame(p.store, l.w, gate);
    }
  }

  // ---------- Who is doing what to a gate ----------

  datatype Phase = Outside | Lifting | Lowering | Passing

  // Lifting and Lowering: between the first SetState of the call and the step
  // that resolves it. Passing: the gate was set Open and is not yet counted.
  function PhaseOf(pc: Pc): Phase {
    match pc
    case OpenActuate => Lifting
    case OpenWait => Lifting
    case OpenRecover => Lifting
    case OpenCommit => Lifting
    case OpenRecheck => Passing
    case OpenCount => Passing
    case CloseActuate => Lowering
    case CloseWait => Lowering
    case CloseRecover => Lowering
    case CloseCommit => Lowering
    case _ => Outside
  }

  predicate In(p: Plant, id: nat, gate: string, phase: Phase) {
    id in p.calls && p.calls[id].gate == gate && PhaseOf(p.calls[id].pc) == phase
  }

  function Members(p: Plant, gate: string, phase: Phase): set<nat> {
    set id | id in p.calls && In(p, id, gate, phase)
  }

  predicate HasActor(l: Label) {
    l.CallOpen? || l.CallClose? || l.Advance?
  }

  lemma OthersStay(p: Plant, l: Label, id: nat)
    requires !HasActor(l) || l.id != id
    ensures id in Step(p, l).calls <==> id in p.calls
    ensures id in p.calls ==> Step(p, l).calls[id] == p.calls[id]
  {
  }

  // A step moves at most its own call from one phase to another.
  lemma StepMoves(p: Plant, l: Label, gate: string, phase: Phase)
    ensures HasActor(l) ==>
      |Members(Step(p, l), gate, phase)| + Bit(In(p, l.id, gate, phase))
      == |Members(p, gate, phase)| + Bit(In(Step(p, l), l.id, gate, phase))
    ensures !HasActor(l) ==> Members(Step(p, l), gate, phase) == Members(p, gate, phase)
  {
    var q := Step(p, l);
    forall id: nat | !HasActor(l) || id != l.id
      ensures In(p, id, gate, phase) == In(q, id, gate, phase)
    {
      OthersStay(p, l, id);
    }
    if HasActor(l) {
      MembersDiffer(p, q, l.id, gate, phase);
    } else {
      assert Members(q, gate, phase) == Members(p, gate, phase);
    }
  }

  lemma OneDiffers(a: set<nat>, b: set<nat>, id: nat)
    requires a - {id} == b - {id}
    ensures |a| + Bit(id in b) == |b| + Bit(id in a)
  {
    assert id in a ==> a == (a - {id}) + {id};
    assert id in b ==> b == (b - {id}) + {id};
    assert id !in a ==> a == a - {id};
    assert id !in b ==> b == b - {id};
  }

  lemma MembersDiffer(p: Plant, q: Plant, actor: nat, gate: string, phase: Phase)
    requires forall id: nat :: id != actor ==> In(p, id, gate, phase) == In(q, id, gate, phase)
    ensures |Members(q, gate, phase)| + Bit(In(p, actor, gate, phase))
            == |Members(p, gate, phase)| + Bit(In(q, actor, gate, phase))
  {
    var before, after := Members(p, gate, phase), Members(q, gate, phase);
    forall id ensures id in before - {actor} <==> id in after - {actor} {
      if id != actor {
        assert In(p, id, gate, phase) == In(q, id, gate, phase);
      }
    }
    assert before - {actor} == after - {actor};
    OneDiffers(before, after, actor);
  }

  // ---------- No gate is left moving without a call that moves it ----------

  predicate Attended(p: Plant, gate: string) {
    && (p.State(gate) == G.Opening ==> |Members(p, gate, Lifting)| >= 1)
    && (p.State(gate) == G.Closing ==> |Members(p, gate, Lowering)| >= 1)
  }

  lemma StepKeepsAttended(p: Plant, l: Label, gate: string)
    requires Attended(p, gate)
    ensures Attended(Step(p, l), gate)
  {
    if l.Advance? && l.id in p.calls {
      AdvanceMoves(p, l, gate);
    } else {
      RestStays(p, l, gate);
    }
    StepMoves(p, l, gate, Lifting);
    StepMoves(p, l, gate, Lowering);
  }

  lemma {:induction false} NoStuckGate(p: Plant, labels: seq<Label>, gate: string)
    requires Attended(p, gate)
    ensures Attended(Run(p, labels), gate)
    ensures Run(p, labels).calls == map[] ==> !G.Moving(Run(p, labels).State(gate))
  {
    if labels != [] {
      var q := Run(p, labels[..|labels| - 1]);
      NoStuckGate(p, labels[..|labels| - 1], gate);
      StepKeepsAttended(q, labels[|labels| - 1], gate);
    }
    if Run(p, labels).calls == map[] {
      assert Members(Run(p, labels), gate, Lifting) == {};
      assert Members(Run(p, labels), gate, Lowering) == {};
    }
  }

  // ---------- Exclusive ownership of a moving gate ----------

  predicate ExclusiveAt(p: Plant, gate: string) {
    && |Members(p, gate, Lifting)| == Bit(p.State(gate) == G.Opening)
    && |Members(p, gate, Lowering)| == Bit(p.State(gate) == G.Closing)
  }

  ghost predicate Exclusive(p: Plant) {
    forall gate :: ExclusiveAt(p, gate)
  }

  // The one step that breaks ownership: the re-check found the gate no longer
  // open, and its recovery takes the gate from the call that is moving it.
  predicate UndoesMoving(p: Plant, l: Label) {
    && l.Advance? && l.id in p.calls
    && p.calls[l.id].pc == OpenUndo && G.Moving(p.State(p.calls[l.id].gate))
  }

  lemma StepKeepsExclusiveAt(p: Plant, l: Label, gate: string)
    requires ExclusiveAt(p, gate)
    requires !UndoesMoving(p, l)
    ensures ExclusiveAt(Step(p, l), gate)
  {
    if l.Advance? && l.id in p.calls {
      AdvanceMoves(p, l, gate);
    } else {
      RestStays(p, l, gate);
    }
    StepMoves(p, l, gate, Lifting);
    StepMoves(p, l, gate, Lowering);
    if HasActor(l) && In(p, l.id, gate, Lifting) {
      assert l.id in Members(p, gate, Lifting);
    }
    if HasActor(l) && In(p, l.id, gate, Lowering) {
      assert l.id in Members(p, gate, Lowering);
    }
  }

  lemma StepKeepsExclusiveIff(p: Plant, l: Label)
    requires Exclusive(p)
    ensures Exclusive(Step(p, l)) <==> !UndoesMoving(p, l)
  {
    if UndoesMoving(p, l) {
      var gate := p.calls[l.id].gate;
      assert ExclusiveAt(p, gate);
      StepMoves(p, l, gate, Lifting);
      StepMoves(p, l, gate, Lowering);
      assert !ExclusiveAt(Step(p, l), gate);
    } else {
      forall gate ensures ExclusiveAt(Step(p, l), gate) {
        StepKeepsExclusiveAt(p, l, gate);
      }
    }
  }

  // No step of the schedule undoes a moving gate.
  predicate NeverUndoes(p: Plant, labels: seq<Label>) {
    forall i :: 0 <= i < |labels| ==> !UndoesMoving(Run(p, labels[..i]), labels[i])
  }

  lemma {:induction false} ExclusiveOwnership(p: Plant, labels: seq<Label>)
    requires Exclusive(p) && NeverUndoes(p, labels)
    ensures Exclusive(Run(p, labels))
  {
    if labels != [] {
      var n := |labels| - 1;
      forall i | 0 <= i < n ensures !UndoesMoving(Run(p, labels[..n][..i]), labels[..n][i]) {
        assert labels[..n][..i] == labels[..i];
      }
      ExclusiveOwnership(p, labels[..n]);
      assert !UndoesMoving(Run(p, labels[..n]), labels[n]);
      StepKeepsExclusiveIff(Run(p, labels[..n]), labels[n]);
    }
  }

  // What ownership buys: two calls never command one gate at the same time, and
  // the second SetState and the recovery of the owner always go through.
  lemma OwnerSucceeds(p: Plant, id: nat, other: nat, at: int)
    requires Exclusive(p) && id in p.calls
    requires PhaseOf(p.calls[id].pc) in {Lifting, Lowering}
    ensures (other in p.calls && p.calls[other].gate == p.calls[id].gate
             && PhaseOf(p.calls[other].pc) in {Lifting, Lowering}) ==> other == id
    ensures var gate, pc := p.calls[id].gate, p.calls[id].pc;
            && (pc == OpenCommit ==> G.Accepted(p.store, G.SetState(gate, G.Open, at)))
            && (pc == CloseCommit ==> G.Accepted(p.store, G.SetState(gate, G.Closed, at)))
            && G.Accepted(p.store, G.Recover(gate, at))
  {
    var gate := p.calls[id].gate;
    var up, down := Members(p, gate, Lifting), Members(p, gate, Lowering);
    assert ExclusiveAt(p, gate);
    assert id in up || id in down;
    if other in p.calls && p.calls[other].gate == gate && PhaseOf(p.calls[other].pc) in {Lifting, Lowering} {
      assert other in up || other in down;
      assert up + down == {id} by {
        assert |up| + |down| <= 1;
        assert |up - {id}| + |down - {id}| == 0;
      }
    }
  }

  // ---------- Passage accounting ----------

  // How often the run took the gate into Open.
  function Openings(p: Plant, labels: seq<Label>, gate: string): nat {
    if labels == [] then 0 else
    var front, last := labels[..|labels| - 1], labels[|labels| - 1];
    var q := Run(p, front);
    Openings(p, front, gate) + Bit(q.State(gate) != G.Open && Step(q, last).State(gate) == G.Open)
  }

  // A call that set this gate open and then finds it not open: at its re-check,
  // or at the guard inside Count.
  predicate Skips(p: Plant, l: Label, gate: string) {
    && l.Advance? && l.id in p.calls && p.calls[l.id].gate == gate
    && p.calls[l.id].pc in {OpenRecheck, OpenCount} && p.State(gate) != G.Open
  }

  function Skipped(p: Plant, labels: seq<Label>, gate: string): nat {
    if labels == [] then 0 else
    var front, last := labels[..|labels| - 1], labels[|labels| - 1];
    Skipped(p, front, gate) + Bit(Skips(Run(p, front), last, gate))
  }

  lemma StepAccounts(p: Plant, l: Label, gate: string)
    ensures var q := Step(p, l);
            At(q.counter.totals, gate) + |Members(q, gate, Passing)| + Bit(Skips(p, l, gate))
            == At(p.counter.totals, gate) + |Members(p, gate, Passing)|
               + Bit(p.State(gate) != G.Open && q.State(gate) == G.Open)
  {
    StepMoves(p, l, gate, Passing);
    if l.Advance? && l.id in p.calls {
      AdvanceMoves(p, l, gate);
    } else {
      RestStays(p, l, gate);
    }
  }

  // Every time the gate went into Open, the total grew by one, or the opener is
  // still on its way to Count, or it was skipped.
  lemma {:induction false} PassagesAccounted(p: Plant, labels: seq<Label>, gate: string)
    ensures var q := Run(p, labels);
            Openings(p, labels, gate) + |Members(p, gate, Passing)|
            == (At(q.counter.totals, gate) - At(p.counter.totals, gate))
               + |Members(q, gate, Passing)| + Skipped(p, labels, gate)
  {
    if labels != [] {
      PassagesAccounted(p, labels[..|labels| - 1], gate);
      StepAccounts(Run(p, labels[..|labels| - 1]), labels[|labels| - 1], gate);
    }
  }

  // ---------- Results ----------

  // A call's step that writes its gate stamps it with the step's time and the next
  // record number; without such a stamp the state stays.
  lemma AdvanceStamps(p: Plant, l: Label)
    requires l.Advance? && l.id in p.calls
    ensures var gate, q := p.calls[l.id].gate, Step(p, l);
            var before, after := p.store.Get(gate), q.store.Get(gate);
            && (q.store.lastSeq != p.store.lastSeq ==>
                  after.updatedAt == l.at && after.recordSeq == q.store.lastSeq == p.store.lastSeq + 1)
            && (after.state != before.state ==> q.store.lastSeq == p.store.lastSeq + 1)
  {
  }

  // When a call returns and with what result: an Open with nil after its
  // confirmation alone, a Close when it closed the gate itself.
  lemma AdvanceReturns(p: Plant, l: Label)
    requires l.Advance? && l.id in p.calls
    ensures var c, q := p.calls[l.id], Step(p, l);
            var before := p.State(c.gate);
            && (l.id !in q.calls <==>
                  || c.pc in {OpenFault, OpenUndo, OpenConfirm, CloseFault, CloseCommit}
                  || (c.pc == OpenStart && before != G.Closed) || (c.pc == CloseStart && before != G.Open)
                  || (c.pc == OpenCommit && before != G.Opening))
            && (l.id !in q.calls ==>
                  && l.id in q.returned
                  && (q.returned[l.id] <==> c.pc == OpenConfirm || (c.pc == CloseCommit && before == G.Closing)))
  {
    AdvanceMoves(p, l, p.calls[l.id].gate);
  }

  // Whether the step ends an Open of the gate with a nil error.
  predicate OpensNil(p: Plant, l: Label, gate: string) {
    && l.Advance? && l.id in p.calls && p.calls[l.id].gate == gate
    && p.calls[l.id].pc in {OpenStart, OpenActuate, OpenWait, OpenRecover, OpenFault, OpenCommit, OpenRecheck,
                            OpenUndo, OpenCount, OpenConfirm}
    && l.id !in Step(p, l).calls && l.id in Step(p, l).returned && Step(p, l).returned[l.id]
  }

  function NilOpens(p: Plant, labels: seq<Label>, gate: string): nat {
    if labels == [] then 0 else
    var front, last := labels[..|labels| - 1], labels[|labels| - 1];
    NilOpens(p, front, gate) + Bit(OpensNil(Run(p, front), last, gate))
  }

  // The guard inside Count finds the gate no longer open.
  predicate CountSkips(p: Plant, l: Label, gate: string) {
    Skips(p, l, gate) && p.calls[l.id].pc == OpenCount
  }

  function CountSkipped(p: Plant, labels: seq<Label>, gate: string): nat {
    if labels == [] then 0 else
    var front, last := labels[..|labels| - 1], labels[|labels| - 1];
    CountSkipped(p, front, gate) + Bit(CountSkips(Run(p, front), last, gate))
  }

  predicate Confirming(p: Plant, id: nat, gate: string) {
    id in p.calls && p.calls[id] == Call(gate, OpenConfirm)
  }

  function ConfirmingCalls(p: Plant, gate: string): set<nat> {
    set id | id in p.calls && Confirming(p, id, gate)
  }

  lemma ConfirmingMoves(p: Plant, l: Label, gate: string)
    ensures HasActor(l) ==>
      |ConfirmingCalls(Step(p, l), gate)| + Bit(Confirming(p, l.id, gate))
      == |ConfirmingCalls(p, gate)| + Bit(Confirming(Step(p, l), l.id, gate))
    ensures !HasActor(l) ==> ConfirmingCalls(Step(p, l), gate) == ConfirmingCalls(p, gate)
  {
    var q := Step(p, l);
    var a, b := ConfirmingCalls(p, gate), ConfirmingCalls(q, gate);
    forall id: nat | !HasActor(l) || id != l.id ensures Confirming(p, id, gate) == Confirming(q, id, gate) {
      OthersStay(p, l, id);
    }
    if HasActor(l) {
      assert a - {l.id} == b - {l.id};
      OneDiffers(a, b, l.id);
    } else {
      assert a == b;
    }
  }

  lemma AdvanceCounts(p: Plant, l: Label, gate: string)
    requires l.Advance? && l.id in p.calls
    ensures var q := Step(p, l);
            At(q.counter.totals, gate) + Bit(CountSkips(p, l, gate)) + Bit(Confirming(p, l.id, gate))
            == At(p.counter.totals, gate) + Bit(OpensNil(p, l, gate)) + Bit(Confirming(q, l.id, gate))
  {
    AdvanceReturns(p, l);
  }

  lemma StepCounts(p: Plant, l: Label, gate: string)
    ensures var q := Step(p, l);
            At(q.counter.totals, gate) + Bit(CountSkips(p, l, gate)) + |ConfirmingCalls(p, gate)|
            == At(p.counter.totals, gate) + Bit(OpensNil(p, l, gate)) + |ConfirmingCalls(q, gate)|
  {
    ConfirmingMoves(p, l, gate);
    if l.Advance? && l.id in p.calls {
      AdvanceCounts(p, l, gate);
    } else {
      RestStays(p, l, gate);
    }
  }

  // In every interleaving: the Opens of a gate that returned nil are the growth of
  // its total, and those whose Count found the gate no longer open, less the ones
  // counted but not yet confirmed.
  lemma {:induction false} NilOpensAccounted(p: Plant, labels: seq<Label>, gate: string)
    ensures var q := Run(p, labels);
            NilOpens(p, labels, gate) + |ConfirmingCalls(q, gate)|
            == (At(q.counter.totals, gate) - At(p.counter.totals, gate)) + CountSkipped(p, labels, gate)
               + |ConfirmingCalls(p, gate)|
  {
    if labels != [] {
      NilOpensAccounted(p, labels[..|labels| - 1], gate);
      StepCounts(Run(p, labels[..|labels| - 1]), labels[|labels| - 1], gate);
    }
  }

  // ---------- Fault accounting ----------

  // The actuator or the sensor of a claimed gate has failed a call.
  predicate Fails(p: Plant, l: Label, gate: string) {
    && l.Advance? && !l.ok && l.id in p.calls && p.calls[l.id].gate == gate
    && p.calls[l.id].pc in {OpenActuate, OpenWait, CloseActuate, CloseWait}
  }

  function Failures(p: Plant, labels: seq<Label>, gate: string): nat {
    if labels == [] then 0 else
    var front, last := labels[..|labels| - 1], labels[|labels| - 1];
    Failures(p, front, gate) + Bit(Fails(Run(p, front), last, gate))
  }

  // Faults of the gate that others record.
  function Reported(labels: seq<Label>, gate: string): nat {
    if labels == [] then 0 else
    var last := labels[|labels| - 1];
    Reported(labels[..|labels| - 1], gate) + Bit(last.Traffic? && last.w.Fault? && last.w.id == gate)
  }

  predicate Failing(p: Plant, id: nat, gate: string) {
    id in p.calls && p.calls[id].gate == gate
    && p.calls[id].pc in {OpenRecover, OpenFault, CloseRecover, CloseFault}
  }

  // The failed calls that have yet to record their fault.
  function FailingCalls(p: Plant, gate: string): set<nat> {
    set id | id in p.calls && Failing(p, id, gate)
  }

  lemma FailingMoves(p: Plant, l: Label, gate: string)
    requires HasActor(l)
    ensures |FailingCalls(Step(p, l), gate)| + Bit(Failing(p, l.id, gate))
            == |FailingCalls(p, gate)| + Bit(Failing(Step(p, l), l.id, gate))
  {
    var q := Step(p, l);
    forall id: nat | id != l.id ensures Failing(p, id, gate) == Failing(q, id, gate) {
      OthersStay(p, l, id);
    }
    var a, b := FailingCalls(p, gate), FailingCalls(q, gate);
    assert a - {l.id} == b - {l.id};
    assert l.id in a <==> Failing(p, l.id, gate);
    assert l.id in b <==> Failing(q, l.id, gate);
    OneDiffers(a, b, l.id);
  }

  lemma FailingStays(p: Plant, l: Label, gate: string)
    requires !HasActor(l)
    ensures FailingCalls(Step(p, l), gate) == FailingCalls(p, gate)
  {
  }

  lemma AdvanceFaults(p: Plant, l: Label, gate: string)
    requires l.Advance? && l.id in p.calls
    ensures var c, q := p.calls[l.id], Step(p, l);
            && q.store.Get(gate).faults == p.store.Get(gate).faults
               + Bit(c.gate == gate && c.pc in {OpenFault, CloseFault})
            && Bit(Failing(q, l.id, gate)) + Bit(c.gate == gate && c.pc in {OpenFault, CloseFault})
               == Bit(Failing(p, l.id, gate)) + Bit(Fails(p, l, gate))
  {
    var c := p.calls[l.id];
    var w := WriteAt(c.pc, c.gate, l.at);
    if w.Some? {
      G.WriteFrame(p.store, w.value, gate);
    }
  }

  lemma StepFaults(p: Plant, l: Label, gate: string)
    ensures var q := Step(p, l);
            q.store.Get(gate).faults + |FailingCalls(q, gate)|
            == p.store.Get(gate).faults + |FailingCalls(p, gate)| + Bit(Fails(p, l, gate))
               + Bit(l.Traffic? && l.w.Fault? && l.w.id == gate)
  {
    if HasActor(l) {
      FailingMoves(p, l, gate);
      if l.Advance? && l.id in p.calls {
        AdvanceFaults(p, l, gate);
      }
    } else {
      FailingStays(p, l, gate);
      if l.Traffic? {
        G.WriteFrame(p.store, l.w, gate);
      }
    }
  }

  // In every interleaving the faults of a gate grow by the failed actuations and
  // confirmations of its calls and by the faults that others report; those of
  // calls that have not recorded theirs yet are still to come.
  lemma {:induction false} FaultsAccounted(p: Plant, labels: seq<Label>, gate: string)
    ensures var q := Run(p, labels);
            q.store.Get(gate).faults + |FailingCalls(q, gate)|
            == p.store.Get(gate).faults + |FailingCalls(p, gate)|
               + Failures(p, labels, gate) + Reported(labels, gate)
  {
    if labels != [] {
      FaultsAccounted(p, labels[..|labels| - 1], gate);
      StepFaults(Run(p, labels[..|labels| - 1]), labels[|labels| - 1], gate);
    }
  }

  // ---------- Every call returns ----------

  function Remaining(pc: Pc): nat {
    match pc
    case OpenStart => 7
    case OpenActuate => 6
    case OpenWait => 5
    case OpenCommit => 4
    case OpenRecheck => 3
    case OpenCount => 2
    case OpenRecover => 2
    case OpenConfirm => 1
    case OpenUndo => 1
    case OpenFault => 1
    case CloseStart => 5
    case CloseActuate => 4
    case CloseWait => 3
    case CloseRecover => 2
    case CloseCommit => 1
    case CloseFault => 1
  }

  function Turns(labels: seq<Label>, id: nat): nat {
    if labels == [] then 0 else
    var last := labels[|labels| - 1];
    Turns(labels[..|labels| - 1], id) + Bit(last.Advance? && last.id == id)
  }

  lemma StepShortens(p: Plant, l: Label, id: nat)
    ensures var q := Step(p, l);
            && (id in p.returned ==> id in q.returned)
            && (id in p.calls && id !in p.returned ==>
                  if id in q.calls
                  then id !in q.returned
                       && Bit(l.Advance? && l.id == id) + Remaining(q.calls[id].pc) <= Remaining(p.calls[id].pc)
                  else id in q.returned)
  {
    if l.Advance? && l.id == id && id in p.calls {
      AdvanceMoves(p, l, p.calls[id].gate);
    } else if !HasActor(l) || l.id != id {
      OthersStay(p, l, id);
    }
  }

  // A call is done after at most seven turns of its own, whatever else happens.
  lemma {:induction false} CallReturns(p: Plant, labels: seq<Label>, id: nat)
    requires id in p.calls && id !in p.returned
    ensures var q := Run(p, labels);
            if id in q.calls
            then id !in q.returned && Turns(labels, id) + Remaining(q.calls[id].pc) <= Remaining(p.calls[id].pc)
            else id in q.returned
  {
    if labels != [] {
      var q, last := Run(p, labels[..|labels| - 1]), labels[|labels| - 1];
      CallReturns(p, labels[..|labels| - 1], id);
      StepShortens(q, last, id);
    }
  }

  ghost predicate Fresh(p: Plant) {
    p.calls.Keys !! p.returned.Keys
  }

  lemma {:induction false} NoCallAppears(p: Plant, labels: seq<Label>)
    requires forall l :: l in labels ==> !l.CallOpen? && !l.CallClose?
    ensures Run(p, labels).calls.Keys <= p.calls.Keys
  {
    if labels != [] {
      NoCallAppears(p, labels[..|labels| - 1]);
    }
  }

  // Once no new call arrives and each call in flight has had its turns, every
  // gate is at rest.
  lemma GatesComeToRest(p: Plant, labels: seq<Label>, gate: string)
    requires Attended(p, gate) && Fresh(p)
    requires forall l :: l in labels ==> !l.CallOpen? && !l.CallClose?
    requires forall id :: id in p.calls ==> Turns(labels, id) >= 7
    ensures Run(p, labels).calls == map[]
    ensures !G.Moving(Run(p, labels).State(gate))
  {
    NoCallAppears(p, labels);
    forall id | id in p.calls ensures id !in Run(p, labels).calls {
      CallReturns(p, labels, id);
    }
    assert Run(p, labels).calls.Keys == {};
    NoStuckGate(p, labels, gate);
  }

  // ---------- From a fresh plant ----------

  const START: Plant := Plant(G.EMPTY, P.ZERO, map[], map[])

  lemma StartIsOwned(gate: string)
    ensures Attended(START, gate) && ExclusiveAt(START, gate) && Fresh(START)
  {
    forall phase ensures Members(START, gate, phase) == {} {
    }
  }

  // Ownership can really be lost: an opener sets the gate Open, a closer claims
  // it, the opener's re-check fails and recovers the gate to Closed, and a third
  // call opens it while the closer is still commanding the actuator.
  function RaceLabel(gate: string, k: nat): Label {
    if k == 0 then CallOpen(0, gate)
    else if k == 5 then CallClose(1, gate)
    else if k == 6 then Advance(1, true, 1)
    else if k == 9 then CallOpen(2, gate)
    else if k == 10 then Advance(2, true, 1)
    else Advance(0, true, 1)
  }

  // The gate's state after k steps of the race, and where its three calls are.
  function RaceState(k: nat): G.GateState {
    if k < 2 then G.Closed else if k < 5 then G.Opening else if k < 7 then G.Open
    else if k < 9 then G.Closing else if k < 11 then G.Closed else G.Opening
  }

  function RacePc(k: nat, id: nat): Option<Pc> {
    if id == 0 then
      if k == 0 then None else if k == 1 then Some(OpenStart) else if k == 2 then Some(OpenActuate)
      else if k == 3 then Some(OpenWait) else if k == 4 then Some(OpenCommit)
      else if k < 8 then Some(OpenRecheck) else if k == 8 then Some(OpenUndo) else None
    else if id == 1 then
      if k < 6 then None else if k == 6 then Some(CloseStart) else Some(CloseActuate)
    else if id == 2 then
      if k < 10 then None else if k == 10 then Some(OpenStart) else Some(OpenActuate)
    else None
  }

  ghost predicate RaceShows(p: Plant, gate: string, k: nat) {
    && p.State(gate) == RaceState(k)
    && (forall id: nat ::
          (if id in p.calls then Some(p.calls[id]) else None) ==
          (if RacePc(k, id).Some? then Some(Call(gate, RacePc(k, id).value)) else None))
    && p.returned.Keys <= (if k < 9 then {} else {0})
  }

  lemma RaceStep(p: Plant, gate: string, k: nat)
    requires k < 11 && RaceShows(p, gate, k)
    ensures RaceShows(Step(p, RaceLabel(gate, k)), gate, k + 1)
  {
    var l := RaceLabel(gate, k);
    assert l.id in p.calls <==> RacePc(k, l.id).Some?;
    if l.Advance? {
      AdvanceMoves(p, l, gate);
    } else {
      RestStays(p, l, gate);
    }
    var q := Step(p, l);
    forall id: nat
      ensures (if id in q.calls then Some(q.calls[id]) else None) ==
              (if RacePc(k + 1, id).Some? then Some(Call(gate, RacePc(k + 1, id).value)) else None)
    {
      assert (if id in p.calls then Some(p.calls[id]) else None) ==
             (if RacePc(k, id).Some? then Some(Call(gate, RacePc(k, id).value)) else None);
      if id != l.id {
        OthersStay(p, l, id);
        assert RacePc(k + 1, id) == RacePc(k, id);
      }
    }
  }

  lemma {:induction false} RaceReaches(gate: string, k: nat)
    requires k <= 11
    ensures RaceShows(Run(START, seq(k, i requires 0 <= i => RaceLabel(gate, i))), gate, k)
  {
    if k > 0 {
      RaceReaches(gate, k - 1);
      var labels := seq(k, i requires 0 <= i => RaceLabel(gate, i));
      assert labels[..k - 1] == seq(k - 1, i requires 0 <= i => RaceLabel(gate, i));
      RaceStep(Run(START, labels[..k - 1]), gate, k - 1);
    }
  }

  lemma OwnershipCanBeLost(gate: string)
    ensures exists labels ::
      In(Run(START, labels), 1, gate, Lowering) && In(Run(START, labels), 2, gate, Lifting)
  {
    RaceReaches(gate, 11);
    var labels := seq(11, i requires 0 <= i => RaceLabel(gate, i));
    assert RacePc(11, 1) == Some(CloseActuate) && RacePc(11, 2) == Some(OpenActuate);
    assert In(Run(START, labels), 1, gate, Lowering) && In(Run(START, labels), 2, gate, Lifting);
  }

  // ---------- A call that runs alone ----------

  datatype Outcome = Outcome(store: G.Store, counter: P.Counter, ok: bool)

  // The times a call reads from the clock: at its start, when it resolves, and
  // after that.
  datatype Times = Times(start: int, settle: int, after: int)

  function FailAlone(s: G.Store, c: P.Counter, gate: string, t: Times): Outcome {
    Outcome(G.Apply(G.Apply(s, G.Recover(gate, t.settle)), G.Fault(gate, t.after)), c, false)
  }

  function OpenAlone(s: G.Store, c: P.Counter, gate: string, actuated: bool, confirmed: bool, t: Times): Outcome {
    var claim := G.SetState(gate, G.Opening, t.start);
    var claimed := G.Apply(s, claim);
    if !G.Accepted(s, claim) then Outcome(claimed, c, false)
    else if !actuated || !confirmed then FailAlone(claimed, c, gate, t)
    else Outcome(G.Apply(claimed, G.SetState(gate, G.Open, t.settle)),
                 P.Confirmed(P.Counted(c, gate, true), gate, t.after), true)
  }

  function CloseAlone(s: G.Store, c: P.Counter, gate: string, actuated: bool, confirmed: bool, t: Times): Outcome {
    var claim := G.SetState(gate, G.Closing, t.start);
    var claimed := G.Apply(s, claim);
    if !G.Accepted(s, claim) then Outcome(claimed, c, false)
    else if !actuated || !confirmed then FailAlone(claimed, c, gate, t)
    else Outcome(G.Apply(claimed, G.SetState(gate, G.Closed, t.settle)), c, true)
  }

  // The clock reading that a call takes at a program counter.
  function TimeAt(pc: Pc, t: Times): int {
    if pc in {OpenStart, CloseStart} then t.start
    else if pc in {OpenFault, CloseFault, OpenConfirm} then t.after
    else t.settle
  }

  function TurnOf(id: nat, pc: Pc, actuated: bool, confirmed: bool, t: Times): Label {
    Advance(id, if pc in {OpenActuate, CloseActuate} then actuated else confirmed, TimeAt(pc, t))
  }

  function StoreAfter(s: G.Store, c: Call, at: int): G.Store {
    var w := WriteAt(c.pc, c.gate, at);
    if w.Some? then G.Apply(s, w.value) else s
  }

  function NextOf(s: G.Store, c: Call, l: Label): Next
    requires l.Advance?
  {
    After(c.pc, GoodAfter(c.pc, s.Get(c.gate).state, l.ok))
  }

  lemma NextIsCloser(s: G.Store, c: Call, l: Label)
    requires l.Advance?
    ensures NextOf(s, c, l).To? ==> Remaining(NextOf(s, c, l).pc) < Remaining(c.pc)
  {
  }

  // The turns a call takes from a program counter until it returns, when no
  // other step falls in between, and where they lead.
  function SoloTurns(id: nat, c: Call, s: G.Store, actuated: bool, confirmed: bool, t: Times): seq<Label>
    decreases Remaining(c.pc)
  {
    var l := TurnOf(id, c.pc, actuated, confirmed, t);
    NextIsCloser(s, c, l);
    match NextOf(s, c, l)
    case To(pc) => [l] + SoloTurns(id, Call(c.gate, pc), StoreAfter(s, c, l.at), actuated, confirmed, t)
    case Done(_) => [l]
  }

  function Ends(id: nat, c: Call, s: G.Store, counter: P.Counter, actuated: bool, confirmed: bool, t: Times): Outcome
    decreases Remaining(c.pc)
  {
    var l := TurnOf(id, c.pc, actuated, confirmed, t);
    NextIsCloser(s, c, l);
    var s' := StoreAfter(s, c, l.at);
    var counter' := CounterAfter(counter, s.Get(c.gate).state, c, l.at);
    match NextOf(s, c, l)
    case To(pc) => Ends(id, Call(c.gate, pc), s', counter', actuated, confirmed, t)
    case Done(ok) => Outcome(s', counter', ok)
  }

  lemma {:induction false} RunFront(p: Plant, l: Label, rest: seq<Label>)
    ensures Run(p, [l] + rest) == Run(Step(p, l), rest)
  {
    if rest == [] {
      assert ([l] + rest)[..0] == [];
    } else {
      RunFront(p, l, rest[..|rest| - 1]);
      assert ([l] + rest)[..|rest|] == [l] + rest[..|rest| - 1];
    }
  }

  predicate Finished(q: Plant, id: nat, o: Outcome) {
    id !in q.calls && id in q.returned && Outcome(q.store, q.counter, q.returned[id]) == o
  }

  lemma {:induction false} AloneIsARun(p: Plant, id: nat, actuated: bool, confirmed: bool, t: Times)
    requires id in p.calls
    ensures var c := p.calls[id];
            Finished(Run(p, SoloTurns(id, c, p.store, actuated, confirmed, t)), id,
                     Ends(id, c, p.store, p.counter, actuated, confirmed, t))
    decreases Remaining(p.calls[id].pc)
  {
    var c := p.calls[id];
    var l := TurnOf(id, c.pc, actuated, confirmed, t);
    var q := Step(p, l);
    AdvanceMoves(p, l, c.gate);
    NextIsCloser(p.store, c, l);
    assert q.store == StoreAfter(p.store, c, l.at);
    match NextOf(p.store, c, l) {
      case To(pc) =>
        AloneIsARun(q, id, actuated, confirmed, t);
        RunFront(p, l, SoloTurns(id, q.calls[id], q.store, actuated, confirmed, t));
      case Done(_) =>
        RunFront(p, l, []);
    }
  }

  lemma ReadKnown(s: G.Store, gate: string)
    requires gate in s.statuses
    ensures G.Apply(s, G.Read(gate)) == s
  {
    assert s.statuses[gate := s.statuses[gate]] == s.statuses;
  }

  // An Open or Close that nobody interrupts ends as OpenAlone and CloseAlone say.
  lemma FailureEnds(id: nat, gate: string, pc: Pc, s: G.Store, c: P.Counter, actuated: bool, confirmed: bool, t: Times)
    requires pc in {OpenRecover, CloseRecover}
    ensures Ends(id, Call(gate, pc), s, c, actuated, confirmed, t) == FailAlone(s, c, gate, t)
  {
  }

  lemma CountEnds(id: nat, gate: string, s: G.Store, c: P.Counter, actuated: bool, confirmed: bool, t: Times)
    requires gate in s.statuses && s.Get(gate).state == G.Open
    ensures Ends(id, Call(gate, OpenRecheck), s, c, actuated, confirmed, t)
            == Outcome(s, P.Confirmed(P.Counted(c, gate, true), gate, t.after), true)
  {
    ReadKnown(s, gate);
    var c' := P.Counted(c, gate, true);
    assert Ends(id, Call(gate, OpenConfirm), s, c', actuated, confirmed, t)
        == Outcome(s, P.Confirmed(c', gate, t.after), true);
  }

  // From the claim on: the actuator, the sensor, and the commit or the failure.
  lemma ClaimedEnds(id: nat, gate: string, s: G.Store, c: P.Counter, opening: bool, actuated: bool, confirmed: bool, t: Times)
    ensures Ends(id, Call(gate, if opening then OpenActuate else CloseActuate), s, c, actuated, confirmed, t)
            == if actuated && confirmed
               then Ends(id, Call(gate, if opening then OpenCommit else CloseCommit), s, c, actuated, confirmed, t)
               else FailAlone(s, c, gate, t)
  {
    FailureEnds(id, gate, if opening then OpenRecover else CloseRecover, s, c, actuated, confirmed, t);
    var wait := Call(gate, if opening then OpenWait else CloseWait);
    if actuated {
      assert Ends(id, wait, s, c, actuated, confirmed, t)
          == Ends(id, Call(gate, if confirmed then if opening then OpenCommit else CloseCommit
                                 else if opening then OpenRecover else CloseRecover),
                  s, c, actuated, confirmed, t);
    }
  }

  lemma OpenEnds(id: nat, gate: string, s: G.Store, c: P.Counter, actuated: bool, confirmed: bool, t: Times)
    ensures Ends(id, Call(gate, OpenStart), s, c, actuated, confirmed, t)
            == OpenAlone(s, c, gate, actuated, confirmed, t)
  {
    var claimed := G.Apply(s, G.SetState(gate, G.Opening, t.start));
    ClaimedEnds(id, gate, claimed, c, true, actuated, confirmed, t);
    if s.Get(gate).state == G.Closed {
      assert claimed.Get(gate).state == G.Opening;
      CountEnds(id, gate, G.Apply(claimed, G.SetState(gate, G.Open, t.settle)), c, actuated, confirmed, t);
    }
  }

  lemma CloseEnds(id: nat, gate: string, s: G.Store, c: P.Counter, actuated: bool, confirmed: bool, t: Times)
    ensures Ends(id, Call(gate, CloseStart), s, c, actuated, confirmed, t)
            == CloseAlone(s, c, gate, actuated, confirmed, t)
  {
    var claimed := G.Apply(s, G.SetState(gate, G.Closing, t.start));
    ClaimedEnds(id, gate, claimed, c, false, actuated, confirmed, t);
    if s.Get(gate).state == G.Open {
      assert claimed.Get(gate).state == G.Closing;
    }
  }

  lemma LoneCallsAreRuns(p: Plant, call: Label, actuated: bool, confirmed: bool, t: Times)
    requires call.CallOpen? || call.CallClose?
    requires call.id !in p.calls && call.id !in p.returned
    ensures exists turns: seq<Label> ::
      && (forall l :: l in turns ==> l.Advance? && l.id == call.id)
      && Finished(Run(p, [call] + turns), call.id,
                  if call.CallOpen? then OpenAlone(p.store, p.counter, call.gate, actuated, confirmed, t)
                  else CloseAlone(p.store, p.counter, call.gate, actuated, confirmed, t))
  {
    var q := Step(p, call);
    var turns := SoloTurns(call.id, q.calls[call.id], q.store, actuated, confirmed, t);
    AloneIsARun(q, call.id, actuated, confirmed, t);
    RunFront(p, call, turns);
    OpenEnds(call.id, call.gate, p.store, p.counter, actuated, confirmed, t);
    CloseEnds(call.id, call.gate, p.store, p.counter, actuated, confirmed, t);
    OwnTurns(call.id, q.calls[call.id], q.store, actuated, confirmed, t);
  }

  lemma {:induction false} OwnTurns(id: nat, c: Call, s: G.Store, actuated: bool, confirmed: bool, t: Times)
    ensures forall l :: l in SoloTurns(id, c, s, actuated, confirmed, t) ==> l.Advance? && l.id == id
    decreases Remaining(c.pc)
  {
    var l := TurnOf(id, c.pc, actuated, confirmed, t);
    NextIsCloser(s, c, l);
    match NextOf(s, c, l) {
      case To(pc) => OwnTurns(id, Call(c.gate, pc), StoreAfter(s, c, l.at), actuated, confirmed, t);
      case Done(_) =>
    }
  }

  // ---------- Serial runs ----------

  datatype Job =
    | OpenJob(gate: string, actuated: bool, confirmed: bool, t: Times)
    | CloseJob(gate: string, actuated: bool, confirmed: bool, t: Times)
    | Between(w: G.Write)

  function Perform(s: G.Store, c: P.Counter, job: Job): Outcome {
    match job
    case OpenJob(gate, actuated, confirmed, t) => OpenAlone(s, c, gate, actuated, confirmed, t)
    case CloseJob(gate, actuated, confirmed, t) => CloseAlone(s, c, gate, actuated, confirmed, t)
    case Between(w) => Outcome(if w.SetState? || w.Recover? then s else G.Apply(s, w), c, true)
  }

  function Serial(s: G.Store, c: P.Counter, jobs: seq<Job>): Outcome {
    if jobs == [] then Outcome(s, c, true) else
    var o := Serial(s, c, jobs[..|jobs| - 1]);
    Perform(o.store, o.counter, jobs[|jobs| - 1])
  }

  // The Open calls on a gate that returned nil.
  function OpensReturningNil(s: G.Store, c: P.Counter, jobs: seq<Job>, gate: string): nat {
    if jobs == [] then 0 else
    var last := jobs[|jobs| - 1];
    OpensReturningNil(s, c, jobs[..|jobs| - 1], gate)
    + Bit(last.OpenJob? && last.gate == gate && Serial(s, c, jobs).ok)
  }

  // Seen from one gate: a job that runs alone takes it between Closed and Open,
  // or leaves it, or on failure closes it.
  lemma JobMoves(s: G.Store, c: P.Counter, job: Job, gate: string)
    ensures var o := Perform(s, c, job);
            var before, after := s.Get(gate).state, o.store.Get(gate).state;
            var mine := !job.Between? && job.gate == gate;
            var works := !job.Between? && job.actuated && job.confirmed;
            && (!mine ==> after == before && At(o.counter.totals, gate) == At(c.totals, gate))
            && (mine && job.OpenJob? ==>
                  && o.ok == (before == G.Closed && works)
                  && after == (if o.ok then G.Open else before)
                  && At(o.counter.totals, gate) == At(c.totals, gate) + Bit(o.ok))
            && (mine && job.CloseJob? ==>
                  && o.ok == (before == G.Open && works)
                  && after == (if before == G.Open then G.Closed else before)
                  && At(o.counter.totals, gate) == At(c.totals, gate))
  {
    if job.Between? {
      G.WriteFrame(s, job.w, gate);
    }
  }

  // What else a lone call leaves behind: a fault exactly when the claim went
  // through and the actuator or the sensor failed, a confirmation exactly when an
  // Open succeeded, and the time of its last write.
  lemma JobLeaves(s: G.Store, c: P.Counter, job: Job, gate: string)
    requires !job.Between?
    ensures var o := Perform(s, c, job);
            var before, after := s.Get(job.gate), o.store.Get(job.gate);
            var claims := before.state == if job.OpenJob? then G.Closed else G.Open;
            var works := job.actuated && job.confirmed;
            && after.faults == before.faults + Bit(claims && !works)
            && after.online == before.online && after.offlineSince == before.offlineSince
            && after.updatedAt == (if !claims then before.updatedAt else if works then job.t.settle else job.t.after)
            && o.store.lastSeq == s.lastSeq + (if !claims then 0 else if works then 2 else 3)
            && (gate != job.gate ==> o.store.Get(gate) == s.Get(gate))
            && At(o.counter.confirmedAt, gate) ==
               (if job.OpenJob? && o.ok && gate == job.gate then job.t.after else At(c.confirmedAt, gate))
            && At(o.counter.sessions, gate) - At(c.sessions, gate) == At(o.counter.totals, gate) - At(c.totals, gate)
  {
  }

  lemma {:induction false} SerialTotalsCountOpens(s: G.Store, c: P.Counter, jobs: seq<Job>, gate: string)
    ensures At(Serial(s, c, jobs).counter.totals, gate)
            == At(c.totals, gate) + OpensReturningNil(s, c, jobs, gate)
    ensures !G.Moving(s.Get(gate).state) ==> !G.Moving(Serial(s, c, jobs).store.Get(gate).state)
  {
    if jobs != [] {
      var front := jobs[..|jobs| - 1];
      SerialTotalsCountOpens(s, c, front, gate);
      JobMoves(Serial(s, c, front).store, Serial(s, c, front).counter, jobs[|jobs| - 1], gate);
    }
  }
}
