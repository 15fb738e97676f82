// The gate controller (internal/gate/gate.go): one call at a time, on the
// objects of the other modules.
module Controller {
  import opened Maps
  import A = Actuation
  import D = Decimal
  import G = Gates
  import J = Journey
  import L = EventLog
  import P = Passage
  import T = Tickets

  // What an event line needs besides its text: the time, the fingerprint, and how
  // the file system fares.
  datatype Note = Note(at: int, fingerprint: string, disk: L.Disk)

  function EventOf(gate: string, kind: string, payload: string, n: Note): L.Event {
    L.Event(gate, kind, payload, n.at, n.fingerprint)
  }

  // The event an Open leaves: none when the claim fails or the sensor times out.
  function OpenEvent(claimed: bool, actuated: bool, confirmed: bool, gate: string, why: string, n: Note): Option<L.Event> {
    if !claimed then None
    else if !actuated then Some(EventOf(gate, "open-failed", why, n))
    else if !confirmed then None
    else Some(EventOf(gate, "open", "", n))
  }

  function CloseEvent(claimed: bool, actuated: bool, confirmed: bool, gate: string, why: string, n: Note): Option<L.Event> {
    if !claimed then None
    else if !actuated then Some(EventOf(gate, "close-failed", why, n))
    else if !confirmed then None
    else Some(EventOf(gate, "close", "", n))
  }

  // The event log after at most one append: unchanged without an event or a file,
  // otherwise one line longer as far as the disk took it.
  twostate predicate Appended(store: L.EventFileStore?, e: Option<L.Event>, d: L.Disk)
    reads store
  {
    store != null ==>
      && (e.None? || !d.opens ==> forall g :: store.Log(g) == old(store.Log(g)))
      && (e.Some? && d.opens ==>
            var line := L.Line(e.value) + "\n";
            && store.Log(e.value.gateID) == old(store.Log(e.value.gateID)) + line[..L.Landed(d, line)]
            && forall g :: g != e.value.gateID ==> store.Log(g) == old(store.Log(g)))
  }

  // Fields that a line can hold, and a file that takes the whole line: the time,
  // four fields, four tabs and the newline.
  predicate Room(gate: string, kind: string, payload: string, n: Note) {
    && L.Plain(gate) && L.Plain(kind) && L.Plain(payload) && L.Plain(n.fingerprint) && D.Int64(n.at)
    && n.disk.opens
    && n.disk.written >= |D.Print(n.at)| + |gate| + |kind| + |payload| + |n.fingerprint| + 5
  }

  // What a reader of the log finds after an event was written with room for it:
  // the events from before and one more, with these fields.
  ghost predicate Gained(before: string, after: string, gate: string, kind: string, payload: string, n: Note) {
    Room(gate, kind, payload, n) && L.Whole(before) ==>
      var was, got := L.ParseLog(before), L.ParseLog(after);
      && L.Whole(after) && |got| == |was| + 1 && got[..|was|] == was
      && var e := got[|was|];
         e.gateID == gate && e.kind == kind && e.payload == payload && e.at == n.at && e.fingerprint == n.fingerprint
  }

  lemma EventIsGained(before: string, after: string, gate: string, kind: string, payload: string, n: Note)
    requires n.disk.opens ==>
      var line := L.Line(EventOf(gate, kind, payload, n)) + "\n"; after == before + line[..L.Landed(n.disk, line)]
    ensures Gained(before, after, gate, kind, payload, n)
  {
    if Room(gate, kind, payload, n) && L.Whole(before) {
      var e := EventOf(gate, kind, payload, n);
      var line := L.Line(e) + "\n";
      assert |line| == |D.Print(n.at)| + |gate| + |kind| + |payload| + |n.fingerprint| + 5;
      assert line[..L.Landed(n.disk, line)] == line;
      L.LogGrowsByOne(before, e);
    }
  }

  // The text of a gate's log; without a store there is none.
  function LogText(store: L.EventFileStore?, gate: string): string
    reads store
  {
    if store != null then store.Log(gate) else ""
  }

  class Controller {
    const gates: G.GateStore
    const counter: P.PassageCounter
    const validator: J.Validator
    const recorder: L.EventRecorder

    constructor (gates: G.GateStore, counter: P.PassageCounter, validator: J.Validator, recorder: L.EventRecorder)
      modifies counter`reader
      ensures this.gates == gates && this.counter == counter
      ensures this.validator == validator && this.recorder == recorder
      ensures Valid()
    {
      this.gates, this.counter, this.validator, this.recorder := gates, counter, validator, recorder;
      new;
      counter.SetStateReader(gates);
    }

    // The counter looks at the controller's own gates.
    predicate Valid()
      reads counter
    {
      counter.reader == gates
    }

    function Outcome(ok: bool): A.Outcome
      reads gates, counter
    {
      A.Outcome(gates.Value(), counter.Value(), ok)
    }

    // Recovery after a failed actuator or sensor.
    method FailMove(gate: string, t: A.Times)
      modifies gates
      ensures gates.Value() == A.FailAlone(old(gates.Value()), counter.Value(), gate, t).store
    {
      var _ := gates.RecoverToClosed(gate, t.settle);
      gates.RecordFault(gate, t.after);
    }

    method Open(gate: string, actuated: bool, confirmed: bool, why: string, t: A.Times, n: Note) returns (ok: bool)
      requires Valid()
      modifies gates, counter`totals, counter`sessions, counter`confirmedAt, recorder.store
      ensures Outcome(ok) == A.OpenAlone(old(gates.Value()), old(counter.Value()), gate, actuated, confirmed, t)
      ensures Appended(recorder.store,
                       OpenEvent(old(gates.Value()).Get(gate).state == G.Closed, actuated, confirmed, gate, why, n), n.disk)
      ensures recorder.store != null ==>
        var claimed := old(gates.Value()).Get(gate).state == G.Closed;
        var before, after := old(LogText(recorder.store, gate)), LogText(recorder.store, gate);
        && (claimed && !actuated ==> Gained(before, after, gate, "open-failed", why, n))
        && (claimed && actuated && confirmed ==> Gained(before, after, gate, "open", "", n))
        && (!claimed || (actuated && !confirmed) ==> after == before)
    {
      ghost var before := LogText(recorder.store, gate);
      var claimed := gates.SetGateState(gate, G.Opening, t.start);
      if !claimed {
        return false;
      }
      if !actuated {
        FailMove(gate, t);
        var _ := recorder.Record(EventOf(gate, "open-failed", why, n), n.disk);
        if recorder.store != null {
          EventIsGained(before, LogText(recorder.store, gate), gate, "open-failed", why, n);
        }
        return false;
      }
      if !confirmed {
        FailMove(gate, t);
        return false;
      }
      var committed := gates.SetGateState(gate, G.Open, t.settle);
      if !committed {
        assert false; // nothing else moves the gate while the call runs alone
      }
      A.ReadKnown(gates.Value(), gate);
      var open := gates.IsOpen(gate);
      if !open {
        assert false; // likewise; Actuation has the interleavings where it is not
      }
      var _ := counter.CountPassage(gate);
      counter.ConfirmPassage(gate, t.after);
      var _ := recorder.Record(EventOf(gate, "open", "", n), n.disk);
      if recorder.store != null {
        EventIsGained(before, LogText(recorder.store, gate), gate, "open", "", n);
      }
      return true;
    }

    method Close(gate: string, actuated: bool, confirmed: bool, why: string, t: A.Times, n: Note) returns (ok: bool)
      modifies gates, recorder.store
      ensures Outcome(ok) == A.CloseAlone(old(gates.Value()), old(counter.Value()), gate, actuated, confirmed, t)
      ensures Appended(recorder.store,
                       CloseEvent(old(gates.Value()).Get(gate).state == G.Open, actuated, confirmed, gate, why, n), n.disk)
      ensures recorder.store != null ==>
        var claimed := old(gates.Value()).Get(gate).state == G.Open;
        var before, after := old(LogText(recorder.store, gate)), LogText(recorder.store, gate);
        && (claimed && !actuated ==> Gained(before, after, gate, "close-failed", why, n))
        && (claimed && actuated && confirmed ==> Gained(before, after, gate, "close", "", n))
        && (!claimed || (actuated && !confirmed) ==> after == before)
    {
      ghost var before := LogText(recorder.store, gate);
      var claimed := gates.SetGateState(gate, G.Closing, t.start);
      if !claimed {
        return false;
      }
      if !actuated {
        FailMove(gate, t);
        var _ := recorder.Record(EventOf(gate, "close-failed", why, n), n.disk);
        if recorder.store != null {
          EventIsGained(before, LogText(recorder.store, gate), gate, "close-failed", why, n);
        }
        return false;
      }
      if !confirmed {
        FailMove(gate, t);
        return false;
      }
      var committed := gates.SetGateState(gate, G.Closed, t.settle);
      if !committed {
        assert false; // nothing else moves the gate while the call runs alone
      }
      var _ := recorder.Record(EventOf(gate, "close", "", n), n.disk);
      if recorder.store != null {
        EventIsGained(before, LogText(recorder.store, gate), gate, "close", "", n);
      }
      return true;
    }

    ghost predicate Filed()
      reads validator, validator.store, validator.rules, validator.dedup
    {
      J.Filed(validator.Value())
    }

    // An accepted entry leaves one "entry" event, a refused one none.
    method HandleEntry(id: string, group: string, gate: string, c: J.Clock, p: T.Persist, n: Note)
      returns (r: J.EntryResult)
      requires Filed()
      modifies validator.store, validator.dedup, recorder.store
      ensures (validator.Value(), r)
              == J.Enter(validator.dedup.ttl, old(validator.Value()), id, group, gate, c, p)
      ensures Filed()
      ensures Appended(recorder.store, if r.Accepted? then Some(EventOf(gate, "entry", id, n)) else None, n.disk)
      ensures recorder.store != null ==>
        var before, after := old(LogText(recorder.store, gate)), LogText(recorder.store, gate);
        if r.Accepted? then Gained(before, after, gate, "entry", id, n) else after == before
    {
      ghost var before := LogText(recorder.store, gate);
      J.EnterKeepsFiled(validator.dedup.ttl, validator.Value(), id, group, gate, c, p);
      var rec := validator.store.Lookup(id);
      if rec.None? {
        return J.Refused(J.NotFound);
      }
      r := validator.ValidateEntry(rec.value, group, gate, c, p);
      if r.Accepted? {
        var _ := recorder.Record(EventOf(gate, "entry", id, n), n.disk);
        if recorder.store != null {
          EventIsGained(before, LogText(recorder.store, gate), gate, "entry", id, n);
        }
      }
    }

    method FailExit(id: string, gate: string, undo: T.Persist, faultAt: int, n: Note)
      modifies validator.store, validator.dedup, recorder.store, gates
      ensures validator.Value() == J.Undone(old(validator.Value()), id, undo)
      ensures gates.Value() == G.Apply(old(gates.Value()), G.Fault(gate, faultAt))
      ensures Appended(recorder.store, Some(EventOf(gate, "exit-failed", id, n)), n.disk)
      ensures recorder.store != null ==>
        Gained(old(LogText(recorder.store, gate)), LogText(recorder.store, gate), gate, "exit-failed", id, n)
    {
      ghost var before := LogText(recorder.store, gate);
      validator.dedup.ClearKey(id);
      validator.store.Reset(id, undo);
      var _ := recorder.Record(EventOf(gate, "exit-failed", id, n), n.disk);
      if recorder.store != null {
        EventIsGained(before, LogText(recorder.store, gate), gate, "exit-failed", id, n);
      }
      gates.RecordFault(gate, faultAt);
    }

    // A failed exit clears the window, resets the ticket, and is recorded as a
    // fault of the gate; an unknown ticket changes nothing.
    method HandleExit(id: string, gate: string, at: int, p: T.Persist, undo: T.Persist, faultAt: int, n: Note)
      returns (r: J.ExitResult)
      requires Filed()
      modifies validator.store, validator.dedup, recorder.store, gates
      ensures Filed()
      ensures (validator.Value(), r) == J.Leave(old(validator.Value()), id, gate, at, p, undo)
      ensures gates.Value() == if r.Failed? && r.why != J.NotFound
                               then G.Apply(old(gates.Value()), G.Fault(gate, faultAt)) else old(gates.Value())
      ensures Appended(recorder.store,
                       if r.Completed? then Some(EventOf(gate, "exit", id, n))
                       else if r.why == J.NotFound then None
                       else Some(EventOf(gate, "exit-failed", id, n)), n.disk)
      ensures recorder.store != null ==>
        var before, after := old(LogText(recorder.store, gate)), LogText(recorder.store, gate);
        && (r.Completed? ==> Gained(before, after, gate, "exit", id, n))
        && (r.Failed? && r.why != J.NotFound ==> Gained(before, after, gate, "exit-failed", id, n))
        && (r.Failed? && r.why == J.NotFound ==> after == before)
    {
      ghost var before := LogText(recorder.store, gate);
      J.LeaveKeepsFiled(validator.Value(), id, gate, at, p, undo);
      var rec := validator.store.Lookup(id);
      if rec.None? {
        return J.Failed(J.NotFound);
      }
      J.LeaveIsValidatedThenUndone(validator.Value(), id, gate, at, p, undo);
      r := validator.ValidateExit(rec.value, gate, at, p);
      if r.Failed? {
        FailExit(id, gate, undo, faultAt, n);
        return;
      }
      var _ := recorder.Record(EventOf(gate, "exit", id, n), n.disk);
      if recorder.store != null {
        EventIsGained(before, LogText(recorder.store, gate), gate, "exit", id, n);
      }
    }
  }
}
