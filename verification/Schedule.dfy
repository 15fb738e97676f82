// The gate scheduler (internal/gate/schedule.go): one pass over the entries, in
// whatever order the map yields them, each opening or closing its gate.
module Schedule {
  import opened Maps
  import A = Actuation
  import C = Controller
  import G = Gates
  import P = Passage

  datatype Entry = Entry(gateID: string, openAt: int, closeAt: int, enabled: bool)

  // What the actuator and the sensor of a gate answer during the pass, and the text
  // of an actuator's error.
  datatype Answer = Answer(actuated: bool, confirmed: bool, why: string)

  type Sensors = string -> Answer

  // The clock readings of the call made for each gate.
  type Clocks = string -> A.Times

  datatype Site = Site(store: G.Store, counter: P.Counter) {
    function State(gate: string): G.GateState { store.Get(gate).state }
  }

  predicate Due(at: int, now: int) {
    at > 0 && now >= at
  }

  predicate BothDue(e: Entry, now: int) {
    e.enabled && Due(e.openAt, now) && Due(e.closeAt, now)
  }

  // What an entry asks for, given the state its gate had when it was looked at.
  function JobOf(e: Entry, state: G.GateState, now: int, sensors: Sensors, t: Clocks): Option<A.Job> {
    var ans := sensors(e.gateID);
    if !e.enabled then None
    else if Due(e.openAt, now) && state != G.Open then Some(A.OpenJob(e.gateID, ans.actuated, ans.confirmed, t(e.gateID)))
    else if Due(e.closeAt, now) && state == G.Open then Some(A.CloseJob(e.gateID, ans.actuated, ans.confirmed, t(e.gateID)))
    else None
  }

  function Visit(site: Site, e: Entry, now: int, sensors: Sensors, t: Clocks): (Site, seq<string>) {
    if !e.enabled then (site, []) else
    var looked := Site(G.Apply(site.store, G.Read(e.gateID)), site.counter);
    var job := JobOf(e, site.State(e.gateID), now, sensors, t);
    if job.None? then (looked, []) else
    var o := A.Perform(looked.store, looked.counter, job.value);
    (Site(o.store, o.counter),
     if !o.ok then [] else [if job.value.OpenJob? then OpenAction(e.gateID) else CloseAction(e.gateID)])
  }

  // How the list of actions names an opened and a closed gate.
  function OpenAction(gate: string): string {
    "open:" + gate
  }

  function CloseAction(gate: string): string {
    "close:" + gate
  }

  lemma ActionsDiffer(a: string, b: string)
    ensures OpenAction(a) == OpenAction(b) ==> a == b
    ensures CloseAction(a) == CloseAction(b) ==> a == b
    ensures OpenAction(a) != CloseAction(b)
  {
    assert OpenAction(a)[5..] == a && OpenAction(b)[5..] == b;
    assert CloseAction(a)[6..] == a && CloseAction(b)[6..] == b;
    assert OpenAction(a)[0] != CloseAction(b)[0];
  }

  function Pass(site: Site, order: seq<Entry>, now: int, sensors: Sensors, t: Clocks): (Site, seq<string>) {
    if order == [] then (site, []) else
    var (before, actions) := Pass(site, order[..|order| - 1], now, sensors, t);
    var (after, more) := Visit(before, order[|order| - 1], now, sensors, t);
    (after, actions + more)
  }

  // ---------- What a pass does to a gate ----------

  predicate AtRest(state: G.GateState) {
    !G.Moving(state)
  }

  // Where an entry takes a gate at rest when its actuator and sensor work.
  function Target(e: Entry, now: int, state: G.GateState): G.GateState {
    if !e.enabled then state
    else if Due(e.openAt, now) && state == G.Closed then G.Open
    else if Due(e.closeAt, now) && state == G.Open then G.Closed
    else state
  }

  // The action that takes a gate at rest from one state to another.
  function Moves(gate: string, from: G.GateState, to: G.GateState): seq<string> {
    if from == to then [] else if to == G.Open then [OpenAction(gate)] else [CloseAction(gate)]
  }

  // How often the list says that a gate was opened, and closed.
  function Openings(actions: seq<string>, gate: string): nat {
    multiset(actions)[OpenAction(gate)]
  }

  function Closings(actions: seq<string>, gate: string): nat {
    multiset(actions)[CloseAction(gate)]
  }

  lemma MovesNamed(gate: string, from: G.GateState, to: G.GateState, other: string)
    ensures Openings(Moves(gate, from, to), other) == Bit(gate == other && from != to && to == G.Open)
    ensures Closings(Moves(gate, from, to), other) == Bit(gate == other && from != to && to != G.Open)
  {
    ActionsDiffer(gate, other);
    ActionsDiffer(other, gate);
  }

  predicate Works(sensors: Sensors, gate: string) {
    sensors(gate).actuated && sensors(gate).confirmed
  }

  predicate OncePerGate(order: seq<Entry>) {
    forall i, j :: 0 <= i < j < |order| ==> order[i].gateID != order[j].gateID
  }

  lemma VisitMoves(site: Site, e: Entry, now: int, sensors: Sensors, t: Clocks, gate: string)
    ensures var (after, actions) := Visit(site, e, now, sensors, t);
            && |actions| <= 1
            && (gate != e.gateID ==> after.State(gate) == site.State(gate))
            && (AtRest(site.State(e.gateID)) && Works(sensors, e.gateID) ==>
                  && after.State(e.gateID) == Target(e, now, site.State(e.gateID))
                  && actions == Moves(e.gateID, site.State(e.gateID), Target(e, now, site.State(e.gateID))))
            && (gate in site.store.statuses ==> gate in after.store.statuses)
            && (e.enabled ==> e.gateID in after.store.statuses)
  {
    var looked := G.Apply(site.store, G.Read(e.gateID));
    var job := JobOf(e, site.State(e.gateID), now, sensors, t);
    if e.enabled && job.Some? {
      A.JobMoves(looked, site.counter, job.value, gate);
      A.JobMoves(looked, site.counter, job.value, e.gateID);
      if gate in looked.statuses {
        PerformKnows(looked, site.counter, job.value, gate);
      }
      PerformKnows(looked, site.counter, job.value, e.gateID);
    }
  }

  lemma PerformKnows(s: G.Store, c: P.Counter, job: A.Job, gate: string)
    requires gate in s.statuses
    ensures gate in A.Perform(s, c, job).store.statuses
  {
  }

  // The gate's entry in the list, if any.
  function EntryOf(order: seq<Entry>, gate: string): Option<Entry> {
    if order == [] then None
    else if order[|order| - 1].gateID == gate then Some(order[|order| - 1])
    else EntryOf(order[..|order| - 1], gate)
  }

  lemma {:induction false} EntryOfMember(order: seq<Entry>, gate: string)
    ensures EntryOf(order, gate).Some? ==> EntryOf(order, gate).value in order && EntryOf(order, gate).value.gateID == gate
    ensures OncePerGate(order) ==> forall e :: e in order && e.gateID == gate ==> EntryOf(order, gate) == Some(e)
  {
    if order != [] {
      EntryOfMember(order[..|order| - 1], gate);
      if order[|order| - 1].gateID == gate && OncePerGate(order) {
        forall e | e in order && e.gateID == gate ensures e == order[|order| - 1] {
          var i :| 0 <= i < |order| && order[i] == e;
        }
      }
    }
  }

  function Aim(order: seq<Entry>, now: int, gate: string, state: G.GateState): G.GateState {
    var e := EntryOf(order, gate);
    if e.Some? then Target(e.value, now, state) else state
  }

  // Each gate ends where its own entry takes it from where it started, so the
  // order of the entries does not matter; nothing is done exactly when no gate
  // has to move.
  lemma {:induction false} PassMoves(site: Site, order: seq<Entry>, now: int, sensors: Sensors, t: Clocks, gate: string)
    requires OncePerGate(order)
    requires forall e :: e in order ==> AtRest(site.State(e.gateID)) && Works(sensors, e.gateID)
    ensures var (after, actions) := Pass(site, order, now, sensors, t);
            && after.State(gate) == Aim(order, now, gate, site.State(gate))
            && |actions| <= |order|
            && (actions == [] <==>
                  forall e :: e in order ==> Target(e, now, site.State(e.gateID)) == site.State(e.gateID))
            && (gate in site.store.statuses ==> gate in after.store.statuses)
  {
    if order != [] {
      var front, last := order[..|order| - 1], order[|order| - 1];
      PassMoves(site, front, now, sensors, t, gate);
      PassMoves(site, front, now, sensors, t, last.gateID);
      EntryOfMember(front, last.gateID);
      var before := Pass(site, front, now, sensors, t).0;
      assert before.State(last.gateID) == site.State(last.gateID);
      VisitMoves(before, last, now, sensors, t, gate);
      assert forall e :: e in order <==> e in front || e == last;
    }
  }

  // The actions name each gate once if it had to move, by the move it made, and
  // not at all otherwise.
  lemma {:induction false} ActionsNameMoves(site: Site, order: seq<Entry>, now: int, sensors: Sensors, t: Clocks, gate: string)
    requires OncePerGate(order)
    requires forall e :: e in order ==> AtRest(site.State(e.gateID)) && Works(sensors, e.gateID)
    ensures var (after, actions) := Pass(site, order, now, sensors, t);
            && Openings(actions, gate) == Bit(site.State(gate) != G.Open && after.State(gate) == G.Open)
            && Closings(actions, gate) == Bit(site.State(gate) == G.Open && after.State(gate) != G.Open)
  {
    if order != [] {
      var front, last := order[..|order| - 1], order[|order| - 1];
      ActionsNameMoves(site, front, now, sensors, t, gate);
      PassMoves(site, front, now, sensors, t, last.gateID);
      EntryOfMember(front, last.gateID);
      var (before, actions) := Pass(site, front, now, sensors, t);
      assert before.State(last.gateID) == site.State(last.gateID);
      VisitNames(before, last, now, sensors, t, gate);
    }
  }

  lemma VisitNames(site: Site, e: Entry, now: int, sensors: Sensors, t: Clocks, gate: string)
    requires AtRest(site.State(e.gateID)) && Works(sensors, e.gateID)
    ensures var (after, actions) := Visit(site, e, now, sensors, t);
            && Openings(actions, gate) == Bit(site.State(gate) != G.Open && after.State(gate) == G.Open)
            && Closings(actions, gate) == Bit(site.State(gate) == G.Open && after.State(gate) != G.Open)
            && (gate != e.gateID ==> after.State(gate) == site.State(gate))
  {
    VisitMoves(site, e, now, sensors, t, gate);
    MovesNamed(e.gateID, site.State(e.gateID), Target(e, now, site.State(e.gateID)), gate);
  }

  lemma TargetSettles(e: Entry, now: int, state: G.GateState)
    requires AtRest(state)
    ensures AtRest(Target(e, now, state))
    ensures Target(e, now, Target(e, now, state)) == Target(e, now, state) <==> !BothDue(e, now)
  {
  }

  lemma IdleVisit(site: Site, e: Entry, now: int, sensors: Sensors, t: Clocks)
    requires AtRest(site.State(e.gateID)) && Target(e, now, site.State(e.gateID)) == site.State(e.gateID)
    requires e.enabled ==> e.gateID in site.store.statuses
    ensures Visit(site, e, now, sensors, t) == (site, [])
  {
    if e.enabled {
      A.ReadKnown(site.store, e.gateID);
      assert JobOf(e, site.State(e.gateID), now, sensors, t) == None;
    }
  }

  // A pass that takes no action on gates it has seen before leaves everything as it is.
  lemma {:induction false} QuietPassIsIdle(site: Site, order: seq<Entry>, now: int, sensors: Sensors, t: Clocks)
    requires forall e :: e in order ==>
      && AtRest(site.State(e.gateID)) && Works(sensors, e.gateID)
      && (e.enabled ==> e.gateID in site.store.statuses)
      && Target(e, now, site.State(e.gateID)) == site.State(e.gateID)
    ensures Pass(site, order, now, sensors, t) == (site, [])
  {
    if order != [] {
      var last := order[|order| - 1];
      QuietPassIsIdle(site, order[..|order| - 1], now, sensors, t);
      IdleVisit(site, last, now, sensors, t);
      var none: seq<string> := [];
      assert none + none == [];
    }
  }

  lemma {:induction false} PassKnows(site: Site, order: seq<Entry>, now: int, sensors: Sensors, t: Clocks, gate: string)
    ensures gate in site.store.statuses ==> gate in Pass(site, order, now, sensors, t).0.store.statuses
    ensures (exists e :: e in order && e.enabled && e.gateID == gate) ==>
              gate in Pass(site, order, now, sensors, t).0.store.statuses
  {
    if order != [] {
      var front, last := order[..|order| - 1], order[|order| - 1];
      PassKnows(site, front, now, sensors, t, gate);
      VisitMoves(Pass(site, front, now, sensors, t).0, last, now, sensors, t, gate);
      if e :| e in order && e.enabled && e.gateID == gate && e != last {
        assert e in front;
      }
    }
  }

  // With gates at rest and working devices, a second pass at the same time, in
  // any order, does nothing at all if and only if no entry has both times due.
  lemma OnePassSettlesIff(site: Site, order: seq<Entry>, again: seq<Entry>, now: int, sensors: Sensors, t: Clocks, t2: Clocks)
    requires OncePerGate(order) && OncePerGate(again)
    requires forall e :: e in order <==> e in again
    requires forall e :: e in order ==> AtRest(site.State(e.gateID)) && Works(sensors, e.gateID)
    ensures var after := Pass(site, order, now, sensors, t).0;
            var (end, actions) := Pass(after, again, now, sensors, t2);
            && (actions == [] <==> forall e :: e in order ==> !BothDue(e, now))
            && (actions == [] ==> end == after)
  {
    var after := Pass(site, order, now, sensors, t).0;
    forall e | e in order
      ensures after.State(e.gateID) == Target(e, now, site.State(e.gateID))
      ensures AtRest(after.State(e.gateID))
      ensures Target(e, now, after.State(e.gateID)) == after.State(e.gateID) <==> !BothDue(e, now)
      ensures e.enabled ==> e.gateID in after.store.statuses
    {
      PassMoves(site, order, now, sensors, t, e.gateID);
      EntryOfMember(order, e.gateID);
      TargetSettles(e, now, site.State(e.gateID));
      PassKnows(site, order, now, sensors, t, e.gateID);
    }
    PassMoves(after, again, now, sensors, t2, "");
    var actions := Pass(after, again, now, sensors, t2).1;
    if actions == [] {
      QuietPassIsIdle(after, again, now, sensors, t2);
    }
  }

  // ---------- A pass in the entry's own numbers ----------

  // Where one entry takes its gate, in whatever state it is and whatever the
  // devices answer: from Closed to Open when the opening time is set and not in
  // the future and the devices work; from Open to Closed when the same holds of
  // the closing time, and also when they fail, as a failed close recovers there.
  // Only what worked is named.
  lemma VisitInNumbers(site: Site, e: Entry, now: int, sensors: Sensors, t: Clocks, gate: string)
    ensures var (after, actions) := Visit(site, e, now, sensors, t);
            var before, state := site.State(gate), after.State(gate);
            var works := sensors(gate).actuated && sensors(gate).confirmed;
            var opens := e.enabled && e.openAt > 0 && e.openAt <= now && before == G.Closed && works;
            var closes := e.enabled && e.closeAt > 0 && e.closeAt <= now && before == G.Open;
            && (gate == e.gateID ==>
                  && state == (if opens then G.Open else if closes then G.Closed else before)
                  && Openings(actions, gate) == Bit(opens)
                  && Closings(actions, gate) == Bit(closes && works))
            && (gate != e.gateID ==> state == before && Openings(actions, gate) == Closings(actions, gate) == 0)
  {
    ActionsDiffer(e.gateID, gate);
    ActionsDiffer(gate, e.gateID);
    var looked := G.Apply(site.store, G.Read(e.gateID));
    G.FaultAndReadEffect(site.store, e.gateID, 0);
    var job := JobOf(e, site.State(e.gateID), now, sensors, t);
    if e.enabled && job.Some? {
      A.JobMoves(looked, site.counter, job.value, gate);
      A.JobMoves(looked, site.counter, job.value, e.gateID);
    }
  }

  lemma {:induction false} PassElsewhere(site: Site, order: seq<Entry>, now: int, sensors: Sensors, t: Clocks, gate: string)
    requires forall e :: e in order ==> e.gateID != gate
    ensures var (after, actions) := Pass(site, order, now, sensors, t);
            after.State(gate) == site.State(gate) && Openings(actions, gate) == Closings(actions, gate) == 0
  {
    if order != [] {
      var front, last := order[..|order| - 1], order[|order| - 1];
      PassElsewhere(site, front, now, sensors, t, gate);
      VisitInNumbers(Pass(site, front, now, sensors, t).0, last, now, sensors, t, gate);
    }
  }

  // A whole pass does to each gate what its own entry does, whatever the order,
  // the states and the devices of the others.
  lemma {:induction false} PassInNumbers(site: Site, order: seq<Entry>, e: Entry, now: int, sensors: Sensors, t: Clocks)
    requires OncePerGate(order) && e in order
    ensures var (after, actions) := Pass(site, order, now, sensors, t);
            var before, works := site.State(e.gateID), sensors(e.gateID).actuated && sensors(e.gateID).confirmed;
            var opens := e.enabled && e.openAt > 0 && e.openAt <= now && before == G.Closed && works;
            var closes := e.enabled && e.closeAt > 0 && e.closeAt <= now && before == G.Open;
            && after.State(e.gateID) == (if opens then G.Open else if closes then G.Closed else before)
            && Openings(actions, e.gateID) == Bit(opens)
            && Closings(actions, e.gateID) == Bit(closes && works)
  {
    var front, last := order[..|order| - 1], order[|order| - 1];
    if e == last {
      PassElsewhere(site, front, now, sensors, t, e.gateID);
    } else {
      PassInNumbers(site, front, e, now, sensors, t);
    }
    VisitInNumbers(Pass(site, front, now, sensors, t).0, last, now, sensors, t, e.gateID);
  }

  // Whatever the devices answer and in whatever states the gates are: an entry
  // without a closing time never takes its gate out of Open and is never named as
  // closing it, one without an opening time never takes it into Open, and a
  // disabled one does neither.
  lemma VisitNever(site: Site, e: Entry, now: int, sensors: Sensors, t: Clocks, gate: string)
    ensures var (after, actions) := Visit(site, e, now, sensors, t);
            var before, state := site.State(gate), after.State(gate);
            && (gate != e.gateID ==>
                  state == before && Openings(actions, gate) == 0 && Closings(actions, gate) == 0)
            && (e.closeAt <= 0 || now < e.closeAt || !e.enabled ==>
                  Closings(actions, gate) == 0 && (before == G.Open ==> state == G.Open))
            && (e.openAt <= 0 || now < e.openAt || !e.enabled ==>
                  Openings(actions, gate) == 0 && (state == G.Open ==> before == G.Open))
            && Openings(actions, gate) == Bit(before != G.Open && state == G.Open)
  {
    VisitInNumbers(site, e, now, sensors, t, gate);
  }

  lemma {:induction false} PassNever(site: Site, order: seq<Entry>, now: int, sensors: Sensors, t: Clocks, gate: string)
    requires forall e :: e in order && e.gateID == gate ==> e.closeAt <= 0 || now < e.closeAt || !e.enabled
    ensures var (after, actions) := Pass(site, order, now, sensors, t);
            && Closings(actions, gate) == 0
            && (site.State(gate) == G.Open ==> after.State(gate) == G.Open)
            && Openings(actions, gate) == Bit(site.State(gate) != G.Open && after.State(gate) == G.Open)
  {
    if order != [] {
      var front, last := order[..|order| - 1], order[|order| - 1];
      PassNever(site, front, now, sensors, t, gate);
      var before := Pass(site, front, now, sensors, t).0;
      assert last in order;
      VisitNever(before, last, now, sensors, t, gate);
    }
  }

  // One pass after another: the order of the entries, the time, and what the
  // devices and clocks give.
  datatype Round = Round(order: seq<Entry>, now: int, sensors: Sensors, t: Clocks)

  ghost function Rounds(site: Site, rounds: seq<Round>): (Site, seq<string>) {
    if rounds == [] then (site, []) else
    var (before, actions) := Rounds(site, rounds[..|rounds| - 1]);
    var last := rounds[|rounds| - 1];
    var (after, more) := Pass(before, last.order, last.now, last.sensors, last.t);
    (after, actions + more)
  }

  // Over any number of passes, at any times and whatever the devices answer, a
  // gate whose entries have no closing time is opened at most once, stays open
  // from then on and is never closed.
  lemma {:induction false} OpenedOnceAndKept(site: Site, rounds: seq<Round>, gate: string)
    requires forall i :: 0 <= i < |rounds| ==>
      forall e :: e in rounds[i].order && e.gateID == gate ==> e.closeAt <= 0
    ensures var (after, actions) := Rounds(site, rounds);
            && Closings(actions, gate) == 0
            && (site.State(gate) == G.Open ==> after.State(gate) == G.Open)
            && Openings(actions, gate) == Bit(site.State(gate) != G.Open && after.State(gate) == G.Open)
  {
    if rounds != [] {
      var front, last := rounds[..|rounds| - 1], rounds[|rounds| - 1];
      OpenedOnceAndKept(site, front, gate);
      assert last == rounds[|rounds| - 1];
      PassNever(Rounds(site, front).0, last.order, last.now, last.sensors, last.t, gate);
    }
  }

  // ---------- The scheduler ----------

  // The entries of the map, in some order.
  ghost predicate Listing(entries: map<string, Entry>, order: seq<Entry>) {
    && (forall e :: e in order ==> e.gateID in entries && entries[e.gateID] == e)
    && (forall id :: id in entries ==> entries[id] in order)
    && OncePerGate(order)
  }

  class Scheduler {
    const store: G.GateStore
    var entries: map<string, Entry>

    constructor (store: G.GateStore)
      ensures this.store == store && entries == map[]
    {
      this.store, this.entries := store, map[];
    }

    // One entry per gate, filed under it.
    ghost predicate Valid()
      reads this
    {
      forall id :: id in entries ==> entries[id].gateID == id
    }

    method Add(e: Entry)
      requires Valid()
      modifies this
      ensures Valid() && entries == old(entries)[e.gateID := e.(enabled := true)]
    {
      entries := entries[e.gateID := e.(enabled := true)];
    }

    method List() returns (order: seq<Entry>)
      requires Valid()
      ensures Listing(entries, order)
    {
      order := [];
      var ids := entries.Keys;
      while ids != {}
        invariant ids <= entries.Keys
        invariant forall e :: e in order ==> e.gateID in entries.Keys - ids && entries[e.gateID] == e
        invariant forall id :: id in entries.Keys - ids ==> entries[id] in order
        invariant OncePerGate(order)
        decreases ids
      {
        var id :| id in ids;
        order := order + [entries[id]];
        ids := ids - {id};
      }
    }

    // Both tests use the state read at the start, so at most one of them acts.
    method VisitEntry(e: Entry, now: int, ctrl: C.Controller, sensors: Sensors, t: Clocks, n: string -> C.Note)
      returns (actions: seq<string>)
      requires ctrl.Valid() && ctrl.gates == store
      modifies store, ctrl.counter`totals, ctrl.counter`sessions, ctrl.counter`confirmedAt, ctrl.recorder.store
      ensures (Site(store.Value(), ctrl.counter.Value()), actions)
              == Visit(Site(old(store.Value()), old(ctrl.counter.Value())), e, now, sensors, t)
      ensures ctrl.recorder.store != null ==>
        var before, after := old(C.LogText(ctrl.recorder.store, e.gateID)), C.LogText(ctrl.recorder.store, e.gateID);
        var state, ans, note := old(store.Value()).Get(e.gateID).state, sensors(e.gateID), n(e.gateID);
        var opens := e.enabled && e.openAt > 0 && e.openAt <= now && state == G.Closed;
        var closes := e.enabled && e.closeAt > 0 && e.closeAt <= now && state == G.Open;
        && (opens && !ans.actuated ==> C.Gained(before, after, e.gateID, "open-failed", ans.why, note))
        && (opens && ans.actuated && ans.confirmed ==> C.Gained(before, after, e.gateID, "open", "", note))
        && (closes && !ans.actuated ==> C.Gained(before, after, e.gateID, "close-failed", ans.why, note))
        && (closes && ans.actuated && ans.confirmed ==> C.Gained(before, after, e.gateID, "close", "", note))
        && ((!opens && !closes) || (ans.actuated && !ans.confirmed) ==> after == before)
    {
      actions := [];
      if !e.enabled {
        return;
      }
      var current := store.Status(e.gateID);
      var ans := sensors(e.gateID);
      if e.openAt > 0 && now >= e.openAt && current.state != G.Open {
        var ok := ctrl.Open(e.gateID, ans.actuated, ans.confirmed, ans.why, t(e.gateID), n(e.gateID));
        if ok {
          actions := [OpenAction(e.gateID)];
        }
      }
      if e.closeAt > 0 && now >= e.closeAt && current.state == G.Open {
        var ok := ctrl.Close(e.gateID, ans.actuated, ans.confirmed, ans.why, t(e.gateID), n(e.gateID));
        if ok {
          actions := [CloseAction(e.gateID)];
        }
      }
    }

    method RunOnce(now: int, ctrl: C.Controller, sensors: Sensors, t: Clocks, n: string -> C.Note)
      returns (actions: seq<string>, ghost order: seq<Entry>)
      requires Valid() && ctrl.Valid() && ctrl.gates == store
      modifies store, ctrl.counter`totals, ctrl.counter`sessions, ctrl.counter`confirmedAt, ctrl.recorder.store
      ensures Listing(entries, order)
      ensures (Site(store.Value(), ctrl.counter.Value()), actions)
              == Pass(Site(old(store.Value()), old(ctrl.counter.Value())), order, now, sensors, t)
    {
      var list := List();
      order := list;
      actions := [];
      ghost var site := Site(store.Value(), ctrl.counter.Value());
      for i := 0 to |list|
        invariant ctrl.Valid()
        invariant (Site(store.Value(), ctrl.counter.Value()), actions) == Pass(site, list[..i], now, sensors, t)
      {
        assert list[..i + 1][..i] == list[..i];
        var more := VisitEntry(list[i], now, ctrl, sensors, t, n);
        actions := actions + more;
      }
      assert list[..|list|] == list;
    }
  }
}
