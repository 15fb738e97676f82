// Two sequences of effects of the server: a swipe request (cmd/afc/handlers.go)
// and one tick of the snapshot loop (cmd/afc/server.go).
module Server {
  import opened Maps
  import A = Actuation
  import C = Controller
  import G = Gates
  import J = Journey
  import L = EventLog
  import P = Passage
  import R = Restart
  import S = Stats
  import T = Tickets

  datatype Response = Ok | BadRequest | Conflict | Unavailable

  // The whole line of an event reaches its file.
  predicate Takes(d: L.Disk, e: L.Event) {
    d.opens && d.written >= |L.Line(e) + "\n"|
  }

  // The devices of the gate, and the text of an actuator's error.
  datatype Device = Device(actuated: bool, confirmed: bool, why: string)

  // An append that writes its line whole or not at all.
  predicate Settles(e: L.Event, d: L.Disk) {
    L.Clean(e) && (Takes(d, e) || !d.opens || d.written == 0)
  }

  function EntryEvent(gate: string, id: string, n: C.Note): L.Event {
    C.EventOf(gate, "entry", id, n)
  }

  // The line that Open leaves in the log, if it has one and the file takes it.
  function OpenLine(state: G.GateState, gate: string, device: Device, n: C.Note): Option<L.Event> {
    var e := C.OpenEvent(state == G.Closed, device.actuated, device.confirmed, gate, device.why, n);
    if e.Some? && Takes(n.disk, e.value) then e else None
  }

  // Every line that an entry swipe may write settles.
  predicate SwipeSettles(gate: string, id: string, entry: C.Note, device: Device, opening: C.Note) {
    && Settles(EntryEvent(gate, id, entry), entry.disk)
    && OpenSettles(gate, device, opening)
  }

  predicate OpenSettles(gate: string, device: Device, n: C.Note) {
    && Settles(C.EventOf(gate, "open", "", n), n.disk)
    && Settles(C.EventOf(gate, "open-failed", device.why, n), n.disk)
  }

  ghost predicate SameLogs(a: map<string, string>, b: map<string, string>) {
    forall g :: R.LogOf(a, g) == R.LogOf(b, g)
  }

  function After(logs: map<string, string>, e: Option<L.Event>): map<string, string> {
    if e.Some? then R.Logged(logs, e.value) else logs
  }

  lemma AfterSame(a: map<string, string>, b: map<string, string>, e: Option<L.Event>)
    requires SameLogs(a, b)
    ensures SameLogs(After(a, e), After(b, e))
  {
    if e.Some? {
      forall g ensures R.LogOf(After(a, e), g) == R.LogOf(After(b, e), g) {
        assert R.LogOf(a, g) == R.LogOf(b, g) && R.LogOf(a, e.value.gateID) == R.LogOf(b, e.value.gateID);
      }
    }
  }

  // What an append that settles does to the logs.
  lemma AppendedLogs(before: map<string, string>, after: map<string, string>, e: Option<L.Event>, d: L.Disk)
    requires e.Some? ==> Settles(e.value, d)
    requires e.None? || !d.opens ==> SameLogs(after, before)
    requires e.Some? && d.opens ==>
      && (forall g :: g != e.value.gateID ==> R.LogOf(after, g) == R.LogOf(before, g))
      && var line := L.Line(e.value) + "\n";
         R.LogOf(after, e.value.gateID) == R.LogOf(before, e.value.gateID) + line[..L.Landed(d, line)]
    ensures SameLogs(after, After(before, if e.Some? && Takes(d, e.value) then e else None))
  {
    if e.Some? && d.opens {
      var line := L.Line(e.value) + "\n";
      assert line[..|line|] == line && line[..0] == "";
      assert R.LogOf(before, e.value.gateID) + "" == R.LogOf(before, e.value.gateID);
    }
  }

  // An event that a reader finds counts as an entry exactly when its kind says so.
  lemma GainedEntries(before: string, after: string, gate: string, kind: string, payload: string, n: C.Note)
    requires C.Gained(before, after, gate, kind, payload, n) && C.Room(gate, kind, payload, n) && L.Whole(before)
    ensures L.Whole(after) && R.Entries(after) == R.Entries(before) + Bit(kind == "entry")
  {
    var got := L.ParseLog(after);
    R.CountConcat(got[..|got| - 1], [got[|got| - 1]]);
    assert got == got[..|got| - 1] + [got[|got| - 1]];
    assert [got[|got| - 1]][..0] == [];
  }

  // HandleEntry and Open, with what they add to the logs.
  method Admit(ctrl: C.Controller, id: string, group: string, gate: string, c: J.Clock, p: T.Persist, n: C.Note)
    returns (r: J.EntryResult)
    requires ctrl.Filed()
    modifies ctrl.validator.store, ctrl.validator.dedup, ctrl.recorder.store
    ensures ctrl.Filed()
    ensures (ctrl.validator.Value(), r)
            == J.Enter(ctrl.validator.dedup.ttl, old(ctrl.validator.Value()), id, group, gate, c, p)
    ensures ctrl.recorder.store != null && Settles(EntryEvent(gate, id, n), n.disk) ==>
      SameLogs(ctrl.recorder.store.files,
               After(old(ctrl.recorder.store.files),
                     if r.Accepted? && Takes(n.disk, EntryEvent(gate, id, n)) then Some(EntryEvent(gate, id, n)) else None))
    ensures ctrl.recorder.store != null && C.Room(gate, "entry", id, n) && old(L.Whole(C.LogText(ctrl.recorder.store, gate))) ==>
      && L.Whole(C.LogText(ctrl.recorder.store, gate))
      && R.Entries(C.LogText(ctrl.recorder.store, gate))
         == old(R.Entries(C.LogText(ctrl.recorder.store, gate))) + Bit(r.Accepted?)
  {
    ghost var text := C.LogText(ctrl.recorder.store, gate);
    ghost var logs := if ctrl.recorder.store != null then ctrl.recorder.store.files else map[];
    r := ctrl.HandleEntry(id, group, gate, c, p, n);
    if ctrl.recorder.store != null && Settles(EntryEvent(gate, id, n), n.disk) {
      FilesShow(ctrl.recorder.store);
      AppendedLogs(logs, ctrl.recorder.store.files,
                   if r.Accepted? then Some(EntryEvent(gate, id, n)) else None, n.disk);
    }
    if ctrl.recorder.store != null && r.Accepted? && C.Room(gate, "entry", id, n) && L.Whole(text) {
      GainedEntries(text, C.LogText(ctrl.recorder.store, gate), gate, "entry", id, n);
    }
  }

  lemma FilesShow(store: L.EventFileStore)
    ensures forall g :: store.Log(g) == R.LogOf(store.files, g)
  {
  }

  predicate OpenRoom(gate: string, device: Device, n: C.Note) {
    C.Room(gate, "open", "", n) && C.Room(gate, "open-failed", device.why, n)
  }

  lemma OpenEntries(before: string, after: string, claimed: bool, gate: string, device: Device, n: C.Note)
    requires claimed && !device.actuated ==> C.Gained(before, after, gate, "open-failed", device.why, n)
    requires claimed && device.actuated && device.confirmed ==> C.Gained(before, after, gate, "open", "", n)
    requires !claimed || (device.actuated && !device.confirmed) ==> after == before
    ensures OpenRoom(gate, device, n) && L.Whole(before) ==> L.Whole(after) && R.Entries(after) == R.Entries(before)
  {
    if OpenRoom(gate, device, n) && L.Whole(before) && claimed {
      if !device.actuated {
        GainedEntries(before, after, gate, "open-failed", device.why, n);
      } else if device.confirmed {
        GainedEntries(before, after, gate, "open", "", n);
      }
    }
  }

  method OpenGate(ctrl: C.Controller, gate: string, device: Device, t: A.Times, n: C.Note) returns (ok: bool)
    requires ctrl.Valid()
    modifies ctrl.gates, ctrl.counter`totals, ctrl.counter`sessions, ctrl.counter`confirmedAt, ctrl.recorder.store
    ensures ctrl.Outcome(ok) == A.OpenAlone(old(ctrl.gates.Value()), old(ctrl.counter.Value()), gate,
                                            device.actuated, device.confirmed, t)
    ensures ctrl.recorder.store != null && OpenSettles(gate, device, n) ==>
      SameLogs(ctrl.recorder.store.files,
               After(old(ctrl.recorder.store.files), OpenLine(old(ctrl.gates.Value()).Get(gate).state, gate, device, n)))
    ensures ctrl.recorder.store != null && OpenRoom(gate, device, n) && old(L.Whole(C.LogText(ctrl.recorder.store, gate))) ==>
      && L.Whole(C.LogText(ctrl.recorder.store, gate))
      && R.Entries(C.LogText(ctrl.recorder.store, gate)) == old(R.Entries(C.LogText(ctrl.recorder.store, gate)))
  {
    ghost var text := C.LogText(ctrl.recorder.store, gate);
    ghost var logs := if ctrl.recorder.store != null then ctrl.recorder.store.files else map[];
    ghost var claimed := ctrl.gates.Value().Get(gate).state == G.Closed;
    ghost var e := C.OpenEvent(claimed, device.actuated, device.confirmed, gate, device.why, n);
    ok := ctrl.Open(gate, device.actuated, device.confirmed, device.why, t, n);
    if ctrl.recorder.store != null && OpenSettles(gate, device, n) {
      FilesShow(ctrl.recorder.store);
      AppendedLogs(logs, ctrl.recorder.store.files, e, n.disk);
    }
    if ctrl.recorder.store != null {
      OpenEntries(text, C.LogText(ctrl.recorder.store, gate), claimed, gate, device, n);
    }
  }

  // The logs after an accepted entry swipe are those of the step system of the
  // restart theorems for one swipe with nothing in between.
  ghost predicate SwipeLogged(before: map<string, string>, after: map<string, string>,
                              e: L.Event, written: bool, opening: Option<L.Event>, ok: bool) {
    SameLogs(after, R.Swiped(R.START.(logs := before), e, written, opening, ok).logs)
  }

  lemma SwipeLogs(before: map<string, string>, admitted: map<string, string>, after: map<string, string>,
                  e: L.Event, written: bool, opening: Option<L.Event>, ok: bool)
    requires SameLogs(admitted, After(before, if written then Some(e) else None))
    requires SameLogs(after, After(admitted, opening))
    ensures SwipeLogged(before, after, e, written, opening, ok)
  {
    AfterSame(admitted, After(before, if written then Some(e) else None), opening);
  }

  // An entry swipe enters the ticket, then opens the gate, and only then counts.
  twostate predicate EntryAdmitted(ctrl: C.Controller, id: string, group: string, gate: string, c: J.Clock, p: T.Persist,
                                   admitted: bool)
    reads ctrl.validator, ctrl.validator.store, ctrl.validator.dedup, ctrl.validator.rules
  {
    (ctrl.validator.Value(), admitted)
    == (var (h, r) := J.Enter(ctrl.validator.dedup.ttl, old(ctrl.validator.Value()), id, group, gate, c, p);
        (h, r.Accepted?))
  }

  twostate predicate GateOpened(ctrl: C.Controller, gate: string, device: Device, t: A.Times, admitted: bool, ok: bool)
    reads ctrl.gates, ctrl.counter
  {
    if !admitted then ctrl.gates.Value() == old(ctrl.gates.Value()) && ctrl.counter.Value() == old(ctrl.counter.Value())
    else ctrl.Outcome(ok) == A.OpenAlone(old(ctrl.gates.Value()), old(ctrl.counter.Value()), gate,
                                         device.actuated, device.confirmed, t)
  }

  twostate predicate EntryLogged(ctrl: C.Controller, id: string, gate: string, entry: C.Note, device: Device,
                                 opening: C.Note, admitted: bool, ok: bool)
    reads ctrl.recorder.store, ctrl.gates
  {
    ctrl.recorder.store != null && SwipeSettles(gate, id, entry, device, opening) ==>
      if !admitted then SameLogs(ctrl.recorder.store.files, old(ctrl.recorder.store.files))
      else SwipeLogged(old(ctrl.recorder.store.files), ctrl.recorder.store.files,
                       EntryEvent(gate, id, entry), Takes(entry.disk, EntryEvent(gate, id, entry)),
                       OpenLine(old(ctrl.gates.Value()).Get(gate).state, gate, device, opening), ok)
  }

  // With room for the lines, the log of the gate gains one entry exactly when the
  // ticket was accepted.
  twostate predicate EntryCounted(ctrl: C.Controller, id: string, gate: string, entry: C.Note, device: Device,
                                  opening: C.Note, admitted: bool)
    reads ctrl.recorder.store
  {
    ctrl.recorder.store != null && C.Room(gate, "entry", id, entry) && OpenRoom(gate, device, opening)
    && old(L.Whole(C.LogText(ctrl.recorder.store, gate))) ==>
      && L.Whole(C.LogText(ctrl.recorder.store, gate))
      && R.Entries(C.LogText(ctrl.recorder.store, gate))
         == old(R.Entries(C.LogText(ctrl.recorder.store, gate))) + Bit(admitted)
  }

  method AdmitAndOpen(ctrl: C.Controller, id: string, group: string, gate: string,
                      c: J.Clock, p: T.Persist, entry: C.Note, device: Device, t: A.Times, opening: C.Note)
    returns (admitted: bool, ok: bool)
    requires ctrl.Valid() && ctrl.Filed()
    modifies ctrl.validator.store, ctrl.validator.dedup, ctrl.recorder.store, ctrl.gates,
             ctrl.counter`totals, ctrl.counter`sessions, ctrl.counter`confirmedAt
    ensures ctrl.Filed() && (ok ==> admitted)
    ensures EntryAdmitted(ctrl, id, group, gate, c, p, admitted)
    ensures GateOpened(ctrl, gate, device, t, admitted, ok)
    ensures EntryLogged(ctrl, id, gate, entry, device, opening, admitted, ok)
    ensures EntryCounted(ctrl, id, gate, entry, device, opening, admitted)
  {
    var r := Admit(ctrl, id, group, gate, c, p, entry);
    if r.Refused? {
      return false, false;
    }
    ghost var logs := if ctrl.recorder.store != null then ctrl.recorder.store.files else map[];
    ghost var line := OpenLine(ctrl.gates.Value().Get(gate).state, gate, device, opening);
    ok := OpenGate(ctrl, gate, device, t, opening);
    if ctrl.recorder.store != null && SwipeSettles(gate, id, entry, device, opening) {
      SwipeLogs(old(ctrl.recorder.store.files), logs, ctrl.recorder.store.files,
                EntryEvent(gate, id, entry), Takes(entry.disk, EntryEvent(gate, id, entry)), line, ok);
    }
    admitted := true;
  }

  twostate predicate EntrySwiped(ctrl: C.Controller, stats: S.StatsService, id: string, group: string, gate: string,
                                 c: J.Clock, p: T.Persist, entry: C.Note, device: Device, t: A.Times, opening: C.Note,
                                 resp: Response)
    reads ctrl.validator, ctrl.validator.store, ctrl.validator.dedup, ctrl.validator.rules, ctrl.recorder.store,
          ctrl.gates, ctrl.counter, stats
  {
    && resp != BadRequest
    && EntryAdmitted(ctrl, id, group, gate, c, p, resp != Conflict)
    && GateOpened(ctrl, gate, device, t, resp != Conflict, resp == Ok)
    && EntryLogged(ctrl, id, gate, entry, device, opening, resp != Conflict, resp == Ok)
    && EntryCounted(ctrl, id, gate, entry, device, opening, resp != Conflict)
    && At(stats.pending, "CH-" + gate) == old(At(stats.pending, "CH-" + gate)) + Bit(resp == Ok)
    && stats.Value() == (if resp == Ok then S.Recorded(old(stats.Value()), R.Channel(gate), 1) else old(stats.Value()))
  }

  method SwipeEntry(ctrl: C.Controller, stats: S.StatsService, id: string, group: string, gate: string,
                    c: J.Clock, p: T.Persist, entry: C.Note, device: Device, t: A.Times, opening: C.Note)
    returns (resp: Response)
    requires ctrl.Valid() && ctrl.Filed()
    modifies ctrl.validator.store, ctrl.validator.dedup, ctrl.recorder.store, ctrl.gates,
             ctrl.counter`totals, ctrl.counter`sessions, ctrl.counter`confirmedAt, stats`pending
    ensures ctrl.Filed()
    ensures EntrySwiped(ctrl, stats, id, group, gate, c, p, entry, device, t, opening, resp)
  {
    var admitted, ok := AdmitAndOpen(ctrl, id, group, gate, c, p, entry, device, t, opening);
    if !admitted {
      return Conflict;
    }
    if !ok {
      return Unavailable;
    }
    stats.RecordPassage(R.Channel(gate), 1);
    return Ok;
  }

  // The log of the gate gains one entry exactly when the ticket was accepted and
  // the line was written; the statistics gain one when the gate opened too.
  lemma SwipedEntries(w: R.World, e: L.Event, written: bool, opening: Option<L.Event>, ok: bool)
    requires L.Clean(e) && e.kind == "entry" && L.Whole(R.LogOf(w.logs, e.gateID))
    requires opening.Some? ==> L.Clean(opening.value) && opening.value.kind != "entry"
    ensures var q := R.Swiped(w, e, written, opening, ok);
            && R.Entries(R.LogOf(q.logs, e.gateID)) == R.Entries(R.LogOf(w.logs, e.gateID)) + Bit(written)
            && S.Worth(q.stats, "CH-" + e.gateID) == S.Worth(w.stats, "CH-" + e.gateID) + Bit(ok)
            && At(q.lost, e.gateID) == At(w.lost, e.gateID) + Bit(!ok)
            && At(q.dropped, e.gateID) == At(w.dropped, e.gateID) + Bit(!written)
            && q.swipes == w.swipes
  {
    R.LoggedEntries(w.logs, e, e.gateID);
    if opening.Some? {
      R.LoggedEntries(if written then R.Logged(w.logs, e) else w.logs, opening.value, e.gateID);
    }
  }

  // An exit swipe leaves the counter and the statistics alone; when it fails for
  // a known ticket the gate takes a fault.
  twostate predicate ExitSwiped(ctrl: C.Controller, stats: S.StatsService, id: string, gate: string, at: int,
                                p: T.Persist, undo: T.Persist, faultAt: int, n: C.Note, resp: Response)
    reads ctrl.validator, ctrl.validator.store, ctrl.validator.dedup, ctrl.validator.rules, ctrl.recorder.store, ctrl.gates,
          ctrl.counter, stats
  {
    var (h, r) := J.Leave(old(ctrl.validator.Value()), id, gate, at, p, undo);
    && ctrl.validator.Value() == h
    && resp == (if r.Completed? then Ok else Conflict)
    && ctrl.gates.Value() == (if r.Failed? && r.why != J.NotFound
                              then G.Apply(old(ctrl.gates.Value()), G.Fault(gate, faultAt)) else old(ctrl.gates.Value()))
    && ctrl.counter.Value() == old(ctrl.counter.Value()) && stats.Value() == old(stats.Value())
    && C.Appended(ctrl.recorder.store,
                  if r.Completed? then Some(C.EventOf(gate, "exit", id, n))
                  else if r.why == J.NotFound then None
                  else Some(C.EventOf(gate, "exit-failed", id, n)), n.disk)
  }

  // Checks of the request, defaults, and the two actions. `home` is the group the
  // registry gives for the gate.
  method Swipe(ctrl: C.Controller, stats: S.StatsService, ticketNo: string, action: string, gateID: string,
               gateGroup: string, home: string -> string, c: J.Clock, p: T.Persist, undo: T.Persist,
               note: C.Note, device: Device, t: A.Times, opening: C.Note)
    returns (resp: Response)
    requires ctrl.Valid() && ctrl.Filed()
    modifies ctrl.validator.store, ctrl.validator.dedup, ctrl.recorder.store, ctrl.gates,
             ctrl.counter`totals, ctrl.counter`sessions, ctrl.counter`confirmedAt, stats`pending
    ensures ctrl.Filed()
    ensures resp == BadRequest <==> ticketNo == "" || (action != "entry" && action != "exit")
    ensures resp == BadRequest ==>
      && ctrl.validator.Value() == old(ctrl.validator.Value()) && ctrl.gates.Value() == old(ctrl.gates.Value())
      && ctrl.counter.Value() == old(ctrl.counter.Value()) && stats.Value() == old(stats.Value())
      && C.Appended(ctrl.recorder.store, None, note.disk)
    ensures var gate := if gateID == "" then "G-DEFAULT" else gateID;
            var group := if gateGroup == "" then home(gate) else gateGroup;
            && (resp != BadRequest && action == "entry" ==>
                  EntrySwiped(ctrl, stats, ticketNo, group, gate, c, p, note, device, t, opening, resp))
            && (resp != BadRequest && action == "exit" ==>
                  ExitSwiped(ctrl, stats, ticketNo, gate, c.mark, p, undo, c.set', note, resp))
  {
    if ticketNo == "" {
      return BadRequest;
    }
    var gate := if gateID == "" then "G-DEFAULT" else gateID;
    var group := if gateGroup == "" then home(gate) else gateGroup;
    if action == "entry" {
      resp := SwipeEntry(ctrl, stats, ticketNo, group, gate, c, p, note, device, t, opening);
    } else if action == "exit" {
      var r := ctrl.HandleExit(ticketNo, gate, c.mark, p, undo, c.set', note);
      resp := if r.Completed? then Ok else Conflict;
    } else {
      resp := BadRequest;
    }
  }

  // The last snapshot of the gate's channel shows its current count and total.
  predicate Snapped(stats: S.StatsService, channels: S.ChannelRegistry, gate: string)
    reads stats, channels
  {
    var channel := "CH-" + gate;
    var snap := S.LastOf(channels.history, channel);
    && snap.Some?
    && snap.value.total == At(stats.totals, channel)
    && snap.value.counted == At(stats.counted, channel)
  }

  // One tick of the snapshot loop.
  method SnapshotTick(stats: S.StatsService, sessions: P.SessionLedger, counter: P.PassageCounter,
                      gates: G.GateStore, channels: S.ChannelRegistry, name: string, stamp: int)
    requires S.Indexed(channels.Value())
    modifies stats`totals, stats`pending, sessions, counter`sessions, channels
    ensures stats.Value() == S.Flushed(old(stats.Value()))
    ensures forall b: P.Books ::
      b.counter == old(counter.Value()) && b.ledger == old(sessions.Value()) && b.tick.Idle? ==>
        var l := P.Advance(name, stamp);
        var e := P.Step(P.Step(P.Step(b, l), l), l);
        e.tick.Idle? && counter.Value() == e.counter && sessions.Value() == e.ledger
    ensures S.Indexed(channels.Value()) && old(channels.history) <= channels.history
    ensures |channels.history| == |old(channels.history)| + |gates.statuses|
    ensures forall gate :: gate in gates.statuses ==> Snapped(stats, channels, gate)
  {
    stats.FlushPending();
    var counts := counter.Snapshot();
    var _ := sessions.Save(name, counts, stamp);
    counter.ResetSession();
    SnapshotChannels(stats, gates, channels, stamp);
  }

  // Each channel's own count and total go into the registry, in any order.
  method SnapshotChannels(stats: S.StatsService, gates: G.GateStore, channels: S.ChannelRegistry, stamp: int)
    requires S.Indexed(channels.Value())
    modifies channels
    ensures S.Indexed(channels.Value()) && old(channels.history) <= channels.history
    ensures |channels.history| == |old(channels.history)| + |gates.statuses|
    ensures forall gate :: gate in gates.statuses ==> Snapped(stats, channels, gate)
  {
    var ids := gates.statuses.Keys;
    while ids != {}
      invariant ids <= gates.statuses.Keys
      invariant S.Indexed(channels.Value()) && old(channels.history) <= channels.history
      invariant |channels.history| == |old(channels.history)| + |gates.statuses| - |ids|
      invariant forall gate :: gate in gates.statuses.Keys - ids ==> Snapped(stats, channels, gate)
      decreases ids
    {
      var id :| id in ids;
      SnapshotGate(stats, gates.statuses.Keys - ids, id, channels, stamp);
      ids := ids - {id};
    }
  }

  method SnapshotGate(stats: S.StatsService, ghost done: set<string>, id: string, channels: S.ChannelRegistry, stamp: int)
    requires S.Indexed(channels.Value())
    requires forall gate :: gate in done ==> Snapped(stats, channels, gate)
    modifies channels
    ensures S.Indexed(channels.Value()) && old(channels.history) <= channels.history
    ensures |channels.history| == |old(channels.history)| + 1
    ensures forall gate :: gate in done + {id} ==> Snapped(stats, channels, gate)
  {
    var channel := R.Channel(id);
    ghost var before := channels.history;
    S.TakingKeepsIndexed(channels.Value(), channel, At(stats.counted, channel), At(stats.totals, channel), stamp);
    var item := channels.SnapshotChannel(channel, At(stats.counted, channel), At(stats.totals, channel), stamp);
    assert channels.history[..|channels.history| - 1] == before;
    forall gate | gate in done + {id} ensures Snapped(stats, channels, gate) {
      R.ChannelsDiffer(gate, id);
      if gate != id {
        assert S.LastOf(channels.history, R.Channel(gate)) == S.LastOf(before, R.Channel(gate));
      }
    }
  }
}
