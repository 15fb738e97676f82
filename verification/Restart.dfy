// Entries, the event log and the channel totals across restarts: the order of
// effects of a swipe (cmd/afc/handlers.go) and the replay loop that rebuilds the
// totals (cmd/afc/server.go).
module Restart {
  import opened Maps
  import opened EventLog
  import D = Decimal
  import S = Stats

  // The channel of a gate registered without one, and of every swipe.
  function Channel(gate: string): string {
    "CH-" + gate
  }

  lemma ChannelsDiffer(a: string, b: string)
    ensures Channel(a) == Channel(b) ==> a == b
  {
    assert Channel(a)[3..] == a && Channel(b)[3..] == b;
  }

  function CountEntries(events: seq<Event>): nat {
    if events == [] then 0
    else CountEntries(events[..|events| - 1]) + Bit(events[|events| - 1].kind == "entry")
  }

  function Entries(text: string): nat {
    CountEntries(ParseLog(text))
  }

  lemma {:induction false} CountConcat(a: seq<Event>, b: seq<Event>)
    ensures CountEntries(a + b) == CountEntries(a) + CountEntries(b)
  {
    if b == [] {
      assert a + b == a;
    } else {
      CountConcat(a, b[..|b| - 1]);
      assert (a + b)[..|a + b| - 1] == a + b[..|b| - 1];
    }
  }

  // ---------- The replay ----------

  function ReplayEvents(s: S.Totals, channel: string, events: seq<Event>): S.Totals {
    if events == [] then s else
    var before := ReplayEvents(s, channel, events[..|events| - 1]);
    if events[|events| - 1].kind == "entry" then S.Replayed(before, channel, 1) else before
  }

  function LogOf(logs: map<string, string>, gate: string): string {
    if gate in logs then logs[gate] else ""
  }

  function Rebuilt(s: S.Totals, registered: seq<string>, logs: map<string, string>): S.Totals {
    if registered == [] then s else
    var gate := registered[|registered| - 1];
    ReplayEvents(Rebuilt(s, registered[..|registered| - 1], logs), Channel(gate), ParseLog(LogOf(logs, gate)))
  }

  lemma {:induction false} ReplayCounts(s: S.Totals, channel: string, events: seq<Event>, other: string)
    requires At(s.counted, channel) <= 0
    ensures var e := ReplayEvents(s, channel, events);
            && e.counted == s.counted && e.pending == s.pending
            && At(e.totals, other) ==
               At(s.totals, other) + if other == channel then CountEntries(events) else 0
  {
    if events != [] {
      ReplayCounts(s, channel, events[..|events| - 1], other);
    }
  }

  // The rebuilt total of a gate's channel is what was there plus the entries of
  // its log; rebuilding on top of a recovered total would count them twice.
  lemma {:induction false} RebuiltTotals(s: S.Totals, registered: seq<string>, logs: map<string, string>, gate: string)
    requires forall c :: At(s.counted, c) <= 0
    requires forall i, j :: 0 <= i < j < |registered| ==> registered[i] != registered[j]
    ensures var e := Rebuilt(s, registered, logs);
            && e.counted == s.counted && e.pending == s.pending
            && At(e.totals, Channel(gate)) ==
               At(s.totals, Channel(gate)) + if gate in registered then Entries(LogOf(logs, gate)) else 0
  {
    if registered != [] {
      var front, last := registered[..|registered| - 1], registered[|registered| - 1];
      RebuiltTotals(s, front, logs, gate);
      ReplayCounts(Rebuilt(s, front, logs), Channel(last), ParseLog(LogOf(logs, last)), Channel(gate));
      ChannelsDiffer(last, gate);
    }
  }

  // ---------- Runs with restarts ----------

  datatype Stage = Admitted | Passed

  datatype Swipe = Swipe(gate: string, stage: Stage)

  // Since the last restart, `lost` counts the admitted swipes of a gate whose
  // Open failed, which never reach the statistics, and `dropped` those whose entry
  // line was not written, which nobody looks at.
  datatype World = World(
    logs: map<string, string>,
    stats: S.Totals,
    swipes: map<nat, Swipe>,
    lost: map<string, int>,
    dropped: map<string, int>)

  datatype Label =
    | Admit(id: nat, e: Event, written: bool)  // HandleEntry accepted; the append may have failed
    | OpenGate(id: nat, ok: bool)              // Open returned
    | Count(id: nat)                           // the swipe is recorded in the statistics
    | Other(e: Event)                          // any other event line
    | Flush
    | Reboot                                   // memory is gone; the totals are rebuilt

  function Logged(logs: map<string, string>, e: Event): map<string, string> {
    logs[e.gateID := LogOf(logs, e.gateID) + (Line(e) + "\n")]
  }

  function Step(w: World, registered: seq<string>, l: Label): World {
    match l
    case Admit(id, e, written) =>
      if id in w.swipes || e.kind != "entry" then w
      else w.(logs := if written then Logged(w.logs, e) else w.logs,
              dropped := if written then w.dropped else Plus(w.dropped, e.gateID, 1),
              swipes := w.swipes[id := Swipe(e.gateID, Admitted)])
    case OpenGate(id, ok) =>
      if id !in w.swipes || w.swipes[id].stage != Admitted then w
      else if ok then w.(swipes := w.swipes[id := Swipe(w.swipes[id].gate, Passed)])
      else w.(swipes := w.swipes - {id}, lost := Plus(w.lost, w.swipes[id].gate, 1))
    case Count(id) =>
      if id !in w.swipes || w.swipes[id].stage != Passed then w
      else w.(stats := S.Recorded(w.stats, Channel(w.swipes[id].gate), 1), swipes := w.swipes - {id})
    case Other(e) => if e.kind == "entry" then w else w.(logs := Logged(w.logs, e))
    case Flush => w.(stats := S.Flushed(w.stats))
    case Reboot => World(w.logs, Rebuilt(S.NOTHING, registered, w.logs), map[], map[], map[])
  }

  function Run(w: World, registered: seq<string>, labels: seq<Label>): World {
    if labels == [] then w
    else Step(Run(w, registered, labels[..|labels| - 1]), registered, labels[|labels| - 1])
  }

  const START: World := World(map[], S.NOTHING, map[], map[], map[])

  function UnderWay(swipes: map<nat, Swipe>, gate: string): set<nat> {
    set id | id in swipes && swipes[id].gate == gate
  }

  // A swipe counts only after its gate opened, and once: before that Count does
  // nothing, after it a second opening does nothing.
  lemma SwipeOrder(w: World, registered: seq<string>, id: nat, ok: bool)
    ensures id !in w.swipes ==> Step(w, registered, OpenGate(id, ok)) == w && Step(w, registered, Count(id)) == w
    ensures id in w.swipes && w.swipes[id].stage == Admitted ==>
      var q := Step(w, registered, OpenGate(id, ok));
      && Step(w, registered, Count(id)) == w
      && q.stats == w.stats
      && (ok ==> id in q.swipes && q.swipes[id] == Swipe(w.swipes[id].gate, Passed) && q.lost == w.lost)
      && (!ok ==> id !in q.swipes && At(q.lost, w.swipes[id].gate) == At(w.lost, w.swipes[id].gate) + 1)
    ensures id in w.swipes && w.swipes[id].stage == Passed ==>
      var q := Step(w, registered, Count(id));
      && Step(w, registered, OpenGate(id, ok)) == w
      && id !in q.swipes && q.lost == w.lost
      && At(q.stats.pending, "CH-" + w.swipes[id].gate) == At(w.stats.pending, "CH-" + w.swipes[id].gate) + 1
  {
  }

  lemma SwipeRemoved(swipes: map<nat, Swipe>, id: nat, gate: string)
    requires id in swipes
    ensures |UnderWay(swipes - {id}, gate)| == |UnderWay(swipes, gate)| - Bit(swipes[id].gate == gate)
  {
    assert UnderWay(swipes - {id}, gate) == UnderWay(swipes, gate) - {id};
  }

  lemma SwipePlaced(swipes: map<nat, Swipe>, id: nat, swipe: Swipe, gate: string)
    requires id in swipes ==> swipes[id].gate == swipe.gate
    ensures |UnderWay(swipes[id := swipe], gate)|
            == |UnderWay(swipes, gate)| + Bit(id !in swipes && swipe.gate == gate)
  {
    assert UnderWay(swipes[id := swipe], gate)
        == UnderWay(swipes, gate) + if swipe.gate == gate then {id} else {};
  }

  // The entries in the log of a gate and those that were not written make up what
  // is counted, pending, under way or lost.
  ghost predicate Accounted(w: World, gate: string) {
    && Whole(LogOf(w.logs, gate))
    && (forall c :: At(w.stats.counted, c) <= 0)
    && Entries(LogOf(w.logs, gate)) + At(w.dropped, gate)
       == S.Worth(w.stats, Channel(gate)) + |UnderWay(w.swipes, gate)| + At(w.lost, gate)
    && At(w.lost, gate) >= 0 && At(w.dropped, gate) >= 0
  }

  predicate CleanLabel(l: Label) {
    (l.Admit? || l.Other?) ==> Clean(l.e)
  }

  lemma LoggedEntries(logs: map<string, string>, e: Event, gate: string)
    requires Clean(e) && Whole(LogOf(logs, gate))
    ensures var after := LogOf(Logged(logs, e), gate);
            && Whole(after)
            && Entries(after) == Entries(LogOf(logs, gate)) + Bit(e.gateID == gate && e.kind == "entry")
  {
    if e.gateID == gate {
      LogGrowsByOne(LogOf(logs, gate), e);
      CountConcat(ParseLog(LogOf(logs, gate)), [e]);
      assert [e][..0] == [];
    }
  }

  // Swipes under way, counted or lost: what a swipe that moves on leaves unchanged.
  function Passing(w: World, gate: string): int {
    |UnderWay(w.swipes, gate)| + S.Worth(w.stats, Channel(gate)) + At(w.lost, gate)
  }

  lemma OpenMoves(w: World, registered: seq<string>, l: Label, gate: string)
    requires l.OpenGate?
    ensures var q := Step(w, registered, l);
            && q.logs == w.logs && q.stats == w.stats && q.dropped == w.dropped
            && At(q.lost, gate) >= At(w.lost, gate)
            && Passing(q, gate) == Passing(w, gate)
  {
    if l.id in w.swipes {
      SwipeRemoved(w.swipes, l.id, gate);
      SwipePlaced(w.swipes, l.id, Swipe(w.swipes[l.id].gate, Passed), gate);
    }
  }

  lemma CountMoves(w: World, registered: seq<string>, l: Label, gate: string)
    requires l.Count?
    ensures var q := Step(w, registered, l);
            && q.logs == w.logs && q.stats.counted == w.stats.counted && q.dropped == w.dropped && q.lost == w.lost
            && Passing(q, gate) == Passing(w, gate)
  {
    if l.id in w.swipes {
      SwipeRemoved(w.swipes, l.id, gate);
      CountedWorth(w.stats, w.swipes[l.id].gate, gate);
    }
  }

  lemma CountedWorth(s: S.Totals, gate: string, other: string)
    ensures S.Worth(S.Recorded(s, Channel(gate), 1), Channel(other))
            == S.Worth(s, Channel(other)) + Bit(gate == other)
  {
    ChannelsDiffer(gate, other);
  }

  lemma AppendKeepsAccounts(w: World, registered: seq<string>, l: Label, gate: string)
    requires l.Admit? || l.Other?
    requires CleanLabel(l) && Accounted(w, gate)
    ensures Accounted(Step(w, registered, l), gate)
  {
    var q := Step(w, registered, l);
    LoggedEntries(w.logs, l.e, gate);
    if l.Admit? && l.id !in w.swipes {
      SwipePlaced(w.swipes, l.id, Swipe(l.e.gateID, Admitted), gate);
    }
  }

  lemma StepKeepsAccounts(w: World, registered: seq<string>, l: Label, gate: string)
    requires gate in registered
    requires forall i, j :: 0 <= i < j < |registered| ==> registered[i] != registered[j]
    requires CleanLabel(l) && Accounted(w, gate)
    ensures Accounted(Step(w, registered, l), gate)
  {
    var q := Step(w, registered, l);
    match l
    case Admit(_, _, _) => AppendKeepsAccounts(w, registered, l, gate);
    case Other(_) => AppendKeepsAccounts(w, registered, l, gate);
    case OpenGate(_, _) => OpenMoves(w, registered, l, gate);
    case Count(_) => CountMoves(w, registered, l, gate);
    case Flush =>
      S.FlushSettles(w.stats, Channel(gate));
    case Reboot =>
      RebuiltTotals(S.NOTHING, registered, w.logs, gate);
      assert UnderWay(q.swipes, gate) == {};
  }

  lemma {:induction false} EntriesAccounted(w: World, registered: seq<string>, labels: seq<Label>, gate: string)
    requires gate in registered
    requires forall i, j :: 0 <= i < j < |registered| ==> registered[i] != registered[j]
    requires forall l :: l in labels ==> CleanLabel(l)
    requires Accounted(w, gate)
    ensures Accounted(Run(w, registered, labels), gate)
  {
    if labels != [] {
      EntriesAccounted(w, registered, labels[..|labels| - 1], gate);
      StepKeepsAccounts(Run(w, registered, labels[..|labels| - 1]), registered, labels[|labels| - 1], gate);
    }
  }

  lemma RunAccounted(registered: seq<string>, labels: seq<Label>, gate: string)
    requires gate in registered
    requires forall i, j :: 0 <= i < j < |registered| ==> registered[i] != registered[j]
    requires forall l :: l in labels ==> CleanLabel(l)
    ensures Accounted(Run(START, registered, labels), gate)
  {
    EmptyParses();
    assert UnderWay(START.swipes, gate) == {};
    EntriesAccounted(START, registered, labels, gate);
  }

  lemma RebootLowersIff(w: World, registered: seq<string>, gate: string)
    requires gate in registered
    requires forall i, j :: 0 <= i < j < |registered| ==> registered[i] != registered[j]
    requires Accounted(w, gate)
    ensures var after := Step(w, registered, Reboot);
            && S.Worth(after.stats, Channel(gate)) == Entries(LogOf(w.logs, gate))
            && (S.Worth(after.stats, Channel(gate)) < S.Worth(w.stats, Channel(gate))
                <==> At(w.dropped, gate) > |UnderWay(w.swipes, gate)| + At(w.lost, gate))
  {
    RebuiltTotals(S.NOTHING, registered, w.logs, gate);
  }

  // At every point of every run, a restart gives a registered gate's channel
  // exactly the number of entries in its log. So it lowers the channel if and only
  // if more entries were left unwritten than swipes are under way or lost.
  lemma RestartLowersIff(registered: seq<string>, labels: seq<Label>, gate: string)
    requires gate in registered
    requires forall i, j :: 0 <= i < j < |registered| ==> registered[i] != registered[j]
    requires forall l :: l in labels ==> CleanLabel(l)
    ensures var w := Run(START, registered, labels);
            var after := Step(w, registered, Reboot);
            && S.Worth(after.stats, Channel(gate)) == Entries(LogOf(w.logs, gate))
            && (S.Worth(after.stats, Channel(gate)) < S.Worth(w.stats, Channel(gate))
                <==> At(w.dropped, gate) > |UnderWay(w.swipes, gate)| + At(w.lost, gate))
  {
    RunAccounted(registered, labels, gate);
    RebootLowersIff(Run(START, registered, labels), registered, gate);
  }

  lemma {:induction false} NothingDropped(w: World, registered: seq<string>, labels: seq<Label>)
    requires w.dropped == map[] && forall l :: l in labels && l.Admit? ==> l.written
    ensures Run(w, registered, labels).dropped == map[]
  {
    if labels != [] {
      NothingDropped(w, registered, labels[..|labels| - 1]);
      assert labels[|labels| - 1] in labels;
    }
  }

  lemma RebootKeeps(w: World, registered: seq<string>, gate: string)
    requires gate in registered
    requires forall i, j :: 0 <= i < j < |registered| ==> registered[i] != registered[j]
    requires Accounted(w, gate) && w.dropped == map[]
    ensures var after := Step(w, registered, Reboot);
            && S.Worth(after.stats, Channel(gate)) == Entries(LogOf(w.logs, gate))
            && S.Worth(after.stats, Channel(gate)) >= S.Worth(w.stats, Channel(gate))
  {
    RebootLowersIff(w, registered, gate);
  }

  // When every entry line was written, a restart never lowers a channel.
  lemma RestartNeverLowers(registered: seq<string>, labels: seq<Label>, gate: string)
    requires gate in registered
    requires forall i, j :: 0 <= i < j < |registered| ==> registered[i] != registered[j]
    requires forall l :: l in labels ==> CleanLabel(l) && (l.Admit? ==> l.written)
    ensures var w := Run(START, registered, labels);
            var after := Step(w, registered, Reboot);
            && S.Worth(after.stats, Channel(gate)) == Entries(LogOf(w.logs, gate))
            && S.Worth(after.stats, Channel(gate)) >= S.Worth(w.stats, Channel(gate))
  {
    NothingDropped(START, registered, labels);
    RunAccounted(registered, labels, gate);
    RebootKeeps(Run(START, registered, labels), registered, gate);
  }

  // Even when the machine stops in the middle of appending a line, at most the
  // entry being appended is added.
  lemma CrashWhileAppending(w: World, registered: seq<string>, e: Event, cut: nat, gate: string)
    requires gate in registered
    requires forall i, j :: 0 <= i < j < |registered| ==> registered[i] != registered[j]
    requires Accounted(w, gate) && Clean(e) && e.gateID == gate && cut <= |Line(e)|
    ensures var torn := w.logs[gate := LogOf(w.logs, gate) + Line(e)[..cut]];
            var total := S.Worth(Rebuilt(S.NOTHING, registered, torn), Channel(gate));
            && S.Worth(w.stats, Channel(gate)) - At(w.dropped, gate) <= Entries(LogOf(w.logs, gate)) <= total
            && total <= Entries(LogOf(w.logs, gate)) + Bit(e.kind == "entry")
  {
    var log := LogOf(w.logs, gate);
    var torn := w.logs[gate := log + Line(e)[..cut]];
    TornLine(e, cut);
    LineStandsAlone(Line(e)[..cut]);
    ParseAppends(log, Line(e)[..cut]);
    var tail := ParseLine(Line(e)[..cut]);
    CountConcat(ParseLog(log), tail);
    assert tail == [] || (|tail| == 1 && tail[..0] == [] && tail[0].kind == e.kind);
    RebuiltTotals(S.NOTHING, registered, torn, gate);
  }

  lemma OneLineEntries(log: string, line: string)
    requires Whole(log) && '\n' !in line
    ensures Entries(log + (line + "\n")) == Entries(log) + CountEntries(ParseLine(line))
    ensures Entries(log + line) == Entries(log) + CountEntries(ParseLine(line))
  {
    LineStandsAlone(line);
    ParseAppends(log, line + "\n");
    ParseAppends(log, line);
    CountConcat(ParseLog(log), ParseLine(line));
  }

  lemma AtMostOneEntry(got: seq<Event>)
    requires |got| <= 1
    ensures CountEntries(got) == Bit(got != [] && got[0].kind == "entry")
  {
    if got != [] {
      assert got[..0] == [];
    }
  }

  lemma TornEntries(log: string, e0: Event, cut: nat)
    requires Whole(log) && Clean(e0) && cut <= |Line(e0)|
    ensures Entries(log + Line(e0)[..cut]) == Entries(log) + Bit(FieldOfCut(e0, cut) >= 4 && e0.kind == "entry")
  {
    LastFieldCut(e0, cut);
    TornLine(e0, cut);
    OneLineEntries(log, Line(e0)[..cut]);
    AtMostOneEntry(ParseLine(Line(e0)[..cut]));
  }

  lemma GluedEntries(log: string, e0: Event, cut: nat, e: Event)
    requires Whole(log) && Clean(e0) && Clean(e) && cut <= |Line(e0)|
    ensures FieldOfCut(e0, cut) <= 4
    ensures Entries(log + (Line(e0)[..cut] + Line(e) + "\n"))
            == Entries(log) + Bit(GluedKindIs("entry", Line(e0)[..cut], FieldOfCut(e0, cut), e0, e))
  {
    GluedLine(e0, cut, e, "entry");
    OneLineEntries(log, Line(e0)[..cut] + Line(e));
    AtMostOneEntry(ParseLine(Line(e0)[..cut] + Line(e)));
  }

  // The theorem above covers one restart. When a log stays torn, the next line
  // runs into the torn one, and an entry then adds one exactly when: the cut fell
  // in the time and what the two times make together still reads as a time; or in
  // the gate, and the new gate is called "entry"; or in the payload, and the torn
  // line was an entry itself.
  lemma EntryAfterTornTailIff(log: string, e0: Event, cut: nat, e: Event)
    requires Whole(log) && Clean(e0) && Clean(e) && cut <= |Line(e0)|
    ensures var torn, field := log + Line(e0)[..cut], FieldOfCut(e0, cut);
            var after := log + (Line(e0)[..cut] + Line(e) + "\n");
            && field <= 4
            && Entries(torn) == Entries(log) + Bit(field == 4 && e0.kind == "entry")
            && Entries(after) == Entries(log) + Bit(GluedKindIs("entry", Line(e0)[..cut], field, e0, e))
            && (e.kind == "entry" ==>
                  (Entries(after) == Entries(torn) + 1 <==>
                     match field
                     case 0 => D.ParseInt(Line(e0)[..cut] + D.Print(e.at)).Some?
                     case 1 => e.gateID == "entry"
                     case 3 => e0.kind == "entry"
                     case _ => false))
  {
    TornEntries(log, e0, cut);
    GluedEntries(log, e0, cut, e);
  }

  // ---------- One swipe at a time ----------

  // What an accepted entry swipe leaves behind when nothing comes in between: its
  // entry line if it was written, the line of Open if there is one, and a passage
  // counted or lost.
  function Swiped(w: World, e: Event, written: bool, opening: Option<Event>, ok: bool): World {
    var logs := if written then Logged(w.logs, e) else w.logs;
    World(if opening.Some? then Logged(logs, opening.value) else logs,
          if ok then S.Recorded(w.stats, Channel(e.gateID), 1) else w.stats,
          w.swipes,
          if ok then w.lost else Plus(w.lost, e.gateID, 1),
          if written then w.dropped else Plus(w.dropped, e.gateID, 1))
  }

  function SwipeLabels(id: nat, e: Event, written: bool, opening: Option<Event>, ok: bool): seq<Label> {
    [Admit(id, e, written)] + (if opening.Some? then [Other(opening.value)] else []) + [OpenGate(id, ok), Count(id)]
  }

  lemma RunSnoc(w: World, registered: seq<string>, labels: seq<Label>, l: Label)
    ensures Run(w, registered, labels + [l]) == Step(Run(w, registered, labels), registered, l)
  {
    assert (labels + [l])[..|labels|] == labels;
  }

  lemma SwipeBegins(w: World, registered: seq<string>, id: nat, e: Event, written: bool, opening: Option<Event>)
    requires id !in w.swipes && e.kind == "entry" && (opening.Some? ==> opening.value.kind != "entry")
    ensures Run(w, registered, [Admit(id, e, written)] + if opening.Some? then [Other(opening.value)] else []) ==
            var begun := Step(w, registered, Admit(id, e, written));
            begun.(logs := if opening.Some? then Logged(begun.logs, opening.value) else begun.logs)
  {
    RunSnoc(w, registered, [], Admit(id, e, written));
    if opening.Some? {
      RunSnoc(w, registered, [Admit(id, e, written)], Other(opening.value));
    } else {
      assert [Admit(id, e, written)] + [] == [Admit(id, e, written)];
    }
  }

  lemma SwipeEnds(w: World, registered: seq<string>, id: nat, ok: bool)
    requires id in w.swipes && w.swipes[id].stage == Admitted
    ensures var gate := w.swipes[id].gate;
            Step(Step(w, registered, OpenGate(id, ok)), registered, Count(id)) ==
            w.(swipes := w.swipes - {id},
               stats := if ok then S.Recorded(w.stats, Channel(gate), 1) else w.stats,
               lost := if ok then w.lost else Plus(w.lost, gate, 1))
  {
    assert w.swipes[id := Swipe(w.swipes[id].gate, Passed)] - {id} == w.swipes - {id};
  }

  lemma SwipeAloneIsARun(w: World, registered: seq<string>, id: nat, e: Event, written: bool, opening: Option<Event>, ok: bool)
    requires id !in w.swipes && e.kind == "entry" && (opening.Some? ==> opening.value.kind != "entry")
    ensures Run(w, registered, SwipeLabels(id, e, written, opening, ok)) == Swiped(w, e, written, opening, ok)
  {
    var begun := [Admit(id, e, written)] + if opening.Some? then [Other(opening.value)] else [];
    SwipeBegins(w, registered, id, e, written, opening);
    SwipeEnds(Run(w, registered, begun), registered, id, ok);
    RunSnoc(w, registered, begun, OpenGate(id, ok));
    RunSnoc(w, registered, begun + [OpenGate(id, ok)], Count(id));
    assert SwipeLabels(id, e, written, opening, ok) == begun + [OpenGate(id, ok)] + [Count(id)];
    assert w.swipes[id := Swipe(e.gateID, Admitted)] - {id} == w.swipes;
  }

  // The loops of BuildApplication over the registered gates and their events.
  method ReplayAll(registered: seq<string>, events: EventFileStore, stats: S.StatsService)
    modifies stats`totals
    ensures stats.Value() == Rebuilt(old(stats.Value()), registered, events.files)
    ensures (forall c :: At(stats.counted, c) <= 0)
            && (forall i, j :: 0 <= i < j < |registered| ==> registered[i] != registered[j]) ==>
      forall gate :: gate in registered ==>
        At(stats.totals, "CH-" + gate) == old(At(stats.totals, "CH-" + gate)) + Entries(events.Log(gate))
  {
    ghost var before := stats.Value();
    for i := 0 to |registered|
      invariant stats.Value() == Rebuilt(old(stats.Value()), registered[..i], events.files)
    {
      var evs := events.Events(registered[i]);
      assert registered[..i + 1][..i] == registered[..i];
      ReplayGate(Channel(registered[i]), evs, stats);
    }
    assert registered[..|registered|] == registered;
    if (forall c :: At(stats.counted, c) <= 0)
       && (forall i, j :: 0 <= i < j < |registered| ==> registered[i] != registered[j]) {
      forall gate | gate in registered
        ensures At(stats.totals, "CH-" + gate) == At(before.totals, "CH-" + gate) + Entries(events.Log(gate))
      {
        RebuiltTotals(before, registered, events.files, gate);
      }
    }
  }

  method ReplayGate(channel: string, evs: seq<Event>, stats: S.StatsService)
    modifies stats`totals
    ensures stats.Value() == ReplayEvents(old(stats.Value()), channel, evs)
  {
    for j := 0 to |evs|
      invariant stats.Value() == ReplayEvents(old(stats.Value()), channel, evs[..j])
    {
      assert evs[..j + 1][..j] == evs[..j];
      if evs[j].kind == "entry" {
        stats.ReplayPassage(channel, 1);
      }
    }
    assert evs[..|evs|] == evs;
  }
}
