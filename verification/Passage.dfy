// Passage counting and its session ledger (internal/passage/passage.go,
// internal/gate/session.go).
module Passage {
  import opened Maps
  import Gates

  datatype Counter = Counter(
    totals: map<string, int>,
    sessions: map<string, int>,
    confirmedAt: map<string, int>)

  const ZERO: Counter := Counter(map[], map[], map[])

  // Count(id) with the gate's state read as open or not.
  function Counted(c: Counter, id: string, open: bool): Counter {
    if open then c.(totals := Plus(c.totals, id, 1), sessions := Plus(c.sessions, id, 1)) else c
  }

  function Confirmed(c: Counter, id: string, at: int): Counter {
    c.(confirmedAt := c.confirmedAt[id := at])
  }

  function Restored(c: Counter, counts: map<string, int>): Counter {
    c.(totals := c.totals + counts)
  }

  function SessionReset(c: Counter): Counter {
    c.(sessions := map[])
  }

  datatype Session = Session(id: string, number: int, counts: map<string, int>, endedAt: int)

  datatype Ledger = Ledger(lastSeq: int, sessions: seq<Session>, latest: Option<Session>)

  const NO_SESSIONS: Ledger := Ledger(0, [], None)

  function Saved(l: Ledger, id: string, counts: map<string, int>, endedAt: int): Ledger {
    var item := Session(id, l.lastSeq + 1, counts, endedAt);
    Ledger(l.lastSeq + 1, l.sessions + [item], Some(item))
  }

  // The counts of the latest saved session; none saved reads as all zero.
  function LatestCounts(l: Ledger): map<string, int> {
    if l.latest.Some? then l.latest.value.counts else map[]
  }

  // ---------- The effect of each operation ----------

  // A passage of an open gate adds one to its total and its session and to no
  // other gate's; a confirmation and a reset touch neither total.
  lemma CounterEffect(c: Counter, id: string, open: bool, at: int, other: string)
    ensures var q := Counted(c, id, open);
            && At(q.totals, other) == At(c.totals, other) + Bit(open && id == other)
            && At(q.sessions, other) == At(c.sessions, other) + Bit(open && id == other)
            && q.confirmedAt == c.confirmedAt
    ensures var q := Confirmed(c, id, at);
            q.totals == c.totals && q.sessions == c.sessions
            && At(q.confirmedAt, other) == (if id == other then at else At(c.confirmedAt, other))
    ensures var q := SessionReset(c);
            q.totals == c.totals && At(q.sessions, other) == 0 && q.confirmedAt == c.confirmedAt
  {
  }

  // A saved session has the given name, counts and end, the next number, and is
  // the last one and the latest.
  lemma SaveEffect(l: Ledger, id: string, counts: map<string, int>, endedAt: int)
    ensures var q := Saved(l, id, counts, endedAt);
            && q.lastSeq == l.lastSeq + 1
            && |q.sessions| == |l.sessions| + 1 && q.sessions[..|l.sessions|] == l.sessions
            && q.latest == Some(q.sessions[|l.sessions|])
            && var item := q.sessions[|l.sessions|];
               item.id == id && item.counts == counts && item.endedAt == endedAt && item.number == q.lastSeq
  {
  }

  // Restoring the counts that were saved from one counter brings every total of
  // it back in another, whatever passed there in between; gates that the snapshot
  // does not know keep what they have.
  lemma RestoreEffect(saved: Counter, c: Counter, name: string, endedAt: int, l: Ledger, id: string)
    ensures var counts := LatestCounts(Saved(l, name, saved.totals, endedAt));
            var q := SessionReset(Restored(c, counts));
            && At(q.totals, id) == (if id in saved.totals then At(saved.totals, id) else At(c.totals, id))
            && At(q.sessions, id) == 0 && q.confirmedAt == c.confirmedAt
  {
  }

  // ---------- Conservation across sessions, in every interleaving ----------

  // The snapshot loop takes the totals, saves them and resets the sessions in
  // three steps under three locks; counts may land between any two of them.
  datatype Tick = Idle | Holding(counts: map<string, int>) | AfterSave

  // `gap` records, per gate, the counts that landed between the latest snapshot
  // and the reset that followed it; `discarded` what resets threw away.
  datatype Books = Books(
    counter: Counter,
    ledger: Ledger,
    tick: Tick,
    gap: map<string, int>,
    discarded: map<string, int>)

  datatype Label =
    | Count(id: string, open: bool)
    | Confirm(id: string, at: int)
    | Advance(name: string, at: int)

  function Add(a: map<string, int>, b: map<string, int>): map<string, int> {
    map k | k in a.Keys + b.Keys :: At(a, k) + At(b, k)
  }

  function Step(b: Books, l: Label): Books {
    match l
    case Count(id, open) =>
      b.(counter := Counted(b.counter, id, open),
         gap := if open && !b.tick.Idle? then Plus(b.gap, id, 1) else b.gap)
    case Confirm(id, at) => b.(counter := Confirmed(b.counter, id, at))
    case Advance(name, at) =>
      match b.tick
      case Idle => b.(tick := Holding(b.counter.totals), gap := map[])
      case Holding(counts) => b.(tick := AfterSave, ledger := Saved(b.ledger, name, counts, at))
      case AfterSave =>
        b.(tick := Idle, counter := SessionReset(b.counter),
           discarded := Add(b.discarded, b.counter.sessions))
  }

  function Run(b: Books, labels: seq<Label>): Books {
    if labels == [] then b
    else Step(Run(b, labels[..|labels| - 1]), labels[|labels| - 1])
  }

  // What a gate has passed is what its current session shows plus what resets
  // have thrown away: the difference never moves.
  lemma StepConserves(b: Books, l: Label, id: string)
    ensures At(Step(b, l).counter.totals, id) - At(Step(b, l).counter.sessions, id) - At(Step(b, l).discarded, id)
            == At(b.counter.totals, id) - At(b.counter.sessions, id) - At(b.discarded, id)
  {
  }

  lemma {:induction false} SessionsConserveTotals(b: Books, labels: seq<Label>, id: string)
    ensures var e := Run(b, labels);
            At(e.counter.totals, id) - At(e.counter.sessions, id) - At(e.discarded, id)
            == At(b.counter.totals, id) - At(b.counter.sessions, id) - At(b.discarded, id)
  {
    if labels != [] {
      SessionsConserveTotals(b, labels[..|labels| - 1], id);
      StepConserves(Run(b, labels[..|labels| - 1]), labels[|labels| - 1], id);
    }
  }

  // The three steps of a tick: what was counted by the first is saved by the second
  // under the name and time of that step, and the third empties the session.
  lemma TickSteps(b: Books, name: string, at: int)
    ensures var l, q := Advance(name, at), Step(b, Advance(name, at));
            match b.tick
            case Idle => q == b.(tick := Holding(b.counter.totals), gap := map[])
            case Holding(counts) =>
              q.counter == b.counter && q.tick == AfterSave
              && q.ledger.latest.Some? && q.ledger.latest.value.id == name && q.ledger.latest.value.endedAt == at
              && q.ledger.latest.value.counts == counts && |q.ledger.sessions| == |b.ledger.sessions| + 1
            case AfterSave =>
              q.ledger == b.ledger && q.tick == Idle
              && q.counter.totals == b.counter.totals && q.counter.sessions == map[]
  {
  }

  // Between ticks the total is the latest saved count plus the current session
  // plus the gap; during a tick the gap alone separates it from the snapshot.
  predicate Balanced(b: Books, id: string) {
    At(b.counter.totals, id) - At(b.gap, id) ==
      match b.tick
      case Idle => At(LatestCounts(b.ledger), id) + At(b.counter.sessions, id)
      case Holding(counts) => At(counts, id)
      case AfterSave => At(LatestCounts(b.ledger), id)
  }

  lemma StepKeepsBalance(b: Books, l: Label, id: string)
    requires Balanced(b, id)
    ensures Balanced(Step(b, l), id)
  {
  }

  lemma {:induction false} RunsStayBalanced(b: Books, labels: seq<Label>, id: string)
    requires Balanced(b, id)
    ensures Balanced(Run(b, labels), id)
  {
    if labels != [] {
      RunsStayBalanced(b, labels[..|labels| - 1], id);
      StepKeepsBalance(Run(b, labels[..|labels| - 1]), labels[|labels| - 1], id);
    }
  }

  // A counter rebuilt from the ledger between two ticks misses exactly the
  // current session and the gap; so it misses the session alone if and only if
  // no count landed between the latest snapshot and its reset.
  lemma RestoreLosesOnlyTheSession(b: Books, labels: seq<Label>, id: string)
    requires Balanced(b, id) && Run(b, labels).tick.Idle?
    ensures var e := Run(b, labels);
            var rebuilt := At(Restored(ZERO, LatestCounts(e.ledger)).totals, id);
            && rebuilt == At(e.counter.totals, id) - At(e.counter.sessions, id) - At(e.gap, id)
            && (rebuilt == At(e.counter.totals, id) - At(e.counter.sessions, id)
                <==> At(e.gap, id) == 0)
  {
    RunsStayBalanced(b, labels, id);
    var e := Run(b, labels);
    assert Restored(ZERO, LatestCounts(e.ledger)).totals == LatestCounts(e.ledger);
  }

  // A passage between a tick's snapshot and its reset is in no saved session and
  // in no running one: a counter rebuilt after that tick has lost it too.
  lemma PassageDuringTickIsLost(id: string, name: string, at: int)
    ensures var b := Books(ZERO, NO_SESSIONS, Idle, map[], map[]);
            var tick := Advance(name, at);
            var e := Step(Step(Step(Step(b, tick), Count(id, true)), tick), tick);
            && Balanced(b, id) && e.tick.Idle?
            && At(e.counter.totals, id) == 1 && At(e.counter.sessions, id) == 0 && At(e.gap, id) == 1
            && At(Restored(ZERO, LatestCounts(e.ledger)).totals, id) == 0
  {
    var b := Books(ZERO, NO_SESSIONS, Idle, map[], map[]);
    var held := Step(b, Advance(name, at));
    assert held.tick == Holding(map[]);
    var saved := Step(Step(held, Count(id, true)), Advance(name, at));
    assert LatestCounts(saved.ledger) == map[];
  }

  // Saved snapshots are numbered 1, 2, ... and never go down; the latest is the
  // last of the list.
  ghost predicate Rising(b: Books) {
    var l := b.ledger;
    && l.lastSeq == |l.sessions|
    && l.latest == (if l.sessions == [] then None else Some(l.sessions[|l.sessions| - 1]))
    && (forall i :: 0 <= i < |l.sessions| ==> l.sessions[i].number == i + 1)
    && (forall i, j, id :: 0 <= i < j < |l.sessions| ==>
          At(l.sessions[i].counts, id) <= At(l.sessions[j].counts, id))
    && (forall id :: LatestBelow(b, id))
  }

  // No saved or held count exceeds the running total.
  predicate LatestBelow(b: Books, id: string) {
    var latest := At(LatestCounts(b.ledger), id);
    match b.tick
    case Holding(counts) =>
      (b.ledger.sessions == [] || latest <= At(counts, id)) && At(counts, id) <= At(b.counter.totals, id)
    case _ => b.ledger.sessions == [] || latest <= At(b.counter.totals, id)
  }

  lemma StepKeepsBelow(b: Books, l: Label, id: string)
    requires LatestBelow(b, id)
    ensures LatestBelow(Step(b, l), id)
  {
  }

  lemma SaveKeepsOrder(l: Ledger, name: string, counts: map<string, int>, at: int)
    requires forall i, j, id :: 0 <= i < j < |l.sessions| ==>
      At(l.sessions[i].counts, id) <= At(l.sessions[j].counts, id)
    requires l.sessions != [] ==> forall id :: At(l.sessions[|l.sessions| - 1].counts, id) <= At(counts, id)
    ensures forall i, j, id :: 0 <= i < j < |Saved(l, name, counts, at).sessions| ==>
      At(Saved(l, name, counts, at).sessions[i].counts, id) <= At(Saved(l, name, counts, at).sessions[j].counts, id)
  {
    var n := |l.sessions|;
    forall i, id | 0 <= i < n ensures At(l.sessions[i].counts, id) <= At(counts, id) {
      assert i < n - 1 ==> At(l.sessions[i].counts, id) <= At(l.sessions[n - 1].counts, id);
    }
  }

  lemma SaveKeepsRising(b: Books, l: Label)
    requires Rising(b) && l.Advance? && b.tick.Holding?
    ensures Rising(Step(b, l))
  {
    forall id ensures LatestBelow(Step(b, l), id) {
      StepKeepsBelow(b, l, id);
    }
    forall id ensures b.ledger.sessions != [] ==> At(LatestCounts(b.ledger), id) <= At(b.tick.counts, id) {
      assert LatestBelow(b, id);
    }
    SaveKeepsOrder(b.ledger, l.name, b.tick.counts, l.at);
  }

  lemma StepKeepsRising(b: Books, l: Label)
    requires Rising(b)
    ensures Rising(Step(b, l))
  {
    if l.Advance? && b.tick.Holding? {
      SaveKeepsRising(b, l);
    } else {
      assert Step(b, l).ledger == b.ledger;
      forall id ensures LatestBelow(Step(b, l), id) {
        StepKeepsBelow(b, l, id);
      }
    }
  }

  lemma {:induction false} SavedSnapshotsRise(b: Books, labels: seq<Label>)
    requires Rising(b)
    ensures Rising(Run(b, labels))
  {
    if labels != [] {
      SavedSnapshotsRise(b, labels[..|labels| - 1]);
      StepKeepsRising(Run(b, labels[..|labels| - 1]), labels[|labels| - 1]);
    }
  }

  // ---------- The objects ----------

  class PassageCounter {
    var totals: map<string, int>
    var sessions: map<string, int>
    var confirmedAt: map<string, int>
    var reader: Gates.GateStore?

    function Value(): Counter
      reads this
    {
      Counter(totals, sessions, confirmedAt)
    }

    constructor ()
      ensures Value() == ZERO && reader == null
    {
      totals, sessions, confirmedAt, reader := map[], map[], map[], null;
    }

    method SetStateReader(r: Gates.GateStore)
      modifies this`reader
      ensures reader == r
    {
      reader := r;
    }

    // Without a reader every passage counts; with one, only those of an open gate.
    method CountPassage(id: string) returns (total: int)
      modifies this`totals, this`sessions, reader
      ensures Value() == Counted(old(Value()), id,
                                 reader == null || old(reader.Value()).Get(id).state == Gates.Open)
      ensures reader != null ==> reader.Value() == Gates.Apply(old(reader.Value()), Gates.Read(id))
      ensures total == At(totals, id)
    {
      if reader != null {
        var open := reader.IsOpen(id);
        if !open {
          return At(totals, id);
        }
      }
      totals := Plus(totals, id, 1);
      sessions := Plus(sessions, id, 1);
      return At(totals, id);
    }

    method ConfirmPassage(id: string, at: int)
      modifies this`confirmedAt
      ensures Value() == Confirmed(old(Value()), id, at)
    {
      confirmedAt := confirmedAt[id := at];
    }

    method Snapshot() returns (out: map<string, int>)
      ensures out == totals
    {
      out := map[];
      var keys := totals.Keys;
      while keys != {}
        invariant keys <= totals.Keys
        invariant out == map k | k in totals.Keys - keys :: totals[k]
        decreases keys
      {
        var key :| key in keys;
        out := out[key := totals[key]];
        keys := keys - {key};
      }
    }

    method Restore(counts: map<string, int>)
      modifies this`totals
      ensures Value() == Restored(old(Value()), counts)
    {
      var keys := counts.Keys;
      while keys != {}
        invariant keys <= counts.Keys
        invariant totals == old(totals) + map k | k in counts.Keys - keys :: counts[k]
        decreases keys
      {
        var key :| key in keys;
        totals := totals[key := counts[key]];
        keys := keys - {key};
      }
      assert (map k | k in counts.Keys - keys :: counts[k]) == counts;
    }

    method ResetSession()
      modifies this`sessions
      ensures Value() == SessionReset(old(Value()))
    {
      sessions := map[];
    }
  }

  class SessionLedger {
    var lastSeq: int
    var sessions: seq<Session>
    var latest: Option<Session>

    function Value(): Ledger
      reads this
    {
      Ledger(lastSeq, sessions, latest)
    }

    constructor ()
      ensures Value() == NO_SESSIONS
    {
      lastSeq, sessions, latest := 0, [], None;
    }

    method Save(id: string, counts: map<string, int>, endedAt: int) returns (item: Session)
      modifies this
      ensures Value() == Saved(old(Value()), id, counts, endedAt)
      ensures latest == Some(item)
      ensures item.id == id && item.counts == counts && item.endedAt == endedAt && item.number == old(lastSeq) + 1
    {
      lastSeq := lastSeq + 1;
      item := Session(id, lastSeq, counts, endedAt);
      sessions := sessions + [item];
      latest := Some(item);
    }
  }

  class Recovery {
    const source: SessionLedger
    const counter: PassageCounter
    var lastRestoredID: string
    var lastRestoredSeq: int

    constructor (source: SessionLedger, counter: PassageCounter)
      ensures this.source == source && this.counter == counter
      ensures lastRestoredID == "" && lastRestoredSeq == 0
    {
      this.source, this.counter := source, counter;
      lastRestoredID, lastRestoredSeq := "", 0;
    }

    // Nothing saved yet, or a session saved without a name: nothing to restore.
    method Restore() returns (restored: Option<Session>)
      modifies this, counter`totals, counter`sessions
      ensures restored == (if source.latest.Some? && source.latest.value.id != "" then source.latest else None)
      ensures match restored
              case None =>
                && counter.Value() == old(counter.Value())
                && lastRestoredID == old(lastRestoredID) && lastRestoredSeq == old(lastRestoredSeq)
              case Some(s) =>
                && counter.Value() == SessionReset(Restored(old(counter.Value()), s.counts))
                && lastRestoredID == s.id && lastRestoredSeq == s.number
    {
      if source.latest.None? || source.latest.value.id == "" {
        return None;
      }
      var s := source.latest.value;
      counter.Restore(s.counts);
      counter.ResetSession();
      lastRestoredID := s.id;
      lastRestoredSeq := s.number;
      return Some(s);
    }
  }
}
