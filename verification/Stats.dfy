// Channel statistics and their snapshot registry (internal/passage/passage.go,
// internal/gate/channel.go), and the loop that feeds one from the other
// (cmd/afc/server.go).
module Stats {
  import opened Maps

  datatype Totals = Totals(
    counted: map<string, int>,
    totals: map<string, int>,
    pending: map<string, int>,
    lastRecoveredSeq: int)

  const NOTHING: Totals := Totals(map[], map[], map[], 0)

  datatype Snapshot = Snapshot(channelID: string, number: int, counted: int, total: int, takenAt: int)

  datatype Registry = Registry(lastSeq: int, latest: map<string, Snapshot>, history: seq<Snapshot>)

  const NO_SNAPSHOTS: Registry := Registry(0, map[], [])

  // What a channel has, counted in or still pending.
  function Worth(s: Totals, channel: string): int {
    At(s.totals, channel) + At(s.pending, channel)
  }

  function Recorded(s: Totals, channel: string, amount: int): Totals {
    s.(pending := Plus(s.pending, channel, amount))
  }

  function Replayed(s: Totals, channel: string, amount: int): Totals {
    if At(s.counted, channel) > 0 then s else s.(totals := Plus(s.totals, channel, amount))
  }

  // The pending amounts of the given channels go into the totals, except those
  // of channels with a positive count.
  function FlushedOf(s: Totals, channels: set<string>): map<string, int> {
    map c | c in s.totals.Keys + (set k | k in channels && At(s.counted, k) <= 0) ::
      At(s.totals, c) + (if c in channels && At(s.counted, c) <= 0 then At(s.pending, c) else 0)
  }

  function Flushed(s: Totals): Totals {
    s.(totals := FlushedOf(s, s.pending.Keys), pending := map[])
  }

  lemma FlushOne(s: Totals, channels: set<string>, channel: string)
    requires channel !in channels
    ensures FlushedOf(s, channels + {channel}) ==
            if At(s.counted, channel) > 0 then FlushedOf(s, channels)
            else Plus(FlushedOf(s, channels), channel, At(s.pending, channel))
  {
    var before, after := FlushedOf(s, channels), FlushedOf(s, channels + {channel});
    assert At(before, channel) == At(s.totals, channel);
  }

  // Only the last snapshot taken is restored, whatever its channel.
  function Recovered(s: Totals, r: Registry): Totals {
    if r.history == [] then s else
    var snap := r.history[|r.history| - 1];
    Totals(s.counted[snap.channelID := snap.counted], s.totals[snap.channelID := snap.total],
           s.pending - {snap.channelID}, snap.number)
  }

  function Taken(r: Registry, channel: string, counted: int, total: int, at: int): Registry {
    var item := Snapshot(channel, r.lastSeq + 1, counted, total, at);
    Registry(r.lastSeq + 1, r.latest[channel := item], r.history + [item])
  }

  // ---------- Runs ----------

  datatype Wired = Wired(stats: Totals, registry: Registry)

  datatype Label =
    | Record(channel: string, amount: int)
    | Replay(channel: string, amount: int)
    | Flush
    | TakeSnapshot(channel: string, at: int)  // feeds back the channel's own count and total
    | Recover

  function Step(w: Wired, l: Label): Wired {
    match l
    case Record(c, amount) => w.(stats := Recorded(w.stats, c, amount))
    case Replay(c, amount) => w.(stats := Replayed(w.stats, c, amount))
    case Flush => w.(stats := Flushed(w.stats))
    case TakeSnapshot(c, at) =>
      w.(registry := Taken(w.registry, c, At(w.stats.counted, c), At(w.stats.totals, c), at))
    case Recover => w.(stats := Recovered(w.stats, w.registry))
  }

  function Run(w: Wired, labels: seq<Label>): Wired {
    if labels == [] then w
    else Step(Run(w, labels[..|labels| - 1]), labels[|labels| - 1])
  }

  // Everything recorded or replayed for a channel.
  function Amounts(labels: seq<Label>, channel: string): int {
    if labels == [] then 0 else
    var last := labels[|labels| - 1];
    Amounts(labels[..|labels| - 1], channel)
    + if (last.Record? || last.Replay?) && last.channel == channel then last.amount else 0
  }

  lemma StepConserves(w: Wired, l: Label, channel: string)
    requires !l.Recover?
    ensures var q := Step(w, l);
            && At(q.stats.counted, channel) == At(w.stats.counted, channel)
            && (At(w.stats.counted, channel) <= 0 ==>
                  Worth(q.stats, channel) == Worth(w.stats, channel) + Amounts([l], channel))
            && (At(w.stats.counted, channel) > 0 ==>
                  At(q.stats.totals, channel) == At(w.stats.totals, channel))
  {
    assert Amounts([l][..0], channel) == 0;
  }

  // Between recoveries nothing is lost and nothing invented on a channel without
  // a positive count, whatever flushes happen; one with a positive count is frozen.
  lemma {:induction false} AmountsConserved(w: Wired, labels: seq<Label>, channel: string)
    requires Recover !in labels
    ensures var q := Run(w, labels);
            && At(q.stats.counted, channel) == At(w.stats.counted, channel)
            && (At(w.stats.counted, channel) <= 0 ==>
                  Worth(q.stats, channel) == Worth(w.stats, channel) + Amounts(labels, channel))
            && (At(w.stats.counted, channel) > 0 ==>
                  At(q.stats.totals, channel) == At(w.stats.totals, channel))
  {
    if labels != [] {
      var front, last := labels[..|labels| - 1], labels[|labels| - 1];
      AmountsConserved(w, front, channel);
      StepConserves(Run(w, front), last, channel);
      assert Amounts([last][..0], channel) == 0;
    }
  }

  // A flush moves everything into the totals and a second one moves nothing.
  lemma FlushSettles(s: Totals, channel: string)
    requires At(s.counted, channel) <= 0
    ensures At(Flushed(s).totals, channel) == Worth(s, channel) == Worth(Flushed(s), channel)
    ensures At(Flushed(Flushed(s)).totals, channel) == At(Flushed(s).totals, channel)
  {
  }

  // A recovery restores the total of one channel and leaves the others alone.
  lemma RecoveryRestoresOne(s: Totals, r: Registry, channel: string)
    requires r.history != []
    ensures var snap := r.history[|r.history| - 1];
            if channel == snap.channelID
            then Worth(Recovered(s, r), channel) == snap.total
            else Worth(Recovered(s, r), channel) == Worth(s, channel)
  {
  }

  // The registry: snapshots are numbered 1, 2, ... in order, the index holds the
  // last one of each channel, and as long as counts only come from the service
  // itself they stay zero, so no channel ever freezes.
  function LastOf(history: seq<Snapshot>, channel: string): Option<Snapshot> {
    if history == [] then None
    else if history[|history| - 1].channelID == channel then Some(history[|history| - 1])
    else LastOf(history[..|history| - 1], channel)
  }

  ghost predicate Indexed(r: Registry) {
    && r.lastSeq == |r.history|
    && (forall i :: 0 <= i < |r.history| ==> r.history[i].number == i + 1)
    && (forall c :: (if c in r.latest then Some(r.latest[c]) else None) == LastOf(r.history, c))
  }

  ghost predicate Uncounted(w: Wired) {
    && (forall c :: At(w.stats.counted, c) == 0)
    && (forall snap :: snap in w.registry.history ==> snap.counted == 0)
  }

  lemma TakingKeepsIndexed(r: Registry, channel: string, counted: int, total: int, at: int)
    requires Indexed(r)
    ensures Indexed(Taken(r, channel, counted, total, at))
  {
    var q := Taken(r, channel, counted, total, at);
    forall c ensures (if c in q.latest then Some(q.latest[c]) else None) == LastOf(q.history, c) {
      assert q.history[..|q.history| - 1] == r.history;
    }
  }

  lemma {:induction false} CountsStayZero(w: Wired, labels: seq<Label>)
    requires Indexed(w.registry) && Uncounted(w)
    ensures Indexed(Run(w, labels).registry) && Uncounted(Run(w, labels))
  {
    if labels != [] {
      var front, last := labels[..|labels| - 1], labels[|labels| - 1];
      CountsStayZero(w, front);
      var q := Run(w, front);
      if last.TakeSnapshot? {
        TakingKeepsIndexed(q.registry, last.channel, At(q.stats.counted, last.channel),
                           At(q.stats.totals, last.channel), last.at);
      } else if last.Recover? && q.registry.history != [] {
        assert q.registry.history[|q.registry.history| - 1] in q.registry.history;
        forall c ensures At(Step(q, last).stats.counted, c) == 0 {
          assert At(q.stats.counted, c) == 0;
        }
      }
    }
  }

  // ---------- The effect of each operation ----------

  // A snapshot shows what it was given, is numbered next, and is its channel's
  // last; the other channels keep theirs.
  lemma SnapshotEffect(r: Registry, channel: string, counted: int, total: int, at: int, other: string)
    ensures var q := Taken(r, channel, counted, total, at);
            && q.lastSeq == r.lastSeq + 1 && |q.history| == |r.history| + 1 && q.history[..|r.history|] == r.history
            && (var item := q.history[|r.history|];
                && item.channelID == channel && item.counted == counted && item.total == total
                && item.takenAt == at && item.number == q.lastSeq
                && LastOf(q.history, channel) == Some(item))
            && (other != channel ==> LastOf(q.history, other) == LastOf(r.history, other))
  {
    var q := Taken(r, channel, counted, total, at);
    assert q.history[..|q.history| - 1] == r.history;
  }

  // A recovery takes count, total and number of the last snapshot and drops what
  // was pending on its channel; nothing else moves, and without a snapshot nothing.
  lemma RecoveryEffect(s: Totals, r: Registry, other: string)
    ensures r.history == [] ==> Recovered(s, r) == s
    ensures r.history != [] ==>
      var snap, q := r.history[|r.history| - 1], Recovered(s, r);
      && q.lastRecoveredSeq == snap.number
      && At(q.counted, snap.channelID) == snap.counted && At(q.totals, snap.channelID) == snap.total
      && snap.channelID !in q.pending
      && (other != snap.channelID ==>
            && At(q.counted, other) == At(s.counted, other) && At(q.totals, other) == At(s.totals, other)
            && At(q.pending, other) == At(s.pending, other))
  {
  }

  // A recorded amount waits, a replayed one counts at once, on its own channel
  // alone; a channel with a positive count takes no replay.
  lemma AmountEffect(s: Totals, channel: string, amount: int, other: string)
    ensures var q := Recorded(s, channel, amount);
            && q.totals == s.totals && q.counted == s.counted
            && At(q.pending, other) == At(s.pending, other) + if channel == other then amount else 0
    ensures var q := Replayed(s, channel, amount);
            && q.pending == s.pending && q.counted == s.counted
            && At(q.totals, other) ==
               At(s.totals, other) + if channel == other && At(s.counted, channel) <= 0 then amount else 0
  {
  }

  // ---------- The objects ----------

  class ChannelRegistry {
    var lastSeq: int
    var latest: map<string, Snapshot>
    var history: seq<Snapshot>

    function Value(): Registry
      reads this
    {
      Registry(lastSeq, latest, history)
    }

    constructor ()
      ensures Value() == NO_SNAPSHOTS
    {
      lastSeq, latest, history := 0, map[], [];
    }

    method SnapshotChannel(channel: string, counted: int, total: int, at: int) returns (item: Snapshot)
      modifies this
      ensures Value() == Taken(old(Value()), channel, counted, total, at)
      ensures item == latest[channel] == history[|history| - 1]
    {
      lastSeq := lastSeq + 1;
      item := Snapshot(channel, lastSeq, counted, total, at);
      latest := latest[channel := item];
      history := history + [item];
    }

    method LatestChannelSnapshot() returns (item: Option<Snapshot>)
      ensures item == if history == [] then None else Some(history[|history| - 1])
    {
      if history == [] {
        return None;
      }
      return Some(history[|history| - 1]);
    }

    method SnapshotOf(channel: string) returns (item: Option<Snapshot>)
      ensures Indexed(Value()) ==> item == LastOf(history, channel)
    {
      if channel !in latest {
        return None;
      }
      return Some(latest[channel]);
    }
  }

  class StatsService {
    const source: ChannelRegistry
    var counted: map<string, int>
    var totals: map<string, int>
    var pending: map<string, int>
    var lastRecoveredSeq: int

    function Value(): Totals
      reads this
    {
      Totals(counted, totals, pending, lastRecoveredSeq)
    }

    constructor (source: ChannelRegistry)
      ensures this.source == source && Value() == NOTHING
    {
      this.source := source;
      counted, totals, pending, lastRecoveredSeq := map[], map[], map[], 0;
    }

    // A snapshot without a channel name sends the source to the whole history,
    // whose last entry is that same snapshot.
    method RecoverLatest()
      modifies this
      ensures Value() == Recovered(old(Value()), source.Value())
    {
      var latest := source.LatestChannelSnapshot();
      var snap := Snapshot("", 0, 0, 0, 0);
      if latest.Some? {
        snap := latest.value;
      }
      if snap.channelID == "" {
        var all := source.history;
        if |all| == 0 {
          return;
        }
        snap := all[|all| - 1];
      }
      counted := counted[snap.channelID := snap.counted];
      totals := totals[snap.channelID := snap.total];
      lastRecoveredSeq := snap.number;
      pending := pending - {snap.channelID};
    }

    method RecordPassage(channel: string, amount: int)
      modifies this`pending
      ensures Value() == Recorded(old(Value()), channel, amount)
    {
      pending := Plus(pending, channel, amount);
    }

    method ReplayPassage(channel: string, amount: int)
      modifies this`totals
      ensures Value() == Replayed(old(Value()), channel, amount)
    {
      if At(counted, channel) > 0 {
        return;
      }
      totals := Plus(totals, channel, amount);
    }

    // The channels are visited in any order.
    method FlushPending()
      modifies this`totals, this`pending
      ensures Value() == Flushed(old(Value()))
    {
      var channels := pending.Keys;
      ghost var before := Value();
      while channels != {}
        invariant channels <= pending.Keys && pending == before.pending
        invariant totals == FlushedOf(before, before.pending.Keys - channels)
        decreases channels
      {
        var channel :| channel in channels;
        FlushOne(before, before.pending.Keys - channels, channel);
        assert before.pending.Keys - (channels - {channel}) == before.pending.Keys - channels + {channel};
        if At(counted, channel) <= 0 {
          totals := Plus(totals, channel, pending[channel]);
        }
        channels := channels - {channel};
      }
      assert before.pending.Keys - channels == before.pending.Keys;
      pending := map[];
    }
  }
}
