// The locked gate status store (internal/gate/state.go).
//
// Every method of the store runs under one mutex, so each is one atomic write.
// `Apply` gives the effect of a write on the store's value; the class
// GateStore performs the writes in place and is proved to refine it. The
// concurrent protocols of the other modules take the same writes as steps.
module Gates {

  datatype GateState = Closed | Opening | Open | Closing

  datatype GateStatus = GateStatus(
    gateID: string,
    state: GateState,
    online: bool,
    recordSeq: int,
    updatedAt: int,
    offlineSince: int,
    faults: int)

  predicate Allowed(from: GateState, to: GateState) {
    match from
    case Closed => to.Opening?
    case Opening => to.Open?
    case Open => to.Closing?
    case Closing => to.Closed?
  }

  predicate Moving(state: GateState) {
    state.Opening? || state.Closing?
  }

  datatype Store = Store(statuses: map<string, GateStatus>, lastSeq: int) {
    // What the store reports for a gate; an unknown gate starts closed and online.
    function Get(id: string): GateStatus {
      if id in statuses then statuses[id] else GateStatus(id, Closed, true, 0, 0, 0, 0)
    }

    // The entry for id exists from now on.
    function Ensure(id: string): Store {
      Store(statuses[id := Get(id)], lastSeq)
    }

    // An accepted write: item replaces the status and gets the next record number.
    function Stamp(id: string, item: GateStatus, at: int): Store {
      Store(statuses[id := item.(updatedAt := at, recordSeq := lastSeq + 1)], lastSeq + 1)
    }
  }

  const EMPTY: Store := Store(map[], 0)

  datatype Write =
    | Read(id: string)
    | SetState(id: string, to: GateState, at: int)
    | Recover(id: string, at: int)
    | Poll(id: string, online: bool, at: int)
    | Fault(id: string, at: int)
    | Heartbeat(id: string, online: bool, heartbeatSeq: int, at: int)
    | Offline(id: string, at: int)

  // Whether the write goes through: an illegal transition, a stale heartbeat and
  // a mere read leave the gate as it is.
  predicate Accepted(s: Store, w: Write) {
    var item := s.Get(w.id);
    match w
    case Read(_) => false
    case SetState(_, to, _) => Allowed(item.state, to)
    case Recover(_, _) => Moving(item.state)
    case Heartbeat(_, _, heartbeatSeq, at) =>
      at >= item.updatedAt && !(heartbeatSeq > 0 && item.recordSeq > heartbeatSeq)
    case _ => true
  }

  // The connectivity part shared by polls, heartbeats and timeouts.
  function SetOnline(item: GateStatus, online: bool, at: int): GateStatus {
    if online then item.(online := true, offlineSince := 0)
    else if item.offlineSince == 0 then item.(online := false, offlineSince := at)
    else item.(online := false)
  }

  function Apply(s: Store, w: Write): Store {
    var item := s.Get(w.id);
    if !Accepted(s, w) then s.Ensure(w.id) else
    match w
    case Read(_) => s
    case SetState(id, to, at) => s.Stamp(id, item.(state := to), at)
    case Recover(id, at) => s.Stamp(id, item.(state := Closed), at)
    case Poll(id, online, at) => s.Stamp(id, SetOnline(item, online, at), at)
    case Fault(id, at) => s.Stamp(id, item.(faults := item.faults + 1), at)
    case Heartbeat(id, online, _, at) => s.Stamp(id, SetOnline(item, online, at), at)
    case Offline(id, at) => s.Stamp(id, SetOnline(item, false, at), at)
  }

  function Run(s: Store, writes: seq<Write>): Store {
    if writes == [] then s
    else Apply(Run(s, writes[..|writes| - 1]), writes[|writes| - 1])
  }

  // ---------- What each write may touch ----------

  // Writes on one gate are invisible on the others; the state moves only along
  // the allowed graph or by a recovery to Closed; connectivity and the fault
  // count move only by their own writes.
  lemma WriteFrame(s: Store, w: Write, id: string)
    ensures id != w.id ==> Apply(s, w).Get(id) == s.Get(id)
    ensures var before, after := s.Get(id), Apply(s, w).Get(id);
            && (after.state != before.state ==>
                  || (w.SetState? && Allowed(before.state, after.state) && after.state == w.to)
                  || (w.Recover? && Moving(before.state) && after.state == Closed))
            && (!w.Poll? && !w.Heartbeat? && !w.Offline? ==>
                  after.online == before.online && after.offlineSince == before.offlineSince)
            && after.faults == before.faults + (if w.Fault? && w.id == id then 1 else 0)
  {
  }

  // An accepted write gives the gate a record number above every number in use;
  // a refused one changes nothing that can be observed.
  lemma AcceptedWriteAdvances(s: Store, w: Write)
    requires Valid(s)
    ensures if Accepted(s, w)
            then && Apply(s, w).Get(w.id).recordSeq == Apply(s, w).lastSeq == s.lastSeq + 1
                 && (forall id :: s.Get(id).recordSeq < Apply(s, w).Get(w.id).recordSeq)
                 && Apply(s, w).Get(w.id).updatedAt == w.at
            else Apply(s, w).lastSeq == s.lastSeq && forall id :: Apply(s, w).Get(id) == s.Get(id)
    ensures w.Heartbeat? ==> Apply(s, w).Get(w.id).updatedAt >= s.Get(w.id).updatedAt
  {
    if Accepted(s, w) {
      forall id ensures s.Get(id).recordSeq < Apply(s, w).Get(w.id).recordSeq {
        assert id in s.statuses || s.Get(id).recordSeq == 0;
      }
    }
  }

  // ---------- The effect of each write ----------

  // The write went through: the gate has these fields, the next record number and
  // the write's time; the other gates are as they were.
  ghost predicate Took(s: Store, q: Store, id: string, at: int, state: GateState, online: bool, offlineSince: int, faults: int) {
    var item := q.Get(id);
    && item.gateID == s.Get(id).gateID
    && item.state == state && item.online == online && item.offlineSince == offlineSince && item.faults == faults
    && item.updatedAt == at && item.recordSeq == s.lastSeq + 1 && q.lastSeq == s.lastSeq + 1
    && id in q.statuses
    && forall other :: other != id ==> q.Get(other) == s.Get(other)
  }

  // It did not: nothing can be told from before, but the gate is known now.
  ghost predicate Left(s: Store, q: Store, id: string) {
    id in q.statuses && q.lastSeq == s.lastSeq && forall other :: q.Get(other) == s.Get(other)
  }

  lemma UnknownGate(s: Store, id: string)
    requires id !in s.statuses
    ensures var item := s.Get(id);
            && item.gateID == id && item.state == Closed && item.online
            && item.recordSeq == item.updatedAt == item.offlineSince == item.faults == 0
  {
  }

  // A transition goes through exactly along the cycle Closed, Opening, Open,
  // Closing, Closed; a recovery exactly from the two moving states.
  lemma StateWriteEffect(s: Store, id: string, to: GateState, at: int)
    ensures var item, q := s.Get(id), Apply(s, SetState(id, to, at));
            if || (item.state == Closed && to == Opening) || (item.state == Opening && to == Open)
               || (item.state == Open && to == Closing) || (item.state == Closing && to == Closed)
            then Took(s, q, id, at, to, item.online, item.offlineSince, item.faults)
            else Left(s, q, id)
    ensures var item, q := s.Get(id), Apply(s, Recover(id, at));
            if item.state == Opening || item.state == Closing
            then Took(s, q, id, at, Closed, item.online, item.offlineSince, item.faults)
            else Left(s, q, id)
  {
  }

  lemma FaultAndReadEffect(s: Store, id: string, at: int)
    ensures var item := s.Get(id);
            Took(s, Apply(s, Fault(id, at)), id, at, item.state, item.online, item.offlineSince, item.faults + 1)
    ensures Left(s, Apply(s, Read(id)), id)
  {
  }

  // A poll always goes through; a time-out is a poll that found the gate offline.
  lemma PollEffect(s: Store, id: string, online: bool, at: int)
    ensures var item := s.Get(id);
            Took(s, Apply(s, Poll(id, online, at)), id, at, item.state, online,
                 if online then 0 else if item.offlineSince == 0 then at else item.offlineSince, item.faults)
    ensures Apply(s, Offline(id, at)) == Apply(s, Poll(id, false, at))
  {
  }

  // A heartbeat leaves the gate as it was exactly when it is older than the last
  // write of the gate, or carries a number below the gate's record number; with
  // an equal number, or none, it goes through.
  lemma HeartbeatEffect(s: Store, id: string, online: bool, number: int, at: int)
    ensures var item, q := s.Get(id), Apply(s, Heartbeat(id, online, number, at));
            && (if at < item.updatedAt || 0 < number < item.recordSeq then Left(s, q, id)
                else Took(s, q, id, at, item.state, online,
                          if online then 0 else if item.offlineSince == 0 then at else item.offlineSince, item.faults))
            && (item.recordSeq <= s.lastSeq ==>
                  (q.Get(id) == item <==> at < item.updatedAt || 0 < number < item.recordSeq))
  {
  }

  // ---------- The store invariant ----------

  ghost predicate Numbered(s: Store) {
    && 0 <= s.lastSeq
    && (forall id :: s.Get(id).gateID == id && 0 <= s.Get(id).recordSeq <= s.lastSeq)
    && (forall a, b ::
          a != b && s.Get(a).recordSeq == s.Get(b).recordSeq ==> s.Get(a).recordSeq == 0)
  }

  ghost predicate OfflineKnown(s: Store) {
    forall id :: s.Get(id).online <==> s.Get(id).offlineSince == 0
  }

  ghost predicate Valid(s: Store) {
    Numbered(s) && OfflineKnown(s)
  }

  // The one write that breaks the invariant: it takes an online gate offline at
  // time zero, which is also the mark for "not offline".
  predicate OfflineAtZero(s: Store, w: Write) {
    && (w.Offline? || ((w.Poll? || w.Heartbeat?) && !w.online))
    && Accepted(s, w) && s.Get(w.id).online && w.at == 0
  }

  lemma WriteKeepsNumbering(s: Store, w: Write)
    requires Numbered(s)
    ensures Numbered(Apply(s, w))
  {
    var t := Apply(s, w);
    forall id ensures t.Get(id).gateID == id && 0 <= t.Get(id).recordSeq <= t.lastSeq {
      assert s.Get(id).gateID == id;
    }
    forall a, b | a != b && t.Get(a).recordSeq == t.Get(b).recordSeq
      ensures t.Get(a).recordSeq == 0
    {
      assert s.Get(a).recordSeq <= s.lastSeq && s.Get(b).recordSeq <= s.lastSeq;
    }
  }

  lemma WriteKeepsValidIff(s: Store, w: Write)
    requires Valid(s)
    ensures Valid(Apply(s, w)) <==> !OfflineAtZero(s, w)
  {
    var t := Apply(s, w);
    WriteKeepsNumbering(s, w);
    assert s.Get(w.id).online <==> s.Get(w.id).offlineSince == 0;
    if OfflineAtZero(s, w) {
      assert !t.Get(w.id).online && t.Get(w.id).offlineSince == 0;
    } else {
      forall id ensures t.Get(id).online <==> t.Get(id).offlineSince == 0 {
        assert s.Get(id).online <==> s.Get(id).offlineSince == 0;
      }
    }
  }

  // Online holds exactly when no offline time is recorded, and record numbers
  // never repeat, at the end of every run whose writes carry a nonzero time.
  lemma {:induction false} RunsStayValid(s: Store, writes: seq<Write>)
    requires Valid(s)
    requires forall w :: w in writes && !w.Read? ==> w.at != 0
    ensures Valid(Run(s, writes))
    ensures Run(s, writes).lastSeq >= s.lastSeq
    ensures forall id :: Run(s, writes).Get(id).recordSeq >= s.Get(id).recordSeq
  {
    if writes != [] {
      var front, last := writes[..|writes| - 1], writes[|writes| - 1];
      RunsStayValid(s, front);
      WriteKeepsValidIff(Run(s, front), last);
      AcceptedWriteAdvances(Run(s, front), last);
    }
  }

  // The gate's status after the first j writes of a run.
  function Seen(s: Store, writes: seq<Write>, id: string, j: nat): GateStatus
    requires j <= |writes|
  {
    Run(s, writes[..j]).Get(id)
  }

  // A gate that is offline at the end of a run went offline at some write of it
  // and stayed so, and OfflineSince still shows that write's time.
  ghost predicate EpisodeFrom(s: Store, writes: seq<Write>, id: string, k: nat)
  {
    && k < |writes|
    && !writes[k].Read? && writes[k].id == id
    && Seen(s, writes, id, k).online
    && forall j :: k < j <= |writes| ==>
         !Seen(s, writes, id, j).online && Seen(s, writes, id, j).offlineSince == writes[k].at
  }

  // Going offline stamps the write's time; staying offline keeps the stamp.
  lemma OfflineStamp(s: Store, w: Write, id: string)
    requires Valid(s) && !Apply(s, w).Get(id).online
    ensures if s.Get(id).online
            then !w.Read? && w.id == id && Apply(s, w).Get(id).offlineSince == w.at
            else Apply(s, w).Get(id).offlineSince == s.Get(id).offlineSince
  {
    assert s.Get(id).online <==> s.Get(id).offlineSince == 0;
  }

  lemma SeenEarlier(s: Store, front: seq<Write>, w: Write, id: string, j: nat)
    requires j <= |front| + 1
    ensures Seen(s, front + [w], id, j) ==
            if j <= |front| then Seen(s, front, id, j) else Apply(Run(s, front), w).Get(id)
  {
    if j <= |front| {
      assert (front + [w])[..j] == front[..j];
    } else {
      assert (front + [w])[..j] == front + [w] && (front + [w])[..|front|] == front;
    }
  }

  lemma EpisodeExtends(s: Store, front: seq<Write>, w: Write, id: string, k: nat)
    requires EpisodeFrom(s, front, id, k)
    requires var end := Apply(Run(s, front), w).Get(id);
             !end.online && end.offlineSince == Seen(s, front, id, |front|).offlineSince
    ensures EpisodeFrom(s, front + [w], id, k)
  {
    SeenEarlier(s, front, w, id, k);
    forall j: nat | k < j <= |front| + 1
      ensures !Seen(s, front + [w], id, j).online
      ensures Seen(s, front + [w], id, j).offlineSince == front[k].at
    {
      SeenEarlier(s, front, w, id, j);
    }
  }

  lemma {:induction false} OfflineEpisode(s: Store, writes: seq<Write>, id: string)
    requires Valid(s) && s.Get(id).online
    requires forall w :: w in writes && !w.Read? ==> w.at != 0
    requires !Run(s, writes).Get(id).online
    ensures exists k: nat :: EpisodeFrom(s, writes, id, k)
  {
    var n := |writes| - 1;
    var front, w := writes[..n], writes[n];
    RunsStayValid(s, front);
    OfflineStamp(Run(s, front), w, id);
    assert writes == front + [w];
    assert front[..n] == front;
    SeenEarlier(s, front, w, id, n);
    SeenEarlier(s, front, w, id, n + 1);
    if Run(s, front).Get(id).online {
      assert EpisodeFrom(s, writes, id, n);
    } else {
      OfflineEpisode(s, front, id);
      var k: nat :| EpisodeFrom(s, front, id, k);
      EpisodeExtends(s, front, w, id, k);
    }
  }

  // ---------- The store itself ----------

  class GateStore {
    var statuses: map<string, GateStatus>
    var lastSeq: int

    function Value(): Store
      reads this
    {
      Store(statuses, lastSeq)
    }

    constructor ()
      ensures Value() == EMPTY
    {
      statuses, lastSeq := map[], 0;
    }

    method EnsureEntry(id: string) returns (item: GateStatus)
      modifies this
      ensures Value() == old(Value()).Ensure(id) && item == old(Value()).Get(id)
    {
      if id !in statuses {
        statuses := statuses[id := GateStatus(id, Closed, true, 0, 0, 0, 0)];
      }
      item := statuses[id];
      assert statuses == old(statuses)[id := item];
    }

    method Commit(id: string, item: GateStatus, at: int)
      modifies this
      ensures Value() == old(Value()).Stamp(id, item, at)
    {
      lastSeq := lastSeq + 1;
      statuses := statuses[id := item.(updatedAt := at, recordSeq := lastSeq)];
    }

    method Status(id: string) returns (item: GateStatus)
      modifies this
      ensures Value() == Apply(old(Value()), Read(id))
      ensures item == Value().Get(id) == old(Value()).Get(id)
    {
      item := EnsureEntry(id);
    }

    method SetGateState(id: string, to: GateState, at: int) returns (ok: bool)
      modifies this
      ensures ok == Accepted(old(Value()), SetState(id, to, at))
      ensures Value() == Apply(old(Value()), SetState(id, to, at))
    {
      var item := EnsureEntry(id);
      if !Allowed(item.state, to) {
        return false;
      }
      Commit(id, item.(state := to), at);
      return true;
    }

    method RecoverToClosed(id: string, at: int) returns (ok: bool)
      modifies this
      ensures ok == Accepted(old(Value()), Recover(id, at))
      ensures Value() == Apply(old(Value()), Recover(id, at))
    {
      var item := EnsureEntry(id);
      if item.state != Opening && item.state != Closing {
        return false;
      }
      Commit(id, item.(state := Closed), at);
      return true;
    }

    method ApplyPoll(id: string, online: bool, at: int) returns (r: GateStatus)
      modifies this
      ensures Value() == Apply(old(Value()), Poll(id, online, at))
      ensures r == Value().Get(id)
    {
      var item := EnsureEntry(id);
      if online {
        item := item.(offlineSince := 0);
      } else if item.offlineSince == 0 {
        item := item.(offlineSince := at);
      }
      item := item.(online := online);
      Commit(id, item, at);
      r := statuses[id];
    }

    method RecordFault(id: string, at: int)
      modifies this
      ensures Value() == Apply(old(Value()), Fault(id, at))
    {
      var item := EnsureEntry(id);
      Commit(id, item.(faults := item.faults + 1), at);
    }

    method WriteHeartbeat(id: string, online: bool, heartbeatSeq: int, at: int) returns (r: GateStatus)
      modifies this
      ensures Value() == Apply(old(Value()), Heartbeat(id, online, heartbeatSeq, at))
      ensures r == Value().Get(id)
    {
      var item := EnsureEntry(id);
      if at < item.updatedAt {
        return item;
      }
      if heartbeatSeq > 0 && item.recordSeq > heartbeatSeq {
        return item;
      }
      if online {
        item := item.(offlineSince := 0);
      } else if item.offlineSince == 0 {
        item := item.(offlineSince := at);
      }
      item := item.(online := online);
      Commit(id, item, at);
      r := statuses[id];
    }

    method ApplyOffline(id: string, at: int)
      modifies this
      ensures Value() == Apply(old(Value()), Offline(id, at))
    {
      var item := EnsureEntry(id);
      item := item.(online := false);
      if item.offlineSince == 0 {
        item := item.(offlineSince := at);
      }
      Commit(id, item, at);
    }

    method IsOpen(id: string) returns (open: bool)
      modifies this
      ensures Value() == Apply(old(Value()), Read(id))
      ensures open <==> Value().Get(id).state == Open
    {
      var item := Status(id);
      open := item.state == Open;
    }
  }
}
