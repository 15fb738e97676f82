// The life of a ticket through entry and exit swipes, one swipe at a time:
// the validator of internal/ticket/ticket.go with the compensations that
// internal/gate/gate.go adds when an exit fails.
module Journey {
  import opened Maps
  import T = Tickets
  import D = Dedup
  import R = Rules

  // Swipe keys are taken to be the ticket ids themselves.
  datatype Hall = Hall(tickets: T.Store, window: D.Items, book: R.Book)

  datatype Refusal = NotFound | Used | InUse | Duplicate | RuleDenied | StoreError(error: T.Error)

  datatype EntryResult = Accepted(ruleVersion: int) | Refused(why: Refusal)

  datatype ExitResult = Completed | Failed(why: Refusal)

  // The clock readings of one entry: at the de-duplication check, for the
  // record, and when the window is opened.
  datatype Clock = Clock(check: int, mark: int, set': int)

  predicate Allowed(book: R.Book, group: string, transferable: bool) {
    var rule := R.Effective(book, group);
    rule.Some? && rule.value.Allows(transferable)
  }

  // The validator's part of an entry, given the copy of the record that was
  // looked up before.
  function Admitted(ttl: int, h: Hall, rec: T.Record, group: string, gate: string, c: Clock, p: T.Persist): (Hall, EntryResult) {
    if rec.id == "" then (h, Refused(NotFound))
    else if rec.status == T.Exited then (h, Refused(Used))
    else if rec.status == T.Entered then (h, Refused(InUse)) else
    var checked := h.(window := D.Apply(ttl, h.window, D.Check(rec.id, c.check)));
    if D.Answer(h.window, rec.id, c.check) then (checked, Refused(Duplicate))
    else if !Allowed(h.book, group, rec.transferable) then (checked, Refused(RuleDenied)) else
    var mark := T.MarkEntered(rec.id, gate, c.mark, p);
    var marked := checked.(tickets := T.Apply(h.tickets, mark));
    var err := T.ErrorOf(h.tickets, mark);
    if err != T.Success then (marked, Refused(StoreError(err)))
    else (marked.(window := D.Apply(ttl, checked.window, D.Set(rec.id, c.set'))),
          Accepted(R.Effective(h.book, group).value.version))
  }

  function Enter(ttl: int, h: Hall, id: string, group: string, gate: string, c: Clock, p: T.Persist): (Hall, EntryResult) {
    if id !in h.tickets.records then (h, Refused(NotFound))
    else Admitted(ttl, h, h.tickets.records[id], group, gate, c, p)
  }

  // A failed exit clears the window and resets the ticket, whatever its state.
  function Undone(h: Hall, id: string, p: T.Persist): Hall {
    h.(window := h.window - {id}, tickets := T.Apply(h.tickets, T.ResetEntry(id, p)))
  }

  function Leave(h: Hall, id: string, gate: string, at: int, p: T.Persist, undo: T.Persist): (Hall, ExitResult) {
    if id !in h.tickets.records then (h, Failed(NotFound))
    else if h.tickets.records[id].status != T.Entered then (Undone(h, id, undo), Failed(InUse)) else
    var mark := T.MarkExited(id, gate, at, p);
    var marked := h.(tickets := T.Apply(h.tickets, mark));
    var err := T.ErrorOf(h.tickets, mark);
    if err != T.Success then (Undone(marked, id, undo), Failed(StoreError(err)))
    else (marked, Completed)
  }

  // The validator's part of an exit, given the copy looked up before: it clears
  // the window itself when the mark fails.
  function Validated(h: Hall, rec: T.Record, gate: string, at: int, p: T.Persist): (Hall, ExitResult) {
    if rec.status != T.Entered then (h, Failed(InUse)) else
    var mark := T.MarkExited(rec.id, gate, at, p);
    var marked := h.(tickets := T.Apply(h.tickets, mark));
    var err := T.ErrorOf(h.tickets, mark);
    if err == T.Success then (marked, Completed)
    else (marked.(window := h.window - {rec.id}), Failed(StoreError(err)))
  }

  lemma LeaveIsValidatedThenUndone(h: Hall, id: string, gate: string, at: int, p: T.Persist, undo: T.Persist)
    requires id in h.tickets.records && h.tickets.records[id].id == id
    ensures var (h', r) := Validated(h, h.tickets.records[id], gate, at, p);
            Leave(h, id, gate, at, p, undo) == (if r.Failed? then Undone(h', id, undo) else h', r)
  {
    assert h.window - {id} - {id} == h.window - {id};
  }

  // Records are filed under their own id, as the store always keeps them.
  ghost predicate Filed(h: Hall) {
    forall id :: id in h.tickets.records ==> h.tickets.records[id].id == id
  }

  lemma EnterKeepsFiled(ttl: int, h: Hall, id: string, group: string, gate: string, c: Clock, p: T.Persist)
    requires Filed(h)
    ensures Filed(Enter(ttl, h, id, group, gate, c, p).0)
  {
  }

  lemma LeaveKeepsFiled(h: Hall, id: string, gate: string, at: int, p: T.Persist, undo: T.Persist)
    requires Filed(h)
    ensures Filed(Leave(h, id, gate, at, p, undo).0)
  {
    var h' := Leave(h, id, gate, at, p, undo).0;
    forall other | other in h'.tickets.records ensures h'.tickets.records[other].id == other {
      LeaveMoves(h, id, gate, at, p, undo, other);
    }
  }

  // ---------- Who is let in, and who out ----------

  // The group whose rule decides: the gate's own, or the default one.
  function DecidingGroup(book: R.Book, group: string): string {
    if group in book then group else "NORMAL"
  }

  predicate Known(h: Hall, id: string) {
    id in h.tickets.records && id != ""
  }

  predicate InWindow(h: Hall, id: string, now: int) {
    id in h.window && now < h.window[id]
  }

  // The deciding rule has the flag of the ticket's kind.
  predicate FlagSet(book: R.Book, group: string, transferable: bool) {
    var home := DecidingGroup(book, group);
    home in book && if transferable then book[home].transferAllowed else book[home].singleAllowed
  }

  // A ticket is accepted exactly when it is known and unused, not in the window,
  // the rule of the group has the flag of its kind, and the store is open and
  // writes it; the answer carries that rule's version. Each refusal names the
  // first of these that fails.
  lemma AcceptedIff(ttl: int, h: Hall, id: string, group: string, gate: string, c: Clock, p: T.Persist)
    requires Filed(h)
    ensures var r := Enter(ttl, h, id, group, gate, c, p).1;
            var unused := Known(h, id) && h.tickets.records[id].status == T.Unused;
            var fresh' := unused && !InWindow(h, id, c.check);
            var allowed := fresh' && FlagSet(h.book, group, h.tickets.records[id].transferable);
            && (r.Accepted? <==> allowed && !h.tickets.closed && p.Commits?)
            && (r.Accepted? ==> r.ruleVersion == h.book[DecidingGroup(h.book, group)].version)
            && (r == Refused(NotFound) <==> !Known(h, id))
            && (r == Refused(Used) <==> Known(h, id) && h.tickets.records[id].status == T.Exited)
            && (r == Refused(InUse) <==> Known(h, id) && h.tickets.records[id].status == T.Entered)
            && (r == Refused(Duplicate) <==> unused && InWindow(h, id, c.check))
            && (r == Refused(RuleDenied) <==> fresh' && !allowed)
            && (r == Refused(StoreError(T.StoreClosed)) <==> allowed && h.tickets.closed)
            && (r == Refused(StoreError(T.NotPersisted)) <==> allowed && !h.tickets.closed && !p.Commits?)
  {
  }

  // The same for a looked-up copy, which the store may have overtaken: status, kind
  // and id are the copy's, the window, the rule and the write are of now.
  lemma CopyAcceptedIff(ttl: int, h: Hall, rec: T.Record, group: string, gate: string, c: Clock, p: T.Persist)
    ensures var (h', r) := Admitted(ttl, h, rec, group, gate, c, p);
            && (r.Accepted? <==>
                  && rec.id != "" && rec.status == T.Unused && !InWindow(h, rec.id, c.check)
                  && FlagSet(h.book, group, rec.transferable)
                  && !h.tickets.closed && rec.id in h.tickets.records && p.Commits?)
            && (r.Accepted? ==>
                  && h'.window == h.window[rec.id := c.set' + ttl]
                  && h'.tickets == T.Apply(h.tickets, T.MarkEntered(rec.id, gate, c.mark, p)))
  {
    assert rec.id in h.window ==> h.window[rec.id := c.set' + ttl] == (h.window - {rec.id})[rec.id := c.set' + ttl];
  }

  lemma CopyCompletedIff(h: Hall, rec: T.Record, gate: string, at: int, p: T.Persist)
    ensures var (h', r) := Validated(h, rec, gate, at, p);
            && (r == Completed <==>
                  rec.status == T.Entered && !h.tickets.closed && rec.id in h.tickets.records && p.Commits?)
            && (r == Failed(InUse) <==> rec.status != T.Entered)
            && h'.window == (if r == Completed || r == Failed(InUse) then h.window else h.window - {rec.id})
            && h'.tickets == (if rec.status == T.Entered then T.Apply(h.tickets, T.MarkExited(rec.id, gate, at, p))
                              else h.tickets)
  {
  }

  // What is left of an entry: an accepted one opens the window for ttl and takes
  // the mark; a check past the expiry drops the key; nothing else moves.
  lemma EntryEffect(ttl: int, h: Hall, id: string, group: string, gate: string, c: Clock, p: T.Persist)
    requires Filed(h)
    ensures var (h', r) := Enter(ttl, h, id, group, gate, c, p);
            var checked := Known(h, id) && h.tickets.records[id].status == T.Unused;
            && h'.book == h.book
            && (r.Accepted? ==> h'.window == h.window[id := c.set' + ttl])
            && (!r.Accepted? && checked && !InWindow(h, id, c.check) ==> h'.window == h.window - {id})
            && (!checked || InWindow(h, id, c.check) ==> h' == h)
            && h'.tickets == (if r.Accepted? || r == Refused(StoreError(T.NotPersisted))
                              then T.Apply(h.tickets, T.MarkEntered(id, gate, c.mark, p)) else h.tickets)
  {
    assert id in h.window ==> h.window[id := c.set' + ttl] == (h.window - {id})[id := c.set' + ttl];
    assert id !in h.window ==> h.window - {id} == h.window;
  }

  // An exit completes exactly when the ticket is known and entered and the store
  // is open and writes it. Then the window stays; otherwise the key is cleared and
  // a known ticket is reset, in the file only by an open store.
  lemma CompletedIff(h: Hall, id: string, gate: string, at: int, p: T.Persist, undo: T.Persist)
    ensures var (h', r) := Leave(h, id, gate, at, p, undo);
            var known := id in h.tickets.records;
            var entered := known && h.tickets.records[id].status == T.Entered;
            && (r == Completed <==> entered && !h.tickets.closed && p.Commits?)
            && (r == Failed(NotFound) <==> !known)
            && (r == Failed(InUse) <==> known && !entered)
            && (r == Failed(StoreError(T.StoreClosed)) <==> entered && h.tickets.closed)
            && (r == Failed(StoreError(T.NotPersisted)) <==> entered && !h.tickets.closed && !p.Commits?)
            && h'.book == h.book
            && h'.window == (if r == Completed || !known then h.window else h.window - {id})
            && h'.tickets == (if !known then h.tickets
                              else if r == Completed then T.Apply(h.tickets, T.MarkExited(id, gate, at, p))
                              else if !entered then T.Apply(h.tickets, T.ResetEntry(id, undo))
                              else T.Apply(T.Apply(h.tickets, T.MarkExited(id, gate, at, p)), T.ResetEntry(id, undo)))
  {
  }

  // After an upgrade of a group, a subscribed cache that agreed with the store
  // lets in at that group exactly the kinds that the upgrade's arguments name.
  lemma UpgradeDecides(n: R.Net, group: string, single: bool, transfer: bool, cache: nat, ttl: int, h: Hall,
                       id: string, gate: string, c: Clock, p: T.Persist)
    requires Filed(h) && cache in n.caches && n.caches[cache].stage == R.Subscribed
    requires h.book == R.UpgradedAlone(n, R.Rule(group, single, transfer, 0)).caches[cache].entries
    requires Known(h, id) && h.tickets.records[id].status == T.Unused && !InWindow(h, id, c.check)
    requires !h.tickets.closed && p.Commits?
    ensures var r := Enter(ttl, h, id, group, gate, c, p).1;
            && (r.Accepted? <==> if h.tickets.records[id].transferable then transfer else single)
            && (r.Accepted? ==> r.ruleVersion == n.lastSeq + 1)
            && (!r.Accepted? ==> r == Refused(RuleDenied))
  {
    AcceptedIff(ttl, h, id, group, gate, c, p);
    assert h.book[group] == R.Rule(group, single, transfer, n.lastSeq + 1);
  }

  // ---------- Serial runs ----------

  datatype Op =
    | Entry(id: string, group: string, gate: string, c: Clock, p: T.Persist)
    | Exit(id: string, gate: string, at: int, p: T.Persist, undo: T.Persist)
    | Sweep(now: int)
    | NewRules(book: R.Book)
    | CloseStore
    | Restart  // memory is gone: the tickets come back from their files

  datatype Result = OfEntry(e: EntryResult) | OfExit(x: ExitResult) | Silent

  function Apply(ttl: int, h: Hall, op: Op): (Hall, Result) {
    match op
    case Entry(id, group, gate, c, p) => var (h', e) := Enter(ttl, h, id, group, gate, c, p); (h', OfEntry(e))
    case Exit(id, gate, at, p, undo) => var (h', x) := Leave(h, id, gate, at, p, undo); (h', OfExit(x))
    case Sweep(now) => (h.(window := D.Apply(ttl, h.window, D.Sweep(now))), Silent)
    case NewRules(book) => (h.(book := book), Silent)
    case CloseStore => (h.(tickets := T.Apply(h.tickets, T.Close)), Silent)
    case Restart => (h.(tickets := T.Apply(h.tickets, T.Reopen), window := map[]), Silent)
  }

  function Run(ttl: int, h: Hall, ops: seq<Op>): Hall {
    if ops == [] then h else Apply(ttl, Run(ttl, h, ops[..|ops| - 1]), ops[|ops| - 1]).0
  }

  function StatusOf(h: Hall, id: string): Option<T.Status> {
    if id in h.tickets.records then Some(h.tickets.records[id].status) else None
  }

  // ---------- The window never outlives a journey ----------

  // A key in the window belongs to a ticket that is not unused.
  ghost predicate WindowGuarded(h: Hall) {
    forall id :: id in h.window ==> id in h.tickets.records && h.tickets.records[id].status != T.Unused
  }

  // Besides, records carry their own id, in memory and on disk.
  ghost predicate Guarded(h: Hall) {
    Filed(h) && T.Sound(h.tickets.dir) && WindowGuarded(h)
  }

  // An entry leaves the store alone or marks the one ticket.
  lemma EnterMarks(ttl: int, h: Hall, id: string, group: string, gate: string, c: Clock, p: T.Persist)
    requires Filed(h)
    ensures var (h', r) := Enter(ttl, h, id, group, gate, c, p);
            var mark := T.MarkEntered(id, gate, c.mark, p);
            && (h'.tickets == h.tickets || h'.tickets == T.Apply(h.tickets, mark))
            && (r.Accepted? ==> h'.tickets == T.Apply(h.tickets, mark) && T.ErrorOf(h.tickets, mark) == T.Success)
            && (h'.tickets != h.tickets ==> StatusOf(h, id) == Some(T.Unused))
            && (h'.tickets != h.tickets && !r.Accepted? ==> T.ErrorOf(h.tickets, mark) != T.Success)
  {
  }

  lemma EnterKeepsSound(ttl: int, h: Hall, id: string, group: string, gate: string, c: Clock, p: T.Persist)
    requires Filed(h) && T.Sound(h.tickets.dir)
    ensures T.Sound(Enter(ttl, h, id, group, gate, c, p).0.tickets.dir)
  {
    EnterMarks(ttl, h, id, group, gate, c, p);
    T.StepKeepsKeyed(h.tickets, T.MarkEntered(id, gate, c.mark, p));
  }

  lemma EnterKeepsWindow(ttl: int, h: Hall, id: string, group: string, gate: string, c: Clock, p: T.Persist)
    requires Filed(h) && WindowGuarded(h)
    ensures WindowGuarded(Enter(ttl, h, id, group, gate, c, p).0)
    ensures Enter(ttl, h, id, group, gate, c, p).1 != Refused(Duplicate)
  {
  }

  lemma EnterKeepsGuarded(ttl: int, h: Hall, id: string, group: string, gate: string, c: Clock, p: T.Persist)
    requires Guarded(h)
    ensures Guarded(Enter(ttl, h, id, group, gate, c, p).0)
    ensures Enter(ttl, h, id, group, gate, c, p).1 != Refused(Duplicate)
  {
    EnterKeepsSound(ttl, h, id, group, gate, c, p);
    EnterKeepsWindow(ttl, h, id, group, gate, c, p);
    EnterKeepsFiled(ttl, h, id, group, gate, c, p);
  }

  // Undoing touches one ticket: it ends unused and out of the window.
  lemma UndoneMoves(h: Hall, id: string, p: T.Persist, other: string)
    ensures var h' := Undone(h, id, p);
            && h'.tickets.records.Keys == h.tickets.records.Keys
            && h'.window == h.window - {id}
            && (other in h.tickets.records ==> h'.tickets.records[other].id == h.tickets.records[other].id)
            && StatusOf(h', other) ==
               if other == id && id in h.tickets.records then Some(T.Unused) else StatusOf(h, other)
  {
  }

  lemma MarkMoves(s: T.Store, id: string, gate: string, at: int, p: T.Persist, other: string)
    requires id in s.records
    ensures var op := T.MarkExited(id, gate, at, p);
            var s', err := T.Apply(s, op), T.ErrorOf(s, op);
            && s'.records.Keys == s.records.Keys
            && (other in s.records ==> s'.records[other].id == s.records[other].id)
            && (other in s.records ==>
                  s'.records[other].status == if other == id && !s.closed then T.Exited else s.records[other].status)
            && (err == T.Success ==> !s.closed)
  {
  }

  lemma LeaveMoves(h: Hall, id: string, gate: string, at: int, p: T.Persist, undo: T.Persist, other: string)
    ensures var (h', r) := Leave(h, id, gate, at, p, undo);
            && h'.tickets.records.Keys == h.tickets.records.Keys
            && (other in h.tickets.records ==> h'.tickets.records[other].id == h.tickets.records[other].id)
            && (other != id ==> StatusOf(h', other) == StatusOf(h, other))
            && (r.Completed? ==>
                  && h'.window == h.window
                  && StatusOf(h, id) == Some(T.Entered) && StatusOf(h', id) == Some(T.Exited))
            && (r.Failed? && StatusOf(h, id).Some? ==>
                  && h'.window == h.window - {id}
                  && StatusOf(h', id) == Some(T.Unused))
            && (StatusOf(h, id).None? ==> h' == h)
  {
    if id in h.tickets.records {
      MarkMoves(h.tickets, id, gate, at, p, other);
      MarkMoves(h.tickets, id, gate, at, p, id);
      UndoneMoves(h, id, undo, other);
      UndoneMoves(h, id, undo, id);
      var marked := h.(tickets := T.Apply(h.tickets, T.MarkExited(id, gate, at, p)));
      UndoneMoves(marked, id, undo, other);
      UndoneMoves(marked, id, undo, id);
    }
  }

  // The store operations of an exit.
  function Marking(s: T.Store, id: string, gate: string, at: int, p: T.Persist): T.Store {
    T.Apply(s, T.MarkExited(id, gate, at, p))
  }

  function Resetting(s: T.Store, id: string, p: T.Persist): T.Store {
    T.Apply(s, T.ResetEntry(id, p))
  }

  lemma LeaveMarks(h: Hall, id: string, gate: string, at: int, p: T.Persist, undo: T.Persist)
    ensures var (h', r) := Leave(h, id, gate, at, p, undo);
            var s, marked := h.tickets, Marking(h.tickets, id, gate, at, p);
            if StatusOf(h, id).None? then h' == h && r.Failed?
            else if StatusOf(h, id) != Some(T.Entered) then h'.tickets == Resetting(s, id, undo) && r.Failed?
            else if T.ErrorOf(s, T.MarkExited(id, gate, at, p)) != T.Success
            then h'.tickets == Resetting(marked, id, undo) && r.Failed?
            else h'.tickets == marked && r.Completed?
  {
  }

  lemma LeaveKeepsSound(h: Hall, id: string, gate: string, at: int, p: T.Persist, undo: T.Persist)
    requires Guarded(h)
    ensures T.Sound(Leave(h, id, gate, at, p, undo).0.tickets.dir)
  {
    LeaveMarks(h, id, gate, at, p, undo);
    T.StepKeepsKeyed(h.tickets, T.MarkExited(id, gate, at, p));
    T.StepKeepsKeyed(h.tickets, T.ResetEntry(id, undo));
    T.StepKeepsKeyed(Marking(h.tickets, id, gate, at, p), T.ResetEntry(id, undo));
  }

  lemma LeaveKeepsGuarded(h: Hall, id: string, gate: string, at: int, p: T.Persist, undo: T.Persist)
    requires Guarded(h)
    ensures Guarded(Leave(h, id, gate, at, p, undo).0)
  {
    var h' := Leave(h, id, gate, at, p, undo).0;
    LeaveMoves(h, id, gate, at, p, undo, id);
    LeaveKeepsFiled(h, id, gate, at, p, undo);
    LeaveKeepsSound(h, id, gate, at, p, undo);
    forall other | other in h'.window
      ensures other in h'.tickets.records && h'.tickets.records[other].status != T.Unused
    {
      LeaveMoves(h, id, gate, at, p, undo, other);
      assert StatusOf(h', other).Some?;
    }
  }

  lemma StepKeepsGuarded(ttl: int, h: Hall, op: Op)
    requires Guarded(h)
    ensures Guarded(Apply(ttl, h, op).0)
    ensures Apply(ttl, h, op).1 != OfEntry(Refused(Duplicate))
  {
    match op
    case Entry(id, group, gate, c, p) => EnterKeepsGuarded(ttl, h, id, group, gate, c, p);
    case Exit(id, gate, at, p, undo) => LeaveKeepsGuarded(h, id, gate, at, p, undo);
    case Restart => T.DiskIsKeyed(h.tickets.dir);
    case _ =>
  }

  // From an empty window, a swipe is never refused as a duplicate: by the time
  // the window is consulted the ticket is unused, and then its key is gone.
  lemma {:induction false} NeverDuplicate(ttl: int, h: Hall, ops: seq<Op>, op: Op)
    requires Guarded(h)
    ensures Guarded(Run(ttl, h, ops))
    ensures Apply(ttl, Run(ttl, h, ops), op).1 != OfEntry(Refused(Duplicate))
  {
    if ops != [] {
      NeverDuplicate(ttl, h, ops[..|ops| - 1], ops[|ops| - 1]);
      StepKeepsGuarded(ttl, Run(ttl, h, ops[..|ops| - 1]), ops[|ops| - 1]);
    }
    StepKeepsGuarded(ttl, Run(ttl, h, ops), op);
  }

  // ---------- What a ticket's history adds up to ----------

  // Read off the run, for one ticket: entries accepted, exits that failed, moves
  // from Unused to Entered, exits completed, exits that failed on an entered ticket.
  datatype Tally = Tally(accepted: nat, failed: nat, moves: nat, completed: nat, aborted: nat)

  function TallyStep(h: Hall, op: Op, id: string, h': Hall, r: Result, t: Tally): Tally {
    var mine := (op.Entry? || op.Exit?) && op.id == id;
    Tally(t.accepted + Bit(mine && r.OfEntry? && r.e.Accepted?),
          t.failed + Bit(mine && r.OfExit? && r.x.Failed?),
          t.moves + Bit(mine && r.OfEntry? && StatusOf(h, id) == Some(T.Unused) && StatusOf(h', id) == Some(T.Entered)),
          t.completed + Bit(mine && r.OfExit? && r.x.Completed?),
          t.aborted + Bit(mine && r.OfExit? && r.x.Failed? && StatusOf(h, id) == Some(T.Entered)))
  }

  function TallyOf(ttl: int, h: Hall, ops: seq<Op>, id: string): Tally {
    if ops == [] then Tally(0, 0, 0, 0, 0) else
    var before := Run(ttl, h, ops[..|ops| - 1]);
    var last := ops[|ops| - 1];
    var (after, r) := Apply(ttl, before, last);
    TallyStep(before, last, id, after, r, TallyOf(ttl, h, ops[..|ops| - 1], id))
  }

  // What an entry swipe of a ticket does to the tickets' states.
  lemma EnterMoves(ttl: int, h: Hall, id: string, group: string, gate: string, c: Clock, p: T.Persist, other: string)
    requires Guarded(h)
    ensures var (h', r) := Enter(ttl, h, id, group, gate, c, p);
            && (other != id ==> StatusOf(h', other) == StatusOf(h, other))
            && (r.Accepted? ==> StatusOf(h, id) == Some(T.Unused) && StatusOf(h', id) == Some(T.Entered))
            && (StatusOf(h', id) == StatusOf(h, id)
                || (StatusOf(h, id) == Some(T.Unused) && StatusOf(h', id) == Some(T.Entered)))
  {
  }

  // One step, seen from one ticket.
  lemma StepTallies(ttl: int, h: Hall, op: Op, id: string, t: Tally)
    requires Guarded(h) && id in h.tickets.records && !op.Restart?
    ensures var (h', r) := Apply(ttl, h, op);
            var t' := TallyStep(h, op, id, h', r, t);
            var before, after := h.tickets.records[id].status, StatusOf(h', id);
            && after.Some?
            && t'.moves - t'.completed - t'.aborted - Bit(after.value == T.Entered)
               == t.moves - t.completed - t.aborted - Bit(before == T.Entered)
            && t'.accepted + Bit(after.value == T.Unused) - t'.failed
               <= t.accepted + Bit(before == T.Unused) - t.failed
            && t'.accepted - t'.moves <= t.accepted - t.moves
  {
    match op
    case Entry(id', group, gate, c, p) => EnterMoves(ttl, h, id', group, gate, c, p, id);
    case Exit(id', gate, at, p, undo) => LeaveMoves(h, id', gate, at, p, undo, id);
    case _ =>
  }

  // Between restarts, for a ticket that starts unused: every move to Entered was completed by an exit,
  // aborted by a failed one, or is still open; and it is accepted once, plus at
  // most once for every failed exit.
  lemma {:induction false} HistoryAddsUp(ttl: int, h: Hall, ops: seq<Op>, id: string)
    requires Guarded(h) && StatusOf(h, id) == Some(T.Unused) && forall op :: op in ops ==> !op.Restart?
    ensures var t, e := TallyOf(ttl, h, ops, id), StatusOf(Run(ttl, h, ops), id);
            && e.Some?
            && t.moves == t.completed + t.aborted + Bit(e.value == T.Entered)
            && t.accepted + Bit(e.value == T.Unused) <= 1 + t.failed
            && t.accepted <= t.moves
  {
    if ops != [] {
      var front, last := ops[..|ops| - 1], ops[|ops| - 1];
      HistoryAddsUp(ttl, h, front, id);
      assert last in ops;
      NeverDuplicate(ttl, h, front, last);
      StepTallies(ttl, Run(ttl, h, front), last, id, TallyOf(ttl, h, front, id));
    }
  }

  // ---------- What an entered or exited ticket carries ----------

  // The entry that last took the ticket from Unused to Entered, the last one that
  // was accepted, and the exit that was last completed, by their place in the run.
  function LastEntering(ttl: int, h: Hall, ops: seq<Op>, id: string): Option<nat> {
    if ops == [] then None else
    var k := |ops| - 1;
    var before := Run(ttl, h, ops[..k]);
    if ops[k].Entry? && ops[k].id == id && StatusOf(before, id) == Some(T.Unused)
       && StatusOf(Apply(ttl, before, ops[k]).0, id) == Some(T.Entered)
    then Some(k) else LastEntering(ttl, h, ops[..k], id)
  }

  function LastAccepted(ttl: int, h: Hall, ops: seq<Op>, id: string): Option<nat> {
    if ops == [] then None else
    var k := |ops| - 1;
    var r := Apply(ttl, Run(ttl, h, ops[..k]), ops[k]).1;
    if ops[k].Entry? && ops[k].id == id && r.OfEntry? && r.e.Accepted?
    then Some(k) else LastAccepted(ttl, h, ops[..k], id)
  }

  function LastCompleted(ttl: int, h: Hall, ops: seq<Op>, id: string): Option<nat> {
    if ops == [] then None else
    var k := |ops| - 1;
    var r := Apply(ttl, Run(ttl, h, ops[..k]), ops[k]).1;
    if ops[k].Exit? && ops[k].id == id && r == OfExit(Completed)
    then Some(k) else LastCompleted(ttl, h, ops[..k], id)
  }

  // The record shows gate and time of the entry.
  predicate ShowsEntry(rec: T.Record, ops: seq<Op>, i: Option<nat>) {
    && i.Some? && i.value < |ops| && ops[i.value].Entry?
    && rec.entryStation == ops[i.value].gate && rec.enteredAt == ops[i.value].c.mark
  }

  predicate ShowsExit(rec: T.Record, ops: seq<Op>, i: Option<nat>) {
    && i.Some? && i.value < |ops| && ops[i.value].Exit?
    && rec.exitStation == ops[i.value].gate && rec.exitedAt == ops[i.value].at
  }

  // What an entry swipe leaves of a ticket's record.
  lemma EntryShows(ttl: int, h: Hall, id: string, group: string, gate: string, c: Clock, p: T.Persist, other: string)
    requires Guarded(h) && other in h.tickets.records
    ensures var (h', r) := Enter(ttl, h, id, group, gate, c, p);
            && other in h'.tickets.records
            && var was, rec := h.tickets.records[other], h'.tickets.records[other];
               if id == other && was.status == T.Unused && rec.status == T.Entered
               then && rec.entryStation == gate && rec.enteredAt == c.mark && (r.Accepted? <==> p.Commits?)
               else rec == was && (id == other ==> !r.Accepted?)
  {
    EntryEffect(ttl, h, id, group, gate, c, p);
    AcceptedIff(ttl, h, id, group, gate, c, p);
    T.EnterEffect(h.tickets, id, gate, c.mark, p);
  }

  // What an exit swipe leaves of it.
  lemma ExitShows(h: Hall, id: string, gate: string, at: int, p: T.Persist, undo: T.Persist, other: string)
    requires Guarded(h) && other in h.tickets.records
    ensures var (h', r) := Leave(h, id, gate, at, p, undo);
            && other in h'.tickets.records
            && var was, rec := h.tickets.records[other], h'.tickets.records[other];
               if id != other then rec == was
               else if r == Completed
               then && rec.status == T.Exited && rec.exitStation == gate && rec.exitedAt == at
                    && was.status == T.Entered
                    && rec.entryStation == was.entryStation && rec.enteredAt == was.enteredAt
               else rec.status == T.Unused && rec.entryStation == "" && rec.enteredAt == 0
  {
    CompletedIff(h, id, gate, at, p, undo);
    T.ExitEffect(h.tickets, id, gate, at, p);
    T.ResetEffect(h.tickets, id, undo);
    T.StepKeepsKeyed(h.tickets, T.MarkExited(id, gate, at, p));
    T.ResetEffect(T.Apply(h.tickets, T.MarkExited(id, gate, at, p)), id, undo);
  }

  // The places of the last entering and accepted entry and the last completed
  // exit, and what the record shows of them.
  ghost predicate Carries(rec: T.Record, ops: seq<Op>, entering: Option<nat>, accepted: Option<nat>, completed: Option<nat>) {
    && (rec.status != T.Unused ==>
          && ShowsEntry(rec, ops, entering)
          && (accepted == entering <==> ops[entering.value].p.Commits?))
    && (rec.status == T.Exited ==> ShowsExit(rec, ops, completed) && completed.value > entering.value)
    && (accepted.Some? ==> entering.Some? && accepted.value <= entering.value < |ops|)
    && (entering.Some? ==> entering.value < |ops|)
  }

  lemma StepCarries(ttl: int, h: Hall, front: seq<Op>, op: Op, id: string,
                    entering: Option<nat>, accepted: Option<nat>, completed: Option<nat>)
    requires Guarded(h) && id in h.tickets.records && !op.Restart?
    requires Carries(h.tickets.records[id], front, entering, accepted, completed)
    ensures var (h', r) := Apply(ttl, h, op);
            var k := |front|;
            var enters := op.Entry? && op.id == id && StatusOf(h, id) == Some(T.Unused)
                          && StatusOf(h', id) == Some(T.Entered);
            && id in h'.tickets.records
            && Carries(h'.tickets.records[id], front + [op],
                       if enters then Some(k) else entering,
                       if op.Entry? && op.id == id && r.OfEntry? && r.e.Accepted? then Some(k) else accepted,
                       if op.Exit? && op.id == id && r == OfExit(Completed) then Some(k) else completed)
  {
    match op
    case Entry(id', group, gate, c, p) => EntryShows(ttl, h, id', group, gate, c, p, id);
    case Exit(id', gate, at, p, undo) => ExitShows(h, id', gate, at, p, undo, id);
    case _ =>
  }

  // In every serial run without restarts from an unused ticket: an entered ticket
  // carries gate and time of the entry that took it there, and that is the last
  // accepted entry if and only if its write committed; an exited one carries
  // besides gate and time of its last completed exit.
  lemma {:induction false} TicketCarriesItsJourney(ttl: int, h: Hall, ops: seq<Op>, id: string)
    requires Guarded(h) && StatusOf(h, id) == Some(T.Unused) && forall op :: op in ops ==> !op.Restart?
    ensures var e := Run(ttl, h, ops);
            && id in e.tickets.records
            && Carries(e.tickets.records[id], ops, LastEntering(ttl, h, ops, id), LastAccepted(ttl, h, ops, id),
                       LastCompleted(ttl, h, ops, id))
  {
    if ops != [] {
      var front, last := ops[..|ops| - 1], ops[|ops| - 1];
      TicketCarriesItsJourney(ttl, h, front, id);
      assert last in ops && ops == front + [last];
      NeverDuplicate(ttl, h, front, last);
      StepCarries(ttl, Run(ttl, h, front), front, last, id, LastEntering(ttl, h, front, id),
                  LastAccepted(ttl, h, front, id), LastCompleted(ttl, h, front, id));
    }
  }

  // An entry refused because the file could not be written still shows in memory:
  // the ticket is entered, and no accepted entry of it exists.
  lemma UnsavedEntryShows(ttl: int, h: Hall, id: string, group: string, gate: string, c: Clock, cut: bool)
    requires Guarded(h) && StatusOf(h, id) == Some(T.Unused) && id != "" && !h.tickets.closed
    requires FlagSet(h.book, group, h.tickets.records[id].transferable)
    ensures var ops := [Entry(id, group, gate, c, T.WriteFails(cut))];
            && StatusOf(Run(ttl, h, ops), id) == Some(T.Entered)
            && LastEntering(ttl, h, ops, id) == Some(0) && LastAccepted(ttl, h, ops, id) == None
  {
    var p := T.WriteFails(cut);
    var ops := [Entry(id, group, gate, c, p)];
    assert ops[..0] == [];
    AcceptedIff(ttl, h, id, group, gate, c, p);
    EntryEffect(ttl, h, id, group, gate, c, p);
    T.EnterEffect(h.tickets, id, gate, c.mark, p);
  }

  // ---------- Across restarts ----------

  function DiskStatus(s: T.Store, id: string): Option<T.Status> {
    var disk := T.Disk(s.dir);
    if id in disk then Some(disk[id].status) else None
  }

  // The ticket could be accepted, at once or after a restart.
  predicate Spare(s: T.Store, id: string) {
    (id in s.records && s.records[id].status == T.Unused) || DiskStatus(s, id) == Some(T.Unused)
  }

  lemma OthersStayInMemory(s: T.Store, op: T.Op, id: string)
    requires !op.Reopen? && T.KeyOf(op) != id
    ensures var records := T.Apply(s, op).records;
            (id in records <==> id in s.records) && (id in records ==> records[id] == s.records[id])
  {
  }

  lemma OthersStayOnDisk(s: T.Store, op: T.Op, id: string)
    requires T.Keyed(s) && T.KeyOf(op) != id
    ensures DiskStatus(T.Apply(s, op), id) == DiskStatus(s, id)
  {
    T.StepKeepsKeyed(s, op);
  }

  lemma OthersStaySpare(s: T.Store, op: T.Op, id: string)
    requires T.Keyed(s) && !op.Reopen? && T.KeyOf(op) != id
    ensures Spare(T.Apply(s, op), id) == Spare(s, id)
  {
    OthersStayInMemory(s, op, id);
    OthersStayOnDisk(s, op, id);
  }

  lemma MarkedIsNotSpare(s: T.Store, op: T.Op)
    requires T.Keyed(s) && (op.MarkEntered? || op.MarkExited?)
    ensures T.ErrorOf(s, op) == T.Success ==> !Spare(T.Apply(s, op), op.id)
    ensures Spare(T.Apply(s, op), op.id) ==> Spare(s, op.id)
  {
    T.StepKeepsKeyed(s, op);
  }

  lemma EnterSpares(ttl: int, h: Hall, id: string, group: string, gate: string, c: Clock, p: T.Persist, other: string)
    requires Guarded(h)
    ensures var (h', r) := Enter(ttl, h, id, group, gate, c, p);
            Bit(id == other && r.Accepted?) + Bit(Spare(h'.tickets, other)) <= Bit(Spare(h.tickets, other))
  {
    EnterMarks(ttl, h, id, group, gate, c, p);
    EnterMoves(ttl, h, id, group, gate, c, p, id);
    var mark := T.MarkEntered(id, gate, c.mark, p);
    if other == id {
      MarkedIsNotSpare(h.tickets, mark);
    } else {
      OthersStaySpare(h.tickets, mark, other);
    }
  }

  lemma LeaveSpares(h: Hall, id: string, gate: string, at: int, p: T.Persist, undo: T.Persist, other: string)
    requires Guarded(h)
    ensures var (h', r) := Leave(h, id, gate, at, p, undo);
            Bit(Spare(h'.tickets, other)) <= Bit(Spare(h.tickets, other)) + Bit(id == other && r.Failed?)
  {
    var mark, reset := T.MarkExited(id, gate, at, p), T.ResetEntry(id, undo);
    LeaveMarks(h, id, gate, at, p, undo);
    if other == id {
      MarkedIsNotSpare(h.tickets, mark);
    } else {
      T.StepKeepsKeyed(h.tickets, mark);
      OthersStaySpare(h.tickets, mark, other);
      OthersStaySpare(h.tickets, reset, other);
      OthersStaySpare(Marking(h.tickets, id, gate, at, p), reset, other);
    }
  }

  lemma RestartSpares(h: Hall, id: string)
    ensures Spare(T.Apply(h.tickets, T.Reopen), id) ==> Spare(h.tickets, id)
  {
  }

  lemma StepSpares(ttl: int, h: Hall, op: Op, id: string, t: Tally)
    requires Guarded(h)
    ensures var (h', r) := Apply(ttl, h, op);
            var t' := TallyStep(h, op, id, h', r, t);
            t'.accepted + Bit(Spare(h'.tickets, id)) - t'.failed <= t.accepted + Bit(Spare(h.tickets, id)) - t.failed
  {
    match op
    case Entry(id', group, gate, c, p) => EnterSpares(ttl, h, id', group, gate, c, p, id);
    case Exit(id', gate, at, p, undo) => LeaveSpares(h, id', gate, at, p, undo, id);
    case Restart => RestartSpares(h, id);
    case _ =>
  }

  // Over any number of restarts, failed writes and closes, a ticket is accepted
  // once, if memory or disk has it unused, plus at most once for every failed exit.
  lemma {:induction false} EntriesBoundedAcrossRestarts(ttl: int, h: Hall, ops: seq<Op>, id: string)
    requires Guarded(h)
    ensures var t := TallyOf(ttl, h, ops, id);
            t.accepted + Bit(Spare(Run(ttl, h, ops).tickets, id)) <= Bit(Spare(h.tickets, id)) + t.failed
  {
    if ops != [] {
      var front, last := ops[..|ops| - 1], ops[|ops| - 1];
      EntriesBoundedAcrossRestarts(ttl, h, front, id);
      NeverDuplicate(ttl, h, front, last);
      StepSpares(ttl, Run(ttl, h, front), last, id, TallyOf(ttl, h, front, id));
    }
  }

  // Exited is not terminal: a ticket leaves it by an exit swipe of its own, and
  // by a restart that finds another state on disk, and by nothing else.
  lemma ExitedEndsIff(ttl: int, h: Hall, op: Op, id: string)
    requires Guarded(h) && StatusOf(h, id) == Some(T.Exited)
    ensures StatusOf(Apply(ttl, h, op).0, id) != Some(T.Exited) <==>
              || (op.Exit? && op.id == id)
              || (op.Restart? && DiskStatus(h.tickets, id) != Some(T.Exited))
    ensures op.Exit? && op.id == id ==>
      Apply(ttl, h, op).1 == OfExit(Failed(InUse)) && StatusOf(Apply(ttl, h, op).0, id) == Some(T.Unused)
  {
    match op
    case Entry(id', group, gate, c, p) => EnterMoves(ttl, h, id', group, gate, c, p, id);
    case Exit(id', gate, at, p, undo) => LeaveMoves(h, id', gate, at, p, undo, id);
    case _ =>
  }

  // Two swipes of a ticket that both looked it up unused: the second is caught by
  // the window exactly when its check reads the clock less than ttl after the
  // first one's mark was filed; past that it is accepted too, as the store itself
  // does not look at the state it overwrites.
  lemma StaleCopyAdmittedIff(ttl: int, h: Hall, rec: T.Record, group: string, gate: string, c: Clock, p: T.Persist,
                             group': string, gate': string, c': Clock, p': T.Persist)
    requires Admitted(ttl, h, rec, group, gate, c, p).1.Accepted?
    ensures var r' := Admitted(ttl, Admitted(ttl, h, rec, group, gate, c, p).0, rec, group', gate', c', p').1;
            && (r' == Refused(Duplicate) <==> c'.check < c.set' + ttl)
            && (r'.Accepted? <==>
                  c'.check >= c.set' + ttl && Allowed(h.book, group', rec.transferable) && p'.Commits?)
  {
  }

  // ---------- The validator ----------

  class Validator {
    const store: T.TicketStore
    const rules: R.RuleCache
    const dedup: D.DedupManager

    constructor (store: T.TicketStore, rules: R.RuleCache, dedup: D.DedupManager)
      ensures this.store == store && this.rules == rules && this.dedup == dedup
    {
      this.store, this.rules, this.dedup := store, rules, dedup;
    }

    function Value(): Hall
      reads this, store, rules, dedup
    {
      Hall(store.Value(), dedup.items, rules.entries)
    }

    // rec is the copy that the caller looked up; the store may have moved on.
    method ValidateEntry(rec: T.Record, group: string, gate: string, c: Clock, p: T.Persist) returns (r: EntryResult)
      modifies store, dedup
      ensures (Value(), r) == Admitted(dedup.ttl, old(Value()), rec, group, gate, c, p)
    {
      if rec.id == "" {
        return Refused(NotFound);
      }
      match rec.status {
        case Exited => return Refused(Used);
        case Entered => return Refused(InUse);
        case Unused =>
      }
      var duplicate := dedup.CheckKey(rec.id, c.check);
      if duplicate {
        return Refused(Duplicate);
      }
      var current := rules.Get(group);
      if current.None? {
        current := rules.Get(R.DEFAULT_GROUP);
      }
      if current.None? || !current.value.Allows(rec.transferable) {
        return Refused(RuleDenied);
      }
      var err := store.Enter(rec.id, gate, c.mark, p);
      if err != T.Success {
        return Refused(StoreError(err));
      }
      dedup.SetKey(rec.id, c.set');
      return Accepted(current.value.version);
    }

    // A failed mark clears the window at once; the read-back guards against a
    // store that reports success without having changed the record.
    method ValidateExit(rec: T.Record, gate: string, at: int, p: T.Persist) returns (r: ExitResult)
      modifies store, dedup
      ensures (Value(), r) == Validated(old(Value()), rec, gate, at, p)
    {
      if rec.status != T.Entered {
        return Failed(InUse);
      }
      var err := store.Exit(rec.id, gate, at, p);
      if err == T.Success {
        var confirmed := store.Lookup(rec.id);
        if confirmed.Some? && confirmed.value.status == T.Exited {
          return Completed;
        }
        err := T.StoreClosed;
      }
      dedup.ClearKey(rec.id);
      return Failed(StoreError(err));
    }
  }
}
