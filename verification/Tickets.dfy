// The ticket store and its files (internal/ticket/ticket.go).
//
// Each record lives in a file of its own, written to a temporary name first and
// renamed over the final one. A persist may fail at any point; a crash leaves
// the directory as one of those failures does.
module Tickets {
  import opened Maps

  datatype Status = Unused | Entered | Exited

  datatype Record = Record(
    id: string,
    ticketType: string,
    transferable: bool,
    entryStation: string,
    exitStation: string,
    status: Status,
    enteredAt: int,
    exitedAt: int)

  // ---------- File names ----------

  // filepath.Ext of a name without separators: from the last dot on.
  function Ext(name: string): string {
    if name == "" then "" else
    var front, last := name[..|name| - 1], name[|name| - 1];
    if last == '.' then "." else if Ext(front) == "" then "" else Ext(front) + [last]
  }

  function FileName(id: string): string {
    id + ".json"
  }

  function TempName(id: string): string {
    FileName(id) + ".tmp"
  }

  lemma {:induction false} ExtOfSuffix(base: string, suffix: string)
    requires suffix != "" && suffix[0] == '.' && forall i :: 0 < i < |suffix| ==> suffix[i] != '.'
    ensures Ext(base + suffix) == suffix
  {
    var n := |suffix| - 1;
    assert (base + suffix)[..|base| + n] == base + suffix[..n];
    if n > 0 {
      ExtOfSuffix(base, suffix[..n]);
      assert suffix == suffix[..n] + [suffix[n]];
    } else {
      assert suffix == ".";
    }
  }

  // Final files are told apart by their ticket, and no temporary file is ever
  // taken for a final one.
  lemma NamesDiffer(a: string, b: string)
    ensures FileName(a) == FileName(b) ==> a == b
    ensures Ext(FileName(a)) == ".json" && Ext(TempName(a)) == ".tmp"
    ensures TempName(a) != FileName(b)
  {
    ExtOfSuffix(a, ".json");
    ExtOfSuffix(FileName(a), ".tmp");
    ExtOfSuffix(b, ".json");
    assert FileName(a)[..|FileName(a)| - 5] == a && FileName(b)[..|FileName(b)| - 5] == b;
  }

  // ---------- The directory ----------

  // What a file decodes to; a file cut while it was written decodes to nothing.
  datatype File = Torn | Whole(rec: Record)

  type Dir = map<string, File>

  // How a persist ends: while writing the temporary file (with or without a cut
  // file left), at the rename, or committed.
  datatype Persist = WriteFails(cut: bool) | RenameFails | Commits

  function Persisted(dir: Dir, rec: Record, p: Persist): Dir {
    match p
    case WriteFails(cut) => if cut then dir[TempName(rec.id) := Torn] else dir
    case RenameFails => dir[TempName(rec.id) := Whole(rec)]
    case Commits => (dir - {TempName(rec.id)})[FileName(rec.id) := Whole(rec)]
  }

  // Every final file is whole and carries its own ticket.
  predicate Sound(dir: Dir) {
    forall name :: name in dir && Ext(name) == ".json" ==> dir[name].Whole? && name == FileName(dir[name].rec.id)
  }

  predicate OnDisk(dir: Dir, id: string) {
    FileName(id) in dir && dir[FileName(id)].Whole?
  }

  function DiskIds(dir: Dir): set<string> {
    set name | name in dir && Ext(name) == ".json" && dir[name].Whole? :: dir[name].rec.id
  }

  // The tickets that the final files hold.
  function Disk(dir: Dir): map<string, Record> {
    map id | id in DiskIds(dir) && OnDisk(dir, id) :: dir[FileName(id)].rec
  }

  lemma DiskHas(dir: Dir, id: string)
    requires Sound(dir)
    ensures id in Disk(dir) <==> FileName(id) in dir
    ensures id in Disk(dir) ==> Disk(dir)[id] == dir[FileName(id)].rec && Disk(dir)[id].id == id
  {
    NamesDiffer(id, id);
    if FileName(id) in dir {
      NamesDiffer(id, dir[FileName(id)].rec.id);
      assert dir[FileName(id)].rec.id in DiskIds(dir);
    }
  }

  // A persist leaves the final file of every other ticket alone, and its own too
  // unless it commits.
  lemma PersistAt(dir: Dir, rec: Record, p: Persist, id: string)
    ensures var after, file := Persisted(dir, rec, p), FileName(id);
            if p.Commits? && id == rec.id then file in after && after[file] == Whole(rec)
            else (file in after <==> file in dir) && (file in dir ==> after[file] == dir[file])
  {
    NamesDiffer(rec.id, id);
  }

  lemma PersistKeepsSound(dir: Dir, rec: Record, p: Persist)
    requires Sound(dir)
    ensures Sound(Persisted(dir, rec, p))
  {
    NamesDiffer(rec.id, rec.id);
    var file, temp := FileName(rec.id), TempName(rec.id);
    assert Ext(temp) == ".tmp";
    forall name | name in Persisted(dir, rec, p) && Ext(name) == ".json"
      ensures Persisted(dir, rec, p)[name].Whole?
      ensures name == FileName(Persisted(dir, rec, p)[name].rec.id)
    {
      assert name != temp;
      assert name in dir || name == file;
    }
  }

  lemma PersistShowsAt(dir: Dir, rec: Record, p: Persist, id: string)
    requires Sound(dir) && Sound(Persisted(dir, rec, p))
    ensures var after := Persisted(dir, rec, p);
            && (id in Disk(after) <==> id in Disk(dir) || (p.Commits? && id == rec.id))
            && (id in Disk(after) ==>
                  Disk(after)[id] == if p.Commits? && id == rec.id then rec else Disk(dir)[id])
  {
    DiskHas(dir, id);
    DiskHas(Persisted(dir, rec, p), id);
    PersistAt(dir, rec, p, id);
  }

  // Only a committed persist shows on disk, and then as exactly that record.
  lemma PersistShows(dir: Dir, rec: Record, p: Persist)
    requires Sound(dir)
    ensures Sound(Persisted(dir, rec, p))
    ensures Disk(Persisted(dir, rec, p)) == if p.Commits? then Disk(dir)[rec.id := rec] else Disk(dir)
  {
    PersistKeepsSound(dir, rec, p);
    forall id {
      PersistShowsAt(dir, rec, p, id);
    }
    SameMap(Disk(Persisted(dir, rec, p)), Disk(dir), rec.id, rec, p.Commits?);
  }

  lemma SameMap(after: map<string, Record>, before: map<string, Record>, key: string, rec: Record, put: bool)
    requires forall id :: id in after <==> id in before || (put && id == key)
    requires forall id :: id in after ==> after[id] == if put && id == key then rec else before[id]
    ensures after == if put then before[key := rec] else before
  {
  }

  // What is left beside the final files: a committed persist clears the temporary
  // name, a failed rename leaves the record there, a failed write at most a cut one.
  lemma PersistLeavesTemp(dir: Dir, rec: Record, p: Persist)
    ensures var after, temp := Persisted(dir, rec, p), rec.id + ".json" + ".tmp";
            && (p.Commits? ==> temp !in after)
            && (p.RenameFails? ==> temp in after && after[temp] == Whole(rec))
            && (p.WriteFails? ==> if p.cut then temp in after && after[temp] == Torn else after == dir)
  {
    NamesDiffer(rec.id, rec.id);
  }

  // ---------- The store ----------

  datatype Store = Store(records: map<string, Record>, closed: bool, dir: Dir)

  datatype Error = Success | StoreClosed | NotFound | NotPersisted

  datatype Op =
    | Put(rec: Record, p: Persist)
    | MarkEntered(id: string, station: string, at: int, p: Persist)
    | MarkExited(id: string, station: string, at: int, p: Persist)
    | ResetEntry(id: string, p: Persist)
    | Close
    | Reopen  // the process starts again on the same directory

  // The record an operation leaves in memory, if it gets that far.
  function Touched(s: Store, op: Op): Option<Record> {
    match op
    case Put(rec, _) => if s.closed then None else Some(rec)
    case MarkEntered(id, station, at, _) =>
      if s.closed || id !in s.records then None
      else Some(s.records[id].(status := Entered, entryStation := station, enteredAt := at))
    case MarkExited(id, station, at, _) =>
      if s.closed || id !in s.records then None
      else Some(s.records[id].(status := Exited, exitStation := station, exitedAt := at))
    case ResetEntry(id, _) =>
      if id !in s.records then None
      else Some(s.records[id].(status := Unused, entryStation := "", enteredAt := 0))
    case _ => None
  }

  function KeyOf(op: Op): string {
    match op
    case Put(rec, _) => rec.id
    case MarkEntered(id, _, _, _) => id
    case MarkExited(id, _, _, _) => id
    case ResetEntry(id, _) => id
    case _ => ""
  }

  function RecordsAfter(s: Store, op: Op): map<string, Record> {
    var rec := Touched(s, op);
    if rec.None? then s.records else s.records[KeyOf(op) := rec.value]
  }

  function DirAfter(s: Store, op: Op): Dir {
    var rec := Touched(s, op);
    if rec.None? || s.closed then s.dir else Persisted(s.dir, rec.value, op.p)
  }

  function Apply(s: Store, op: Op): Store {
    match op
    case Close => s.(closed := true)
    case Reopen => Store(Disk(s.dir), false, s.dir)
    case _ => Store(RecordsAfter(s, op), s.closed, DirAfter(s, op))
  }

  function ErrorOf(s: Store, op: Op): Error {
    if op.Close? || op.Reopen? || op.ResetEntry? then Success
    else if s.closed then StoreClosed
    else if !op.Put? && op.id !in s.records then NotFound
    else if op.p.Commits? then Success else NotPersisted
  }

  function Run(s: Store, ops: seq<Op>): Store {
    if ops == [] then s else Apply(Run(s, ops[..|ops| - 1]), ops[|ops| - 1])
  }

  // ---------- Crash safety ----------

  // An operation commits when it touches a record of an open store and its
  // persist reaches the rename.
  predicate CommitsRecord(s: Store, op: Op) {
    Touched(s, op).Some? && !s.closed && op.p.Commits?
  }

  function CommittedAfter(s: Store, op: Op, committed: map<string, Record>): map<string, Record> {
    if CommitsRecord(s, op) then committed[KeyOf(op) := Touched(s, op).value] else committed
  }

  // The last committed record of every ticket, read off the run.
  function Committed(s: Store, ops: seq<Op>): map<string, Record> {
    if ops == [] then Disk(s.dir) else
    var front := ops[..|ops| - 1];
    CommittedAfter(Run(s, front), ops[|ops| - 1], Committed(s, front))
  }

  function DirtyAfter(s: Store, op: Op, dirty: set<string>): set<string> {
    if op.Reopen? then {}
    else if Touched(s, op).None? then dirty
    else if CommitsRecord(s, op) then dirty - {KeyOf(op)}
    else dirty + {KeyOf(op)}
  }

  // The tickets whose last persist failed, or was skipped because the store was
  // closed, since the process started.
  function Dirty(s: Store, ops: seq<Op>): set<string> {
    if ops == [] then {} else
    var front := ops[..|ops| - 1];
    DirtyAfter(Run(s, front), ops[|ops| - 1], Dirty(s, front))
  }

  ghost predicate Keyed(s: Store) {
    Sound(s.dir) && forall id :: id in s.records ==> s.records[id].id == id
  }

  lemma TouchedIsOwn(s: Store, op: Op)
    requires forall id :: id in s.records ==> s.records[id].id == id
    ensures Touched(s, op).Some? ==> Touched(s, op).value.id == KeyOf(op)
  {
  }

  lemma StepDisk(s: Store, op: Op)
    requires Keyed(s)
    ensures Sound(DirAfter(s, op))
    ensures Disk(DirAfter(s, op)) == CommittedAfter(s, op, Disk(s.dir))
  {
    TouchedIsOwn(s, op);
    var rec := Touched(s, op);
    if rec.None? || s.closed {
      assert DirAfter(s, op) == s.dir;
    } else {
      PersistShows(s.dir, rec.value, op.p);
    }
  }

  lemma StepKeepsKeyed(s: Store, op: Op)
    requires Keyed(s)
    ensures Keyed(Apply(s, op))
    ensures Disk(Apply(s, op).dir) == CommittedAfter(s, op, Disk(s.dir))
  {
    StepDisk(s, op);
    DiskIsKeyed(s.dir);
  }

  lemma DiskIsKeyed(dir: Dir)
    requires Sound(dir)
    ensures forall id :: id in Disk(dir) ==> Disk(dir)[id].id == id
  {
    forall id | id in Disk(dir) ensures Disk(dir)[id].id == id {
      DiskHas(dir, id);
    }
  }

  // In memory as on disk, except for the given tickets.
  ghost predicate Agree(records: map<string, Record>, disk: map<string, Record>, ids: set<string>) {
    forall id :: id !in ids ==> (id in records <==> id in disk) && (id in records ==> records[id] == disk[id])
  }

  ghost predicate AgreeExcept(s: Store, ids: set<string>) {
    Agree(s.records, Disk(s.dir), ids)
  }

  lemma StepAgrees(s: Store, op: Op, disk: map<string, Record>, dirty: set<string>)
    requires Agree(s.records, disk, dirty) && !op.Reopen?
    ensures Agree(RecordsAfter(s, op), CommittedAfter(s, op, disk), DirtyAfter(s, op, dirty))
  {
  }

  lemma StepKeepsAgreement(s: Store, op: Op, dirty: set<string>)
    requires Keyed(s) && AgreeExcept(s, dirty)
    ensures AgreeExcept(Apply(s, op), DirtyAfter(s, op, dirty))
  {
    StepKeepsKeyed(s, op);
    if !op.Reopen? {
      StepAgrees(s, op, Disk(s.dir), dirty);
    }
  }

  // After any run, with failures and crashes at any point of any persist and any
  // number of restarts, the files hold exactly the last committed record of every
  // ticket, and memory agrees with them on every ticket that is not dirty.
  lemma {:induction false} CrashSafe(s: Store, ops: seq<Op>)
    requires Keyed(s) && AgreeExcept(s, {})
    ensures var e := Run(s, ops);
            && Keyed(e)
            && Disk(e.dir) == Committed(s, ops)
            && AgreeExcept(e, Dirty(s, ops))
  {
    if ops != [] {
      var front, last := ops[..|ops| - 1], ops[|ops| - 1];
      CrashSafe(s, front);
      StepKeepsKeyed(Run(s, front), last);
      StepKeepsAgreement(Run(s, front), last, Dirty(s, front));
    }
  }

  // ---------- What each operation leaves of a record ----------

  // One record of an open store was written: `disk` says whether its file was too.
  ghost predicate Wrote(s: Store, q: Store, id: string, rec: Record, disk: bool) {
    && q.records == s.records[id := rec] && q.closed == s.closed
    && Disk(q.dir) == if disk then Disk(s.dir)[id := rec] else Disk(s.dir)
  }

  // A closed store refuses, an unknown ticket is not found, and otherwise memory
  // takes the mark whether or not the file does.
  lemma EnterEffect(s: Store, id: string, station: string, at: int, p: Persist)
    requires Keyed(s)
    ensures var op := MarkEntered(id, station, at, p);
            var q, err := Apply(s, op), ErrorOf(s, op);
            && (s.closed ==> q == s && err == StoreClosed)
            && (!s.closed && id !in s.records ==> q == s && err == NotFound)
            && (!s.closed && id in s.records ==>
                  && err == (if p.Commits? then Success else NotPersisted)
                  && id in q.records && Wrote(s, q, id, q.records[id], p.Commits?)
                  && var was, rec := s.records[id], q.records[id];
                     && rec.status == Entered && rec.entryStation == station && rec.enteredAt == at
                     && rec.exitStation == was.exitStation && rec.exitedAt == was.exitedAt
                     && rec.id == id && rec.ticketType == was.ticketType && rec.transferable == was.transferable)
  {
    StepKeepsKeyed(s, MarkEntered(id, station, at, p));
  }

  lemma ExitEffect(s: Store, id: string, station: string, at: int, p: Persist)
    requires Keyed(s)
    ensures var op := MarkExited(id, station, at, p);
            var q, err := Apply(s, op), ErrorOf(s, op);
            && (s.closed ==> q == s && err == StoreClosed)
            && (!s.closed && id !in s.records ==> q == s && err == NotFound)
            && (!s.closed && id in s.records ==>
                  && err == (if p.Commits? then Success else NotPersisted)
                  && id in q.records && Wrote(s, q, id, q.records[id], p.Commits?)
                  && var was, rec := s.records[id], q.records[id];
                     && rec.status == Exited && rec.exitStation == station && rec.exitedAt == at
                     && rec.entryStation == was.entryStation && rec.enteredAt == was.enteredAt
                     && rec.id == id && rec.ticketType == was.ticketType && rec.transferable == was.transferable)
  {
    StepKeepsKeyed(s, MarkExited(id, station, at, p));
  }

  // A reset reaches memory even when the store is closed, the file only when it
  // is open; it clears the entry alone.
  lemma ResetEffect(s: Store, id: string, p: Persist)
    requires Keyed(s)
    ensures var q := Apply(s, ResetEntry(id, p));
            && (id !in s.records ==> q == s)
            && (id in s.records ==>
                  && id in q.records && Wrote(s, q, id, q.records[id], !s.closed && p.Commits?)
                  && var was, rec := s.records[id], q.records[id];
                     && rec.status == Unused && rec.entryStation == "" && rec.enteredAt == 0
                     && rec.exitStation == was.exitStation && rec.exitedAt == was.exitedAt
                     && rec.id == id && rec.ticketType == was.ticketType && rec.transferable == was.transferable)
  {
    StepKeepsKeyed(s, ResetEntry(id, p));
  }

  lemma PutEffect(s: Store, rec: Record, p: Persist)
    requires Keyed(s)
    ensures var q, err := Apply(s, Put(rec, p)), ErrorOf(s, Put(rec, p));
            if s.closed then q == s && err == StoreClosed
            else Wrote(s, q, rec.id, rec, p.Commits?) && err == (if p.Commits? then Success else NotPersisted)
  {
    StepKeepsKeyed(s, Put(rec, p));
  }

  // A closed store keeps what it has; a restart opens it on what the files hold.
  lemma CloseEffect(s: Store)
    ensures var q := Apply(s, Close); q.closed && q.records == s.records && q.dir == s.dir && ErrorOf(s, Close) == Success
    ensures var q := Apply(s, Reopen); !q.closed && q.records == Disk(s.dir) && q.dir == s.dir
  {
  }

  // Whether an operation reaches the file of a ticket: the store is open and knows
  // the ticket, unless it is being put, and the write commits.
  predicate Files(s: Store, op: Op, id: string) {
    match op
    case Put(rec, p) => rec.id == id && !s.closed && p.Commits?
    case MarkEntered(id', _, _, p) => id' == id && id in s.records && !s.closed && p.Commits?
    case MarkExited(id', _, _, p) => id' == id && id in s.records && !s.closed && p.Commits?
    case ResetEntry(id', p) => id' == id && id in s.records && !s.closed && p.Commits?
    case _ => false
  }

  // The last operation of a run that reached the ticket's file.
  function LastCommit(s: Store, ops: seq<Op>, id: string): Option<Op> {
    if ops == [] then None else
    var front, last := ops[..|ops| - 1], ops[|ops| - 1];
    if Files(Run(s, front), last, id) then Some(last) else LastCommit(s, front, id)
  }

  // What a file shows of the operation that wrote it last.
  predicate Shows(rec: Record, op: Op) {
    match op
    case Put(put, _) => rec == put
    case MarkEntered(_, station, at, _) => rec.status == Entered && rec.entryStation == station && rec.enteredAt == at
    case MarkExited(_, station, at, _) => rec.status == Exited && rec.exitStation == station && rec.exitedAt == at
    case ResetEntry(_, _) => rec.status == Unused && rec.entryStation == "" && rec.enteredAt == 0
    case _ => true
  }

  predicate SameAt(a: map<string, Record>, b: map<string, Record>, id: string) {
    (id in a <==> id in b) && (id in a ==> a[id] == b[id])
  }

  lemma CommitShows(s: Store, op: Op, id: string)
    requires Keyed(s)
    ensures var disk := Disk(Apply(s, op).dir);
            if Files(s, op, id) then id in disk && Shows(disk[id], op) else SameAt(disk, Disk(s.dir), id)
  {
    match op
    case Put(rec, p) => PutEffect(s, rec, p);
    case MarkEntered(id', station, at, p) => EnterEffect(s, id', station, at, p);
    case MarkExited(id', station, at, p) => ExitEffect(s, id', station, at, p);
    case ResetEntry(id', p) => ResetEffect(s, id', p);
    case _ =>
  }

  lemma {:induction false} RunsStayKeyed(s: Store, ops: seq<Op>)
    requires Keyed(s)
    ensures Keyed(Run(s, ops))
  {
    if ops != [] {
      RunsStayKeyed(s, ops[..|ops| - 1]);
      StepKeepsKeyed(Run(s, ops[..|ops| - 1]), ops[|ops| - 1]);
    }
  }

  // After any run with failures, crashes, closes and restarts, a ticket's file
  // shows its last committed operation: gate and time of the entry or the exit, or
  // the cleared entry; and without one it is the file of the start.
  lemma {:induction false} FileShowsLastCommit(s: Store, ops: seq<Op>, id: string)
    requires Keyed(s)
    ensures var disk, last := Disk(Run(s, ops).dir), LastCommit(s, ops, id);
            if last.Some? then id in disk && Shows(disk[id], last.value) else SameAt(disk, Disk(s.dir), id)
  {
    if ops != [] {
      var front, last := ops[..|ops| - 1], ops[|ops| - 1];
      FileShowsLastCommit(s, front, id);
      RunsStayKeyed(s, front);
      CommitShows(Run(s, front), last, id);
    }
  }

  // ---------- The objects ----------

  // What loading a directory may leave in memory, in whatever order the files
  // are read: a record for every final file, and each from a final file.
  ghost predicate Loaded(dir: Dir, names: set<string>, records: map<string, Record>) {
    && (forall name :: name in names && name in dir && Ext(name) == ".json" ==>
          dir[name].Whole? && dir[name].rec.id in records)
    && (forall id :: id in records ==>
          exists name :: name in dir && Ext(name) == ".json" && dir[name] == Whole(records[id]) && records[id].id == id)
  }

  lemma LoadedIsDisk(dir: Dir, records: map<string, Record>)
    requires Sound(dir) && Loaded(dir, dir.Keys, records)
    ensures records == Disk(dir)
  {
    forall id
      ensures id in records <==> id in Disk(dir)
      ensures id in records ==> records[id] == Disk(dir)[id]
    {
      DiskHas(dir, id);
      NamesDiffer(id, id);
      if FileName(id) in dir {
        NamesDiffer(id, dir[FileName(id)].rec.id);
      }
    }
  }

  lemma LoadStep(dir: Dir, done: set<string>, records: map<string, Record>, name: string)
    requires Loaded(dir, done, records) && name in dir && (Ext(name) == ".json" ==> dir[name].Whole?)
    ensures Loaded(dir, done + {name},
                   if Ext(name) == ".json" then records[dir[name].rec.id := dir[name].rec] else records)
  {
    var records' := if Ext(name) == ".json" then records[dir[name].rec.id := dir[name].rec] else records;
    forall id | id in records'
      ensures exists n :: n in dir && Ext(n) == ".json" && dir[n] == Whole(records'[id]) && records'[id].id == id
    {
      if id in records && records'[id] == records[id] {
        var n :| n in dir && Ext(n) == ".json" && dir[n] == Whole(records[id]) && records[id].id == id;
      } else {
        assert dir[name] == Whole(records'[id]);
      }
    }
  }

  class TicketStore {
    var records: map<string, Record>
    var closed: bool
    var dir: Dir

    function Value(): Store
      reads this
    {
      Store(records, closed, dir)
    }

    constructor (dir: Dir)
      ensures Value() == Store(map[], false, dir)
    {
      this.records, this.closed, this.dir := map[], false, dir;
    }

    // Loading fails exactly when a final file cannot be decoded; temporary files
    // are never looked at.
    method LoadAll() returns (ok: bool)
      requires records == map[]
      modifies this`records
      ensures ok <==> forall name :: name in dir && Ext(name) == ".json" ==> dir[name].Whole?
      ensures ok ==> Loaded(dir, dir.Keys, records)
      ensures Sound(dir) ==> ok && Value() == Apply(old(Value()), Reopen).(closed := closed)
    {
      ok := LoadFiles();
      if Sound(dir) {
        LoadedIsDisk(dir, records);
      }
    }

    method LoadFiles() returns (ok: bool)
      requires records == map[]
      modifies this`records
      ensures ok <==> forall name :: name in dir && Ext(name) == ".json" ==> dir[name].Whole?
      ensures ok ==> Loaded(dir, dir.Keys, records)
    {
      var names := dir.Keys;
      while names != {}
        invariant names <= dir.Keys
        invariant Loaded(dir, dir.Keys - names, records)
        decreases names
      {
        var name :| name in names;
        if Ext(name) == ".json" && dir[name].Torn? {
          return false;
        }
        LoadStep(dir, dir.Keys - names, records, name);
        assert dir.Keys - (names - {name}) == dir.Keys - names + {name};
        if Ext(name) == ".json" {
          records := records[dir[name].rec.id := dir[name].rec];
        }
        names := names - {name};
      }
      assert dir.Keys - names == dir.Keys;
      return true;
    }

    method Lookup(id: string) returns (rec: Option<Record>)
      ensures rec == if id in records then Some(records[id]) else None
    {
      if id !in records {
        return None;
      }
      return Some(records[id]);
    }

    method PersistRecord(rec: Record, p: Persist) returns (ok: bool)
      modifies this`dir
      ensures dir == Persisted(old(dir), rec, p) && ok == p.Commits?
    {
      if p.WriteFails? {
        if p.cut {
          dir := dir[TempName(rec.id) := Torn];
        }
        return false;
      }
      dir := dir[TempName(rec.id) := Whole(rec)];
      if p.RenameFails? {
        return false;
      }
      NamesDiffer(rec.id, rec.id);
      dir := (dir - {TempName(rec.id)})[FileName(rec.id) := dir[TempName(rec.id)]];
      return true;
    }

    method PutRecord(rec: Record, p: Persist) returns (err: Error)
      modifies this
      ensures Value() == Apply(old(Value()), Put(rec, p)) && err == ErrorOf(old(Value()), Put(rec, p))
    {
      if closed {
        return StoreClosed;
      }
      records := records[rec.id := rec];
      var ok := PersistRecord(rec, p);
      return if ok then Success else NotPersisted;
    }

    method Enter(id: string, station: string, at: int, p: Persist) returns (err: Error)
      modifies this
      ensures var op := MarkEntered(id, station, at, p);
              Value() == Apply(old(Value()), op) && err == ErrorOf(old(Value()), op)
    {
      if closed {
        return StoreClosed;
      }
      if id !in records {
        return NotFound;
      }
      var rec := records[id].(status := Entered, entryStation := station, enteredAt := at);
      records := records[id := rec];
      var ok := PersistRecord(rec, p);
      return if ok then Success else NotPersisted;
    }

    method Exit(id: string, station: string, at: int, p: Persist) returns (err: Error)
      modifies this
      ensures var op := MarkExited(id, station, at, p);
              Value() == Apply(old(Value()), op) && err == ErrorOf(old(Value()), op)
    {
      if closed {
        return StoreClosed;
      }
      if id !in records {
        return NotFound;
      }
      var rec := records[id].(status := Exited, exitStation := station, exitedAt := at);
      records := records[id := rec];
      var ok := PersistRecord(rec, p);
      return if ok then Success else NotPersisted;
    }

    // Memory is reset even when the store is closed; the file then is not.
    method Reset(id: string, p: Persist)
      modifies this
      ensures Value() == Apply(old(Value()), ResetEntry(id, p))
    {
      if id !in records {
        return;
      }
      var rec := records[id].(status := Unused, entryStation := "", enteredAt := 0);
      records := records[id := rec];
      if !closed {
        var _ := PersistRecord(rec, p);
      }
    }

    method CloseStore()
      modifies this`closed
      ensures Value() == Apply(old(Value()), Close)
    {
      closed := true;
    }
  }
}
