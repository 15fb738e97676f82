// The swipe de-duplication window: a cache whose entries expire
// (internal/dedup/dedup.go). Swipe keys stand for ticket ids.
module Dedup {
  import opened Maps

  datatype Op =
    | Set(key: string, now: int)
    | Check(key: string, now: int)
    | Clear(key: string)
    | Sweep(now: int)

  // Each key's expiry time.
  type Items = map<string, int>

  function Alive(items: Items, now: int): Items {
    map k | k in items && now < items[k] :: items[k]
  }

  predicate Answer(items: Items, key: string, now: int) {
    key in items && now < items[key]
  }

  function Apply(ttl: int, items: Items, op: Op): Items {
    match op
    case Set(key, now) => items[key := now + ttl]
    case Check(key, now) => if key in items && now >= items[key] then items - {key} else items
    case Clear(key) => items - {key}
    case Sweep(now) => Alive(items, now)
  }

  function Run(ttl: int, items: Items, history: seq<Op>): Items {
    if history == [] then items
    else Apply(ttl, Run(ttl, items, history[..|history| - 1]), history[|history| - 1])
  }

  // ---------- The cache against its history ----------

  // The history lists the operations in the order in which they took the lock.
  // Set reads the clock under the lock, but Check and Sweep read it before, so
  // their readings can be older than those of operations already listed.

  // The time of the key's last Set, unless it was cleared since.
  function Opened(history: seq<Op>, key: string): Option<int> {
    if history == [] then None else
    var last := history[|history| - 1];
    if last.Set? && last.key == key then Some(last.now)
    else if last.Clear? && last.key == key then None
    else Opened(history[..|history| - 1], key)
  }

  // The last Set of the key was less than ttl ago and was not cleared since.
  predicate Live(ttl: int, history: seq<Op>, key: string, now: int) {
    var since := Opened(history, key);
    since.Some? && now < since.value + ttl
  }

  // Whether the operation looks at the key with the given clock reading.
  predicate Looks(op: Op, key: string, at: int) {
    (op.Sweep? || (op.Check? && op.key == key)) && op.now >= at
  }

  // Since the key's last Set, some sweep or some check of the key has read a
  // clock at or past the expiry.
  predicate Dropped(ttl: int, history: seq<Op>, key: string) {
    if history == [] then false else
    var front, last := history[..|history| - 1], history[|history| - 1];
    if (last.Set? || last.Clear?) && last.key == key then false
    else Dropped(ttl, front, key) || (Opened(front, key).Some? && Looks(last, key, Opened(front, key).value + ttl))
  }

  lemma {:induction false} CacheHoldsOpened(ttl: int, history: seq<Op>, key: string)
    ensures var items := Run(ttl, map[], history);
            && (key in items <==> Opened(history, key).Some? && !Dropped(ttl, history, key))
            && (key in items ==> items[key] == Opened(history, key).value + ttl)
  {
    if history != [] {
      CacheHoldsOpened(ttl, history[..|history| - 1], key);
    }
  }

  // Whatever the clock readings, the answer differs from the history's exactly
  // when the key is live and was dropped.
  lemma AnswerIsHistoryIff(ttl: int, history: seq<Op>, key: string, now: int)
    ensures (Answer(Run(ttl, map[], history), key, now) <==> Live(ttl, history, key, now))
            <==> !(Live(ttl, history, key, now) && Dropped(ttl, history, key))
    ensures Answer(Run(ttl, map[], history), key, now) ==> Live(ttl, history, key, now)
  {
    CacheHoldsOpened(ttl, history, key);
  }

  // The clock readings of the history never go back, up to now.
  predicate Ordered(history: seq<Op>, now: int) {
    if history == [] then true else
    var front, last := history[..|history| - 1], history[|history| - 1];
    if last.Clear? then Ordered(front, now) else last.now <= now && Ordered(front, last.now)
  }

  lemma {:induction false} OrderedIsNotDropped(ttl: int, history: seq<Op>, key: string, now: int, later: int)
    requires Ordered(history, now) && now <= later && Live(ttl, history, key, later)
    ensures !Dropped(ttl, history, key)
  {
    if history != [] {
      var front, last := history[..|history| - 1], history[|history| - 1];
      if !((last.Set? || last.Clear?) && last.key == key) {
        OrderedIsNotDropped(ttl, front, key, if last.Clear? then now else last.now, later);
      }
    }
  }

  // While the clock does not step back, sweeps and lazy deletions never show: a
  // check answers from the history alone.
  lemma CheckAnswersHistory(ttl: int, history: seq<Op>, key: string, now: int)
    requires Ordered(history, now)
    ensures Answer(Run(ttl, map[], history), key, now) <==> Live(ttl, history, key, now)
  {
    AnswerIsHistoryIff(ttl, history, key, now);
    if Live(ttl, history, key, now) {
      OrderedIsNotDropped(ttl, history, key, now, now);
    }
  }

  // A check that read the clock before a sweep did and takes the lock after it
  // can answer wrongly: the sweep removed a key that was live for the check. A
  // sweep that read it before the expiry does no harm.
  lemma OvertakenCheck(ttl: int, key: string, set': int, sweep: int, check: int)
    requires check < set' + ttl
    ensures var history := [Set(key, set'), Sweep(sweep)];
            && Live(ttl, history, key, check)
            && (Answer(Run(ttl, map[], history), key, check) <==> sweep < set' + ttl)
  {
    var history := [Set(key, set'), Sweep(sweep)];
    assert history[..1] == [Set(key, set')];
    assert [Set(key, set')][..0] == [];
    AnswerIsHistoryIff(ttl, history, key, check);
  }

  class DedupManager {
    const ttl: int
    var items: Items

    constructor (ttl: int)
      ensures this.ttl == ttl && items == map[]
    {
      this.ttl, items := ttl, map[];
    }

    method SetKey(key: string, now: int)
      modifies this
      ensures items == Apply(ttl, old(items), Set(key, now))
    {
      items := items[key := now + ttl];
    }

    method CheckKey(key: string, now: int) returns (duplicate: bool)
      modifies this
      ensures items == Apply(ttl, old(items), Check(key, now))
      ensures duplicate == Answer(old(items), key, now)
    {
      if key !in items {
        return false;
      }
      if !(now < items[key]) {
        items := items - {key};
        return false;
      }
      return true;
    }

    method ClearKey(key: string)
      modifies this
      ensures items == Apply(ttl, old(items), Clear(key))
    {
      items := items - {key};
    }

    method SweepExpired(now: int) returns (removed: nat)
      modifies this
      ensures items == Apply(ttl, old(items), Sweep(now))
      ensures removed == |old(items)| - |items|
    {
      removed := 0;
      var keys := items.Keys;
      while keys != {}
        invariant keys <= items.Keys <= old(items).Keys
        invariant items == map k | k in old(items) && (k in keys || now < old(items)[k]) :: old(items)[k]
        invariant removed == |old(items)| - |items|
        decreases keys
      {
        var key :| key in keys;
        if !(now < items[key]) {
          assert |items.Keys - {key}| == |items.Keys| - 1;
          items := items - {key};
          removed := removed + 1;
        }
        keys := keys - {key};
      }
    }
  }
}
