// Gate-group rules, their change notifications and the gate-side caches
// (internal/rule/rule.go, internal/rule/notify.go, internal/ticket/ticket.go).
module Rules {
  import opened Maps

  const DEFAULT_GROUP: string := "NORMAL"
  const TRANSFER_GROUP: string := "TRANSFER"

  datatype Rule = Rule(gateGroup: string, singleAllowed: bool, transferAllowed: bool, version: int) {
    predicate Allows(transferable: bool) {
      if transferable then transferAllowed else singleAllowed
    }
  }

  type Book = map<string, Rule>

  const NEW_BOOK: Book :=
    map[DEFAULT_GROUP := Rule(DEFAULT_GROUP, true, true, 1),
        TRANSFER_GROUP := Rule(TRANSFER_GROUP, true, true, 1)]

  // A rule lets a transferable ticket in by one flag and a single one by the other;
  // the two initial rules let everything in.
  lemma RuleAllows(r: Rule, transferable: bool)
    ensures transferable ==> (r.Allows(transferable) <==> r.transferAllowed)
    ensures !transferable ==> (r.Allows(transferable) <==> r.singleAllowed)
    ensures NEW_BOOK.Keys == {"NORMAL", "TRANSFER"}
    ensures forall g :: g in NEW_BOOK ==>
      && NEW_BOOK[g].gateGroup == g && NEW_BOOK[g].version == 1
      && NEW_BOOK[g].singleAllowed && NEW_BOOK[g].transferAllowed
  {
  }

  // ---------- Upgrades, subscriptions and closes in every interleaving ----------

  // An upgrade checks the group, stores the rule, copies the list of subscribers
  // and calls them one by one; a cache takes a snapshot and then subscribes.
  datatype Job =
    | Checked(next: Rule)
    | Stored(rule: Rule)
    | Delivering(rule: Rule, todo: set<nat>)

  datatype Stage = Building | Subscribed | Closed

  datatype Cache = Cache(entries: Book, stage: Stage)

  // `log` lists every rule ever stored.
  datatype Net = Net(rules: Book, lastSeq: int, log: seq<Rule>, caches: map<nat, Cache>, jobs: map<nat, Job>)

  const START: Net := Net(NEW_BOOK, 2, [NEW_BOOK[DEFAULT_GROUP], NEW_BOOK[TRANSFER_GROUP]], map[], map[])

  datatype Label =
    | Begin(job: nat, next: Rule)
    | Advance(job: nat)
    | Deliver(job: nat, cache: nat)
    | Build(cache: nat)
    | Subscribe(cache: nat)
    | Close(cache: nat)

  function Subscribers(n: Net): set<nat> {
    set c | c in n.caches && n.caches[c].stage == Subscribed
  }

  function Store(n: Net, job: nat, next: Rule): Net {
    var rule := next.(version := n.lastSeq + 1);
    n.(rules := n.rules[rule.gateGroup := rule], lastSeq := n.lastSeq + 1,
       log := n.log + [rule], jobs := n.jobs[job := Stored(rule)])
  }

  function Step(n: Net, l: Label): Net {
    match l
    case Begin(job, next) =>
      if job in n.jobs || next.gateGroup !in n.rules then n else n.(jobs := n.jobs[job := Checked(next)])
    case Advance(job) =>
      if job !in n.jobs then n else
      (match n.jobs[job]
       case Checked(next) => Store(n, job, next)
       case Stored(rule) => n.(jobs := n.jobs[job := Delivering(rule, Subscribers(n))])
       case Delivering(_, todo) => if todo == {} then n.(jobs := n.jobs - {job}) else n)
    case Deliver(job, c) =>
      if job !in n.jobs || !n.jobs[job].Delivering? || c !in n.jobs[job].todo || c !in n.caches then n else
      var rule := n.jobs[job].rule;
      n.(caches := n.caches[c := n.caches[c].(entries := n.caches[c].entries[rule.gateGroup := rule])],
         jobs := n.jobs[job := Delivering(rule, n.jobs[job].todo - {c})])
    case Build(c) => if c in n.caches then n else n.(caches := n.caches[c := Cache(n.rules, Building)])
    case Subscribe(c) =>
      if c in n.caches && n.caches[c].stage == Building
      then n.(caches := n.caches[c := n.caches[c].(stage := Subscribed)]) else n
    case Close(c) =>
      if c in n.caches && n.caches[c].stage == Subscribed
      then n.(caches := n.caches[c := n.caches[c].(stage := Closed)]) else n
  }

  function Run(n: Net, labels: seq<Label>): Net {
    if labels == [] then n
    else Step(Run(n, labels[..|labels| - 1]), labels[|labels| - 1])
  }

  // ---------- What every cache holds, always ----------

  // The log is the history of the store: within a group versions rise, the store
  // holds the last of each group, and nothing is numbered beyond the sequence.
  ghost predicate LogSound(rules: Book, log: seq<Rule>, lastSeq: int) {
    && DEFAULT_GROUP in rules
    && (forall g :: g in rules ==> rules[g] in log && rules[g].gateGroup == g)
    && (forall r :: r in log ==> r.gateGroup in rules && r.version <= rules[r.gateGroup].version <= lastSeq)
    && (forall i, j :: 0 <= i < j < |log| && log[i].gateGroup == log[j].gateGroup ==>
          log[i].version < log[j].version)
  }

  ghost predicate BookSound(groups: set<string>, log: seq<Rule>, book: Book) {
    book.Keys == groups && forall g :: g in book ==> book[g] in log && book[g].gateGroup == g
  }

  predicate JobSound(groups: set<string>, log: seq<Rule>, job: Job) {
    match job
    case Checked(next) => next.gateGroup in groups
    case Stored(rule) => rule in log && rule.gateGroup in groups
    case Delivering(rule, _) => rule in log && rule.gateGroup in groups
  }

  ghost predicate Genuine(n: Net) {
    && LogSound(n.rules, n.log, n.lastSeq)
    && (forall c :: c in n.caches ==> BookSound(n.rules.Keys, n.log, n.caches[c].entries))
    && (forall j :: j in n.jobs ==> JobSound(n.rules.Keys, n.log, n.jobs[j]))
  }

  lemma StoreKeepsLog(rules: Book, log: seq<Rule>, lastSeq: int, rule: Rule)
    requires LogSound(rules, log, lastSeq) && rule.gateGroup in rules && rule.version == lastSeq + 1
    ensures LogSound(rules[rule.gateGroup := rule], log + [rule], lastSeq + 1)
  {
    var rules', log' := rules[rule.gateGroup := rule], log + [rule];
    assert log'[|log|] == rule;
    assert rules[rule.gateGroup] in log;
    forall r | r in log'
      ensures r.gateGroup in rules' && r.version <= rules'[r.gateGroup].version <= lastSeq + 1
    {
      assert r in log || r == rule;
    }
    forall i, j | 0 <= i < j < |log'| && log'[i].gateGroup == log'[j].gateGroup
      ensures log'[i].version < log'[j].version
    {
      assert log'[i] == log[i] && log[i] in log;
    }
  }

  // Nothing that was sound stops being so when the log grows.
  lemma SoundLater(groups: set<string>, log: seq<Rule>, rule: Rule, book: Book, job: Job)
    ensures BookSound(groups, log, book) ==> BookSound(groups, log + [rule], book)
    ensures JobSound(groups, log, job) ==> JobSound(groups, log + [rule], job)
  {
  }

  lemma StoreKeepsGenuine(n: Net, job: nat, next: Rule)
    requires Genuine(n) && next.gateGroup in n.rules
    ensures Genuine(Store(n, job, next))
  {
    var q := Store(n, job, next);
    var rule := next.(version := n.lastSeq + 1);
    StoreKeepsLog(n.rules, n.log, n.lastSeq, rule);
    assert q.rules.Keys == n.rules.Keys;
    forall c | c in q.caches ensures BookSound(q.rules.Keys, q.log, q.caches[c].entries) {
      SoundLater(n.rules.Keys, n.log, rule, n.caches[c].entries, Checked(next));
    }
    forall j | j in q.jobs ensures JobSound(q.rules.Keys, q.log, q.jobs[j]) {
      if j == job {
        assert q.log[|n.log|] == rule;
      } else {
        SoundLater(n.rules.Keys, n.log, rule, map[], n.jobs[j]);
      }
    }
  }

  predicate Stores(n: Net, l: Label) {
    l.Advance? && l.job in n.jobs && n.jobs[l.job].Checked?
  }

  lemma StepKeepsGenuine(n: Net, l: Label)
    requires Genuine(n)
    ensures Genuine(Step(n, l))
  {
    var q := Step(n, l);
    if Stores(n, l) {
      StoreKeepsGenuine(n, l.job, n.jobs[l.job].next);
    } else {
      StoreUntouched(n, l);
      forall c | c in q.caches ensures BookSound(q.rules.Keys, q.log, q.caches[c].entries) {
        BookStaysSound(n, l, c);
      }
      forall j | j in q.jobs ensures JobSound(q.rules.Keys, q.log, q.jobs[j]) {
        JobStaysSound(n, l, j);
      }
    }
  }

  lemma StoreUntouched(n: Net, l: Label)
    requires !Stores(n, l)
    ensures var q := Step(n, l); q.rules == n.rules && q.log == n.log && q.lastSeq == n.lastSeq
  {
  }

  lemma JobStaysSound(n: Net, l: Label, j: nat)
    requires !Stores(n, l) && j in Step(n, l).jobs
    requires j in n.jobs ==> JobSound(n.rules.Keys, n.log, n.jobs[j])
    ensures JobSound(n.rules.Keys, n.log, Step(n, l).jobs[j])
  {
  }

  lemma BooksAreSound(rules: Book, log: seq<Rule>, lastSeq: int, book: Book, rule: Rule)
    requires LogSound(rules, log, lastSeq)
    ensures BookSound(rules.Keys, log, rules)
    ensures BookSound(rules.Keys, log, book) && rule in log && rule.gateGroup in rules ==>
              BookSound(rules.Keys, log, book[rule.gateGroup := rule])
  {
  }

  // A cache is built from the store's map and changes only by deliveries.
  lemma CacheMoves(n: Net, l: Label, c: nat)
    requires c in Step(n, l).caches
    ensures var book := Step(n, l).caches[c].entries;
            if c !in n.caches then book == n.rules
            else book == n.caches[c].entries
                 || (l.Deliver? && l.job in n.jobs && !n.jobs[l.job].Checked?
                     && var rule := n.jobs[l.job].rule; book == n.caches[c].entries[rule.gateGroup := rule])
  {
  }

  // A cache is built once, then subscribed once, then closed once, and nothing
  // else moves it from stage to stage.
  lemma CacheStages(n: Net, l: Label, c: nat)
    ensures var q := Step(n, l);
            && (c in n.caches ==> c in q.caches)
            && (c !in n.caches ==> (c in q.caches <==> l == Build(c)))
            && (c !in n.caches && c in q.caches ==> q.caches[c].stage == Building)
            && (c in n.caches ==>
                  q.caches[c].stage == if n.caches[c].stage == Building && l == Subscribe(c) then Subscribed
                                       else if n.caches[c].stage == Subscribed && l == Close(c) then Closed
                                       else n.caches[c].stage)
  {
  }

  lemma BookStaysSound(n: Net, l: Label, c: nat)
    requires Genuine(n) && c in Step(n, l).caches
    ensures BookSound(n.rules.Keys, n.log, Step(n, l).caches[c].entries)
  {
    CacheMoves(n, l, c);
    var book := Step(n, l).caches[c].entries;
    if c !in n.caches {
      BooksAreSound(n.rules, n.log, n.lastSeq, map[], n.rules[DEFAULT_GROUP]);
    } else {
      assert BookSound(n.rules.Keys, n.log, n.caches[c].entries);
      if book != n.caches[c].entries {
        assert JobSound(n.rules.Keys, n.log, n.jobs[l.job]);
        BooksAreSound(n.rules, n.log, n.lastSeq, n.caches[c].entries, n.jobs[l.job].rule);
      }
    }
  }

  lemma StartIsGenuine()
    ensures Genuine(START) && Agreeing(START) && Orderly(START)
  {
    assert START.log[0] in START.log && START.log[1] in START.log;
  }

  lemma {:induction false} RunsStayGenuine(n: Net, labels: seq<Label>)
    requires Genuine(n)
    ensures Genuine(Run(n, labels))
  {
    if labels != [] {
      RunsStayGenuine(n, labels[..|labels| - 1]);
      StepKeepsGenuine(Run(n, labels[..|labels| - 1]), labels[|labels| - 1]);
    }
  }

  // The rule a gate applies: that of its group, or of the default group, or none.
  function Effective(book: Book, group: string): Option<Rule> {
    if group in book then Some(book[group])
    else if DEFAULT_GROUP in book then Some(book[DEFAULT_GROUP])
    else None
  }

  lemma LoggedVersions(n: Net, rule: Rule, current: Rule)
    requires LogSound(n.rules, n.log, n.lastSeq) && rule in n.log && current in n.log && rule.gateGroup == current.gateGroup
    ensures rule.version == current.version ==> rule == current
  {
    var i :| 0 <= i < |n.log| && n.log[i] == rule;
    var j :| 0 <= j < |n.log| && n.log[j] == current;
    assert i < j || j < i || i == j;
  }

  // Whatever upgrades, subscriptions and closes have overlapped, the rule applied
  // at a gate was once stored for that group, is no newer than the store's, and
  // is the store's own when its version is current. There always is one.
  lemma CachedRulesAreGenuine(labels: seq<Label>, c: nat, group: string)
    requires c in Run(START, labels).caches
    ensures var n := Run(START, labels);
            var home := if group in n.rules then group else DEFAULT_GROUP;
            var rule := Effective(n.caches[c].entries, group);
            && home in n.rules && rule.Some? && rule.value in n.log
            && rule.value.gateGroup == home
            && rule.value.version <= n.rules[home].version
            && (rule.value.version == n.rules[home].version ==> rule.value == n.rules[home])
  {
    StartIsGenuine();
    RunsStayGenuine(START, labels);
    GenuineCache(Run(START, labels), c, group);
  }

  lemma GenuineCache(n: Net, c: nat, group: string)
    requires Genuine(n) && c in n.caches
    ensures var home := if group in n.rules then group else DEFAULT_GROUP;
            var rule := Effective(n.caches[c].entries, group);
            && home in n.rules && rule.Some? && rule.value in n.log
            && rule.value.gateGroup == home
            && rule.value.version <= n.rules[home].version
            && (rule.value.version == n.rules[home].version ==> rule.value == n.rules[home])
  {
    assert BookSound(n.rules.Keys, n.log, n.caches[c].entries);
    var home := if group in n.rules then group else DEFAULT_GROUP;
    LoggedVersions(n, n.caches[c].entries[home], n.rules[home]);
  }

  // ---------- When the caches agree with the store ----------

  // The rule of an upgrade that is in the store but not yet at every cache.
  predicate Holds(n: Net, j: nat, rule: Rule) {
    j in n.jobs && !n.jobs[j].Checked? && n.jobs[j].rule == rule
  }

  predicate WillReach(n: Net, j: nat, c: nat, rule: Rule) {
    Holds(n, j, rule) && (n.jobs[j].Stored? || c in n.jobs[j].todo)
  }

  ghost predicate Promised(n: Net, c: nat, g: string)
    requires g in n.rules
  {
    exists j :: WillReach(n, j, c, n.rules[g])
  }

  // A subscribed cache agrees with the store on a group or is about to be told.
  ghost predicate CacheSynced(n: Net, c: nat, g: string) {
    c in n.caches && n.caches[c].stage == Subscribed && g in n.rules ==>
      && g in n.caches[c].entries
      && (n.caches[c].entries[g] == n.rules[g] || Promised(n, c, g))
  }

  ghost predicate Agreeing(n: Net) {
    forall c, g :: CacheSynced(n, c, g)
  }

  // Whether a delivery takes place.
  predicate Fires(n: Net, l: Label) {
    && l.Deliver? && l.job in n.jobs && n.jobs[l.job].Delivering? && l.cache in n.jobs[l.job].todo
    && l.cache in n.caches
  }

  // A superseded rule reaches a subscribed cache that no later delivery will correct.
  ghost predicate LateDelivery(n: Net, l: Label) {
    && Fires(n, l) && n.caches[l.cache].stage == Subscribed
    && var rule := n.jobs[l.job].rule;
       rule.gateGroup in n.rules && n.rules[rule.gateGroup] != rule && !Promised(n, l.cache, rule.gateGroup)
  }

  ghost predicate Missed(n: Net, c: nat, g: string) {
    && c in n.caches && g in n.rules && g in n.caches[c].entries
    && n.caches[c].entries[g] != n.rules[g] && !Promised(n, c, g)
  }

  // A cache subscribes after it has missed an upgrade.
  ghost predicate LateSubscription(n: Net, l: Label) {
    && l.Subscribe? && l.cache in n.caches && n.caches[l.cache].stage == Building
    && exists g :: Missed(n, l.cache, g)
  }

  ghost predicate Late(n: Net, l: Label) {
    LateDelivery(n, l) || LateSubscription(n, l)
  }

  // A promise is kept by every step but the one that fulfils it.
  lemma PromiseKept(n: Net, l: Label, c: nat, g: string)
    requires g in n.rules && n.rules[g].gateGroup == g && Promised(n, c, g)
    requires c in n.caches && n.caches[c].stage == Subscribed
    requires !Stores(n, l)
    requires !(Fires(n, l) && l.cache == c && n.jobs[l.job].rule == n.rules[g])
    ensures Promised(Step(n, l), c, g)
  {
    var j :| WillReach(n, j, c, n.rules[g]);
    assert c in Subscribers(n);
    assert WillReach(Step(n, l), j, c, n.rules[g]);
  }

  lemma PromiseNotMade(n: Net, l: Label, c: nat, g: string)
    requires !Stores(n, l) && g in n.rules && Promised(Step(n, l), c, g)
    requires l.Deliver? || l.Subscribe?
    ensures Promised(n, c, g)
  {
    var j :| WillReach(Step(n, l), j, c, n.rules[g]);
    assert WillReach(n, j, c, n.rules[g]);
  }

  lemma StoringAgrees(n: Net, l: Label, c: nat, g: string)
    requires Genuine(n) && Stores(n, l) && CacheSynced(n, c, g)
    ensures CacheSynced(Step(n, l), c, g)
  {
    var q := Step(n, l);
    assert JobSound(n.rules.Keys, n.log, n.jobs[l.job]);
    var group := n.jobs[l.job].next.gateGroup;
    if g == group {
      assert WillReach(q, l.job, c, q.rules[g]);
    } else if g in n.rules && Promised(n, c, g) {
      var j :| WillReach(n, j, c, n.rules[g]);
      assert WillReach(q, j, c, q.rules[g]);
    }
  }

  // What a delivery does to one cache, and that only it changes a subscribed one.
  lemma CacheTold(n: Net, l: Label, c: nat)
    requires c in n.caches && (l.Deliver? || n.caches[c].stage == Subscribed)
    ensures var q := Step(n, l);
            && c in q.caches
            && (q.caches[c].stage == n.caches[c].stage || l.Close?)
            && q.caches[c].entries ==
               if Fires(n, l) && c == l.cache
               then var rule := n.jobs[l.job].rule; n.caches[c].entries[rule.gateGroup := rule]
               else n.caches[c].entries
  {
  }

  lemma DeliveryAgrees(n: Net, l: Label, c: nat, g: string)
    requires Fires(n, l) && !LateDelivery(n, l) && CacheSynced(n, c, g)
    requires c in n.caches && n.caches[c].stage == Subscribed && g in n.rules && n.rules[g].gateGroup == g
    ensures CacheSynced(Step(n, l), c, g)
  {
    var rule := n.jobs[l.job].rule;
    StoreUntouched(n, l);
    CacheTold(n, l, c);
    if c == l.cache && g == rule.gateGroup {
      if rule != n.rules[g] {
        PromiseKept(n, l, c, g);
      }
    } else if Promised(n, c, g) {
      PromiseKept(n, l, c, g);
    }
  }

  lemma OtherStepAgrees(n: Net, l: Label, c: nat, g: string)
    requires !Fires(n, l) && !Stores(n, l) && CacheSynced(n, c, g)
    requires c in n.caches && n.caches[c].stage == Subscribed && g in n.rules && n.rules[g].gateGroup == g
    ensures CacheSynced(Step(n, l), c, g)
  {
    StoreUntouched(n, l);
    CacheTold(n, l, c);
    if Promised(n, c, g) {
      PromiseKept(n, l, c, g);
    }
  }

  lemma SubscriptionAgrees(n: Net, l: Label, g: string)
    requires l.Subscribe? && !LateSubscription(n, l) && g in n.rules
    requires l.cache in n.caches && n.caches[l.cache].stage == Building && g in n.caches[l.cache].entries
    ensures CacheSynced(Step(n, l), l.cache, g)
  {
    assert !Missed(n, l.cache, g);
    if Promised(n, l.cache, g) {
      var j :| WillReach(n, j, l.cache, n.rules[g]);
      assert WillReach(Step(n, l), j, l.cache, n.rules[g]);
    }
  }

  // The subscribed caches after a step are those before it and a new subscriber.
  lemma WasSubscribed(n: Net, l: Label, c: nat)
    requires c in Step(n, l).caches && Step(n, l).caches[c].stage == Subscribed
    ensures c in n.caches
    ensures n.caches[c].stage == Subscribed || (l.Subscribe? && l.cache == c && n.caches[c].stage == Building)
  {
  }

  lemma StepAgrees(n: Net, l: Label, c: nat, g: string)
    requires Genuine(n) && !Late(n, l) && CacheSynced(n, c, g)
    ensures CacheSynced(Step(n, l), c, g)
  {
    var q := Step(n, l);
    if Stores(n, l) {
      StoringAgrees(n, l, c, g);
    } else if c in q.caches && q.caches[c].stage == Subscribed && g in q.rules {
      StoreUntouched(n, l);
      WasSubscribed(n, l, c);
      if n.caches[c].stage == Building {
        assert BookSound(n.rules.Keys, n.log, n.caches[c].entries);
        SubscriptionAgrees(n, l, g);
      } else if Fires(n, l) {
        DeliveryAgrees(n, l, c, g);
      } else {
        OtherStepAgrees(n, l, c, g);
      }
    }
  }

  lemma LateDeliveryBreaks(n: Net, l: Label)
    requires LateDelivery(n, l)
    ensures !CacheSynced(Step(n, l), l.cache, n.jobs[l.job].rule.gateGroup)
  {
    var g := n.jobs[l.job].rule.gateGroup;
    if Promised(Step(n, l), l.cache, g) {
      PromiseNotMade(n, l, l.cache, g);
    }
  }

  lemma LateSubscriptionBreaks(n: Net, l: Label, g: string)
    requires LateSubscription(n, l) && Missed(n, l.cache, g)
    ensures !CacheSynced(Step(n, l), l.cache, g)
  {
    if Promised(Step(n, l), l.cache, g) {
      PromiseNotMade(n, l, l.cache, g);
    }
  }

  // From an agreeing state, whatever upgrades overlap, a step keeps the agreement
  // of every subscribed cache if and only if it is neither a late delivery nor a
  // late subscription.
  lemma StepKeepsAgreeingIff(n: Net, l: Label)
    requires Genuine(n) && Agreeing(n)
    ensures Agreeing(Step(n, l)) <==> !Late(n, l)
  {
    if LateDelivery(n, l) {
      LateDeliveryBreaks(n, l);
    } else if LateSubscription(n, l) {
      var g :| Missed(n, l.cache, g);
      LateSubscriptionBreaks(n, l, g);
    } else {
      forall c, g ensures CacheSynced(Step(n, l), c, g) {
        StepAgrees(n, l, c, g);
      }
    }
  }

  ghost predicate NeverLate(n: Net, labels: seq<Label>) {
    forall i :: 0 <= i < |labels| ==> !Late(Run(n, labels[..i]), labels[i])
  }

  lemma {:induction false} RunsStayAgreeing(n: Net, labels: seq<Label>)
    requires Genuine(n) && Agreeing(n) && NeverLate(n, labels)
    ensures Genuine(Run(n, labels)) && Agreeing(Run(n, labels))
  {
    if labels != [] {
      var k := |labels| - 1;
      forall i | 0 <= i < k ensures !Late(Run(n, labels[..k][..i]), labels[..k][i]) {
        assert labels[..k][..i] == labels[..i];
      }
      RunsStayAgreeing(n, labels[..k]);
      StepKeepsGenuine(Run(n, labels[..k]), labels[k]);
      StepKeepsAgreeingIff(Run(n, labels[..k]), labels[k]);
    }
  }

  // Whatever has overlapped, if nothing came late then every subscribed cache is
  // the store's map again whenever no upgrade is under way.
  lemma QuietCachesAgree(labels: seq<Label>, c: nat)
    requires NeverLate(START, labels)
    requires var n := Run(START, labels);
             n.jobs == map[] && c in n.caches && n.caches[c].stage == Subscribed
    ensures Run(START, labels).caches[c].entries == Run(START, labels).rules
  {
    StartIsGenuine();
    RunsStayAgreeing(START, labels);
    QuietCacheAgrees(Run(START, labels), c);
  }

  lemma QuietCacheAgrees(n: Net, c: nat)
    requires Agreeing(n) && n.jobs == map[]
    requires c in n.caches && n.caches[c].stage == Subscribed && BookSound(n.rules.Keys, n.log, n.caches[c].entries)
    ensures n.caches[c].entries == n.rules
  {
    forall g | g in n.rules ensures n.caches[c].entries[g] == n.rules[g] {
      assert CacheSynced(n, c, g);
    }
  }

  // ---------- Callers that keep out of each other's way ----------

  // A rule under way is the store's.
  predicate JobSynced(n: Net, j: nat) {
    j in n.jobs && !n.jobs[j].Checked? ==>
      n.jobs[j].rule.gateGroup in n.rules && n.rules[n.jobs[j].rule.gateGroup] == n.jobs[j].rule
  }

  // A cache being built is exact.
  predicate BuildSynced(n: Net, c: nat) {
    c in n.caches && n.caches[c].stage == Building ==> n.caches[c].entries == n.rules
  }

  ghost predicate Orderly(n: Net) {
    (forall j :: JobSynced(n, j)) && (forall c :: BuildSynced(n, c))
  }

  // A rule is stored while an earlier one of its group is still being delivered,
  // or while some cache stands between its snapshot and its subscription.
  ghost predicate Overlaps(n: Net, l: Label) {
    && Stores(n, l)
    && ((exists j :: j in n.jobs && !n.jobs[j].Checked?
                     && n.jobs[j].rule.gateGroup == n.jobs[l.job].next.gateGroup)
        || (exists c :: c in n.caches && n.caches[c].stage == Building))
  }

  lemma StoringKeepsOrderly(n: Net, l: Label)
    requires Orderly(n) && Stores(n, l) && !Overlaps(n, l)
    ensures Orderly(Step(n, l))
  {
    forall j ensures JobSynced(Step(n, l), j) {
      assert JobSynced(n, j);
    }
  }

  lemma OtherStepKeepsOrderly(n: Net, l: Label)
    requires Orderly(n) && !Stores(n, l)
    ensures Orderly(Step(n, l))
  {
    var q := Step(n, l);
    StoreUntouched(n, l);
    forall j ensures JobSynced(q, j) {
      assert JobSynced(n, j);
    }
    forall c ensures BuildSynced(q, c) {
      assert BuildSynced(n, c);
      if c in q.caches {
        CacheMoves(n, l, c);
        if l.Deliver? {
          assert JobSynced(n, l.job);
        }
      }
    }
  }

  lemma OrderlyIsNotLate(n: Net, l: Label)
    requires Orderly(n)
    ensures !Late(n, l)
  {
    if l.Deliver? {
      assert JobSynced(n, l.job);
    } else if l.Subscribe? {
      assert BuildSynced(n, l.cache);
    }
  }

  lemma StepKeepsOrderly(n: Net, l: Label)
    requires Orderly(n) && !Overlaps(n, l)
    ensures Orderly(Step(n, l))
  {
    if Stores(n, l) {
      StoringKeepsOrderly(n, l);
    } else {
      OtherStepKeepsOrderly(n, l);
    }
  }

  ghost predicate NeverOverlaps(n: Net, labels: seq<Label>) {
    forall i :: 0 <= i < |labels| ==> !Overlaps(Run(n, labels[..i]), labels[i])
  }

  lemma NoOverlapBefore(n: Net, labels: seq<Label>, k: nat)
    requires NeverOverlaps(n, labels) && k <= |labels|
    ensures NeverOverlaps(n, labels[..k])
  {
    forall i | 0 <= i < k ensures !Overlaps(Run(n, labels[..k][..i]), labels[..k][i]) {
      assert labels[..k][..i] == labels[..i];
    }
  }

  lemma {:induction false} RunsStayOrderly(n: Net, labels: seq<Label>)
    requires Orderly(n) && NeverOverlaps(n, labels)
    ensures Orderly(Run(n, labels))
  {
    if labels != [] {
      var k := |labels| - 1;
      NoOverlapBefore(n, labels, k);
      RunsStayOrderly(n, labels[..k]);
      StepKeepsOrderly(Run(n, labels[..k]), labels[k]);
    }
  }

  // Upgrades of different groups may interleave as they like: without the
  // overlaps above nothing ever comes late.
  lemma OrderlyRunsAreNeverLate(n: Net, labels: seq<Label>)
    requires Orderly(n) && NeverOverlaps(n, labels)
    ensures NeverLate(n, labels)
  {
    forall i | 0 <= i < |labels| ensures !Late(Run(n, labels[..i]), labels[i]) {
      NoOverlapBefore(n, labels, i);
      RunsStayOrderly(n, labels[..i]);
      OrderlyIsNotLate(Run(n, labels[..i]), labels[i]);
    }
  }

  // ---------- One upgrade at a time ----------

  lemma RunSnoc(n: Net, labels: seq<Label>, l: Label)
    ensures Run(n, labels + [l]) == Step(Run(n, labels), l)
  {
    assert (labels + [l])[..|labels|] == labels;
  }

  lemma {:induction false} RunConcat(n: Net, a: seq<Label>, b: seq<Label>)
    ensures Run(n, a + b) == Run(Run(n, a), b)
  {
    if b == [] {
      assert a + b == a;
    } else {
      RunConcat(n, a, b[..|b| - 1]);
      assert (a + b)[..|a + b| - 1] == a + b[..|b| - 1];
    }
  }

  lemma TwoSteps(n: Net, a: Label, b: Label)
    ensures Run(n, [a]) == Step(n, a) && Run(n, [a, b]) == Step(Step(n, a), b)
  {
    assert [a][..0] == [] && [a, b][..1] == [a];
  }

  lemma BeginStep(n: Net, job: nat, next: Rule)
    requires job !in n.jobs && next.gateGroup in n.rules
    ensures Step(n, Begin(job, next)) == n.(jobs := n.jobs[job := Checked(next)])
  {
  }

  lemma StoreStep(n: Net, job: nat, next: Rule)
    requires job in n.jobs && n.jobs[job] == Checked(next)
    ensures Step(n, Advance(job)) == Store(n, job, next)
  {
  }

  lemma SendStep(n: Net, job: nat, rule: Rule)
    requires job in n.jobs && n.jobs[job] == Stored(rule)
    ensures Step(n, Advance(job)) == n.(jobs := n.jobs[job := Delivering(rule, Subscribers(n))])
  {
  }

  lemma EndStep(n: Net, job: nat, rule: Rule)
    requires job in n.jobs && n.jobs[job] == Delivering(rule, {})
    ensures Step(n, Advance(job)) == n.(jobs := n.jobs - {job})
  {
  }

  function Told(caches: map<nat, Cache>, rule: Rule, targets: set<nat>): map<nat, Cache> {
    map c | c in caches :: if c in targets
                           then caches[c].(entries := caches[c].entries[rule.gateGroup := rule]) else caches[c]
  }

  // The whole of an upgrade of a known group, with nothing in between.
  function UpgradedAlone(n: Net, next: Rule): Net {
    var rule := next.(version := n.lastSeq + 1);
    n.(rules := n.rules[rule.gateGroup := rule], lastSeq := n.lastSeq + 1, log := n.log + [rule],
       caches := Told(n.caches, rule, Subscribers(n)))
  }

  function Tell(job: nat, order: seq<nat>): seq<Label> {
    if order == [] then [] else Tell(job, order[..|order| - 1]) + [Deliver(job, order[|order| - 1])]
  }

  predicate Distinct(order: seq<nat>) {
    forall i, j :: 0 <= i < j < |order| ==> order[i] != order[j]
  }

  function Elements(order: seq<nat>): set<nat> {
    set c | c in order
  }

  // An upgrade under way that still has to tell the caches in `todo`.
  function Telling(n: Net, job: nat, rule: Rule, done: set<nat>, todo: set<nat>): Net {
    n.(caches := Told(n.caches, rule, done), jobs := n.jobs[job := Delivering(rule, todo)])
  }

  lemma TellStep(n: Net, job: nat, rule: Rule, done: set<nat>, todo: set<nat>, c: nat)
    requires c in todo && c !in done && c in n.caches
    ensures Step(Telling(n, job, rule, done, todo), Deliver(job, c)) == Telling(n, job, rule, done + {c}, todo - {c})
  {
    var told := Told(n.caches, rule, done);
    assert Told(n.caches, rule, done + {c})
        == told[c := told[c].(entries := told[c].entries[rule.gateGroup := rule])];
  }

  lemma {:induction false} TellEach(n: Net, job: nat, rule: Rule, todo: set<nat>, order: seq<nat>)
    requires Distinct(order) && Elements(order) <= todo <= n.caches.Keys
    ensures Run(Telling(n, job, rule, {}, todo), Tell(job, order))
            == Telling(n, job, rule, Elements(order), todo - Elements(order))
  {
    if order == [] {
      assert todo - Elements(order) == todo;
    } else {
      var front, c := order[..|order| - 1], order[|order| - 1];
      var done := Elements(front);
      assert Elements(order) == done + {c} && c !in done;
      assert todo - done - {c} == todo - Elements(order);
      TellEach(n, job, rule, todo, front);
      TellStep(n, job, rule, done, todo - done, c);
      RunSnoc(Telling(n, job, rule, {}, todo), Tell(job, front), Deliver(job, c));
    }
  }

  // An upgrade up to its copy of the list of subscribers, and all of it.
  function StartLabels(job: nat, next: Rule): seq<Label> {
    [Begin(job, next), Advance(job), Advance(job)]
  }

  function AloneLabels(job: nat, next: Rule, order: seq<nat>): seq<Label> {
    StartLabels(job, next) + Tell(job, order) + [Advance(job)]
  }

  lemma StartAlone(n: Net, job: nat, next: Rule)
    requires job !in n.jobs && next.gateGroup in n.rules
    ensures var rule := next.(version := n.lastSeq + 1);
            Run(n, StartLabels(job, next)) ==
            n.(rules := n.rules[rule.gateGroup := rule], lastSeq := n.lastSeq + 1, log := n.log + [rule],
               jobs := n.jobs[job := Delivering(rule, Subscribers(n))])
  {
    var n1 := n.(jobs := n.jobs[job := Checked(next)]);
    var n2 := Store(n1, job, next);
    BeginStep(n, job, next);
    StoreStep(n1, job, next);
    SendStep(n2, job, next.(version := n.lastSeq + 1));
    assert Subscribers(n2) == Subscribers(n);
    TwoSteps(n, Begin(job, next), Advance(job));
    RunSnoc(n, [Begin(job, next), Advance(job)], Advance(job));
    assert [Begin(job, next), Advance(job)] + [Advance(job)] == StartLabels(job, next);
    assert n2.jobs[job := Delivering(next.(version := n.lastSeq + 1), Subscribers(n))]
        == n.jobs[job := Delivering(next.(version := n.lastSeq + 1), Subscribers(n))];
  }

  // The closed form is what the steps give when only this upgrade moves, in
  // whatever order the subscribers are called.
  lemma UpgradeAloneIsARun(n: Net, job: nat, next: Rule, order: seq<nat>)
    requires job !in n.jobs && next.gateGroup in n.rules
    requires Distinct(order) && Elements(order) == Subscribers(n)
    ensures Run(n, AloneLabels(job, next, order)) == UpgradedAlone(n, next)
  {
    var rule := next.(version := n.lastSeq + 1);
    var stored := n.(rules := n.rules[rule.gateGroup := rule], lastSeq := n.lastSeq + 1, log := n.log + [rule]);
    var end := Telling(stored, job, rule, Subscribers(n), {});
    StartAlone(n, job, next);
    assert Told(n.caches, rule, {}) == n.caches;
    assert Run(n, StartLabels(job, next)) == Telling(stored, job, rule, {}, Subscribers(n));
    TellEach(stored, job, rule, Subscribers(n), order);
    assert Subscribers(n) - Elements(order) == {};
    RunConcat(n, StartLabels(job, next), Tell(job, order));
    EndStep(end, job, rule);
    RunSnoc(n, StartLabels(job, next) + Tell(job, order), Advance(job));
    assert end.jobs - {job} == n.jobs;
  }

  // A cache built and subscribed with nothing in between.
  function SubscribedAlone(n: Net, c: nat): Net {
    n.(caches := n.caches[c := Cache(n.rules, Subscribed)])
  }

  lemma SubscribeAloneIsARun(n: Net, c: nat)
    requires c !in n.caches
    ensures Run(n, [Build(c), Subscribe(c)]) == SubscribedAlone(n, c)
  {
    TwoSteps(n, Build(c), Subscribe(c));
    var built := Cache(n.rules, Building);
    assert n.caches[c := built][c := built.(stage := Subscribed)] == SubscribedAlone(n, c).caches;
  }

  // ---------- How a cache goes stale ----------

  // The store has moved on, nobody is about to tell the cache, and it is subscribed.
  predicate Stale(n: Net, c: nat) {
    n.jobs == map[] && c in n.caches && n.caches[c].stage == Subscribed && n.caches[c].entries != n.rules
  }

  // One upgrade, all of it between a cache's snapshot and its subscription.
  function LateSubscriber(next: Rule): seq<Label> {
    [Build(0)] + AloneLabels(0, next, []) + [Subscribe(0)]
  }

  lemma MissedUpgrade(n: Net, next: Rule)
    requires n.jobs == map[] && n.caches == map[0 := Cache(n.rules, Building)]
    requires next.gateGroup in n.rules && n.rules[next.gateGroup].version <= n.lastSeq
    ensures Stale(Step(UpgradedAlone(n, next), Subscribe(0)), 0)
  {
    assert Subscribers(n) == {};
    var q := Step(UpgradedAlone(n, next), Subscribe(0));
    assert q.caches[0].entries == n.rules && q.rules[next.gateGroup].version == n.lastSeq + 1;
  }

  lemma LateSubscriptionLeavesStale(next: Rule)
    requires next.gateGroup == DEFAULT_GROUP
    ensures Stale(Run(START, LateSubscriber(next)), 0)
  {
    var built := START.(caches := map[0 := Cache(NEW_BOOK, Building)]);
    assert Step(START, Build(0)) == built && Subscribers(built) == {};
    UpgradeAloneIsARun(built, 0, next, []);
    MissedUpgrade(built, next);
    RunSnoc(START, [], Build(0));
    RunConcat(START, [Build(0)], AloneLabels(0, next, []));
    RunSnoc(START, [Build(0)] + AloneLabels(0, next, []), Subscribe(0));
  }

  // Two upgrades of one group are stored, in this order, and neither is delivered.
  function BothStored(first: Rule, second: Rule): seq<Label> {
    StartLabels(1, first) + StartLabels(2, second)
  }

  function AdvanceBoth(): seq<Label> {
    [Advance(1), Advance(2)]
  }

  function DeliveredInTurn(a: nat, b: nat, c: nat): seq<Label> {
    [Deliver(a, c), Deliver(b, c)] + AdvanceBoth()
  }

  lemma BothAreStored(n: Net, first: Rule, second: Rule)
    requires first.gateGroup == second.gateGroup && first.gateGroup in n.rules && n.jobs == map[]
    ensures var q := Run(n, BothStored(first, second));
            var rule, rule' := first.(version := n.lastSeq + 1), second.(version := n.lastSeq + 2);
            && q.caches == n.caches && q.rules == n.rules[first.gateGroup := rule']
            && q.jobs == map[1 := Delivering(rule, Subscribers(n)), 2 := Delivering(rule', Subscribers(n))]
  {
    StartAlone(n, 1, first);
    var n1 := Run(n, StartLabels(1, first));
    assert Subscribers(n1) == Subscribers(n);
    StartAlone(n1, 2, second);
    RunConcat(n, StartLabels(1, first), StartLabels(2, second));
  }

  lemma EndBoth(n: Net, first: Rule, second: Rule)
    requires n.jobs == map[1 := Delivering(first, {}), 2 := Delivering(second, {})]
    ensures Run(n, AdvanceBoth()) == n.(jobs := map[])
  {
    TwoSteps(n, Advance(1), Advance(2));
    EndStep(n, 1, first);
    var n1 := n.(jobs := n.jobs - {1});
    EndStep(n1, 2, second);
    assert n1.jobs - {2} == map[];
  }

  lemma DeliverBoth(n: Net, a: nat, b: nat, c: nat, first: Rule, second: Rule)
    requires a != b && c in n.caches && a in n.jobs && b in n.jobs && first.gateGroup == second.gateGroup
    requires n.jobs[a] == Delivering(first, {c}) && n.jobs[b] == Delivering(second, {c})
    ensures var book := n.caches[c].entries;
            Run(n, [Deliver(a, c), Deliver(b, c)]) ==
            n.(caches := n.caches[c := n.caches[c].(entries := book[second.gateGroup := second])],
               jobs := n.jobs[a := Delivering(first, {})][b := Delivering(second, {})])
  {
    TwoSteps(n, Deliver(a, c), Deliver(b, c));
    var none: set<nat> := {c} - {c};
    assert none == {};
    var book := n.caches[c].entries;
    assert book[first.gateGroup := first][second.gateGroup := second] == book[second.gateGroup := second];
    var n1 := Step(n, Deliver(a, c));
    assert n1.caches[c].entries == book[first.gateGroup := first];
    assert n1.jobs == n.jobs[a := Delivering(first, {})];
  }

  lemma LastDeliveryWins(n: Net, a: nat, b: nat, c: nat, first: Rule, second: Rule)
    requires (a == 1 && b == 2) || (a == 2 && b == 1)
    requires c in n.caches && first.gateGroup == second.gateGroup
    requires n.jobs == map[a := Delivering(first, {c}), b := Delivering(second, {c})]
    ensures Run(n, DeliveredInTurn(a, b, c)) ==
            n.(jobs := map[],
               caches := n.caches[c := n.caches[c].(entries := n.caches[c].entries[second.gateGroup := second])])
  {
    DeliverBoth(n, a, b, c, first, second);
    var n2 := Run(n, [Deliver(a, c), Deliver(b, c)]);
    EndBoth(n2, n2.jobs[1].rule, n2.jobs[2].rule);
    RunConcat(n, [Deliver(a, c), Deliver(b, c)], AdvanceBoth());
  }

  // Where the race starts: one fresh cache, subscribed.
  function Opening(): seq<Label> {
    [Build(0), Subscribe(0)]
  }

  lemma RaceSetUp(first: Rule, second: Rule)
    requires first.gateGroup == second.gateGroup == DEFAULT_GROUP
    ensures var q := Run(START, Opening() + BothStored(first, second));
            && q.caches == map[0 := Cache(NEW_BOOK, Subscribed)]
            && q.rules == NEW_BOOK[DEFAULT_GROUP := second.(version := 4)]
            && q.jobs == map[1 := Delivering(first.(version := 3), {0}), 2 := Delivering(second.(version := 4), {0})]
  {
    SubscribeAloneIsARun(START, 0);
    var n := Run(START, Opening());
    assert n.caches == map[0 := Cache(NEW_BOOK, Subscribed)] && Subscribers(n) == {0};
    BothAreStored(n, first, second);
    RunConcat(START, Opening(), BothStored(first, second));
  }

  // The order of two overlapping deliveries decides: the later rule last leaves
  // the cache right, the earlier rule last leaves it stale and no upgrade under way.
  lemma DeliveryOrderDecides(first: Rule, second: Rule)
    requires first.gateGroup == second.gateGroup == DEFAULT_GROUP
    ensures var right := Run(START, Opening() + BothStored(first, second) + DeliveredInTurn(1, 2, 0));
            right.jobs == map[] && right.caches == map[0 := Cache(right.rules, Subscribed)]
    ensures Stale(Run(START, Opening() + BothStored(first, second) + DeliveredInTurn(2, 1, 0)), 0)
  {
    RaceSetUp(first, second);
    var q := Run(START, Opening() + BothStored(first, second));
    LastDeliveryWins(q, 1, 2, 0, first.(version := 3), second.(version := 4));
    LastDeliveryWins(q, 2, 1, 0, second.(version := 4), first.(version := 3));
    RunConcat(START, Opening() + BothStored(first, second), DeliveredInTurn(1, 2, 0));
    RunConcat(START, Opening() + BothStored(first, second), DeliveredInTurn(2, 1, 0));
    var stale := Run(START, Opening() + BothStored(first, second) + DeliveredInTurn(2, 1, 0));
    assert stale.caches[0].entries[DEFAULT_GROUP].version == 3;
  }

  // ---------- Closed caches ----------

  predicate Unchanged(n: Net, labels: seq<Label>, c: nat)
    requires c in n.caches
  {
    c in Run(n, labels).caches && Run(n, labels).caches[c] == n.caches[c]
  }

  // No delivery under way would still change the cache.
  predicate NothingPending(n: Net, c: nat)
    requires c in n.caches
  {
    forall j :: j in n.jobs && n.jobs[j].Delivering? && c in n.jobs[j].todo ==>
      var rule := n.jobs[j].rule;
      rule.gateGroup in n.caches[c].entries && n.caches[c].entries[rule.gateGroup] == rule
  }

  lemma ClosedStep(n: Net, l: Label, c: nat)
    requires c in n.caches && n.caches[c].stage == Closed && NothingPending(n, c)
    ensures var q := Step(n, l); c in q.caches && q.caches[c] == n.caches[c] && NothingPending(q, c)
  {
    assert c !in Subscribers(n);
  }

  lemma {:induction false} ClosedRun(n: Net, labels: seq<Label>, c: nat)
    requires c in n.caches && n.caches[c].stage == Closed && NothingPending(n, c)
    ensures Unchanged(n, labels, c) && NothingPending(Run(n, labels), c)
  {
    if labels != [] {
      ClosedRun(n, labels[..|labels| - 1], c);
      ClosedStep(Run(n, labels[..|labels| - 1]), labels[|labels| - 1], c);
    }
  }

  // A closed cache is frozen, whatever happens afterwards, if and only if no
  // delivery that had listed it before it closed still has something new for it.
  lemma ClosedCacheFrozenIff(n: Net, c: nat)
    requires c in n.caches && n.caches[c].stage == Closed
    ensures (forall labels :: Unchanged(n, labels, c)) <==> NothingPending(n, c)
  {
    if NothingPending(n, c) {
      forall labels ensures Unchanged(n, labels, c) {
        ClosedRun(n, labels, c);
      }
    } else {
      var j :| j in n.jobs && n.jobs[j].Delivering? && c in n.jobs[j].todo
               && var rule := n.jobs[j].rule;
                  !(rule.gateGroup in n.caches[c].entries && n.caches[c].entries[rule.gateGroup] == rule);
      var rule := n.jobs[j].rule;
      RunSnoc(n, [], Deliver(j, c));
      assert Run(n, [Deliver(j, c)]).caches[c].entries[rule.gateGroup] == rule;
      assert !Unchanged(n, [Deliver(j, c)], c);
    }
  }

  // ---------- The objects: upgrades one at a time ----------

  class RuleStore {
    var rules: Book
    var lastSeq: int

    constructor ()
      ensures rules == NEW_BOOK && lastSeq == 2
    {
      rules, lastSeq := NEW_BOOK, 2;
    }

    method SetRule(rule: Rule) returns (stored: Rule)
      modifies this
      ensures lastSeq == old(lastSeq) + 1 && stored == rule.(version := lastSeq)
      ensures rules == old(rules)[rule.gateGroup := stored]
    {
      lastSeq := lastSeq + 1;
      stored := rule.(version := lastSeq);
      rules := rules[rule.gateGroup := stored];
    }

    method Snapshot() returns (out: Book)
      ensures out == rules
    {
      out := map[];
      var keys := rules.Keys;
      while keys != {}
        invariant keys <= rules.Keys
        invariant out == map k | k in rules.Keys - keys :: rules[k]
        decreases keys
      {
        var key :| key in keys;
        out := out[key := rules[key]];
        keys := keys - {key};
      }
    }
  }

  class RuleCache {
    const mgr: RuleManager
    var entries: Book
    var subscription: Option<nat>

    // The cache is among the subscribers exactly under its own subscription.
    ghost predicate Attached()
      reads this, mgr.notifier
    {
      && mgr.notifier.Valid()
      && (subscription.Some? ==> subscription.value in mgr.notifier.subs && mgr.notifier.subs[subscription.value] == this)
      && (forall id :: id in mgr.notifier.subs && mgr.notifier.subs[id] == this ==> subscription == Some(id))
    }

    // A cache starts as the store's map and is told of every upgrade from then on.
    // The others stay as they are, so caches that agreed with the store still do.
    constructor (mgr: RuleManager)
      requires mgr.Valid()
      modifies mgr.notifier
      ensures this.mgr == mgr && mgr.Valid() && Attached()
      ensures entries == mgr.store.rules && subscription == Some(old(mgr.notifier.nextID))
      ensures mgr.notifier.subs == old(mgr.notifier.subs)[old(mgr.notifier.nextID) := this]
      ensures old(mgr.Coherent()) ==> mgr.Coherent()
      ensures forall log :: mgr.View(log) == SubscribedAlone(old(mgr.View(log)), old(mgr.notifier.nextID))
    {
      this.mgr := mgr;
      var snapshot := mgr.store.Snapshot();
      entries, subscription := snapshot, None;
      new;
      assert forall id :: id in mgr.notifier.subs ==> mgr.notifier.subs[id] in mgr.notifier.subs.Values;
      var id := mgr.notifier.SubscribeCache(this);
      subscription := Some(id);
    }

    method Update(current: Rule)
      modifies this`entries
      ensures entries == old(entries)[current.gateGroup := current]
    {
      entries := entries[current.gateGroup := current];
    }

    method Get(group: string) returns (rule: Option<Rule>)
      ensures rule == if group in entries then Some(entries[group]) else None
    {
      if group !in entries {
        return None;
      }
      return Some(entries[group]);
    }

    // The cache leaves the subscribers and keeps its entries; with that no later
    // broadcast reaches it. Closing a second time does nothing.
    method CloseCache()
      modifies this`subscription, mgr.notifier`subs
      ensures subscription == None && entries == old(entries)
      ensures mgr.notifier.subs == if old(subscription).Some? then old(mgr.notifier.subs) - {old(subscription).value}
                                   else old(mgr.notifier.subs)
      ensures old(Attached()) ==> Attached() && this !in mgr.notifier.subs.Values
      ensures old(mgr.Valid()) ==> mgr.Valid()
      ensures old(mgr.Coherent()) ==> mgr.Coherent()
    {
      if subscription.Some? {
        mgr.notifier.Unsubscribe(subscription.value);
        subscription := None;
      }
    }
  }

  class ChangeNotifier {
    var nextID: nat
    var subs: map<nat, RuleCache>

    constructor ()
      ensures nextID == 1 && subs == map[]
    {
      nextID, subs := 1, map[];
    }

    ghost predicate Valid()
      reads this
    {
      forall id :: id in subs ==> id < nextID
    }

    // A cache may subscribe any number of times.
    method SubscribeCache(cache: RuleCache) returns (id: nat)
      requires Valid()
      modifies this
      ensures Valid() && id == old(nextID) && nextID == old(nextID) + 1
      ensures id !in old(subs) && subs == old(subs)[id := cache]
    {
      id := nextID;
      nextID := nextID + 1;
      subs := subs[id := cache];
    }

    method Unsubscribe(id: nat)
      modifies this`subs
      ensures subs == old(subs) - {id}
    {
      subs := subs - {id};
    }

    // Every subscribed cache is told, in any order; no other cache is touched.
    method Broadcast(current: Rule)
      modifies subs.Values`entries
      ensures forall id :: id in subs ==>
        subs[id].entries == old(subs[id].entries)[current.gateGroup := current]
    {
      var ids := subs.Keys;
      ghost var told: set<RuleCache> := {};
      while ids != {}
        invariant ids <= subs.Keys
        invariant forall id :: id in subs ==> id in ids || subs[id] in told
        invariant forall id :: id in subs ==>
          subs[id].entries ==
            if subs[id] in told then old(subs[id].entries)[current.gateGroup := current] else old(subs[id].entries)
        decreases ids
      {
        var id :| id in ids;
        subs[id].Update(current);
        told := told + {subs[id]};
        ids := ids - {id};
      }
    }
  }

  class RuleManager {
    const store: RuleStore
    const notifier: ChangeNotifier

    constructor (store: RuleStore)
      ensures this.store == store && fresh(notifier)
      ensures notifier.Valid() && notifier.subs == map[]
    {
      this.store := store;
      this.notifier := new ChangeNotifier();
    }

    ghost predicate Valid()
      reads this, store, notifier
    {
      && notifier.Valid()
      && DEFAULT_GROUP in store.rules
      && forall g :: g in store.rules ==> store.rules[g].gateGroup == g && store.rules[g].version <= store.lastSeq
    }

    // Every subscribed cache equals the store.
    ghost predicate Coherent()
      reads this, store, notifier, notifier.subs.Values
    {
      forall id :: id in notifier.subs ==> notifier.subs[id].entries == store.rules
    }

    // The store and the subscribers as a state of the step system, given what was
    // stored so far.
    ghost function View(log: seq<Rule>): Net
      reads this, store, notifier, notifier.subs.Values
    {
      Net(store.rules, store.lastSeq, log,
          map id | id in notifier.subs :: Cache(notifier.subs[id].entries, Subscribed), map[])
    }

    // An upgrade of a known group takes effect in every subscribed cache before
    // it returns, and in no other; of an unknown group it changes nothing.
    method Upgrade(group: string, singleAllowed: bool, transferAllowed: bool) returns (stored: Option<Rule>)
      requires Valid()
      modifies store, notifier.subs.Values`entries
      ensures Valid()
      ensures stored.Some? == (group in old(store.rules))
      ensures stored.Some? ==>
        && stored.value == Rule(group, singleAllowed, transferAllowed, old(store.lastSeq) + 1)
        && store.rules == old(store.rules)[group := stored.value]
        && stored.value.version > old(store.rules)[group].version
        && (forall id :: id in notifier.subs ==>
              notifier.subs[id].entries == old(notifier.subs[id].entries)[group := stored.value])
        && (forall log :: View(log + [stored.value])
                          == UpgradedAlone(old(View(log)), Rule(group, singleAllowed, transferAllowed, 0)))
      ensures stored.None? ==> forall log :: View(log) == old(View(log))
      ensures old(Coherent()) ==> Coherent()
    {
      if group !in store.rules {
        return None;
      }
      var next := Rule(group, singleAllowed, transferAllowed, 0);
      var rule := store.SetRule(next);
      notifier.Broadcast(rule);
      return Some(rule);
    }
  }
}
