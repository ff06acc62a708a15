/** Sync after sync of one service against the ledger, with other work in between: every event's
    money reaches the books once. */
module SyncRuns {
  import opened Options
  import opened Sums
  import opened Sorting
  import opened Calendar
  import opened Ledger
  import opened Commands
  import opened Invariants
  import opened ClosingTheYear
  import opened Runs
  import opened Rollups
  import opened Grouping
  import opened Syncs
  import opened EventStores

  // ------------------------------------------------------------------ the references a service holds

  /** The reference an event's money is posted under: its period's, or its own. */
  function KeyFor(v: Service, e: RemoteEvent): Key {
    if Rolls(v, e) then RollupName(v, PeriodFor(v, e)) else ServiceKey(v.id, e.id)
  }

  predicate Ours(v: Service, key: Key) {
    (key.ServiceKey? || key.RollupKey?) && key.service == v.id
  }

  predicate IsOurs(v: Service, e: Entry) {
    e.reference.Some? && e.reference.value.Keyed? && Ours(v, e.reference.value.key)
  }

  predicate Held(s: State, key: Key) {
    Holder(s.entries, Keyed(key)).Some?
  }

  function KeyOf(v: Service): RemoteEvent -> Key {
    e => KeyFor(v, e)
  }

  function Money(v: Service, a: AccountId): RemoteEvent -> Cents {
    e => PlanOn(v, e, a)
  }

  function HeldIn(s: State): Key -> bool {
    key => Held(s, key)
  }

  function Unheld(s: State): Key -> bool {
    key => !Held(s, key)
  }

  /** What every event of the feed posted under a key would put on an account by itself. */
  function KeyOn(v: Service, feed: seq<RemoteEvent>, key: Key, a: AccountId): Cents {
    Sum(feed, AtKey(KeyOf(v), key, Money(v, a)))
  }

  function OursOn(v: Service, e: Entry, a: AccountId): Cents {
    if IsOurs(v, e) && !e.isVoid then On(e.lines, a) else 0
  }

  /** What the service's live entries put on an account. */
  function ServiceBalance(v: Service, s: State, a: AccountId): Cents {
    Sum(s.entries, (e: Entry) => OursOn(v, e, a))
  }

  /** What the events whose reference is in the books would put on it, each once. */
  function HeldOn(v: Service, feed: seq<RemoteEvent>, s: State, a: AccountId): Cents {
    Sum(feed, AtKeys(KeyOf(v), HeldIn(s), Money(v, a)))
  }

  /** Each event's money is in the books at most once: exactly when its reference is. */
  ghost predicate CountedOnce(v: Service, feed: seq<RemoteEvent>, s: State) {
    forall a: AccountId :: ServiceBalance(v, s, a) == HeldOn(v, feed, s, a)
  }

  /** From one state to the other, what the service's entries gained on each account is the money of the
      events whose references the books gained. */
  ghost predicate GainsAlike(v: Service, feed: seq<RemoteEvent>, s: State, t: State) {
    forall a: AccountId :: ServiceBalance(v, t, a) - ServiceBalance(v, s, a)
                           == HeldOn(v, feed, t, a) - HeldOn(v, feed, s, a)
  }

  lemma GainsKeepCount(v: Service, feed: seq<RemoteEvent>, s: State, t: State)
    requires CountedOnce(v, feed, s) && GainsAlike(v, feed, s, t)
    ensures CountedOnce(v, feed, t)
  {
    hide ServiceBalance, HeldOn;
  }

  // ------------------------------------------------------------------ posting what a plan says

  function CommandsFor(plan: SyncPlan): seq<Command> {
    seq(|plan.posts|, i requires 0 <= i < |plan.posts| => PostEntry(plan.posts[i]))
    + seq(|plan.bills|, i requires 0 <= i < |plan.bills| => ReceiveBill(plan.bills[i]))
  }

  /** What the loop counts as an error. A reference an entry already holds is a skip; the same
      refusal of a bill is not recognised as one. */
  predicate Troubled(s: State, books: Books, cmd: Command) {
    var verdict := Build(s, books, cmd);
    if verdict.Reject? then !(cmd.PostEntry? && verdict.error.DuplicateReference?)
    else Record(s, verdict.events).None?
  }

  /** What counts as an error: an entry that is not recorded, unless it is a valid one whose reference is held; a bill
      that is not recorded, whatever the reason. */
  lemma TroubledMeans(s: State, books: Books, cmd: Command)
    requires cmd.PostEntry? || cmd.ReceiveBill?
    ensures Troubled(s, books, cmd)
       <==> && !(Build(s, books, cmd).Append? && Record(s, Build(s, books, cmd).events).Some?)
            && !(cmd.PostEntry? && CheckEntryPure(cmd.post).None? && cmd.post.reference.Some?
                 && Held(s, cmd.post.reference.value))
  {
    hide CheckEntryPure, CheckEntryInvariants, Holder, Record;
    if cmd.PostEntry? {
      ChecksAreNoDuplicate(s, AccountsOf(cmd.post.lines), cmd.post.date, true);
      PureIsNoDuplicate(cmd.post);
    }
  }

  lemma PureIsNoDuplicate(post: Post)
    ensures CheckEntryPure(post).Some? ==> !CheckEntryPure(post).value.DuplicateReference?
  {
    hide CheckedTotal;
  }

  lemma ChecksAreNoDuplicate(s: State, accounts: seq<AccountId>, day: Date, fenced: bool)
    ensures var e := CheckEntryInvariants(s, accounts, day, fenced); e.Some? ==> !e.value.DuplicateReference?
  {
  }

  /** A plan's entries are attempted first, in its order, and then its bills. */
  lemma CommandsInOrder(plan: SyncPlan)
    ensures |CommandsFor(plan)| == |plan.posts| + |plan.bills|
    ensures forall i :: 0 <= i < |plan.posts| ==> CommandsFor(plan)[i] == PostEntry(plan.posts[i])
    ensures forall i :: 0 <= i < |plan.bills| ==> CommandsFor(plan)[|plan.posts| + i] == ReceiveBill(plan.bills[i])
  {
  }

  function Troubles(s: State, books: Books, cmds: seq<Command>): nat {
    if cmds == [] then 0
    else
      var before := cmds[..|cmds| - 1];
      Troubles(s, books, before) + if Troubled(Run(s, books, before), books, cmds[|cmds| - 1]) then 1 else 0
  }

  /** The cursor after a batch: moved only when nothing failed. */
  function CursorAfter(plan: SyncPlan, troubles: nat, cursor: Option<nat>): Option<nat> {
    if plan.failed == [] && troubles == 0 && plan.cursor.Some? then plan.cursor else cursor
  }

  /** One append after another, counting what went wrong. */
  method PostAll(store: EventStore, books: Books, cmds: seq<Command>) returns (errors: nat)
    requires store.Valid()
    modifies store
    ensures store.Valid()
    ensures store.tables == Run(old(store.tables), books, cmds)
    ensures errors == Troubles(old(store.tables), books, cmds)
  {
    hide Build, Project, Record;
    errors := 0;
    var i := 0;
    assert cmds[..0] == [];
    while i < |cmds|
      invariant 0 <= i <= |cmds| && store.Valid()
      invariant store.tables == Run(old(store.tables), books, cmds[..i])
      invariant errors == Troubles(old(store.tables), books, cmds[..i])
    {
      assert cmds[..i + 1][..i] == cmds[..i];
      var cmd := cmds[i];
      var head := store.LatestId();
      var outcome := store.AppendChecked(head, s => Build(s, books, cmd));
      if outcome.Rejected? {
        if !(cmd.PostEntry? && outcome.error.DuplicateReference?) {
          errors := errors + 1;
        }
      } else if !outcome.Appended? {
        errors := errors + 1;
      }
      i := i + 1;
    }
    assert cmds[..i] == cmds;
  }

  /** `post_rollups`. */
  method PostRollups(store: EventStore, books: Books, v: Service, today: Date, events: seq<RemoteEvent>,
                     cursor: Option<nat>)
    returns (errors: nat, acknowledged: Option<nat>)
    requires store.Valid()
    modifies store
    ensures store.Valid()
    ensures var plan := ServiceSync(v, today, events);
            var troubles := Troubles(old(store.tables), books, CommandsFor(plan));
            && store.tables == Run(old(store.tables), books, CommandsFor(plan))
            && errors == |plan.failed| + troubles
            && acknowledged == CursorAfter(plan, troubles, cursor)
  {
    var plan := PlanServiceSync(v, today, events);
    var troubles := PostAll(store, books, CommandsFor(plan));
    errors := |plan.failed| + troubles;
    acknowledged := if errors == 0 && plan.cursor.Some? then plan.cursor else cursor;
  }

  /** What a command posts, under which reference. */
  function NameOf(cmd: Command): Option<Key> {
    match cmd
    case PostEntry(post) => post.reference
    case ReceiveBill(order) => order.reference
    case _ => None
  }

  function LinesOf(cmd: Command): seq<Line> {
    match cmd
    case PostEntry(post) => post.lines
    case ReceiveBill(order) => BillLines(order)
    case _ => []
  }

  /** The command posts, under a key of the service, the money of exactly that key's events. */
  ghost predicate Fits(v: Service, feed: seq<RemoteEvent>, cmd: Command) {
    && NameOf(cmd).Some? && Ours(v, NameOf(cmd).value)
    && forall a: AccountId :: On(LinesOf(cmd), a) == KeyOn(v, feed, NameOf(cmd).value, a)
  }

  /** A post either changes nothing or adds one entry under a free reference; and unless it counts
      as an error, its reference is held afterwards. */
  lemma Attempt(s: State, books: Books, cmd: Command)
    requires NameOf(cmd).Some?
    ensures var key, t := NameOf(cmd).value, Step(s, books, cmd);
            && (t == s || (!Held(s, key) && |t.entries| == |s.entries| + 1 && t.entries[..|s.entries|] == s.entries
                           && var e := t.entries[|s.entries|];
                              e.reference == Some(Keyed(key)) && !e.isVoid && e.lines == LinesOf(cmd)))
            && (Held(s, key) ==> t == s)
            && (!Troubled(s, books, cmd) ==> Held(s, key) || t != s)
  {
    var verdict := Build(s, books, cmd);
    if verdict.Append? {
      var events := verdict.events;
      if cmd.PostEntry? {
        RecordOne(s, events[0]);
      } else {
        assert events == [events[0]] + [events[1]];
        RecordOne(s, events[0]);
        if Sound(events[0]) && Project(s, events[0]).Some? {
          RecordCons(s, events[0], [events[1]]);
          RecordOne(Project(s, events[0]).value, events[1]);
        } else {
          assert events[..1] == [events[0]];
        }
      }
    }
  }

  lemma HeldAfterPosting(entries: seq<Entry>, e: Entry, key: Key, other: Key)
    requires e.reference == Some(Keyed(key)) && !e.isVoid
    ensures Holder(entries + [e], Keyed(other)).Some? <==> Holder(entries, Keyed(other)).Some? || other == key
  {
    assert (entries + [e])[..|entries|] == entries;
  }

  /** Posting a key's money gains what holding the key does. */
  lemma PostingGains(v: Service, feed: seq<RemoteEvent>, s: State, t: State, key: Key)
    requires !Held(s, key) && Ours(v, key)
    requires |t.entries| == |s.entries| + 1 && t.entries[..|s.entries|] == s.entries
    requires var e := t.entries[|s.entries|];
             && e.reference == Some(Keyed(key)) && !e.isVoid
             && forall a: AccountId :: On(e.lines, a) == KeyOn(v, feed, key, a)
    ensures GainsAlike(v, feed, s, t)
    ensures forall other :: Held(t, other) <==> Held(s, other) || other == key
  {
    var e := t.entries[|s.entries|];
    assert t.entries == s.entries + [e];
    forall other ensures Held(t, other) <==> Held(s, other) || other == key {
      HeldAfterPosting(s.entries, e, key, other);
    }
    assert IsOurs(v, e);
    forall a: AccountId
      ensures ServiceBalance(v, t, a) - ServiceBalance(v, s, a) == HeldOn(v, feed, t, a) - HeldOn(v, feed, s, a)
    {
      SumAppend(s.entries, e, (x: Entry) => OursOn(v, x, a));
      assert On(e.lines, a) == KeyOn(v, feed, key, a);
      SumPlus(feed, AtKeys(KeyOf(v), HeldIn(s), Money(v, a)), AtKey(KeyOf(v), key, Money(v, a)),
              AtKeys(KeyOf(v), HeldIn(t), Money(v, a)));
    }
  }

  lemma {:induction false} RunPosts(v: Service, feed: seq<RemoteEvent>, s: State, books: Books, cmds: seq<Command>)
    requires forall cmd :: cmd in cmds ==> Fits(v, feed, cmd)
    ensures var t := Run(s, books, cmds);
            && GainsAlike(v, feed, s, t)
            && (forall key :: Held(s, key) ==> Held(t, key))
            && (forall key :: Held(t, key) && !Held(s, key) ==> exists cmd :: cmd in cmds && NameOf(cmd) == Some(key))
            && (Troubles(s, books, cmds) == 0 ==>
                  forall cmd :: cmd in cmds ==> NameOf(cmd).Some? && Held(t, NameOf(cmd).value))
  {
    if cmds != [] {
      var n := |cmds| - 1;
      var cmd := cmds[n];
      RunPosts(v, feed, s, books, cmds[..n]);
      assert forall c :: c in cmds[..n] ==> c in cmds;
      assert forall c :: c in cmds ==> c in cmds[..n] || c == cmd;
      assert cmd in cmds && Fits(v, feed, cmd);
      hide Build, Project, Record, KeyOn, Troubled, HeldOn, ServiceBalance;
      var before := Run(s, books, cmds[..n]);
      var t := Run(s, books, cmds);
      assert t == Step(before, books, cmd);
      Attempt(before, books, cmd);
      hide Step;
      if t != before {
        PostingGains(v, feed, before, t, NameOf(cmd).value);
      }
    }
  }

  // ------------------------------------------------------------------ what one plan posts

  /** No roll-up period has events on both sides. */
  ghost predicate NoSplit(v: Service, feed: seq<RemoteEvent>, n: nat)
  {
    forall i, j :: 0 <= i < n <= j < |feed| && Rolls(v, feed[i]) && Rolls(v, feed[j]) ==>
                     PeriodFor(v, feed[i]) != PeriodFor(v, feed[j])
  }

  /** A lone event is its key's only one. */
  lemma LoneKey(v: Service, feed: seq<RemoteEvent>, i: nat, a: AccountId)
    requires DistinctIds(feed) && i < |feed| && !Rolls(v, feed[i])
    ensures KeyOn(v, feed, KeyFor(v, feed[i]), a) == PlanOn(v, feed[i], a)
  {
    SumSingle(feed, i, AtKey(KeyOf(v), KeyFor(v, feed[i]), Money(v, a)));
  }

  lemma AbsorbedSnoc(v: Service, events: seq<RemoteEvent>, e: RemoteEvent)
    ensures Absorbed(v, events + [e]) == Absorbed(v, events) + if Rolls(v, e) then [e] else []
  {
    assert (events + [e])[..|events|] == events;
  }

  lemma KeyForIs(v: Service, e: RemoteEvent, period: Period)
    ensures KeyFor(v, e) == RollupName(v, period) <==> Rolls(v, e) && PeriodAt(v)(e) == period
  {
    hide PeriodFor;
  }

  /** One more event, if it rolls up into the period. */
  lemma WithinAtKeySnoc(v: Service, events: seq<RemoteEvent>, e: RemoteEvent, period: Period, a: AccountId)
    ensures EventsOn(v, Within(Absorbed(v, events + [e]), PeriodAt(v), period), a)
         == EventsOn(v, Within(Absorbed(v, events), PeriodAt(v), period), a) + if KeyFor(v, e)
            == RollupName(v, period) then PlanOn(v, e, a) else 0
  {
    AbsorbedSnoc(v, events, e);
    KeyForIs(v, e, period);
    hide Absorbed, PeriodAt, PlanOn, Rolls, KeyFor, Within, RollupName;
    var absorbed := Absorbed(v, events);
    WithinSnoc(absorbed, e, PeriodAt(v), period);
    assert absorbed + [] == absorbed;
    SumAppend(Within(absorbed, PeriodAt(v), period), e, (x: RemoteEvent) => PlanOn(v, x, a));
  }

  lemma {:induction false} WithinAtKey(v: Service, events: seq<RemoteEvent>, period: Period, a: AccountId)
    ensures EventsOn(v, Within(Absorbed(v, events), PeriodAt(v), period), a)
         == KeyOn(v, events, RollupName(v, period), a)
  {
    if events == [] {
      assert Absorbed(v, events) == [];
      assert Within<RemoteEvent>([], PeriodAt(v), period) == [];
    } else {
      var n := |events| - 1;
      WithinAtKey(v, events[..n], period, a);
      hide Absorbed, PeriodAt, PlanOn, KeyFor, Within, RollupName, EventsOn, Rolls;
      assert events[..n] + [events[n]] == events;
      WithinAtKeySnoc(v, events[..n], events[n], period, a);
    }
  }

  lemma NotOfPeriod(v: Service, events: seq<RemoteEvent>, period: Period, a: AccountId)
    requires forall e :: e in events && Rolls(v, e) ==> PeriodFor(v, e) != period
    ensures KeyOn(v, events, RollupName(v, period), a) == 0
  {
    SumZero(events, AtKey(KeyOf(v), RollupName(v, period), Money(v, a)));
  }

  /** What stands outside a stretch that splits no period adds nothing to a period inside it. */
  lemma KeyInside(v: Service, feed: seq<RemoteEvent>, lo: nat, hi: nat, i: nat, a: AccountId)
    requires lo <= i < hi <= |feed| && NoSplit(v, feed, lo) && NoSplit(v, feed, hi) && Rolls(v, feed[i])
    ensures var key := RollupName(v, PeriodFor(v, feed[i]));
            KeyOn(v, feed[lo..hi], key, a) == KeyOn(v, feed, key, a)
  {
    hide PeriodFor, Rolls, PlanOn, KeyFor, RollupName;
    var period := PeriodFor(v, feed[i]);
    NotOfPeriod(v, feed[..lo], period, a);
    NotOfPeriod(v, feed[hi..], period, a);
    hide NoSplit;
    assert feed == feed[..lo] + (feed[lo..hi] + feed[hi..]);
    SumConcat(feed[..lo], feed[lo..hi] + feed[hi..], AtKey(KeyOf(v), RollupName(v, period), Money(v, a)));
    SumConcat(feed[lo..hi], feed[hi..], AtKey(KeyOf(v), RollupName(v, period), Money(v, a)));
  }

  // ------------------------------------------------------------------ what is in a plan

  lemma {:induction false} SinglesAre(v: Service, events: seq<RemoteEvent>)
    ensures forall p :: p in Singles(v, events) ==> exists e :: e in events && !Rolls(v, e) && v.plan(e) == PlanEntry(p)
    ensures forall e :: e in events && !Rolls(v, e) && v.plan(e).PlanEntry? ==> v.plan(e).post in Singles(v, events)
  {
    if events != [] {
      var n := |events| - 1;
      SinglesAre(v, events[..n]);
      assert events == events[..n] + [events[n]];
      hide Rolls;
    }
  }

  lemma {:induction false} BillsAre(v: Service, events: seq<RemoteEvent>)
    ensures forall b :: b in Bills(v, events) ==> exists e :: e in events && !Rolls(v, e) && v.plan(e) == PlanBill(b)
    ensures forall e :: e in events && !Rolls(v, e) && v.plan(e).PlanBill? ==> v.plan(e).order in Bills(v, events)
    ensures Failures(v, events) == [] ==> forall e :: e in events && !Rolls(v, e) ==> !v.plan(e).PlanError?
  {
    hide Rolls;
    if events != [] {
      var n := |events| - 1;
      BillsAre(v, events[..n]);
      assert events == events[..n] + [events[n]];
    }
  }

  lemma {:induction false} RollupPostsAre(v: Service, groups: seq<Group<RemoteEvent>>)
    ensures forall p :: p in RollupPosts(v, groups) ==> exists g :: g in groups && RollupOf(v, g) == Rolled(p)
    ensures forall g :: g in groups && RollupOf(v, g).Rolled? ==> RollupOf(v, g).post in RollupPosts(v, groups)
    ensures RollupFailures(v, groups) == [] ==> forall g :: g in groups ==> !RollupOf(v, g).Unplannable?
  {
    hide SalesRollup;
    if groups != [] {
      var n := |groups| - 1;
      RollupPostsAre(v, groups[..n]);
      assert groups == groups[..n] + [groups[n]];
    }
  }

  /** What holds of one fetched stretch of the feed that a plan consumes. */
  ghost predicate Whole(v: Service, feed: seq<RemoteEvent>, lo: nat, hi: nat) {
    && lo <= hi <= |feed| && DistinctIds(feed) && Faithful(v) && SalesAreEntries(v)
    && NoSplit(v, feed, lo) && NoSplit(v, feed, hi)
  }

  /** The groups a consumed stretch falls into, and the plan's parts. */
  function GroupsIn(v: Service, events: seq<RemoteEvent>): seq<Group<RemoteEvent>> {
    AbsorbedRoll(v, events);
    GroupByPeriod(v, Absorbed(v, events))
  }

  lemma PeriodAtIs(v: Service, e: RemoteEvent)
    requires Rolls(v, e)
    ensures PeriodAt(v)(e) == PeriodFor(v, e)
  {
  }

  lemma GroupsCover(v: Service, groups: seq<Group<RemoteEvent>>, absorbed: seq<RemoteEvent>, events: seq<RemoteEvent>)
    requires GroupsOf(groups, absorbed, PeriodAt(v)) && forall e :: e in absorbed <==> e in events && Rolls(v, e)
    ensures forall g :: g in groups ==> exists e :: e in events && Rolls(v, e) && PeriodFor(v, e) == g.period
    ensures forall e :: e in events && Rolls(v, e) ==> exists g :: g in groups && g.period == PeriodFor(v, e)
  {
    hide Within, Rolls, PeriodFor, PeriodAt;
    forall g | g in groups ensures exists e :: e in events && Rolls(v, e) && PeriodFor(v, e) == g.period {
      var e :| e in absorbed && PeriodAt(v)(e) == g.period;
      PeriodAtIs(v, e);
    }
    forall e | e in events && Rolls(v, e) ensures exists g :: g in groups && g.period == PeriodFor(v, e) {
      PeriodAtIs(v, e);
      assert e in absorbed;
    }
  }

  lemma GroupsAre(v: Service, events: seq<RemoteEvent>)
    ensures forall g :: g in GroupsIn(v, events) ==> g.items == Within(Absorbed(v, events), PeriodAt(v), g.period)
    ensures forall g :: g in GroupsIn(v, events) ==>
                          exists e :: e in events && Rolls(v, e) && PeriodFor(v, e) == g.period
    ensures forall e :: e in events && Rolls(v, e) ==>
                          exists g :: g in GroupsIn(v, events) && g.period == PeriodFor(v, e)
  {
    hide Absorbed, GroupBy, Within, Rolls, PeriodFor, PeriodAt;
    AbsorbedRoll(v, events);
    PeriodsAreGroups(v, Absorbed(v, events));
    GroupsCover(v, GroupsIn(v, events), Absorbed(v, events), events);
  }

  lemma GroupMoney(v: Service, events: seq<RemoteEvent>, g: Group<RemoteEvent>, a: AccountId)
    requires SalesAreEntries(v) && g.items == Within(Absorbed(v, events), PeriodAt(v), g.period)
             && !RollupOf(v, g).Unplannable?
    ensures KeyOn(v, events, RollupName(v, g.period), a)
         == if RollupOf(v, g).Rolled? then On(RollupOf(v, g).post.lines, a) else 0
  {
    AbsorbedRoll(v, events);
    WithinOnly(Absorbed(v, events), PeriodAt(v), g.period);
    WithinAtKey(v, events, g.period, a);
    hide RollupOf, PeriodFor, PlanOn, Absorbed, Within;
    assert forall e :: e in g.items ==> IsRollupEvent(e.kind);
    RollupPutsOn(v, g, a);
  }

  /** A group's rollup carries the money of every event of the feed in its period. */
  lemma GroupIsWhole(v: Service, feed: seq<RemoteEvent>, lo: nat, hi: nat, g: Group<RemoteEvent>)
    requires Whole(v, feed, lo, hi) && g in GroupsIn(v, feed[lo..hi])
    ensures exists e :: e in feed[lo..hi] && Rolls(v, e) && PeriodFor(v, e) == g.period
    ensures RollupOf(v, g).Rolled? ==> RollupOf(v, g).post.reference == Some(RollupName(v, g.period))
    ensures !RollupOf(v, g).Unplannable? ==> forall a: AccountId ::
              KeyOn(v, feed, RollupName(v, g.period), a)
              == if RollupOf(v, g).Rolled? then On(RollupOf(v, g).post.lines, a) else 0
  {
    hide PeriodFor, Rolls, PlanOn, Absorbed, Within, GroupsIn, PeriodAt, KeyOn;
    var prefix := feed[lo..hi];
    GroupsAre(v, prefix);
    assert RollupOf(v, g).Rolled? ==> RollupOf(v, g).post.reference == Some(RollupName(v, g.period));
    hide RollupOf;
    var e :| e in prefix && Rolls(v, e) && PeriodFor(v, e) == g.period;
    var i :| 0 <= i < |prefix| && prefix[i] == e;
    assert feed[lo + i] == e;
    if !RollupOf(v, g).Unplannable? {
      forall a: AccountId
        ensures KeyOn(v, feed, RollupName(v, g.period), a)
             == if RollupOf(v, g).Rolled? then On(RollupOf(v, g).post.lines, a) else 0
      {
        GroupMoney(v, prefix, g, a);
        KeyInside(v, feed, lo, hi, lo + i, a);
      }
    }
  }

  /** A lone event's posting carries its own money, under its own reference. */
  lemma LoneIsWhole(v: Service, feed: seq<RemoteEvent>, lo: nat, hi: nat, e: RemoteEvent, cmd: Command)
    requires Whole(v, feed, lo, hi) && e in feed[lo..hi] && !Rolls(v, e)
    requires (v.plan(e).PlanEntry? && cmd == PostEntry(v.plan(e).post))
             || (v.plan(e).PlanBill? && cmd == ReceiveBill(v.plan(e).order))
    ensures Fits(v, feed, cmd) && NameOf(cmd) == Some(KeyFor(v, e))
  {
    var i :| 0 <= i < |feed[lo..hi]| && feed[lo..hi][i] == e;
    assert feed[lo + i] == e;
    forall a: AccountId ensures On(LinesOf(cmd), a) == KeyOn(v, feed, KeyFor(v, e), a) {
      LoneKey(v, feed, lo + i, a);
    }
  }

  function PostsIn(v: Service, events: seq<RemoteEvent>): seq<Post> {
    SortBy(Singles(v, events) + RollupPosts(v, GroupsIn(v, events)), EarlierPost)
  }

  lemma {:induction false} PostsAre(v: Service, events: seq<RemoteEvent>)
    ensures forall p :: p in PostsIn(v, events) <==> p in Singles(v, events) || p in RollupPosts(v, GroupsIn(v, events))
  {
    var posts := Singles(v, events) + RollupPosts(v, GroupsIn(v, events));
    hide Singles, RollupPosts, GroupsIn;
    SortPermutes(posts, EarlierPost);
    SameElements(SortBy(posts, EarlierPost), posts);
  }

  lemma CommandsAre(plan: SyncPlan)
    ensures forall cmd :: cmd in CommandsFor(plan) <==>
              (cmd.PostEntry? && cmd.post in plan.posts) || (cmd.ReceiveBill? && cmd.order in plan.bills)
  {
    var posts := seq(|plan.posts|, i requires 0 <= i < |plan.posts| => PostEntry(plan.posts[i]));
    var bills := seq(|plan.bills|, i requires 0 <= i < |plan.bills| => ReceiveBill(plan.bills[i]));
    forall p | p in plan.posts ensures PostEntry(p) in posts {
      var i :| 0 <= i < |plan.posts| && plan.posts[i] == p;
      assert posts[i] == PostEntry(p);
    }
    forall b | b in plan.bills ensures ReceiveBill(b) in bills {
      var i :| 0 <= i < |plan.bills| && plan.bills[i] == b;
      assert bills[i] == ReceiveBill(b);
    }
  }

  /** What a plan's commands are, and what it says failed. */
  lemma {:induction false} PlanIs(v: Service, today: Date, events: seq<RemoteEvent>)
    requires DistinctIds(events)
    ensures var plan, n := ServiceSync(v, today, events), Consumed(v, today, events);
            && plan.posts == PostsIn(v, events[..n]) && plan.bills == Bills(v, events[..n])
            && plan.failed == Failures(v, events[..n]) + RollupFailures(v, GroupsIn(v, events[..n]))
            && plan.cursor == (if n == 0 then None else Some(events[n - 1].id)) && plan.held == |events| - n
  {
    DistinctTakesNoMore(v, today, events);
    hide Consumed, Taken, Absorbed, Overrun, Singles, Bills, Failures, RollupPosts, RollupFailures, SortBy,
         GroupByPeriod, DistinctIds;
  }

  lemma {:induction false} PlanParts(v: Service, today: Date, feed: seq<RemoteEvent>, lo: nat, visible: nat)
    requires lo <= visible <= |feed| && DistinctIds(feed)
    ensures var plan := ServiceSync(v, today, feed[lo..visible]);
            var hi := lo + Consumed(v, today, feed[lo..visible]);
            && plan.posts == PostsIn(v, feed[lo..hi]) && plan.bills == Bills(v, feed[lo..hi])
            && plan.failed == Failures(v, feed[lo..hi]) + RollupFailures(v, GroupsIn(v, feed[lo..hi]))
            && plan.cursor == (if hi == lo then None else Some(feed[hi - 1].id))
  {
    hide *;
    DistinctPart(feed, lo, visible);
    PlanIs(v, today, feed[lo..visible]);
    var n := Consumed(v, today, feed[lo..visible]);
    assert feed[lo..visible][..n] == feed[lo..lo + n];
  }

  lemma DistinctPart(feed: seq<RemoteEvent>, lo: nat, hi: nat)
    requires DistinctIds(feed) && lo <= hi <= |feed|
    ensures DistinctIds(feed[lo..hi])
  {
  }

  lemma WholeIsDistinct(v: Service, feed: seq<RemoteEvent>, lo: nat, hi: nat)
    requires Whole(v, feed, lo, hi)
    ensures DistinctIds(feed)
  {
  }

  /** Every command of a plan posts exactly its key's money, for an event it consumed. */
  lemma PlanFits(v: Service, today: Date, feed: seq<RemoteEvent>, lo: nat, visible: nat, hi: nat, cmd: Command)
    requires lo <= visible <= |feed| && hi == lo + Consumed(v, today, feed[lo..visible]) && Whole(v, feed, lo, hi)
    requires cmd in CommandsFor(ServiceSync(v, today, feed[lo..visible]))
    ensures Fits(v, feed, cmd) && NamesOne(v, feed[lo..hi], cmd)
  {
    hide *;
    WholeIsDistinct(v, feed, lo, hi);
    PlanParts(v, today, feed, lo, visible);
    CommandsAre(ServiceSync(v, today, feed[lo..visible]));
    PlanFitsParts(v, feed, lo, hi, cmd);
  }

  /** The command posts under the reference of one of the events. */
  ghost predicate NamesOne(v: Service, events: seq<RemoteEvent>, cmd: Command) {
    exists e :: e in events && NameOf(cmd) == Some(KeyFor(v, e))
  }

  lemma PlanFitsParts(v: Service, feed: seq<RemoteEvent>, lo: nat, hi: nat, cmd: Command)
    requires Whole(v, feed, lo, hi)
    requires (cmd.PostEntry? && cmd.post in PostsIn(v, feed[lo..hi]))
             || (cmd.ReceiveBill? && cmd.order in Bills(v, feed[lo..hi]))
    ensures Fits(v, feed, cmd)
    ensures NamesOne(v, feed[lo..hi], cmd)
  {
    var prefix := feed[lo..hi];
    hide Whole, Fits, Singles, Bills, RollupPosts, GroupsIn, PostsIn, RollupOf, Rolls;
    PostsAre(v, prefix);
    SinglesAre(v, prefix);
    BillsAre(v, prefix);
    RollupPostsAre(v, GroupsIn(v, prefix));
    if cmd.PostEntry? && cmd.post !in Singles(v, prefix) {
      var g :| g in GroupsIn(v, prefix) && RollupOf(v, g) == Rolled(cmd.post);
      GroupIsWhole(v, feed, lo, hi, g);
      RollupFits(v, feed, cmd, g);
    } else if cmd.PostEntry? {
      var e :| e in prefix && !Rolls(v, e) && v.plan(e) == PlanEntry(cmd.post);
      LoneIsWhole(v, feed, lo, hi, e, cmd);
    } else {
      var e :| e in prefix && !Rolls(v, e) && v.plan(e) == PlanBill(cmd.order);
      LoneIsWhole(v, feed, lo, hi, e, cmd);
    }
  }

  lemma RollupFits(v: Service, feed: seq<RemoteEvent>, cmd: Command, g: Group<RemoteEvent>)
    requires cmd.PostEntry? && RollupOf(v, g) == Rolled(cmd.post)
    requires cmd.post.reference == Some(RollupName(v, g.period))
    requires forall a: AccountId :: KeyOn(v, feed, RollupName(v, g.period), a) == On(cmd.post.lines, a)
    ensures Fits(v, feed, cmd) && NameOf(cmd) == Some(RollupName(v, g.period))
  {
  }

  /** An event is settled when its reference is in the books, or there is no money under it. */
  ghost predicate Settled(v: Service, feed: seq<RemoteEvent>, s: State, e: RemoteEvent) {
    Held(s, KeyFor(v, e)) || forall a: AccountId :: KeyOn(v, feed, KeyFor(v, e), a) == 0
  }

  /** A plan without failures leaves no consumed event out. */
  lemma PlanCovers(v: Service, today: Date, feed: seq<RemoteEvent>, lo: nat, visible: nat, hi: nat, i: nat)
    requires lo <= visible <= |feed| && hi == lo + Consumed(v, today, feed[lo..visible]) && Whole(v, feed, lo, hi)
             && lo <= i < hi
    requires ServiceSync(v, today, feed[lo..visible]).failed == []
    ensures (exists cmd :: cmd in CommandsFor(ServiceSync(v, today, feed[lo..visible]))
                           && NameOf(cmd) == Some(KeyFor(v, feed[i])))
         || forall a: AccountId :: KeyOn(v, feed, KeyFor(v, feed[i]), a) == 0
  {
    hide *;
    WholeIsDistinct(v, feed, lo, hi);
    PlanParts(v, today, feed, lo, visible);
    CommandsAre(ServiceSync(v, today, feed[lo..visible]));
    PartsCover(v, feed, lo, hi, i);
  }

  lemma PartsCover(v: Service, feed: seq<RemoteEvent>, lo: nat, hi: nat, i: nat)
    requires Whole(v, feed, lo, hi) && lo <= i < hi
    requires Failures(v, feed[lo..hi]) == [] && RollupFailures(v, GroupsIn(v, feed[lo..hi])) == []
    ensures (exists cmd: Command :: ((cmd.PostEntry? && cmd.post in PostsIn(v, feed[lo..hi]))
                                     || (cmd.ReceiveBill? && cmd.order in Bills(v, feed[lo..hi])))
                                    && NameOf(cmd) == Some(KeyFor(v, feed[i])))
         || forall a: AccountId :: KeyOn(v, feed, KeyFor(v, feed[i]), a) == 0
  {
    var prefix, e := feed[lo..hi], feed[i];
    assert prefix[i - lo] == e && e in prefix;
    PostsAre(v, prefix);
    hide RollupPosts, RollupFailures, GroupsIn, PostsIn, Singles, Bills, Failures, RollupOf;
    if Rolls(v, e) {
      hide Rolls, PeriodFor;
      GroupsAre(v, prefix);
      var g :| g in GroupsIn(v, prefix) && g.period == PeriodFor(v, e);
      RollupPostsAre(v, GroupsIn(v, prefix));
      GroupIsWhole(v, feed, lo, hi, g);
      if RollupOf(v, g).Rolled? {
        assert NameOf(PostEntry(RollupOf(v, g).post)) == Some(KeyFor(v, e));
      }
    } else {
      SinglesAre(v, prefix);
      BillsAre(v, prefix);
      if v.plan(e).PlanEntry? {
        LoneIsWhole(v, feed, lo, hi, e, PostEntry(v.plan(e).post));
      } else if v.plan(e).PlanBill? {
        LoneIsWhole(v, feed, lo, hi, e, ReceiveBill(v.plan(e).order));
      } else {
        forall a: AccountId ensures KeyOn(v, feed, KeyFor(v, e), a) == 0 {
          LoneKey(v, feed, i, a);
        }
      }
    }
  }

  // ------------------------------------------------------------------ other work on the ledger

  /** A command that leaves the service's entries and references alone. */
  predicate Spares(v: Service, s: State, cmd: Command) {
    match cmd
    case PostEntry(post) => post.reference.Some? ==> !Ours(v, post.reference.value)
    case ReceiveBill(order) => order.reference.Some? ==> !Ours(v, order.reference.value)
    case VoidEntry(id) => SparesEntry(v, s, id)
    case UnvoidEntry(id) => SparesEntry(v, s, id)
    case ReassignLine(id, _, _) => SparesEntry(v, s, id)
    case VoidBill(bill) => bill < |s.bills| ==> SparesEntry(v, s, s.bills[bill].entry)
    case _ => true
  }

  predicate SparesEntry(v: Service, s: State, id: EntryId) {
    id < |s.entries| ==> !IsOurs(v, s.entries[id])
  }

  predicate SparesEvent(v: Service, s: State, event: Event) {
    match event
    case EntryPosted(_, _, reference, _) => reference.Some? && reference.value.Keyed? ==> !Ours(v, reference.value.key)
    case EntryVoided(id) => SparesEntry(v, s, id)
    case EntryUnvoided(id) => SparesEntry(v, s, id)
    case LineReassigned(id, _, _) => SparesEntry(v, s, id)
    case _ => true
  }

  ghost predicate Untouched(v: Service, s: State, t: State) {
    && |s.entries| <= |t.entries|
    && (forall i :: 0 <= i < |s.entries| ==> (IsOurs(v, t.entries[i]) <==> IsOurs(v, s.entries[i])))
    && (forall i :: 0 <= i < |s.entries| && IsOurs(v, s.entries[i]) ==> t.entries[i] == s.entries[i])
    && (forall i :: |s.entries| <= i < |t.entries| ==> !IsOurs(v, t.entries[i]))
  }

  lemma {:induction false} RecordSpares(v: Service, s: State, events: seq<Event>)
    requires Record(s, events).Some?
    requires forall e :: e in events ==> SparesEvent(v, s, e)
    ensures Untouched(v, s, Record(s, events).value)
  {
    if events != [] {
      var n := |events| - 1;
      RecordSpares(v, s, events[..n]);
      assert events[n] in events && SparesEvent(v, s, events[n]);
      assert forall e :: e in events[..n] ==> e in events;
    }
  }

  lemma CloseSpares(v: Service, s: State, books: Books, year: int, target: Target, includeDraws: bool)
    requires BuildClose(s, books, year, target, includeDraws).Append?
    ensures forall e :: e in BuildClose(s, books, year, target, includeDraws).events ==> SparesEvent(v, s, e)
  {
    CloseShape(s, books, year, target, includeDraws);
    hide BuildClose, NetResult, PartnerShares, YearWindow, ClosingPost, AllocationPost, ClosePosts, Holder;
    ClosingPostIs(s, books, year, target.account, includeDraws);
    forall date, net, shares
      ensures AllocationPost(books, year, date, target.account, net, shares).reference == Some(AllocationKey(year))
    {
      AllocationPostIs(books, year, date, target.account, net, shares);
    }
  }

  lemma BillSpares(v: Service, s: State, books: Books, cmd: Command)
    requires cmd.ReceiveBill? || cmd.PayBill? || cmd.VoidBill?
    requires Spares(v, s, cmd) && Build(s, books, cmd).Append?
    ensures forall e :: e in Build(s, books, cmd).events ==> SparesEvent(v, s, e)
  {
    hide CheckEntryInvariants, BillLines, PaymentLines, Holder;
  }

  lemma YearSpares(v: Service, s: State, books: Books, cmd: Command)
    requires cmd.ReopenBooks? || cmd.AllocateYear?
    requires Build(s, books, cmd).Append?
    ensures forall e :: e in Build(s, books, cmd).events ==> SparesEvent(v, s, e)
  {
    hide CheckEntryInvariants, PartnerShares, ResultOf, YearAccounts, ShareLines;
  }

  lemma {:induction false} BuildSpares(v: Service, s: State, books: Books, cmd: Command)
    requires Spares(v, s, cmd) && Build(s, books, cmd).Append?
    ensures forall e :: e in Build(s, books, cmd).events ==> SparesEvent(v, s, e)
  {
    hide BuildClose, BuildReopen, BuildAllocate, CheckEntryPure, CheckEntryInvariants, LiveBalance;
    if cmd.CloseBooks? {
      CloseSpares(v, s, books, cmd.year, cmd.target, cmd.includeDraws);
    } else if cmd.ReopenBooks? || cmd.AllocateYear? {
      YearSpares(v, s, books, cmd);
    } else if cmd.ReceiveBill? || cmd.PayBill? || cmd.VoidBill? {
      BillSpares(v, s, books, cmd);
    }
  }

  /** Other work neither adds to what the service posted, nor takes from it. */
  lemma SparingStep(v: Service, s: State, books: Books, cmd: Command)
    requires Spares(v, s, cmd)
    ensures Untouched(v, s, Step(s, books, cmd))
  {
    hide Build, Record, Spares, SparesEvent;
    if Build(s, books, cmd).Append? && Record(s, Build(s, books, cmd).events).Some? {
      BuildSpares(v, s, books, cmd);
      RecordSpares(v, s, Build(s, books, cmd).events);
    }
  }

  lemma UntouchedHolds(v: Service, s: State, t: State, key: Key)
    requires Untouched(v, s, t) && Ours(v, key)
    ensures Held(t, key) <==> Held(s, key)
  {
    if Held(s, key) {
      var i := Holder(s.entries, Keyed(key)).value;
      assert IsOurs(v, s.entries[i]) && Holds(t.entries[i], Keyed(key));
    }
    if Held(t, key) {
      var i := Holder(t.entries, Keyed(key)).value;
      assert IsOurs(v, t.entries[i]);
      assert Holds(s.entries[i], Keyed(key));
    }
  }

  lemma UntouchedBalance(v: Service, s: State, t: State, a: AccountId)
    requires Untouched(v, s, t)
    ensures ServiceBalance(v, t, a) == ServiceBalance(v, s, a)
  {
    var n := |s.entries|;
    var f := (e: Entry) => OursOn(v, e, a);
    assert t.entries == t.entries[..n] + t.entries[n..];
    SumConcat(t.entries[..n], t.entries[n..], f);
    forall e | e in t.entries[n..] ensures f(e) == 0 {
      var i :| n <= i < |t.entries| && t.entries[i] == e;
    }
    SumZero(t.entries[n..], f);
    SumPointwise(t.entries[..n], s.entries, f);
  }

  lemma {:induction false} SumPointwise<T>(xs: seq<T>, ys: seq<T>, f: T -> int)
    requires |xs| == |ys| && forall i :: 0 <= i < |xs| ==> f(xs[i]) == f(ys[i])
    ensures Sum(xs, f) == Sum(ys, f)
  {
    if xs != [] {
      SumPointwise(xs[..|xs| - 1], ys[..|ys| - 1], f);
    }
  }

  lemma UntouchedCounts(v: Service, feed: seq<RemoteEvent>, s: State, t: State)
    requires CountedOnce(v, feed, s) && Untouched(v, s, t)
    ensures CountedOnce(v, feed, t)
  {
    forall a: AccountId ensures ServiceBalance(v, t, a) == HeldOn(v, feed, t, a) {
      UntouchedBalance(v, s, t, a);
      assert ServiceBalance(v, s, a) == HeldOn(v, feed, s, a);
      forall e | e in feed
        ensures AtKeys(KeyOf(v), HeldIn(s), Money(v, a))(e) == AtKeys(KeyOf(v), HeldIn(t), Money(v, a))(e)
      {
        UntouchedHolds(v, s, t, KeyFor(v, e));
      }
      SumSame(feed, AtKeys(KeyOf(v), HeldIn(s), Money(v, a)), AtKeys(KeyOf(v), HeldIn(t), Money(v, a)));
    }
  }

  // ------------------------------------------------------------------ runs

  /** The ledger and the service's cursor; and, to state the run's history, how far the furthest sync
      read into the feed, the day of the latest, and how much of the feed it could see. */
  datatype World = World(s: State, cursor: Option<nat>, tried: nat, day: Date, seen: nat)

  /** A sync, on a day, of what the service then serves; or other work. */
  datatype Act = Sync(today: Date, visible: nat) | Other(cmd: Command)

  /** How many events the cursor acknowledges. */
  function Acked(feed: seq<RemoteEvent>, cursor: Option<nat>): nat {
    if cursor.None? then 0 else Position(feed, cursor.value) + 1
  }

  /** What the service serves since the cursor. */
  function Fetch(feed: seq<RemoteEvent>, cursor: Option<nat>, visible: nat): seq<RemoteEvent> {
    var lo := Acked(feed, cursor);
    if lo <= visible <= |feed| then feed[lo..visible] else []
  }

  function After(v: Service, books: Books, feed: seq<RemoteEvent>, w: World, act: Act): World {
    match act
    case Other(cmd) => w.(s := Step(w.s, books, cmd))
    case Sync(today, visible) =>
      var batch := Fetch(feed, w.cursor, visible);
      var plan := ServiceSync(v, today, batch);
      World(Run(w.s, books, CommandsFor(plan)),
            CursorAfter(plan, Troubles(w.s, books, CommandsFor(plan)), w.cursor),
            Acked(feed, w.cursor) + Consumed(v, today, batch), today, visible)
  }

  function AfterAll(v: Service, books: Books, feed: seq<RemoteEvent>, w: World, acts: seq<Act>): World {
    if acts == [] then w else After(v, books, feed, AfterAll(v, books, feed, w, acts[..|acts| - 1]), acts[|acts| - 1])
  }

  /** Days and the feed only advance, and a period's events have all arrived by the time it is over. */
  ghost predicate Punctual(v: Service, feed: seq<RemoteEvent>, w: World, act: Act) {
    match act
    case Other(cmd) => Spares(v, w.s, cmd)
    case Sync(today, visible) =>
      && w.day <= today && w.seen <= visible <= |feed|
      && forall j :: visible <= j < |feed| && Rolls(v, feed[j]) ==> today <= PeriodFor(v, feed[j]).end
  }

  ghost predicate AllPunctual(v: Service, books: Books, feed: seq<RemoteEvent>, w: World, acts: seq<Act>) {
    acts == [] ||
    (var before := acts[..|acts| - 1];
     AllPunctual(v, books, feed, w, before) && Punctual(v, feed, AfterAll(v, books, feed, w, before), acts[|acts| - 1]))
  }

  /** A feed with distinct ids whose roll-up periods never go backwards, planned as the code plans. */
  ghost predicate Orderly(v: Service, feed: seq<RemoteEvent>) {
    && DistinctIds(feed) && Faithful(v) && SalesAreEntries(v)
    && forall i, j :: 0 <= i < j < |feed| && Rolls(v, feed[i]) && Rolls(v, feed[j]) ==>
         PeriodFor(v, feed[i]).start <= PeriodFor(v, feed[j]).start
  }

  /** Every period with an event before `n` is over, and every one with an event from there on is not. */
  ghost predicate Divides(v: Service, feed: seq<RemoteEvent>, today: Date, n: nat) {
    && n <= |feed|
    && (forall i :: 0 <= i < n ==> !IsOpen(v, today, feed[i]))
    && (forall j :: n <= j < |feed| && Rolls(v, feed[j]) ==> today <= PeriodFor(v, feed[j]).end)
  }

  lemma DividingSplitsNothing(v: Service, feed: seq<RemoteEvent>, today: Date, n: nat)
    requires Divides(v, feed, today, n)
    ensures NoSplit(v, feed, n)
  {
    hide PeriodFor, Rolls;
    forall i, j | 0 <= i < n <= j < |feed| && Rolls(v, feed[i]) && Rolls(v, feed[j])
      ensures PeriodFor(v, feed[i]) != PeriodFor(v, feed[j])
    {
      assert !IsOpen(v, today, feed[i]);
    }
  }

  /** In a feed whose periods never go backwards, where a sync stops divides the feed by period. */
  lemma {:induction false} StopDivides(v: Service, feed: seq<RemoteEvent>, today: Date, lo: nat, visible: nat)
    requires Orderly(v, feed) && lo <= visible <= |feed|
    requires forall i :: 0 <= i < lo ==> !IsOpen(v, today, feed[i])
    requires forall j :: visible <= j < |feed| && Rolls(v, feed[j]) ==> today <= PeriodFor(v, feed[j]).end
    ensures Divides(v, feed, today, lo + Consumed(v, today, feed[lo..visible]))
  {
    hide PeriodFor, Rolls, Consumed, Faithful, SalesAreEntries;
    var batch := feed[lo..visible];
    var n := lo + Consumed(v, today, batch);
    forall i | 0 <= i < n ensures !IsOpen(v, today, feed[i]) {
      if lo <= i { assert batch[i - lo] == feed[i]; }
    }
    forall j | n <= j < |feed| && Rolls(v, feed[j]) ensures today <= PeriodFor(v, feed[j]).end {
      if j < visible {
        assert batch[n - lo] == feed[n];
        LaterPeriodsOpen(v, feed, today, n, j);
      }
    }
  }

  lemma {:induction false} LaterPeriodsOpen(v: Service, feed: seq<RemoteEvent>, today: Date, n: nat, j: nat)
    requires Orderly(v, feed) && n <= j < |feed| && Rolls(v, feed[j]) && IsOpen(v, today, feed[n])
    ensures today <= PeriodFor(v, feed[j]).end
  {
    if n < j {
      var a, b := feed[n].date.value, feed[j].date.value;
      PeriodsTile(v.frequency, a, b);
      PeriodsTile(v.frequency, b, a);
      assert PeriodFor(v, feed[n]).start <= PeriodFor(v, feed[j]).start;
    }
  }

  // ------------------------------------------------------------------ exactly once

  /** What holds after every sync: nothing beyond the furthest read is posted, everything the cursor
      has passed is settled, neither mark splits a period, and no event is counted twice. */
  ghost predicate Accounted(v: Service, feed: seq<RemoteEvent>, w: World) {
    var acked := Acked(feed, w.cursor);
    && acked <= w.tried <= w.seen <= |feed|
    && NoSplit(v, feed, acked) && NoSplit(v, feed, w.tried)
    && (forall i :: 0 <= i < w.tried ==> !IsOpen(v, w.day, feed[i]))
    && (forall j :: w.tried <= j < |feed| ==> !Held(w.s, KeyFor(v, feed[j])))
    && (forall i :: 0 <= i < acked ==> Settled(v, feed, w.s, feed[i]))
    && CountedOnce(v, feed, w.s)
  }

  /** Before its first sync the service has posted nothing. */
  ghost predicate Fresh(v: Service, w: World) {
    w.cursor == None && w.tried == 0 && w.seen == 0 && forall e :: e in w.s.entries ==> !IsOurs(v, e)
  }

  lemma KeyIsOurs(v: Service, e: RemoteEvent)
    ensures Ours(v, KeyFor(v, e))
  {
  }

  lemma FreshIsAccounted(v: Service, feed: seq<RemoteEvent>, w: World)
    requires Fresh(v, w)
    ensures Accounted(v, feed, w)
  {
    forall e ensures !Held(w.s, KeyFor(v, e)) {
      KeyIsOurs(v, e);
      assert forall i :: 0 <= i < |w.s.entries| ==> w.s.entries[i] in w.s.entries;
    }
    forall a: AccountId ensures ServiceBalance(v, w.s, a) == HeldOn(v, feed, w.s, a) {
      SumZero(w.s.entries, (e: Entry) => OursOn(v, e, a));
      SumZero(feed, AtKeys(KeyOf(v), HeldIn(w.s), Money(v, a)));
    }
  }

  lemma OtherKeepsAccounts(v: Service, books: Books, feed: seq<RemoteEvent>, w: World, cmd: Command)
    requires Accounted(v, feed, w) && Spares(v, w.s, cmd)
    ensures Accounted(v, feed, After(v, books, feed, w, Other(cmd)))
  {
    var t := Step(w.s, books, cmd);
    SparingStep(v, w.s, books, cmd);
    UntouchedCounts(v, feed, w.s, t);
    hide Step, IsOpen, Rolls, PeriodFor, CountedOnce, NoSplit, Untouched, KeyOn, Held;
    forall e ensures Held(t, KeyFor(v, e)) <==> Held(w.s, KeyFor(v, e)) {
      KeyIsOurs(v, e);
      UntouchedHolds(v, w.s, t, KeyFor(v, e));
    }
    forall i | 0 <= i < Acked(feed, w.cursor) ensures Settled(v, feed, t, feed[i]) {
      assert Settled(v, feed, w.s, feed[i]);
    }
  }

  lemma PositionOf(feed: seq<RemoteEvent>, i: nat)
    requires DistinctIds(feed) && i < |feed|
    ensures Position(feed, feed[i].id) == i
  {
    var p := Position(feed, feed[i].id);
    assert p < |feed|;
  }

  /** A sync reads at least as far as every one before it. */
  lemma {:induction false} SyncReadsOn(v: Service, feed: seq<RemoteEvent>, w: World, today: Date, visible: nat, hi: nat)
    requires Orderly(v, feed) && Accounted(v, feed, w) && Punctual(v, feed, w, Sync(today, visible))
    requires hi == Acked(feed, w.cursor) + Consumed(v, today, Fetch(feed, w.cursor, visible))
    ensures Acked(feed, w.cursor) <= visible && Fetch(feed, w.cursor, visible) == feed[Acked(feed, w.cursor)..visible]
    ensures w.tried <= hi <= visible && Divides(v, feed, today, hi)
    ensures Whole(v, feed, Acked(feed, w.cursor), hi)
  {
    hide KeyFor, Settled, CountedOnce, PeriodFor, Rolls, Held, Consumed, KeyOn;
    var lo := Acked(feed, w.cursor);
    var batch := feed[lo..visible];
    StopDivides(v, feed, today, lo, visible);
    DividingSplitsNothing(v, feed, today, hi);
    assert hi < visible ==> batch[hi - lo] == feed[hi];
  }

  /** Two events on either side of a mark that splits no period have their own references. */
  lemma KeysApart(v: Service, feed: seq<RemoteEvent>, n: nat, i: nat, j: nat)
    requires DistinctIds(feed) && i < n <= j < |feed| && NoSplit(v, feed, n)
    ensures KeyFor(v, feed[i]) != KeyFor(v, feed[j])
  {
    hide PeriodFor;
  }

  /** What the run of a plan's commands does to what is held and settled. */
  lemma SyncPosts(v: Service, books: Books, feed: seq<RemoteEvent>, s: State, today: Date, lo: nat, visible: nat,
                  hi: nat)
    requires lo <= visible <= |feed| && hi == lo + Consumed(v, today, feed[lo..visible]) && Whole(v, feed, lo, hi)
    requires CountedOnce(v, feed, s)
    ensures var plan := ServiceSync(v, today, feed[lo..visible]);
            var t := Run(s, books, CommandsFor(plan));
            && CountedOnce(v, feed, t)
            && (forall key :: Held(s, key) ==> Held(t, key))
            && (forall j :: hi <= j < |feed| && !Held(s, KeyFor(v, feed[j])) ==> !Held(t, KeyFor(v, feed[j])))
            && (plan.failed == [] && Troubles(s, books, CommandsFor(plan)) == 0 ==>
                  forall i :: lo <= i < hi ==> Settled(v, feed, t, feed[i]))
  {
    hide *;
    var plan := ServiceSync(v, today, feed[lo..visible]);
    var cmds := CommandsFor(plan);
    forall cmd | cmd in cmds ensures Fits(v, feed, cmd) && NamesOne(v, feed[lo..hi], cmd) {
      PlanFits(v, today, feed, lo, visible, hi, cmd);
    }
    RunPosts(v, feed, s, books, cmds);
    var t := Run(s, books, cmds);
    GainsKeepCount(v, feed, s, t);
    forall j | hi <= j < |feed| && !Held(s, KeyFor(v, feed[j])) ensures !Held(t, KeyFor(v, feed[j])) {
      if Held(t, KeyFor(v, feed[j])) {
        var cmd :| cmd in cmds && NameOf(cmd) == Some(KeyFor(v, feed[j]));
        NotNamed(v, feed, lo, hi, j, cmd);
      }
    }
    if plan.failed == [] && Troubles(s, books, cmds) == 0 {
      forall i | lo <= i < hi ensures Settled(v, feed, t, feed[i]) {
        PlanCovers(v, today, feed, lo, visible, hi, i);
        SettledNow(v, feed, t, feed[i], cmds);
      }
    }
  }

  lemma NotNamed(v: Service, feed: seq<RemoteEvent>, lo: nat, hi: nat, j: nat, cmd: Command)
    requires Whole(v, feed, lo, hi) && hi <= j < |feed| && NamesOne(v, feed[lo..hi], cmd)
    ensures NameOf(cmd) != Some(KeyFor(v, feed[j]))
  {
    hide KeyFor, NoSplit;
    var e :| e in feed[lo..hi] && NameOf(cmd) == Some(KeyFor(v, e));
    var i :| lo <= i < hi && feed[i] == e;
    KeysApart(v, feed, hi, i, j);
  }

  lemma SettledNow(v: Service, feed: seq<RemoteEvent>, t: State, e: RemoteEvent, cmds: seq<Command>)
    requires forall cmd :: cmd in cmds ==> NameOf(cmd).Some? && Held(t, NameOf(cmd).value)
    requires (exists cmd :: cmd in cmds && NameOf(cmd) == Some(KeyFor(v, e)))
          || forall a: AccountId :: KeyOn(v, feed, KeyFor(v, e), a) == 0
    ensures Settled(v, feed, t, e)
  {
    hide KeyFor, KeyOn, Held;
  }

  /** Where the cursor stands after a sync: past all it consumed, or where it was. */
  lemma CursorMoves(v: Service, feed: seq<RemoteEvent>, cursor: Option<nat>, today: Date, visible: nat, lo: nat,
                    hi: nat, troubles: nat)
    requires DistinctIds(feed) && lo == Acked(feed, cursor) && lo <= visible <= |feed|
    requires hi == lo + Consumed(v, today, feed[lo..visible])
    ensures var plan := ServiceSync(v, today, feed[lo..visible]);
            Acked(feed, CursorAfter(plan, troubles, cursor)) == if plan.failed == [] && troubles == 0 then hi else lo
  {
    hide Consumed, ServiceSync, Position, PostsIn, Bills, Failures, RollupFailures, GroupsIn;
    PlanParts(v, today, feed, lo, visible);
    if hi != lo {
      PositionOf(feed, hi - 1);
    }
  }

  /** What a sync must keep for the accounts to hold after it. */
  lemma AccountsAfter(v: Service, feed: seq<RemoteEvent>, w: World, z: World, lo: nat, hi: nat)
    requires Accounted(v, feed, w) && lo == Acked(feed, w.cursor)
    requires z.tried == hi && w.tried <= hi <= z.seen <= |feed| && Divides(v, feed, z.day, hi)
    requires Acked(feed, z.cursor) == lo
             || (Acked(feed, z.cursor) == hi && forall i :: lo <= i < hi ==> Settled(v, feed, z.s, feed[i]))
    requires CountedOnce(v, feed, z.s) && forall key :: Held(w.s, key) ==> Held(z.s, key)
    requires forall j :: hi <= j < |feed| && !Held(w.s, KeyFor(v, feed[j])) ==> !Held(z.s, KeyFor(v, feed[j]))
    ensures Accounted(v, feed, z)
  {
    hide KeyFor, CountedOnce, PeriodFor, Rolls, Held, KeyOn, IsOpen, Position, NoSplit;
    DividingSplitsNothing(v, feed, z.day, hi);
    forall i | 0 <= i < Acked(feed, z.cursor) ensures Settled(v, feed, z.s, feed[i]) {
      if i < lo {
        assert Settled(v, feed, w.s, feed[i]);
      }
    }
  }

  lemma {:induction false} SyncKeepsAccounts(v: Service, books: Books, feed: seq<RemoteEvent>, w: World, today: Date,
                                             visible: nat)
    requires Orderly(v, feed) && Accounted(v, feed, w) && Punctual(v, feed, w, Sync(today, visible))
    ensures Accounted(v, feed, After(v, books, feed, w, Sync(today, visible)))
    ensures var plan := ServiceSync(v, today, Fetch(feed, w.cursor, visible));
            var z := After(v, books, feed, w, Sync(today, visible));
            plan.failed == [] && Troubles(w.s, books, CommandsFor(plan)) == 0 ==> Acked(feed, z.cursor) == z.tried
  {
    var lo := Acked(feed, w.cursor);
    var hi := lo + Consumed(v, today, Fetch(feed, w.cursor, visible));
    assert CountedOnce(v, feed, w.s) && DistinctIds(feed) && visible <= |feed|;
    SyncReadsOn(v, feed, w, today, visible, hi);
    var plan := ServiceSync(v, today, feed[lo..visible]);
    var z := After(v, books, feed, w, Sync(today, visible));
    assert z == World(Run(w.s, books, CommandsFor(plan)),
                      CursorAfter(plan, Troubles(w.s, books, CommandsFor(plan)), w.cursor), hi, today, visible);
    hide *;
    SyncPosts(v, books, feed, w.s, today, lo, visible, hi);
    CursorMoves(v, feed, w.cursor, today, visible, lo, hi, Troubles(w.s, books, CommandsFor(plan)));
    AccountsAfter(v, feed, w, z, lo, hi);
  }

  /** Every run of syncs and other work keeps the accounts. */
  lemma {:induction false} RunsKeepAccounts(v: Service, books: Books, feed: seq<RemoteEvent>, start: World,
                                            acts: seq<Act>)
    requires Orderly(v, feed) && Fresh(v, start) && AllPunctual(v, books, feed, start, acts)
    ensures Accounted(v, feed, AfterAll(v, books, feed, start, acts))
  {
    hide Orderly, Accounted, After, Fresh;
    if acts == [] {
      FreshIsAccounted(v, feed, start);
    } else {
      var n := |acts| - 1;
      RunsKeepAccounts(v, books, feed, start, acts[..n]);
      var w := AfterAll(v, books, feed, start, acts[..n]);
      match acts[n]
      case Other(cmd) => OtherKeepsAccounts(v, books, feed, w, cmd);
      case Sync(today, visible) => SyncKeepsAccounts(v, books, feed, w, today, visible);
    }
  }

  lemma KeyBelow(v: Service, feed: seq<RemoteEvent>, n: nat, i: nat, a: AccountId)
    requires DistinctIds(feed) && i < n <= |feed| && NoSplit(v, feed, n)
    ensures KeyOn(v, feed[..n], KeyFor(v, feed[i]), a) == KeyOn(v, feed, KeyFor(v, feed[i]), a)
  {
    hide NoSplit, KeyFor, PlanOn;
    var key := KeyFor(v, feed[i]);
    forall j | n <= j < |feed| ensures KeyFor(v, feed[j]) != key {
      KeysApart(v, feed, n, i, j);
    }
    SumZero(feed[n..], AtKey(KeyOf(v), key, Money(v, a)));
    SumConcat(feed[..n], feed[n..], AtKey(KeyOf(v), key, Money(v, a)));
    assert feed[..n] + feed[n..] == feed;
  }

  /** Under a reference that is not in the books, what the cursor has passed comes to nothing. */
  lemma PassedKeysCancel(v: Service, feed: seq<RemoteEvent>, w: World, key: Key, a: AccountId)
    requires DistinctIds(feed) && Accounted(v, feed, w) && !Held(w.s, key)
    ensures KeyOn(v, feed[..Acked(feed, w.cursor)], key, a) == 0
  {
    hide Held, KeyFor, CountedOnce, PlanOn, IsOpen, NoSplit, Position;
    var acked := Acked(feed, w.cursor);
    if i :| 0 <= i < acked && KeyFor(v, feed[i]) == key {
      assert Settled(v, feed, w.s, feed[i]);
      KeyBelow(v, feed, acked, i, a);
    } else {
      SumZero(feed[..acked], AtKey(KeyOf(v), key, Money(v, a)));
    }
  }

  lemma PassedIsAllThere(v: Service, feed: seq<RemoteEvent>, w: World, a: AccountId)
    requires DistinctIds(feed) && Accounted(v, feed, w)
    ensures HeldOn(v, feed[..Acked(feed, w.cursor)], w.s, a) == EventsOn(v, feed[..Acked(feed, w.cursor)], a)
  {
    var passed := feed[..Acked(feed, w.cursor)];
    hide Held, KeyFor, PlanOn, Accounted;
    forall key | Unheld(w.s)(key) ensures Sum(passed, AtKey(KeyOf(v), key, Money(v, a))) == 0 {
      PassedKeysCancel(v, feed, w, key, a);
    }
    CancelByKey(passed, KeyOf(v), Unheld(w.s), Money(v, a));
    SumPlus(passed, AtKeys(KeyOf(v), HeldIn(w.s), Money(v, a)), AtKeys(KeyOf(v), Unheld(w.s), Money(v, a)),
            Money(v, a));
    SumSame(passed, Money(v, a), (e: RemoteEvent) => PlanOn(v, e, a));
  }

  lemma NothingBeyond(v: Service, feed: seq<RemoteEvent>, w: World, a: AccountId)
    requires Accounted(v, feed, w)
    ensures HeldOn(v, feed, w.s, a) == HeldOn(v, feed[..w.tried], w.s, a)
  {
    hide Held, KeyFor, PlanOn, PeriodFor, Rolls, IsOpen, CountedOnce, Settled, Position;
    assert feed == feed[..w.tried] + feed[w.tried..];
    SumConcat(feed[..w.tried], feed[w.tried..], AtKeys(KeyOf(v), HeldIn(w.s), Money(v, a)));
    SumZero(feed[w.tried..], AtKeys(KeyOf(v), HeldIn(w.s), Money(v, a)));
  }

  /** Every event's money, once. In any run, what the service's entries put on an account is the
      money of the events whose reference is in the books, each counted once; what the cursor has
      passed is all there; and whenever the cursor has caught up with what was tried, the account
      holds exactly what planning each acknowledged event alone would have put on it. */
  lemma {:induction false} ExactlyOnce(v: Service, books: Books, feed: seq<RemoteEvent>, start: World, acts: seq<Act>,
                                       a: AccountId)
    requires Orderly(v, feed) && Fresh(v, start) && AllPunctual(v, books, feed, start, acts)
    ensures var w := AfterAll(v, books, feed, start, acts);
            var acked := Acked(feed, w.cursor);
            && acked <= |feed|
            && ServiceBalance(v, w.s, a) == HeldOn(v, feed, w.s, a)
            && HeldOn(v, feed[..acked], w.s, a) == EventsOn(v, feed[..acked], a)
            && (acked == w.tried ==> ServiceBalance(v, w.s, a) == EventsOn(v, feed[..acked], a))
  {
    RunsKeepAccounts(v, books, feed, start, acts);
    hide AfterAll, AllPunctual, ServiceBalance, HeldOn, EventsOn, NoSplit, IsOpen, Settled, Position, Fresh, KeyFor,
         Held;
    var w := AfterAll(v, books, feed, start, acts);
    PassedIsAllThere(v, feed, w, a);
    NothingBeyond(v, feed, w, a);
  }

  /** A sync that went wrong nowhere leaves the cursor caught up. */
  lemma {:induction false} CleanSyncCatchesUp(v: Service, books: Books, feed: seq<RemoteEvent>, start: World,
                                              acts: seq<Act>, today: Date, visible: nat)
    requires Orderly(v, feed) && Fresh(v, start) && AllPunctual(v, books, feed, start, acts + [Sync(today, visible)])
    ensures var w := AfterAll(v, books, feed, start, acts);
            var plan := ServiceSync(v, today, Fetch(feed, w.cursor, visible));
            var z := AfterAll(v, books, feed, start, acts + [Sync(today, visible)]);
            plan.failed == [] && Troubles(w.s, books, CommandsFor(plan)) == 0 ==> Acked(feed, z.cursor) == z.tried
  {
    hide Orderly, Accounted, After, Fresh;
    assert (acts + [Sync(today, visible)])[..|acts|] == acts;
    RunsKeepAccounts(v, books, feed, start, acts);
    SyncKeepsAccounts(v, books, feed, AfterAll(v, books, feed, start, acts), today, visible);
  }

  /** Replaying a batch posts nothing: a reference already held is skipped, and is no error. */
  lemma ReplayIsSkipped(s: State, books: Books, post: Post)
    requires post.reference.Some? && Held(s, post.reference.value)
    ensures Step(s, books, PostEntry(post)) == s
    ensures CheckEntryPure(post).None? ==> !Troubled(s, books, PostEntry(post))
  {
  }

  lemma CleanPlanSettles(v: Service, books: Books, today: Date, s: State, events: seq<RemoteEvent>)
    requires DistinctIds(events) && Faithful(v) && SalesAreEntries(v)
    ensures var plan := ServiceSync(v, today, events);
            var consumed := events[..Consumed(v, today, events)];
            var t := Run(s, books, CommandsFor(plan));
            && GainsAlike(v, consumed, s, t)
            && (plan.failed == [] && Troubles(s, books, CommandsFor(plan)) == 0 ==>
                  forall i :: 0 <= i < |consumed| ==> Settled(v, consumed, t, consumed[i]))
  {
    var plan := ServiceSync(v, today, events);
    var consumed := events[..Consumed(v, today, events)];
    var n := |consumed|;
    assert consumed[0..n] == consumed && Whole(v, consumed, 0, n);
    hide *;
    var cmds := CommandsFor(plan);
    PlanIs(v, today, events);
    CommandsAre(plan);
    forall cmd | cmd in cmds ensures Fits(v, consumed, cmd) {
      PlanFitsParts(v, consumed, 0, n, cmd);
    }
    RunPosts(v, consumed, s, books, cmds);
    if plan.failed == [] && Troubles(s, books, cmds) == 0 {
      forall i | 0 <= i < n ensures Settled(v, consumed, Run(s, books, cmds), consumed[i]) {
        PartsCover(v, consumed, 0, n, i);
        SettledNow(v, consumed, Run(s, books, cmds), consumed[i], cmds);
      }
    }
  }

  lemma UnheldCancels(v: Service, events: seq<RemoteEvent>, s: State, key: Key, a: AccountId)
    requires !Held(s, key) && forall i :: 0 <= i < |events| ==> Settled(v, events, s, events[i])
    ensures KeyOn(v, events, key, a) == 0
  {
    hide Held, KeyFor, PlanOn;
    if i :| 0 <= i < |events| && KeyFor(v, events[i]) == key {
      assert Settled(v, events, s, events[i]);
    } else {
      SumZero(events, AtKey(KeyOf(v), key, Money(v, a)));
    }
  }

  lemma SettledIsAllThere(v: Service, events: seq<RemoteEvent>, s: State, a: AccountId)
    requires forall i :: 0 <= i < |events| ==> Settled(v, events, s, events[i])
    ensures HeldOn(v, events, s, a) == EventsOn(v, events, a)
  {
    hide Held, KeyFor, PlanOn;
    forall key | Unheld(s)(key) ensures Sum(events, AtKey(KeyOf(v), key, Money(v, a))) == 0 {
      UnheldCancels(v, events, s, key, a);
    }
    CancelByKey(events, KeyOf(v), Unheld(s), Money(v, a));
    SumPlus(events, AtKeys(KeyOf(v), HeldIn(s), Money(v, a)), AtKeys(KeyOf(v), Unheld(s), Money(v, a)), Money(v, a));
    SumSame(events, Money(v, a), (e: RemoteEvent) => PlanOn(v, e, a));
  }

  /** What a sync without trouble brings, whatever came before it and however its batch is ordered: the money of
      the events it consumes, less that of those whose reference was in the books already. */
  lemma CleanSyncBrings(v: Service, books: Books, today: Date, s: State, events: seq<RemoteEvent>, a: AccountId)
    requires DistinctIds(events) && Faithful(v) && SalesAreEntries(v)
    ensures var plan := ServiceSync(v, today, events);
            var consumed := events[..|events| - plan.held];
            plan.failed == [] && Troubles(s, books, CommandsFor(plan)) == 0 ==>
              ServiceBalance(v, Run(s, books, CommandsFor(plan)), a)
              == ServiceBalance(v, s, a) + EventsOn(v, consumed, a) - HeldOn(v, consumed, s, a)
  {
    hide *;
    var plan := ServiceSync(v, today, events);
    var consumed := events[..Consumed(v, today, events)];
    PlanIs(v, today, events);
    CleanPlanSettles(v, books, today, s, events);
    var t := Run(s, books, CommandsFor(plan));
    GainsOn(v, consumed, s, t, a);
    if plan.failed == [] && Troubles(s, books, CommandsFor(plan)) == 0 {
      SettledIsAllThere(v, consumed, t, a);
    }
  }

  lemma GainsOn(v: Service, feed: seq<RemoteEvent>, s: State, t: State, a: AccountId)
    requires GainsAlike(v, feed, s, t)
    ensures ServiceBalance(v, t, a) - ServiceBalance(v, s, a) == HeldOn(v, feed, t, a) - HeldOn(v, feed, s, a)
  {
  }

  /** Which is how a late event is lost: consumed and past the cursor, and in a sync that counts no error the
      books change exactly when its period's total was not posted yet. */
  lemma LateEventIsLost(v: Service, books: Books, today: Date, s: State, late: RemoteEvent, cursor: Option<nat>)
    requires Rolls(v, late) && PeriodFor(v, late).end < today && v.plan(late).PlanEntry?
    requires Summed(v.plan(late).post.lines) != []
    ensures var plan := ServiceSync(v, today, [late]);
            var troubles := Troubles(s, books, CommandsFor(plan));
            && |plan.posts| == 1 && plan.posts[0].lines == Summed(v.plan(late).post.lines)
            && (troubles == 0 ==> CursorAfter(plan, troubles, cursor) == Some(late.id))
            && (troubles == 0 ==> (Run(s, books, CommandsFor(plan)) == s <==> Held(s, KeyFor(v, late))))
  {
    LatePlan(v, today, late);
    var plan := ServiceSync(v, today, [late]);
    var cmd := PostEntry(plan.posts[0]);
    hide ServiceSync, Build, Step, PeriodFor, Record, Held;
    assert CommandsFor(plan) == [cmd] && [cmd][..0] == [];
    Attempt(s, books, cmd);
  }

  /** A late event's total never counts as an error once its period is held, as long as it could be posted. */
  lemma LateEventIsSilent(v: Service, books: Books, today: Date, s: State, late: RemoteEvent)
    requires Rolls(v, late) && PeriodFor(v, late).end < today && v.plan(late).PlanEntry?
    requires Held(s, KeyFor(v, late)) && Summed(v.plan(late).post.lines) != []
    requires Total(v.plan(late).post.lines) == 0 && CheckedTotal(Summed(v.plan(late).post.lines)).Some?
    ensures Troubles(s, books, CommandsFor(ServiceSync(v, today, [late]))) == 0
  {
    LatePlan(v, today, late);
    var plan := ServiceSync(v, today, [late]);
    var post := plan.posts[0];
    hide ServiceSync, Build, Step, PeriodFor;
    BalancedSumIsSound(v.plan(late).post.lines);
    CheckedTotalIsTotal(post.lines);
    ReplayIsSkipped(s, books, post);
    assert CommandsFor(plan) == [PostEntry(post)];
    assert [PostEntry(post)][..0] == [];
  }

  lemma LatePlan(v: Service, today: Date, late: RemoteEvent)
    requires Rolls(v, late) && PeriodFor(v, late).end < today && v.plan(late).PlanEntry?
    requires Summed(v.plan(late).post.lines) != []
    ensures var plan := ServiceSync(v, today, [late]);
            var period := PeriodFor(v, late);
            && plan.posts == [Post(period.end, Summed(v.plan(late).post.lines), Some(KeyFor(v, late)),
                                   Some(EventService))]
            && plan.bills == [] && plan.failed == [] && plan.cursor == Some(late.id)
  {
    hide *;
    var g := Group(PeriodFor(v, late), [late]);
    LateParts(v, today, late);
    LateIsNoFailure(v, late);
    LateGroup(v, late, g);
    LateRollup(v, late, g);
    LateIsTaken(v, today, late);
    LateGathered(v, today, late, g, RollupOf(v, g).post);
  }

  lemma LateIsTaken(v: Service, today: Date, late: RemoteEvent)
    requires Consumed(v, today, [late]) == 1 && Absorbed(v, [late]) == [late]
    ensures Taken(v, [late], 1) == [late]
  {
    hide Absorbed, Consumed;
    assert [late][..1] == [late];
    assert Overrun(v, [late], 1, 1) == [];
  }

  /** The parts of the plan of one event that rolls up alone. */
  lemma LateGathered(v: Service, today: Date, late: RemoteEvent, g: Group<RemoteEvent>, post: Post)
    requires Consumed(v, today, [late]) == 1 && Taken(v, [late], 1) == [late]
    requires Singles(v, [late]) == [] && Bills(v, [late]) == [] && Failures(v, [late]) == []
    requires GroupByPeriod(v, [late]) == [g] && RollupOf(v, g) == Rolled(post)
    ensures var plan := ServiceSync(v, today, [late]);
            plan.posts == [post] && plan.bills == [] && plan.failed == [] && plan.cursor == Some(late.id)
  {
    hide Consumed, Singles, Bills, Failures, Taken, GroupByPeriod, RollupOf;
    assert [late][..1] == [late] && [g][..0] == [];
    assert RollupPosts(v, []) == [] && RollupFailures(v, []) == [];
    assert RollupPosts(v, [g]) == [] + [post] && RollupFailures(v, [g]) == [];
    assert [] + [post] == [post];
    assert [post][..0] == [] && SortBy([post], EarlierPost) == [post];
  }

  lemma LateParts(v: Service, today: Date, late: RemoteEvent)
    requires Rolls(v, late) && PeriodFor(v, late).end < today
    ensures Consumed(v, today, [late]) == 1 && Absorbed(v, [late]) == [late]
    ensures Singles(v, [late]) == [] && Bills(v, [late]) == []
  {
    hide PeriodFor;
    assert [late][..0] == [];
  }

  lemma LateGroup(v: Service, late: RemoteEvent, g: Group<RemoteEvent>)
    requires Rolls(v, late) && g == Group(PeriodFor(v, late), [late])
    ensures GroupByPeriod(v, [late]) == [g]
  {
    hide PeriodFor;
    assert [late][..0] == [];
    assert GroupBy([], PeriodAt(v)) == [];
    assert Push([], g.period, late) == [g];
  }

  lemma LateIsNoFailure(v: Service, late: RemoteEvent)
    requires Rolls(v, late)
    ensures Failures(v, [late]) == []
  {
    hide Rolls;
    assert [late][..0] == [];
    assert Failures(v, []) == [];
  }

  lemma LateRollup(v: Service, late: RemoteEvent, g: Group<RemoteEvent>)
    requires Rolls(v, late) && v.plan(late).PlanEntry? && Summed(v.plan(late).post.lines) != []
    requires g == Group(PeriodFor(v, late), [late])
    ensures RollupOf(v, g) == Rolled(Post(g.period.end, Summed(v.plan(late).post.lines), Some(KeyFor(v, late)),
                                          Some(EventService)))
  {
    hide PeriodFor, Summed;
    var lines := v.plan(late).post.lines;
    assert [late][..0] == [] && [] + lines == lines;
    assert SalesLines(v.plan, [late]) == lines;
    assert !AnyUnplannable(v.plan, [late]);
  }
}
