/** What one sync of a service posts, and how far it acknowledges the feed. */
module Syncs {
  import opened Options
  import opened Sums
  import opened Sorting
  import opened Calendar
  import opened Ledger
  import opened Commands
  import opened Rollups
  import opened Grouping

  /** How a service reports, since when, and how its events are planned. */
  datatype Service = Service(id: nat, frequency: Frequency, from: Option<Date>, plan: Planner)

  /** `rolls_up`: absorbed into a period's total rather than posted alone. */
  predicate Rolls(v: Service, e: RemoteEvent) {
    && v.frequency != PerEvent && IsRollupEvent(e.kind)
    && e.date.Some? && (v.from.Some? ==> v.from.value <= e.date.value)
  }

  /** The period of an event that rolls up. */
  function PeriodFor(v: Service, e: RemoteEvent): (p: Period)
    requires Rolls(v, e)
  {
    PeriodsTile(v.frequency, e.date.value, e.date.value);
    PeriodOf(v.frequency, e.date.value).value
  }

  /** The event that stops the prefix: it rolls up, and its period is still running. */
  predicate IsOpen(v: Service, today: Date, e: RemoteEvent) {
    Rolls(v, e) && !PeriodFor(v, e).ClosedOn(today)
  }

  /** An event rolls up when the service does not post event by event, and it is a sale or a refund that states a date,
      no earlier than the day the service's frequency took effect. */
  lemma RollsMeans(v: Service, e: RemoteEvent)
    ensures Rolls(v, e)
       <==> && v.frequency != PerEvent && (e.kind == Sale || e.kind == Refund) && e.date.Some?
            && (v.from.Some? ==> v.from.value <= e.date.value)
  {
  }

  ghost predicate DistinctIds(events: seq<RemoteEvent>) {
    forall i, j :: 0 <= i < j < |events| ==> events[i].id != events[j].id
  }

  /** How many events are consumed: those before the first whose period is open. */
  function Consumed(v: Service, today: Date, events: seq<RemoteEvent>): (n: nat)
    ensures n <= |events|
    ensures forall i :: 0 <= i < n ==> !IsOpen(v, today, events[i])
    ensures n < |events| ==> IsOpen(v, today, events[n])
  {
    if events == [] then 0
    else
      var n := Consumed(v, today, events[..|events| - 1]);
      if n < |events| - 1 then n
      else if IsOpen(v, today, events[n]) then n else n + 1
  }

  // ------------------------------------------------------------------ where each event goes

  function Absorbed(v: Service, events: seq<RemoteEvent>): seq<RemoteEvent> {
    if events == [] then []
    else
      var e := events[|events| - 1];
      Absorbed(v, events[..|events| - 1]) + if Rolls(v, e) then [e] else []
  }

  function Singles(v: Service, events: seq<RemoteEvent>): seq<Post> {
    if events == [] then []
    else
      var e := events[|events| - 1];
      Singles(v, events[..|events| - 1]) + if !Rolls(v, e) && v.plan(e).PlanEntry? then [v.plan(e).post] else []
  }

  function Bills(v: Service, events: seq<RemoteEvent>): seq<BillOrder> {
    if events == [] then []
    else
      var e := events[|events| - 1];
      Bills(v, events[..|events| - 1]) + if !Rolls(v, e) && v.plan(e).PlanBill? then [v.plan(e).order] else []
  }

  /** What could not be planned: an event, or a whole period. */
  datatype Failure = FailedEvent(id: nat) | FailedPeriod(period: Period)

  function Failures(v: Service, events: seq<RemoteEvent>): seq<Failure> {
    if events == [] then []
    else
      var e := events[|events| - 1];
      Failures(v, events[..|events| - 1]) + if !Rolls(v, e) && v.plan(e).PlanError? then [FailedEvent(e.id)] else []
  }

  /** The position of the first event with an id. */
  function Position(events: seq<RemoteEvent>, id: nat): (p: nat)
    ensures p <= |events|
    ensures forall i :: 0 <= i < p ==> events[i].id != id
    ensures p < |events| ==> events[p].id == id
  {
    if events == [] then 0
    else
      var p := Position(events[..|events| - 1], id);
      if p < |events| - 1 then p else if events[p].id == id then p else p + 1
  }

  /** What rolls up from a place on, up to the first event whose id does not occur before the stop. A batch
      that repeats no id has none past its stop. */
  function Overrun(v: Service, events: seq<RemoteEvent>, stop: nat, from: nat): seq<RemoteEvent>
    decreases |events| - from
  {
    if |events| <= from then []
    else if !Rolls(v, events[from]) then Overrun(v, events, stop, from + 1)
    else if stop <= Position(events, events[from].id) then []
    else [events[from]] + Overrun(v, events, stop, from + 1)
  }

  /** What goes into the totals of a batch that stops at a place. */
  function Taken(v: Service, events: seq<RemoteEvent>, stop: nat): seq<RemoteEvent>
    requires stop <= |events|
  {
    Absorbed(v, events[..stop]) + Overrun(v, events, stop, stop)
  }

  lemma {:induction false} OverrunRolls(v: Service, events: seq<RemoteEvent>, stop: nat, from: nat)
    ensures forall e :: e in Overrun(v, events, stop, from) ==> Rolls(v, e)
    decreases |events| - from
  {
    if from < |events| {
      OverrunRolls(v, events, stop, from + 1);
    }
  }

  lemma TakenRolls(v: Service, events: seq<RemoteEvent>, stop: nat)
    requires stop <= |events|
    ensures forall e :: e in Taken(v, events, stop) ==> Rolls(v, e)
  {
    AbsorbedRoll(v, events[..stop]);
    OverrunRolls(v, events, stop, stop);
  }

  /** Nothing is taken past the stop exactly when the event that stops the batch does not repeat an id. */
  lemma OverrunIsARepeat(v: Service, today: Date, events: seq<RemoteEvent>)
    ensures var stop := Consumed(v, today, events);
            Overrun(v, events, stop, stop) == []
            <==> (stop < |events| ==> forall i :: 0 <= i < stop ==> events[i].id != events[stop].id)
  {
    hide PeriodFor;
    var stop := Consumed(v, today, events);
    if stop < |events| {
      var p := Position(events, events[stop].id);
      assert p < |events|;
    }
  }

  lemma DistinctTakesNoMore(v: Service, today: Date, events: seq<RemoteEvent>)
    requires DistinctIds(events)
    ensures var stop := Consumed(v, today, events);
            Overrun(v, events, stop, stop) == [] && Taken(v, events, stop) == Absorbed(v, events[..stop])
  {
    hide Overrun, Consumed, Absorbed;
    OverrunIsARepeat(v, today, events);
  }

  // ------------------------------------------------------------------ grouping by period

  /** The period of any event; those that do not roll up have none, and are never asked. */
  function PeriodAt(v: Service): RemoteEvent -> Period {
    e => if Rolls(v, e) then PeriodFor(v, e) else Period(0, 0, PerEvent)
  }

  /** `group_by_period`, over events that roll up. */
  function GroupByPeriod(v: Service, events: seq<RemoteEvent>): seq<Group<RemoteEvent>> {
    GroupBy(events, PeriodAt(v))
  }

  lemma {:induction false} AbsorbedRoll(v: Service, events: seq<RemoteEvent>)
    ensures forall e :: e in Absorbed(v, events) <==> e in events && Rolls(v, e)
  {
    if events != [] {
      AbsorbedRoll(v, events[..|events| - 1]);
      assert events == events[..|events| - 1] + [events[|events| - 1]];
    }
  }

  /** Each group holds exactly the events of its period, in feed order; no event is left out. */
  lemma PeriodsAreGroups(v: Service, events: seq<RemoteEvent>)
    requires forall e :: e in events ==> Rolls(v, e)
    ensures GroupsOf(GroupByPeriod(v, events), events, PeriodAt(v))
  {
    forall x, y | x in events && y in events && PeriodAt(v)(x).start == PeriodAt(v)(y).start
      ensures PeriodAt(v)(x) == PeriodAt(v)(y)
    {
      PeriodKeysAreInjective(v.frequency, x.date.value, y.date.value);
    }
    GroupingIsComplete(events, PeriodAt(v));
  }

  // ------------------------------------------------------------------ the plan

  function RollupName(v: Service, period: Period): Key {
    RollupKey(v.id, period)
  }

  function RollupOf(v: Service, g: Group<RemoteEvent>): Rollup {
    SalesRollup(v.plan, g.period.end, g.items, RollupName(v, g.period))
  }

  function RollupPosts(v: Service, groups: seq<Group<RemoteEvent>>): seq<Post> {
    if groups == [] then []
    else
      var r := RollupOf(v, groups[|groups| - 1]);
      RollupPosts(v, groups[..|groups| - 1]) + if r.Rolled? then [r.post] else []
  }

  function RollupFailures(v: Service, groups: seq<Group<RemoteEvent>>): seq<Failure> {
    if groups == [] then []
    else
      var g := groups[|groups| - 1];
      RollupFailures(v, groups[..|groups| - 1]) + if RollupOf(v, g).Unplannable? then [FailedPeriod(g.period)] else []
  }

  predicate EarlierPost(a: Post, b: Post) {
    a.date <= b.date
  }

  datatype SyncPlan = SyncPlan(posts: seq<Post>, bills: seq<BillOrder>, cursor: Option<nat>, held: nat,
                               failed: seq<Failure>)

  /** `plan_service_sync`, as a function of the batch. */
  function ServiceSync(v: Service, today: Date, events: seq<RemoteEvent>): SyncPlan {
    var consumed := Consumed(v, today, events);
    var prefix := events[..consumed];
    var groups := GroupByPeriod(v, Taken(v, events, consumed));
    SyncPlan(
      SortBy(Singles(v, prefix) + RollupPosts(v, groups), EarlierPost),
      Bills(v, prefix),
      if consumed == 0 then None else Some(events[consumed - 1].id),
      |events| - consumed,
      Failures(v, prefix) + RollupFailures(v, groups))
  }

  /** Everything the rollups do not absorb, one event at a time. */
  method PlanSingles(v: Service, prefix: seq<RemoteEvent>)
    returns (posts: seq<Post>, bills: seq<BillOrder>, failed: seq<Failure>)
    ensures posts == Singles(v, prefix) && bills == Bills(v, prefix) && failed == Failures(v, prefix)
  {
    posts, bills, failed := [], [], [];
    var i := 0;
    while i < |prefix|
      invariant 0 <= i <= |prefix|
      invariant posts == Singles(v, prefix[..i]) && bills == Bills(v, prefix[..i]) && failed == Failures(v, prefix[..i])
    {
      assert prefix[..i + 1][..i] == prefix[..i];
      var e := prefix[i];
      if !Rolls(v, e) {
        match v.plan(e)
        case PlanEntry(post) => posts := posts + [post];
        case PlanBill(order) => bills := bills + [order];
        case PlanNothing =>
        case PlanError => failed := failed + [FailedEvent(e.id)];
      }
      i := i + 1;
    }
    assert prefix[..i] == prefix;
  }

  /** What rolls up, taken while its id first occurs before the stop in the batch. */
  method TakeAbsorbed(v: Service, events: seq<RemoteEvent>, stop: nat) returns (absorbed: seq<RemoteEvent>)
    requires stop <= |events|
    ensures absorbed == Taken(v, events, stop)
  {
    hide Rolls;
    absorbed := [];
    var i := 0;
    while i < |events|
      invariant 0 <= i <= |events|
      invariant i <= stop ==> absorbed == Absorbed(v, events[..i])
      invariant stop <= i ==> absorbed + Overrun(v, events, stop, i) == Taken(v, events, stop)
    {
      if Rolls(v, events[i]) {
        if stop != |events| && stop <= Position(events, events[i].id) {
          return;
        }
        absorbed := absorbed + [events[i]];
      }
      assert i < stop ==> events[..i + 1][..i] == events[..i];
      i := i + 1;
    }
  }

  /** One entry per closed period. */
  method RollUpGroups(v: Service, groups: seq<Group<RemoteEvent>>) returns (posts: seq<Post>, failed: seq<Failure>)
    ensures posts == RollupPosts(v, groups) && failed == RollupFailures(v, groups)
  {
    posts, failed := [], [];
    var i := 0;
    while i < |groups|
      invariant 0 <= i <= |groups|
      invariant posts == RollupPosts(v, groups[..i]) && failed == RollupFailures(v, groups[..i])
    {
      assert groups[..i + 1][..i] == groups[..i];
      var rollup := PlanSalesRollup(v.plan, groups[i].period, groups[i].items, RollupName(v, groups[i].period));
      match rollup {
        case Rolled(post) => posts := posts + [post];
        case NothingToPost =>
        case Unplannable => failed := failed + [FailedPeriod(groups[i].period)];
      }
      i := i + 1;
    }
    assert groups[..i] == groups;
  }

  /** `plan_service_sync`. The prefix stops at the first event whose period is open. */
  method PlanServiceSync(v: Service, today: Date, events: seq<RemoteEvent>) returns (plan: SyncPlan)
    ensures plan == ServiceSync(v, today, events)
  {
    var stop := 0;
    while stop < |events| && !IsOpen(v, today, events[stop])
      invariant 0 <= stop <= |events|
      invariant forall i :: 0 <= i < stop ==> !IsOpen(v, today, events[i])
    {
      stop := stop + 1;
    }
    assert stop == Consumed(v, today, events);
    var posts, bills, failed := PlanSingles(v, events[..stop]);
    var absorbed := TakeAbsorbed(v, events, stop);
    TakenRolls(v, events, stop);
    var groups := GroupByPeriodLoop(v, absorbed);
    var totals, unplanned := RollUpGroups(v, groups);
    plan := SyncPlan(SortBy(posts + totals, EarlierPost), bills,
                     if stop == 0 then None else Some(events[stop - 1].id), |events| - stop, failed + unplanned);
  }

  /** `group_by_period`, as a loop. */
  method GroupByPeriodLoop(v: Service, events: seq<RemoteEvent>) returns (groups: seq<Group<RemoteEvent>>)
    requires forall e :: e in events ==> Rolls(v, e)
    ensures groups == GroupByPeriod(v, events)
  {
    groups := [];
    var i := 0;
    while i < |events|
      invariant 0 <= i <= |events|
      invariant groups == GroupByPeriod(v, events[..i])
    {
      assert events[..i + 1][..i] == events[..i];
      groups := Push(groups, PeriodAt(v)(events[i]), events[i]);
      i := i + 1;
    }
    assert events[..i] == events;
  }

  // ------------------------------------------------------------------ what a plan accounts for

  /** What a plan says of its own plans: sales and refunds plan to entries or not at all, and every
      planned posting carries the event's own reference. */
  ghost predicate Faithful(v: Service) {
    && (forall e: RemoteEvent :: v.plan(e).PlanEntry? ==> v.plan(e).post.reference == Some(ServiceKey(v.id, e.id)))
    && (forall e: RemoteEvent :: v.plan(e).PlanBill? ==> v.plan(e).order.reference == Some(ServiceKey(v.id, e.id)))
  }

  ghost predicate SalesAreEntries(v: Service) {
    forall e: RemoteEvent :: IsRollupEvent(e.kind) ==> v.plan(e).PlanEntry? || v.plan(e).PlanError?
  }

  /** What an event planned on its own would put on an account. */
  function PlanOn(v: Service, e: RemoteEvent, a: AccountId): Cents {
    match v.plan(e)
    case PlanEntry(post) => On(post.lines, a)
    case PlanBill(order) => On(BillLines(order), a)
    case _ => 0
  }

  function PostsOn(posts: seq<Post>, a: AccountId): Cents {
    Sum(posts, (p: Post) => On(p.lines, a))
  }

  function BillsOn(bills: seq<BillOrder>, a: AccountId): Cents {
    Sum(bills, (b: BillOrder) => On(BillLines(b), a))
  }

  function EventsOn(v: Service, events: seq<RemoteEvent>, a: AccountId): Cents {
    Sum(events, (e: RemoteEvent) => PlanOn(v, e, a))
  }

  lemma {:induction false} SinglesAndAbsorbed(v: Service, events: seq<RemoteEvent>, a: AccountId)
    requires Failures(v, events) == []
    ensures EventsOn(v, events, a)
         == PostsOn(Singles(v, events), a) + BillsOn(Bills(v, events), a) + EventsOn(v, Absorbed(v, events), a)
  {
    if events != [] {
      var n := |events| - 1;
      var e := events[n];
      SinglesAndAbsorbed(v, events[..n], a);
      var singles, bills, absorbed := Singles(v, events[..n]), Bills(v, events[..n]), Absorbed(v, events[..n]);
      assert singles + [] == singles && bills + [] == bills && absorbed + [] == absorbed;
      if Rolls(v, e) {
        SumAppend(Absorbed(v, events[..n]), e, (x: RemoteEvent) => PlanOn(v, x, a));
      } else if v.plan(e).PlanEntry? {
        SumAppend(Singles(v, events[..n]), v.plan(e).post, (p: Post) => On(p.lines, a));
      } else if v.plan(e).PlanBill? {
        SumAppend(Bills(v, events[..n]), v.plan(e).order, (b: BillOrder) => On(BillLines(b), a));
      }
    }
  }

  /** A rollup puts on each account what its events would. */
  lemma RollupPutsOn(v: Service, g: Group<RemoteEvent>, a: AccountId)
    requires SalesAreEntries(v) && !RollupOf(v, g).Unplannable?
    requires forall e :: e in g.items ==> IsRollupEvent(e.kind)
    ensures EventsOn(v, g.items, a) == if RollupOf(v, g).Rolled? then On(RollupOf(v, g).post.lines, a) else 0
  {
    SummedKeepsTotals(SalesLines(v.plan, g.items));
    SalesLinesOn(v, g.items, a);
    if Summed(SalesLines(v.plan, g.items)) == [] {
      assert On(Summed(SalesLines(v.plan, g.items)), a) == 0;
    }
  }

  lemma {:induction false} SalesLinesOn(v: Service, events: seq<RemoteEvent>, a: AccountId)
    requires SalesAreEntries(v) && forall e :: e in events ==> IsRollupEvent(e.kind)
    ensures On(SalesLines(v.plan, events), a) == EventsOn(v, events, a)
  {
    if events != [] {
      var n := |events| - 1;
      SalesLinesOn(v, events[..n], a);
      var own := if v.plan(events[n]).PlanEntry? then v.plan(events[n]).post.lines else [];
      OnConcat(SalesLines(v.plan, events[..n]), own, a);
    }
  }

  function GroupsOn(v: Service, groups: seq<Group<RemoteEvent>>, a: AccountId): Cents {
    Sum(groups, (g: Group<RemoteEvent>) => EventsOn(v, g.items, a))
  }

  lemma GroupsAddUpOn(v: Service, events: seq<RemoteEvent>, a: AccountId)
    ensures GroupsOn(v, GroupByPeriod(v, events), a) == EventsOn(v, events, a)
  {
    var f := (e: RemoteEvent) => PlanOn(v, e, a);
    GroupsAddUp(events, PeriodAt(v), f);
    SumSame(GroupByPeriod(v, events), (g: Group<RemoteEvent>) => Sum(g.items, f),
            (g: Group<RemoteEvent>) => EventsOn(v, g.items, a));
  }

  lemma {:induction false} RollupsAddUp(v: Service, groups: seq<Group<RemoteEvent>>, a: AccountId)
    requires SalesAreEntries(v) && RollupFailures(v, groups) == []
    requires forall g :: g in groups ==> forall e :: e in g.items ==> IsRollupEvent(e.kind)
    ensures PostsOn(RollupPosts(v, groups), a) == GroupsOn(v, groups, a)
  {
    if groups != [] {
      var n := |groups| - 1;
      RollupsAddUp(v, groups[..n], a);
      RollupPutsOn(v, groups[n], a);
      assert groups[n] in groups && RollupPosts(v, groups[..n]) + [] == RollupPosts(v, groups[..n]);
      var r := RollupOf(v, groups[n]);
      if r.Rolled? {
        SumAppend(RollupPosts(v, groups[..n]), r.post, (p: Post) => On(p.lines, a));
      }
    }
  }

  lemma TotalsAddUp(v: Service, taken: seq<RemoteEvent>, a: AccountId)
    requires SalesAreEntries(v) && RollupFailures(v, GroupByPeriod(v, taken)) == []
    requires forall e :: e in taken ==> Rolls(v, e)
    ensures PostsOn(RollupPosts(v, GroupByPeriod(v, taken)), a) == EventsOn(v, taken, a)
  {
    var groups := GroupByPeriod(v, taken);
    PeriodsAreGroups(v, taken);
    GroupsAddUpOn(v, taken, a);
    hide GroupBy, Within, PeriodFor;
    forall g | g in groups ensures forall e :: e in g.items ==> IsRollupEvent(e.kind) {
      WithinOnly(taken, PeriodAt(v), g.period);
    }
    RollupsAddUp(v, groups, a);
  }

  lemma {:induction false} PartsAddUp(v: Service, events: seq<RemoteEvent>, stop: nat, a: AccountId)
    requires stop <= |events| && SalesAreEntries(v)
    requires Failures(v, events[..stop]) == [] && RollupFailures(v, GroupByPeriod(v, Taken(v, events, stop))) == []
    ensures var posts := Singles(v, events[..stop]) + RollupPosts(v, GroupByPeriod(v, Taken(v, events, stop)));
            PostsOn(SortBy(posts, EarlierPost), a) + BillsOn(Bills(v, events[..stop]), a)
            == EventsOn(v, events[..stop], a) + EventsOn(v, Overrun(v, events, stop, stop), a)
  {
    var prefix, more := events[..stop], Overrun(v, events, stop, stop);
    SinglesAndAbsorbed(v, prefix, a);
    TakenRolls(v, events, stop);
    TotalsAddUp(v, Taken(v, events, stop), a);
    SumConcat(Absorbed(v, prefix), more, (e: RemoteEvent) => PlanOn(v, e, a));
    hide Singles, Absorbed, GroupByPeriod, RollupPosts, SortBy, Overrun;
    var totals := RollupPosts(v, GroupByPeriod(v, Taken(v, events, stop)));
    var posts := Singles(v, prefix) + totals;
    SumConcat(Singles(v, prefix), totals, (p: Post) => On(p.lines, a));
    SortPermutes(posts, EarlierPost);
    SumPermutation(SortBy(posts, EarlierPost), posts, (p: Post) => On(p.lines, a));
  }

  /** One plan accounts for everything it was given. What it consumes is a prefix with every period
      over, what it holds is the rest, beginning at a period still open; the cursor is the last event
      consumed. And when nothing failed, its entries and bills put on every account what planning each
      consumed event alone would, and what the events it takes past its stop would: none, unless the event
      it stops at repeats an id it has consumed. */
  lemma PlanAccountsForEverything(v: Service, today: Date, events: seq<RemoteEvent>)
    requires SalesAreEntries(v)
    ensures var plan := ServiceSync(v, today, events);
            var consumed := |events| - plan.held;
            && 0 <= consumed <= |events|
            && plan.cursor == (if consumed == 0 then None else Some(events[consumed - 1].id))
            && (forall i :: 0 <= i < consumed && Rolls(v, events[i]) ==> PeriodFor(v, events[i]).end < today)
            && (plan.held != 0 ==> Rolls(v, events[consumed]) && today <= PeriodFor(v, events[consumed]).end)
            && (plan.failed == [] ==> forall a ::
                  PostsOn(plan.posts, a) + BillsOn(plan.bills, a)
                  == EventsOn(v, events[..consumed], a) + EventsOn(v, Overrun(v, events, consumed, consumed), a))
            && (Overrun(v, events, consumed, consumed) == []
                <==> (plan.held != 0 ==> forall i :: 0 <= i < consumed ==> events[i].id != events[consumed].id))
  {
    OverrunIsARepeat(v, today, events);
    hide PeriodFor, Rolls, Singles, Absorbed, RollupPosts, SortBy, PostsOn, BillsOn, EventsOn, Bills, Overrun, Taken;
    var plan := ServiceSync(v, today, events);
    var stop := Consumed(v, today, events);
    if plan.failed == [] {
      forall a ensures PostsOn(plan.posts, a) + BillsOn(plan.bills, a)
                       == EventsOn(v, events[..stop], a) + EventsOn(v, Overrun(v, events, stop, stop), a)
      {
        PartsAddUp(v, events, stop, a);
      }
    }
  }

  lemma AbsorbedIsOver(v: Service, today: Date, events: seq<RemoteEvent>, e: RemoteEvent)
    requires e in Absorbed(v, events[..Consumed(v, today, events)])
    ensures Rolls(v, e) && PeriodFor(v, e).end < today
  {
    AbsorbedRoll(v, events[..Consumed(v, today, events)]);
    hide PeriodFor, Absorbed;
    var i :| 0 <= i < Consumed(v, today, events) && events[i] == e;
    assert !IsOpen(v, today, events[i]);
  }

  /** No sale of a period still running is totalled: in a batch that repeats no id, what goes into the totals is dated
      before the day of the sync, and so is the last day of its period. */
  lemma TotalsAreOver(v: Service, today: Date, events: seq<RemoteEvent>, e: RemoteEvent)
    requires DistinctIds(events) && e in Taken(v, events, Consumed(v, today, events))
    ensures Rolls(v, e) && e.date.Some? && e.date.value <= PeriodFor(v, e).end < today
  {
    DistinctTakesNoMore(v, today, events);
    AbsorbedIsOver(v, today, events, e);
    PeriodsTile(v.frequency, e.date.value, e.date.value);
  }

  /** What is totalled and what stands alone, event by event: a consumed event is in the totals if it is a sale or
      refund dated since the frequency took effect, and else its own entry, if it plans to one, is posted. */
  lemma {:induction false} ConsumedEventIsPlanned(v: Service, today: Date, events: seq<RemoteEvent>, i: nat)
    requires i < Consumed(v, today, events)
    ensures Rolls(v, events[i]) ==> events[i] in Taken(v, events, Consumed(v, today, events))
    ensures !Rolls(v, events[i]) && v.plan(events[i]).PlanEntry? ==>
              v.plan(events[i]).post in ServiceSync(v, today, events).posts
    ensures !Rolls(v, events[i]) && v.plan(events[i]).PlanBill? ==>
              v.plan(events[i]).order in ServiceSync(v, today, events).bills
  {
    var n := Consumed(v, today, events);
    assert events[..n][i] == events[i];
    AbsorbedRoll(v, events[..n]);
    PostsHoldSingles(v, today, events);
    hide ServiceSync, Absorbed, Consumed, Singles, RollupPosts, GroupByPeriod;
    if !Rolls(v, events[i]) {
      StandsAlone(v, events[..n], i);
    }
  }

  lemma PostsHoldSingles(v: Service, today: Date, events: seq<RemoteEvent>)
    ensures var n := Consumed(v, today, events);
            && (forall p :: p in Singles(v, events[..n]) ==> p in ServiceSync(v, today, events).posts)
            && ServiceSync(v, today, events).bills == Bills(v, events[..n])
  {
    hide Rolls, Absorbed, Singles, Bills, Failures, RollupPosts, RollupFailures, Consumed, Overrun, GroupByPeriod;
    var n := Consumed(v, today, events);
    var singles, totals := Singles(v, events[..n]), RollupPosts(v, GroupByPeriod(v, Taken(v, events, n)));
    SortPermutes(singles + totals, EarlierPost);
    SameElements(SortBy(singles + totals, EarlierPost), singles + totals);
  }

  lemma {:induction false} StandsAlone(v: Service, events: seq<RemoteEvent>, i: nat)
    requires i < |events| && !Rolls(v, events[i])
    ensures v.plan(events[i]).PlanEntry? ==> v.plan(events[i]).post in Singles(v, events)
    ensures v.plan(events[i]).PlanBill? ==> v.plan(events[i]).order in Bills(v, events)
  {
    hide Rolls;
    if i < |events| - 1 {
      assert events[..|events| - 1][i] == events[i];
      StandsAlone(v, events[..|events| - 1], i);
    }
  }

  /** What a plan calls failed: each consumed event that stands alone and cannot be planned, and each period whose total
      cannot. */
  lemma {:induction false} FailuresAre(v: Service, events: seq<RemoteEvent>, f: Failure)
    ensures f in Failures(v, events)
       <==> exists e :: e in events && !Rolls(v, e) && v.plan(e).PlanError? && f == FailedEvent(e.id)
  {
    hide Rolls;
    if events != [] {
      var n := |events| - 1;
      FailuresAre(v, events[..n], f);
      assert events == events[..n] + [events[n]];
    }
  }

  lemma {:induction false} PeriodFailuresAre(v: Service, groups: seq<Group<RemoteEvent>>, f: Failure)
    ensures f in RollupFailures(v, groups)
       <==> exists g :: g in groups && f == FailedPeriod(g.period)
                        && exists e :: e in g.items && (e.kind == Sale || e.kind == Refund) && v.plan(e).PlanError?
  {
    if groups != [] {
      var n := |groups| - 1;
      PeriodFailuresAre(v, groups[..n], f);
      RollupOutcome(v.plan, groups[n].period.end, groups[n].items, RollupName(v, groups[n].period));
      hide SalesRollup, SalesOnKey;
      assert groups == groups[..n] + [groups[n]];
    }
  }

  /** A plan posts oldest first, and nothing but what stands alone and the totals, each once. */
  lemma PlanIsOldestFirst(v: Service, today: Date, events: seq<RemoteEvent>)
    ensures var posts := ServiceSync(v, today, events).posts;
            && (forall i, j :: 0 <= i < j < |posts| ==> posts[i].date <= posts[j].date)
            && multiset(posts)
               == multiset(Singles(v, events[..Consumed(v, today, events)])
                           + RollupPosts(v, GroupByPeriod(v, Taken(v, events, Consumed(v, today, events)))))
  {
    hide Singles, RollupPosts, GroupByPeriod, Taken, Bills, Failures, RollupFailures, Consumed;
    var n := Consumed(v, today, events);
    var posts := Singles(v, events[..n]) + RollupPosts(v, GroupByPeriod(v, Taken(v, events, n)));
    SortPermutes(posts, EarlierPost);
    SortSorts(posts, EarlierPost);
  }

  /** A total is dated the last day of its period, under the period's reference. */
  lemma TotalIsDated(v: Service, g: Group<RemoteEvent>)
    requires RollupOf(v, g).Rolled?
    ensures RollupOf(v, g).post.date == g.period.end
    ensures RollupOf(v, g).post.reference == Some(RollupKey(v.id, g.period))
            && RollupOf(v, g).post.source == Some(EventService)
  {
  }

  /** A sale that repeats the id of one already over is totalled while its own period still runs, though the
      batch is held from it on. */
  lemma RepeatedIdIsTakenEarly(v: Service, today: Date, over: RemoteEvent, running: RemoteEvent)
    requires Rolls(v, over) && Rolls(v, running) && over.id == running.id
    requires !IsOpen(v, today, over) && IsOpen(v, today, running)
    ensures var events := [over, running];
            && ServiceSync(v, today, events).held == 1
            && Taken(v, events, Consumed(v, today, events)) == events
  {
    hide PeriodFor, Rolls, IsOpen;
    var events := [over, running];
    assert events[..1] == [over] && [over][..0] == [] && events[..2] == events;
    assert Consumed(v, today, []) == 0 && Consumed(v, today, [over]) == 1;
    assert Consumed(v, today, events) == 1;
    RepeatIsOverrun(v, over, running);
  }

  lemma RepeatIsOverrun(v: Service, over: RemoteEvent, running: RemoteEvent)
    requires Rolls(v, over) && Rolls(v, running) && over.id == running.id
    ensures Taken(v, [over, running], 1) == [over, running]
  {
    hide Rolls;
    var events := [over, running];
    assert events[..1] == [over] && [over][..0] == [];
    assert Absorbed(v, events[..1]) == [] + [over];
    assert Overrun(v, events, 1, 2) == [];
    assert Position(events, running.id) == 0;
    assert Overrun(v, events, 1, 1) == [running] + [];
  }

  // ------------------------------------------------------------------ where every event lands

  /** Consumed events that stand alone. */
  function Alone(v: Service, events: seq<RemoteEvent>): seq<RemoteEvent> {
    if events == [] then []
    else
      var e := events[|events| - 1];
      Alone(v, events[..|events| - 1]) + if Rolls(v, e) then [] else [e]
  }

  /** Those of them that post nothing. */
  function Idle(v: Service, events: seq<RemoteEvent>): seq<RemoteEvent> {
    if events == [] then []
    else
      var e := events[|events| - 1];
      Idle(v, events[..|events| - 1]) + if !Rolls(v, e) && v.plan(e).PlanNothing? then [e] else []
  }

  lemma {:induction false} AloneOrAbsorbed(v: Service, events: seq<RemoteEvent>)
    ensures multiset(events) == multiset(Absorbed(v, events)) + multiset(Alone(v, events))
  {
    hide PeriodFor;
    if events != [] {
      AloneOrAbsorbed(v, events[..|events| - 1]);
      assert events == events[..|events| - 1] + [events[|events| - 1]];
    }
  }

  lemma {:induction false} AloneIsOneOfFour(v: Service, events: seq<RemoteEvent>)
    ensures |Alone(v, events)| == |Singles(v, events)| + |Bills(v, events)| + |Idle(v, events)| + |Failures(v, events)|
  {
    hide PeriodFor, Rolls;
    if events != [] {
      AloneIsOneOfFour(v, events[..|events| - 1]);
    }
  }

  /** Every consumed event lands once: in the group of its own period, or alone, and then as one of
      an entry, a bill, nothing or a failure. Only an event taken past the stop is in a group besides. */
  lemma {:induction false} EveryEventLandsOnce(v: Service, today: Date, events: seq<RemoteEvent>)
    ensures var stop := Consumed(v, today, events);
            var consumed, taken := events[..stop], Taken(v, events, stop);
            && (forall e :: e in taken ==> Rolls(v, e))
            && var groups := GroupByPeriod(v, taken);
               && GroupsOf(groups, taken, PeriodAt(v))
               && multiset(consumed) + multiset(Overrun(v, events, stop, stop))
                  == multiset(Grouped(groups)) + multiset(Alone(v, consumed))
               && |Alone(v, consumed)|
                  == |Singles(v, consumed)| + |Bills(v, consumed)| + |Idle(v, consumed)| + |Failures(v, consumed)|
  {
    var stop := Consumed(v, today, events);
    var taken := Taken(v, events, stop);
    TakenRolls(v, events, stop);
    PeriodsAreGroups(v, taken);
    GroupingSpreads(taken, PeriodAt(v));
    AloneOrAbsorbed(v, events[..stop]);
    AloneIsOneOfFour(v, events[..stop]);
  }
}
