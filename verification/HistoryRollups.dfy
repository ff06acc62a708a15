/** Replacing a service's posted entries by one total a period, without moving any balance. */
module HistoryRollups {
  import opened Options
  import opened Sums
  import opened Sorting
  import opened Counting
  import opened Calendar
  import opened Ledger
  import opened Commands
  import opened Invariants
  import opened Runs
  import opened Rollups
  import opened Grouping

  // ------------------------------------------------------------------ the entries of one service

  /** A live entry one event posted, dated in the range. A period's total carries another kind of key. */
  predicate IsHistory(service: nat, e: Entry, range: Window) {
    && !e.isVoid && e.reference.Some? && e.reference.value.Keyed?
    && e.reference.value.key.ServiceKey? && e.reference.value.key.service == service
    && range.Contains(e.date)
  }

  function Candidates(entries: seq<Entry>, service: nat, range: Window): seq<EntryId> {
    if entries == [] then []
    else
      Candidates(entries[..|entries| - 1], service, range)
      + if IsHistory(service, entries[|entries| - 1], range) then [|entries| - 1] else []
  }

  function DateAt(entries: seq<Entry>, id: EntryId): Date {
    if id < |entries| then entries[id].date else 0
  }

  function LinesAt(entries: seq<Entry>, id: EntryId): seq<Line> {
    if id < |entries| then entries[id].lines else []
  }

  function LinesOf(entries: seq<Entry>, ids: seq<EntryId>): seq<Line> {
    if ids == [] then [] else LinesOf(entries, ids[..|ids| - 1]) + LinesAt(entries, ids[|ids| - 1])
  }

  function Earlier(entries: seq<Entry>): (EntryId, EntryId) -> bool {
    (i: EntryId, j: EntryId) => DateAt(entries, i) <= DateAt(entries, j)
  }

  /** `ORDER BY date`. */
  function HistoryIds(entries: seq<Entry>, service: nat, range: Window): seq<EntryId> {
    SortBy(Candidates(entries, service, range), Earlier(entries))
  }

  /** The period an entry is dated in; nothing is grouped per event, so no period is asked for then. */
  function PeriodOfEntry(entries: seq<Entry>, frequency: Frequency): EntryId -> Period {
    (id: EntryId) => if frequency == PerEvent then Period(0, 0, PerEvent)
    else PeriodOf(frequency, DateAt(entries, id)).value
  }

  // ------------------------------------------------------------------ the plan

  datatype HistoryRollup = HistoryRollup(period: Period, entryIds: seq<EntryId>, replacement: Post)

  function Replace(entries: seq<Entry>, service: nat, g: Group<EntryId>): HistoryRollup {
    HistoryRollup(g.period, g.items,
                  Post(g.period.end, Summed(LinesOf(entries, g.items)), Some(RollupKey(service, g.period)),
                       Some(EventService)))
  }

  /** A period whose entries cancel has nothing to post and is left as it is. */
  function Replacements(entries: seq<Entry>, service: nat, groups: seq<Group<EntryId>>): seq<HistoryRollup> {
    if groups == [] then []
    else
      var g := groups[|groups| - 1];
      Replacements(entries, service, groups[..|groups| - 1])
      + if Summed(LinesOf(entries, g.items)) == [] then [] else [Replace(entries, service, g)]
  }

  function HistoryGroups(entries: seq<Entry>, service: nat, frequency: Frequency, range: Window): seq<Group<EntryId>> {
    GroupBy(HistoryIds(entries, service, range), PeriodOfEntry(entries, frequency))
  }

  /** `plan_history_rollup`, as a function of the books. */
  function PlanHistory(entries: seq<Entry>, service: nat, frequency: Frequency, range: Window): seq<HistoryRollup> {
    if frequency == PerEvent then []
    else Replacements(entries, service, HistoryGroups(entries, service, frequency, range))
  }

  /** Each period's running totals are those of its entries so far. */
  ghost predicate TotalsOf(entries: seq<Entry>, ids: seq<EntryId>, periodOf: EntryId -> Period,
                           totals: map<Period, seq<Line>>) {
    && (forall id :: id in ids ==> periodOf(id) in totals)
    && (forall p :: p in totals ==> totals[p] == AddAll([], LinesOf(entries, Within(ids, periodOf, p))))
  }

  function TotalsFor(totals: map<Period, seq<Line>>, period: Period): seq<Line> {
    if period in totals then totals[period] else []
  }

  lemma LinesSnoc(entries: seq<Entry>, ids: seq<EntryId>, id: EntryId)
    ensures LinesOf(entries, ids + [id]) == LinesOf(entries, ids) + LinesAt(entries, id)
  {
    assert (ids + [id])[..|ids|] == ids;
  }

  lemma GatherOne(entries: seq<Entry>, ids: seq<EntryId>, periodOf: EntryId -> Period, totals: map<Period, seq<Line>>,
                  id: EntryId)
    requires TotalsOf(entries, ids, periodOf, totals)
    ensures TotalsOf(entries, ids + [id], periodOf,
                     totals[periodOf(id) := AddAll(TotalsFor(totals, periodOf(id)), LinesAt(entries, id))])
  {
    hide AddAll, Within, LinesOf;
    var period := periodOf(id);
    var gathered := Within(ids, periodOf, period);
    if period !in totals {
      NoneWithin(ids, periodOf, period);
      NothingAdded();
      NoLines(entries);
    }
    AddAllConcat(LinesOf(entries, gathered), LinesAt(entries, id));
    LinesSnoc(entries, gathered, id);
    var after := totals[period := AddAll(TotalsFor(totals, period), LinesAt(entries, id))];
    forall p | p in after ensures after[p] == AddAll([], LinesOf(entries, Within(ids + [id], periodOf, p))) {
      WithinSnoc(ids, id, periodOf, p);
    }
  }

  lemma NoLines(entries: seq<Entry>)
    ensures LinesOf(entries, []) == []
  {
  }

  lemma NothingAdded()
    ensures AddAll([], []) == []
  {
  }

  /** The gathering loop: entry by entry, line by line, into its period's list and totals. */
  method Gather(entries: seq<Entry>, ids: seq<EntryId>, frequency: Frequency)
    returns (groups: seq<Group<EntryId>>, totals: map<Period, seq<Line>>)
    ensures groups == GroupBy(ids, PeriodOfEntry(entries, frequency))
    ensures TotalsOf(entries, ids, PeriodOfEntry(entries, frequency), totals)
  {
    hide PeriodOfEntry, TotalsOf;
    groups, totals := [], map[];
    var periodOf := PeriodOfEntry(entries, frequency);
    var i := 0;
    NothingGathered(entries, periodOf);
    assert ids[..0] == [];
    while i < |ids|
      invariant 0 <= i <= |ids|
      invariant groups == GroupBy(ids[..i], periodOf) && TotalsOf(entries, ids[..i], periodOf, totals)
    {
      assert ids[..i + 1][..i] == ids[..i] && ids[..i + 1] == ids[..i] + [ids[i]];
      var period := periodOf(ids[i]);
      groups := Push(groups, period, ids[i]);
      GatherOne(entries, ids[..i], periodOf, totals, ids[i]);
      var sum := AddLines(TotalsFor(totals, period), LinesAt(entries, ids[i]));
      totals := totals[period := sum];
      i := i + 1;
    }
    assert ids[..i] == ids;
  }

  lemma NothingGathered(entries: seq<Entry>, periodOf: EntryId -> Period)
    ensures TotalsOf(entries, [], periodOf, map[])
  {
  }

  /** `plan_history_rollup`. */
  method PlanHistoryRollup(s: State, service: nat, frequency: Frequency,
                           range: Window)
    returns (plan: seq<HistoryRollup>)
    ensures plan == PlanHistory(s.entries, service, frequency, range)
  {
    hide HistoryIds, PeriodOfEntry, AddAll, GroupBy, Within, TotalsOf, NonZero, LinesOf;
    if frequency == PerEvent {
      return [];
    }
    var ids := HistoryIds(s.entries, service, range);
    var groups, totals := Gather(s.entries, ids, frequency);
    plan := [];
    var i := 0;
    while i < |groups|
      invariant 0 <= i <= |groups|
      invariant plan == Replacements(s.entries, service, groups[..i])
    {
      assert groups[..i + 1][..i] == groups[..i];
      var g := groups[i];
      GatheredForGroup(s.entries, service, frequency, range, totals, g);
      var lines := NonZero(totals[g.period]);
      if lines != [] {
        plan := plan + [HistoryRollup(g.period, g.items,
                                      Post(g.period.end, lines, Some(RollupKey(service, g.period)),
                                           Some(EventService)))];
      }
      i := i + 1;
    }
    assert groups[..i] == groups;
  }

  lemma {:induction false} GatheredForGroup(entries: seq<Entry>, service: nat, frequency: Frequency, range: Window,
                                            totals: map<Period, seq<Line>>, g: Group<EntryId>)
    requires frequency != PerEvent && g in HistoryGroups(entries, service, frequency, range)
    requires TotalsOf(entries, HistoryIds(entries, service, range), PeriodOfEntry(entries, frequency), totals)
    ensures g.period in totals && NonZero(totals[g.period]) == Summed(LinesOf(entries, g.items))
  {
    hide HistoryIds, PeriodOfEntry, GroupBy, Within;
    GroupsAreHistory(entries, service, frequency, range);
  }

  // ------------------------------------------------------------------ what is in a plan

  lemma {:induction false} CandidatesAre(entries: seq<Entry>, service: nat, range: Window)
    ensures forall id: EntryId :: id in Candidates(entries, service, range)
                                  <==> id < |entries| && IsHistory(service, entries[id], range)
    ensures forall i, j :: 0 <= i < j < |Candidates(entries, service, range)| ==>
              Candidates(entries, service, range)[i] < Candidates(entries, service, range)[j]
  {
    if entries != [] {
      var before := Candidates(entries[..|entries| - 1], service, range);
      CandidatesAre(entries[..|entries| - 1], service, range);
      forall i | 0 <= i < |before| ensures before[i] < |entries| - 1 {
        assert before[i] in before;
      }
    }
  }

  lemma HistoryIdsAre(entries: seq<Entry>, service: nat, range: Window)
    ensures forall id: EntryId :: id in HistoryIds(entries, service, range)
                                  <==> id < |entries| && IsHistory(service, entries[id], range)
    ensures Distinct(HistoryIds(entries, service, range))
  {
    var found := Candidates(entries, service, range);
    CandidatesAre(entries, service, range);
    SortPermutes(found, Earlier(entries));
    SameElements(HistoryIds(entries, service, range), found);
    DistinctCounts(found);
    CountsDistinct(HistoryIds(entries, service, range));
  }

  lemma GroupsAreHistory(entries: seq<Entry>, service: nat, frequency: Frequency, range: Window)
    requires frequency != PerEvent
    ensures GroupsOf(HistoryGroups(entries, service, frequency, range), HistoryIds(entries, service, range),
                     PeriodOfEntry(entries, frequency))
  {
    var ids := HistoryIds(entries, service, range);
    forall i, j | i in ids && j in ids
    && PeriodOfEntry(entries, frequency)(i).start == PeriodOfEntry(entries, frequency)(j).start
      ensures PeriodOfEntry(entries, frequency)(i) == PeriodOfEntry(entries, frequency)(j)
    {
      PeriodKeysAreInjective(frequency, DateAt(entries, i), DateAt(entries, j));
    }
    GroupingIsComplete(ids, PeriodOfEntry(entries, frequency));
  }

  /** History is read oldest first. */
  lemma HistoryOldestFirst(entries: seq<Entry>, service: nat, range: Window)
    ensures var ids := HistoryIds(entries, service, range);
            forall i, j :: 0 <= i < j < |ids| ==> DateAt(entries, ids[i]) <= DateAt(entries, ids[j])
  {
    SortSorts(Candidates(entries, service, range), Earlier(entries));
  }

  function AllIds(plan: seq<HistoryRollup>): seq<EntryId> {
    if plan == [] then [] else AllIds(plan[..|plan| - 1]) + plan[|plan| - 1].entryIds
  }

  /** What one replacement is: exactly the history of its period, summed under the period's own key. */
  ghost predicate Replaces(entries: seq<Entry>, service: nat, frequency: Frequency, range: Window, r: HistoryRollup) {
    && r.entryIds == Within(HistoryIds(entries, service, range), PeriodOfEntry(entries, frequency), r.period)
    && r.replacement == Post(r.period.end, Summed(LinesOf(entries, r.entryIds)), Some(RollupKey(service, r.period)),
                             Some(EventService))
    && r.entryIds != [] && Summed(LinesOf(entries, r.entryIds)) != []
  }

  lemma {:induction false} ReplacementsAre(entries: seq<Entry>, service: nat, groups: seq<Group<EntryId>>)
    ensures forall r :: r in Replacements(entries, service, groups) ==>
              exists g :: g in groups && r == Replace(entries, service, g) && Summed(LinesOf(entries, g.items)) != []
    ensures forall g :: g in groups && Summed(LinesOf(entries, g.items)) != [] ==>
              Replace(entries, service, g) in Replacements(entries, service, groups)
  {
    hide Summed, LinesOf;
    if groups != [] {
      ReplacementsAre(entries, service, groups[..|groups| - 1]);
      assert groups == groups[..|groups| - 1] + [groups[|groups| - 1]];
    }
  }

  ghost predicate Ascending(plan: seq<HistoryRollup>) {
    forall i, j :: 0 <= i < j < |plan| ==> plan[i].period.start < plan[j].period.start
  }

  lemma AscendingSnoc(plan: seq<HistoryRollup>, r: HistoryRollup)
    requires Ascending(plan) && forall x :: x in plan ==> x.period.start < r.period.start
    ensures Ascending(plan + [r])
  {
    assert forall i :: 0 <= i < |plan| ==> plan[i] in plan;
  }

  lemma {:induction false} ReplacementsAscend(entries: seq<Entry>, service: nat, groups: seq<Group<EntryId>>)
    requires forall i, j :: 0 <= i < j < |groups| ==> groups[i].period.start < groups[j].period.start
    ensures Ascending(Replacements(entries, service, groups))
  {
    hide Summed, LinesOf;
    if groups != [] {
      hide Ascending;
      var n := |groups| - 1;
      ReplacementsAscend(entries, service, groups[..n]);
      var before := Replacements(entries, service, groups[..n]);
      assert before + [] == before;
      ReplacementsAre(entries, service, groups[..n]);
      forall r | r in before ensures r.period.start < groups[n].period.start {
        var g :| g in groups[..n] && r == Replace(entries, service, g);
        var k :| 0 <= k < n && groups[k] == g;
      }
      AscendingSnoc(before, Replace(entries, service, groups[n]));
    }
  }

  lemma AllIdsSnoc(plan: seq<HistoryRollup>, r: HistoryRollup)
    ensures AllIds(plan + [r]) == AllIds(plan) + r.entryIds
  {
    assert (plan + [r])[..|plan|] == plan;
  }

  lemma {:induction false} ReplacedOnce(entries: seq<Entry>, service: nat, groups: seq<Group<EntryId>>)
    ensures multiset(AllIds(Replacements(entries, service, groups))) <= multiset(Grouped(groups))
  {
    hide Summed, LinesOf, AllIds, Grouped;
    if groups == [] {
      NoIds();
    } else {
      var n := |groups| - 1;
      var g := groups[n];
      ReplacedOnce(entries, service, groups[..n]);
      GroupedSnoc(groups[..n], g);
      assert groups == groups[..n] + [g];
      var before := Replacements(entries, service, groups[..n]);
      assert before + [] == before;
      AllIdsSnoc(before, Replace(entries, service, g));
    }
  }

  lemma NoIds()
    ensures AllIds([]) == []
  {
  }

  lemma {:induction false} GroupedSnoc<T>(groups: seq<Group<T>>, g: Group<T>)
    ensures Grouped(groups + [g]) == Grouped(groups) + g.items
  {
    if groups == [] {
      assert groups + [g] == [g] && [g][1..] == [];
    } else {
      GroupedSnoc(groups[1..], g);
      assert (groups + [g])[1..] == groups[1..] + [g];
    }
  }

  /** A plan replaces live entries of the service's events only, none of them twice, each in the total
      of the one period its date is in; periods that cancel are left out, and no others are. */
  lemma {:induction false} PlanReplaces(entries: seq<Entry>, service: nat, frequency: Frequency, range: Window)
    ensures var plan := PlanHistory(entries, service, frequency, range);
            && Distinct(AllIds(plan))
            && Ascending(plan)
            && (forall r :: r in plan ==> Replaces(entries, service, frequency, range, r))
            && (forall id: EntryId :: frequency != PerEvent && id < |entries| && IsHistory(service, entries[id], range)
                  && Summed(LinesOf(entries,
                                    Within(HistoryIds(entries, service, range), PeriodOfEntry(entries, frequency),
                                           PeriodOfEntry(entries, frequency)(id)))) != []
                  ==> exists r :: r in plan && r.period == PeriodOfEntry(entries, frequency)(id))
  {
    hide Summed, LinesOf, HistoryIds, PeriodOfEntry, Within;
    var plan := PlanHistory(entries, service, frequency, range);
    if frequency != PerEvent {
      var groups, ids := HistoryGroups(entries, service, frequency, range), HistoryIds(entries, service, range);
      GroupsAreHistory(entries, service, frequency, range);
      HistoryIdsAre(entries, service, range);
      ReplacementsAre(entries, service, groups);
      ReplacementsAscend(entries, service, groups);
      ReplacedOnce(entries, service, groups);
      GroupingSpreads(ids, PeriodOfEntry(entries, frequency));
      DistinctCounts(ids);
      FewerCounts(AllIds(plan), ids);
    }
  }

  /** What a total replaces, said of the entries: the live ones under a reference of one of the service's events, dated
      in the range and in the period; and the total's own date, reference and source. */
  lemma {:induction false} ReplacedAre(entries: seq<Entry>, service: nat, frequency: Frequency, range: Window,
                                       r: HistoryRollup,
                                       id: EntryId)
    requires r in PlanHistory(entries, service, frequency, range)
    ensures id in r.entryIds
       <==> && id < |entries| && !entries[id].isVoid
            && (exists event :: entries[id].reference == Some(Keyed(ServiceKey(service, event))))
            && range.start <= entries[id].date <= range.end
            && r.period.start <= entries[id].date <= r.period.end
    ensures r.replacement.date == r.period.end && r.replacement.reference == Some(RollupKey(service, r.period))
    ensures r.replacement.source == Some(EventService) && r.period.frequency == frequency
  {
    PlanReplaces(entries, service, frequency, range);
    NoPlanPerEvent(entries, service, frequency, range, r);
    var ids, periodOf := HistoryIds(entries, service, range), PeriodOfEntry(entries, frequency);
    HistoryIdsAre(entries, service, range);
    WithinOnly(ids, periodOf, r.period);
    hide PlanHistory, HistoryIds, Within, Summed, LinesOf;
    var first := r.entryIds[0];
    assert first in r.entryIds && first in ids;
    PeriodsAre(frequency, entries[first].date);
    if id in ids {
      PeriodsTile(frequency, entries[first].date, entries[id].date);
      PeriodsTile(frequency, entries[id].date, entries[id].date);
    }
    if id < |entries| && IsHistory(service, entries[id], range) {
      assert entries[id].reference == Some(Keyed(ServiceKey(service, entries[id].reference.value.key.event)));
    }
  }

  lemma {:induction false} InAllIds(plan: seq<HistoryRollup>, id: EntryId)
    ensures id in AllIds(plan) <==> exists r :: r in plan && id in r.entryIds
  {
    if plan != [] {
      InAllIds(plan[..|plan| - 1], id);
      assert plan == plan[..|plan| - 1] + [plan[|plan| - 1]];
    }
  }

  // ------------------------------------------------------------------ carrying it out

  function Voids(ids: seq<EntryId>): seq<Command> {
    if ids == [] then [] else Voids(ids[..|ids| - 1]) + [VoidEntry(ids[|ids| - 1])]
  }

  /** Void what each total replaces, then post the total. */
  function Apply(plan: seq<HistoryRollup>): seq<Command> {
    if plan == [] then []
    else
      var r := plan[|plan| - 1];
      Apply(plan[..|plan| - 1]) + Voids(r.entryIds) + [PostEntry(r.replacement)]
  }

  function VoidedAll(entries: seq<Entry>, ids: seq<EntryId>): (after: seq<Entry>)
    ensures |after| == |entries|
  {
    if ids == [] then entries
    else
      var before := VoidedAll(entries, ids[..|ids| - 1]);
      var id := ids[|ids| - 1];
      if id < |entries| then before[id := before[id].(isVoid := true)] else before
  }

  function Totals(plan: seq<HistoryRollup>): seq<Entry> {
    if plan == [] then [] else Totals(plan[..|plan| - 1]) + [Posted(plan[|plan| - 1].replacement)]
  }

  /** The books after a plan: what it replaces void, its totals posted, nothing else touched. */
  function Applied(s: State, plan: seq<HistoryRollup>): State {
    s.(entries := VoidedAll(s.entries, AllIds(plan)) + Totals(plan))
  }

  lemma {:induction false} VoidedAre(entries: seq<Entry>, ids: seq<EntryId>)
    ensures forall i: EntryId :: i < |entries| ==>
              VoidedAll(entries, ids)[i] == if i in ids then entries[i].(isVoid := true) else entries[i]
  {
    if ids != [] {
      VoidedAre(entries, ids[..|ids| - 1]);
      assert ids == ids[..|ids| - 1] + [ids[|ids| - 1]];
    }
  }

  lemma {:induction false} VoidedMore(entries: seq<Entry>, ids: seq<EntryId>, more: seq<EntryId>, tail: seq<Entry>)
    requires forall id :: id in more ==> id < |entries|
    ensures VoidedAll(VoidedAll(entries, ids) + tail, more) == VoidedAll(entries, ids + more) + tail
  {
    if more == [] {
      assert ids + more == ids;
    } else {
      var n := |more| - 1;
      assert more[n] in more && forall id :: id in more[..n] ==> id in more;
      VoidedMore(entries, ids, more[..n], tail);
      assert (ids + more)[..|ids| + n] == ids + more[..n];
    }
  }

  /** Entries that may be voided one after another. */
  ghost predicate Voidable(s: State, ids: seq<EntryId>) {
    Distinct(ids) && forall id :: id in ids ==>
                                    id < |s.entries| && !s.entries[id].isVoid && s.entries[id].source != Some(Closing)
  }

  lemma {:induction false} VoidsRun(s: State, books: Books, ids: seq<EntryId>)
    requires Voidable(s, ids)
    ensures Run(s, books, Voids(ids)) == s.(entries := VoidedAll(s.entries, ids))
  {
    if ids != [] {
      var n := |ids| - 1;
      VoidsRun(s, books, ids[..n]);
      VoidedAre(s.entries, ids[..n]);
      var t := s.(entries := VoidedAll(s.entries, ids[..n]));
      assert ids[n] in ids && ids[n] !in ids[..n];
      assert Voids(ids)[..n] == Voids(ids[..n]) by { VoidsCount(ids[..n]); }
      VoidsCount(ids);
      assert Build(t, books, VoidEntry(ids[n])) == Append([EntryVoided(ids[n])]);
      RecordOne(t, EntryVoided(ids[n]));
    }
  }

  lemma {:induction false} VoidsCount(ids: seq<EntryId>)
    ensures |Voids(ids)| == |ids|
  {
    if ids != [] {
      VoidsCount(ids[..|ids| - 1]);
    }
  }

  /** The total can be posted: no overflow, accounts in use, books open, period not already posted. */
  ghost predicate Ready(s: State, r: HistoryRollup) {
    && CheckEntryPure(r.replacement).None?
    && Usable(s, AccountsOf(r.replacement.lines))
    && !FencedOn(s, r.replacement.date)
    && r.replacement.reference.Some?
    && Holder(s.entries, Keyed(r.replacement.reference.value)).None?
  }

  lemma PostsReady(t: State, books: Books, post: Post)
    requires CheckEntryPure(post).None? && Usable(t, AccountsOf(post.lines)) && !FencedOn(t, post.date)
    requires post.reference.Some? && Holder(t.entries, Keyed(post.reference.value)).None?
    ensures Step(t, books, PostEntry(post)) == t.(entries := t.entries + [Posted(post)])
  {
    assert Build(t, books, PostEntry(post)) == Append([Posting(post)]);
    RecordOne(t, Posting(post));
    CheckedTotalIsTotal(post.lines);
    forall l | l in post.lines ensures l.account < |t.accounts| {
      var i :| 0 <= i < |post.lines| && post.lines[i] == l;
      assert AccountsOf(post.lines)[i] in AccountsOf(post.lines);
    }
  }

  /** No other total of the plan has taken a period's reference. */
  lemma {:induction false} ReferenceStaysFree(s: State, plan: seq<HistoryRollup>, key: Key)
    requires Holder(s.entries, Keyed(key)).None?
    requires forall r :: r in plan ==> r.replacement.reference != Some(key)
    ensures Holder(Applied(s, plan).entries, Keyed(key)).None?
  {
    VoidedAre(s.entries, AllIds(plan));
    TotalsAre(plan);
    var after := Applied(s, plan).entries;
    forall i | 0 <= i < |after| ensures !Holds(after[i], Keyed(key)) {
      if i < |s.entries| {
        assert !Holds(s.entries[i], Keyed(key));
      } else {
        assert after[i] == Posted(plan[i - |s.entries|].replacement);
        assert plan[i - |s.entries|] in plan;
      }
    }
  }

  lemma {:induction false} TotalsAre(plan: seq<HistoryRollup>)
    ensures |Totals(plan)| == |plan|
    ensures forall i :: 0 <= i < |plan| ==> Totals(plan)[i] == Posted(plan[i].replacement)
  {
    if plan != [] {
      TotalsAre(plan[..|plan| - 1]);
    }
  }

  /** The commands of a plan are all accepted, and do exactly what the plan says. */
  lemma {:induction false} ApplyRuns(s: State, books: Books, plan: seq<HistoryRollup>)
    requires Voidable(s, AllIds(plan)) && forall r :: r in plan ==> Ready(s, r)
    requires forall i, j :: 0 <= i < j < |plan| ==> plan[i].replacement.reference != plan[j].replacement.reference
    ensures Run(s, books, Apply(plan)) == Applied(s, plan)
  {
    hide Run, Applied, Ready, Voids, Voidable, AllIds;
    if plan == [] {
      NothingApplied(s, books);
    } else {
      var n := |plan| - 1;
      var before, r := plan[..n], plan[n];
      assert before + [r] == plan;
      AllIdsSnoc(before, r);
      VoidablePrefix(s, AllIds(before), r.entryIds);
      assert r in plan && forall x :: x in before ==> x in plan;
      ApplyRuns(s, books, before);
      ApplyOne(s, books, before, r);
      RunAppend(s, books, Apply(before), Voids(r.entryIds) + [PostEntry(r.replacement)]);
      assert Apply(before) + (Voids(r.entryIds) + [PostEntry(r.replacement)]) == Apply(plan);
    }
  }

  lemma NothingApplied(s: State, books: Books)
    ensures Run(s, books, Apply([])) == Applied(s, [])
  {
    assert s.entries + [] == s.entries;
  }

  lemma VoidablePrefix(s: State, ids: seq<EntryId>, more: seq<EntryId>)
    requires Voidable(s, ids + more)
    ensures Voidable(s, ids) && Voidable(s, more) && forall id :: id in more ==> id !in ids
  {
    var all := ids + more;
    forall i, j | 0 <= i < |ids| && 0 <= j < |more| ensures ids[i] != more[j] {
      assert all[i] != all[|ids| + j];
    }
    forall i, j | 0 <= i < j < |more| ensures more[i] != more[j] {
      assert all[|ids| + i] != all[|ids| + j];
    }
    forall i, j | 0 <= i < j < |ids| ensures ids[i] != ids[j] {
      assert all[i] != all[j];
    }
    assert forall id :: id in ids || id in more ==> id in all;
  }

  lemma ApplyOne(s: State, books: Books, before: seq<HistoryRollup>, r: HistoryRollup)
    requires Voidable(s, AllIds(before)) && Voidable(s, r.entryIds) && forall id :: id in r.entryIds ==>
            id !in AllIds(before)
    requires Ready(s, r) && forall x :: x in before ==> x.replacement.reference != r.replacement.reference
    ensures Run(Applied(s, before), books, Voids(r.entryIds) + [PostEntry(r.replacement)]) == Applied(s, before + [r])
  {
    var u := Applied(s, before);
    VoidedAre(s.entries, AllIds(before));
    VoidsRun(u, books, r.entryIds);
    VoidedMore(s.entries, AllIds(before), r.entryIds, Totals(before));
    var t := u.(entries := VoidedAll(u.entries, r.entryIds));
    ReferenceStaysFree(s, before, r.replacement.reference.value);
    VoidedAre(u.entries, r.entryIds);
    forall i | 0 <= i < |t.entries| ensures !Holds(t.entries[i], Keyed(r.replacement.reference.value)) {
      assert !Holds(u.entries[i], Keyed(r.replacement.reference.value));
    }
    PostsReady(t, books, r.replacement);
    var cmds := Voids(r.entryIds) + [PostEntry(r.replacement)];
    assert cmds[..|cmds| - 1] == Voids(r.entryIds);
    assert (before + [r])[..|before|] == before;
    assert t.entries + [Posted(r.replacement)]
        == VoidedAll(s.entries, AllIds(before) + r.entryIds) + (Totals(before) + [Posted(r.replacement)]);
  }

  // ------------------------------------------------------------------ no money moves

  function EffectAt(entries: seq<Entry>, id: EntryId, a: AccountId, asOf: Date): Cents {
    if id < |entries| then Effect(entries[id], a, asOf) else 0
  }

  function EffectsOf(entries: seq<Entry>, ids: seq<EntryId>, a: AccountId, asOf: Date): Cents {
    Sum(ids, (id: EntryId) => EffectAt(entries, id, a, asOf))
  }

  /** Voiding entries takes their effects away. */
  lemma {:induction false} BalanceVoided(entries: seq<Entry>, ids: seq<EntryId>, a: AccountId, asOf: Date)
    requires Distinct(ids)
    ensures Balance(VoidedAll(entries, ids), a, asOf) == Balance(entries, a, asOf) - EffectsOf(entries, ids, a, asOf)
  {
    if ids != [] {
      var n := |ids| - 1;
      BalanceVoided(entries, ids[..n], a, asOf);
      VoidedAre(entries, ids[..n]);
      assert ids[n] !in ids[..n];
      if ids[n] < |entries| {
        var before := VoidedAll(entries, ids[..n]);
        BalanceChanged(before, ids[n], before[ids[n]].(isVoid := true), a, asOf);
      }
    }
  }

  lemma {:induction false} EffectsAfter(entries: seq<Entry>, ids: seq<EntryId>, a: AccountId, asOf: Date)
    requires forall id :: id in ids ==> id < |entries| && !entries[id].isVoid && entries[id].date <= asOf
    ensures EffectsOf(entries, ids, a, asOf) == On(LinesOf(entries, ids), a)
  {
    if ids != [] {
      var n := |ids| - 1;
      assert ids[n] in ids && forall id :: id in ids[..n] ==> id in ids;
      EffectsAfter(entries, ids[..n], a, asOf);
      OnConcat(LinesOf(entries, ids[..n]), LinesAt(entries, ids[n]), a);
    }
  }

  lemma EffectsBefore(entries: seq<Entry>, ids: seq<EntryId>, a: AccountId, asOf: Date)
    requires forall id :: id in ids ==> id < |entries| && asOf < entries[id].date
    ensures EffectsOf(entries, ids, a, asOf) == 0
  {
    SumZero(ids, (id: EntryId) => EffectAt(entries, id, a, asOf));
  }

  /** What a replacement's entries are. */
  lemma ReplacedEntries(entries: seq<Entry>, service: nat, frequency: Frequency, range: Window, r: HistoryRollup)
    requires frequency != PerEvent && Replaces(entries, service, frequency, range, r)
    ensures forall id :: id in r.entryIds ==>
              id < |entries| && IsHistory(service, entries[id], range) && r.period.Contains(entries[id].date)
    ensures r.period.start <= r.period.end
  {
    var periodOf := PeriodOfEntry(entries, frequency);
    HistoryIdsAre(entries, service, range);
    WithinOnly(HistoryIds(entries, service, range), periodOf, r.period);
    forall id | id in r.entryIds
      ensures id < |entries| && IsHistory(service, entries[id], range) && r.period.Contains(entries[id].date)
    {
      PeriodsTile(frequency, entries[id].date, entries[id].date);
    }
    assert r.entryIds[0] in r.entryIds;
  }

  /** A total puts on each account what its entries did, but inside its period. */
  lemma ReplacementBalances(entries: seq<Entry>, service: nat, frequency: Frequency, range: Window, r: HistoryRollup,
                            a: AccountId, asOf: Date)
    requires frequency != PerEvent && Replaces(entries, service, frequency, range, r)
    requires !(r.period.start <= asOf < r.period.end)
    ensures EffectsOf(entries, r.entryIds, a, asOf) == Effect(Posted(r.replacement), a, asOf)
  {
    ReplacedEntries(entries, service, frequency, range, r);
    hide IsHistory, PeriodOfEntry, HistoryIds, Within, Summed;
    if asOf < r.period.start {
      EffectsBefore(entries, r.entryIds, a, asOf);
    } else {
      HistoryIsLive(entries, service, range, r.entryIds);
      EffectsAfter(entries, r.entryIds, a, asOf);
      SummedKeepsTotals(LinesOf(entries, r.entryIds));
    }
  }

  lemma HistoryIsLive(entries: seq<Entry>, service: nat, range: Window, ids: seq<EntryId>)
    requires forall id :: id in ids ==> id < |entries| && IsHistory(service, entries[id], range)
    ensures forall id :: id in ids ==> !entries[id].isVoid
  {
  }

  lemma {:induction false} TotalsBalance(entries: seq<Entry>, service: nat, frequency: Frequency, range: Window,
                                         plan: seq<HistoryRollup>, a: AccountId, asOf: Date)
    requires frequency != PerEvent && forall r :: r in plan ==> Replaces(entries, service, frequency, range, r)
    requires forall r :: r in plan ==> !(r.period.start <= asOf < r.period.end)
    ensures Balance(Totals(plan), a, asOf) == EffectsOf(entries, AllIds(plan), a, asOf)
  {
    hide Replaces, Posted;
    if plan != [] {
      var n := |plan| - 1;
      var r := plan[n];
      assert r in plan && forall x :: x in plan[..n] ==> x in plan;
      TotalsBalance(entries, service, frequency, range, plan[..n], a, asOf);
      ReplacementBalances(entries, service, frequency, range, r, a, asOf);
      BalancePosted(Totals(plan[..n]), Posted(r.replacement), a, asOf);
      SumConcat(AllIds(plan[..n]), r.entryIds, (id: EntryId) => EffectAt(entries, id, a, asOf));
    }
  }

  /** A replacement is a valid entry whenever the entries it replaces are. */
  lemma ReplacementIsSound(s: State, books: Books, service: nat, frequency: Frequency, range: Window, r: HistoryRollup)
    requires Inv(s, books) && frequency != PerEvent && Replaces(s.entries, service, frequency, range, r)
    ensures Sound(Posting(r.replacement))
    ensures CheckedTotal(r.replacement.lines).Some? ==> CheckEntryPure(r.replacement).None?
  {
    ReplacedEntries(s.entries, service, frequency, range, r);
    EntriesBalance(s, books, r.entryIds);
    BalancedSumIsSound(LinesOf(s.entries, r.entryIds));
    CheckedTotalIsTotal(r.replacement.lines);
  }

  lemma {:induction false} EntriesBalance(s: State, books: Books, ids: seq<EntryId>)
    requires Inv(s, books) && forall id :: id in ids ==> id < |s.entries|
    ensures Total(LinesOf(s.entries, ids)) == 0
  {
    if ids != [] {
      var n := |ids| - 1;
      assert ids[n] in ids && forall id :: id in ids[..n] ==> id in ids;
      EntriesBalance(s, books, ids[..n]);
      assert EntryOk(s.entries[ids[n]], ids[n], |s.accounts|);
      TotalConcat(LinesOf(s.entries, ids[..n]), s.entries[ids[n]].lines);
    }
  }

  /** The books accept a plan: totals in range, on accounts in use, in open years, periods not posted
      yet; and no entry of the service poses as a closing entry. */
  ghost predicate Accepts(s: State, plan: seq<HistoryRollup>) {
    && (forall r :: r in plan ==>
          && CheckedTotal(r.replacement.lines).Some?
          && Usable(s, AccountsOf(r.replacement.lines))
          && !FencedOn(s, r.period.end)
          && r.replacement.reference.Some? && Holder(s.entries, Keyed(r.replacement.reference.value)).None?)
    && (forall id :: id in AllIds(plan) ==> id < |s.entries| ==> s.entries[id].source != Some(Closing))
  }

  lemma PlanIsVoidable(s: State, service: nat, frequency: Frequency, range: Window)
    requires Accepts(s, PlanHistory(s.entries, service, frequency, range))
    ensures Voidable(s, AllIds(PlanHistory(s.entries, service, frequency, range)))
  {
    var plan := PlanHistory(s.entries, service, frequency, range);
    hide PlanHistory, HistoryIds, Within, PeriodOfEntry;
    PlanReplaces(s.entries, service, frequency, range);
    forall id | id in AllIds(plan) ensures id < |s.entries| && IsHistory(service, s.entries[id], range) {
      InAllIds(plan, id);
      var r :| r in plan && id in r.entryIds;
      NoPlanPerEvent(s.entries, service, frequency, range, r);
      ReplacedEntries(s.entries, service, frequency, range, r);
    }
  }

  lemma NoPlanPerEvent(entries: seq<Entry>, service: nat, frequency: Frequency, range: Window, r: HistoryRollup)
    requires r in PlanHistory(entries, service, frequency, range)
    ensures frequency != PerEvent
  {
  }

  /** Rolling up history moves no money. Accepted, the plan's commands all go through; afterwards
      every account has the balance it had, on every day not strictly inside a period rolled up. */
  lemma {:induction false} HistoryRollupMovesNothing(s: State, books: Books, service: nat, frequency: Frequency,
                                                     range: Window, a: AccountId, asOf: Date)
    requires Inv(s, books) && Accepts(s, PlanHistory(s.entries, service, frequency, range))
    requires forall r :: r in PlanHistory(s.entries, service, frequency, range) ==>
                           !(r.period.start <= asOf < r.period.end)
    ensures var plan := PlanHistory(s.entries, service, frequency, range);
            var t := Run(s, books, Apply(plan));
            && t == Applied(s, plan)
            && Balance(t.entries, a, asOf) == Balance(s.entries, a, asOf)
  {
    var plan := PlanHistory(s.entries, service, frequency, range);
    PlanApplies(s, books, service, frequency, range);
    PlanIsVoidable(s, service, frequency, range);
    PlanReplaces(s.entries, service, frequency, range);
    hide Run, Replaces, Accepts, HistoryGroups, HistoryIds, Within, PeriodOfEntry;
    BalanceVoided(s.entries, AllIds(plan), a, asOf);
    SumConcat(VoidedAll(s.entries, AllIds(plan)), Totals(plan), (e: Entry) => Effect(e, a, asOf));
    if frequency != PerEvent {
      TotalsBalance(s.entries, service, frequency, range, plan, a, asOf);
    }
  }

  lemma PlanApplies(s: State, books: Books, service: nat, frequency: Frequency, range: Window)
    requires Inv(s, books) && Accepts(s, PlanHistory(s.entries, service, frequency, range))
    ensures var plan := PlanHistory(s.entries, service, frequency, range);
            Run(s, books, Apply(plan)) == Applied(s, plan)
  {
    var plan := PlanHistory(s.entries, service, frequency, range);
    PlanIsVoidable(s, service, frequency, range);
    PlanReplaces(s.entries, service, frequency, range);
    hide PlanHistory, HistoryIds, Within, PeriodOfEntry, Run, Applied, Inv, Voidable;
    forall r | r in plan ensures Ready(s, r) {
      NoPlanPerEvent(s.entries, service, frequency, range, r);
      ReplacementIsSound(s, books, service, frequency, range, r);
    }
    assert forall i :: 0 <= i < |plan| ==> plan[i] in plan;
    ApplyRuns(s, books, plan);
  }

  // ------------------------------------------------------------------ planning again

  /** No plan, at any frequency or over any range, takes in a period's total. */
  lemma TotalsAreNeverRolledUp(entries: seq<Entry>, service: nat, frequency: Frequency, range: Window, id: EntryId)
    requires id < |entries| && entries[id].reference.Some? && entries[id].reference.value.Keyed?
             && entries[id].reference.value.key.RollupKey?
    ensures id !in AllIds(PlanHistory(entries, service, frequency, range))
  {
    var plan := PlanHistory(entries, service, frequency, range);
    InAllIds(plan, id);
    PlanReplaces(entries, service, frequency, range);
    hide PlanHistory, HistoryIds, Within, PeriodOfEntry, Replaces;
    if r :| r in plan && id in r.entryIds {
      NoPlanPerEvent(entries, service, frequency, range, r);
      ReplacedEntries(entries, service, frequency, range, r);
      assert false;
    }
  }

  /** What is left to roll up after a plan: the history it did not replace. */
  lemma HistoryLeft(s: State, service: nat, frequency: Frequency, range: Window, again: Window, id: EntryId)
    ensures var plan := PlanHistory(s.entries, service, frequency, range);
            id in HistoryIds(Applied(s, plan).entries, service, again) <==>
              (id in HistoryIds(s.entries, service, again) && id !in AllIds(plan))
  {
    var plan := PlanHistory(s.entries, service, frequency, range);
    var after := Applied(s, plan).entries;
    HistoryIdsAre(s.entries, service, again);
    HistoryIdsAre(after, service, again);
    VoidedAre(s.entries, AllIds(plan));
    TotalsAre(plan);
    PlanReplaces(s.entries, service, frequency, range);
    hide PlanHistory, HistoryIds, Within, PeriodOfEntry;
    if |s.entries| <= id < |after| {
      assert after[id] == Posted(plan[id - |s.entries|].replacement);
      assert plan[id - |s.entries|] in plan;
    }
  }

  lemma {:induction false} KeyTotalOf(entries: seq<Entry>, ids: seq<EntryId>, key: Line)
    ensures KeyTotal(LinesOf(entries, ids), key) == Sum(ids, (id: EntryId) => KeyTotal(LinesAt(entries, id), key))
  {
    if ids != [] {
      var n := |ids| - 1;
      KeyTotalOf(entries, ids[..n], key);
      SumConcat(LinesOf(entries, ids[..n]), LinesAt(entries, ids[n]), (l: Line) => CellOn(l, key));
    }
  }

  /** What entries sum to depends neither on their order nor on what else became of the books. */
  lemma {:induction false} SummedAlike(entries: seq<Entry>, after: seq<Entry>, ids: seq<EntryId>, again: seq<EntryId>)
    requires multiset(ids) == multiset(again) && forall id :: id in again ==> LinesAt(after, id) == LinesAt(entries, id)
    ensures Summed(LinesOf(after, again)) == Summed(LinesOf(entries, ids))
  {
    SummedKeepsTotals(LinesOf(entries, ids));
    SummedKeepsTotals(LinesOf(after, again));
    forall key ensures KeyTotal(Summed(LinesOf(after, again)), key) == KeyTotal(Summed(LinesOf(entries, ids)), key) {
      KeyTotalOf(entries, ids, key);
      KeyTotalOf(after, again, key);
      SumSame(again, (id: EntryId) => KeyTotal(LinesAt(after, id), key),
              (id: EntryId) => KeyTotal(LinesAt(entries, id), key));
      SumPermutation(ids, again, (id: EntryId) => KeyTotal(LinesAt(entries, id), key));
    }
    TotalsTellLines(Summed(LinesOf(after, again)), Summed(LinesOf(entries, ids)));
  }

  lemma {:induction false} WithinDistinct<T>(xs: seq<T>, periodOf: T -> Period, period: Period)
    requires Distinct(xs)
    ensures Distinct(Within(xs, periodOf, period))
  {
    WithinOnly(xs, periodOf, period);
    DistinctCounts(xs);
    FewerCounts(Within(xs, periodOf, period), xs);
  }

  /** Of a period with history left, nothing was replaced. */
  lemma {:induction false} LeftPeriodIsWhole(s: State, service: nat, frequency: Frequency, range: Window, id: EntryId,
                                             other: EntryId)
    requires frequency != PerEvent
    requires var plan := PlanHistory(s.entries, service, frequency, range);
             id in HistoryIds(s.entries, service, range) && id !in AllIds(plan)
    requires other in HistoryIds(s.entries, service, range)
    requires PeriodOfEntry(s.entries, frequency)(other) == PeriodOfEntry(s.entries, frequency)(id)
    ensures var periodOf := PeriodOfEntry(s.entries, frequency);
            Summed(LinesOf(s.entries, Within(HistoryIds(s.entries, service, range), periodOf, periodOf(id)))) == []
    ensures other !in AllIds(PlanHistory(s.entries, service, frequency, range))
  {
    var plan := PlanHistory(s.entries, service, frequency, range);
    var periodOf, ids := PeriodOfEntry(s.entries, frequency), HistoryIds(s.entries, service, range);
    PlanReplaces(s.entries, service, frequency, range);
    HistoryIdsAre(s.entries, service, range);
    WithinOnly(ids, periodOf, periodOf(id));
    hide PlanHistory, HistoryIds, Within, PeriodOfEntry, Summed, LinesOf, IsHistory;
    InAllIds(plan, id);
    InAllIds(plan, other);
    if r :| r in plan && other in r.entryIds {
      WithinOnly(ids, periodOf, r.period);
    }
  }

  /** Planning again over the same range finds nothing: a plan is finished in one go. */
  lemma PlanningAgainFindsNothing(s: State, service: nat, frequency: Frequency, range: Window)
    ensures var plan := PlanHistory(s.entries, service, frequency, range);
            PlanHistory(Applied(s, plan).entries, service, frequency, range) == []
  {
    var plan := PlanHistory(s.entries, service, frequency, range);
    var after := Applied(s, plan).entries;
    var again := PlanHistory(after, service, frequency, range);
    if again != [] {
      var r := again[0];
      assert r in again;
      PlanReplaces(after, service, frequency, range);
      NoPlanPerEvent(after, service, frequency, range, r);
      NothingLeft(s, service, frequency, range, r);
    }
  }

  lemma NothingLeft(s: State, service: nat, frequency: Frequency, range: Window, r: HistoryRollup)
    requires frequency != PerEvent
    ensures !Replaces(Applied(s, PlanHistory(s.entries, service, frequency, range)).entries, service, frequency,
                      range, r)
  {
    var plan := PlanHistory(s.entries, service, frequency, range);
    var after := Applied(s, plan).entries;
    var ids, left := HistoryIds(s.entries, service, range), HistoryIds(after, service, range);
    var was, now := PeriodOfEntry(s.entries, frequency), PeriodOfEntry(after, frequency);
    forall id
      ensures id in left ==>
                id in ids && id !in AllIds(plan) && now(id) == was(id) && LinesAt(after, id) == LinesAt(s.entries, id)
    {
      HistoryLeft(s, service, frequency, range, range, id);
      HistoryIdsAre(s.entries, service, range);
      VoidedAre(s.entries, AllIds(plan));
    }
    WithinOnly(left, now, r.period);
    WithinOnly(ids, was, r.period);
    HistoryIdsAre(s.entries, service, range);
    HistoryIdsAre(after, service, range);
    WithinDistinct(left, now, r.period);
    WithinDistinct(ids, was, r.period);
    hide PlanHistory, HistoryIds, Within, PeriodOfEntry, Summed, LinesOf, IsHistory, Applied, AllIds, LinesAt;
    if Replaces(after, service, frequency, range, r) {
      var first := r.entryIds[0];
      assert first in r.entryIds;
      forall id ensures id in Within(ids, was, r.period) <==> id in r.entryIds {
        if id in Within(ids, was, r.period) {
          LeftPeriodIsWhole(s, service, frequency, range, first, id);
          HistoryLeft(s, service, frequency, range, range, id);
        }
      }
      LeftPeriodIsWhole(s, service, frequency, range, first, first);
      SameDistinct(Within(ids, was, r.period), r.entryIds);
      SummedAlike(s.entries, after, Within(ids, was, r.period), r.entryIds);
    }
  }
}
