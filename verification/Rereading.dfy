/** A service's history replaced by totals, and its events then read again. */
module Rereading {
  import opened Options
  import opened Sums
  import opened Calendar
  import opened Ledger
  import opened Commands
  import opened Invariants
  import opened Runs
  import opened Rollups
  import opened Counting
  import opened Grouping
  import opened Syncs
  import opened SyncRuns
  import H = HistoryRollups

  // ------------------------------------------------------------------ the service's balance

  function WeightAt(entries: seq<Entry>, id: EntryId, f: Entry -> Cents): Cents {
    if id < |entries| then f(entries[id]) else 0
  }

  /** Voiding entries takes away what they weigh, where void entries weigh nothing. */
  lemma {:induction false} VoidingTakesAway(entries: seq<Entry>, ids: seq<EntryId>, f: Entry -> Cents)
    requires Distinct(ids) && forall e: Entry :: e.isVoid ==> f(e) == 0
    ensures Sum(H.VoidedAll(entries, ids), f) == Sum(entries, f) - Sum(ids, (id: EntryId) => WeightAt(entries, id, f))
  {
    if ids != [] {
      var n := |ids| - 1;
      VoidingTakesAway(entries, ids[..n], f);
      H.VoidedAre(entries, ids[..n]);
      assert ids[n] !in ids[..n];
      if ids[n] < |entries| {
        var before := H.VoidedAll(entries, ids[..n]);
        SumUpdate(before, ids[n], before[ids[n]].(isVoid := true), f);
      }
    }
  }

  /** A total puts on an account what the entries it replaces did. */
  lemma {:induction false} LinesAreOurs(v: Service, entries: seq<Entry>, ids: seq<EntryId>, range: Window, a: AccountId)
    requires forall id :: id in ids ==> id < |entries| && H.IsHistory(v.id, entries[id], range)
    ensures Sum(ids, (id: EntryId) => WeightAt(entries, id, (e: Entry) => OursOn(v, e, a)))
         == On(H.LinesOf(entries, ids), a)
  {
    if ids != [] {
      var n := |ids| - 1;
      assert ids[n] in ids && forall id :: id in ids[..n] ==> id in ids;
      LinesAreOurs(v, entries, ids[..n], range, a);
      HistoryIsOurs(v, entries, ids[n], range, a);
      hide On, OursOn, WeightAt, H.LinesAt, H.IsHistory;
      OnConcat(H.LinesOf(entries, ids[..n]), H.LinesAt(entries, ids[n]), a);
      var weight := (id: EntryId) => WeightAt(entries, id, (e: Entry) => OursOn(v, e, a));
      SumAppend(ids[..n], ids[n], weight);
      assert ids[..n] + [ids[n]] == ids;
    }
  }

  lemma HistoryIsOurs(v: Service, entries: seq<Entry>, id: EntryId, range: Window, a: AccountId)
    requires id < |entries| && H.IsHistory(v.id, entries[id], range)
    ensures WeightAt(entries, id, (e: Entry) => OursOn(v, e, a)) == On(H.LinesAt(entries, id), a)
  {
    hide On;
  }

  lemma TotalIsOurs(v: Service, entries: seq<Entry>, frequency: Frequency, range: Window, r: H.HistoryRollup,
                    a: AccountId)
    requires frequency != PerEvent && H.Replaces(entries, v.id, frequency, range, r)
    ensures Sum(r.entryIds, (id: EntryId) => WeightAt(entries, id, (e: Entry) => OursOn(v, e, a)))
         == OursOn(v, Posted(r.replacement), a)
  {
    H.ReplacedEntries(entries, v.id, frequency, range, r);
    LinesAreOurs(v, entries, r.entryIds, range, a);
    SummedKeepsTotals(H.LinesOf(entries, r.entryIds));
  }

  lemma {:induction false} TotalsAreOurs(v: Service, entries: seq<Entry>, frequency: Frequency, range: Window,
                                         plan: seq<H.HistoryRollup>, a: AccountId)
    requires frequency != PerEvent && forall r :: r in plan ==> H.Replaces(entries, v.id, frequency, range, r)
    ensures Sum(H.Totals(plan), (e: Entry) => OursOn(v, e, a))
         == Sum(H.AllIds(plan), (id: EntryId) => WeightAt(entries, id, (e: Entry) => OursOn(v, e, a)))
  {
    hide H.Replaces, Posted;
    if plan != [] {
      var n := |plan| - 1;
      assert plan[n] in plan && forall x :: x in plan[..n] ==> x in plan;
      TotalsAreOurs(v, entries, frequency, range, plan[..n], a);
      TotalIsOurs(v, entries, frequency, range, plan[n], a);
      SumAppend(H.Totals(plan[..n]), Posted(plan[n].replacement), (e: Entry) => OursOn(v, e, a));
      SumConcat(H.AllIds(plan[..n]), plan[n].entryIds,
                (id: EntryId) => WeightAt(entries, id, (e: Entry) => OursOn(v, e, a)));
    }
  }

  /** Replacing history leaves what the service's entries hold as it was. */
  lemma {:induction false} ReplacingKeepsBalance(v: Service, s: State, frequency: Frequency, range: Window,
                                                 a: AccountId)
    ensures ServiceBalance(v, H.Applied(s, H.PlanHistory(s.entries, v.id, frequency, range)), a)
         == ServiceBalance(v, s, a)
  {
    var plan := H.PlanHistory(s.entries, v.id, frequency, range);
    H.PlanReplaces(s.entries, v.id, frequency, range);
    var f := (e: Entry) => OursOn(v, e, a);
    hide H.HistoryGroups, H.Replaces, H.HistoryIds, H.PeriodOfEntry, H.Replacements;
    VoidingTakesAway(s.entries, H.AllIds(plan), f);
    SumConcat(H.VoidedAll(s.entries, H.AllIds(plan)), H.Totals(plan), f);
    if frequency != PerEvent {
      TotalsAreOurs(v, s.entries, frequency, range, plan, a);
    }
  }

  // ------------------------------------------------------------------ the references

  /** The plan replaces a period's history. */
  ghost predicate ReplacesPeriod(plan: seq<H.HistoryRollup>, period: Period) {
    exists r :: r in plan && r.period == period
  }

  lemma {:induction false} HistoryOnly(s: State, service: nat, frequency: Frequency, range: Window, id: EntryId)
    requires id in H.AllIds(H.PlanHistory(s.entries, service, frequency, range))
    ensures frequency != PerEvent && id < |s.entries| && H.IsHistory(service, s.entries[id], range)
    ensures exists r :: r in H.PlanHistory(s.entries, service, frequency, range) && id in r.entryIds
                        && H.Replaces(s.entries, service, frequency, range, r)
  {
    var plan := H.PlanHistory(s.entries, service, frequency, range);
    H.InAllIds(plan, id);
    H.PlanReplaces(s.entries, service, frequency, range);
    hide H.PlanHistory, H.Replaces, H.IsHistory;
    var r :| r in plan && id in r.entryIds;
    H.NoPlanPerEvent(s.entries, service, frequency, range, r);
    H.ReplacedEntries(s.entries, service, frequency, range, r);
  }

  /** An entry after a plan: an old one, void if it was replaced, or a total. */
  lemma EntryAfter(s: State, plan: seq<H.HistoryRollup>, i: EntryId)
    requires i < |H.Applied(s, plan).entries|
    ensures i < |s.entries| ==>
              H.Applied(s, plan).entries[i] == if i in H.AllIds(plan) then s.entries[i].(isVoid := true)
              else s.entries[i]
    ensures |s.entries| <= i ==>
              i - |s.entries| < |plan| && H.Applied(s, plan).entries[i] == Posted(plan[i - |s.entries|].replacement)
  {
    H.VoidedAre(s.entries, H.AllIds(plan));
    H.TotalsAre(plan);
  }

  lemma RollupNamed(s: State, service: nat, frequency: Frequency, range: Window, r: H.HistoryRollup)
    requires r in H.PlanHistory(s.entries, service, frequency, range)
    ensures r.replacement.reference == Some(RollupKey(service, r.period))
  {
    H.PlanReplaces(s.entries, service, frequency, range);
  }

  /** A period's reference is held afterwards if it was, or if the plan totalled the period. */
  lemma {:induction false} PeriodHeld(s: State, service: nat, frequency: Frequency, range: Window, period: Period)
    ensures var plan := H.PlanHistory(s.entries, service, frequency, range);
            Held(H.Applied(s, plan), RollupKey(service, period))
            <==> Held(s, RollupKey(service, period)) || ReplacesPeriod(plan, period)
  {
    var plan := H.PlanHistory(s.entries, service, frequency, range);
    var t, key := H.Applied(s, plan), RollupKey(service, period);
    hide H.PlanHistory, H.Applied, H.AllIds;
    if Held(t, key) {
      var i := Holder(t.entries, Keyed(key)).value;
      EntryAfter(s, plan, i);
      if |s.entries| <= i {
        var r := plan[i - |s.entries|];
        assert r in plan;
        RollupNamed(s, service, frequency, range, r);
      }
    }
    if Held(s, key) {
      var i := Holder(s.entries, Keyed(key)).value;
      assert i !in H.AllIds(plan) by { if i in H.AllIds(plan) { HistoryOnly(s, service, frequency, range, i); } }
      StillThere(s, plan, i);
    }
    if r :| r in plan && r.period == period {
      RollupNamed(s, service, frequency, range, r);
      TotalHolds(s, plan, r);
    }
  }

  lemma StillThere(s: State, plan: seq<H.HistoryRollup>, i: EntryId)
    requires i < |s.entries| && i !in H.AllIds(plan)
    ensures i < |H.Applied(s, plan).entries| && H.Applied(s, plan).entries[i] == s.entries[i]
  {
    H.VoidedAre(s.entries, H.AllIds(plan));
  }

  lemma TotalHolds(s: State, plan: seq<H.HistoryRollup>, r: H.HistoryRollup)
    requires r in plan && r.replacement.reference.Some?
    ensures Held(H.Applied(s, plan), r.replacement.reference.value)
  {
    H.TotalsAre(plan);
    var k :| 0 <= k < |plan| && plan[k] == r;
    assert Holds(H.Applied(s, plan).entries[|s.entries| + k], Keyed(r.replacement.reference.value));
  }

  /** A replaced event's own reference is free again. */
  lemma {:induction false} OwnReferenceIsFreed(s: State, service: nat, frequency: Frequency, range: Window,
                                               id: EntryId, event: nat)
    requires UniqueReferences(s.entries)
    requires id in H.AllIds(H.PlanHistory(s.entries, service, frequency, range))
    requires id < |s.entries| && s.entries[id].reference == Some(Keyed(ServiceKey(service, event)))
    ensures !Held(H.Applied(s, H.PlanHistory(s.entries, service, frequency, range)), ServiceKey(service, event))
  {
    var plan := H.PlanHistory(s.entries, service, frequency, range);
    HistoryOnly(s, service, frequency, range, id);
    var t, key := H.Applied(s, plan), ServiceKey(service, event);
    hide H.PlanHistory, H.Applied, H.AllIds, H.Replaces;
    if Held(t, key) {
      var i := Holder(t.entries, Keyed(key)).value;
      EntryAfter(s, plan, i);
      if |s.entries| <= i {
        assert plan[i - |s.entries|] in plan;
        RollupNamed(s, service, frequency, range, plan[i - |s.entries|]);
      } else {
        HolderIsUnique(s.entries, Keyed(key), i);
        HolderIsUnique(s.entries, Keyed(key), id);
      }
    }
  }

  // ------------------------------------------------------------------ reading an event again

  lemma HeldOnOne(v: Service, e: RemoteEvent, s: State, a: AccountId)
    ensures EventsOn(v, [e], a) == PlanOn(v, e, a)
    ensures HeldOn(v, [e], s, a) == if Held(s, KeyFor(v, e)) then PlanOn(v, e, a) else 0
  {
    hide Held, KeyFor, PlanOn;
    SumAppend([], e, (x: RemoteEvent) => PlanOn(v, x, a));
    SumAppend([], e, AtKeys(KeyOf(v), HeldIn(s), Money(v, a)));
    assert [] + [e] == [e];
  }

  /** What an event whose entry was replaced brings when it is read again without trouble: nothing if it rolls up
      and its period has a total; otherwise its money once more, beside the total it is in. */
  lemma {:induction false} ReplacedEventReread(v: Service, books: Books, s: State, frequency: Frequency, range: Window,
                                               id: EntryId,
                                               today: Date, e: RemoteEvent, a: AccountId)
    requires Inv(s, books) && Faithful(v) && SalesAreEntries(v)
    requires id in H.AllIds(H.PlanHistory(s.entries, v.id, frequency, range))
    requires id < |s.entries| && s.entries[id].reference == Some(Keyed(ServiceKey(v.id, e.id)))
    ensures var plan := H.PlanHistory(s.entries, v.id, frequency, range);
            var t, sync := H.Applied(s, plan), ServiceSync(v, today, [e]);
            var found := Rolls(v, e) && (Held(s, KeyFor(v, e)) || ReplacesPeriod(plan, PeriodFor(v, e)));
            sync.held == 0 && sync.failed == [] && Troubles(t, books, CommandsFor(sync)) == 0 ==>
              ServiceBalance(v, Run(t, books, CommandsFor(sync)), a) == ServiceBalance(v, s, a) + if found then 0
              else PlanOn(v, e, a)
  {
    hide *;
    var t := H.Applied(s, H.PlanHistory(s.entries, v.id, frequency, range));
    HeldAfter(s, books, v, frequency, range, id, e);
    ReplacingKeepsBalance(v, s, frequency, range, a);
    HeldOnOne(v, e, t, a);
    DistinctAlone(e);
    CleanSyncBrings(v, books, today, t, [e], a);
    assert [e][..1] == [e];
  }

  lemma DistinctAlone(e: RemoteEvent)
    ensures DistinctIds([e])
  {
  }

  lemma HeldAfter(s: State, books: Books, v: Service, frequency: Frequency, range: Window, id: EntryId, e: RemoteEvent)
    requires Inv(s, books) && id in H.AllIds(H.PlanHistory(s.entries, v.id, frequency, range))
    requires id < |s.entries| && s.entries[id].reference == Some(Keyed(ServiceKey(v.id, e.id)))
    ensures var plan := H.PlanHistory(s.entries, v.id, frequency, range);
            Held(H.Applied(s, plan), KeyFor(v, e))
            <==> Rolls(v, e) && (Held(s, KeyFor(v, e)) || ReplacesPeriod(plan, PeriodFor(v, e)))
  {
    hide H.PlanHistory, H.Applied, H.AllIds, Held, PeriodFor, Rolls, InvBut;
    InvIsUniqueHere(s, books);
    OwnReferenceIsFreed(s, v.id, frequency, range, id, e.id);
    if Rolls(v, e) {
      PeriodHeld(s, v.id, frequency, range, PeriodFor(v, e));
    }
  }

  lemma InvIsUniqueHere(s: State, books: Books)
    requires Inv(s, books)
    ensures UniqueReferences(s.entries)
  {
  }

  /** The total is found where the code means it to be: the event rolls up, at the frequency of the plan, and is
      dated as its entry was. */
  lemma {:induction false} SameFrequencyFindsTheTotal(v: Service, s: State, range: Window, id: EntryId, e: RemoteEvent)
    requires id in H.AllIds(H.PlanHistory(s.entries, v.id, v.frequency, range))
    requires id < |s.entries| && e.date == Some(s.entries[id].date) && Rolls(v, e)
    ensures ReplacesPeriod(H.PlanHistory(s.entries, v.id, v.frequency, range), PeriodFor(v, e))
  {
    var plan := H.PlanHistory(s.entries, v.id, v.frequency, range);
    HistoryOnly(s, v.id, v.frequency, range, id);
    hide H.PlanHistory, H.IsHistory, H.HistoryIds, H.LinesOf;
    var r :| r in plan && id in r.entryIds && H.Replaces(s.entries, v.id, v.frequency, range, r);
    WithinHere(s.entries, v, range, r, id);
  }

  lemma WithinHere(entries: seq<Entry>, v: Service, range: Window, r: H.HistoryRollup, id: EntryId)
    requires H.Replaces(entries, v.id, v.frequency, range, r) && id in r.entryIds
    ensures r.period == H.PeriodOfEntry(entries, v.frequency)(id)
  {
    WithinOnly(H.HistoryIds(entries, v.id, range), H.PeriodOfEntry(entries, v.frequency), r.period);
  }
}
