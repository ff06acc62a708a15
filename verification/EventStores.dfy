/** The append-only store and the loop every command runs against it: read the head, check under
    the write lock, append and project, start over if the head moved. */
module EventStores {
  import opened Options
  import opened Ledger
  import opened Commands
  import opened Runs

  datatype Outcome =
    | Appended(events: seq<Event>)
    | HeadMismatch(expected: nat, actual: nat)
    | Rejected(error: Error)
    | StoreError

  class EventStore {
    var log: seq<Event>
    /** The projection tables. */
    var tables: State

    constructor ()
      ensures Valid() && log == [] && tables == EMPTY
    {
      log, tables := [], EMPTY;
    }

    /** The tables are the fold of the log. */
    ghost predicate Valid()
      reads this
    {
      Record(EMPTY, log) == Some(tables)
    }

    method LatestId() returns (head: nat)
      ensures head == |log|
    {
      head := |log|;
    }

    /** `append_checked_many`: one transaction that compares the head, runs the check on the tables
        as they are, inserts and projects each event, and commits all of it or none. */
    method AppendChecked(expected: nat, check: State -> Verdict) returns (outcome: Outcome)
      requires Valid()
      modifies this
      ensures Valid()
      ensures outcome == OutcomeOf(old(log), old(tables), expected, check(old(tables)))
      ensures outcome.Appended? ==>
                log == old(log) + outcome.events && Some(tables) == Record(old(tables), outcome.events)
      ensures !outcome.Appended? ==> log == old(log) && tables == old(tables)
    {
      hide Project, Sound;
      if |log| != expected {
        return HeadMismatch(expected, |log|);
      }
      var verdict := check(tables);
      if verdict.Reject? {
        return Rejected(verdict.error);
      }
      var events := verdict.events;
      var pending := tables;
      var i := 0;
      while i < |events|
        invariant 0 <= i <= |events|
        invariant Record(tables, events[..i]) == Some(pending)
        invariant log == old(log) && tables == old(tables)
      {
        assert events[..i + 1][..i] == events[..i];
        var next := if Sound(events[i]) then Project(pending, events[i]) else None;
        if next.None? {
          FailureSpreads(tables, events, i + 1);
          return StoreError;
        }
        pending := next.value;
        i := i + 1;
      }
      assert events[..i] == events;
      RecordConcat(EMPTY, log, events);
      log, tables := log + events, pending;
      outcome := Appended(events);
    }
  }

  /** What a transaction decides, as a function of what it found. */
  function OutcomeOf(log: seq<Event>, tables: State, expected: nat, verdict: Verdict): Outcome {
    if |log| != expected then HeadMismatch(expected, |log|)
    else if verdict.Reject? then Rejected(verdict.error)
    else if Record(tables, verdict.events).None? then StoreError
    else Appended(verdict.events)
  }

  lemma {:induction false} FailureSpreads(s: State, events: seq<Event>, n: nat)
    requires n <= |events| && Record(s, events[..n]).None?
    ensures Record(s, events).None?
    decreases |events| - n
  {
    if n < |events| {
      assert events[..n + 1][..n] == events[..n];
      FailureSpreads(s, events, n + 1);
    } else {
      assert events[..n] == events;
    }
  }

  /** How many rival commands, run one after another from `s`, append something. */
  function Landed(s: State, books: Books, rivals: seq<Command>): nat {
    if rivals == [] then 0
    else
      var before := Run(s, books, rivals[..|rivals| - 1]);
      Landed(s, books, rivals[..|rivals| - 1])
      + (if Lands(before, books, rivals[|rivals| - 1]) then 1 else 0)
  }

  /** A command that appends at least one event. */
  predicate Lands(s: State, books: Books, cmd: Command) {
    var verdict := Build(s, books, cmd);
    verdict.Append? && verdict.events != [] && Record(s, verdict.events).Some?
  }

  /** One turn of a command's loop, on the head it has read: nothing if the store has moved on, and else the
      command's step. The log grows only by a command that appends. */
  method TryOnce(store: EventStore, books: Books, cmd: Command, head: nat) returns (outcome: Outcome)
    requires store.Valid()
    modifies store
    ensures store.Valid()
    ensures outcome == OutcomeOf(old(store.log), old(store.tables), head, Build(old(store.tables), books, cmd))
    ensures outcome.HeadMismatch? <==> head != |old(store.log)|
    ensures store.tables == if outcome.HeadMismatch? then old(store.tables) else Step(old(store.tables), books, cmd)
    ensures |old(store.log)| <= |store.log|
    ensures |old(store.log)| < |store.log| ==> Lands(old(store.tables), books, cmd)
  {
    hide Build, Project;
    outcome := store.AppendChecked(head, s => Build(s, books, cmd));
  }

  /** A command's loop, while rival connections run commands of their own between its reading the
      head and its append. It decides on exactly the books it extends, and starts over no more often
      than rivals appended something. */
  method Submit(store: EventStore, books: Books, cmd: Command, rivals: seq<Command>)
    returns (outcome: Outcome, retries: nat, passed: nat)
    requires store.Valid()
    modifies store
    ensures store.Valid()
    ensures passed <= |rivals|
    ensures retries <= Landed(old(store.tables), books, rivals[..passed])
    ensures var found := Run(old(store.tables), books, rivals[..passed]);
            && store.tables == Step(found, books, cmd)
            && outcome == OutcomeOf([], found, 0, Build(found, books, cmd))
  {
    hide Build, Step, Lands, Record;
    retries, passed := 0, 0;
    assert rivals[..0] == [];
    while true
      invariant store.Valid()
      invariant 0 <= passed <= |rivals|
      invariant store.tables == Run(old(store.tables), books, rivals[..passed])
      invariant retries <= Landed(old(store.tables), books, rivals[..passed])
      decreases |rivals| - passed
    {
      var head := store.LatestId();
      ghost var start, found := passed, store.tables;
      while passed < |rivals|
        invariant store.Valid()
        invariant start <= passed <= |rivals|
        invariant store.tables == Run(old(store.tables), books, rivals[..passed])
        invariant head <= |store.log|
        invariant start == passed ==> head == |store.log|
        invariant retries + (if head < |store.log| then 1 else 0) <= Landed(old(store.tables), books, rivals[..passed])
      {
        if * { break; }
        var rival := rivals[passed];
        assert rivals[..passed + 1][..passed] == rivals[..passed];
        var theirs := store.LatestId();
        var _ := TryOnce(store, books, rival, theirs);
        passed := passed + 1;
      }
      outcome := TryOnce(store, books, cmd, head);
      if !outcome.HeadMismatch? {
        return;
      }
      retries := retries + 1;
    }
  }
}
