/** Any number of clients, each holding a head that may be stale, against one store. */
module Concurrency {
  import opened Options
  import opened Ledger
  import opened Commands
  import opened Invariants
  import opened Runs
  import opened EventStores

  /** Where a client's loop stands. `since` and `at` count the batches in the store when it began
      and when it last read the head. */
  datatype Client =
    | Idle
    | Starting(cmd: Command, retries: nat, since: nat)
    | Holding(cmd: Command, retries: nat, since: nat, head: nat, at: nat)

  /** A batch that was appended: whose command it was, and its events. */
  datatype Batch = Batch(client: nat, cmd: Command, events: seq<Event>)

  datatype System = System(log: seq<Event>, tables: State, batches: seq<Batch>, clients: map<nat, Client>)

  function ClientOf(y: System, c: nat): Client {
    if c in y.clients then y.clients[c] else Idle
  }

  function Update(y: System, c: nat, client: Client): System {
    y.(clients := y.clients[c := client])
  }

  /** One client's move: begin a command, read the head, or try to append under the write lock. */
  ghost predicate Move(y: System, z: System, books: Books, c: nat) {
    match ClientOf(y, c)
    case Idle => exists cmd :: Lawful(books, cmd) && z == Update(y, c, Starting(cmd, 0, |y.batches|))
    case Starting(cmd, retries, since) => z == Update(y, c, Holding(cmd, retries, since, |y.log|, |y.batches|))
    case Holding(cmd, retries, since, head, _) =>
      var outcome := OutcomeOf(y.log, y.tables, head, Build(y.tables, books, cmd));
      match outcome
      case HeadMismatch(_, _) => z == Update(y, c, Starting(cmd, retries + 1, since))
      case Appended(events) =>
        z == Update(y, c, Idle).(
          log := y.log + events,
          tables := Record(y.tables, events).value,
          batches := if events == [] then y.batches else y.batches + [Batch(c, cmd, events)])
      case _ => z == Update(y, c, Idle)
  }

  const START := System([], EMPTY, [], map[])

  ghost predicate Reaches(trace: seq<System>, books: Books) {
    && trace != [] && trace[0] == START
    && forall k :: 0 < k < |trace| ==> Moves(trace[k - 1], trace[k], books)
  }

  ghost predicate Moves(y: System, z: System, books: Books) {
    exists c :: Move(y, z, books, c)
  }

  function Flatten(batches: seq<Batch>): seq<Event> {
    if batches == [] then [] else Flatten(batches[..|batches| - 1]) + batches[|batches| - 1].events
  }

  function CommandsOf(batches: seq<Batch>): (cmds: seq<Command>)
    ensures |cmds| == |batches|
    ensures forall i :: 0 <= i < |batches| ==> cmds[i] == batches[i].cmd
  {
    seq(|batches|, i requires 0 <= i < |batches| => batches[i].cmd)
  }

  /** A batch is what its command builds on exactly the books the earlier batches leave. */
  ghost predicate Decided(batches: seq<Batch>, k: nat, books: Books)
    requires k < |batches|
  {
    && batches[k].events != [] && Lawful(books, batches[k].cmd)
    && Build(Run(EMPTY, books, CommandsOf(batches[..k])), books, batches[k].cmd) == Append(batches[k].events)
  }

  /** The log is the batches end to end, and the tables are both its fold and a serial run. */
  ghost predicate Serial(log: seq<Event>, tables: State, batches: seq<Batch>, books: Books) {
    && log == Flatten(batches)
    && tables == Run(EMPTY, books, CommandsOf(batches))
    && Record(EMPTY, log) == Some(tables)
    && forall k :: 0 <= k < |batches| ==> Decided(batches, k, books)
  }

  /** A client has started over no more often than others have appended a batch since it began. */
  ghost predicate Bounded(y: System, books: Books, c: nat, client: Client) {
    match client
    case Idle => true
    case Starting(cmd, retries, since) =>
      Lawful(books, cmd) && since + retries <= |y.batches| && OthersSince(y, c, since)
    case Holding(cmd, retries, since, head, at) =>
      && Lawful(books, cmd) && since + retries <= at <= |y.batches| && head == |Flatten(y.batches[..at])|
      && OthersSince(y, c, since)
  }

  ghost predicate OthersSince(y: System, c: nat, since: nat) {
    forall k :: since <= k < |y.batches| ==> y.batches[k].client != c
  }

  ghost predicate Orderly(y: System, books: Books) {
    Serial(y.log, y.tables, y.batches, books) && forall c :: c in y.clients ==> Bounded(y, books, c, y.clients[c])
  }

  /** What a move does to the store: nothing, or one batch, decided on the books it extends. */
  lemma MoveDecides(y: System, z: System, books: Books, c: nat)
    requires Move(y, z, books, c)
    ensures z.batches == y.batches ==> z.log == y.log && z.tables == y.tables
    ensures z.batches != y.batches ==>
              var client := ClientOf(y, c);
              && client.Holding? && |z.batches| == |y.batches| + 1
              && var batch := z.batches[|y.batches|];
                 && z.batches == y.batches + [batch] && batch.cmd == client.cmd && batch.client == c
                    && batch.events != []
                 && z.log == y.log + batch.events && Record(y.tables, batch.events) == Some(z.tables)
                 && Build(y.tables, books, client.cmd) == Append(batch.events)
  {
    hide Build, Project;
  }

  lemma {:induction false} AppendKeepsOrder(log: seq<Event>, tables: State, batches: seq<Batch>, books: Books,
                                            batch: Batch)
    requires Serial(log, tables, batches, books) && Lawful(books, batch.cmd) && batch.events != []
    requires Build(tables, books, batch.cmd) == Append(batch.events) && Record(tables, batch.events).Some?
    ensures Serial(log + batch.events, Record(tables, batch.events).value, batches + [batch], books)
  {
    hide Build, Project;
    var n := |batches|;
    var after := batches + [batch];
    RecordConcat(EMPTY, log, batch.events);
    assert after[..n] == batches && CommandsOf(after)[..n] == CommandsOf(batches);
    forall k | 0 <= k < |after| ensures Decided(after, k, books) {
      if k < n {
        assert Decided(batches, k, books);
        assert after[..k] == batches[..k];
      }
    }
  }

  /** More batches do not unsettle a client that has not moved. */
  lemma BoundedStays(y: System, z: System, books: Books, d: nat, client: Client)
    requires Bounded(y, books, d, client) && |y.batches| <= |z.batches| && z.batches[..|y.batches|] == y.batches
    requires forall k :: |y.batches| <= k < |z.batches| ==> z.batches[k].client != d
    ensures Bounded(z, books, d, client)
  {
    assert forall k :: 0 <= k < |y.batches| ==> z.batches[k] == y.batches[k];
    if client.Holding? {
      assert z.batches[..client.at] == y.batches[..client.at];
    }
  }

  /** A client starts over only when the store has grown since it read the head. */
  lemma OwnMoveStaysBounded(y: System, z: System, books: Books, c: nat)
    requires y.log == Flatten(y.batches) && Bounded(y, books, c, ClientOf(y, c)) && Move(y, z, books, c)
    ensures c in z.clients && Bounded(z, books, c, z.clients[c])
    ensures z.clients.Keys == y.clients.Keys + {c}
    ensures forall d :: d in y.clients && d != c ==> z.clients[d] == y.clients[d]
  {
    hide Build, Project, Record;
    assert y.batches[..|y.batches|] == y.batches;
  }

  lemma MoveKeepsOrder(y: System, z: System, books: Books, c: nat)
    requires Orderly(y, books) && Move(y, z, books, c)
    ensures Orderly(z, books)
  {
    MoveDecides(y, z, books, c);
    assert Bounded(y, books, c, ClientOf(y, c));
    OwnMoveStaysBounded(y, z, books, c);
    hide Build, Project, Record, Move, Flatten, Run;
    if z.batches != y.batches {
      AppendKeepsOrder(y.log, y.tables, y.batches, books, z.batches[|y.batches|]);
    }
    forall d | d in z.clients && d != c ensures Bounded(z, books, d, z.clients[d]) {
      BoundedStays(y, z, books, d, y.clients[d]);
    }
  }

  /** Optimistic concurrency refines serial execution: however clients interleave, the books are
      those of the appended commands run one at a time, each deciding on exactly the state it
      extends; every invariant of the serial ledger holds; and no client's retries outnumber the
      batches others have appended since it began. */
  lemma {:induction false} InterleavingsAreSerial(trace: seq<System>, books: Books)
    requires Reaches(trace, books) && Proper(books)
    ensures var y := trace[|trace| - 1];
            && Orderly(y, books)
            && y.tables == Run(EMPTY, books, CommandsOf(y.batches))
            && Inv(y.tables, books)
            && forall c :: c in y.clients && !y.clients[c].Idle? ==>
                 y.clients[c].retries <= |y.batches| - y.clients[c].since && OthersSince(y, c, y.clients[c].since)
  {
    hide Build, Project, InvBut, Move;
    var n := |trace| - 1;
    if n == 0 {
      EmptyBooksAreSound(books);
    } else {
      InterleavingsAreSerial(trace[..n], books);
      assert trace[..n][n - 1] == trace[n - 1];
      assert Moves(trace[n - 1], trace[n], books);
      var c :| Move(trace[n - 1], trace[n], books, c);
      MoveKeepsOrder(trace[n - 1], trace[n], books, c);
      var y := trace[n];
      EmptyBooksAreSound(books);
      forall cmd | cmd in CommandsOf(y.batches) ensures Lawful(books, cmd) {
        var k :| 0 <= k < |y.batches| && CommandsOf(y.batches)[k] == cmd;
        assert Decided(y.batches, k, books);
      }
      RunsKeepInvariant(EMPTY, books, CommandsOf(y.batches));
      forall d | d in y.clients && !y.clients[d].Idle?
        ensures y.clients[d].retries <= |y.batches| - y.clients[d].since && OthersSince(y, d, y.clients[d].since)
      {
        assert Bounded(y, books, d, y.clients[d]);
      }
    }
  }
}
