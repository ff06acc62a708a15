/** Commands one after another, each on the books the last one left. */
module Runs {
  import opened Ledger
  import opened Commands
  import opened Invariants

  /** A command either appends its whole batch or changes nothing. */
  function Step(s: State, books: Books, cmd: Command): State {
    var verdict := Build(s, books, cmd);
    if verdict.Append? && Record(s, verdict.events).Some? then Record(s, verdict.events).value else s
  }

  function Run(s: State, books: Books, cmds: seq<Command>): State {
    if cmds == [] then s else Step(Run(s, books, cmds[..|cmds| - 1]), books, cmds[|cmds| - 1])
  }

  /** One run after another. */
  lemma {:induction false} RunAppend(s: State, books: Books, first: seq<Command>, second: seq<Command>)
    ensures Run(s, books, first + second) == Run(Run(s, books, first), books, second)
  {
    hide Step;
    if second == [] {
      assert first + second == first;
    } else {
      var n := |second| - 1;
      RunAppend(s, books, first, second[..n]);
      assert (first + second)[..|first| + n] == first + second[..n];
    }
  }

  lemma RunOne(s: State, books: Books, cmd: Command)
    ensures Run(s, books, [cmd]) == Step(s, books, cmd)
  {
    assert [cmd][..0] == [];
  }

  lemma StepKeepsInvariant(s: State, books: Books, cmd: Command)
    requires Inv(s, books) && Proper(books) && Lawful(books, cmd)
    ensures Inv(Step(s, books, cmd), books)
  {
    hide InvBut, Build;
    if Build(s, books, cmd).Append? {
      CommandsKeepInvariant(s, books, cmd);
    }
  }

  /** Every reachable state is sound. */
  lemma {:induction false} RunsKeepInvariant(s: State, books: Books, cmds: seq<Command>)
    requires Inv(s, books) && Proper(books)
    requires forall cmd :: cmd in cmds ==> Lawful(books, cmd)
    ensures Inv(Run(s, books, cmds), books)
  {
    if cmds != [] {
      RunsKeepInvariant(s, books, cmds[..|cmds| - 1]);
      StepKeepsInvariant(Run(s, books, cmds[..|cmds| - 1]), books, cmds[|cmds| - 1]);
    }
  }

  /** The chart only grows, and no account changes its kind. */
  ghost predicate ChartGrows(s: State, t: State) {
    && |s.accounts| <= |t.accounts|
    && forall a :: 0 <= a < |s.accounts| ==> t.accounts[a].kind == s.accounts[a].kind
  }

  lemma {:induction false} RecordingGrowsChart(s: State, events: seq<Event>)
    ensures Record(s, events).Some? ==> ChartGrows(s, Record(s, events).value)
  {
    if events != [] {
      RecordingGrowsChart(s, events[..|events| - 1]);
    }
  }

  lemma StepGrowsChart(s: State, books: Books, cmd: Command)
    ensures ChartGrows(s, Step(s, books, cmd))
  {
    hide Build;
    if Build(s, books, cmd).Append? {
      RecordingGrowsChart(s, Build(s, books, cmd).events);
    }
  }
}
