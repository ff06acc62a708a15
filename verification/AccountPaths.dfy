/** Accounts created along colon-separated paths: the chart as a forest, grown in one batch. */
module AccountPaths {
  import opened Options
  import opened Ledger
  import opened Commands
  import opened Texts
  import opened PathNames

  // ------------------------------------------------------------------ paths of the chart

  /** The names from the root down to an account, as a walk up through at most `steps` parents finds
      them; None when a parent is missing. */
  function Chain(rows: seq<Account>, id: AccountId, steps: nat): Option<seq<string>>
    decreases steps
  {
    if steps == 0 then Some([])
    else if |rows| <= id then None
    else if rows[id].parent.None? then Some([rows[id].name])
    else
      var above := Chain(rows, rows[id].parent.value, steps - 1);
      if above.None? then None else Some(above.value + [rows[id].name])
  }

  /** `path_of` and `path_of_account`: bounded by the size of the chart. */
  function PathOf(rows: seq<Account>, id: AccountId): Option<string> {
    var chain := Chain(rows, id, |rows| + 1);
    if chain.None? then None else Some(JoinPath(chain.value))
  }

  /** The walk up from an account reaches a root in at most `steps` steps. */
  predicate Ends(rows: seq<Account>, id: AccountId, steps: nat)
    decreases steps
  {
    id < |rows| && (rows[id].parent.None? || (0 < steps && Ends(rows, rows[id].parent.value, steps - 1)))
  }

  /** Every parent is in the chart, and no account is its own ancestor. */
  ghost predicate Forest(rows: seq<Account>) {
    forall id: AccountId :: id < |rows| ==> Ends(rows, id, |rows|)
  }

  /** Charts that accounts were added to one by one, each at the top or under one there already, are forests. */
  lemma {:induction false} GrownChartsAreForests(rows: seq<Account>)
    requires forall i :: 0 <= i < |rows| && rows[i].parent.Some? ==> rows[i].parent.value < i
    ensures Forest(rows)
  {
    if rows != [] {
      var n := |rows| - 1;
      GrownChartsAreForests(rows[..n]);
      ForestGrows(rows[..n], rows[n]);
      assert rows == rows[..n] + [rows[n]];
    }
  }

  /** The first account with a path. */
  function FirstWith(rows: seq<Account>, path: string): (found: Option<AccountId>)
    ensures found.Some? ==> found.value < |rows| && PathOf(rows, found.value) == Some(path)
    ensures found.Some? ==> forall id: AccountId :: id < found.value ==> PathOf(rows, id) != Some(path)
    ensures found.None? ==> forall id: AccountId :: id < |rows| ==> PathOf(rows, id) != Some(path)
  {
    FirstFrom(rows, path, 0)
  }

  function FirstFrom(rows: seq<Account>, path: string, from: nat): (found: Option<AccountId>)
    requires from <= |rows|
    ensures found.Some? ==> from <= found.value < |rows| && PathOf(rows, found.value) == Some(path)
    ensures found.Some? ==> forall id: AccountId :: from <= id < found.value ==> PathOf(rows, id) != Some(path)
    ensures found.None? ==> forall id: AccountId :: from <= id < |rows| ==> PathOf(rows, id) != Some(path)
    decreases |rows| - from
  {
    if from == |rows| then None
    else if PathOf(rows, from) == Some(path) then Some(from)
    else FirstFrom(rows, path, from + 1)
  }

  /** Once a walk ends, more room and more accounts change nothing. */
  lemma {:induction false} ChainIsStable(rows: seq<Account>, more: seq<Account>, id: AccountId, steps: nat, a: nat,
                                         b: nat)
    requires Ends(rows, id, steps) && steps < a && steps < b
    ensures Chain(rows, id, a) == Chain(rows + more, id, b) && Chain(rows, id, a).Some?
    ensures Ends(rows + more, id, b)
    decreases steps
  {
    if rows[id].parent.Some? {
      ChainIsStable(rows, more, rows[id].parent.value, steps - 1, a - 1, b - 1);
    }
  }

  lemma PathsStay(rows: seq<Account>, more: seq<Account>, id: AccountId)
    requires Forest(rows) && id < |rows|
    ensures PathOf(rows + more, id) == PathOf(rows, id) && PathOf(rows, id).Some?
  {
    ChainIsStable(rows, more, id, |rows|, |rows| + 1, |rows + more| + 1);
  }

  lemma {:induction false} EndsHere(rows: seq<Account>, more: seq<Account>, id: AccountId, steps: nat)
    requires Ends(rows, id, steps)
    ensures Ends(rows + more, id, steps)
    decreases steps
  {
    if rows[id].parent.Some? {
      EndsHere(rows, more, rows[id].parent.value, steps - 1);
    }
  }

  lemma {:induction false} ChainIsNamed(rows: seq<Account>, id: AccountId, steps: nat)
    requires Ends(rows, id, steps)
    ensures Chain(rows, id, steps + 1).Some? && Chain(rows, id, steps + 1).value != []
    decreases steps
  {
    if rows[id].parent.Some? {
      ChainIsNamed(rows, rows[id].parent.value, steps - 1);
    }
  }

  /** An account added under one that is there, or at the top, keeps the chart a forest. */
  lemma ForestGrows(rows: seq<Account>, a: Account)
    requires Forest(rows) && (a.parent.Some? ==> a.parent.value < |rows|)
    ensures Forest(rows + [a])
  {
    var more := rows + [a];
    forall id: AccountId | id < |more| ensures Ends(more, id, |more|) {
      if id < |rows| {
        ChainIsStable(rows, [a], id, |rows|, |rows| + 1, |more|);
      } else if a.parent.Some? {
        EndsHere(rows, [a], a.parent.value, |rows|);
      }
    }
  }

  /** Its path is the parent's and one name more. */
  lemma PathUnder(rows: seq<Account>, a: Account)
    requires Forest(rows) && a.parent.Some? && a.parent.value < |rows|
    ensures PathOf(rows, a.parent.value).Some?
    ensures PathOf(rows + [a], |rows|) == Some(PathOf(rows, a.parent.value).value + ":" + a.name)
  {
    ChainIsStable(rows, [a], a.parent.value, |rows|, |rows| + 1, |rows| + 1);
    ChainIsNamed(rows, a.parent.value, |rows|);
    var above := Chain(rows, a.parent.value, |rows| + 1).value;
    assert (above + [a.name])[..|above|] == above;
  }

  lemma PathAtTop(rows: seq<Account>, a: Account)
    requires a.parent.None?
    ensures PathOf(rows + [a], |rows|) == Some(a.name)
  {
  }

  /** The first account with a path stays the first. */
  lemma FirstStays(rows: seq<Account>, a: Account, path: string)
    requires Forest(rows) && (a.parent.Some? ==> a.parent.value < |rows|)
    ensures FirstWith(rows, path).Some? ==> FirstWith(rows + [a], path) == FirstWith(rows, path)
    ensures FirstWith(rows, path).None? && PathOf(rows + [a], |rows|) == Some(path) ==>
              FirstWith(rows + [a], path) == Some(|rows|)
  {
    forall id: AccountId | id < |rows| ensures PathOf(rows + [a], id) == PathOf(rows, id) {
      PathsStay(rows, [a], id);
    }
  }

  // ------------------------------------------------------------------ numbers

  function TypeBase(kind: AccountType): int {
    match kind
    case Asset => 1000
    case Liability => 2000
    case Equity => 3000
    case Revenue => 4000
    case Expense => 5000
  }

  /** The numbers taken: those of the chart that read as numbers. */
  function NumbersOf(rows: seq<Account>): set<int> {
    set i | 0 <= i < |rows| && ParseI64(rows[i].number).Some? :: ParseI64(rows[i].number).value
  }

  function Above(used: set<int>, from: int): set<int> {
    set n | n in used && from <= n
  }

  lemma FewerAbove(used: set<int>, from: int)
    requires from in used
    ensures |Above(used, from + 1)| < |Above(used, from)|
  {
    assert Above(used, from) == Above(used, from + 1) + {from};
  }

  /** The least free number from a first candidate on. */
  function FreeFrom(used: set<int>, candidate: int): (free: int)
    ensures candidate <= free && free !in used
    ensures forall n :: candidate <= n < free ==> n in used
    decreases |Above(used, candidate)|
  {
    if candidate in used then
      FewerAbove(used, candidate);
      FreeFrom(used, candidate + 1)
    else candidate
  }

  /** Where the search for a number starts: just above the parent's, or at the base of the kind. */
  function FirstCandidate(parent: Option<int>, kind: AccountType): int {
    if parent.Some? then parent.value + 1 else TypeBase(kind)
  }

  /** `next_free_number`. */
  method NextFreeNumber(used: set<int>, parent: Option<int>, kind: AccountType) returns (number: string, free: int)
    ensures free == FreeFrom(used, FirstCandidate(parent, kind)) && number == Decimal(free)
  {
    var base := if parent.Some? then parent.value else TypeBase(kind);
    var candidate := if parent.Some? then base + 1 else base;
    while candidate in used
      invariant FreeFrom(used, candidate) == FreeFrom(used, FirstCandidate(parent, kind))
      decreases |Above(used, candidate)|
    {
      FewerAbove(used, candidate);
      candidate := candidate + 1;
    }
    free, number := candidate, Decimal(candidate);
  }

  lemma NumbersMore(rows: seq<Account>, a: Account)
    ensures NumbersOf(rows + [a]) == NumbersOf(rows) + if ParseI64(a.number).Some? then {ParseI64(a.number).value}
            else {}
  {
    var more := rows + [a];
    forall n | n in NumbersOf(rows) ensures n in NumbersOf(more) {
      var i :| 0 <= i < |rows| && ParseI64(rows[i].number) == Some(n);
      assert more[i] == rows[i];
    }
    assert more[|rows|] == a;
  }

  /** A fresh number is no account's text. */
  lemma FreshNumberIsFree(rows: seq<Account>, n: int)
    requires InI64(n) && n !in NumbersOf(rows)
    ensures forall a :: a in rows ==> a.number != Decimal(n)
  {
    DecimalReads(n);
    forall a | a in rows ensures a.number != Decimal(n) {
      var i :| 0 <= i < |rows| && rows[i] == a;
    }
  }

  // ------------------------------------------------------------------ requested paths

  datatype Request = Request(path: string, kind: AccountType)

  function SegmentCount(paths: seq<Request>): nat {
    if paths == [] then 0 else |Segments(paths[0].path)| + SegmentCount(paths[1..])
  }

  function NumberAt(rows: seq<Account>, id: Option<AccountId>): Option<int> {
    if id.Some? && id.value < |rows| then ParseI64(rows[id.value].number) else None
  }

  /** The account that is minted for one name of a path: nothing had its path, its parent is the first
      account with the path before it, its number the least free one. */
  ghost predicate Minted(before: seq<Account>, segments: seq<string>, k: nat, kind: AccountType, a: Account)
    requires k < |segments|
  {
    && FirstWith(before, JoinPath(segments[..k + 1])).None?
    && a.parent == (if k == 0 then None else FirstWith(before, JoinPath(segments[..k]))) && (k != 0 ==> a.parent.Some?)
    && a.kind == kind && a.name == segments[k] && a.active
    && a.number == Decimal(FreeFrom(NumbersOf(before), FirstCandidate(NumberAt(before, a.parent), kind)))
    && ParseI64(a.number).Some?
  }

  ghost predicate MintedFor(before: seq<Account>, paths: seq<Request>, a: Account) {
    exists i, k :: 0 <= i < |paths| && 0 <= k < |Segments(paths[i].path)|
                   && Minted(before, Segments(paths[i].path), k, paths[i].kind, a)
  }

  /** The chart grown from another, every new account minted for one of the paths. */
  ghost predicate GrownFrom(base: seq<Account>, paths: seq<Request>, rows: seq<Account>) {
    && |base| <= |rows| && rows[..|base|] == base && Forest(rows)
    && forall n :: |base| <= n < |rows| ==> MintedFor(rows[..n], paths, rows[n])
  }

  /** Every name along a path has its account. */
  ghost predicate Walked(rows: seq<Account>, segments: seq<string>, k: nat)
    requires k <= |segments|
  {
    forall m :: 1 <= m <= k ==> FirstWith(rows, JoinPath(segments[..m])).Some?
  }

  ghost predicate Led(rows: seq<Account>, paths: seq<Request>, leaves: seq<AccountId>) {
    && |leaves| <= |paths|
    && forall i :: 0 <= i < |leaves| ==>
         var segments := Segments(paths[i].path);
         Walked(rows, segments, |segments|) && FirstWith(rows, JoinPath(segments)) == Some(leaves[i])
  }

  /** What ensuring paths comes to. */
  ghost predicate EnsuredBy(base: seq<Account>, paths: seq<Request>, news: seq<Account>, leaves: seq<AccountId>) {
    && GrownFrom(base, paths, base + news) && |leaves| == |paths| && Led(base + news, paths, leaves)
  }

  /** Room for that many more numbers before i64 runs out. */
  ghost predicate Roomy(rows: seq<Account>, n: nat) {
    n + 5000 < I64_LIMIT && forall m :: m in NumbersOf(rows) ==> m < I64_LIMIT - n
  }

  lemma {:induction false} FreeBelow(used: set<int>, candidate: int, bound: int)
    requires candidate <= bound && forall m :: m in used ==> m < bound
    ensures FreeFrom(used, candidate) <= bound
  {
    assert bound !in used;
  }

  /** The number a minted account gets is in range, nobody's, and leaves room for the rest. */
  lemma MintedNumber(rows: seq<Account>, parent: Option<AccountId>, kind: AccountType, n: nat)
    requires Roomy(rows, n) && 0 < n
    ensures var free := FreeFrom(NumbersOf(rows), FirstCandidate(NumberAt(rows, parent), kind));
            && InI64(free) && free !in NumbersOf(rows) && ParseI64(Decimal(free)) == Some(free)
            && (forall a :: a in rows ==> a.number != Decimal(free))
            && forall a: Account :: a.number == Decimal(free) ==>
                 NumbersOf(rows + [a]) == NumbersOf(rows) + {free} && Roomy(rows + [a], n - 1)
  {
    var number := NumberAt(rows, parent);
    if number.Some? {
      assert number.value in NumbersOf(rows);
    }
    FreeBelow(NumbersOf(rows), FirstCandidate(number, kind), I64_LIMIT - n);
    var free := FreeFrom(NumbersOf(rows), FirstCandidate(number, kind));
    DecimalReads(free);
    FreshNumberIsFree(rows, free);
    forall a: Account | a.number == Decimal(free)
      ensures NumbersOf(rows + [a]) == NumbersOf(rows) + {free} && Roomy(rows + [a], n - 1)
    {
      NumbersMore(rows, a);
    }
  }

  /** Growing by an account that is not out of place keeps every path found and every leaf. */
  lemma GrowthKeeps(rows: seq<Account>, a: Account, paths: seq<Request>, leaves: seq<AccountId>, segments: seq<string>,
                    k: nat)
    requires Forest(rows) && (a.parent.Some? ==> a.parent.value < |rows|) && k <= |segments|
    ensures Led(rows, paths, leaves) ==> Led(rows + [a], paths, leaves)
    ensures Walked(rows, segments, k) ==> Walked(rows + [a], segments, k)
  {
    hide Forest, FirstWith;
    forall path ensures FirstWith(rows, path).Some? ==> FirstWith(rows + [a], path) == FirstWith(rows, path) {
      FirstStays(rows, a, path);
    }
  }

  lemma GrownByOne(base: seq<Account>, paths: seq<Request>, rows: seq<Account>, i: nat, k: nat, a: Account)
    requires GrownFrom(base, paths, rows) && i < |paths| && k < |Segments(paths[i].path)|
    requires Minted(rows, Segments(paths[i].path), k, paths[i].kind, a)
    ensures GrownFrom(base, paths, rows + [a])
  {
    hide Minted, Forest, Segments;
    var more := rows + [a];
    assert a.parent.Some? ==>
             a.parent.value < |rows| by { MintedHasParent(rows, Segments(paths[i].path), k, paths[i].kind, a); }
    ForestGrows(rows, a);
    assert more[..|rows|] == rows;
    forall n | |base| <= n < |more| ensures MintedFor(more[..n], paths, more[n]) {
      if n < |rows| {
        assert more[..n] == rows[..n];
      }
    }
  }

  lemma MintedHasParent(before: seq<Account>, segments: seq<string>, k: nat, kind: AccountType, a: Account)
    requires k < |segments| && Minted(before, segments, k, kind, a)
    ensures a.parent.Some? ==> a.parent.value < |before|
  {
  }

  /** A minted account is at the end of the path it was minted for, and nothing before it is. */
  lemma MintedPath(before: seq<Account>, segments: seq<string>, k: nat, kind: AccountType, a: Account)
    requires Forest(before) && k < |segments| && Minted(before, segments, k, kind, a)
    ensures PathOf(before + [a], |before|) == Some(JoinPath(segments[..k + 1]))
    ensures FirstWith(before + [a], JoinPath(segments[..k + 1])) == Some(|before|)
  {
    assert segments[..k + 1][..k] == segments[..k];
    if k == 0 {
      PathAtTop(before, a);
    } else {
      PathUnder(before, a);
    }
    FirstStays(before, a, JoinPath(segments[..k + 1]));
  }

  // ------------------------------------------------------------------ ensuring paths

  datatype PathsStep = Ensured(news: seq<Account>, leaves: seq<AccountId>) | NoPaths | EmptyPath | NumberRefused

  /** The walk along one path: each name is matched by the path so far, or minted. */
  method WalkPath(s: State, start: seq<Account>, taken: set<int>, request: Request, segments: seq<string>,
                  ghost paths: seq<Request>, ghost i: nat, ghost leaves: seq<AccountId>, ghost room: nat)
    returns (rows: seq<Account>, used: set<int>, leaf: AccountId, refused: bool)
    requires segments != [] && i < |paths| && paths[i] == request && segments == Segments(request.path)
    requires GrownFrom(s.accounts, paths, start) && taken == NumbersOf(start) && Led(start, paths, leaves)
    requires Roomy(start, |segments| + room)
    ensures !refused
    ensures GrownFrom(s.accounts, paths, rows) && used == NumbersOf(rows) && Led(rows, paths, leaves)
            && Roomy(rows, room)
    ensures Walked(rows, segments, |segments|) && FirstWith(rows, JoinPath(segments)) == Some(leaf)
  {
    hide *;
    rows, used, refused, leaf := start, taken, false, 0;
    var parent: Option<AccountId>, parentNumber: Option<int> := None, None;
    var walked := "";
    var k := 0;
    NothingWalked(rows, segments);
    while k < |segments|
      invariant 0 <= k <= |segments|
      invariant GrownFrom(s.accounts, paths, rows) && used == NumbersOf(rows) && Led(rows, paths, leaves)
      invariant Roomy(rows, |segments| - k + room) && Walked(rows, segments, k)
      invariant walked == JoinPath(segments[..k])
      invariant parentNumber == NumberAt(rows, parent)
      invariant parent == if k == 0 then None else FirstWith(rows, JoinPath(segments[..k]))
      invariant k != 0 ==> parent.Some?
    {
      var segment := segments[k];
      NextWalked(request.path, segments, k);
      walked := if walked == "" then segment else walked + ":" + segment;
      var found := FirstWith(rows, walked);
      if found.Some? {
        parent, parentNumber := found, ParseI64(rows[found.value].number);
        NumberOfFound(rows, found.value);
        RoomyLess(rows, |segments| - k + room);
      } else {
        var number, free := NextFreeNumber(used, parentNumber, request.kind);
        var account := Account(request.kind, number, segment, parent, true);
        MintedNumber(rows, parent, request.kind, |segments| - k + room);
        MintOne(s.accounts, paths, rows, i, k, account, leaves);
        FenceIsOpen(s, rows, account, paths);
        var verdict := BuildCreateAccount(s, account);
        if verdict.Reject? {
          refused := true;
          return;
        }
        used := used + {free};
        rows := rows + [account];
        parent, parentNumber := Some(|rows| - 1), Some(free);
      }
      WalkedOn(rows, segments, k);
      k := k + 1;
    }
    assert segments[..k] == segments;
    leaf := parent.value;
  }

  lemma RoomyLess(rows: seq<Account>, n: nat)
    requires Roomy(rows, n) && 0 < n
    ensures Roomy(rows, n - 1)
  {
  }

  lemma NothingWalked(rows: seq<Account>, segments: seq<string>)
    ensures Walked(rows, segments, 0) && JoinPath(segments[..0]) == "" && NumberAt(rows, None) == None
  {
  }

  lemma NumberOfFound(rows: seq<Account>, id: AccountId)
    requires id < |rows|
    ensures NumberAt(rows, Some(id)) == ParseI64(rows[id].number)
  {
  }

  lemma WalkedOn(rows: seq<Account>, segments: seq<string>, k: nat)
    requires k < |segments| && Walked(rows, segments, k) && FirstWith(rows, JoinPath(segments[..k + 1])).Some?
    ensures Walked(rows, segments, k + 1)
  {
    hide FirstWith, JoinPath;
  }

  /** The uniqueness check is made against the chart as it was, which holds no such number. */
  lemma FenceIsOpen(s: State, rows: seq<Account>, account: Account, paths: seq<Request>)
    requires GrownFrom(s.accounts, paths, rows) && forall a :: a in rows ==> a.number != account.number
    ensures BuildCreateAccount(s, account) == Append([AccountCreated(account.(active := true))])
  {
    hide Forest, MintedFor;
    forall a | a in s.accounts ensures a.number != account.number {
      var i :| 0 <= i < |s.accounts| && s.accounts[i] == a;
      assert rows[i] == a && rows[i] in rows;
    }
  }

  /** The path walked so far is empty only at the start. */
  lemma {:induction false} WalkedIsNamed(segments: seq<string>)
    requires segments != [] && forall p :: p in segments ==> p != ""
    ensures JoinPath(segments) != ""
  {
    if |segments| == 1 {
      assert segments[0] in segments;
    }
  }

  lemma {:induction false} NonBlankAre(parts: seq<string>)
    ensures forall p :: p in NonBlank(parts) ==> p != ""
  {
    hide TrimStart, TrimEnd;
    if parts != [] {
      NonBlankAre(parts[1..]);
    }
  }

  lemma NextWalked(path: string, segments: seq<string>, k: nat)
    requires segments == Segments(path) && k < |segments|
    ensures var walked := JoinPath(segments[..k]);
            JoinPath(segments[..k + 1]) == if walked == "" then segments[k] else walked + ":" + segments[k]
  {
    NonBlankAre(Split(path));
    hide NonBlank, Split;
    assert segments[..k + 1][..k] == segments[..k];
    assert forall p :: p in segments[..k] ==> p in segments;
    if k != 0 {
      WalkedIsNamed(segments[..k]);
    }
  }

  /** What minting one account does to all that has been established. */
  lemma {:induction false} MintOne(base: seq<Account>, paths: seq<Request>, rows: seq<Account>, i: nat, k: nat,
                                   a: Account, leaves: seq<AccountId>)
    requires GrownFrom(base, paths, rows) && i < |paths| && k < |Segments(paths[i].path)|
    requires var segments := Segments(paths[i].path);
             && FirstWith(rows, JoinPath(segments[..k + 1])).None? && Walked(rows, segments, k)
             && a.parent == (if k == 0 then None else FirstWith(rows, JoinPath(segments[..k])))
                && (k != 0 ==> a.parent.Some?)
             && a.kind == paths[i].kind && a.name == segments[k] && a.active
             && a.number == Decimal(FreeFrom(NumbersOf(rows), FirstCandidate(NumberAt(rows, a.parent), a.kind)))
    requires Led(rows, paths, leaves) && ParseI64(a.number).Some?
    ensures var segments := Segments(paths[i].path);
            && GrownFrom(base, paths, rows + [a]) && Led(rows + [a], paths, leaves) && Walked(rows + [a], segments, k)
            && FirstWith(rows + [a], JoinPath(segments[..k + 1])) == Some(|rows|)
            && NumberAt(rows + [a], Some(|rows|)) == ParseI64(a.number)
  {
    hide Segments, Forest, Walked, Led, FirstWith, FreeFrom, NumbersOf, JoinPath, PathOf;
    var segments := Segments(paths[i].path);
    assert Minted(rows, segments, k, paths[i].kind, a);
    MintedHasParent(rows, segments, k, paths[i].kind, a);
    GrownByOne(base, paths, rows, i, k, a);
    MintedPath(rows, segments, k, paths[i].kind, a);
    GrowthKeeps(rows, a, paths, leaves, segments, k);
  }

  /** `build_ensure_account_paths_in_txn`. Given a chart that is a forest, and numbers with room left, the
      batch is refused only for want of a path or a name, never by the number fence. */
  method EnsureAccountPaths(s: State, paths: seq<Request>) returns (step: PathsStep)
    requires Forest(s.accounts) && Roomy(s.accounts, SegmentCount(paths))
    ensures !step.NumberRefused?
    ensures step.NoPaths? <==> paths == []
    ensures step.Ensured? <==> paths != [] && forall r :: r in paths ==> Named(r.path)
    ensures step.Ensured? ==> EnsuredBy(s.accounts, paths, step.news, step.leaves)
  {
    hide *;
    if paths == [] {
      return NoPaths;
    }
    var rows := s.accounts;
    var used := NumbersOf(rows);
    var leaves: seq<AccountId> := [];
    NothingGrown(s.accounts, paths);
    var i := 0;
    assert paths[0..] == paths;
    while i < |paths|
      invariant 0 <= i <= |paths| && |leaves| == i
      invariant GrownFrom(s.accounts, paths, rows) && used == NumbersOf(rows) && Led(rows, paths, leaves)
      invariant Roomy(rows, SegmentCount(paths[i..])) && forall j :: 0 <= j < i ==> Named(paths[j].path)
    {
      var segments := Segments(paths[i].path);
      NamedHasSegments(paths[i].path);
      if segments == [] {
        assert paths[i] in paths;
        return EmptyPath;
      }
      CountSegments(paths, i);
      var leaf, refused;
      rows, used, leaf, refused :=
        WalkPath(s, rows, used, paths[i], segments, paths, i, leaves, SegmentCount(paths[i + 1..]));
      if refused {
        return NumberRefused;
      }
      LedOn(rows, paths, leaves, leaf);
      leaves := leaves + [leaf];
      i := i + 1;
    }
    AllLed(s.accounts, paths, rows, leaves);
    step := Ensured(rows[|s.accounts|..], leaves);
  }

  lemma NothingGrown(base: seq<Account>, paths: seq<Request>)
    requires Forest(base)
    ensures GrownFrom(base, paths, base) && Led(base, paths, [])
  {
  }

  lemma CountSegments(paths: seq<Request>, i: nat)
    requires i < |paths|
    ensures SegmentCount(paths[i..]) == |Segments(paths[i].path)| + SegmentCount(paths[i + 1..])
  {
    assert paths[i..][0] == paths[i] && paths[i..][1..] == paths[i + 1..];
  }

  lemma LedOn(rows: seq<Account>, paths: seq<Request>, leaves: seq<AccountId>, leaf: AccountId)
    requires Led(rows, paths, leaves) && |leaves| < |paths|
    requires var segments := Segments(paths[|leaves|].path);
             Walked(rows, segments, |segments|) && FirstWith(rows, JoinPath(segments)) == Some(leaf)
    ensures Led(rows, paths, leaves + [leaf])
  {
    hide Segments, FirstWith, JoinPath, Walked;
  }

  lemma AllLed(base: seq<Account>, paths: seq<Request>, rows: seq<Account>, leaves: seq<AccountId>)
    requires GrownFrom(base, paths, rows) && Led(rows, paths, leaves) && |leaves| == |paths|
    ensures |base| <= |rows| && EnsuredBy(base, paths, rows[|base|..], leaves)
  {
    hide Forest, MintedFor, Led;
    assert rows == base + rows[|base|..];
  }

  // ------------------------------------------------------------------ what ensuring paths gives

  /** Each leaf's own path is the requested one, blanks dropped; and just the requested one, if that has none. */
  lemma LeavesReadBack(base: seq<Account>, paths: seq<Request>, news: seq<Account>, leaves: seq<AccountId>, i: nat)
    requires EnsuredBy(base, paths, news, leaves) && i < |paths|
    ensures leaves[i] < |base + news| && PathOf(base + news, leaves[i]) == Some(JoinPath(Segments(paths[i].path)))
    ensures Canonical(paths[i].path) ==> PathOf(base + news, leaves[i]) == Some(paths[i].path)
  {
    hide Segments, JoinPath, GrownFrom, Walked, Canonical;
    assert FirstWith(base + news, JoinPath(Segments(paths[i].path))) == Some(leaves[i]);
    if Canonical(paths[i].path) {
      CanonicalReads(paths[i].path);
    }
  }

  lemma {:induction false} FirstStaysOn(rows: seq<Account>, more: seq<Account>, base: seq<Account>,
                                        paths: seq<Request>, path: string)
    requires GrownFrom(base, paths, rows + more) && |base| <= |rows| && Forest(rows) && FirstWith(rows, path).Some?
    ensures FirstWith(rows + more, path) == FirstWith(rows, path)
  {
    hide Chain, JoinPath;
    forall id: AccountId | id < |rows| ensures PathOf(rows + more, id) == PathOf(rows, id) {
      PathsStay(rows, more, id);
    }
  }

  /** What a new account was minted for. */
  lemma {:induction false} MintedAt(base: seq<Account>, paths: seq<Request>, rows: seq<Account>,
                                    n: nat)
    returns (i: nat, k: nat)
    requires GrownFrom(base, paths, rows) && |base| <= n < |rows|
    ensures i < |paths| && k < |Segments(paths[i].path)|
    ensures Minted(rows[..n], Segments(paths[i].path), k, paths[i].kind, rows[n])
  {
    hide Minted, Segments, Forest;
    assert MintedFor(rows[..n], paths, rows[n]);
    i, k :| 0 <= i < |paths| && 0 <= k < |Segments(paths[i].path)|
    && Minted(rows[..n], Segments(paths[i].path), k, paths[i].kind, rows[n]);
  }

  lemma ForestAtStart(base: seq<Account>, paths: seq<Request>, rows: seq<Account>)
    requires Forest(base) && GrownFrom(base, paths, rows)
    ensures |base| <= |rows| && rows[..|base|] == base
  {
  }

  /** Every stage of the growth is a forest. */
  lemma {:induction false} ForestsBelow(base: seq<Account>, paths: seq<Request>, rows: seq<Account>, n: nat)
    requires Forest(base) && GrownFrom(base, paths, rows) && |base| <= n <= |rows|
    ensures Forest(rows[..n])
    decreases n
  {
    hide *;
    if n == |base| {
      ForestAtStart(base, paths, rows);
    } else {
      ForestsBelow(base, paths, rows, n - 1);
      var i, k := MintedAt(base, paths, rows, n - 1);
      MintedHasParent(rows[..n - 1], Segments(paths[i].path), k, paths[i].kind, rows[n - 1]);
      ForestGrows(rows[..n - 1], rows[n - 1]);
      assert rows[..n] == rows[..n - 1] + [rows[n - 1]];
    }
  }

  /** A new account is the first, and so the only one minted, with its path. */
  lemma {:induction false} MintedOnce(base: seq<Account>, paths: seq<Request>, news: seq<Account>,
                                      leaves: seq<AccountId>, n: nat)
    requires Forest(base) && EnsuredBy(base, paths, news, leaves) && n < |news|
    ensures PathOf(base + news, |base| + n).Some?
    ensures FirstWith(base + news, PathOf(base + news, |base| + n).value) == Some(|base| + n)
  {
    var rows, id := base + news, |base| + n;
    hide *;
    EnsuredIsGrown(base, paths, news, leaves);
    var i, k := MintedAt(base, paths, rows, id);
    var path := JoinPath(Segments(paths[i].path)[..k + 1]);
    ForestsBelow(base, paths, rows, id);
    ForestsBelow(base, paths, rows, id + 1);
    assert rows[..id + 1] == rows[..id] + [rows[id]];
    MintedPath(rows[..id], Segments(paths[i].path), k, paths[i].kind, rows[id]);
    assert rows == rows[..id + 1] + rows[id + 1..];
    FirstStaysOn(rows[..id + 1], rows[id + 1..], base, paths, path);
    assert FirstWith(rows, path) == Some(id);
  }

  /** What a new account is: active, of the kind asked for, named by a name along one of the paths, at the path up to
      that name, under the account at the path before it. */
  lemma {:induction false} NewAccountsAre(base: seq<Account>, paths: seq<Request>, news: seq<Account>,
                                          leaves: seq<AccountId>, n: nat) returns (i: nat, k: nat)
    requires Forest(base) && EnsuredBy(base, paths, news, leaves) && n < |news|
    ensures i < |paths| && k < |Segments(paths[i].path)|
    ensures news[n].active && news[n].kind == paths[i].kind && news[n].name == Segments(paths[i].path)[k]
    ensures PathOf(base + news, |base| + n) == Some(JoinPath(Segments(paths[i].path)[..k + 1]))
    ensures if k == 0 then news[n].parent.None?
            else news[n].parent.Some? && news[n].parent.value < |base| + n
                 && PathOf(base + news, news[n].parent.value) == Some(JoinPath(Segments(paths[i].path)[..k]))
  {
    var rows, id := base + news, |base| + n;
    hide *;
    EnsuredIsGrown(base, paths, news, leaves);
    i, k := MintedAt(base, paths, rows, id);
    var segments := Segments(paths[i].path);
    ForestsBelow(base, paths, rows, id);
    ForestsBelow(base, paths, rows, id + 1);
    assert rows[..id + 1] == rows[..id] + [rows[id]] && rows == rows[..id + 1] + rows[id + 1..];
    assert rows == rows[..id] + rows[id..];
    MintedPath(rows[..id], segments, k, paths[i].kind, rows[id]);
    PathsStay(rows[..id + 1], rows[id + 1..], id);
    MintedParts(rows[..id], segments, k, paths[i].kind, rows[id]);
    if k != 0 {
      PathsStay(rows[..id], rows[id..], rows[id].parent.value);
    }
  }

  lemma MintedParts(before: seq<Account>, segments: seq<string>, k: nat, kind: AccountType, a: Account)
    requires k < |segments| && Minted(before, segments, k, kind, a)
    ensures a.active && a.kind == kind && a.name == segments[k] && (k == 0 <==> a.parent.None?)
    ensures k != 0 ==>
              a.parent.value < |before| && PathOf(before, a.parent.value) == Some(JoinPath(segments[..k]))
  {
    hide JoinPath, FreeFrom, NumbersOf, PathOf;
  }

  /** Where a kind's numbers begin. */
  function Thousand(kind: AccountType): int {
    if kind == Asset then 1000 else if kind == Liability then 2000 else if kind == Equity then 3000
    else if kind == Revenue then 4000 else 5000
  }

  /** A new account takes the least number that no account before it has, above its parent's; where the parent's is no
      number, or there is no parent, from its kind's thousand on. */
  lemma {:induction false} NewNumbersAreLeast(base: seq<Account>, paths: seq<Request>, news: seq<Account>,
                                              leaves: seq<AccountId>, n: nat) returns (number: int)
    requires EnsuredBy(base, paths, news, leaves) && n < |news|
    ensures news[n].number == Decimal(number) && ParseI64(news[n].number) == Some(number)
    ensures var rows := base + news;
            var above := if news[n].parent.Some? && news[n].parent.value < |base| + n
                         then ParseI64(rows[news[n].parent.value].number) else None;
            var first := if above.Some? then above.value + 1 else Thousand(news[n].kind);
            && first <= number
            && (forall m | first <= m < number ::
                  exists r :: 0 <= r < |base| + n && ParseI64(rows[r].number) == Some(m))
            && (forall r :: 0 <= r < |base| + n ==> ParseI64(rows[r].number) != Some(number))
  {
    var rows, id := base + news, |base| + n;
    hide *;
    EnsuredIsGrown(base, paths, news, leaves);
    var i, k := MintedAt(base, paths, rows, id);
    number := MintedNumberIs(rows[..id], Segments(paths[i].path), k, paths[i].kind, rows[id]);
    assert forall r :: 0 <= r < id ==> rows[..id][r] == rows[r];
  }

  lemma MintedNumberIs(before: seq<Account>, segments: seq<string>, k: nat, kind: AccountType, a: Account)
    returns (number: int)
    requires k < |segments| && Minted(before, segments, k, kind, a)
    ensures a.number == Decimal(number) && ParseI64(a.number) == Some(number)
    ensures var above := if a.parent.Some?
            && a.parent.value < |before| then ParseI64(before[a.parent.value].number) else None;
            var first := if above.Some? then above.value + 1 else Thousand(a.kind);
            && first <= number
            && (forall m | first <= m < number :: exists r :: 0 <= r < |before|
                                                              && ParseI64(before[r].number) == Some(m))
            && (forall r :: 0 <= r < |before| ==> ParseI64(before[r].number) != Some(number))
  {
    number := FreeFrom(NumbersOf(before), FirstCandidate(NumberAt(before, a.parent), kind));
    hide ParseI64, FirstWith, JoinPath, Decimal;
    DecimalInRange(number);
    forall r | 0 <= r < |before| ensures ParseI64(before[r].number) != Some(number) {
      if ParseI64(before[r].number).Some? {
        assert ParseI64(before[r].number).value in NumbersOf(before);
      }
    }
    forall m | FirstCandidate(NumberAt(before, a.parent), kind) <= m < number
      ensures exists r :: 0 <= r < |before| && ParseI64(before[r].number) == Some(m)
    {
      assert m in NumbersOf(before);
      var r :| 0 <= r < |before| && ParseI64(before[r].number).Some? && ParseI64(before[r].number).value == m;
    }
  }

  lemma EnsuredIsGrown(base: seq<Account>, paths: seq<Request>, news: seq<Account>, leaves: seq<AccountId>)
    requires EnsuredBy(base, paths, news, leaves)
    ensures GrownFrom(base, paths, base + news)
  {
  }

  /** A new account's number reads as a number, which no account before it has. */
  lemma {:induction false} MintedNumbersDiffer(base: seq<Account>, paths: seq<Request>, news: seq<Account>,
                                               leaves: seq<AccountId>, m: nat, n: nat)
    requires EnsuredBy(base, paths, news, leaves) && m < |base| + n && n < |news|
    ensures ParseI64(news[n].number).Some?
    ensures ParseI64((base + news)[m].number) != ParseI64(news[n].number)
    ensures (base + news)[m].number != news[n].number
  {
    hide Forest, Led, ParseI64, FirstWith;
    var rows, id := base + news, |base| + n;
    assert MintedFor(rows[..id], paths, rows[id]);
    var i, k :| 0 <= i < |paths| && 0 <= k < |Segments(paths[i].path)|
      && Minted(rows[..id], Segments(paths[i].path), k, paths[i].kind, rows[id]);
    var free := FreeFrom(NumbersOf(rows[..id]), FirstCandidate(NumberAt(rows[..id], rows[id].parent), rows[id].kind));
    hide Minted, Segments, MintedFor, GrownFrom;
    if ParseI64(Decimal(free)).Some? && ParseI64(rows[m].number).Some? {
      DecimalInRange(free);
      assert rows[..id][m] == rows[m];
    }
  }

  lemma DecimalInRange(n: int)
    requires ParseI64(Decimal(n)).Some?
    ensures ParseI64(Decimal(n)) == Some(n)
  {
    DecimalIsTrimmed(n);
    DigitsSayTheirValue(Magnitude(n));
    var digits := Digits(Magnitude(n));
    assert IsDigit(digits[0]);
    hide Digits, Value, TrimStart, TrimEnd;
    if n < 0 {
      assert Decimal(n)[1..] == digits;
    }
  }

  /** Where every name of every path has its account, none is minted. */
  lemma NothingToMint(rows: seq<Account>, paths: seq<Request>, leaves: seq<AccountId>, a: Account)
    requires Led(rows, paths, leaves) && |leaves| == |paths|
    ensures !MintedFor(rows, paths, a)
  {
    hide Forest, Segments, JoinPath, FirstWith, NumbersOf, FreeFrom;
    forall i, k | 0 <= i < |paths| && 0 <= k < |Segments(paths[i].path)|
      ensures !Minted(rows, Segments(paths[i].path), k, paths[i].kind, a)
    {
      assert Walked(rows, Segments(paths[i].path), |Segments(paths[i].path)|);
      assert FirstWith(rows, JoinPath(Segments(paths[i].path)[..k + 1])).Some?;
    }
  }

  /** Ensuring the same paths again appends nothing and names the same accounts. */
  lemma EnsuringAgainIsNothing(base: seq<Account>, paths: seq<Request>, news: seq<Account>, leaves: seq<AccountId>,
                               again: seq<Account>, same: seq<AccountId>)
    requires EnsuredBy(base, paths, news, leaves) && EnsuredBy(base + news, paths, again, same)
    ensures again == [] && same == leaves
  {
    hide Forest, Segments, JoinPath, FirstWith, NumbersOf, FreeFrom, MintedFor;
    var rows := base + news;
    var grown := rows + again;
    if again != [] {
      assert grown[..|rows|] == rows && grown[|rows|] == again[0];
      assert MintedFor(grown[..|rows|], paths, grown[|rows|]);
      NothingToMint(rows, paths, leaves, again[0]);
    }
    assert again == [] ==> grown == rows;
    forall i | 0 <= i < |paths| ensures same[i] == leaves[i] {
      assert FirstWith(rows, JoinPath(Segments(paths[i].path))) == Some(leaves[i]);
    }
  }

  // ------------------------------------------------------------------ what the store says of it

  function Created(news: seq<Account>): seq<Event> {
    if news == [] then [] else Created(news[..|news| - 1]) + [AccountCreated(news[|news| - 1])]
  }

  ghost predicate WellNamed(a: Account) {
    NumberOk(a.number) && !Blank(a.name)
  }

  lemma {:induction false} CreatedIsRecorded(s: State, news: seq<Account>)
    requires forall a :: a in news ==> WellNamed(a)
    ensures Record(s, Created(news)) == Some(s.(accounts := s.accounts + news))
  {
    if news == [] {
      assert s.accounts + [] == s.accounts;
    } else {
      var n := |news| - 1;
      assert news == news[..n] + [news[n]] && news[n] in news;
      CreatedIsRecorded(s, news[..n]);
      assert s.accounts + news[..n] + [news[n]] == s.accounts + news;
    }
  }

  lemma {:induction false} SegmentsAreNamed(parts: seq<string>)
    ensures forall p :: p in NonBlank(parts) ==> !Blank(p)
  {
    if parts != [] {
      hide Blank, TrimStart, TrimEnd;
      SegmentsAreNamed(parts[1..]);
      if TrimEnd(TrimStart(parts[0])) != "" {
        TrimmedIsNotBlank(parts[0]);
      }
    }
  }

  lemma DecimalIsANumber(n: int)
    ensures NumberOk(Decimal(n))
  {
    var digits := Digits(Magnitude(n));
    DecimalIsTrimmed(n);
    hide Digits, TrimStart, TrimEnd;
    forall c | c in Decimal(n) ensures NumberChar(c) {
      assert c in digits || c == '-';
    }
  }

  lemma MintedIsWellNamed(before: seq<Account>, path: string, k: nat, kind: AccountType, a: Account)
    requires k < |Segments(path)| && Minted(before, Segments(path), k, kind, a)
    ensures WellNamed(a)
  {
    SegmentsAreNamed(Split(path));
    DecimalIsANumber(FreeFrom(NumbersOf(before), FirstCandidate(NumberAt(before, a.parent), kind)));
    assert Segments(path)[k] in Segments(path);
    hide Blank, NumberOk, FreeFrom, NumbersOf, FirstWith, JoinPath, NonBlank, Split;
  }

  /** The store's own rules refuse no batch of accounts minted for paths: recorded whole, it is the grown chart. */
  lemma {:induction false} BatchIsRecorded(s: State, paths: seq<Request>, news: seq<Account>, leaves: seq<AccountId>)
    requires EnsuredBy(s.accounts, paths, news, leaves)
    ensures Record(s, Created(news)) == Some(s.(accounts := s.accounts + news))
  {
    hide *;
    EnsuredIsGrown(s.accounts, paths, news, leaves);
    var rows := s.accounts + news;
    forall a | a in news ensures WellNamed(a) {
      var m :| 0 <= m < |news| && news[m] == a;
      var i, k := MintedAt(s.accounts, paths, rows, |s.accounts| + m);
      MintedIsWellNamed(rows[..|s.accounts| + m], paths[i].path, k, paths[i].kind, a);
    }
    CreatedIsRecorded(s, news);
  }
}
