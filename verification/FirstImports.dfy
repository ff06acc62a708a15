/** The first import of an Amazon report: what it adds to the books. */
module FirstImports {
  import opened Options
  import opened Sums
  import opened Ledger
  import opened Commands
  import opened Invariants
  import opened Runs
  import opened Texts
  import opened AmazonOrders
  import opened AmazonCharges
  import opened AmazonImports
  import opened AmazonReimports
  import opened SyncRuns

  /** The posts whose reference is not in the books. */
  function Landing(s: State, posts: seq<Post>): seq<Post>
    requires forall i :: 0 <= i < |posts| ==> posts[i].reference.Some?
  {
    if posts == [] then []
    else
      var last := posts[|posts| - 1];
      Landing(s, posts[..|posts| - 1]) + if Held(s, last.reference.value) then [] else [last]
  }

  function Entered(posts: seq<Post>): (entries: seq<Entry>)
    ensures |entries| == |posts| && forall i :: 0 <= i < |posts| ==> entries[i] == Posted(posts[i])
  {
    seq(|posts|, i requires 0 <= i < |posts| => Posted(posts[i]))
  }

  ghost predicate OwnReferences(posts: seq<Post>) {
    && (forall i :: 0 <= i < |posts| ==> posts[i].reference.Some?)
    && (forall i, j :: 0 <= i < j < |posts| ==> posts[i].reference != posts[j].reference)
  }

  lemma PostLands(s: State, books: Books, post: Post)
    requires post.reference.Some? && !Troubled(s, books, PostEntry(post))
    ensures Step(s, books, PostEntry(post)) == if Held(s, post.reference.value) then s
            else s.(entries := s.entries + [Posted(post)])
  {
    Attempt(s, books, PostEntry(post));
    if Build(s, books, PostEntry(post)).Append? {
      RecordOne(s, Posting(post));
    }
  }

  lemma {:induction false} LandingHolds(s: State, t: State, posts: seq<Post>, key: Key)
    requires forall i :: 0 <= i < |posts| ==> posts[i].reference.Some? && posts[i].reference.value != key
    requires t.entries == s.entries + Entered(Landing(s, posts))
    ensures Held(t, key) <==> Held(s, key)
  {
    LandingIsOf(s, posts);
    hide Landing;
    var landed := Landing(s, posts);
    forall i | |s.entries| <= i < |t.entries| ensures !Holds(t.entries[i], Keyed(key)) {
      assert landed[i - |s.entries|] in posts;
    }
    if Held(t, key) {
      var i := Holder(t.entries, Keyed(key)).value;
      assert Holds(s.entries[i], Keyed(key));
    }
    if Held(s, key) {
      assert Holds(t.entries[Holder(s.entries, Keyed(key)).value], Keyed(key));
    }
  }

  lemma {:induction false} LandingIsOf(s: State, posts: seq<Post>)
    requires forall i :: 0 <= i < |posts| ==> posts[i].reference.Some?
    ensures forall p :: p in Landing(s, posts) <==> p in posts && p.reference.Some? && !Held(s, p.reference.value)
  {
    hide Held;
    if posts != [] {
      LandingIsOf(s, posts[..|posts| - 1]);
      assert posts == posts[..|posts| - 1] + [posts[|posts| - 1]];
    }
  }

  function Landed(s: State, posts: seq<Post>): State
    requires forall i :: 0 <= i < |posts| ==> posts[i].reference.Some?
  {
    s.(entries := s.entries + Entered(Landing(s, posts)))
  }

  lemma LandOne(s: State, books: Books, posts: seq<Post>, post: Post)
    requires OwnReferences(posts + [post])
    requires OwnReferences(posts) && !Troubled(Landed(s, posts), books, PostEntry(post))
    ensures Step(Landed(s, posts), books, PostEntry(post)) == Landed(s, posts + [post])
  {
    hide *;
    LastIsApart(posts, post);
    var before := Landed(s, posts);
    PostLands(before, books, post);
    LandedHolds(s, posts, post.reference.value);
    LandedMore(s, posts, post);
  }

  lemma LandedHolds(s: State, posts: seq<Post>, key: Key)
    requires forall i :: 0 <= i < |posts| ==> posts[i].reference.Some? && posts[i].reference.value != key
    ensures Held(Landed(s, posts), key) <==> Held(s, key)
  {
    hide Held, Landing;
    LandingHolds(s, Landed(s, posts), posts, key);
  }

  lemma LandedMore(s: State, posts: seq<Post>, post: Post)
    requires post.reference.Some? && forall i :: 0 <= i < |posts| ==> posts[i].reference.Some?
    ensures Landed(s, posts + [post])
         == var t := Landed(s, posts); if Held(s, post.reference.value) then t
            else t.(entries := t.entries + [Posted(post)])
  {
    LandingSnoc(s, posts, post);
    hide Landing, Held, Posted;
    var landed := Landing(s, posts);
    EnteredSnoc(s.entries, landed, post);
  }

  lemma EnteredSnoc(before: seq<Entry>, posts: seq<Post>, post: Post)
    ensures before + Entered(posts + [post]) == before + Entered(posts) + [Posted(post)]
  {
    hide Posted;
    assert Entered(posts + [post]) == Entered(posts) + [Posted(post)];
  }

  lemma LandingSnoc(s: State, posts: seq<Post>, post: Post)
    requires post.reference.Some? && forall i :: 0 <= i < |posts| ==> posts[i].reference.Some?
    ensures Landing(s, posts + [post]) == if Held(s, post.reference.value) then Landing(s, posts)
            else Landing(s, posts) + [post]
  {
    hide Held;
    assert (posts + [post])[..|posts|] == posts;
  }

  lemma LastIsApart(posts: seq<Post>, post: Post)
    requires OwnReferences(posts + [post])
    ensures post.reference.Some?
    ensures forall i :: 0 <= i < |posts| ==>
                          posts[i].reference.Some? && posts[i].reference.value != post.reference.value
  {
    var all := posts + [post];
    assert all[|posts|] == post;
    forall i | 0 <= i < |posts| ensures posts[i].reference.Some? && posts[i].reference.value != post.reference.value {
      assert all[i] == posts[i] && all[i].reference != all[|posts|].reference;
    }
  }

  /** Posts with references of their own, none of them troubled, enter the books just as they are, but for those
      whose reference was there. */
  lemma {:induction false} PostsLand(s: State, books: Books, posts: seq<Post>)
    requires OwnReferences(posts) && Troubles(s, books, PostCommands(posts)) == 0
    ensures Run(s, books, PostCommands(posts)) == Landed(s, posts)
  {
    hide Step, Troubled, Held;
    if posts == [] {
      assert s.entries + [] == s.entries;
    } else {
      var n := |posts| - 1;
      assert PostCommands(posts)[..n] == PostCommands(posts[..n]);
      assert posts == posts[..n] + [posts[n]];
      hide Landed;
      PostsLand(s, books, posts[..n]);
      LandOne(s, books, posts[..n], posts[n]);
    }
  }

  /** The size of every settlement of the charges. */
  function SettlementsOf(charges: seq<Charge>): Cents {
    if charges == [] then 0
    else SettlementsOf(charges[..|charges| - 1])
         + Sum(charges[|charges| - 1].payments, (p: Payment) => Magnitude(p.amount))
  }

  lemma {:induction false} MagnitudesAddUp(payments: seq<Payment>)
    ensures Sum(payments, (p: Payment) => Magnitude(p.amount))
         == PaymentsTotal(payments) + 2 * Sum(payments, NegativePayment)
  {
    if payments != [] {
      MagnitudesAddUp(payments[..|payments| - 1]);
    }
  }

  lemma PostClears(charges: seq<Charge>, i: nat, at: Accounts)
    requires i < |charges| && Funded(charges) && at.clearing != at.uncategorized
    ensures LiveEffect(Posted(ChargePost(charges, i, at)), at.clearing)
         == -Sum(charges[i].payments, (p: Payment) => Magnitude(p.amount))
  {
    hide ReferenceOf, ChargeLines, Funded;
    ChargeEntryBalances(charges[i], at);
    MagnitudesAddUp(charges[i].payments);
  }

  lemma {:induction false} PostsClear(charges: seq<Charge>, n: nat, posts: seq<Post>, at: Accounts)
    requires Funded(charges) && n == |posts| <= |charges| && at.clearing != at.uncategorized
    requires forall i :: 0 <= i < n ==> posts[i] == ChargePost(charges, i, at)
    ensures Sum(Entered(posts), (e: Entry) => LiveEffect(e, at.clearing)) == -SettlementsOf(charges[..n])
  {
    hide ChargePost, LiveEffect, Posted;
    if n != 0 {
      PostsClear(charges, n - 1, posts[..n - 1], at);
      assert charges[..n][..n - 1] == charges[..n - 1]
             && Entered(posts) == Entered(posts[..n - 1]) + [Posted(posts[n - 1])];
      SumAppend(Entered(posts[..n - 1]), Posted(posts[n - 1]), (e: Entry) => LiveEffect(e, at.clearing));
      PostClears(charges, n - 1, at);
    }
  }

  lemma {:induction false} AllLand(s: State, posts: seq<Post>)
    requires forall i :: 0 <= i < |posts| ==> posts[i].reference.Some? && !Held(s, posts[i].reference.value)
    ensures Landing(s, posts) == posts
  {
    hide Held;
    if posts != [] {
      AllLand(s, posts[..|posts| - 1]);
    }
  }

  /** What an import plans for a report with nothing in the books: a post a charge, each under its own reference. */
  lemma {:induction false} FirstPosts(s: State, report: seq<Reported>, at: Accounts)
    requires WellReported(report) && NoneImported(s.entries, ReportCharges(report))
    ensures var charges := ReportCharges(report);
            var posts := PostsFor(s.entries, charges, |charges|, at);
            && |posts| == |charges| && (forall i :: 0 <= i < |charges| ==> posts[i] == ChargePost(charges, i, at))
            && OwnReferences(posts)
  {
    var charges := ReportCharges(report);
    ChargePostsAreNamed(charges, at);
    hide ReportCharges, PostsFor, AlreadyImported, ReferenceOf, ChargePost, WellReported, NoneImported, Funded;
    AllArePosted(s.entries, charges, |charges|, at);
    ReportReferencesAreDistinct(report);
  }

  /** A charge with the legacy key of one before it. */
  predicate Repeats(charges: seq<Charge>, i: nat)
    requires i < |charges| && Funded(charges)
  {
    Legacy(charges[i]) in Legacies(charges, i)
  }

  /** Of the charges that are not found in the books, only a repeat's reference can be there. */
  lemma OnlyRepeatsMeetTheirReference(s: State, charges: seq<Charge>, i: nat)
    requires Funded(charges) && i < |charges| && !AlreadyImported(s.entries, charges[i])
    ensures Held(s, ReferenceOf(charges, i)) ==> Repeats(charges, i)
  {
    hide AlreadyImported, Held, Legacy, Legacies;
    if Held(s, Legacy(charges[i])) {
      HeldIsFound(s, charges[i], charges[i]);
    }
  }

  /** A charge is lost exactly when its reference is in the books, and then no error is counted: an import that went
      through adds the posts whose reference was free, just as they are and in order, and nothing else. */
  lemma {:induction false} HeldReferenceLosesACharge(s: State, books: Books, report: seq<Reported>, at: Accounts)
    requires WellReported(report) && NoneImported(s.entries, ReportCharges(report))
    requires Troubles(s, books,
                      PostCommands(PostsFor(s.entries, ReportCharges(report), |ReportCharges(report)|, at))) == 0
    ensures var posts := PostsFor(s.entries, ReportCharges(report), |ReportCharges(report)|, at);
            && OwnReferences(posts)
            && Run(s, books, PostCommands(posts)) == Landed(s, posts)
            && forall p :: p in Landing(s, posts) <==> p in posts && p.reference.Some? && !Held(s, p.reference.value)
  {
    FirstPosts(s, report, at);
    assert forall posts: seq<Post> | OwnReferences(posts) :: forall i :: 0 <= i < |posts| ==> posts[i].reference.Some?;
    hide *;
    var posts := PostsFor(s.entries, ReportCharges(report), |ReportCharges(report)|, at);
    PostsLand(s, books, posts);
    LandingIsOf(s, posts);
  }

  /** A first import posts every charge of the report once. Where the books have none of its orders yet, and every post
      is accepted, they gain one live entry a charge, in order, under the charge's reference and with its lines; and the
      clearing account loses every settlement's size. */
  lemma {:induction false} FirstImportPostsEachOnce(s: State, books: Books, report: seq<Reported>, at: Accounts)
    requires WellReported(report) && NewOrders(s.entries, report) && at.clearing != at.uncategorized
    requires Troubles(s, books,
                      PostCommands(PostsFor(s.entries, ReportCharges(report), |ReportCharges(report)|, at))) == 0
    ensures var charges := ReportCharges(report);
            var t := Run(s, books, PostCommands(PostsFor(s.entries, charges, |charges|, at)));
            && |t.entries| == |s.entries| + |charges| && t.entries[..|s.entries|] == s.entries
            && (forall i :: 0 <= i < |charges| ==> t.entries[|s.entries| + i] == ChargeEntry(charges, i, at))
            && LiveBalance(t.entries, at.clearing) == LiveBalance(s.entries, at.clearing) - SettlementsOf(charges)
  {
    hide *;
    NewOrdersAreNotImported(s.entries, report);
    forall i | 0 <= i < |ReportCharges(report)| ensures !Held(s, ReferenceOf(ReportCharges(report), i)) {
      NewOrdersHoldNoReference(s, report, i);
    }
    UnimportedArePostedOnce(s, books, report, at);
  }

  /** So it does where only some references of those orders are about: none under which a charge counts as imported, nor
      that of a repeat. */
  lemma {:induction false} UnimportedArePostedOnce(s: State, books: Books, report: seq<Reported>, at: Accounts)
    requires WellReported(report) && NoneImported(s.entries, ReportCharges(report)) && at.clearing != at.uncategorized
    requires forall i :: 0 <= i < |ReportCharges(report)| && Repeats(ReportCharges(report), i) ==>
               !Held(s, ReferenceOf(ReportCharges(report), i))
    requires Troubles(s, books,
                      PostCommands(PostsFor(s.entries, ReportCharges(report), |ReportCharges(report)|, at))) == 0
    ensures var charges := ReportCharges(report);
            var t := Run(s, books, PostCommands(PostsFor(s.entries, charges, |charges|, at)));
            && |t.entries| == |s.entries| + |charges| && t.entries[..|s.entries|] == s.entries
            && (forall i :: 0 <= i < |charges| ==> t.entries[|s.entries| + i] == ChargeEntry(charges, i, at))
            && LiveBalance(t.entries, at.clearing) == LiveBalance(s.entries, at.clearing) - SettlementsOf(charges)
  {
    FirstPosts(s, report, at);
    assert |PostsFor(s.entries, ReportCharges(report), |ReportCharges(report)|, at)| == |ReportCharges(report)|;
    assert forall i :: 0 <= i < |ReportCharges(report)| ==> !AlreadyImported(s.entries, ReportCharges(report)[i]);
    hide *;
    var charges := ReportCharges(report);
    forall i | 0 <= i < |charges| ensures !Held(s, ReferenceOf(charges, i)) {
      OnlyRepeatsMeetTheirReference(s, charges, i);
    }
    var posts := PostsFor(s.entries, charges, |charges|, at);
    PostsLand(s, books, posts);
    LandedAll(s, charges, posts, at);
  }

  lemma {:induction false} LandedAll(s: State, charges: seq<Charge>, posts: seq<Post>, at: Accounts)
    requires Funded(charges) && OwnReferences(posts) && |posts| == |charges| && at.clearing != at.uncategorized
    requires forall i :: 0 <= i < |charges| ==>
                           posts[i] == ChargePost(charges, i, at) && !Held(s, ReferenceOf(charges, i))
    ensures var t := Landed(s, posts);
            && |t.entries| == |s.entries| + |charges| && t.entries[..|s.entries|] == s.entries
            && (forall i :: 0 <= i < |charges| ==> t.entries[|s.entries| + i] == ChargeEntry(charges, i, at))
            && LiveBalance(t.entries, at.clearing) == LiveBalance(s.entries, at.clearing) - SettlementsOf(charges)
  {
    hide *;
    ChargePostsAreNamed(charges, at);
    AllLand(s, posts);
    LandedWhole(s, posts);
    PostsClear(charges, |charges|, posts, at);
    assert charges[..|charges|] == charges;
    EnteredAre(s.entries, posts, Landed(s, posts).entries);
  }

  lemma EnteredAre(before: seq<Entry>, posts: seq<Post>, after: seq<Entry>)
    requires after == before + Entered(posts)
    ensures |after| == |before| + |posts| && after[..|before|] == before
    ensures forall i {:trigger posts[i]} :: 0 <= i < |posts| ==> after[|before| + i] == Posted(posts[i])
  {
    hide Posted;
  }

  lemma LandedWhole(s: State, posts: seq<Post>)
    requires (forall i :: 0 <= i < |posts| ==> posts[i].reference.Some?) && Landing(s, posts) == posts
    ensures Landed(s, posts).entries == s.entries + Entered(posts)
    ensures forall a :: LiveBalance(Landed(s, posts).entries, a)
              == LiveBalance(s.entries, a) + Sum(Entered(posts), (e: Entry) => LiveEffect(e, a))
  {
    forall a ensures LiveBalance(s.entries + Entered(posts), a)
                     == LiveBalance(s.entries, a) + Sum(Entered(posts), (e: Entry) => LiveEffect(e, a))
    {
      SumConcat(s.entries, Entered(posts), (e: Entry) => LiveEffect(e, a));
    }
  }

  /** The entry of a charge. */
  function ChargeEntry(charges: seq<Charge>, i: nat, at: Accounts): Entry
    requires i < |charges| && Funded(charges)
  {
    Entry(charges[i].date, ChargeLines(charges[i], at), Some(Keyed(ReferenceOf(charges, i))), Some(Import), false)
  }

  lemma ChargePostsAreNamed(charges: seq<Charge>, at: Accounts)
    requires Funded(charges)
    ensures forall i :: 0 <= i < |charges| ==>
              && ChargePost(charges, i, at).reference == Some(ReferenceOf(charges, i))
              && Posted(ChargePost(charges, i, at)) == ChargeEntry(charges, i, at)
  {
    hide ReferenceOf, ChargeLines, Funded;
  }

  /** No live entry is under an Amazon reference of one of the report's orders. */
  ghost predicate NewOrders(entries: seq<Entry>, report: seq<Reported>) {
    forall i, r :: 0 <= i < |entries| && !entries[i].isVoid && r in report ==> !NamesOrder(entries[i], r.orderId)
  }

  predicate NamesOrder(e: Entry, orderId: string) {
    && e.reference.Some? && e.reference.value.Keyed? && e.reference.value.key.AmazonKey?
    && e.reference.value.key.order == orderId
  }

  lemma NewOrdersAreNotImported(entries: seq<Entry>, report: seq<Reported>)
    requires NewOrders(entries, report)
    ensures NoneImported(entries, ReportCharges(report))
  {
    ReportNamesOrders(report);
    hide ReportCharges, AlreadyImported, NamesOrder;
    var charges := ReportCharges(report);
    forall i | 0 <= i < |charges| ensures !AlreadyImported(entries, charges[i]) {
      assert charges[i] in charges;
      var r :| r in report && r.orderId == charges[i].orderId;
      if AlreadyImported(entries, charges[i]) {
        ImportedNamesOrder(entries, charges[i]);
      }
    }
  }

  lemma ImportedNamesOrder(entries: seq<Entry>, c: Charge)
    requires AlreadyImported(entries, c)
    ensures exists i :: 0 <= i < |entries| && !entries[i].isVoid && NamesOrder(entries[i], c.orderId)
  {
    hide AlreadyImported;
    ImportedMeans(entries, c);
    var i, j, day, amount :|
      && 0 <= i < |entries| && 0 <= j < |c.payments| && !entries[i].isVoid
      && entries[i].reference == Some(Keyed(AmazonKey(c.orderId, day, amount, c.payments[j].last4, None)))
      && (amount == c.payments[j].amount || (0 <= c.payments[j].amount && amount == -c.payments[j].amount));
    assert NamesOrder(entries[i], c.orderId);
  }

  lemma NewOrdersHoldNoReference(s: State, report: seq<Reported>, i: nat)
    requires NewOrders(s.entries, report) && i < |ReportCharges(report)|
    ensures !Held(s, ReferenceOf(ReportCharges(report), i))
  {
    ReportNamesOrders(report);
    var charges := ReportCharges(report);
    hide ReportCharges;
    assert charges[i] in charges;
    var r :| r in report && r.orderId == charges[i].orderId;
    ReferencesAre(charges, i);
    var key := ReferenceOf(charges, i);
    hide ReferenceOf;
    if Held(s, key) {
      HeldNamesOrder(s, key);
    }
  }

  lemma HeldNamesOrder(s: State, key: Key)
    requires Held(s, key) && key.AmazonKey?
    ensures exists i :: 0 <= i < |s.entries| && !s.entries[i].isVoid && NamesOrder(s.entries[i], key.order)
  {
    var h := Holder(s.entries, Keyed(key)).value;
    assert NamesOrder(s.entries[h], key.order);
  }
}
