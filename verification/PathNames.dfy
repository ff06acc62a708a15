/** Colon-separated paths as text: the names along one, and what joining them gives. */
module PathNames {
  import opened Texts

  function JoinPath(parts: seq<string>): string {
    if parts == [] then ""
    else if |parts| == 1 then parts[0]
    else JoinPath(parts[..|parts| - 1]) + ":" + parts[|parts| - 1]
  }

  /** `split(':')`. */
  function Split(s: string): seq<string>
    decreases |s|
  {
    var i := FirstOf(s, ':');
    if i == |s| then [s] else [s[..i]] + Split(s[i + 1..])
  }

  function NonBlank(parts: seq<string>): seq<string> {
    if parts == [] then []
    else
      var t := TrimEnd(TrimStart(parts[0]));
      (if t == "" then [] else [t]) + NonBlank(parts[1..])
  }

  /** The names along a path, blanks dropped. */
  function Segments(path: string): seq<string> {
    NonBlank(Split(path))
  }

  // ------------------------------------------------------------------ what the names are

  lemma {:induction false} SplitConcat(a: string, b: string)
    ensures Split(a + ":" + b) == Split(a) + Split(b)
    decreases |a|
  {
    var i := FirstOf(a, ':');
    if i == |a| {
      SplitOne(a);
      SplitFirst(a, b);
    } else {
      hide Split, FirstOf;
      var first, rest := a[..i], a[i + 1..];
      AtColon(a, i);
      SplitFirst(first, rest);
      Regroup(first, rest, b);
      SplitFirst(first, rest + ":" + b);
      SplitConcat(rest, b);
    }
  }

  lemma Regroup(a: string, b: string, c: string)
    ensures (a + ":" + b) + ":" + c == a + ":" + (b + ":" + c)
  {
  }

  lemma SplitOne(a: string)
    requires ':' !in a
    ensures Split(a) == [a]
  {
    assert FirstOf(a, ':') == |a|;
  }

  lemma SplitFirst(a: string, b: string)
    requires ':' !in a
    ensures Split(a + ":" + b) == [a] + Split(b)
  {
    FirstAfter(a, b, ':');
    var s := a + ":" + b;
    assert s[..|a|] == a && s[|a| + 1..] == b;
  }

  lemma {:induction false} NonBlankConcat(a: seq<string>, b: seq<string>)
    ensures NonBlank(a + b) == NonBlank(a) + NonBlank(b)
  {
    hide TrimStart, TrimEnd;
    if a == [] {
      assert a + b == b;
    } else {
      assert (a + b)[0] == a[0] && (a + b)[1..] == a[1..] + b;
      NonBlankConcat(a[1..], b);
    }
  }

  /** A colon parts the names before it from those after it, whatever the texts. */
  lemma SegmentsConcat(a: string, b: string)
    ensures Segments(a + ":" + b) == Segments(a) + Segments(b)
  {
    SplitConcat(a, b);
    NonBlankConcat(Split(a), Split(b));
  }

  /** A text without a colon is one name, its spaces trimmed off, or none if it is blank. */
  lemma SegmentsOfOne(name: string)
    requires ':' !in name
    ensures Segments(name) == if AllSpaces(name) then [] else [TrimEnd(TrimStart(name))]
  {
    BlankMeans(name);
    hide TrimStart, TrimEnd, AllSpaces;
    assert FirstOf(name, ':') == |name|;
    assert Split(name) == [name];
    assert [name][1..] == [] && NonBlank([]) == [];
    assert NonBlank([name]) == (if TrimEnd(TrimStart(name)) == "" then [] else [TrimEnd(TrimStart(name))]) + [];
  }

  /** A name that is not blank, has no space at either end and no colon. */
  predicate NameOk(name: string) {
    name != "" && ':' !in name && !IsSpace(name[0]) && !IsSpace(name[|name| - 1])
  }

  lemma SegmentsOfName(name: string)
    requires NameOk(name)
    ensures Segments(name) == [name]
  {
    SegmentsOfOne(name);
    Trimmed(name);
    assert name[0] in name;
  }

  /** Names joined are read back as they were, in order. */
  lemma {:induction false} SegmentsOfJoin(names: seq<string>)
    requires names != [] && forall p :: p in names ==> NameOk(p)
    ensures Segments(JoinPath(names)) == names
  {
    hide Segments, NameOk;
    var n := |names| - 1;
    assert names[n] in names && forall p :: p in names[..n] ==> p in names;
    SegmentsOfName(names[n]);
    if n == 0 {
      assert names == [names[0]];
    } else {
      SegmentsOfJoin(names[..n]);
      SegmentsConcat(JoinPath(names[..n]), names[n]);
      assert names == names[..n] + [names[n]];
    }
  }

  /** Text as a path is written: it neither begins nor ends with a colon or a space, and no colon stands next to
      another or to a space. */
  predicate Canonical(path: string) {
    && path != "" && !Separates(path[0]) && !Separates(path[|path| - 1])
    && forall k :: 0 < k < |path| - 1 ==> StandsAlone(path, k)
  }

  predicate StandsAlone(path: string, k: int)
    requires 0 < k < |path| - 1
  {
    path[k] == ':' ==> !Separates(path[k - 1]) && !Separates(path[k + 1])
  }

  predicate Separates(c: char) {
    c == ':' || IsSpace(c)
  }

  lemma CanonicalSplits(path: string, i: nat)
    requires Canonical(path) && i == FirstOf(path, ':') < |path|
    ensures 0 < i < |path| - 1 && NameOk(path[..i]) && Canonical(path[i + 1..])
    ensures path == path[..i] + ":" + path[i + 1..]
  {
    hide *;
    CanonicalInside(path, i);
    CanonicalFirst(path, i);
    CanonicalRest(path, i);
    AtColon(path, i);
  }

  lemma AtColon(path: string, i: nat)
    requires i < |path| && path[i] == ':'
    ensures path == path[..i] + ":" + path[i + 1..]
  {
  }

  lemma CanonicalInside(path: string, i: nat)
    requires Canonical(path) && i < |path| && path[i] == ':'
    ensures 0 < i < |path| - 1 && !Separates(path[0]) && !Separates(path[i - 1]) && !Separates(path[i + 1])
  {
    assert Separates(path[i]);
    assert 0 < i < |path| - 1 && StandsAlone(path, i);
  }

  lemma CanonicalFirst(path: string, i: nat)
    requires 0 < i < |path| && ':' !in path[..i] && !Separates(path[0]) && !Separates(path[i - 1])
    ensures NameOk(path[..i])
  {
    var name := path[..i];
    assert name[0] == path[0] && name[i - 1] == path[i - 1];
  }

  lemma CanonicalRest(path: string, i: nat)
    requires Canonical(path) && 0 < i < |path| - 1 && !Separates(path[i + 1])
    ensures Canonical(path[i + 1..])
  {
    var rest := path[i + 1..];
    assert rest[0] == path[i + 1] && rest[|rest| - 1] == path[|path| - 1];
    hide Separates;
    forall k | 0 < k < |rest| - 1 ensures StandsAlone(rest, k) {
      assert StandsAlone(path, i + 1 + k);
      assert rest[k] == path[i + 1 + k] && rest[k - 1] == path[i + k] && rest[k + 1] == path[i + 2 + k];
    }
  }

  lemma {:induction false} JoinCons(name: string, rest: seq<string>)
    requires rest != []
    ensures JoinPath([name] + rest) == name + ":" + JoinPath(rest)
  {
    var n := |rest| - 1;
    assert ([name] + rest)[..n + 1] == [name] + rest[..n];
    if n == 0 {
      assert [name] + rest[..0] == [name];
    } else {
      JoinCons(name, rest[..n]);
    }
  }

  /** A path so written is what its names join to. */
  lemma {:induction false} CanonicalReads(path: string)
    requires Canonical(path)
    ensures Segments(path) != [] && JoinPath(Segments(path)) == path
    decreases |path|
  {
    hide Segments, JoinPath;
    var i := FirstOf(path, ':');
    if i == |path| {
      SegmentsOfName(path);
      JoinOne(path);
    } else {
      CanonicalSplits(path, i);
      hide Canonical;
      SegmentsOfName(path[..i]);
      SegmentsConcat(path[..i], path[i + 1..]);
      CanonicalReads(path[i + 1..]);
      JoinCons(path[..i], Segments(path[i + 1..]));
    }
  }

  lemma JoinOne(name: string)
    ensures JoinPath([name]) == name
  {
  }

  /** Some character is neither a colon nor a space. */
  predicate Named(path: string) {
    exists c :: c in path && !Separates(c)
  }

  /** A path has a name exactly when it holds a character that is neither a colon nor a space. */
  lemma {:induction false} NamedHasSegments(path: string)
    ensures Segments(path) != [] <==> Named(path)
    decreases |path|
  {
    hide Segments;
    var i := FirstOf(path, ':');
    if i == |path| {
      SegmentsOfOne(path);
    } else {
      var a, b := path[..i], path[i + 1..];
      assert path == a + ":" + b;
      SegmentsOfOne(a);
      SegmentsConcat(a, b);
      NamedHasSegments(b);
      assert forall c :: c in path <==> c in a || c == ':' || c in b;
    }
  }
}
