/** Slash-separated relative paths: lexical cleaning, the walk it stands for, and the checks on
    manifest paths, archive entries and symbolic links that rest on it. */
module Paths {
  import opened Wrappers

  predicate Rooted(p: string) { p != "" && p[0] == '/' }

  predicate Printable(c: char) { ' ' <= c <= '~' }

  predicate PrintableAscii(s: string) { forall k :: 0 <= k < |s| ==> Printable(s[k]) }

  predicate HasPrefix(s: string, prefix: string) { prefix <= s }

  // ---- components -------------------------------------------------------------------------

  predicate Separated(parts: seq<string>) {
    forall k :: 0 <= k < |parts| ==> '/' !in parts[k]
  }

  function Split(p: string): (parts: seq<string>)
    ensures |parts| > 0 && Separated(parts)
  {
    if p == "" then [""] else Extend(p[0], Split(p[1..]))
  }

  /** One more character in front of split text. */
  function Extend(c: char, rest: seq<string>): (parts: seq<string>)
    requires |rest| > 0 && Separated(rest)
    ensures |parts| > 0 && Separated(parts)
  {
    if c == '/' then [""] + rest else [[c] + rest[0]] + rest[1..]
  }

  function Join(parts: seq<string>): string
    requires |parts| > 0
  {
    if |parts| == 1 then parts[0] else parts[0] + "/" + Join(parts[1..])
  }

  lemma {:induction false} JoinOfSplit(p: string)
    ensures Join(Split(p)) == p
  {
    if p != "" {
      JoinOfSplit(p[1..]);
      var rest := Split(p[1..]);
      if p[0] == '/' {
        assert ([""] + rest)[1..] == rest;
      } else {
        var parts := [[p[0]] + rest[0]] + rest[1..];
        if |rest| > 1 {
          assert parts[1..] == rest[1..];
          assert Join(parts) == [p[0]] + (rest[0] + "/" + Join(rest[1..]));
        }
        assert Join(parts) == [p[0]] + Join(rest);
      }
    }
  }

  lemma ExtendOfConcat(c: char, a: seq<string>, b: seq<string>)
    requires |a| > 0 && Separated(a) && Separated(b)
    ensures Separated(a + b) && Extend(c, a + b) == Extend(c, a) + b
  {
    assert (a + b)[1..] == a[1..] + b;
  }

  lemma {:induction false} SplitOfConcat(a: string, b: string)
    ensures Split(a + "/" + b) == Split(a) + Split(b)
  {
    if a == "" {
      assert ("/" + b)[1..] == b;
      assert a + "/" + b == "/" + b;
    } else {
      SplitOfConcat(a[1..], b);
      assert (a + "/" + b)[1..] == a[1..] + "/" + b;
      ExtendOfConcat(a[0], Split(a[1..]), Split(b));
    }
  }

  lemma {:induction false} SplitOfName(name: string)
    requires '/' !in name
    ensures Split(name) == [name]
  {
    if name != "" {
      assert '/' !in name[1..];
      SplitOfName(name[1..]);
      assert [name[0]] + name[1..] == name;
    }
  }

  lemma {:induction false} SplitOfJoin(parts: seq<string>)
    requires |parts| > 0 && Separated(parts)
    ensures Split(Join(parts)) == parts
  {
    SplitOfName(parts[0]);
    if |parts| > 1 {
      SplitOfJoin(parts[1..]);
      SplitOfConcat(parts[0], Join(parts[1..]));
    }
  }

  // ---- cleaning ---------------------------------------------------------------------------

  /** A component that names something below the current directory. */
  predicate Plain(part: string) { part != "" && part != "." && part != ".." }

  /** Any number of steps up, then plain names only. */
  predicate Normal(parts: seq<string>) {
    forall k :: 0 <= k < |parts| ==>
      Plain(parts[k]) || (parts[k] == ".." && forall l :: 0 <= l < k ==> parts[l] == "..")
  }

  function Step(kept: seq<string>, part: string): seq<string> {
    if part == "" || part == "." then kept
    else if part == ".." && kept != [] && kept[|kept| - 1] != ".." then kept[..|kept| - 1]
    else kept + [part]
  }

  function Reduce(kept: seq<string>, parts: seq<string>): seq<string>
    decreases |parts|
  {
    if parts == [] then kept else Reduce(Step(kept, parts[0]), parts[1..])
  }

  /** The shortest lexical form of a relative path; "." for the directory itself. */
  function Clean(p: string): string
    requires !Rooted(p)
  {
    var parts := Reduce([], Split(p));
    if parts == [] then "." else Join(parts)
  }

  lemma {:induction false} ReduceIsNormal(kept: seq<string>, parts: seq<string>)
    requires Normal(kept) && Separated(kept) && Separated(parts)
    ensures Normal(Reduce(kept, parts)) && Separated(Reduce(kept, parts))
    decreases |parts|
  {
    if parts != [] {
      var next := Step(kept, parts[0]);
      if parts[0] == ".." && next == kept + [parts[0]] {
        forall l | 0 <= l < |kept| ensures kept[l] == ".." {
          assert Plain(kept[l]) || kept[l] == "..";
        }
      }
      ReduceIsNormal(next, parts[1..]);
    }
  }

  lemma {:induction false} ReduceOfNormal(kept: seq<string>, parts: seq<string>)
    requires Normal(kept + parts)
    ensures Reduce(kept, parts) == kept + parts
    decreases |parts|
  {
    if parts == [] {
      assert kept + parts == kept;
    } else {
      assert (kept + parts)[|kept|] == parts[0];
      if kept != [] {
        assert (kept + parts)[|kept| - 1] == kept[|kept| - 1];
      }
      assert Step(kept, parts[0]) == kept + [parts[0]];
      assert kept + [parts[0]] + parts[1..] == kept + parts;
      ReduceOfNormal(kept + [parts[0]], parts[1..]);
    }
  }

  /** What the cleaned text splits into. */
  lemma CleanParts(p: string)
    requires !Rooted(p)
    ensures var parts := Reduce([], Split(p));
            && Normal(parts) && Separated(parts) && !Rooted(Clean(p)) && Clean(p) != ""
            && Split(Clean(p)) == (if parts == [] then ["."] else parts)
  {
    var parts := Reduce([], Split(p));
    ReduceIsNormal([], Split(p));
    if parts == [] {
      SplitOfName(".");
    } else {
      SplitOfJoin(parts);
      assert parts[0] != "";
      assert Join(parts)[0] == parts[0][0];
    }
  }

  lemma CleanIsIdempotent(p: string)
    requires !Rooted(p)
    ensures !Rooted(Clean(p)) && Clean(Clean(p)) == Clean(p)
  {
    CleanParts(p);
    var parts := Reduce([], Split(p));
    if parts == [] {
      assert Reduce([], ["."]) == Reduce(Step([], "."), []);
    } else {
      assert [] + parts == parts;
      ReduceOfNormal([], parts);
    }
  }

  // ---- walking ----------------------------------------------------------------------------

  /** Where a walk over the components ends, from a directory given by the names that lead to it
      from the root; nowhere if it ever steps above the root. */
  function Walk(at: seq<string>, parts: seq<string>): Option<seq<string>>
    decreases |parts|
  {
    if parts == [] then Some(at)
    else if parts[0] == "" || parts[0] == "." then Walk(at, parts[1..])
    else if parts[0] == ".." then (if at == [] then None else Walk(at[..|at| - 1], parts[1..]))
    else Walk(at + [parts[0]], parts[1..])
  }

  lemma {:induction false} WalkOfConcat(at: seq<string>, a: seq<string>, b: seq<string>)
    ensures Walk(at, a + b) == (if Walk(at, a).None? then None else Walk(Walk(at, a).value, b))
    decreases |a|
  {
    if a == [] {
      assert a + b == b;
    } else {
      assert (a + b)[1..] == a[1..] + b;
      if a[0] == "" || a[0] == "." {
        WalkOfConcat(at, a[1..], b);
      } else if a[0] == ".." {
        if at != [] {
          WalkOfConcat(at[..|at| - 1], a[1..], b);
        }
      } else {
        WalkOfConcat(at + [a[0]], a[1..], b);
      }
    }
  }

  lemma StepKeepsWalk(at: seq<string>, kept: seq<string>, part: string)
    requires Normal(kept)
    ensures Walk(at, Step(kept, part)) == Walk(at, kept + [part])
  {
    WalkOfConcat(at, kept, [part]);
    if part == ".." && kept != [] && kept[|kept| - 1] != ".." {
      var before, last := kept[..|kept| - 1], kept[|kept| - 1];
      assert kept == before + [last] && Plain(last);
      WalkOfConcat(at, before, [last]);
    }
  }

  lemma {:induction false} ReduceKeepsWalk(at: seq<string>, kept: seq<string>, parts: seq<string>)
    requires Normal(kept) && Separated(kept) && Separated(parts)
    ensures Walk(at, Reduce(kept, parts)) == Walk(at, kept + parts)
    decreases |parts|
  {
    if parts == [] {
      assert kept + parts == kept;
    } else {
      StepIsNormal(kept, parts[0]);
      ReduceKeepsWalk(at, Step(kept, parts[0]), parts[1..]);
      StepThenWalk(at, kept, parts);
    }
  }

  lemma StepIsNormal(kept: seq<string>, part: string)
    requires Normal(kept) && Separated(kept) && '/' !in part
    ensures Normal(Step(kept, part)) && Separated(Step(kept, part))
  {
    ReduceIsNormal(kept, [part]);
    assert Reduce(kept, [part]) == Reduce(Step(kept, part), []);
  }

  lemma StepThenWalk(at: seq<string>, kept: seq<string>, parts: seq<string>)
    requires Normal(kept) && parts != []
    ensures Walk(at, Step(kept, parts[0]) + parts[1..]) == Walk(at, kept + parts)
  {
    StepKeepsWalk(at, kept, parts[0]);
    WalkOfConcat(at, Step(kept, parts[0]), parts[1..]);
    WalkOfConcat(at, kept + [parts[0]], parts[1..]);
    assert kept + [parts[0]] + parts[1..] == kept + parts;
  }

  /** Cleaning keeps the denoted location, from every directory and in every way it can fail. */
  lemma CleanKeepsLocation(at: seq<string>, p: string)
    requires !Rooted(p)
    ensures Walk(at, Split(Clean(p))) == Walk(at, Split(p))
  {
    CleanParts(p);
    assert [] + Split(p) == Split(p);
    ReduceKeepsWalk(at, [], Split(p));
  }

  /** Below the root, a normal path is its own location unless it starts by stepping up. */
  lemma {:induction false} WalkOfNormal(at: seq<string>, parts: seq<string>)
    requires Normal(parts) && (parts != [] ==> parts[0] != "..")
    ensures Walk(at, parts) == Some(at + parts)
    decreases |parts|
  {
    if parts == [] {
      assert at + parts == at;
    } else {
      assert at + [parts[0]] + parts[1..] == at + parts;
      assert Plain(parts[0]);
      forall k | 0 <= k < |parts[1..]| ensures Plain(parts[1..][k]) {
        assert parts[1..][k] == parts[k + 1];
      }
      WalkOfNormal(at + [parts[0]], parts[1..]);
    }
  }

  // ---- the escape test --------------------------------------------------------------------

  /** The text test on a cleaned path: not the root itself and nothing above it. */
  predicate StaysInside(clean: string) {
    clean != "." && clean != ".." && !HasPrefix(clean, "../")
  }

  /** The walk never goes above the root and does not end at it. */
  predicate WalksInside(parts: seq<string>) {
    var end := Walk([], parts);
    end.Some? && end.value != []
  }

  lemma TextTestIsFirstComponentTest(parts: seq<string>)
    requires Normal(parts) && Separated(parts) && parts != []
    ensures StaysInside(Join(parts)) <==> parts[0] != ".."
  {
    SplitOfJoin(parts);
    SplitOfName(".");
    SplitOfName("..");
    assert Plain(parts[0]) || parts[0] == "..";
    if HasPrefix(Join(parts), "../") {
      var rest := Join(parts)[3..];
      assert Join(parts) == ".." + "/" + rest;
      SplitOfConcat("..", rest);
    }
    if parts[0] == ".." && |parts| > 1 {
      assert Join(parts) == "../" + Join(parts[1..]);
    }
  }

  lemma TestEqualsWalk(p: string)
    requires !Rooted(p)
    ensures StaysInside(Clean(p)) <==> WalksInside(Split(p))
    ensures StaysInside(Clean(p)) ==> Walk([], Split(p)) == Some(Split(Clean(p)))
  {
    CleanParts(p);
    CleanKeepsLocation([], p);
    var parts := Reduce([], Split(p));
    if parts != [] {
      TextTestIsFirstComponentTest(parts);
      if parts[0] != ".." {
        WalkOfNormal([], parts);
        assert [] + parts == parts;
      }
    }
  }

  // ---- directories and links --------------------------------------------------------------

  /** Everything up to and including the last slash. */
  function DirectoryPart(p: string): (d: string)
    ensures d <= p
  {
    if p == "" || p[|p| - 1] == '/' then p else DirectoryPart(p[..|p| - 1])
  }

  function Dir(p: string): string
    requires !Rooted(p)
  {
    Clean(DirectoryPart(p))
  }

  /** Joining drops empty elements and cleans the rest. */
  function JoinPath(a: string, b: string): string
    requires !Rooted(a) && !Rooted(b)
  {
    if a != "" then Clean(a + "/" + b) else if b != "" then Clean(b) else ""
  }

  function Lengthen(parts: seq<string>, c: char): seq<string>
    requires |parts| > 0
  {
    parts[..|parts| - 1] + [parts[|parts| - 1] + [c]]
  }

  lemma ExtendOfLengthen(first: char, parts: seq<string>, c: char)
    requires |parts| > 0 && Separated(parts) && c != '/'
    ensures Separated(Lengthen(parts, c)) && Extend(first, Lengthen(parts, c)) == Lengthen(Extend(first, parts), c)
  {
    var longer := Lengthen(parts, c);
    if first == '/' {
      assert [""] + longer == Lengthen([""] + parts, c);
    } else if |parts| == 1 {
      assert longer == [parts[0] + [c]];
      assert [first] + (parts[0] + [c]) == [first] + parts[0] + [c];
      assert Extend(first, longer) == [[first] + parts[0] + [c]];
      assert Extend(first, parts) == [[first] + parts[0]];
    } else {
      assert Extend(first, longer) == [[first] + parts[0]] + longer[1..];
      assert longer[1..] == parts[1..|parts| - 1] + [parts[|parts| - 1] + [c]];
    }
  }

  lemma {:induction false} SplitOfExtension(p: string, c: char)
    requires c != '/'
    ensures Split(p + [c]) == Lengthen(Split(p), c)
  {
    if p == "" {
      SplitOfName([c]);
      assert p + [c] == [c];
    } else {
      SplitOfExtension(p[1..], c);
      assert (p + [c])[1..] == p[1..] + [c];
      ExtendOfLengthen(p[0], Split(p[1..]), c);
    }
  }

  lemma {:induction false} DirectoryPartSplits(p: string)
    ensures var parts := Split(p);
            Split(DirectoryPart(p)) == parts[..|parts| - 1] + [""]
    decreases |p|
  {
    if p == "" {
    } else {
      var front, c := p[..|p| - 1], p[|p| - 1];
      assert p == front + [c];
      if c == '/' {
        assert front + "/" + "" == p;
        SplitOfConcat(front, "");
        assert Split(p) == Split(front) + [""];
      } else {
        SplitOfExtension(front, c);
        DirectoryPartSplits(front);
      }
    }
  }

  /** The components from the root to a link's parent, then those of its target. */
  function LinkParts(link: string, target: string): seq<string> {
    Split(link)[..|Split(link)| - 1] + Split(target)
  }

  function Resolved(link: string, target: string): string
    requires !Rooted(link) && !Rooted(target)
  {
    CleanParts(DirectoryPart(link));
    Clean(JoinedTarget(link, target))
  }

  function JoinedTarget(link: string, target: string): (p: string)
    requires !Rooted(link) && !Rooted(target)
    ensures !Rooted(p)
  {
    CleanParts(DirectoryPart(link));
    CleanParts(Dir(link) + "/" + target);
    JoinPath(Dir(link), target)
  }

  /** The joined and cleaned text passes the escape test exactly when the walk through the link's
      directory and then along its target stays strictly inside the root. */
  lemma EscapeTestEqualsWalk(link: string, target: string)
    requires !Rooted(link) && !Rooted(target)
    ensures StaysInside(Resolved(link, target)) <==> WalksInside(LinkParts(link, target))
    ensures StaysInside(Resolved(link, target)) ==>
              Walk([], LinkParts(link, target)) == Some(Split(Resolved(link, target)))
  {
    CleanParts(DirectoryPart(link));
    var joined := Dir(link) + "/" + target;
    CleanIsIdempotent(joined);
    TestEqualsWalk(joined);
    SplitOfConcat(Dir(link), target);
    WalkOfConcat([], Split(Dir(link)), Split(target));
    CleanKeepsLocation([], DirectoryPart(link));
    DirectoryPartSplits(link);
    var parent := Split(link)[..|Split(link)| - 1];
    WalkOfConcat([], parent, [""]);
    WalkOfConcat([], parent, Split(target));
  }

  // ---- the checks -------------------------------------------------------------------------

  predicate IsPrintableAscii(s: string) { s != "" && PrintableAscii(s) }

  /** A manifest path. */
  predicate SafeRelativePath(path: string) {
    && IsPrintableAscii(path) && '\\' !in path && !HasPrefix(path, "/")
    && var clean := Clean(path);
       clean == path && clean != "." && clean != ".." && !HasPrefix(clean, "../")
  }

  /** The target of a manifest link. */
  predicate SafeSymlinkTarget(target: string) {
    IsPrintableAscii(target) && '\\' !in target && !HasPrefix(target, "/") && Clean(target) == target
  }

  datatype Entry = Entry(path: string, directory: bool)

  function TrimSlash(s: string): string {
    if s != "" && s[|s| - 1] == '/' then s[..|s| - 1] else s
  }

  /** The path of an archive entry, and whether the entry is a directory. */
  function SafeZipPath(name: string): Result<Entry> {
    if name == "" || '\\' in name || HasPrefix(name, "/") || !PrintableAscii(name) then Err("unsafe ZIP entry path")
    else
      var trimmed := TrimSlash(name);
      if trimmed == "" || Clean(trimmed) != trimmed || trimmed == "." || trimmed == ".." || HasPrefix(trimmed, "../")
      then Err("unsafe ZIP entry path")
      else Ok(Entry(trimmed, name[|name| - 1] == '/'))
  }

  /** An archive link: may it be created at `link`?  The manifest's links get the same test. */
  predicate SafeZipSymlinkTarget(link: string, target: string)
    requires !Rooted(link)
  {
    && target != "" && '\\' !in target && !HasPrefix(target, "/") && PrintableAscii(target)
    && StaysInside(Resolved(link, target))
  }

  predicate AllPlain(parts: seq<string>) { forall k :: 0 <= k < |parts| ==> Plain(parts[k]) }

  /** A safe path is a nonempty list of plain printable names, and nothing else is. */
  lemma SafePathsArePlainNames(path: string)
    ensures SafeRelativePath(path) <==> PrintableAscii(path) && '\\' !in path && AllPlain(Split(path))
  {
    var parts := Split(path);
    JoinOfSplit(path);
    if HasPrefix(path, "/") {
      assert path == "/" + path[1..];
      assert parts == [""] + Split(path[1..]);
      assert !Plain(parts[0]);
    } else if AllPlain(parts) {
      assert [] + parts == parts;
      ReduceOfNormal([], parts);
      TextTestIsFirstComponentTest(parts);
    } else if SafeRelativePath(path) {
      CleanParts(path);
      SplitOfName(".");
      TextTestIsFirstComponentTest(parts);
    }
  }

  /** A safe path names one place below the root, and different safe paths name different places. */
  lemma SafePathsNameOnePlace(a: string, b: string)
    requires SafeRelativePath(a) && SafeRelativePath(b)
    ensures Walk([], Split(a)) == Some(Split(a)) && Split(a) != []
    ensures Walk([], Split(a)) == Walk([], Split(b)) ==> a == b
  {
    SafePathsArePlainNames(a);
    SafePathsArePlainNames(b);
    WalkOfNormal([], Split(a));
    WalkOfNormal([], Split(b));
    assert [] + Split(a) == Split(a) && [] + Split(b) == Split(b);
    JoinOfSplit(a);
    JoinOfSplit(b);
  }

  /** An accepted archive entry is a safe path, with or without one trailing slash, and every such
      name is accepted. */
  lemma ZipPathsAreSafePaths(name: string)
    ensures SafeZipPath(name).Ok? <==> SafeRelativePath(TrimSlash(name))
    ensures SafeZipPath(name).Ok? ==>
              var e := SafeZipPath(name).value;
              name == e.path + (if e.directory then "/" else "") && SafeRelativePath(e.path)
  {
    var trimmed := TrimSlash(name);
    assert trimmed <= name;
    if SafeRelativePath(trimmed) && name != trimmed {
      assert name == trimmed + "/";
      forall k | 0 <= k < |name| ensures Printable(name[k]) {
      }
    }
    if name != "" && HasPrefix(name, "/") && trimmed != "" {
      assert trimmed[0] == '/';
    }
  }

  /** What an accepted link points at is itself a safe path: the place the walk ends at. */
  lemma AcceptedLinksPointAtSafePaths(link: string, target: string)
    requires SafeRelativePath(link) && SafeZipSymlinkTarget(link, target)
    ensures AllPlain(Split(Resolved(link, target)))
    ensures Walk([], LinkParts(link, target)) == Some(Split(Resolved(link, target)))
  {
    EscapeTestEqualsWalk(link, target);
    CleanParts(JoinedTarget(link, target));
    var parts := Reduce([], Split(JoinedTarget(link, target)));
    TextTestIsFirstComponentTest(parts);
  }
}
