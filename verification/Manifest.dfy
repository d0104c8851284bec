/** The file list of a signed distribution manifest: the text a component's digest covers, who owns
    which file, and what the sizes add up to. */
module Manifest {
  import opened Wrappers
  import opened Paths

  /** A 64-bit signed size. */
  type Size = n: int | -0x8000_0000_0000_0000 <= n < 0x8000_0000_0000_0000

  datatype File =
    | Regular(path: string, sha256: string, sizeBytes: Size, mode: string)
    | Link(path: string, target: string, sizeBytes: Size)

  datatype Component = Component(path: string, sha256: string, sizeBytes: Size)

  predicate ValidFile(f: File) {
    && SafeRelativePath(f.path) && f.sizeBytes >= 0
    && match f
       case Regular(_, sha256, _, mode) => IsSha256(sha256) && (mode == "0644" || mode == "0755")
       case Link(_, target, size) => SafeSymlinkTarget(target) && size == |target|
  }

  /** No size is negative. */
  predicate Sized(files: seq<File>) { forall k :: 0 <= k < |files| ==> files[k].sizeBytes >= 0 }

  /** No field holds an unprintable character. */
  predicate Legible(f: File) {
    && f.sizeBytes >= 0 && PrintableAscii(f.path)
    && PrintableAscii(Middle(f)) && (f.Regular? ==> PrintableAscii(f.mode))
  }

  predicate ValidFiles(files: seq<File>) { forall k :: 0 <= k < |files| ==> ValidFile(files[k]) }

  // ---- the canonical text -----------------------------------------------------------------

  const ZERO := '\0'
  const NEWLINE := '\n'

  function Digit(d: nat): char
    requires d < 10
  {
    '0' + d as char
  }

  function Decimal(n: nat): string {
    if n < 10 then [Digit(n)] else Decimal(n / 10) + [Digit(n % 10)]
  }

  function Tag(f: File): string {
    if f.Regular? then "file" else "symlink"
  }

  function Middle(f: File): string {
    if f.Regular? then f.sha256 else f.target
  }

  function Tail(f: File): string
    requires f.sizeBytes >= 0
  {
    if f.Regular? then Decimal(f.sizeBytes) + [ZERO] + f.mode else Decimal(f.sizeBytes)
  }

  function Body(f: File): string
    requires f.sizeBytes >= 0
  {
    f.path + [ZERO] + (Tag(f) + [ZERO] + (Middle(f) + [ZERO] + Tail(f)))
  }

  function Canonical(files: seq<File>): (text: string)
    requires Sized(files)
    ensures text == "" <==> files == []
  {
    if files == [] then "" else Body(files[0]) + [NEWLINE] + Canonical(files[1..])
  }

  /** Text cut at the first separator has one reading. */
  lemma CutAt(separator: char, a: string, r: string, b: string, s: string)
    requires separator !in a && separator !in b
    requires a + [separator] + r == b + [separator] + s
    ensures a == b && r == s
  {
    var whole := a + [separator] + r;
    FirstSeparator(separator, a, r);
    FirstSeparator(separator, b, s);
    assert |a| == |b|;
    assert a == whole[..|a|] && b == whole[..|a|];
    assert r == whole[|a| + 1..] && s == whole[|a| + 1..];
  }

  lemma FirstSeparator(separator: char, a: string, r: string)
    requires separator !in a
    ensures (a + [separator] + r)[|a|] == separator
    ensures forall k :: 0 <= k < |a| ==> (a + [separator] + r)[k] != separator
  {
    forall k | 0 <= k < |a| ensures (a + [separator] + r)[k] != separator {
      assert (a + [separator] + r)[k] == a[k];
    }
  }

  lemma {:induction false} DecimalIsDigits(n: nat)
    ensures Decimal(n) != "" && forall k :: 0 <= k < |Decimal(n)| ==> '0' <= Decimal(n)[k] <= '9'
  {
    if n >= 10 {
      DecimalIsDigits(n / 10);
    }
  }

  lemma {:induction false} DecimalIsInjective(m: nat, n: nat)
    requires Decimal(m) == Decimal(n)
    ensures m == n
  {
    DecimalIsDigits(m / 10);
    DecimalIsDigits(n / 10);
    var a, b := Decimal(m), Decimal(n);
    assert a[|a| - 1] == Digit(m % 10) && b[|b| - 1] == Digit(n % 10);
    if m >= 10 && n >= 10 {
      assert a[..|a| - 1] == Decimal(m / 10) && b[..|b| - 1] == Decimal(n / 10);
      DecimalIsInjective(m / 10, n / 10);
    }
  }

  lemma ValidIsLegible(f: File)
    requires ValidFile(f)
    ensures Legible(f)
  {
  }

  /** Neither separator occurs in any field of a legible file. */
  lemma FieldsAreSeparatorFree(f: File, c: char)
    requires Legible(f) && !Printable(c)
    ensures c !in f.path && c !in Middle(f) && c !in Tag(f) && c !in Decimal(f.sizeBytes)
    ensures f.Regular? ==> c !in f.mode
  {
    DecimalIsDigits(f.sizeBytes);
  }

  lemma BodyIsOneLine(f: File)
    requires Legible(f)
    ensures NEWLINE !in Body(f)
  {
    FieldsAreSeparatorFree(f, NEWLINE);
  }

  lemma BodyIsInjective(f: File, g: File)
    requires Legible(f) && Legible(g) && Body(f) == Body(g)
    ensures f == g
  {
    FieldsAreSeparatorFree(f, ZERO);
    FieldsAreSeparatorFree(g, ZERO);
    CutAt(ZERO, f.path, Tag(f) + [ZERO] + (Middle(f) + [ZERO] + Tail(f)), g.path, Tag(g) + [ZERO] + (Middle(g) + [ZERO] + Tail(g)));
    CutAt(ZERO, Tag(f), Middle(f) + [ZERO] + Tail(f), Tag(g), Middle(g) + [ZERO] + Tail(g));
    assert f.Regular? <==> g.Regular? by {
      assert |Tag(f)| == |Tag(g)|;
    }
    CutAt(ZERO, Middle(f), Tail(f), Middle(g), Tail(g));
    if f.Regular? {
      CutAt(ZERO, Decimal(f.sizeBytes), f.mode, Decimal(g.sizeBytes), g.mode);
    }
    DecimalIsInjective(f.sizeBytes, g.sizeBytes);
  }

  lemma FirstLines(f: File, rest: string, g: File, others: string)
    requires Legible(f) && Legible(g)
    requires Body(f) + [NEWLINE] + rest == Body(g) + [NEWLINE] + others
    ensures f == g && rest == others
  {
    BodyIsOneLine(f);
    BodyIsOneLine(g);
    CutAt(NEWLINE, Body(f), rest, Body(g), others);
    BodyIsInjective(f, g);
  }

  /** Legible lists with the same text are the same list. */
  lemma {:induction false} LegibleTextIsUnambiguous(a: seq<File>, b: seq<File>)
    requires forall f :: f in a + b ==> Legible(f)
    requires Sized(a) && Sized(b) && Canonical(a) == Canonical(b)
    ensures a == b
    decreases |a|
  {
    if a != [] {
      assert a[0] in a + b && b[0] in a + b;
      FirstLines(a[0], Canonical(a[1..]), b[0], Canonical(b[1..]));
      LegibleTextIsUnambiguous(a[1..], b[1..]);
      assert a == [a[0]] + a[1..] && b == [b[0]] + b[1..];
    }
  }

  /** The text that a component's digest covers stands for one list of files only. */
  lemma CanonicalIsUnambiguous(a: seq<File>, b: seq<File>)
    requires ValidFiles(a) && ValidFiles(b) && Canonical(a) == Canonical(b)
    ensures a == b
  {
    forall f | f in a + b ensures Legible(f) {
      ValidIsLegible(f);
    }
    LegibleTextIsUnambiguous(a, b);
  }

  lemma Associates(a: string, b: string, c: string)
    ensures a + (b + c) == a + b + c
  {
  }

  lemma {:induction false} CanonicalOfAppend(files: seq<File>, f: File)
    requires Sized(files) && f.sizeBytes >= 0
    ensures Canonical(files + [f]) == Canonical(files) + (Body(f) + [NEWLINE])
    decreases |files|
  {
    var longer := files + [f];
    if files == [] {
      assert longer == [f] && longer[1..] == [];
      assert Canonical(longer) == Body(f) + [NEWLINE] + "";
    } else {
      assert longer[0] == files[0] && longer[1..] == files[1..] + [f];
      CanonicalOfAppend(files[1..], f);
      Associates(Body(files[0]) + [NEWLINE], Canonical(files[1..]), Body(f) + [NEWLINE]);
    }
  }

  // ---- who owns which file ------------------------------------------------------------------

  predicate PathOwnedBy(path: string, root: string) {
    path == root || HasPrefix(path, root + "/")
  }

  predicate RootsApart(roots: seq<string>) {
    forall l, r :: 0 <= l < r < |roots| ==> !PathOwnedBy(roots[l], roots[r]) && !PathOwnedBy(roots[r], roots[l])
  }

  /** Two owners of one path own one another. */
  lemma CommonPathMeansOverlap(path: string, a: string, b: string)
    requires PathOwnedBy(path, a) && PathOwnedBy(path, b)
    ensures PathOwnedBy(a, b) || PathOwnedBy(b, a)
  {
    if |a| < |b| {
      assert path[..|a| + 1] == a + "/" && path[..|b|] == b;
      assert b[..|a| + 1] == a + "/";
    } else if |b| < |a| {
      assert path[..|b| + 1] == b + "/" && path[..|a|] == a;
      assert a[..|b| + 1] == b + "/";
    } else {
      assert path[..|a|] == a && path[..|b|] == b;
    }
  }

  /** The overlap test is exact: roots are apart precisely when no path at all has two owners. */
  lemma RootsApartExactly(roots: seq<string>)
    ensures RootsApart(roots) <==>
            forall path, l, r :: 0 <= l < r < |roots| ==> !(PathOwnedBy(path, roots[l]) && PathOwnedBy(path, roots[r]))
  {
    if RootsApart(roots) {
      forall path, l, r | 0 <= l < r < |roots|
        ensures !(PathOwnedBy(path, roots[l]) && PathOwnedBy(path, roots[r]))
      {
        if PathOwnedBy(path, roots[l]) && PathOwnedBy(path, roots[r]) {
          CommonPathMeansOverlap(path, roots[l], roots[r]);
        }
      }
    } else {
      var l, r :| 0 <= l < r < |roots| && (PathOwnedBy(roots[l], roots[r]) || PathOwnedBy(roots[r], roots[l]));
      assert PathOwnedBy(roots[l], roots[l]) && PathOwnedBy(roots[r], roots[r]);
    }
  }

  function Roots(components: seq<Component>): (roots: seq<string>)
    ensures |roots| == |components| && forall k :: 0 <= k < |roots| ==> roots[k] == components[k].path
  {
    seq(|components|, k requires 0 <= k < |components| => components[k].path)
  }

  /** The files below a root, in manifest order. */
  function Owned(files: seq<File>, root: string): seq<File> {
    if files == [] then []
    else
      var before, last := Owned(files[..|files| - 1], root), files[|files| - 1];
      if PathOwnedBy(last.path, root) then before + [last] else before
  }

  lemma {:induction false} OwnedAreSized(files: seq<File>, root: string)
    requires Sized(files)
    ensures Sized(Owned(files, root))
  {
    if files != [] {
      OwnedAreSized(files[..|files| - 1], root);
    }
  }

  // ---- what the sizes add up to ---------------------------------------------------------------

  const WORD := 0x1_0000_0000_0000_0000
  const HALF := 0x8000_0000_0000_0000

  /** What 64-bit signed arithmetic makes of a number. */
  function Wrap(n: int): Size {
    var m := n % WORD;
    if m < HALF then m else m - WORD
  }

  lemma WrappedSteps(a: int, b: int)
    ensures Wrap(Wrap(a) + b) == Wrap(a + b)
  {
    assert (Wrap(a) + b - (a + b)) % WORD == 0;
  }

  /** Equal up to whole 64-bit words. */
  predicate Congruent(a: int, b: int) { (a - b) % WORD == 0 }

  lemma CongruentSums(a: int, b: int, c: int, d: int)
    requires Congruent(a, b) && Congruent(c, d)
    ensures Congruent(a + c, b + d)
  {
    assert a + c - (b + d) == (a - b) + (c - d);
  }

  lemma WrapOfNatural(n: nat)
    ensures Wrap(n) <= n && Congruent(Wrap(n), n)
    ensures Wrap(n) == n <==> n < HALF
  {
  }

  function Sum(files: seq<File>): int {
    if files == [] then 0 else Sum(files[..|files| - 1]) + files[|files| - 1].sizeBytes
  }

  lemma {:induction false} SumIsNatural(files: seq<File>)
    requires Sized(files)
    ensures Sum(files) >= 0
  {
    if files != [] {
      SumIsNatural(files[..|files| - 1]);
    }
  }

  /** The sizes that the components own, added up without wrapping. */
  function OwnedSum(files: seq<File>, roots: seq<string>): int {
    if roots == [] then 0 else OwnedSum(files, roots[..|roots| - 1]) + Sum(Owned(files, roots[|roots| - 1]))
  }

  /** Does any of the roots own the path? */
  predicate HasOwner(path: string, roots: seq<string>) {
    exists k :: 0 <= k < |roots| && PathOwnedBy(path, roots[k])
  }

  /** One more file adds its size to exactly one root. */
  lemma {:induction false} OneMoreFile(files: seq<File>, f: File, roots: seq<string>)
    requires RootsApart(roots)
    ensures OwnedSum(files + [f], roots) == OwnedSum(files, roots) + (if HasOwner(f.path, roots) then f.sizeBytes else 0)
    decreases |roots|
  {
    if roots != [] {
      var before, last := roots[..|roots| - 1], roots[|roots| - 1];
      assert (files + [f])[..|files|] == files;
      OneMoreFile(files, f, before);
      if PathOwnedBy(f.path, last) {
        if HasOwner(f.path, before) {
          var k :| 0 <= k < |before| && PathOwnedBy(f.path, before[k]);
          CommonPathMeansOverlap(f.path, before[k], last);
          assert false;
        }
        assert PathOwnedBy(f.path, roots[|roots| - 1]);
      } else if HasOwner(f.path, before) {
        var k :| 0 <= k < |before| && PathOwnedBy(f.path, before[k]);
        assert PathOwnedBy(f.path, roots[k]);
      }
    }
  }

  lemma {:induction false} NothingOwnsNothing(roots: seq<string>)
    ensures OwnedSum([], roots) == 0
  {
    if roots != [] {
      NothingOwnsNothing(roots[..|roots| - 1]);
    }
  }

  /** Nothing is counted twice and nothing is lost. */
  lemma {:induction false} OwnedSizesCoverAll(files: seq<File>, roots: seq<string>)
    requires RootsApart(roots)
    requires forall k :: 0 <= k < |files| ==> HasOwner(files[k].path, roots)
    ensures OwnedSum(files, roots) == Sum(files)
    decreases |files|
  {
    if files == [] {
      NothingOwnsNothing(roots);
    } else {
      var before, last := files[..|files| - 1], files[|files| - 1];
      OwnedSizesCoverAll(before, roots);
      assert before + [last] == files;
      OneMoreFile(before, last, roots);
    }
  }

  // ---- the check ------------------------------------------------------------------------------

  /** Bytewise order of two texts. */
  predicate Before(a: string, b: string) {
    if b == "" then false
    else if a == "" then true
    else a[0] < b[0] || (a[0] == b[0] && Before(a[1..], b[1..]))
  }

  /** The `k`-th file is valid, follows the one before it, repeats no path and has an owner. */
  predicate Placed(files: seq<File>, roots: seq<string>, k: nat)
    requires k < |files|
  {
    && ValidFile(files[k]) && (k > 0 ==> Before(files[k - 1].path, files[k].path))
    && (forall l :: 0 <= l < k ==> files[l].path != files[k].path)
    && HasOwner(files[k].path, roots)
  }

  predicate AllPlaced(files: seq<File>, roots: seq<string>) {
    forall k :: 0 <= k < |files| ==> Placed(files, roots, k)
  }

  predicate ValidComponents(components: seq<Component>) {
    forall k :: 0 <= k < |components| ==>
      SafeRelativePath(components[k].path) && IsSha256(components[k].sha256) && components[k].sizeBytes >= 0
  }

  /** A component's summary matches the files it owns, and it owns some. */
  predicate Summarizes(c: Component, owned: seq<File>, digest: string -> string) {
    && owned != [] && Sized(owned)
    && c.sizeBytes == Wrap(Sum(owned)) && c.sha256 == digest(Canonical(owned))
  }

  /** What a manifest must be, without a word about a file having a second owner. */
  predicate Accepted(components: seq<Component>, files: seq<File>, digest: string -> string) {
    && ValidComponents(components) && RootsApart(Roots(components))
    && AllPlaced(files, Roots(components))
    && forall k :: 0 <= k < |components| ==> Summarizes(components[k], Owned(files, components[k].path), digest)
  }

  method CheckRoots(components: seq<Component>) returns (ok: bool)
    ensures ok <==> RootsApart(Roots(components))
  {
    var roots := Roots(components);
    for l := 0 to |components|
      invariant forall a, b :: 0 <= a < l && a < b < |roots| ==> !PathOwnedBy(roots[a], roots[b]) && !PathOwnedBy(roots[b], roots[a])
    {
      for r := l + 1 to |components|
        invariant forall b :: l < b < r ==> !PathOwnedBy(roots[l], roots[b]) && !PathOwnedBy(roots[b], roots[l])
      {
        if PathOwnedBy(components[l].path, components[r].path) || PathOwnedBy(components[r].path, components[l].path) {
          return false;
        }
      }
    }
    ok := true;
  }

  /** The owner of a path, or -1.  The scan goes on after the first owner, to refuse a second one;
      there never is a second one. */
  method FindOwner(path: string, components: seq<Component>) returns (owner: int)
    requires RootsApart(Roots(components))
    ensures owner == -1 <==> !HasOwner(path, Roots(components))
    ensures owner != -1 ==> 0 <= owner < |components| && PathOwnedBy(path, components[owner].path)
    ensures forall k :: 0 <= k < |components| && k != owner ==> !PathOwnedBy(path, components[k].path)
  {
    owner := -1;
    for k := 0 to |components|
      invariant owner == -1 || (0 <= owner < k && PathOwnedBy(path, components[owner].path))
      invariant forall l :: 0 <= l < k && l != owner ==> !PathOwnedBy(path, components[l].path)
    {
      if PathOwnedBy(path, components[k].path) {
        if owner != -1 {
          assert !PathOwnedBy(Roots(components)[owner], Roots(components)[k]);
          CommonPathMeansOverlap(path, components[owner].path, components[k].path);
          assert false;
        }
        owner := k;
      }
    }
    if owner != -1 {
      assert PathOwnedBy(path, Roots(components)[owner]);
    }
  }

  /** Walk the files once, checking each and handing it to its owner. */
  method Distribute(components: seq<Component>, files: seq<File>) returns (r: Result<seq<seq<File>>>)
    requires RootsApart(Roots(components))
    ensures r.Ok? <==> AllPlaced(files, Roots(components))
    ensures r.Ok? ==> |r.value| == |components|
    ensures r.Ok? ==> forall c :: 0 <= c < |components| ==> r.value[c] == Owned(files, components[c].path)
  {
    var byComponent := seq(|components|, _ => []);
    var seen: set<string> := {};
    for index := 0 to |files|
      invariant Distributes(byComponent, components, files[..index])
      invariant seen == set l | 0 <= l < index :: files[l].path
      invariant forall k :: 0 <= k < index ==> Placed(files, Roots(components), k)
    {
      var file := files[index];
      var owner := CheckFile(components, files, index, seen);
      if owner == -1 {
        return Err("invalid distribution manifest file");
      }
      OneMoreOwned(components, files, index, owner, byComponent);
      seen := seen + {file.path};
      byComponent := byComponent[owner := byComponent[owner] + [file]];
    }
    assert files[..|files|] == files;
    r := Ok(byComponent);
  }

  lemma {:induction false} OwnedStep(files: seq<File>, index: nat, root: string)
    requires index < |files|
    ensures Owned(files[..index + 1], root)
            == Owned(files[..index], root) + (if PathOwnedBy(files[index].path, root) then [files[index]] else [])
  {
    assert files[..index + 1][..index] == files[..index];
  }

  predicate Distributes(byComponent: seq<seq<File>>, components: seq<Component>, files: seq<File>) {
    && |byComponent| == |components|
    && forall c :: 0 <= c < |components| ==> byComponent[c] == Owned(files, components[c].path)
  }

  lemma OneMoreOwned(components: seq<Component>, files: seq<File>, index: nat, owner: nat, byComponent: seq<seq<File>>)
    requires index < |files| && owner < |components| && Distributes(byComponent, components, files[..index])
    requires forall c :: 0 <= c < |components| ==> (PathOwnedBy(files[index].path, components[c].path) <==> c == owner)
    ensures Distributes(byComponent[owner := byComponent[owner] + [files[index]]], components, files[..index + 1])
  {
    var more := byComponent[owner := byComponent[owner] + [files[index]]];
    forall c | 0 <= c < |components| ensures more[c] == Owned(files[..index + 1], components[c].path) {
      OwnedStep(files, index, components[c].path);
    }
  }

  /** Check one file and name its owner; -1 refuses the manifest. */
  method CheckFile(components: seq<Component>, files: seq<File>, index: nat, seen: set<string>) returns (owner: int)
    requires RootsApart(Roots(components)) && index < |files|
    requires seen == set l | 0 <= l < index :: files[l].path
    ensures owner != -1 <==> Placed(files, Roots(components), index)
    ensures owner != -1 ==> 0 <= owner < |components|
    ensures owner != -1 ==> forall c :: 0 <= c < |components| ==> (PathOwnedBy(files[index].path, components[c].path) <==> c == owner)
  {
    var file := files[index];
    if !SafeRelativePath(file.path) || file.path in seen || file.sizeBytes < 0 {
      return -1;
    }
    if index > 0 && !Before(files[index - 1].path, file.path) {
      return -1;
    }
    if !ValidFile(file) {
      return -1;
    }
    owner := FindOwner(file.path, components);
  }

  /** The digested text and the wrapping size of the files that one component owns. */
  method Summarize(owned: seq<File>) returns (text: string, size: Size)
    requires Sized(owned)
    ensures text == Canonical(owned) && size == Wrap(Sum(owned))
  {
    text, size := "", 0;
    for k := 0 to |owned|
      invariant IsTextOf(text, owned[..k]) && IsSizeOf(size, owned[..k])
    {
      TextStep(owned, k, text);
      SizeStep(owned, k, size);
      text := text + (Body(owned[k]) + [NEWLINE]);
      size := Wrap(size + owned[k].sizeBytes);
    }
    assert owned[..|owned|] == owned;
  }

  /** `text` is the digested text of the files. */
  predicate IsTextOf(text: string, owned: seq<File>)
    requires Sized(owned)
  {
    text == Canonical(owned)
  }

  predicate IsSizeOf(size: Size, owned: seq<File>) { size == Wrap(Sum(owned)) }

  lemma {:induction false} TextStep(owned: seq<File>, k: nat, text: string)
    requires Sized(owned) && k < |owned| && IsTextOf(text, owned[..k])
    ensures IsTextOf(text + (Body(owned[k]) + [NEWLINE]), owned[..k + 1])
  {
    var front := owned[..k];
    assert owned[..k + 1] == front + [owned[k]];
    CanonicalOfAppend(front, owned[k]);
  }

  lemma {:induction false} SumStep(owned: seq<File>, k: nat)
    requires k < |owned|
    ensures Sum(owned[..k + 1]) == Sum(owned[..k]) + owned[k].sizeBytes
  {
    assert owned[..k + 1][..k] == owned[..k];
  }

  lemma {:induction false} SizeStep(owned: seq<File>, k: nat, size: Size)
    requires k < |owned| && IsSizeOf(size, owned[..k])
    ensures IsSizeOf(Wrap(size + owned[k].sizeBytes), owned[..k + 1])
  {
    SumStep(owned, k);
    WrappedSteps(Sum(owned[..k]), owned[k].sizeBytes);
  }

  lemma PlacedAreSized(files: seq<File>, roots: seq<string>)
    requires AllPlaced(files, roots)
    ensures Sized(files) && forall k :: 0 <= k < |files| ==> HasOwner(files[k].path, roots)
  {
    forall k | 0 <= k < |files| ensures files[k].sizeBytes >= 0 && HasOwner(files[k].path, roots) {
      assert Placed(files, roots, k);
    }
  }

  method Validate(components: seq<Component>, files: seq<File>, digest: string -> string) returns (ok: bool)
    ensures ok <==> Accepted(components, files, digest)
  {
    if exists k :: 0 <= k < |components|
         && (!SafeRelativePath(components[k].path) || !IsSha256(components[k].sha256) || components[k].sizeBytes < 0)
    {
      return false;
    }
    var apart := CheckRoots(components);
    if !apart { return false; }
    var distributed := Distribute(components, files);
    if distributed.Err? { return false; }
    PlacedAreSized(files, Roots(components));
    ok := CheckSummaries(components, files, distributed.value, digest);
  }

  method CheckSummary(c: Component, owned: seq<File>, digest: string -> string) returns (ok: bool)
    requires Sized(owned)
    ensures ok <==> Summarizes(c, owned, digest)
  {
    if owned == [] { return false; }
    var text, size := Summarize(owned);
    ok := c.sizeBytes == size && c.sha256 == digest(text);
  }

  method CheckSummaries(components: seq<Component>, files: seq<File>, byComponent: seq<seq<File>>, digest: string -> string)
    returns (ok: bool)
    requires Sized(files) && |byComponent| == |components|
    requires forall c :: 0 <= c < |components| ==> byComponent[c] == Owned(files, components[c].path)
    ensures ok <==> forall c :: 0 <= c < |components| ==> Summarizes(components[c], byComponent[c], digest)
  {
    for c := 0 to |components|
      invariant forall k :: 0 <= k < c ==> Summarizes(components[k], byComponent[k], digest)
    {
      var owned := byComponent[c];
      OwnedAreSized(files, components[c].path);
      var matches := CheckSummary(components[c], owned, digest);
      if !matches { return false; }
    }
    ok := true;
  }

  // ---- what acceptance means --------------------------------------------------------------------

  function ClaimedSum(components: seq<Component>): int {
    if components == [] then 0 else ClaimedSum(components[..|components| - 1]) + components[|components| - 1].sizeBytes
  }

  /** No component's files add up past the largest 64-bit size. */
  predicate SizesFit(components: seq<Component>, files: seq<File>) {
    forall k :: 0 <= k < |components| ==> Sum(Owned(files, components[k].path)) < HALF
  }

  /** Each component claims the wrapped size of its files. */
  predicate Claims(components: seq<Component>, files: seq<File>) {
    forall k :: 0 <= k < |components| ==>
      components[k].sizeBytes >= 0 && components[k].sizeBytes == Wrap(Sum(Owned(files, components[k].path)))
  }

  lemma OneClaim(c: Component, files: seq<File>)
    requires Sized(files) && Claims([c], files)
    ensures var owned := Sum(Owned(files, c.path));
            c.sizeBytes <= owned && Congruent(c.sizeBytes, owned) && (c.sizeBytes == owned <==> owned < HALF)
  {
    assert [c][0] == c;
    OwnedAreSized(files, c.path);
    SumIsNatural(Owned(files, c.path));
    WrapOfNatural(Sum(Owned(files, c.path)));
  }

  lemma {:induction false} ClaimsAgainstOwned(components: seq<Component>, files: seq<File>)
    requires Sized(files) && Claims(components, files)
    ensures var claimed, owned := ClaimedSum(components), OwnedSum(files, Roots(components));
            claimed <= owned && Congruent(claimed, owned) && (claimed == owned <==> SizesFit(components, files))
    decreases |components|
  {
    if components != [] {
      var before, last := components[..|components| - 1], components[|components| - 1];
      ClaimsAgainstOwned(before, files);
      assert Roots(components)[..|components| - 1] == Roots(before);
      OneClaim(last, files);
      CongruentSums(ClaimedSum(before), OwnedSum(files, Roots(before)), last.sizeBytes, Sum(Owned(files, last.path)));
      SizesFitStep(components, files);
    }
  }

  lemma SizesFitStep(components: seq<Component>, files: seq<File>)
    requires components != []
    ensures SizesFit(components, files) <==>
            SizesFit(components[..|components| - 1], files) && Sum(Owned(files, components[|components| - 1].path)) < HALF
  {
  }

  lemma AcceptedFilesHaveOneOwner(components: seq<Component>, files: seq<File>, digest: string -> string, k: nat)
    requires Accepted(components, files, digest) && k < |files|
    ensures exists c :: OnlyOwner(files[k].path, components, c)
  {
    var roots := Roots(components);
    RootsApartExactly(roots);
    PlacedAreSized(files, roots);
    var c: nat :| c < |roots| && PathOwnedBy(files[k].path, roots[c]);
    forall d | 0 <= d < |components| && d != c ensures !PathOwnedBy(files[k].path, components[d].path) {
      var l, r := if c < d then c else d, if c < d then d else c;
      assert !(PathOwnedBy(files[k].path, roots[l]) && PathOwnedBy(files[k].path, roots[r]));
    }
    assert OnlyOwner(files[k].path, components, c);
  }

  /** The claimed component sizes of an accepted manifest add up to the sizes of all files: up to
      whole 64-bit words always, and exactly when no component's own files wrap. */
  lemma AcceptedManifestsAddUp(components: seq<Component>, files: seq<File>, digest: string -> string)
    requires Accepted(components, files, digest)
    ensures Congruent(ClaimedSum(components), Sum(files))
    ensures ClaimedSum(components) == Sum(files) <==> SizesFit(components, files)
  {
    PlacedAreSized(files, Roots(components));
    AcceptedClaims(components, files, digest);
    ClaimsAgainstOwned(components, files);
    OwnedSizesCoverAll(files, Roots(components));
  }

  lemma AcceptedClaims(components: seq<Component>, files: seq<File>, digest: string -> string)
    requires Accepted(components, files, digest)
    ensures Claims(components, files)
  {
    forall k | 0 <= k < |components|
      ensures components[k].sizeBytes >= 0 && components[k].sizeBytes == Wrap(Sum(Owned(files, components[k].path)))
    {
      assert Summarizes(components[k], Owned(files, components[k].path), digest);
    }
  }

  predicate OnlyOwner(path: string, components: seq<Component>, c: nat) {
    && c < |components| && PathOwnedBy(path, components[c].path)
    && forall d :: 0 <= d < |components| && d != c ==> !PathOwnedBy(path, components[d].path)
  }

  // ---- the digests pin the files ------------------------------------------------------------------

  lemma {:induction false} BeforeIsAnOrder(a: string, b: string, c: string)
    ensures !Before(a, a)
    ensures Before(a, b) && Before(b, c) ==> Before(a, c)
  {
    if a != [] {
      BeforeIsAnOrder(a[1..], if b != [] then b[1..] else b, if c != [] then c[1..] else c);
    }
  }

  predicate Ordered(files: seq<File>) {
    forall j, k :: 0 <= j < k < |files| ==> Before(files[j].path, files[k].path)
  }

  lemma {:induction false} PlacedAreOrdered(files: seq<File>, roots: seq<string>, n: nat)
    requires AllPlaced(files, roots) && n <= |files|
    ensures Ordered(files[..n])
  {
    if n > 1 {
      PlacedAreOrdered(files, roots, n - 1);
      assert Placed(files, roots, n - 1);
      var q := files[..n];
      forall j | 0 <= j < n - 1 ensures Before(q[j].path, q[n - 1].path) {
        if j < n - 2 {
          assert files[..n - 1][j] == q[j] && files[..n - 1][n - 2] == q[n - 2];
          BeforeIsAnOrder(q[j].path, q[n - 2].path, q[n - 1].path);
        }
      }
      forall j, k | 0 <= j < k < n - 1 ensures Before(q[j].path, q[k].path) {
        assert files[..n - 1][j] == q[j] && files[..n - 1][k] == q[k];
      }
    }
  }

  /** Strictly ordered lists with the same files are the same list. */
  lemma {:induction false} OrderedListsAreOne(a: seq<File>, b: seq<File>)
    requires Ordered(a) && Ordered(b) && forall f :: f in a <==> f in b
    ensures a == b
    decreases |a|
  {
    if a != [] {
      assert a[0] in b;
      var p, q, x := a[..|a| - 1], b[..|b| - 1], a[|a| - 1];
      var y := b[|b| - 1];
      assert x in b && y in a;
      BeforeIsAnOrder(x.path, y.path, x.path);
      assert x == y;
      assert a == p + [x] && b == q + [x];
      SameButTheLast(p, q, x);
      SameButTheLast(q, p, x);
      OrderedListsAreOne(p, q);
    } else if b != [] {
      SomethingIsIn(b);
      assert false;
    }
  }

  lemma SomethingIsIn(files: seq<File>)
    requires files != []
    ensures exists f :: f in files
  {
    assert files[0] in files;
  }

  lemma SameButTheLast(p: seq<File>, q: seq<File>, x: File)
    requires Ordered(p + [x]) && forall f :: f in p ==> f in q + [x]
    ensures forall f :: f in p ==> f in q
  {
    forall f | f in p ensures f in q {
      var k :| 0 <= k < |p| && p[k] == f;
      assert (p + [x])[k] == f && (p + [x])[|p|] == x;
      BeforeIsAnOrder(x.path, x.path, x.path);
    }
  }

  lemma {:induction false} OwnedAreTheFilesBelow(files: seq<File>, root: string, f: File)
    ensures f in Owned(files, root) <==> f in files && PathOwnedBy(f.path, root)
  {
    if files != [] {
      assert files == files[..|files| - 1] + [files[|files| - 1]];
      OwnedAreTheFilesBelow(files[..|files| - 1], root, f);
    }
  }

  /** A component's digest covers exactly the files that it alone owns. */
  lemma DigestCoversWhatIsOwned(components: seq<Component>, files: seq<File>, digest: string -> string, c: nat)
    requires Accepted(components, files, digest) && c < |components|
    ensures var owned := Owned(files, components[c].path);
            && Sized(owned) && components[c].sha256 == digest(Canonical(owned))
            && forall f :: f in owned <==> f in files && OnlyOwner(f.path, components, c)
  {
    var owned := Owned(files, components[c].path);
    assert Summarizes(components[c], owned, digest);
    forall f ensures f in owned <==> f in files && OnlyOwner(f.path, components, c) {
      OwnedAreTheFilesBelow(files, components[c].path, f);
      if f in owned {
        var k :| 0 <= k < |files| && files[k] == f;
        AcceptedFilesHaveOneOwner(components, files, digest, k);
      }
    }
  }

  /** Two different texts of one component with one digest. */
  ghost predicate Collides(components: seq<Component>, a: seq<File>, b: seq<File>, digest: string -> string, c: nat) {
    && c < |components|
    && var one, two := Owned(a, components[c].path), Owned(b, components[c].path);
       Sized(one) && Sized(two) && Canonical(one) != Canonical(two) && digest(Canonical(one)) == digest(Canonical(two))
  }

  lemma OwnedAreEqualOrCollide(components: seq<Component>, a: seq<File>, b: seq<File>, digest: string -> string, c: nat)
    requires Accepted(components, a, digest) && Accepted(components, b, digest) && c < |components|
    requires !Collides(components, a, b, digest, c)
    ensures Owned(a, components[c].path) == Owned(b, components[c].path)
  {
    var one, two := Owned(a, components[c].path), Owned(b, components[c].path);
    DigestCoversWhatIsOwned(components, a, digest, c);
    DigestCoversWhatIsOwned(components, b, digest, c);
    forall f | f in one + two ensures ValidFile(f) {
      var files := if f in one then a else b;
      var k :| 0 <= k < |files| && files[k] == f;
      assert Placed(files, Roots(components), k);
    }
    forall k | 0 <= k < |one| ensures ValidFile(one[k]) { assert one[k] in one + two; }
    forall k | 0 <= k < |two| ensures ValidFile(two[k]) { assert two[k] in one + two; }
    CanonicalIsUnambiguous(one, two);
  }

  lemma FilesOfOneAreInTheOther(components: seq<Component>, a: seq<File>, b: seq<File>, digest: string -> string, f: File)
    requires Accepted(components, a, digest) && Accepted(components, b, digest)
    requires forall c :: 0 <= c < |components| ==> !Collides(components, a, b, digest, c)
    requires f in a
    ensures f in b
  {
    var k :| 0 <= k < |a| && a[k] == f;
    AcceptedFilesHaveOneOwner(components, a, digest, k);
    var c: nat :| OnlyOwner(f.path, components, c);
    OwnedAreEqualOrCollide(components, a, b, digest, c);
    OwnedAreTheFilesBelow(a, components[c].path, f);
    OwnedAreTheFilesBelow(b, components[c].path, f);
  }

  /** The signed component records pin the whole file list: two lists accepted under one set of records
      are the same list, or they show two different texts with one digest. */
  lemma RecordsPinTheFiles(components: seq<Component>, a: seq<File>, b: seq<File>, digest: string -> string)
    requires Accepted(components, a, digest) && Accepted(components, b, digest)
    ensures a == b || exists c :: Collides(components, a, b, digest, c)
  {
    if forall c :: 0 <= c < |components| ==> !Collides(components, a, b, digest, c) {
      forall f ensures f in a <==> f in b {
        if f in a { FilesOfOneAreInTheOther(components, a, b, digest, f); }
        if f in b {
          assert forall c :: Collides(components, b, a, digest, c) ==> Collides(components, a, b, digest, c);
          FilesOfOneAreInTheOther(components, b, a, digest, f);
        }
      }
      PlacedAreOrdered(a, Roots(components), |a|);
      PlacedAreOrdered(b, Roots(components), |b|);
      assert a[..|a|] == a && b[..|b|] == b;
      OrderedListsAreOne(a, b);
    }
  }

  /** Three files whose sizes add up to exactly one 64-bit word. */
  function WrappingFiles(sha256: string): seq<File> {
    [Regular("a/x", sha256, HALF - 1, "0644"), Regular("a/y", sha256, HALF - 1, "0644"), Regular("a/z", sha256, 2, "0644")]
  }

  lemma OneLetterBelow(c: char)
    requires c == 'x' || c == 'y' || c == 'z'
    ensures SafeRelativePath("a/" + [c]) && PathOwnedBy("a/" + [c], "a")
  {
    SplitOfName("a");
    SplitOfName([c]);
    SplitOfConcat("a", [c]);
    assert "a" + "/" + [c] == "a/" + [c];
    SafePathsArePlainNames("a/" + [c]);
  }

  lemma SharedFirst(c: char, a: string, b: string)
    requires Before(a, b)
    ensures Before([c] + a, [c] + b)
  {
    assert ([c] + a)[1..] == a && ([c] + b)[1..] == b;
  }

  lemma LettersAreOrdered(c: char, d: char)
    requires c < d
    ensures Before("a/" + [c], "a/" + [d])
  {
    assert Before([c], [d]);
    SharedFirst('/', [c], [d]);
    SharedFirst('a', ['/'] + [c], ['/'] + [d]);
    assert "a/" + [c] == ['a'] + (['/'] + [c]) && "a/" + [d] == ['a'] + (['/'] + [d]);
  }

  lemma WrappingFilesArePlaced(sha256: string)
    requires IsSha256(sha256)
    ensures AllPlaced(WrappingFiles(sha256), ["a"])
  {
    var files := WrappingFiles(sha256);
    assert files[0].path == "a/" + ['x'] && files[1].path == "a/" + ['y'] && files[2].path == "a/" + ['z'];
    LettersAreOrdered('x', 'y');
    LettersAreOrdered('y', 'z');
    forall k | 0 <= k < |files| ensures Placed(files, ["a"], k) {
      OneLetterBelow(['x', 'y', 'z'][k]);
      assert PathOwnedBy(files[k].path, ["a"][0]);
    }
  }

  /** The sum does wrap: this manifest claims a component of size zero and is accepted. */
  lemma WrappedSizesAreAccepted(digest: string -> string, sha256: string)
    requires IsSha256(sha256) && forall text :: IsSha256(digest(text))
    ensures var files := WrappingFiles(sha256);
            && Sized(files)
            && Accepted([Component("a", digest(Canonical(files)), 0)], files, digest)
            && Sum(files) == WORD
  {
    var files := WrappingFiles(sha256);
    var components := [Component("a", digest(Canonical(files)), 0)];
    assert Roots(components) == ["a"];
    WrappingFilesArePlaced(sha256);
    WrappingFilesAreOwned(sha256);
    RootIsValid();
  }

  lemma RootIsValid()
    ensures SafeRelativePath("a")
  {
    SplitOfName("a");
    SafePathsArePlainNames("a");
  }

  lemma {:induction false} OwnAll(files: seq<File>, root: string, n: nat)
    requires n <= |files| && forall k :: 0 <= k < n ==> PathOwnedBy(files[k].path, root)
    ensures Owned(files[..n], root) == files[..n]
  {
    if n > 0 {
      OwnAll(files, root, n - 1);
      OwnedStep(files, n - 1, root);
      assert files[..n] == files[..n - 1] + [files[n - 1]];
    }
  }

  lemma BelowA(name: string)
    ensures PathOwnedBy("a/" + name, "a")
  {
    assert ("a/" + name)[..2] == "a" + "/";
  }

  lemma {:induction false} WrappingFilesAreOwned(sha256: string)
    ensures var files := WrappingFiles(sha256);
            Owned(files, "a") == files && Sum(files) == WORD && Wrap(WORD) == 0
  {
    var files := WrappingFiles(sha256);
    BelowA("x");
    BelowA("y");
    BelowA("z");
    assert files[0].path == "a/" + "x" && files[1].path == "a/" + "y" && files[2].path == "a/" + "z";
    OwnAll(files, "a", 3);
    SumStep(files, 0);
    SumStep(files, 1);
    SumStep(files, 2);
    assert files[..3] == files && files[..0] == [];
  }
}
