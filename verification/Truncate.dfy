/** Cutting a UTF-16 string to a budget of UTF-8 bytes (section 3 of RFC 3629). */
module Truncate {

  /** A UTF-16 code unit. */
  type Unit = u: int | 0 <= u < 0x1_0000

  predicate High(u: Unit) { 0xD800 <= u <= 0xDBFF }

  predicate Low(u: Unit) { 0xDC00 <= u <= 0xDFFF }

  /** The bytes of a unit that is not part of a pair; a lone surrogate is replaced by U+FFFD. */
  function Alone(u: Unit): nat {
    if u < 0x80 then 1 else if u < 0x800 then 2 else 3
  }

  /** The length of the UTF-8 encoding. */
  function Encoded(s: seq<Unit>): nat {
    if s == [] then 0
    else if |s| > 1 && High(s[0]) && Low(s[1]) then 4 + Encoded(s[2..])
    else Alone(s[0]) + Encoded(s[1..])
  }

  /** Does a cut after `k` units separate the halves of a pair? */
  predicate Splits(s: seq<Unit>, k: nat) {
    0 < k < |s| && High(s[k - 1]) && Low(s[k])
  }

  /** A surrogate at `k` has its other half beside it. */
  predicate Paired(s: seq<Unit>, k: nat)
    requires k < |s|
  {
    && (High(s[k]) ==> k + 1 < |s| && Low(s[k + 1]))
    && (Low(s[k]) ==> k > 0 && High(s[k - 1]))
  }

  predicate WellFormed(s: seq<Unit>) {
    forall k :: 0 <= k < |s| ==> Paired(s, k)
  }

  // ---- the bytes that are counted -------------------------------------------------------------

  type Byte = b: int | 0 <= b < 0x100

  /** A Unicode scalar value. */
  type Scalar = c: int | 0 <= c < 0xD800 || 0xE000 <= c < 0x11_0000

  const REPLACEMENT: Scalar := 0xFFFD

  function Joined(high: Unit, low: Unit): Scalar
    requires High(high) && Low(low)
  {
    0x1_0000 + (high - 0xD800) * 0x400 + (low - 0xDC00)
  }

  /** What the text encoder makes of a text: pairs are joined, lone halves replaced. */
  function Scalars(s: seq<Unit>): seq<Scalar> {
    if s == [] then []
    else if |s| > 1 && High(s[0]) && Low(s[1]) then [Joined(s[0], s[1])] + Scalars(s[2..])
    else [if High(s[0]) || Low(s[0]) then REPLACEMENT else s[0]] + Scalars(s[1..])
  }

  function Follow(n: int): Byte { 0x80 + n % 0x40 }

  function BytesOf(c: Scalar): seq<Byte> {
    if c < 0x80 then [c]
    else if c < 0x800 then [0xC0 + c / 0x40, Follow(c)]
    else if c < 0x1_0000 then [0xE0 + c / 0x40 / 0x40, Follow(c / 0x40), Follow(c)]
    else [0xF0 + c / 0x40 / 0x40 / 0x40, Follow(c / 0x40 / 0x40), Follow(c / 0x40), Follow(c)]
  }

  function Bytes(cs: seq<Scalar>): seq<Byte> {
    if cs == [] then [] else BytesOf(cs[0]) + Bytes(cs[1..])
  }

  function Encode(s: seq<Unit>): seq<Byte> { Bytes(Scalars(s)) }

  /** The counted length is the length of the encoding. */
  lemma {:induction false} EncodedIsTheLength(s: seq<Unit>)
    ensures |Encode(s)| == Encoded(s)
  {
    if s != [] {
      var n := if |s| > 1 && High(s[0]) && Low(s[1]) then 2 else 1;
      EncodedIsTheLength(s[n..]);
      assert Scalars(s)[1..] == Scalars(s[n..]);
    }
  }

  /** The scalar at the front of some bytes, and how many bytes it takes. */
  function First(b: seq<Byte>): (int, nat)
    requires b != []
  {
    if b[0] < 0xC0 || |b| < 2 then (b[0], 1)
    else if b[0] < 0xE0 || |b| < 3 then (Value(b[0], 0xC0) * 0x40 + Value(b[1], 0x80), 2)
    else if b[0] < 0xF0 || |b| < 4 then ((Value(b[0], 0xE0) * 0x40 + Value(b[1], 0x80)) * 0x40 + Value(b[2], 0x80), 3)
    else (((Value(b[0], 0xF0) * 0x40 + Value(b[1], 0x80)) * 0x40 + Value(b[2], 0x80)) * 0x40 + Value(b[3], 0x80), 4)
  }

  /** What a byte carries beside its mark. */
  function Value(byte: int, mark: int): int { byte - mark }

  function Decode(b: seq<Byte>): seq<int> {
    if b == [] then [] else [First(b).0] + Decode(b[First(b).1..])
  }

  lemma FirstOfEncoded(c: Scalar, rest: seq<Byte>)
    ensures First(BytesOf(c) + rest) == (c, |BytesOf(c)|)
  {
    var b := BytesOf(c) + rest;
    assert b[..|BytesOf(c)|] == BytesOf(c);
    assert c == c / 0x40 * 0x40 + c % 0x40;
    assert c / 0x40 == c / 0x40 / 0x40 * 0x40 + c / 0x40 % 0x40;
  }

  lemma {:induction false} BytesDecode(cs: seq<Scalar>)
    ensures Decode(Bytes(cs)) == cs
  {
    if cs != [] {
      FirstOfEncoded(cs[0], Bytes(cs[1..]));
      assert Bytes(cs)[|BytesOf(cs[0])|..] == Bytes(cs[1..]);
      BytesDecode(cs[1..]);
    }
  }

  function UnitsOf(c: int): seq<Unit> {
    if 0 <= c < 0x1_0000 then [c]
    else if 0x1_0000 <= c < 0x11_0000 then [0xD800 + (c - 0x1_0000) / 0x400, 0xDC00 + (c - 0x1_0000) % 0x400]
    else []
  }

  function Units(cs: seq<int>): seq<Unit> {
    if cs == [] then [] else UnitsOf(cs[0]) + Units(cs[1..])
  }

  lemma JoinedSplitsAgain(high: Unit, low: Unit)
    requires High(high) && Low(low)
    ensures UnitsOf(Joined(high, low)) == [high, low]
  {
  }

  lemma RestIsWellFormed(s: seq<Unit>, n: nat)
    requires WellFormed(s) && n <= |s| && !Splits(s, n)
    ensures WellFormed(s[n..])
  {
    forall k | 0 <= k < |s| - n ensures Paired(s[n..], k) {
      assert Paired(s, n + k);
    }
  }

  lemma {:induction false} WellFormedComesBack(s: seq<Unit>)
    requires WellFormed(s)
    ensures Units(Scalars(s)) == s
  {
    if s != [] {
      assert Paired(s, 0);
      var n := if High(s[0]) then 2 else 1;
      if High(s[0]) {
        JoinedSplitsAgain(s[0], s[1]);
      }
      RestIsWellFormed(s, n);
      WellFormedComesBack(s[n..]);
      assert Scalars(s)[1..] == Scalars(s[n..]);
      assert s == s[..n] + s[n..];
    }
  }

  /** The encoding loses nothing of a well-formed text. */
  lemma EncodingIsFaithful(s: seq<Unit>)
    requires WellFormed(s)
    ensures Units(Decode(Encode(s))) == s
  {
    BytesDecode(Scalars(s));
    WellFormedComesBack(s);
  }

  lemma {:induction false} ScalarsOfCut(s: seq<Unit>, k: nat)
    requires k <= |s| && !Splits(s, k)
    ensures Scalars(s) == Scalars(s[..k]) + Scalars(s[k..])
    decreases |s|
  {
    if k == 0 {
      assert s[..0] == [] && s[0..] == s;
    } else {
      var n := if |s| > 1 && High(s[0]) && Low(s[1]) then 2 else 1;
      assert s[..k][n..] == s[n..][..k - n] && s[n..][k - n..] == s[k..];
      ScalarsOfCut(s[n..], k - n);
    }
  }

  lemma {:induction false} BytesOfBoth(a: seq<Scalar>, b: seq<Scalar>)
    ensures Bytes(a + b) == Bytes(a) + Bytes(b)
  {
    if a == [] {
      assert a + b == b;
    } else {
      assert (a + b)[1..] == a[1..] + b;
      BytesOfBoth(a[1..], b);
    }
  }

  /** Cut between pairs, a text's bytes are a prefix of the whole text's bytes. */
  lemma CutsArePrefixes(s: seq<Unit>, k: nat)
    requires k <= |s| && !Splits(s, k)
    ensures Encode(s[..k]) <= Encode(s)
  {
    ScalarsOfCut(s, k);
    BytesOfBoth(Scalars(s[..k]), Scalars(s[k..]));
  }

  // ---- cuts -----------------------------------------------------------------------------------

  /** One more unit always costs bytes: one for the second half of a pair, its own size otherwise. */
  lemma {:induction false} OneMoreUnit(s: seq<Unit>, u: Unit)
    ensures Encoded(s + [u]) == Encoded(s) + (if s != [] && High(s[|s| - 1]) && Low(u) then 1 else Alone(u))
    decreases |s|
  {
    var longer := s + [u];
    if |s| == 0 {
      assert longer == [u] && longer[1..] == [];
    } else if |s| == 1 {
      assert longer[0] == s[0] && longer[1] == u && longer[2..] == [] && longer[1..] == [u] && [u][1..] == [];
    } else if High(s[0]) && Low(s[1]) {
      assert longer[2..] == s[2..] + [u];
      OneMoreUnit(s[2..], u);
    } else {
      assert longer[1..] == s[1..] + [u];
      OneMoreUnit(s[1..], u);
    }
  }

  /** The byte length of prefixes is strictly increasing. */
  lemma {:induction false} PrefixesGrow(s: seq<Unit>, j: nat, k: nat)
    requires j <= k <= |s|
    ensures Encoded(s[..j]) + (k - j) <= Encoded(s[..k])
    decreases k - j
  {
    if j < k {
      PrefixesGrow(s, j, k - 1);
      assert s[..k] == s[..k - 1] + [s[k - 1]];
      OneMoreUnit(s[..k - 1], s[k - 1]);
    }
  }

  /** `k` is how many units fit, at least none. */
  predicate Fits(s: seq<Unit>, limit: int, k: nat) {
    && k <= |s|
    && (k == 0 || Encoded(s[..k]) <= limit)
    && (k < |s| ==> Encoded(s[..k + 1]) > limit)
  }

  /** The case in which the result is shorter than it could be: the last unit that fits is a high
      surrogate that the next unit does not complete. */
  predicate CutsLoneHigh(s: seq<Unit>, limit: int) {
    exists k: nat :: 0 < k < |s| && Fits(s, limit, k) && High(s[k - 1]) && !Low(s[k])
  }

  /** No longer cut fits without separating a pair. */
  predicate Longest(s: seq<Unit>, limit: int, n: nat) {
    forall k :: n < k <= |s| && !Splits(s, k) ==> Encoded(s[..k]) > limit
  }

  /** Past the last unit that fits, nothing fits. */
  lemma NothingLongerFits(s: seq<Unit>, limit: int, k: nat, n: nat)
    requires Fits(s, limit, k) && k < n <= |s|
    ensures Encoded(s[..n]) > limit
  {
    PrefixesGrow(s, k + 1, n);
  }

  lemma FitsIsUnique(s: seq<Unit>, limit: int, j: nat, k: nat)
    requires Fits(s, limit, j) && Fits(s, limit, k)
    ensures j == k
  {
    if j < k {
      NothingLongerFits(s, limit, j, k);
    } else if k < j {
      NothingLongerFits(s, limit, k, j);
    }
  }

  /** What dropping a trailing high surrogate does to the longest fitting cut. */
  lemma DroppingIsRightUnlessLone(s: seq<Unit>, limit: int, k: nat)
    requires Fits(s, limit, k) && Encoded(s) > limit
    ensures var n := if k > 0 && High(s[k - 1]) then k - 1 else k;
            && !Splits(s, n) && (limit >= 0 ==> Encoded(s[..n]) <= limit)
            && (Longest(s, limit, n) <==> !CutsLoneHigh(s, limit))
  {
    assert k < |s| || s == [] by { assert s[..|s|] == s; }
    var n := if k > 0 && High(s[k - 1]) then k - 1 else k;
    PrefixesGrow(s, n, k);
    forall m | k < m <= |s| ensures Encoded(s[..m]) > limit {
      NothingLongerFits(s, limit, k, m);
    }
    if CutsLoneHigh(s, limit) {
      var j: nat :| 0 < j < |s| && Fits(s, limit, j) && High(s[j - 1]) && !Low(s[j]);
      FitsIsUnique(s, limit, j, k);
      assert n < k <= |s| && !Splits(s, k);
    }
  }

  lemma PrefixIsWellFormed(s: seq<Unit>, n: nat)
    requires WellFormed(s) && n <= |s| && !Splits(s, n)
    ensures WellFormed(s[..n])
  {
    forall k | 0 <= k < n ensures Paired(s[..n], k) {
      assert Paired(s, k);
    }
  }

  lemma WellFormedHasNoLoneHigh(s: seq<Unit>, limit: int)
    requires WellFormed(s)
    ensures !CutsLoneHigh(s, limit)
  {
    forall k: nat | 0 < k < |s| && Fits(s, limit, k) && High(s[k - 1]) ensures Low(s[k]) {
      assert Paired(s, k - 1);
    }
  }

  /** The longest prefix of at most `maxBytes` bytes, found by bisection and then freed of a
      trailing high surrogate. */
  method TruncateUtf8(value: seq<Unit>, maxBytes: int) returns (r: seq<Unit>)
    ensures r <= value && !Splits(value, |r|) && Encode(r) <= Encode(value)
    ensures if maxBytes >= 0 then |Encode(r)| <= maxBytes else r == []
    ensures Longest(value, maxBytes, |r|) <==> !(Encoded(value) > maxBytes && CutsLoneHigh(value, maxBytes))
    ensures WellFormed(value) ==> WellFormed(r) && Longest(value, maxBytes, |r|)
  {
    EncodedIsTheLength(value);
    if |Encode(value)| <= maxBytes {
      return value;
    }
    var lower, upper := 0, |value|;
    while lower < upper
      invariant 0 <= lower <= upper <= |value|
      invariant lower == 0 || Encoded(value[..lower]) <= maxBytes
      invariant upper < |value| ==> Encoded(value[..upper + 1]) > maxBytes
      invariant Encoded(value) > maxBytes
    {
      var midpoint := (lower + upper + 1) / 2;
      EncodedIsTheLength(value[..midpoint]);
      if |Encode(value[..midpoint])| <= maxBytes {
        lower := midpoint;
      } else {
        upper := midpoint - 1;
      }
    }
    DroppingIsRightUnlessLone(value, maxBytes, lower);
    r := value[..lower];
    if r != [] && High(r[|r| - 1]) {
      r := r[..|r| - 1];
      assert r == value[..lower - 1];
    }
    EncodedIsTheLength(r);
    CutsArePrefixes(value, |r|);
    if WellFormed(value) {
      PrefixIsWellFormed(value, |r|);
      WellFormedHasNoLoneHigh(value, maxBytes);
    }
  }

  /** "a" then a lone high surrogate then "b", cut to four bytes: the lone half fits and is dropped. */
  lemma LoneHighIsDropped()
    ensures var s := [0x61, 0xD800, 0x62];
            Encoded(s) > 4 && CutsLoneHigh(s, 4) && !Longest(s, 4, 1)
  {
    var s: seq<Unit> := [0x61, 0xD800, 0x62];
    assert s[1..] == [0xD800, 0x62] && s[1..][1..] == [0x62] && s[1..][1..][1..] == [];
    assert s[..2] == [0x61, 0xD800] && s[..2][1..] == [0xD800] && s[..2][1..][1..] == [];
    assert s[..3] == s;
    assert Encoded(s[..2]) == 4 && Encoded(s) == 5;
    assert Fits(s, 4, 2);
  }
}
