/** The resumable download of a signed archive into its descriptor's staging directory. */
module Download {
  import opened Wrappers

  type Byte = b: int | 0 <= b < 256

  type Bytes = seq<Byte>

  /** The size and digest that the signed descriptor promises. */
  datatype Identity = Identity(size: int, sha256: string)

  datatype ContentRange = ContentRange(first: int, last: int, total: int)

  /** `body` is what arrives before the connection ends, whatever the headers claim. */
  datatype Response = Response(status: int, contentLength: int, contentRange: Option<ContentRange>, body: Bytes)

  /** One attempt: what the server answers to a request from each offset (a request from 0 carries no
      range), after how many body bytes the transfer is cut, and whether the process dies between the
      link and the removal that finalize the archive. */
  datatype Try = Try(respond: nat -> Option<Response>, patience: nat, dies: bool)

  function Least(a: int, b: int): int { if a < b then a else b }

  predicate Verified(bytes: Bytes, expected: Identity, digest: Bytes -> string) {
    |bytes| == expected.size && digest(bytes) == expected.sha256
  }

  predicate FullResponse(r: Response, size: int) {
    r.contentLength == size
  }

  /** Sections 14.4 and 15.3.7 of RFC 9110: the part must be everything from the offset on. */
  predicate PartialResponse(r: Response, offset: int, size: int) {
    r.contentLength == size - offset && r.contentRange == Some(ContentRange(offset, size - 1, size))
  }

  /** The two names in a staging directory: the partial archive and the finished one. */
  datatype Cache = Cache(partial: Option<Bytes>, final: Option<Bytes>)

  /** A partial file that no attempt can ever get past. */
  predicate Stuck(c: Cache, expected: Identity, digest: Bytes -> string) {
    c.partial.Some? && |c.partial.value| >= expected.size && !Verified(c.partial.value, expected, digest)
  }

  // ---- a server of one archive --------------------------------------------------------------

  predicate PartOf(partial: Option<Bytes>, archive: Bytes) {
    partial.Some? ==> partial.value <= archive
  }

  /** A server that only ever sends bytes of `archive`, from the start or from the offset. */
  ghost predicate Serves(respond: nat -> Option<Response>, archive: Bytes) {
    forall offset: nat :: offset <= |archive| && respond(offset).Some? ==> Sends(respond(offset).value, archive, offset)
  }

  ghost predicate Sends(r: Response, archive: Bytes, offset: nat)
    requires offset <= |archive|
  {
    && (r.status == 200 ==> r.body <= archive)
    && (r.status == 206 ==> r.body <= archive[offset..])
  }

  /** An answer to a request from `offset` that carries everything that was asked for. */
  ghost predicate Delivers(t: Try, archive: Bytes, offset: nat)
    requires offset <= |archive|
  {
    && t.respond(offset).Some? && t.patience > |archive|
    && var r := t.respond(offset).value;
       || (r.status == 200 && FullResponse(r, |archive|) && r.body == archive)
       || (offset > 0 && r.status == 206 && PartialResponse(r, offset, |archive|) && r.body == archive[offset..])
  }

  // ---- what one attempt does ------------------------------------------------------------------

  /** How far a resumed request starts into the archive. */
  function Offset(c: Cache): nat {
    if c.partial.None? then 0 else |c.partial.value|
  }

  predicate Resumes(c: Cache, r: Response) {
    Offset(c) > 0 && r.status == 206
  }

  /** Is the answer to a request from the partial's end written to disk at all? */
  predicate Taken(c: Cache, r: Response, size: int) {
    if Resumes(c, r) then PartialResponse(r, Offset(c), size) else r.status == 200 && FullResponse(r, size)
  }

  /** What is missing when the answer is written: all of it, or what follows the partial. */
  function Missing(c: Cache, r: Response, size: int): int {
    if Resumes(c, r) then size - Offset(c) else size
  }

  /** The partial after the answer is written: at most one byte more than what is missing. */
  function Received(c: Cache, r: Response, size: int, patience: nat): Bytes
    requires Offset(c) < size
  {
    (if Resumes(c, r) then c.partial.value else []) + r.body[..Least(Least(patience, |r.body|), Missing(c, r, size) + 1)]
  }

  /** The verified partial becomes the finished archive; nothing else ever does. */
  function Finalized(c: Cache, expected: Identity, digest: Bytes -> string, dies: bool): Cache
    requires c.partial.Some?
  {
    if !Verified(c.partial.value, expected, digest) then c
    else Cache(if dies then c.partial else None, c.partial)
  }

  function Attempted(c: Cache, expected: Identity, digest: Bytes -> string, t: Try): Cache {
    if expected.size <= 0 || !IsSha256(expected.sha256) || c.final.Some? || Offset(c) > expected.size then c
    else if Offset(c) == expected.size then Finalized(c, expected, digest, t.dies)
    else
      var answer := t.respond(Offset(c));
      if answer.None? || !Taken(c, answer.value, expected.size) then c
      else
        var next := c.(partial := Some(Received(c, answer.value, expected.size, t.patience)));
        if |answer.value.body| == Missing(c, answer.value, expected.size) < t.patience
        then Finalized(next, expected, digest, t.dies) else next
  }

  // ---- one attempt keeps ------------------------------------------------------------------------

  /** Whatever the server does, a finished archive has the signed size and digest, and no attempt
      replaces one. */
  lemma FinishedIsVerifiedAndKept(c: Cache, expected: Identity, digest: Bytes -> string, t: Try)
    ensures var next := Attempted(c, expected, digest, t);
            && (c.final.Some? ==> next == c)
            && (c.final.None? && next.final.Some? ==> Verified(next.final.value, expected, digest))
  {
  }

  lemma AppendedIsPartOf(archive: Bytes, start: Bytes, body: Bytes, k: nat)
    requires start <= archive && body <= archive[|start|..] && k <= |body|
    ensures start + body[..k] <= archive
  {
    assert archive == start + archive[|start|..];
  }

  /** From a server of one archive, the partial is always a prefix of that archive and the finished
      archive is that archive. */
  lemma HonestAttempt(c: Cache, expected: Identity, digest: Bytes -> string, t: Try, archive: Bytes)
    requires expected.size == |archive| && Serves(t.respond, archive) && Holds(c, archive)
    ensures Holds(Attempted(c, expected, digest, t), archive)
  {
    if Offset(c) < |archive| && t.respond(Offset(c)).Some? {
      var r := t.respond(Offset(c)).value;
      assert Sends(r, archive, Offset(c));
      if Taken(c, r, |archive|) {
        AppendedIsPartOf(archive, if Resumes(c, r) then c.partial.value else [], r.body,
                         Least(Least(t.patience, |r.body|), Missing(c, r, |archive|) + 1));
      }
    }
  }

  ghost predicate Holds(c: Cache, archive: Bytes) {
    && PartOf(c.partial, archive)
    && (c.final.Some? ==> c.final.value == archive)
  }

  lemma FullPrefixIsWhole(c: Cache, archive: Bytes)
    requires Holds(c, archive)
    ensures Offset(c) <= |archive|
    ensures c.partial.Some? && |archive| <= Offset(c) ==> c.partial.value == archive
  {
  }

  /** The attempt that is not cut finishes the archive, resumed or not. */
  lemma LastAttempt(c: Cache, expected: Identity, digest: Bytes -> string, t: Try, archive: Bytes)
    requires Identifies(expected, digest, archive) && Holds(c, archive) && Delivers(t, archive, Offset(c)) && !t.dies
    ensures Attempted(c, expected, digest, t).final == Some(archive)
  {
    FullPrefixIsWhole(c, archive);
    if c.final.None? && Offset(c) < |archive| {
      var r := t.respond(Offset(c)).value;
      if Resumes(c, r) {
        assert archive == c.partial.value + archive[Offset(c)..];
        assert r.body[..|r.body|] == r.body;
      } else {
        assert [] + r.body[..|r.body|] == archive;
      }
    }
  }

  /** A partial of full size that does not verify, or a longer one, is never deleted: nothing gets
      past it.  Any other cache is finished by one full answer. */
  lemma StuckExactly(c: Cache, expected: Identity, digest: Bytes -> string, archive: Bytes)
    requires Identifies(expected, digest, archive) && c.final.None?
    ensures Stuck(c, expected, digest) <==> forall t :: Attempted(c, expected, digest, t) == c
    ensures !Stuck(c, expected, digest) ==>
              Attempted(c, expected, digest, Fresh(archive)).final.Some?
  {
    var t := Fresh(archive);
    assert t.respond(Offset(c)) == Some(Response(200, |archive|, None, archive));
    assert [] + archive[..|archive|] == archive;
    assert !Stuck(c, expected, digest) ==> Attempted(c, expected, digest, t) != c;
  }

  /** Does the answer's head promise exactly the bytes from `offset` on of an archive of this size? */
  predicate Binds(r: Response, offset: nat, size: int) {
    || (r.status == 200 && r.contentLength == size)
    || (r.status == 206 && offset > 0 && r.contentLength == size - offset
        && r.contentRange == Some(ContentRange(offset, size - 1, size)))
  }

  /** An attempt that still has to ask leaves the cache as it is unless the answer binds the signed size,
      and then it keeps the old bytes in front of the new ones, or starts over. */
  lemma OnlyBoundAnswersAreWritten(c: Cache, expected: Identity, digest: Bytes -> string, t: Try)
    requires Offset(c) != expected.size
    ensures var next, answer := Attempted(c, expected, digest, t), t.respond(Offset(c));
            next != c ==>
              && c.final.None? && Offset(c) < expected.size
              && answer.Some? && Binds(answer.value, Offset(c), expected.size)
              && var whole := if next.final.Some? then next.final.value else next.partial.value;
                 && (answer.value.status == 206 ==> c.partial.value <= whole && whole[Offset(c)..] <= answer.value.body)
                 && (answer.value.status == 200 ==> whole <= answer.value.body)
  {
    var answer := t.respond(Offset(c));
    if Attempted(c, expected, digest, t) != c {
      var got := Received(c, answer.value, expected.size, t.patience);
      if Resumes(c, answer.value) {
        assert got[..Offset(c)] == c.partial.value;
      } else {
        assert got == answer.value.body[..|got|];
      }
    }
  }

  /** An unhurried server that ignores ranges. */
  function Fresh(archive: Bytes): Try {
    Try(_ => Some(Response(200, |archive|, None, archive)), |archive| + 1, false)
  }

  /** One full answer with wrong bytes of the right size is enough to get stuck from nothing, and from
      then on every attempt, honest or not, leaves the cache as it is. */
  lemma OneWrongAnswerSticks(expected: Identity, digest: Bytes -> string, archive: Bytes, wrong: Bytes, later: seq<Try>)
    requires Identifies(expected, digest, archive) && |wrong| == |archive| && digest(wrong) != expected.sha256
    ensures var stuck := Attempted(Cache(None, None), expected, digest, Fresh(wrong));
            && stuck == Cache(Some(wrong), None) && Stuck(stuck, expected, digest)
            && Fetched(stuck, expected, digest, later) == stuck
  {
    assert [] + wrong[..|wrong|] == wrong;
    StuckStays(Cache(Some(wrong), None), expected, digest, archive, later);
  }

  lemma {:induction false} StuckStays(c: Cache, expected: Identity, digest: Bytes -> string, archive: Bytes, later: seq<Try>)
    requires Identifies(expected, digest, archive) && c.final.None? && Stuck(c, expected, digest)
    ensures Fetched(c, expected, digest, later) == c
    decreases |later|
  {
    if later != [] {
      StuckExactly(c, expected, digest, archive);
      assert Attempted(c, expected, digest, later[0]) == c;
      StuckStays(c, expected, digest, archive, later[1..]);
    }
  }

  // ---- any number of attempts ---------------------------------------------------------------------

  function Fetched(c: Cache, expected: Identity, digest: Bytes -> string, tries: seq<Try>): Cache
    decreases |tries|
  {
    if tries == [] then c else Fetched(Attempted(c, expected, digest, tries[0]), expected, digest, tries[1..])
  }

  /** Any interrupted attempts followed by one that is not cut give what a fresh download gives. */
  lemma {:induction false} ResumedEqualsFresh(c: Cache, expected: Identity, digest: Bytes -> string, tries: seq<Try>,
                                              last: Try, archive: Bytes)
    requires Identifies(expected, digest, archive) && Holds(c, archive)
    requires forall k :: 0 <= k < |tries| ==> Serves(tries[k].respond, archive)
    requires !last.dies && forall offset: nat :: offset <= |archive| ==> Delivers(last, archive, offset)
    ensures Fetched(c, expected, digest, tries + [last]).final == Some(archive)
    decreases |tries|
  {
    if tries == [] {
      assert (tries + [last])[1..] == [];
      LastAttempt(c, expected, digest, last, archive);
    } else {
      HonestAttempt(c, expected, digest, tries[0], archive);
      assert (tries + [last])[1..] == tries[1..] + [last];
      ResumedEqualsFresh(Attempted(c, expected, digest, tries[0]), expected, digest, tries[1..], last, archive);
    }
  }

  /** At any time in between, the partial is a prefix of the archive. */
  lemma {:induction false} AlwaysAPrefix(c: Cache, expected: Identity, digest: Bytes -> string, tries: seq<Try>, archive: Bytes)
    requires Identifies(expected, digest, archive) && Holds(c, archive)
    requires forall k :: 0 <= k < |tries| ==> Serves(tries[k].respond, archive)
    ensures Holds(Fetched(c, expected, digest, tries), archive)
    ensures !Stuck(Fetched(c, expected, digest, tries), expected, digest)
    decreases |tries|
  {
    if tries == [] {
      FullPrefixIsWhole(c, archive);
    } else {
      HonestAttempt(c, expected, digest, tries[0], archive);
      AlwaysAPrefix(Attempted(c, expected, digest, tries[0]), expected, digest, tries[1..], archive);
    }
  }

  ghost predicate Identifies(expected: Identity, digest: Bytes -> string, archive: Bytes) {
    |archive| > 0 && IsSha256(expected.sha256) && Verified(archive, expected, digest)
  }

  /** The staging directory on disk. */
  class Stage {
    var partial: Option<Bytes>
    var final: Option<Bytes>

    constructor ()
      ensures Contents() == Cache(None, None)
    {
      partial, final := None, None;
    }

    function Contents(): Cache
      reads this
    {
      Cache(partial, final)
    }

    /** One acquisition: use the finished archive, or resume or restart the partial one. */
    method Attempt(expected: Identity, digest: Bytes -> string, t: Try) returns (r: Result<Bytes>)
      modifies this
      ensures Contents() == Attempted(old(Contents()), expected, digest, t)
      ensures r.Ok? ==> final == Some(r.value) && Verified(r.value, expected, digest)
      ensures old(final.None?) && final.Some? && !t.dies ==> r.Ok?
    {
      if expected.size <= 0 || !IsSha256(expected.sha256) {
        return Err("invalid signed archive identity");
      }
      if final.Some? {
        if !Verified(final.value, expected, digest) {
          return Err("cached archive does not match signed release descriptor");
        }
        return Ok(final.value);
      }
      var offset := if partial.Some? then |partial.value| else 0;
      if offset > expected.size {
        return Err("partial archive exceeds signed size");
      }
      if offset == expected.size {
        r := Finalize(expected, digest, t.dies);
        return;
      }
      r := Request(expected, digest, t, offset);
    }

    /** Ask for what is missing, check the answer's head, write its body and finalize. */
    method Request(expected: Identity, digest: Bytes -> string, t: Try, offset: nat) returns (r: Result<Bytes>)
      requires IsSha256(expected.sha256) && final.None? && offset == Offset(Contents()) < expected.size
      modifies this
      ensures Contents() == Attempted(old(Contents()), expected, digest, t)
      ensures r.Ok? ==> final == Some(r.value) && Verified(r.value, expected, digest)
      ensures final.Some? && !t.dies ==> r.Ok?
    {
      var answer := t.respond(offset);
      if answer.None? {
        return Err("request failed");
      }
      var response := answer.value;
      var append := offset > 0 && response.status == 206;
      if append {
        if !PartialResponse(response, offset, expected.size) {
          return Err("partial archive response does not bind the signed descriptor size");
        }
      } else if response.status == 200 {
        if !FullResponse(response, expected.size) {
          return Err("archive content length mismatch");
        }
      } else {
        return Err("unexpected HTTP status");
      }
      var complete := Receive(response.body, if append then offset else 0, expected.size, append, t.patience);
      if !complete {
        return Err("archive body length mismatch");
      }
      r := Finalize(expected, digest, t.dies);
    }

    /** Truncate or append, then copy at most one byte more than what is missing. */
    method Receive(body: Bytes, offset: nat, size: int, append: bool, patience: nat) returns (complete: bool)
      requires offset < size && (if append then partial.Some? && |partial.value| == offset else offset == 0)
      modifies this`partial
      ensures partial == Some((if append then old(partial.value) else []) + body[..Least(Least(patience, |body|), size - offset + 1)])
      ensures complete <==> |body| == size - offset < patience
    {
      if !append {
        partial := Some([]);
      }
      ghost var start := partial.value;
      var written := 0;
      assert start + body[..0] == start;
      while written < |body| && written < patience && written < size - offset + 1
        invariant 0 <= written <= Least(Least(patience, |body|), size - offset + 1)
        invariant partial == Some(start + body[..written])
      {
        partial := Some(partial.value + [body[written]]);
        assert start + body[..written] + [body[written]] == start + body[..written + 1];
        written := written + 1;
      }
      complete := written == size - offset && written < patience;
    }

    /** Verify, then link the final name before removing the partial one. */
    method Finalize(expected: Identity, digest: Bytes -> string, dies: bool) returns (r: Result<Bytes>)
      requires partial.Some? && final.None?
      modifies this
      ensures if Verified(old(partial.value), expected, digest)
              then final == old(partial) && partial == (if dies then old(partial) else None)
              else final == None && partial == old(partial)
      ensures r.Ok? <==> Verified(old(partial.value), expected, digest) && !dies
      ensures r.Ok? ==> final == Some(r.value)
    {
      if !Verified(partial.value, expected, digest) {
        return Err("archive size or SHA-256 does not match signed release descriptor");
      }
      final := partial;
      if dies {
        return Err("killed");
      }
      partial := None;
      r := Ok(final.value);
    }
  }
}
