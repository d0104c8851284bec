/** A release channel's safety record: what it accepts, what it permits, and how it grows. */
module ChannelPolicy {
  import opened Wrappers

  type Build = string
  type Digest = string

  /** Immutable release evidence; `launcher` is the digest of the release's own launcher. */
  datatype Receipt = Receipt(build: Build, sequence: nat, descriptor: Digest, launcher: Digest)

  datatype Metadata = Metadata(sequence: nat, minimum: nat, build: Build, descriptor: Digest, revoked: seq<Build>)

  datatype State = State(maximum: nat, minimum: nat, revoked: set<Build>, builds: map<nat, Build>, descriptors: map<nat, Digest>)

  const EMPTY := State(0, 0, {}, map[], map[])

  predicate WellFormed(m: Metadata) {
    m.sequence > 0 && m.build != "" && IsSha256(m.descriptor) && m.minimum <= m.sequence
  }

  /** A sequence number once bound keeps its build and its descriptor. */
  predicate Bound(s: State, sequence: nat, build: Build, descriptor: Digest) {
    && (sequence in s.builds ==> s.builds[sequence] == build)
    && (sequence in s.descriptors ==> s.descriptors[sequence] == descriptor)
  }

  predicate Acceptable(s: State, m: Metadata) {
    && WellFormed(m)
    && s.maximum <= m.sequence && s.minimum <= m.sequence && s.minimum <= m.minimum
    && Bound(s, m.sequence, m.build, m.descriptor)
    && m.build !in s.revoked && m.build !in m.revoked && "" !in m.revoked
  }

  function Merged(s: State, m: Metadata): State {
    State(if m.sequence > s.maximum then m.sequence else s.maximum,
          if m.minimum > s.minimum then m.minimum else s.minimum,
          s.revoked + (set id | id in m.revoked),
          s.builds[m.sequence := m.build],
          s.descriptors[m.sequence := m.descriptor])
  }

  /** Rejects replay, downgrade and identity drift without changing the record. */
  method ValidateMetadata(s: State, m: Metadata) returns (r: Result<State>)
    ensures r.Ok? <==> Acceptable(s, m)
    ensures r.Ok? ==> r.value == Merged(s, m)
  {
    if m.sequence == 0 || m.build == "" || !IsSha256(m.descriptor) || m.minimum > m.sequence {
      return Err("invalid signed channel metadata");
    }
    if m.sequence < s.maximum {
      return Err("release sequence is below recorded maximum");
    }
    if m.sequence < s.minimum || m.minimum < s.minimum {
      return Err("release sequence is below recorded minimum-safe sequence");
    }
    if m.sequence in s.builds && s.builds[m.sequence] != m.build {
      return Err("release sequence was already bound to another build");
    }
    if m.sequence in s.descriptors && s.descriptors[m.sequence] != m.descriptor {
      return Err("release sequence descriptor identity drift");
    }
    if m.build in s.revoked {
      return Err("release build is revoked");
    }
    var revoked := s.revoked;
    for i := 0 to |m.revoked|
      invariant revoked == s.revoked + set id | id in m.revoked[..i]
      invariant "" !in m.revoked[..i]
    {
      if m.revoked[i] == "" {
        return Err("invalid revoked build identity");
      }
      revoked := revoked + {m.revoked[i]};
    }
    assert m.revoked[..|m.revoked|] == m.revoked;
    if m.build in revoked {
      return Err("release build is revoked");
    }
    var maximum := if m.sequence > s.maximum then m.sequence else s.maximum;
    var minimum := if m.minimum > s.minimum then m.minimum else s.minimum;
    r := Ok(State(maximum, minimum, revoked, s.builds[m.sequence := m.build], s.descriptors[m.sequence := m.descriptor]));
  }

  predicate Permit(s: State, r: Receipt) {
    s.minimum <= r.sequence && r.build !in s.revoked && Bound(s, r.sequence, r.build, r.descriptor)
  }

  /** Nothing a channel knows is ever taken back. */
  predicate Extends(s: State, t: State) {
    && s.maximum <= t.maximum && s.minimum <= t.minimum && s.revoked <= t.revoked
    && (forall q :: q in s.builds ==> q in t.builds && t.builds[q] == s.builds[q])
    && (forall q :: q in s.descriptors ==> q in t.descriptors && t.descriptors[q] == s.descriptors[q])
  }

  /** The record after a sequence of commits, each of accepted metadata. */
  function Committed(s: State, commits: seq<Metadata>): State
    decreases |commits|
  {
    if commits == [] then s
    else Committed(if Acceptable(s, commits[0]) then Merged(s, commits[0]) else s, commits[1..])
  }

  lemma {:induction false} CommitsOnlyExtend(s: State, commits: seq<Metadata>)
    ensures Extends(s, Committed(s, commits))
    decreases |commits|
  {
    if commits != [] {
      var t := if Acceptable(s, commits[0]) then Merged(s, commits[0]) else s;
      CommitsOnlyExtend(t, commits[1..]);
    }
  }

  /** A receipt once refused is refused for good. */
  lemma RefusalIsFinal(s: State, commits: seq<Metadata>, r: Receipt)
    requires !Permit(s, r)
    ensures !Permit(Committed(s, commits), r)
  {
    CommitsOnlyExtend(s, commits);
  }

  /** Metadata that was committed is accepted again and changes nothing, as long as nothing newer
      was committed: a promotion interrupted after its commit can be resumed. */
  lemma CommittingAgainChangesNothing(s: State, m: Metadata)
    requires Acceptable(s, m)
    ensures Acceptable(Merged(s, m), m) && Merged(Merged(s, m), m) == Merged(s, m)
  {
    assert m.build !in (set id | id in m.revoked);
  }

  predicate Names(m: Metadata, r: Receipt) {
    m.build == r.build && m.sequence == r.sequence && m.descriptor == r.descriptor
  }

  /** A commit permits its own release. */
  lemma OwnReleaseIsPermitted(s: State, m: Metadata, r: Receipt)
    requires Acceptable(s, m) && Names(m, r)
    ensures Permit(Merged(s, m), r)
  {
    assert m.build !in (set id | id in m.revoked);
  }

  /** What a commit turns away: a build it revokes, a release below its floor, another release under its
      own sequence number. */
  predicate TurnsAway(m: Metadata, r: Receipt) {
    || r.build in m.revoked || r.sequence < m.minimum
    || (r.sequence == m.sequence && (r.build != m.build || r.descriptor != m.descriptor))
  }

  /** A commit refuses exactly what was refused before it and what it turns away. */
  lemma CommitRefusesExactly(s: State, m: Metadata, r: Receipt)
    requires Acceptable(s, m)
    ensures Permit(Merged(s, m), r) <==> Permit(s, r) && !TurnsAway(m, r)
  {
    assert r.build in m.revoked <==> r.build in (set id | id in m.revoked);
  }

  /** What a commit turned away is refused for good, and nothing older than it is ever accepted again. */
  lemma CommitsTakeEffect(s: State, m: Metadata, later: seq<Metadata>, r: Receipt, n: Metadata)
    requires Acceptable(s, m)
    ensures TurnsAway(m, r) ==> !Permit(Committed(Merged(s, m), later), r)
    ensures n.sequence < m.sequence || n.build in m.revoked ==> !Acceptable(Committed(Merged(s, m), later), n)
  {
    CommitRefusesExactly(s, m, r);
    CommitsOnlyExtend(Merged(s, m), later);
    assert n.build in m.revoked <==> n.build in (set id | id in m.revoked);
  }

  /** A sequence number is never given to a second build or descriptor. */
  lemma SequencesAreNeverReused(s: State, first: Metadata, between: seq<Metadata>, second: Metadata)
    requires Acceptable(s, first) && first.sequence == second.sequence
    requires Acceptable(Committed(Merged(s, first), between), second)
    ensures first.build == second.build && first.descriptor == second.descriptor
  {
    CommitsOnlyExtend(Merged(s, first), between);
  }
}
