/** The durable state that update, rollback and recovery share, the guards that read it, and the
    invariant that every single durable write keeps. */
module Transitions {
  import opened Wrappers
  import opened ChannelPolicy

  /** A database file: which restore put it there (0 for none) and whose writes it holds. */
  datatype Database = Database(restore: nat, writers: set<Receipt>)

  /** A paired snapshot under `backups`, labelled with a release receipt and the wall clock. */
  datatype Pair = Pair(id: nat, owner: Receipt, app: Database, temporal: Database, created: nat)

  const MAX_GENERATION: nat := 0xFFFF_FFFF_FFFF_FFFF

  type Generation = g: nat | g <= MAX_GENERATION

  datatype Active = Active(receipt: Receipt, generation: Generation, selectorBuild: Build)

  datatype Phase =
    | Idle | MetadataVerified | ReleaseCommitted | SelectorHandoffPending | SelectorReplaced | Quiescing
    | PairBackedUp | MigrationCandidateReady | MigrationActivated | PolicyPending | PolicyFinalized
    | CandidateStarting | CandidateHealthy | Promoted | RollbackRestoring | RolledBack | Failed

  datatype Operation = Update | Rollback

  datatype Journal = Journal(
    schemaVersion: int, id: nat, operation: Operation, phase: Phase,
    prior: Option<Receipt>, candidate: Option<Receipt>, descriptor: Digest,
    backup: Option<nat>, target: Option<nat>, recovery: Option<nat>,
    preserveLive: bool, forwardOnly: bool, sourceGeneration: Generation, sourceSchema: int)

  /** What happened that a torn pair must never see, nor a copy a pair that is being written. */
  datatype Event = Started(release: Receipt, torn: bool) | Saved(owner: Receipt, torn: bool, running: bool)

  /** `handed` are the journal ids that were ever given to a starting release. */
  datatype Machine = Machine(
    journal: Option<Journal>, active: Active, selector: Digest,
    app: Database, temporal: Database, pairs: seq<Pair>, restores: nat,
    channel: State, running: Option<Receipt>, handed: set<nat>, events: seq<Event>)

  /** What is installed never changes: a receipt and a policy for each build. */
  datatype Installed = Installed(receipts: map<Build, Receipt>, policies: map<Build, Metadata>)

  const APPLICATION_SCHEMA: int := 1

  predicate Resumable(j: Journal) {
    j.phase != Idle && j.phase != Promoted && j.phase != RolledBack && j.phase != Failed
  }

  predicate Unfinished(m: Machine) {
    m.journal.Some? && Resumable(m.journal.value)
  }

  predicate Torn(m: Machine) {
    m.app.restore != m.temporal.restore
  }

  /** The installed evidence of a receipt: filed under its build, with a policy that names it. */
  predicate Evidence(i: Installed, r: Receipt) {
    && r.build in i.receipts && i.receipts[r.build] == r
    && r.build in i.policies && Names(i.policies[r.build], r)
  }

  predicate Executable(i: Installed, m: Machine, r: Receipt) {
    Evidence(i, r) && Permit(m.channel, r)
  }

  predicate TargetForwardJournal(j: Journal) {
    && Resumable(j) && j.forwardOnly && j.preserveLive && j.schemaVersion == 2 && j.operation == Update
    && j.prior.Some? && j.candidate.Some?
    && j.sourceGeneration != 0 && j.sourceGeneration != MAX_GENERATION && j.sourceSchema == APPLICATION_SCHEMA
    && j.descriptor == j.candidate.value.descriptor && j.target.None?
    && match j.phase
       case MetadataVerified => j.backup.None? && j.recovery.None?
       case PairBackedUp => j.backup.Some?
       case SelectorHandoffPending => j.backup.Some?
       case SelectorReplaced => j.backup.Some?
       case CandidateStarting => j.backup.Some?
       case CandidateHealthy => j.backup.Some?
       case PolicyFinalized => j.backup.Some?
       case _ => false
  }

  /** The public selector is the launcher of the selected release, or of a permitted release
      between it and the candidate that an earlier rollback kept. */
  predicate SourceSelectorMatches(i: Installed, m: Machine, candidate: Receipt) {
    if m.active.selectorBuild == m.active.receipt.build then m.selector == m.active.receipt.launcher
    else
      && m.active.selectorBuild in i.receipts
      && var s := i.receipts[m.active.selectorBuild];
         && s.build == m.active.selectorBuild && m.active.receipt.sequence <= s.sequence <= candidate.sequence
         && Executable(i, m, s) && m.selector == s.launcher
  }

  predicate SourceSelected(m: Machine, j: Journal) {
    j.prior.Some? && m.active.receipt == j.prior.value && m.active.generation == j.sourceGeneration
  }

  predicate TargetSelected(m: Machine, j: Journal) {
    && j.phase == PolicyFinalized && j.candidate.Some? && j.sourceGeneration != MAX_GENERATION
    && m.active == Active(j.candidate.value, j.sourceGeneration + 1, j.candidate.value.build)
  }

  /** The selection and selector test of `stop` during an unfinished update. */
  predicate StopAdmits(i: Installed, m: Machine, j: Journal) {
    && TargetForwardJournal(j) && Evidence(i, j.candidate.value) && Evidence(i, j.prior.value)
    && (SourceSelected(m, j) || TargetSelected(m, j))
    && (SourceSelectorMatches(i, m, j.candidate.value) || m.selector == j.candidate.value.launcher)
  }

  /** `Run` lets a journal-authorized startup through, and nothing else, while a transition is
      unfinished. */
  predicate StartupAuthorized(m: Machine, id: nat, release: Receipt) {
    && Unfinished(m) && m.journal.value.id == id && Permit(m.channel, release)
    && (m.journal.value.forwardOnly ==> TargetForwardJournal(m.journal.value))
    && match m.journal.value.phase
       case CandidateStarting => m.journal.value.candidate == Some(release)
       case RollbackRestoring => m.journal.value.prior == Some(release)
       case _ => false
  }

  /** May recovery replace the live pair?  Never once a candidate may have run. */
  predicate RefusesUncertainRollback(j: Journal) {
    match j.phase
    case RollbackRestoring =>
      !(j.backup.None? && j.operation == Update && j.target.None? && !j.preserveLive)
    case PairBackedUp => true
    case PolicyPending => true
    case MigrationCandidateReady => true
    case MigrationActivated => true
    case CandidateStarting => true
    case CandidateHealthy => true
    case PolicyFinalized => true
    case _ => false
  }

  /** A journal that no command continues and no recovery may undo. */
  predicate Barred(m: Machine) {
    && Unfinished(m) && !m.journal.value.forwardOnly
    && (m.journal.value.preserveLive || RefusesUncertainRollback(m.journal.value))
  }

  // ---- a torn pair is fenced ------------------------------------------------------------

  /** A half-replaced pair only exists behind an unfinished restoring journal that no command
      gets past and whose id nobody holds, and nothing runs on it.  Once somebody holds a journal's
      id, recovery restores no pair under it. */
  predicate Fenced(m: Machine) {
    && (Torn(m) ==>
          && m.running.None? && m.journal.Some? && m.journal.value.phase == RollbackRestoring
          && !m.journal.value.forwardOnly && m.journal.value.id !in m.handed
          && (m.journal.value.preserveLive || m.journal.value.backup.Some?))
    && m.app.restore <= m.restores && m.temporal.restore <= m.restores
    && (Unfinished(m) && !m.journal.value.forwardOnly && m.journal.value.id in m.handed ==> NeverRestores(m.journal.value))
  }

  /** Recovery refuses the journal or has no pair to restore. */
  predicate NeverRestores(j: Journal) {
    j.preserveLive || RefusesUncertainRollback(j) || j.backup.None?
  }

  predicate Clean(events: seq<Event>) {
    forall k :: 0 <= k < |events| ==> !events[k].torn && (events[k].Saved? ==> !events[k].running)
  }

  predicate Safe(m: Machine) {
    Fenced(m) && Clean(m.events)
  }

  // ---- snapshot labels are honest --------------------------------------------------------

  /** Nothing newer than `sequence` ever wrote here. */
  predicate NoNewer(d: Database, sequence: nat) {
    forall r :: r in d.writers ==> r.sequence <= sequence
  }

  predicate Honest(p: Pair) {
    NoNewer(p.app, p.owner.sequence) && NoNewer(p.temporal, p.owner.sequence)
  }

  function Max(a: nat, b: nat): nat { if a > b then a else b }

  /** The newest release that may have written the live pair by now. */
  function Newest(m: Machine): nat {
    if !Unfinished(m) || m.journal.value.prior.None? || m.journal.value.candidate.None? then m.active.receipt.sequence
    else
      var j := m.journal.value;
      var prior, candidate := j.prior.value.sequence, j.candidate.value.sequence;
      if j.forwardOnly then (if j.backup.None? then prior else candidate)
      else match j.phase
        case CandidateStarting => candidate
        case CandidateHealthy => candidate
        case RollbackRestoring => if j.preserveLive then Max(prior, candidate) else prior
        case _ => prior
  }

  predicate Provenance(m: Machine) {
    && NoNewer(m.app, Newest(m)) && NoNewer(m.temporal, Newest(m))
    && (m.running.Some? ==> m.running.value.sequence <= Newest(m))
    && forall k :: 0 <= k < |m.pairs| ==> Honest(m.pairs[k])
  }

  /** The release's own policy is part of the channel record. */
  predicate PolicyCommitted(i: Installed, m: Machine, r: Receipt) {
    r.build in i.policies && Merged(m.channel, i.policies[r.build]) == m.channel
  }

  /** A forward update is only finalized or promoted with its policy committed. */
  predicate Sealed(i: Installed, m: Machine) {
    (m.journal.Some? && m.journal.value.forwardOnly && m.journal.value.candidate.Some?
     && (m.journal.value.phase == PolicyFinalized || m.journal.value.phase == Promoted)) ==>
      PolicyCommitted(i, m, m.journal.value.candidate.value)
  }

  predicate Truthful(i: Installed, m: Machine) {
    Provenance(m) && Sealed(i, m)
  }

  /** A journal of the forward update, at any point where it can be interrupted. */
  predicate ForwardJournal(i: Installed, m: Machine, j: Journal) {
    && StopAdmits(i, m, j)
    && j.prior.value.sequence < j.candidate.value.sequence
    && Acceptable(m.channel, i.policies[j.candidate.value.build])
    && Permit(m.channel, j.candidate.value)
    && (TargetSelected(m, j) ==> m.selector == j.candidate.value.launcher)
  }

  /** A journal of an explicit rollback, recovered or not. */
  predicate RollbackJournal(m: Machine, j: Journal) {
    && j.operation == Rollback && !j.forwardOnly && j.prior.Some? && j.candidate.Some? && j.target.Some?
    && match j.phase
       case MetadataVerified => m.active.receipt == j.prior.value && !j.preserveLive && j.backup.None?
       case Quiescing => m.active.receipt == j.prior.value && !j.preserveLive && j.backup.None?
       case PairBackedUp => m.active.receipt == j.prior.value && j.preserveLive && j.backup.Some?
       case RollbackRestoring => m.active.receipt == j.prior.value && (j.preserveLive <==> j.backup.Some?)
       case CandidateStarting => m.active.receipt == j.prior.value && j.preserveLive && j.backup.Some?
       case CandidateHealthy => j.preserveLive && j.backup.Some?
       case _ => false
  }

  /** The active generation is positive, and an unfinished journal is one that
      this controller wrote. */
  predicate OwnJournal(i: Installed, m: Machine) {
    && m.active.generation != 0
    && (Unfinished(m) ==>
          if m.journal.value.forwardOnly then ForwardJournal(i, m, m.journal.value)
          else RollbackJournal(m, m.journal.value))
  }

  predicate Inv(i: Installed, m: Machine) {
    Safe(m) && Truthful(i, m) && OwnJournal(i, m)
  }

  // ---- the durable writes -----------------------------------------------------------------

  function Record(m: Machine, j: Journal): Machine {
    m.(journal := Some(j))
  }

  function SavePair(m: Machine, owner: Receipt, created: nat): Machine {
    SaveElsewhere(m, owner).(pairs := m.pairs + [Pair(|m.pairs|, owner, m.app, m.temporal, created)])
  }

  /** A snapshot outside the retained pairs. */
  function SaveElsewhere(m: Machine, owner: Receipt): Machine {
    m.(events := m.events + [Saved(owner, Torn(m), m.running.Some?)])
  }

  /** One more pair is retained: what `app` and `temporal` are, labelled with `owner`. */
  predicate Retains(a: seq<Pair>, b: seq<Pair>, owner: Receipt, app: Database, temporal: Database) {
    |b| == |a| + 1 && b[..|a|] == a && b[|a|] == Pair(|a|, owner, app, temporal, b[|a|].created)
  }

  function Start(m: Machine, release: Receipt): Machine {
    m.(running := Some(release), events := m.events + [Started(release, Torn(m))])
  }

  /** The release is told the id of the journal that authorizes its start. */
  function StartUnder(m: Machine, id: nat, release: Receipt): Machine {
    Start(m.(handed := m.handed + {id}), release)
  }

  function Select(m: Machine, release: Receipt, prior: Generation, selectorBuild: Build): Machine {
    m.(active := Active(release, if prior == MAX_GENERATION then 1 else prior + 1, selectorBuild))
  }

  /** The two renames of a paired restore are two separate writes. */
  function RestoreApp(m: Machine, p: Pair): Machine {
    m.(app := Database(m.restores + 1, p.app.writers), restores := m.restores + 1)
  }

  function RestoreTemporal(m: Machine, p: Pair): Machine {
    m.(temporal := Database(m.app.restore, p.temporal.writers))
  }

  /** The running release commits to one or both databases; nothing else moves. */
  predicate Drifted(a: Machine, b: Machine) {
    && b == a.(app := b.app, temporal := b.temporal)
    && b.app.restore == a.app.restore && b.temporal.restore == a.temporal.restore
    && a.app.writers <= b.app.writers <= a.app.writers + Writers(a)
    && a.temporal.writers <= b.temporal.writers <= a.temporal.writers + Writers(a)
  }

  function Writers(m: Machine): set<Receipt> {
    if m.running.Some? then {m.running.value} else {}
  }

  lemma DriftKeeps(i: Installed, a: Machine, b: Machine)
    requires Drifted(a, b)
    ensures Safe(a) ==> Safe(b)
    ensures Truthful(i, a) ==> Truthful(i, b)
    ensures OwnJournal(i, a) ==> OwnJournal(i, b)
  {
  }

  // ---- the forward update -----------------------------------------------------------------

  /** The source is still selected and the forward journal `j` is recorded. */
  predicate Forward(i: Installed, m: Machine, j: Journal) {
    && Safe(m) && m.journal == Some(j) && ForwardJournal(i, m, j) && SourceSelected(m, j)
    && m.active.generation != 0 && m.active.generation != MAX_GENERATION
  }

  lemma ForwardIsWhole(i: Installed, m: Machine, j: Journal)
    requires Forward(i, m, j)
    ensures !Torn(m) && OwnJournal(i, m)
    ensures j.phase == CandidateStarting ==> StartupAuthorized(m, j.id, j.candidate.value)
  {
  }

  /** Every later milestone of an update whose backup is recorded. */
  predicate Milestone(p: Phase) {
    p == PairBackedUp || p == SelectorHandoffPending || p == SelectorReplaced || p == CandidateStarting
    || p == CandidateHealthy || p == PolicyFinalized
  }

  lemma MilestoneKeepsForward(i: Installed, m: Machine, j: Journal, p: Phase)
    requires Forward(i, m, j) && j.backup.Some? && Milestone(p)
    requires p == PolicyFinalized ==> PolicyCommitted(i, m, j.candidate.value)
    ensures Forward(i, Record(m, j.(phase := p)), j.(phase := p))
    ensures Truthful(i, m) ==> Truthful(i, Record(m, j.(phase := p)))
  {
  }

  lemma HandoffKeepsForward(i: Installed, m: Machine, j: Journal)
    requires Forward(i, m, j)
    ensures Forward(i, m.(selector := j.candidate.value.launcher), j)
    ensures Truthful(i, m) ==> Truthful(i, m.(selector := j.candidate.value.launcher))
  {
  }

  /** The label rule: only an update that has recorded no backup yet labels its snapshot with the
      predecessor, and then no candidate has run. */
  function SnapshotOwner(m: Machine, j: Journal): Receipt
    requires j.candidate.Some?
  {
    if j.backup.None? && j.phase == MetadataVerified then m.active.receipt else j.candidate.value
  }

  lemma ForwardSnapshotIsHonest(i: Installed, m: Machine, j: Journal, created: nat)
    requires Forward(i, m, j) && m.running.None?
    ensures var s := SavePair(m, SnapshotOwner(m, j), created);
            && Forward(i, s, j)
            && (Truthful(i, m) ==> Truthful(i, s))
  {
    var s := SavePair(m, SnapshotOwner(m, j), created);
    assert Newest(s) == Newest(m);
    if Provenance(m) {
      assert Honest(s.pairs[|m.pairs|]);
    }
  }

  lemma BackupKeepsForward(i: Installed, m: Machine, j: Journal, k: Journal)
    requires Forward(i, m, j)
    requires exists id :: k == (if j.backup.None? then j.(backup := Some(id)) else j.(recovery := Some(id))).(phase := PairBackedUp)
    ensures Forward(i, Record(m, k), k) && k.backup.Some?
    ensures Truthful(i, m) ==> Truthful(i, Record(m, k))
  {
  }

  lemma StartKeepsForward(i: Installed, m: Machine, j: Journal)
    requires Forward(i, m, j) && j.backup.Some?
    ensures Forward(i, StartUnder(m, j.id, j.candidate.value), j)
    ensures Truthful(i, m) ==> Truthful(i, StartUnder(m, j.id, j.candidate.value))
  {
  }

  lemma CommitKeepsForward(i: Installed, m: Machine, j: Journal)
    requires Forward(i, m, j) && m.selector == j.candidate.value.launcher
    ensures var c := m.(channel := Merged(m.channel, i.policies[j.candidate.value.build]));
            && Forward(i, c, j) && PolicyCommitted(i, c, j.candidate.value)
            && (Truthful(i, m) ==> Truthful(i, c))
  {
    var policy := i.policies[j.candidate.value.build];
    CommittingAgainChangesNothing(m.channel, policy);
    OwnReleaseIsPermitted(m.channel, policy, j.candidate.value);
  }

  lemma SelectKeeps(i: Installed, m: Machine, j: Journal)
    requires Forward(i, m, j) && j.phase == PolicyFinalized && m.selector == j.candidate.value.launcher
    ensures var s := Select(m, j.candidate.value, j.sourceGeneration, j.candidate.value.build);
            && Safe(s) && OwnJournal(i, s) && TargetSelected(s, j)
            && (Truthful(i, m) ==> Truthful(i, s))
  {
  }

  lemma PromoteKeeps(i: Installed, m: Machine, j: Journal)
    requires Safe(m) && m.journal == Some(j) && OwnJournal(i, m) && j.forwardOnly && TargetSelected(m, j)
    ensures var p := Record(m, j.(phase := Promoted));
            && Safe(p) && OwnJournal(i, p)
            && (Truthful(i, m) ==> Truthful(i, p))
  {
  }

  /** What `Begin` writes: a journal that nothing resumes. */
  function Opened(id: nat, operation: Operation, prior: Receipt, candidate: Receipt): Journal {
    Journal(2, id, operation, Idle, Some(prior), Some(candidate), candidate.descriptor, None, None, None, false, false, 0, 0)
  }

  /** A random id that nobody holds. */
  lemma SomeIdIsUnused(handed: set<nat>)
    ensures exists id: nat :: id !in handed
  {
    if handed != {} {
      HasGreatest(handed);
      var top: nat :| top in handed && forall h :: h in handed ==> h <= top;
      assert top + 1 !in handed;
    } else {
      assert 0 !in handed;
    }
  }

  lemma HasGreatest(s: set<nat>)
    requires s != {}
    ensures exists top :: top in s && forall h :: h in s ==> h <= top
  {
    var x :| x in s;
    if s == {x} {
    } else {
      HasGreatest(s - {x});
      var top :| top in s - {x} && forall h :: h in s - {x} ==> h <= top;
      var best := if x > top then x else top;
      assert best in s && forall h :: h in s ==> h == x || h in s - {x};
    }
  }

  lemma OpeningKeeps(i: Installed, m: Machine, j: Journal)
    requires Safe(m) && !Unfinished(m) && j.phase == Idle && m.active.generation != 0
    ensures var o := Record(m, j);
            && Safe(o) && OwnJournal(i, o) && !Unfinished(o)
            && (Truthful(i, m) ==> Truthful(i, o))
  {
  }

  /** Every guard of a fresh update, and of nothing else, makes its first milestone a forward journal. */
  lemma FirstMilestoneIsForward(i: Installed, m: Machine, id: nat, candidate: Receipt)
    requires Safe(m) && !Unfinished(m) && m.active.generation != 0 && m.active.generation != MAX_GENERATION
    requires Executable(i, m, candidate) && Evidence(i, m.active.receipt)
    requires m.active.receipt.sequence < candidate.sequence && SourceSelectorMatches(i, m, candidate)
    requires Acceptable(m.channel, i.policies[candidate.build])
    ensures var j := FirstMilestone(id, m.active, candidate);
            && Forward(i, Record(m, j), j)
            && (Truthful(i, m) ==> Truthful(i, Record(m, j)))
  {
  }

  function FirstMilestone(id: nat, active: Active, candidate: Receipt): Journal {
    Opened(id, Operation.Update, active.receipt, candidate).(phase := MetadataVerified, preserveLive := true, forwardOnly := true,
      sourceGeneration := active.generation, sourceSchema := APPLICATION_SCHEMA)
  }

  // ---- the rollback -----------------------------------------------------------------------

  /** The recorded rollback journal `j`, with its source still selected. */
  predicate Undoing(m: Machine, j: Journal) {
    && Safe(m) && m.journal == Some(j) && RollbackJournal(m, j) && j.prior == Some(m.active.receipt)
    && j.schemaVersion == 2 && m.active.generation != 0
  }

  /** Recording a journal never hides who wrote, as long as the newest possible writer only grows. */
  lemma NewestOnlyGrows(i: Installed, m: Machine, b: Machine)
    requires b == m.(journal := b.journal) && Newest(m) <= Newest(b)
    requires b.journal.Some? && !b.journal.value.forwardOnly
    ensures Truthful(i, m) ==> Truthful(i, b)
  {
  }

  lemma UndoingKeeps(i: Installed, m: Machine, j: Journal)
    requires Safe(m) && !Torn(m) && m.active.generation != 0 && j.schemaVersion == 2
    requires RollbackJournal(Record(m, j), j) && j.prior == Some(m.active.receipt)
    requires j.id in m.handed ==> NeverRestores(j)
    ensures Undoing(Record(m, j), j) && OwnJournal(i, Record(m, j))
    ensures Newest(m) <= Newest(Record(m, j)) && Truthful(i, m) ==> Truthful(i, Record(m, j))
  {
  }

  /** A snapshot of the stopped pair of the selected release carries an honest label. */
  lemma OwnSnapshotKeeps(i: Installed, m: Machine, created: nat)
    requires Safe(m) && !Torn(m) && m.running.None? && Newest(m) == m.active.receipt.sequence
    ensures var s := SavePair(m, m.active.receipt, created);
            && Safe(s) && (OwnJournal(i, m) ==> OwnJournal(i, s)) && (Truthful(i, m) ==> Truthful(i, s))
            && forall j :: Undoing(m, j) ==> Undoing(s, j)
  {
    var s := SavePair(m, m.active.receipt, created);
    if Provenance(m) {
      assert Honest(s.pairs[|m.pairs|]);
    }
  }

  lemma SelectingBackKeeps(i: Installed, m: Machine, j: Journal)
    requires Undoing(m, j) && j.phase == CandidateHealthy && !Torn(m)
    ensures var s := Select(m, j.candidate.value, m.active.generation, m.active.selectorBuild);
            && Safe(s) && OwnJournal(i, s) && (Truthful(i, m) ==> Truthful(i, s))
  {
  }

  // ---- consequences -----------------------------------------------------------------------

  /** A fresh home meets the invariant. */
  lemma FreshHome(i: Installed, release: Receipt)
    ensures Inv(i, Machine(None, Active(release, 1, release.build), release.launcher, Database(0, {}), Database(0, {}), [], 0, EMPTY, None, {}, []))
  {
  }

  /** The journal behind a torn pair bars every command, so nothing starts or saves it, ever. */
  lemma TornIsBarred(m: Machine)
    requires Safe(m) && Torn(m)
    ensures Barred(m) && m.running.None?
    ensures forall id, release :: id in m.handed ==> !StartupAuthorized(m, id, release)
  {
  }

  /** A rollback cut off before it saved anything can be recovered, and a rollback cut off anywhere
      else cannot: in particular not one whose recovery was itself cut off after its first write,
      although nothing was restored yet. */
  lemma RecoverableExactlyBeforeTheBackup(i: Installed, m: Machine)
    requires Inv(i, m) && Unfinished(m) && !m.journal.value.forwardOnly
    ensures !Barred(m) <==> (m.journal.value.phase == MetadataVerified || m.journal.value.phase == Quiescing)
  {
  }

  lemma RecoveryCutShortIsNeverRetried(m: Machine, j: Journal)
    requires Undoing(m, j) && j.phase == Quiescing && !Torn(m)
    ensures !Barred(m)
    ensures var cut := Record(m, j.(phase := RollbackRestoring));
            Barred(cut) && !Torn(cut) && cut.app == m.app && cut.temporal == m.temporal
  {
  }

  /** Whoever ran while a transition to `candidate` was unfinished, no pair labelled with an older
      release holds a write of `candidate` or of anything newer. */
  lemma OlderPairsHoldNoCandidateWrites(i: Installed, m: Machine, k: nat, candidate: Receipt)
    requires Inv(i, m) && k < |m.pairs| && m.pairs[k].owner.sequence < candidate.sequence
    ensures candidate !in m.pairs[k].app.writers && candidate !in m.pairs[k].temporal.writers
  {
    assert Honest(m.pairs[k]);
  }
}
