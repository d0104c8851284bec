/** The update, rollback, recovery, backup, start and stop commands over one home, with a crash
    possible before any durable write. */
module Lifecycle {
  import opened Wrappers
  import opened ChannelPolicy
  import opened Transitions

  datatype Outcome = Died | Refused | AlreadyActive | Done

  /** Durable writes of one uninterrupted update, from `Begin` to `Promoted`. */
  const UPDATE_WRITES := 14
  const ROLLBACK_WRITES := 13
  const RECOVERY_WRITES := 6

  ghost predicate Underway(m: Machine, candidate: Option<Receipt>, generation: Generation) {
    && Unfinished(m) && m.journal.value.forwardOnly
    && m.journal.value.candidate == candidate && m.journal.value.sourceGeneration == generation
  }

  ghost predicate Completed(m: Machine, candidate: Option<Receipt>, generation: Generation) {
    && m.journal.Some? && m.journal.value.phase == Promoted && m.journal.value.forwardOnly
    && m.journal.value.candidate == candidate && candidate.Some? && generation != MAX_GENERATION
    && m.active == Active(candidate.value, generation + 1, candidate.value.build)
    && m.selector == candidate.value.launcher
  }

  /** An update to `candidate` from `generation` is in progress or has just been completed. */
  ghost predicate Toward(m: Machine, candidate: Option<Receipt>, generation: Generation) {
    Underway(m, candidate, generation) || Completed(m, candidate, generation)
  }

  /** An update that a machine has under way is still under way or completed, at its own generation. */
  ghost predicate Continued(a: Machine, b: Machine) {
    (Unfinished(a) && a.journal.value.forwardOnly) ==>
      Toward(b, a.journal.value.candidate, a.journal.value.sourceGeneration)
  }

  ghost predicate SamePlan(a: Journal, b: Journal) {
    a.id == b.id && a.prior == b.prior && a.candidate == b.candidate && a.sourceGeneration == b.sourceGeneration
  }

  /** `b` is a later moment of the forward update that `a` has recorded. */
  ghost predicate Kept(i: Installed, a: Machine, b: Machine) {
    && a.journal.Some? && b.journal.Some? && Forward(i, b, b.journal.value)
    && SamePlan(a.journal.value, b.journal.value)
    && (Truthful(i, a) ==> Truthful(i, b))
  }

  /** The state in which every guard of a fresh update passes. */
  predicate Updatable(i: Installed, m: Machine, build: Build) {
    && build in i.receipts && !Unfinished(m) && m.active.generation != 0 && m.active.generation != MAX_GENERATION
    && var candidate := i.receipts[build];
       && Executable(i, m, candidate) && Evidence(i, m.active.receipt)
       && m.active.receipt.sequence < candidate.sequence && SourceSelectorMatches(i, m, candidate)
       && Acceptable(m.channel, i.policies[candidate.build])
  }

  /** How far a forward update has come. */
  function Rank(p: Phase): nat {
    match p
    case MetadataVerified => 1
    case PairBackedUp => 2
    case SelectorHandoffPending => 3
    case SelectorReplaced => 4
    case CandidateStarting => 5
    case CandidateHealthy => 6
    case PolicyFinalized => 7
    case Promoted => 8
    case _ => 0
  }

  predicate Reached(m: Machine, p: Phase) {
    m.journal.Some? && Rank(p) <= Rank(m.journal.value.phase)
  }

  /** No effect of an update precedes the milestone that announces it: the journal is written first. */
  predicate Announced(a: Machine, b: Machine) {
    && (b.selector != a.selector ==> Reached(b, SelectorHandoffPending))
    && (b.app != a.app || b.temporal != a.temporal ==> Reached(b, CandidateStarting))
    && (b.channel != a.channel ==> Reached(b, CandidateHealthy))
    && (b.active != a.active ==> Reached(b, PolicyFinalized))
  }

  /** No retained pair is lost, and the live pair is as it was or a copy of what it was is retained. */
  ghost predicate Spared(a: Machine, b: Machine) {
    && a.pairs <= b.pairs
    && ((b.app == a.app && b.temporal == a.temporal)
        || exists k :: |a.pairs| <= k < |b.pairs| && b.pairs[k].app == a.app && b.pairs[k].temporal == a.temporal)
  }

  /** What every moment of an update keeps: one under way goes on towards its end, a fresh one has
      changed no selection before its first milestone, and every effect is announced and spares the pair. */
  ghost predicate Careful(i: Installed, a: Machine, b: Machine, build: Build) {
    && Continued(a, b) && Announced(a, b) && Spared(a, b)
    && (Unfinished(a) || (!Unfinished(b) && b.active == a.active && b.selector == a.selector)
        || (build in i.receipts && Toward(b, Some(i.receipts[build]), a.active.generation)))
  }

  datatype Verdict = Refuse | Already | CloseIt | Fresh | Continue

  ghost predicate Aimed(i: Installed, m: Machine, build: Build) {
    build in i.receipts && Unfinished(m) && m.journal.value.candidate == Some(i.receipts[build])
  }

  /** The selection of the candidate is written and only `Promoted` is missing. */
  ghost predicate Closable(i: Installed, m: Machine, j: Journal) {
    && TargetForwardJournal(j) && TargetSelected(m, j) && Executable(i, m, j.candidate.value)
    && m.active.generation != 0 && m.selector == j.candidate.value.launcher
  }

  lemma StoppingKeeps(i: Installed, a: Machine, b: Machine)
    requires b == a || b == a.(running := None)
    requires Safe(a)
    ensures Safe(b) && Continued(a, b)
    ensures Truthful(i, a) ==> Truthful(i, b)
    ensures OwnJournal(i, a) ==> OwnJournal(i, b)
    ensures (Unfinished(a) && Forward(i, a, a.journal.value)) ==> Forward(i, b, b.journal.value)
    ensures forall build :: Updatable(i, a, build) ==> Updatable(i, b, build)
  {
  }

  /** The release asked for is the selected one. */
  ghost predicate InPlace(i: Installed, m: Machine, build: Build) {
    && build in i.receipts && !Unfinished(m) && m.active.generation != 0
    && Executable(i, m, i.receipts[build]) && m.active.receipt == i.receipts[build]
  }

  /** Every check of an update passes, for a fresh one or for one that is under way. */
  ghost predicate Admissible(i: Installed, m: Machine, build: Build) {
    || Updatable(i, m, build)
    || (Aimed(i, m, build) && (Forward(i, m, m.journal.value) || Closable(i, m, m.journal.value)))
  }

  /** The journal aims at `build` and this is the forward update to continue. */
  ghost predicate Aims(m: Machine, build: Build) {
    && Unfinished(m) && m.journal.value.forwardOnly
    && m.journal.value.candidate.Some? && m.journal.value.candidate.value.build == build
  }

  /** `b` is `a` with at most `release`'s own writes added. */
  ghost predicate Touched(a: Database, b: Database, release: Receipt) {
    a.restore == b.restore && a.writers <= b.writers <= a.writers + {release}
  }

  /** The live pair is as it was, but for what `release` has written to it since. */
  ghost predicate OnlyTouched(a: Machine, b: Machine, release: Receipt) {
    Touched(a.app, b.app, release) && Touched(a.temporal, b.temporal, release)
  }

  /** An update that ran to its end: the candidate is selected and running with its policy
      committed, and the pair it started from is retained, under the old receipt if it was fresh. */
  ghost predicate Delivered(i: Installed, a: Machine, b: Machine, build: Build) {
    && build in i.receipts && i.receipts[build].build in i.policies
    && var candidate := i.receipts[build];
       && Completed(b, Some(candidate), a.active.generation) && b.running == Some(candidate)
       && b.channel == Merged(a.channel, i.policies[candidate.build]) && OnlyTouched(a, b, candidate)
       && exists owner :: Retains(a.pairs, b.pairs, owner, a.app, a.temporal) && (!Unfinished(a) ==> owner == a.active.receipt)
  }

  /** No pair with this label was created later. */
  ghost predicate Latest(pairs: seq<Pair>, owner: Receipt, k: nat) {
    && k < |pairs| && pairs[k].owner == owner
    && forall l :: 0 <= l < |pairs| && pairs[l].owner == owner ==> pairs[l].created <= pairs[k].created
  }

  /** Everything a rollback to `build` asks for. */
  predicate Rewindable(i: Installed, m: Machine, build: Build) {
    && build in i.receipts && !Unfinished(m) && m.active.generation != 0
    && Executable(i, m, i.receipts[build]) && Executable(i, m, m.active.receipt)
    && exists k :: 0 <= k < |m.pairs| && m.pairs[k].owner == i.receipts[build]
  }

  /** The live pair holds a retained pair's contents, but for what `release` has written to it since. */
  ghost predicate Brought(m: Machine, pair: Pair, release: Receipt) {
    && pair.app.writers <= m.app.writers <= pair.app.writers + {release}
    && pair.temporal.writers <= m.temporal.writers <= pair.temporal.writers + {release}
  }

  /** What a completed rollback did: the live pair is the newest one retained for the target plus
      the target's own writes, and the pair it displaced is retained under the old receipt. */
  ghost predicate Rewound(a: Machine, b: Machine, target: Receipt) {
    && b.journal.Some? && b.journal.value.phase == Promoted && !Torn(b) && b.running == Some(target)
    && b.active == Select(a, target, a.active.generation, a.active.selectorBuild).active && b.selector == a.selector
    && Retains(a.pairs, b.pairs, a.active.receipt, a.app, a.temporal)
    && exists k: nat ::
         && Latest(a.pairs, target, k)
         && Brought(b, a.pairs[k], target)
  }

  /** What can happen to a home; a command dies at the durable write after its budget. */
  datatype Command =
    | UpdateTo(build: Build, budget: nat) | ResumeUpdate(budget: nat) | RollBackTo(build: Build, budget: nat)
    | TakeBackup(elsewhere: bool, budget: nat) | StartNormally(budget: nat) | StopAll(budget: nat)
    | PowerLoss(budget: nat) | Work(budget: nat) | StartByEnvironment(release: Receipt, budget: nat)

  /** Nothing durable changed except what running releases wrote. */
  ghost predicate Untouched(a: Machine, b: Machine) {
    && b == a.(app := b.app, temporal := b.temporal, running := b.running, events := b.events)
    && b.app.restore == a.app.restore && b.temporal.restore == a.temporal.restore
    && (Torn(a) ==> b.running.None? && b.events == a.events)
  }

  datatype Judgement = Leave | Fail | Undo

  /** The transition that `a` left unfinished is closed and its predecessor selected and running. */
  ghost predicate Reverted(a: Machine, b: Machine) {
    && a.journal.Some? && a.journal.value.prior.Some?
    && b.journal == Some(a.journal.value.(phase := RolledBack, schemaVersion := 2)) && !Torn(b)
    && b.running == a.journal.value.prior && b.active.receipt == a.journal.value.prior.value && b.selector == a.selector
  }

  predicate SelectorIs(i: Installed, m: Machine, build: Build) {
    build in i.receipts && Executable(i, m, i.receipts[build]) && m.selector == i.receipts[build].launcher
  }

  predicate SelectorKnown(i: Installed, m: Machine, j: Journal) {
    || SelectorIs(i, m, m.active.selectorBuild)
    || (j.prior.Some? && SelectorIs(i, m, j.prior.value.build))
    || (j.candidate.Some? && SelectorIs(i, m, j.candidate.value.build))
  }

  /** What recovery checks before it stops anything. */
  predicate Undoable(i: Installed, m: Machine, j: Journal) {
    && !j.preserveLive && j.prior.Some? && Executable(i, m, j.prior.value)
    && (j.candidate.Some? ==> Evidence(i, j.candidate.value))
    && (j.backup.Some? ==> j.backup.value < |m.pairs| && m.pairs[j.backup.value].owner == j.prior.value)
    && !RefusesUncertainRollback(j)
  }

  /** A transition whose predecessor is no longer permitted is closed as failed. */
  predicate MayClose(i: Installed, m: Machine, j: Journal) {
    && !j.preserveLive && j.prior.Some? && Evidence(i, j.prior.value) && !Permit(m.channel, j.prior.value)
    && !RefusesUncertainRollback(j)
  }

  function Closed(m: Machine): Machine {
    if m.journal.Some? then Record(m, m.journal.value.(phase := Failed, schemaVersion := 2)) else m
  }

  /** Everything recovery asks of a journal and of its surroundings. */
  predicate Recoverable(i: Installed, m: Machine, j: Journal) {
    Undoable(i, m, j) && SelectorKnown(i, m, j)
  }

  predicate Restoring(k: Journal) {
    k.phase == RollbackRestoring && !k.forwardOnly && !k.preserveLive
  }

  /** The journal fences a paired restore under it. */
  predicate Fences(m: Machine, k: Journal) {
    && m.journal == Some(k) && k.phase == RollbackRestoring && !k.forwardOnly && k.id !in m.handed
    && (k.preserveLive || k.backup.Some?)
  }

  /** Half or all of a pair labelled with the rollback's target keeps the labels honest. */
  lemma RestoringKeepsTruth(i: Installed, m: Machine, b: Machine, k: Journal, pair: Pair)
    requires Undoing(m, k) && k.preserveLive && k.phase == RollbackRestoring && Truthful(i, m)
    requires Honest(pair) && pair.owner == k.candidate.value
    requires b == RestoreApp(m, pair) || b == RestoreTemporal(m, pair)
    ensures Truthful(i, b)
  {
  }

  lemma RestartKeeps(i: Installed, a: Machine, b: Machine, j: Journal, release: Receipt)
    requires Undoing(a, j) && !Torn(a) && release.sequence <= Newest(a) && Drifted(StartUnder(a, j.id, release), b)
    requires j.phase == CandidateStarting || j.phase == RollbackRestoring
    ensures Undoing(b, j) && !Torn(b) && OwnJournal(i, b)
    ensures Truthful(i, a) ==> Truthful(i, b)
    ensures Touched(a.app, b.app, release) && Touched(a.temporal, b.temporal, release)
  {
    DriftKeeps(i, StartUnder(a, j.id, release), b);
  }

  /** Once the pair is in place, the target's milestone keeps everything. */
  lemma TargetMayStart(i: Installed, m: Machine, k: Journal, pair: Pair)
    requires Undoing(m, k) && k.phase == RollbackRestoring && k.preserveLive && !Torn(m)
    requires m.app.writers == pair.app.writers && m.temporal.writers == pair.temporal.writers && m.running.None?
    ensures var t := Record(m, k.(phase := CandidateStarting));
            && Undoing(t, k.(phase := CandidateStarting)) && OwnJournal(i, t)
            && (Truthful(i, m) && Honest(pair) && k.candidate == Some(pair.owner) ==> Truthful(i, t))
  {
  }

  /** A start under the journal's authority by someone who was given its id. */
  lemma AuthorizedStartKeeps(i: Installed, m: Machine, release: Receipt)
    requires Safe(m) && Unfinished(m) && m.journal.value.id in m.handed && StartupAuthorized(m, m.journal.value.id, release)
    ensures !Torn(m) && Safe(Start(m, release)) && Continued(m, Start(m, release))
    ensures Inv(i, m) ==> Inv(i, Start(m, release))
  {
  }

  /** Somebody holds the id of the unfinished journal, and its milestone authorizes the release. */
  predicate MayStart(i: Installed, m: Machine, release: Receipt) {
    && Unfinished(m) && m.journal.value.id in m.handed
    && StartupAuthorized(m, m.journal.value.id, release) && Executable(i, m, release)
  }

  /** With evidence and permission for everything it names and a selector it knows, an unfinished
      rollback of this controller is recoverable exactly before it saves the live pair. */
  lemma OwnRollbackIsRecoverableExactlyEarly(i: Installed, m: Machine, j: Journal)
    requires Inv(i, m) && m.journal == Some(j) && Unfinished(m) && !j.forwardOnly
    requires Executable(i, m, j.prior.value) && Evidence(i, j.candidate.value) && SelectorKnown(i, m, j)
    ensures Recoverable(i, m, j) <==> (j.phase == MetadataVerified || j.phase == Quiescing)
  {
  }

  lemma LaunchKeepsForward(i: Installed, a: Machine, b: Machine, j: Journal)
    requires Forward(i, a, j) && j.backup.Some? && Drifted(StartUnder(a, j.id, j.candidate.value), b)
    ensures Forward(i, b, j)
    ensures Truthful(i, a) ==> Truthful(i, b)
  {
    StartKeepsForward(i, a, j);
    DriftKeeps(i, StartUnder(a, j.id, j.candidate.value), b);
  }

  class Home {
    const installed: Installed
    var m: Machine
    /** How many more durable writes the controller lives for. */
    var budget: nat

    constructor (installed: Installed, m: Machine)
      ensures this.installed == installed && this.m == m
    {
      this.installed, this.m, this.budget := installed, m, 0;
    }

    method Write(next: Machine) returns (alive: bool)
      modifies this
      ensures alive == (old(budget) > 0)
      ensures alive ==> m == next && budget == old(budget) - 1
      ensures !alive ==> m == old(m) && budget == 0
    {
      alive := budget > 0;
      if alive {
        m, budget := next, budget - 1;
      }
    }

    method Advance(j: Journal, phase: Phase) returns (alive: bool, k: Journal)
      modifies this
      ensures alive == (old(budget) > 0) && k == j.(phase := phase, schemaVersion := 2)
      ensures alive ==> m == Record(old(m), k) && budget == old(budget) - 1
      ensures !alive ==> m == old(m) && budget == 0
    {
      k := j.(phase := phase, schemaVersion := 2);
      alive := Write(Record(m, k));
    }

    /** A check outside this model may refuse, unless everything obliges. */
    method Obstacle(obliging: bool) returns (refused: bool)
      ensures obliging ==> !refused
    {
      refused := false;
      if !obliging {
        refused := *;
      }
    }

    /** The wall clock, which may show anything. */
    method Clock() returns (now: nat)
    {
      var t: int := *;
      now := if t < 0 then 0 else t;
    }

    /** A random id, taken to be one that nobody holds. */
    method RandomId() returns (id: nat)
      ensures id !in m.handed
    {
      SomeIdIsUnused(m.handed);
      id :| id !in m.handed;
    }

    /** The running release writes for a while. */
    method Elapse()
      modifies this`m
      ensures Drifted(old(m), m)
    {
      if m.running.Some? {
        var app, temporal := *, *;
        if app {
          m := m.(app := m.app.(writers := m.app.writers + {m.running.value}));
        }
        if temporal {
          m := m.(temporal := m.temporal.(writers := m.temporal.writers + {m.running.value}));
        }
      }
    }

    /** A refused stop may still have stopped the release. */
    method Quiesce(obliging: bool) returns (stopped: bool)
      modifies this`m
      ensures m == old(m) || m == old(m).(running := None)
      ensures stopped ==> m.running.None?
      ensures obliging ==> stopped
    {
      stopped := true;
      var refused := Obstacle(obliging);
      if refused {
        stopped := false;
        var kept := *;
        if kept { return; }
      }
      m := m.(running := None);
    }

    /** A release started under the journal's authority; a failed start may have run and written. */
    method Launch(id: nat, release: Receipt, obliging: bool) returns (outcome: Outcome)
      modifies this
      ensures outcome == Refused || outcome == Died || outcome == Done
      ensures m == old(m) || (old(Executable(installed, m, release) && StartupAuthorized(m, id, release))
                              && Drifted(StartUnder(old(m), id, release), m))
      ensures outcome == Done ==> m.running == Some(release) && budget == old(budget) - 1 >= 0
      ensures (obliging && old(budget) > 0 && old(Executable(installed, m, release) && StartupAuthorized(m, id, release))) ==>
                outcome == Done
    {
      var refused := Obstacle(obliging);
      if refused || !Executable(installed, m, release) || !StartupAuthorized(m, id, release) {
        return Refused;
      }
      var alive := Write(StartUnder(m, id, release));
      if !alive { return Died; }
      Elapse();
      refused := Obstacle(obliging);
      outcome := if refused then Refused else Done;
    }

    // ---- update --------------------------------------------------------------------------------

    /** Snapshot the stopped pair and record it. */
    method BackUp(j: Journal, obliging: bool) returns (outcome: Outcome, k: Journal)
      requires Forward(installed, m, j) && m.running.None?
      modifies this
      ensures Kept(installed, old(m), m)
      ensures m == old(m).(journal := m.journal, pairs := m.pairs, events := m.events) && old(m.pairs) <= m.pairs
      ensures outcome == Refused || outcome == Died || outcome == Done
      ensures outcome == Done ==> m.journal == Some(k) && k.phase == PairBackedUp && k.backup.Some? && budget == old(budget) - 2 >= 0
      ensures outcome == Done ==>
                && Retains(old(m.pairs), m.pairs, SnapshotOwner(old(m), j), old(m.app), old(m.temporal))
                && (j.backup.Some? ==> k.backup == j.backup) && (j.backup.None? ==> k.backup == Some(old(|m.pairs|)))
      ensures (obliging && old(budget) >= 2) ==> outcome == Done
    {
      k := j;
      var created := Clock();
      ForwardSnapshotIsHonest(installed, m, j, created);
      var refused := Obstacle(obliging);
      if refused { return Refused, k; }
      var id := |m.pairs|;
      var alive := Write(SavePair(m, SnapshotOwner(m, j), created));
      if !alive { return Died, k; }
      k := if j.backup.None? then j.(backup := Some(id)) else j.(recovery := Some(id));
      BackupKeepsForward(installed, m, j, k.(phase := PairBackedUp));
      alive, k := Advance(k, PairBackedUp);
      outcome := if alive then Done else Died;
    }

    /** Record one more milestone of a forward update. */
    method Milestone(j: Journal, phase: Phase) returns (alive: bool, k: Journal)
      requires Forward(installed, m, j) && j.backup.Some? && Transitions.Milestone(phase)
      requires phase == PolicyFinalized ==> PolicyCommitted(installed, m, j.candidate.value)
      modifies this
      ensures Kept(installed, old(m), m)
      ensures k == j.(phase := phase)
      ensures alive == (old(budget) > 0) && budget == (if alive then old(budget) - 1 else 0)
      ensures m == if alive then Record(old(m), k) else old(m)
    {
      MilestoneKeepsForward(installed, m, j, phase);
      alive, k := Advance(j, phase);
    }

    /** Replace the public selector between its two milestones. */
    method HandOff(j: Journal, obliging: bool) returns (outcome: Outcome, k: Journal)
      requires Forward(installed, m, j) && j.backup.Some?
      modifies this
      ensures Kept(installed, old(m), m)
      ensures outcome == Refused || outcome == Died || outcome == Done
      ensures outcome == Done ==> m.journal == Some(k) && k.phase == CandidateStarting && k.backup.Some?
      ensures outcome == Done ==> m.selector == j.candidate.value.launcher && budget == old(budget) - 4 >= 0
      ensures m == old(m).(journal := m.journal, selector := m.selector)
      ensures m.selector != old(m.selector) ==> Reached(m, SelectorHandoffPending)
      ensures (obliging && old(budget) >= 4) ==> outcome == Done
    {
      var alive;
      alive, k := Milestone(j, SelectorHandoffPending);
      if !alive { return Died, k; }
      var refused := Obstacle(obliging);
      if refused { return Refused, k; }
      HandoffKeepsForward(installed, m, k);
      alive := Write(m.(selector := k.candidate.value.launcher));
      if !alive { return Died, k; }
      alive, k := Milestone(k, SelectorReplaced);
      if !alive { return Died, k; }
      alive, k := Milestone(k, CandidateStarting);
      outcome := if alive then Done else Died;
    }

    /** The candidate is up: commit its policy between two milestones. */
    method Finalize(j: Journal, channel: State) returns (outcome: Outcome, k: Journal)
      requires Forward(installed, m, j) && j.phase == CandidateStarting && j.backup.Some?
      requires m.selector == j.candidate.value.launcher
      requires channel == Merged(m.channel, installed.policies[j.candidate.value.build])
      modifies this
      ensures outcome == Died || outcome == Done
      ensures Kept(installed, old(m), m) && m.active == old(m.active)
      ensures m == old(m).(journal := m.journal, channel := m.channel)
      ensures Reached(m, CandidateStarting) && (m.channel != old(m.channel) ==> Reached(m, CandidateHealthy))
      ensures outcome == Done ==>
                && m.journal == Some(k) && k == j.(phase := PolicyFinalized) && m.channel == channel
                && budget == old(budget) - 3
      ensures old(budget) >= 3 ==> outcome == Done
    {
      var alive;
      alive, k := Milestone(j, CandidateHealthy);
      if !alive { return Died, k; }
      CommitKeepsForward(installed, m, k);
      alive := Write(m.(channel := channel));
      if !alive { return Died, k; }
      alive, k := Milestone(k, PolicyFinalized);
      outcome := if alive then Done else Died;
    }

    /** The candidate is up: commit its policy, select it, and close the journal. */
    method Conclude(j: Journal, channel: State) returns (outcome: Outcome)
      requires Forward(installed, m, j) && j.phase == CandidateStarting && j.backup.Some?
      requires m.selector == j.candidate.value.launcher
      requires channel == Merged(m.channel, installed.policies[j.candidate.value.build])
      modifies this
      ensures outcome == Died || outcome == Done
      ensures Safe(m) && OwnJournal(installed, m) && (old(Truthful(installed, m)) ==> Truthful(installed, m))
      ensures Toward(m, j.candidate, j.sourceGeneration)
      ensures outcome == Done ==> Completed(m, j.candidate, j.sourceGeneration) && m.channel == channel && budget == old(budget) - 5
      ensures m == old(m).(journal := m.journal, channel := m.channel, active := m.active)
      ensures Reached(m, CandidateStarting) && (m.channel != old(m.channel) ==> Reached(m, CandidateHealthy))
      ensures m.active != old(m.active) ==> Reached(m, PolicyFinalized)
      ensures old(budget) >= 5 ==> outcome == Done
    {
      var k;
      outcome, k := Finalize(j, channel);
      if outcome != Done { return; }
      SelectKeeps(installed, m, k);
      var alive := Write(Select(m, j.candidate.value, m.active.generation, j.candidate.value.build));
      if !alive { return Died; }
      PromoteKeeps(installed, m, k);
      alive, k := Advance(k, Promoted);
      outcome := if alive then Done else Died;
    }

    /** Start the candidate, commit its policy, select it, and close the journal. */
    method Finish(j: Journal, channel: State, obliging: bool) returns (outcome: Outcome)
      requires Forward(installed, m, j) && j.phase == CandidateStarting && j.backup.Some?
      requires m.selector == j.candidate.value.launcher
      requires channel == Merged(m.channel, installed.policies[j.candidate.value.build])
      modifies this
      ensures Safe(m) && OwnJournal(installed, m) && (old(Truthful(installed, m)) ==> Truthful(installed, m))
      ensures Toward(m, j.candidate, j.sourceGeneration)
      ensures outcome == Refused || outcome == Died || outcome == Done
      ensures outcome == Done ==>
                && Completed(m, j.candidate, j.sourceGeneration) && m.channel == channel && m.running == j.candidate
                && budget == old(budget) - 6
      ensures m.pairs == old(m.pairs) && m.selector == old(m.selector) && OnlyTouched(old(m), m, j.candidate.value)
      ensures Reached(m, CandidateStarting) && (m.channel != old(m.channel) ==> Reached(m, CandidateHealthy))
      ensures m.active != old(m.active) ==> Reached(m, PolicyFinalized)
      ensures (obliging && old(budget) >= 6) ==> outcome == Done
    {
      var candidate := j.candidate.value;
      ghost var before := m;
      ForwardIsWhole(installed, m, j);
      StartKeepsForward(installed, m, j);
      outcome := Launch(j.id, candidate, obliging);
      if m != before {
        LaunchKeepsForward(installed, before, m, j);
      }
      if outcome != Done { return; }
      outcome := Conclude(j, channel);
    }

    /** From any milestone of an update whose source is still selected, back up and go on to the end. */
    method Carry(j: Journal, channel: State, obliging: bool) returns (outcome: Outcome)
      requires Forward(installed, m, j) && m.running.None?
      requires channel == Merged(m.channel, installed.policies[j.candidate.value.build])
      modifies this
      ensures outcome == Refused || outcome == Died || outcome == Done
      ensures Safe(m) && OwnJournal(installed, m) && (old(Truthful(installed, m)) ==> Truthful(installed, m))
      ensures Toward(m, j.candidate, j.sourceGeneration)
      ensures Announced(old(m), m) && Spared(old(m), m) && OnlyTouched(old(m), m, j.candidate.value)
      ensures outcome == Done ==>
                && Completed(m, j.candidate, j.sourceGeneration) && m.channel == channel && m.running == j.candidate
                && Retains(old(m.pairs), m.pairs, SnapshotOwner(old(m), j), old(m.app), old(m.temporal))
                && budget == old(budget) - 12
      ensures (obliging && old(budget) >= 12) ==> outcome == Done
    {
      var k;
      outcome, k := BackUp(j, obliging);
      ForwardIsWhole(installed, m, m.journal.value);
      if outcome != Done { return; }
      outcome, k := HandOff(k, obliging);
      ForwardIsWhole(installed, m, m.journal.value);
      if outcome != Done { return; }
      outcome := Finish(k, channel, obliging);
    }

    /** `Begin`, then the first milestone with the forward flags. */
    method Open(candidate: Receipt) returns (outcome: Outcome)
      requires Safe(m) && !Unfinished(m) && m.active.generation != 0 && m.active.generation != MAX_GENERATION
      requires Executable(installed, m, candidate) && Evidence(installed, m.active.receipt)
      requires m.active.receipt.sequence < candidate.sequence && SourceSelectorMatches(installed, m, candidate)
      requires Acceptable(m.channel, installed.policies[candidate.build])
      modifies this
      ensures Safe(m) && OwnJournal(installed, m) && (old(Truthful(installed, m)) ==> Truthful(installed, m))
      ensures m == old(m).(journal := m.journal)
      ensures outcome == Done || (outcome == Died && !Unfinished(m))
      ensures outcome == Done ==>
                && m.journal.Some? && Forward(installed, m, m.journal.value)
                && m.journal.value.phase == MetadataVerified && m.journal.value.candidate == Some(candidate)
                && m.journal.value.sourceGeneration == m.active.generation
                && budget == old(budget) - 2
      ensures old(budget) >= 2 ==> outcome == Done
    {
      var id := RandomId();
      var j := Opened(id, Operation.Update, m.active.receipt, candidate);
      OpeningKeeps(installed, m, j);
      FirstMilestoneIsForward(installed, Record(m, j), id, candidate);
      var alive := Write(Record(m, j));
      if !alive { return Died; }
      alive := Write(Record(m, FirstMilestone(id, m.active, candidate)));
      outcome := if alive then Done else Died;
    }

    /** Open the journal of a fresh update and carry it through. */
    method OpenAndCarry(build: Build, obliging: bool) returns (outcome: Outcome)
      requires Safe(m) && Updatable(installed, m, build) && m.running.None?
      modifies this
      ensures outcome == Refused || outcome == Died || outcome == Done
      ensures Safe(m) && OwnJournal(installed, m) && (old(Truthful(installed, m)) ==> Truthful(installed, m))
      ensures (!Unfinished(m) && m.active == old(m.active) && m.selector == old(m.selector))
              || Toward(m, Some(installed.receipts[build]), old(m.active.generation))
      ensures Announced(old(m), m) && Spared(old(m), m)
      ensures outcome == Done ==> Delivered(installed, old(m), m, build) && budget == old(budget) - UPDATE_WRITES
      ensures (obliging && old(budget) >= UPDATE_WRITES) ==> outcome == Done
    {
      outcome := Open(installed.receipts[build]);
      if outcome != Done { return; }
      assert m.active.receipt == SnapshotOwner(m, m.journal.value);
      var j := m.journal.value;
      outcome := Carry(j, Merged(m.channel, installed.policies[j.candidate.value.build]), obliging);
    }

    /** The journal is there: carry it through. */
    method CarryOn(build: Build, obliging: bool) returns (outcome: Outcome)
      requires Safe(m) && Aimed(installed, m, build) && Forward(installed, m, m.journal.value) && m.running.None?
      modifies this
      ensures outcome == Refused || outcome == Died || outcome == Done
      ensures Safe(m) && OwnJournal(installed, m) && (old(Truthful(installed, m)) ==> Truthful(installed, m))
      ensures Continued(old(m), m)
      ensures Announced(old(m), m) && Spared(old(m), m)
      ensures outcome == Done ==> Delivered(installed, old(m), m, build)
      ensures (obliging && old(budget) >= UPDATE_WRITES) ==> outcome == Done
    {
      var j := m.journal.value;
      outcome := Carry(j, Merged(m.channel, installed.policies[j.candidate.value.build]), obliging);
    }

    /** Past every check: stop the workspace, open the journal if there is none, and carry it through. */
    method StopAndCarry(build: Build, obliging: bool) returns (outcome: Outcome)
      requires Safe(m)
      requires Updatable(installed, m, build) || (Aimed(installed, m, build) && Forward(installed, m, m.journal.value))
      modifies this
      ensures outcome == Refused || outcome == Died || outcome == Done
      ensures Safe(m) && OwnJournal(installed, m) && (old(Truthful(installed, m)) ==> Truthful(installed, m))
      ensures Careful(installed, old(m), m, build)
      ensures outcome == Done ==> Delivered(installed, old(m), m, build)
      ensures (obliging && old(budget) >= UPDATE_WRITES) ==> outcome == Done
    {
      ghost var before := m;
      var stopped := Quiesce(obliging);
      StoppingKeeps(installed, before, m);
      if !stopped { return Refused; }
      var refused := Obstacle(obliging);
      if refused { return Refused; }
      if Unfinished(m) {
        outcome := CarryOn(build, obliging);
      } else {
        outcome := OpenAndCarry(build, obliging);
      }
    }

    /** The selection was already written: only the last milestone is missing. */
    method Close(j: Journal) returns (outcome: Outcome)
      requires Safe(m) && m.journal == Some(j) && Closable(installed, m, j)
      modifies this
      ensures outcome == Refused || outcome == Died || outcome == Done
      ensures Safe(m) && (old(Inv(installed, m)) ==> Inv(installed, m))
      ensures outcome == Done ==> Completed(m, j.candidate, j.sourceGeneration)
      ensures forall build :: Careful(installed, old(m), m, build)
      ensures old(budget) > 0 ==> outcome == Done
    {
      var alive, k := Advance(j, Promoted);
      outcome := if alive then Done else Died;
    }

    /** Everything that is checked before the update changes anything. */
    method Admit(build: Build) returns (verdict: Verdict)
      requires Safe(m)
      ensures verdict == Fresh <==> Updatable(installed, m, build)
      ensures verdict == Continue <==> Aimed(installed, m, build) && Forward(installed, m, m.journal.value)
      ensures verdict == CloseIt <==> Aimed(installed, m, build) && Closable(installed, m, m.journal.value)
      ensures verdict == Already <==> InPlace(installed, m, build)
    {
      if build !in installed.receipts { return Refuse; }
      var candidate := installed.receipts[build];
      if !Executable(installed, m, candidate) || m.active.generation == 0 { return Refuse; }
      var resuming := Unfinished(m);
      if resuming {
        var j := m.journal.value;
        if !TargetForwardJournal(j) || j.candidate.value != candidate { return Refuse; }
        if TargetSelected(m, j) {
          return if m.selector == candidate.launcher then CloseIt else Refuse;
        }
        if !SourceSelected(m, j) { return Refuse; }
      } else if m.active.receipt == candidate {
        return Already;
      }
      if !Evidence(installed, m.active.receipt) || candidate.sequence <= m.active.receipt.sequence
         || m.active.generation == MAX_GENERATION
      {
        return Refuse;
      }
      if !SourceSelectorMatches(installed, m, candidate) && (!resuming || m.selector != candidate.launcher) {
        return Refuse;
      }
      var channel := ValidateMetadata(m.channel, installed.policies[candidate.build]);
      if channel.Err? { return Refuse; }
      verdict := if resuming then Continue else Fresh;
    }

    /** Under both locks: check everything, then run or continue the forward update to `build`. */
    method Update(build: Build, obliging: bool) returns (outcome: Outcome)
      requires Safe(m)
      modifies this
      ensures Safe(m) && (old(Inv(installed, m)) ==> Inv(installed, m))
      ensures Careful(installed, old(m), m, build)
      ensures old(Barred(m)) ==> m == old(m)
      ensures old(!Admissible(installed, m, build)) ==> m == old(m) && (outcome == Refused || outcome == AlreadyActive)
      ensures outcome == AlreadyActive ==> old(InPlace(installed, m, build))
      ensures (obliging && old(InPlace(installed, m, build))) ==> outcome == AlreadyActive
      ensures outcome == Done && old(!Unfinished(m)) ==>
                build in installed.receipts && Delivered(installed, old(m), m, build)
      ensures (old(Updatable(installed, m, build)) && obliging && old(budget) >= UPDATE_WRITES) ==>
                outcome == Done && Completed(m, Some(installed.receipts[build]), old(m.active.generation))
      ensures (old(Inv(installed, m) && Aims(m, build)) && obliging && old(budget) >= UPDATE_WRITES) ==>
                outcome == Done && Completed(m, old(m).journal.value.candidate, old(m).journal.value.sourceGeneration)
    {
      var refused := Obstacle(obliging);
      if refused { return Refused; }
      var verdict := Admit(build);
      if verdict == Refuse { return Refused; }
      if verdict == Already { return AlreadyActive; }
      if verdict == CloseIt {
        outcome := Close(m.journal.value);
      } else {
        outcome := StopAndCarry(build, obliging);
      }
    }

    /** `jobctrl update` without a build: continue whatever forward update is unfinished. */
    method Resume(obliging: bool) returns (outcome: Outcome)
      requires Safe(m)
      modifies this
      ensures Safe(m) && (old(Inv(installed, m)) ==> Inv(installed, m))
      ensures Continued(old(m), m)
      ensures old(Barred(m)) || old(!Unfinished(m)) ==> m == old(m)
      ensures Announced(old(m), m) && Spared(old(m), m)
      ensures old(!(Unfinished(m) && TargetForwardJournal(m.journal.value) && Executable(installed, m, m.journal.value.candidate.value))) ==>
                m == old(m) && outcome == Refused
      ensures (old(Inv(installed, m) && Unfinished(m) && m.journal.value.forwardOnly) && obliging
               && old(budget) >= UPDATE_WRITES) ==>
                outcome == Done && Completed(m, old(m).journal.value.candidate, old(m).journal.value.sourceGeneration)
    {
      if !Unfinished(m) || !m.journal.value.forwardOnly || !TargetForwardJournal(m.journal.value)
         || !Executable(installed, m, m.journal.value.candidate.value)
      {
        return Refused;
      }
      outcome := Update(m.journal.value.candidate.value.build, obliging);
    }

    /** `jobctrl stop`.  During a forward update it authenticates the selection, not the permission. */
    method Stop(obliging: bool) returns (outcome: Outcome)
      requires Safe(m)
      modifies this`m
      ensures m == old(m) || m == old(m).(running := None)
      ensures outcome == Done ==> m.running.None?
      ensures old(Unfinished(m) && !StopAdmits(installed, m, m.journal.value)) ==> m == old(m) && outcome == Refused
      ensures (old(Inv(installed, m)) && obliging && (old(Unfinished(m)) ==> m.journal.value.forwardOnly)) ==> outcome == Done
    {
      if Unfinished(m) && !(m.journal.value.forwardOnly && StopAdmits(installed, m, m.journal.value)) {
        return Refused;
      }
      var refused := Obstacle(obliging);
      if refused { return Refused; }
      var stopped := Quiesce(obliging);
      outcome := if stopped then Done else Refused;
    }

    // ---- rollback ------------------------------------------------------------------------------

    /** The newest retained pair labelled with `owner`. */
    method LatestPair(owner: Receipt) returns (found: Option<nat>)
      ensures found.Some? ==> Latest(m.pairs, owner, found.value)
      ensures found.None? ==> forall k :: 0 <= k < |m.pairs| ==> m.pairs[k].owner != owner
    {
      found := None;
      for k := 0 to |m.pairs|
        invariant found.None? ==> forall l :: 0 <= l < k ==> m.pairs[l].owner != owner
        invariant found.Some? ==> found.value < k && Latest(m.pairs[..k], owner, found.value)
      {
        if m.pairs[k].owner == owner && (found.None? || m.pairs[k].created > m.pairs[found.value].created) {
          found := Some(k);
        }
      }
      assert m.pairs[..|m.pairs|] == m.pairs;
    }

    /** Nothing was changed: the journal is closed as failed. */
    method GiveUp(j: Journal) returns (outcome: Outcome)
      requires Undoing(m, j) && !Torn(m) && j.phase == Quiescing
      modifies this
      ensures Safe(m) && OwnJournal(installed, m) && (old(Truthful(installed, m)) ==> Truthful(installed, m))
      ensures outcome == Refused || outcome == Died
      ensures m == old(m) || m == Record(old(m), j.(phase := Failed))
    {
      NewestOnlyGrows(installed, m, Record(m, j.(phase := Failed)));
      var alive, failed := Advance(j, Failed);
      outcome := if alive then Refused else Died;
    }

    /** Copy the stopped pair and record it; from here on the live pair is never replaced by recovery. */
    method SaveStopped(j: Journal) returns (outcome: Outcome, k: Journal)
      requires Undoing(m, j) && j.phase == Quiescing && !Torn(m) && j.id !in m.handed && m.running.None?
      modifies this
      ensures Safe(m) && OwnJournal(installed, m) && (old(Truthful(installed, m)) ==> Truthful(installed, m))
      ensures m == old(m).(journal := m.journal, pairs := m.pairs, events := m.events) && old(m.pairs) <= m.pairs
      ensures outcome == Died || outcome == Done
      ensures outcome == Done ==>
                && Undoing(m, k) && k.phase == PairBackedUp && k.candidate == j.candidate && k.id == j.id
                && m.journal == Some(k) && Retains(old(m.pairs), m.pairs, m.active.receipt, m.app, m.temporal)
                && budget == old(budget) - 2
      ensures old(budget) >= 2 ==> outcome == Done
    {
      k := j;
      var backup := |m.pairs|;
      var created := Clock();
      OwnSnapshotKeeps(installed, m, created);
      var alive := Write(SavePair(m, m.active.receipt, created));
      if !alive { return Died, k; }
      k := j.(backup := Some(backup), preserveLive := true);
      UndoingKeeps(installed, m, k.(phase := PairBackedUp));
      alive, k := Advance(k, PairBackedUp);
      outcome := if alive then Done else Died;
    }

    /** Stop the workspace and save the live pair; a refusal here closes the journal as failed. */
    method Save(j: Journal, obliging: bool) returns (outcome: Outcome, k: Journal)
      requires Undoing(m, j) && j.phase == Quiescing && !Torn(m) && j.id !in m.handed
      modifies this
      ensures m == old(m).(journal := m.journal, running := m.running, pairs := m.pairs, events := m.events)
      ensures old(m.pairs) <= m.pairs
      ensures Safe(m) && OwnJournal(installed, m) && (old(Truthful(installed, m)) ==> Truthful(installed, m))
      ensures outcome == Refused || outcome == Died || outcome == Done
      ensures outcome == Done ==>
                && Undoing(m, k) && k.phase == PairBackedUp && k.candidate == j.candidate && k.id == j.id
                && m.journal == Some(k) && m.running.None? && Retains(old(m.pairs), m.pairs, m.active.receipt, m.app, m.temporal)
                && budget == old(budget) - 2
      ensures (obliging && old(budget) >= 2) ==> outcome == Done
    {
      k := j;
      ghost var before := m;
      var stopped := Quiesce(obliging);
      StoppingKeeps(installed, before, m);
      var refused := Obstacle(obliging);
      if refused { return Refused, k; }
      var unresolved := Obstacle(obliging);
      if !stopped || unresolved {
        outcome := GiveUp(j);
        return;
      }
      outcome, k := SaveStopped(j);
    }

    /** Journal the rollback, stop the workspace and save the live pair under the active receipt. */
    method Prepare(target: Receipt, targetPair: nat, obliging: bool) returns (outcome: Outcome, j: Journal)
      requires Safe(m) && !Unfinished(m) && m.active.generation != 0
      modifies this
      ensures Safe(m) && OwnJournal(installed, m) && (old(Truthful(installed, m)) ==> Truthful(installed, m))
      ensures outcome == Refused || outcome == Died || outcome == Done
      ensures m == old(m).(journal := m.journal, running := m.running, pairs := m.pairs, events := m.events)
      ensures old(m.pairs) <= m.pairs
      ensures outcome == Done ==>
                && Undoing(m, j) && j.phase == PairBackedUp && j.candidate == Some(target) && j.id !in m.handed
                && m.journal == Some(j) && m.running.None? && Retains(old(m.pairs), m.pairs, m.active.receipt, m.app, m.temporal)
                && budget == old(budget) - 5
      ensures (obliging && old(budget) >= 5) ==> outcome == Done
    {
      var id := RandomId();
      j := Opened(id, Operation.Rollback, m.active.receipt, target);
      OpeningKeeps(installed, m, j);
      var alive := Write(Record(m, j));
      if !alive { return Died, j; }
      j := j.(target := Some(targetPair));
      UndoingKeeps(installed, m, j.(phase := MetadataVerified));
      alive, j := Advance(j, MetadataVerified);
      if !alive { return Died, j; }
      UndoingKeeps(installed, m, j.(phase := Quiescing));
      alive, j := Advance(j, Quiescing);
      if !alive { return Died, j; }
      outcome, j := Save(j, obliging);
    }

    /** The paired restore: two renames behind a journal that fences whatever lies between them. */
    method RestorePair(k: Journal, pair: Pair, obliging: bool) returns (outcome: Outcome)
      requires Safe(m) && Fences(m, k) && !Torn(m) && m.running.None?
      modifies this
      ensures Safe(m) && m == old(m).(app := m.app, temporal := m.temporal, restores := m.restores)
      ensures outcome == Refused || outcome == Died || outcome == Done
      ensures outcome == Done ==> !Torn(m) && m.app.writers == pair.app.writers && m.temporal.writers == pair.temporal.writers
      ensures outcome == Done ==> budget == old(budget) - 2
      ensures (obliging && old(budget) >= 2) ==> outcome == Done
      ensures (old(Undoing(m, k) && Truthful(installed, m)) && k.preserveLive && Honest(pair) && k.candidate == Some(pair.owner)) ==>
                Truthful(installed, m)
    {
      ghost var truthful := && Undoing(m, k) && Truthful(installed, m) && k.preserveLive
                            && Honest(pair) && k.candidate == Some(pair.owner);
      var refused := Obstacle(obliging);
      if refused { return Refused; }
      if truthful {
        RestoringKeepsTruth(installed, m, RestoreApp(m, pair), k, pair);
      }
      var alive := Write(RestoreApp(m, pair));
      if !alive { return Died; }
      refused := Obstacle(obliging);
      if refused { return Refused; }
      if truthful {
        RestoringKeepsTruth(installed, m, RestoreTemporal(m, pair), k, pair);
      }
      alive := Write(RestoreTemporal(m, pair));
      if !alive { return Died; }
      refused := Obstacle(obliging);
      outcome := if refused then Refused else Done;
    }

    /** Record that the restore begins, restore, record that the target may start. */
    method Replace(j: Journal, pair: Pair, obliging: bool) returns (outcome: Outcome, k: Journal)
      requires Undoing(m, j) && j.phase == PairBackedUp && m.running.None? && j.id !in m.handed
      modifies this
      ensures Safe(m) && OwnJournal(installed, m)
      ensures (old(Truthful(installed, m)) && Honest(pair) && pair.owner == j.candidate.value) ==> Truthful(installed, m)
      ensures m == old(m).(journal := m.journal, app := m.app, temporal := m.temporal, restores := m.restores)
      ensures outcome == Refused || outcome == Died || outcome == Done
      ensures outcome == Done ==>
                && k == j.(phase := CandidateStarting) && Undoing(m, k) && !Torn(m)
                && m.app.writers == pair.app.writers && m.temporal.writers == pair.temporal.writers
                && m.journal == Some(k) && budget == old(budget) - 4
      ensures (obliging && old(budget) >= 4) ==> outcome == Done
    {
      var alive;
      UndoingKeeps(installed, m, j.(phase := RollbackRestoring));
      alive, k := Advance(j, RollbackRestoring);
      if !alive { return Died, k; }
      outcome := RestorePair(k, pair, obliging);
      if outcome != Done { return; }
      TargetMayStart(installed, m, k, pair);
      alive, k := Advance(k, CandidateStarting);
      outcome := if alive then Done else Died;
    }

    /** The target is up: select it and close the journal. */
    method SelectBack(j: Journal) returns (outcome: Outcome)
      requires Undoing(m, j) && j.phase == CandidateStarting && !Torn(m)
      modifies this
      ensures Safe(m) && OwnJournal(installed, m) && (old(Truthful(installed, m)) ==> Truthful(installed, m))
      ensures outcome == Done ==>
                && m == Select(old(m), j.candidate.value, old(m.active.generation), old(m.active.selectorBuild)).(journal := m.journal)
                && m.journal == Some(j.(phase := Promoted))
      ensures outcome == if old(budget) >= 3 then Done else Died
      ensures outcome == Done ==> budget == old(budget) - 3
      ensures m == old(m).(journal := m.journal, active := m.active)
    {
      UndoingKeeps(installed, m, j.(phase := CandidateHealthy));
      var alive, k := Advance(j, CandidateHealthy);
      if !alive { return Died; }
      SelectingBackKeeps(installed, m, k);
      alive := Write(Select(m, j.candidate.value, m.active.generation, m.active.selectorBuild));
      if !alive { return Died; }
      NewestOnlyGrows(installed, m, Record(m, k.(phase := Promoted)));
      alive, k := Advance(k, Promoted);
      outcome := if alive then Done else Died;
    }

    /** Start the target on the restored pair. */
    method WakeTarget(j: Journal, obliging: bool) returns (outcome: Outcome)
      requires Undoing(m, j) && j.phase == CandidateStarting && !Torn(m) && m.running.None?
      modifies this
      ensures outcome == Refused || outcome == Died || outcome == Done
      ensures Undoing(m, j) && !Torn(m) && OwnJournal(installed, m) && (old(Truthful(installed, m)) ==> Truthful(installed, m))
      ensures m.pairs == old(m.pairs) && m.active == old(m.active) && m.selector == old(m.selector)
      ensures OnlyTouched(old(m), m, j.candidate.value)
      ensures outcome == Done ==> m.running == j.candidate && budget == old(budget) - 1
      ensures (obliging && old(budget) >= 1 && old(Executable(installed, m, j.candidate.value))) ==> outcome == Done
    {
      var target := j.candidate.value;
      ghost var before := m;
      var refused := Obstacle(obliging);
      if refused { return Refused; }
      outcome := Launch(j.id, target, obliging);
      if m != before {
        RestartKeeps(installed, before, m, j, target);
      }
    }

    /** Start the target on the restored pair and select it, keeping the current selector. */
    method Settle(j: Journal, obliging: bool) returns (outcome: Outcome)
      requires Undoing(m, j) && j.phase == CandidateStarting && !Torn(m) && m.running.None?
      modifies this
      ensures outcome == Refused || outcome == Died || outcome == Done
      ensures Safe(m) && OwnJournal(installed, m) && (old(Truthful(installed, m)) ==> Truthful(installed, m))
      ensures outcome == Done ==>
                && m.journal == Some(j.(phase := Promoted)) && m.running == j.candidate
                && m.active == Select(old(m), j.candidate.value, old(m.active.generation), old(m.active.selectorBuild)).active
                && m.selector == old(m.selector) && !Torn(m)
                && OnlyTouched(old(m), m, j.candidate.value)
                && budget == old(budget) - 4
      ensures m.pairs == old(m.pairs)
      ensures (obliging && old(budget) >= 4 && old(Executable(installed, m, j.candidate.value))) ==> outcome == Done
    {
      outcome := WakeTarget(j, obliging);
      if outcome != Done { return; }
      outcome := SelectBack(j);
    }

    /** `jobctrl rollback` with no transition to recover: replace the live pair with the newest one
        retained for the target, start the target, select it. */
    method RollBackTo(build: Build, obliging: bool) returns (outcome: Outcome)
      requires Safe(m)
      modifies this
      ensures outcome == Refused || outcome == Died || outcome == Done
      ensures Safe(m) && (old(Inv(installed, m)) ==> Inv(installed, m))
      ensures old(Unfinished(m)) ==> m == old(m)
      ensures old(!Rewindable(installed, m, build)) ==> m == old(m) && outcome == Refused
      ensures Spared(old(m), m)
      ensures outcome == Done ==>
                && build in installed.receipts && Rewound(old(m), m, installed.receipts[build])
                && budget == old(budget) - ROLLBACK_WRITES
      ensures (old(Rewindable(installed, m, build)) && obliging && old(budget) >= ROLLBACK_WRITES) ==> outcome == Done
    {
      if Unfinished(m) || build !in installed.receipts || m.active.generation == 0 { return Refused; }
      var target := installed.receipts[build];
      var refused := Obstacle(obliging);
      if refused || !Executable(installed, m, target) || !Executable(installed, m, m.active.receipt) { return Refused; }
      var k := LatestPair(target);
      if k.None? { return Refused; }
      refused := Obstacle(obliging);
      if refused { return Refused; }
      ghost var before := m;
      var j;
      outcome, j := Prepare(target, k.value, obliging);
      if outcome != Done { return; }
      assert Provenance(before) ==> Honest(before.pairs[k.value]);
      outcome, j := Replace(j, m.pairs[k.value], obliging);
      if outcome != Done { return; }
      outcome := Settle(j, obliging);
    }

    // ---- recovery ------------------------------------------------------------------------------

    /** May recovery touch this journal at all?  `Fail` means only to close it. */
    method Judge(j: Journal, obliging: bool) returns (judgement: Judgement)
      requires m.journal == Some(j)
      ensures judgement == Undo ==> Undoable(installed, m, j)
      ensures judgement == Fail ==> MayClose(installed, m, j)
      ensures (obliging && Undoable(installed, m, j)) ==> judgement == Undo
    {
      if j.preserveLive || j.prior.None? || !Evidence(installed, j.prior.value) { return Leave; }
      if j.candidate.Some? && !Evidence(installed, j.candidate.value) { return Leave; }
      var refused := Obstacle(obliging);
      if refused { return Leave; }
      if j.backup.Some? && (j.backup.value >= |m.pairs| || m.pairs[j.backup.value].owner != j.prior.value) {
        return Leave;
      }
      if RefusesUncertainRollback(j) { return Leave; }
      if !Permit(m.channel, j.prior.value) { return Fail; }
      refused := Obstacle(obliging);
      judgement := if refused then Leave else Undo;
    }

    /** The build whose launcher the public selector now is, among the three it may be. */
    method IdentifySelector(j: Journal) returns (build: Option<Build>)
      ensures build.Some? ==>
                && SelectorIs(installed, m, build.value)
                && (build.value == m.active.selectorBuild || (j.prior.Some? && build.value == j.prior.value.build)
                    || (j.candidate.Some? && build.value == j.candidate.value.build))
      ensures build.None? ==> !SelectorKnown(installed, m, j)
    {
      if SelectorIs(installed, m, m.active.selectorBuild) {
        build := Some(m.active.selectorBuild);
      } else if j.prior.Some? && SelectorIs(installed, m, j.prior.value.build) {
        build := Some(j.prior.value.build);
      } else if j.candidate.Some? && SelectorIs(installed, m, j.candidate.value.build) {
        build := Some(j.candidate.value.build);
      } else {
        build := None;
      }
    }

    /** The predecessor is selected: start it and close the journal. */
    method Revive(k: Journal, obliging: bool) returns (outcome: Outcome)
      requires Safe(m) && m.journal == Some(k) && Restoring(k) && k.prior.Some? && !Torn(m) && m.active.generation != 0
      requires k.schemaVersion == 2 && m.active.receipt == k.prior.value
      modifies this
      ensures outcome == Refused || outcome == Died || outcome == Done
      ensures Safe(m)
      ensures old(Undoing(m, k)) ==> OwnJournal(installed, m) && (old(Truthful(installed, m)) ==> Truthful(installed, m))
      ensures outcome == Done ==>
                && m.journal == Some(k.(phase := RolledBack)) && !Torn(m) && m.running == k.prior
                && m.selector == old(m.selector) && m.active == old(m.active) && budget == old(budget) - 2
      ensures m.pairs == old(m.pairs) && OnlyTouched(old(m), m, k.prior.value)
      ensures (obliging && old(budget) >= 2 && old(Executable(installed, m, k.prior.value))) ==> outcome == Done
    {
      var refused := Obstacle(obliging);
      if refused { return Refused; }
      ghost var before := m;
      outcome := Launch(k.id, k.prior.value, obliging);
      if m != before {
        DriftKeeps(installed, StartUnder(before, k.id, k.prior.value), m);
        if old(Undoing(m, k)) {
          RestartKeeps(installed, before, m, k, k.prior.value);
        }
      }
      if outcome != Done { return; }
      if old(Undoing(m, k)) {
        NewestOnlyGrows(installed, m, Record(m, k.(phase := RolledBack)));
      }
      var alive, closed := Advance(k, RolledBack);
      outcome := if alive then Done else Died;
    }

    /** Select and start the predecessor again and close the journal. */
    method Reinstate(k: Journal, obliging: bool) returns (outcome: Outcome)
      requires Safe(m) && m.journal == Some(k) && Restoring(k) && k.prior.Some? && !Torn(m) && m.active.generation != 0
      requires k.schemaVersion == 2
      modifies this
      ensures outcome == Refused || outcome == Died || outcome == Done
      ensures Safe(m)
      ensures old(Undoing(m, k)) ==> OwnJournal(installed, m) && (old(Truthful(installed, m)) ==> Truthful(installed, m))
      ensures outcome == Done ==>
                && m.journal == Some(k.(phase := RolledBack)) && !Torn(m) && m.running == k.prior
                && m.selector == old(m.selector) && m.active.receipt == k.prior.value && budget == old(budget) - 3
      ensures m.pairs == old(m.pairs) && OnlyTouched(old(m), m, k.prior.value)
      ensures (obliging && old(budget) >= 3 && old(SelectorKnown(installed, m, k) && Executable(installed, m, k.prior.value))) ==>
                outcome == Done
    {
      var build := IdentifySelector(k);
      if build.None? { return Refused; }
      var alive := Write(Select(m, k.prior.value, m.active.generation, build.value));
      if !alive { return Died; }
      assert old(Undoing(m, k)) ==> Undoing(m, k);
      outcome := Revive(k, obliging);
    }

    /** Record that the restore begins, restore the recorded pair if there is one, reinstate. */
    method BringBack(j: Journal, obliging: bool) returns (outcome: Outcome)
      requires Safe(m) && Unfinished(m) && m.journal == Some(j) && !j.forwardOnly && !j.preserveLive && j.prior.Some?
      requires !RefusesUncertainRollback(j) && m.active.generation != 0 && m.running.None?
      requires j.backup.Some? ==> j.backup.value < |m.pairs|
      modifies this
      ensures outcome == Refused || outcome == Died || outcome == Done
      ensures Safe(m) && (old(Inv(installed, m)) ==> Inv(installed, m))
      ensures outcome == Done ==> Reverted(old(m), m) && budget == old(budget) - (if j.backup.Some? then 6 else 4)
      ensures m.pairs == old(m.pairs) && (j.backup.None? ==> OnlyTouched(old(m), m, j.prior.value))
      ensures outcome == Done && j.backup.Some? ==> Brought(m, m.pairs[j.backup.value], j.prior.value)
      ensures (obliging && old(budget) >= RECOVERY_WRITES && old(Recoverable(installed, m, j))) ==> outcome == Done
    {
      ghost var before := m;
      if Inv(installed, m) {
        UndoingKeeps(installed, m, j.(phase := RollbackRestoring, schemaVersion := 2));
      }
      var alive, k := Advance(j, RollbackRestoring);
      if !alive { return Died; }
      assert !Torn(m) && (Inv(installed, before) ==> Undoing(m, k) && k.backup.None?);
      if k.backup.Some? {
        outcome := RestorePair(k, m.pairs[k.backup.value], obliging);
        if outcome != Done { return; }
      }
      outcome := Reinstate(k, obliging);
    }

    /** Stop the workspace first. */
    method StopAndBringBack(j: Journal, obliging: bool) returns (outcome: Outcome)
      requires Safe(m) && Unfinished(m) && m.journal == Some(j) && !j.forwardOnly && m.active.generation != 0
      requires Undoable(installed, m, j)
      modifies this
      ensures outcome == Refused || outcome == Died || outcome == Done
      ensures Safe(m) && (old(Inv(installed, m)) ==> Inv(installed, m))
      ensures outcome == Done ==> Reverted(old(m), m)
      ensures m.pairs == old(m.pairs) && (j.backup.None? ==> OnlyTouched(old(m), m, j.prior.value))
      ensures outcome == Done && j.backup.Some? ==> Brought(m, m.pairs[j.backup.value], j.prior.value)
      ensures (obliging && old(budget) >= RECOVERY_WRITES && old(Recoverable(installed, m, j))) ==> outcome == Done
    {
      ghost var before := m;
      var stopped := Quiesce(obliging);
      StoppingKeeps(installed, before, m);
      if !stopped { return Refused; }
      var refused := Obstacle(obliging);
      if refused { return Refused; }
      outcome := BringBack(j, obliging);
    }

    /** `jobctrl rollback` over an unfinished transition: bring the whole old tuple back. */
    method Recover(obliging: bool) returns (outcome: Outcome)
      requires Safe(m) && Unfinished(m) && !m.journal.value.forwardOnly && m.active.generation != 0
      modifies this
      ensures outcome == Refused || outcome == Died || outcome == Done
      ensures Safe(m) && (old(Inv(installed, m)) ==> Inv(installed, m))
      ensures old(Barred(m)) ==> m == old(m)
      ensures outcome == Done ==> Reverted(old(m), m)
      ensures old(!Undoable(installed, m, m.journal.value)) ==>
                && (m == old(m) || (old(MayClose(installed, m, m.journal.value)) && m == Closed(old(m))))
                && outcome != Done
      ensures m.pairs == old(m.pairs)
      ensures outcome == Done && old(m.journal.value.backup.Some?) ==>
                && old(Undoable(installed, m, m.journal.value))
                && Brought(m, m.pairs[old(m.journal.value.backup.value)], old(m.journal.value.prior.value))
      ensures (old(m.journal.value.prior.Some? && m.journal.value.backup.None?)) ==> OnlyTouched(old(m), m, old(m.journal.value.prior.value))
      ensures (obliging && old(budget) >= RECOVERY_WRITES && old(Recoverable(installed, m, m.journal.value))) ==> outcome == Done
    {
      var j := m.journal.value;
      var judgement := Judge(j, obliging);
      if judgement == Leave { return Refused; }
      if judgement == Fail {
        if Inv(installed, m) {
          NewestOnlyGrows(installed, m, Record(m, j.(phase := Failed, schemaVersion := 2)));
        }
        var alive, failed := Advance(j, Failed);
        return if alive then Refused else Died;
      }
      outcome := StopAndBringBack(j, obliging);
    }

    /** `jobctrl rollback`: recover an unfinished transition, or replace the pair on request. */
    method RollBack(build: Build, obliging: bool) returns (outcome: Outcome)
      requires Safe(m)
      modifies this
      ensures Safe(m) && (old(Inv(installed, m)) ==> Inv(installed, m))
      ensures Continued(old(m), m)
      ensures old(Barred(m)) ==> m == old(m)
      ensures old(!Unfinished(m) && !Rewindable(installed, m, build)) ==> m == old(m) && outcome == Refused
      ensures old(Unfinished(m) && !Undoable(installed, m, m.journal.value)) ==>
                (m == old(m) || m == Closed(old(m))) && outcome != Done
      ensures old(!Unfinished(m)) ==> Spared(old(m), m)
      ensures (old(Unfinished(m) && m.journal.value.prior.Some? && m.journal.value.backup.None?)) ==>
                m.pairs == old(m.pairs) && OnlyTouched(old(m), m, old(m.journal.value.prior.value))
      ensures (old(Unfinished(m)) && outcome == Done) ==> Reverted(old(m), m)
      ensures (old(!Unfinished(m)) && outcome == Done) ==>
                build in installed.receipts && Rewound(old(m), m, installed.receipts[build])
      ensures (old(Rewindable(installed, m, build)) && obliging && old(budget) >= ROLLBACK_WRITES) ==> outcome == Done
    {
      if Unfinished(m) && (m.journal.value.forwardOnly || m.active.generation == 0) { return Refused; }
      if Unfinished(m) {
        outcome := Recover(obliging);
      } else {
        outcome := RollBackTo(build, obliging);
      }
    }

    // ---- start, backup, power loss -------------------------------------------------------------

    /** `jobctrl start`: nothing starts while a transition is unfinished. */
    method StartSelected(obliging: bool) returns (outcome: Outcome)
      requires Safe(m)
      modifies this
      ensures Safe(m) && (old(Inv(installed, m)) ==> Inv(installed, m))
      ensures old(Unfinished(m)) ==> m == old(m)
      ensures m == old(m) || (old(Executable(installed, m, m.active.receipt)) && m == Start(old(m), m.active.receipt))
      ensures outcome == Done ==> m.running == Some(m.active.receipt)
      ensures (obliging && old(budget) > 0 && old(!Unfinished(m) && m.active.generation != 0
               && Executable(installed, m, m.active.receipt))) ==> outcome == Done
    {
      if Unfinished(m) || m.active.generation == 0 || !Executable(installed, m, m.active.receipt) { return Refused; }
      var refused := Obstacle(obliging);
      if refused { return Refused; }
      var alive := Write(Start(m, m.active.receipt));
      if !alive { return Died; }
      refused := Obstacle(obliging);
      outcome := if refused then Refused else Done;
    }

    /** A start that nobody but the environment asks for: some process holds the id of the unfinished
        journal and runs the start of the release that the journal's milestone authorizes. */
    method StartFromEnvironment(release: Receipt) returns (outcome: Outcome)
      requires Safe(m)
      modifies this
      ensures Safe(m) && (old(Inv(installed, m)) ==> Inv(installed, m))
      ensures m == old(m) || (old(MayStart(installed, m, release)) && !old(Torn(m)) && m == Start(old(m), release))
      ensures outcome == Done <==> old(MayStart(installed, m, release)) && old(budget) > 0
    {
      if !Unfinished(m) || m.journal.value.id !in m.handed || !StartupAuthorized(m, m.journal.value.id, release) {
        return Refused;
      }
      if !Executable(installed, m, release) { return Refused; }
      AuthorizedStartKeeps(installed, m, release);
      var alive := Write(Start(m, release));
      outcome := if alive then Done else Died;
    }

    /** The snapshot of a backup. */
    method Snapshot(elsewhere: bool) returns (alive: bool)
      requires Safe(m) && !Torn(m) && !Unfinished(m) && m.running.None?
      modifies this
      ensures Safe(m) && (old(Inv(installed, m)) ==> Inv(installed, m))
      ensures alive == (old(budget) > 0) && budget == (if alive then old(budget) - 1 else 0)
      ensures !alive ==> m == old(m)
      ensures alive ==> m == old(m).(pairs := m.pairs, events := old(m.events) + [Saved(m.active.receipt, false, false)])
      ensures alive ==> if elsewhere then m.pairs == old(m.pairs)
                        else Retains(old(m.pairs), m.pairs, m.active.receipt, m.app, m.temporal)
    {
      var created := Clock();
      OwnSnapshotKeeps(installed, m, created);
      alive := Write(if elsewhere then SaveElsewhere(m, m.active.receipt) else SavePair(m, m.active.receipt, created));
    }

    /** `jobctrl backup`: a labelled snapshot of the stopped pair, among the retained ones or
        `elsewhere`, and a restart if it was running. */
    method Backup(elsewhere: bool, obliging: bool) returns (outcome: Outcome)
      requires Safe(m)
      modifies this
      ensures Safe(m) && (old(Inv(installed, m)) ==> Inv(installed, m))
      ensures old(Unfinished(m)) ==> m == old(m)
      ensures old(!(m.active.generation != 0 && Executable(installed, m, m.active.receipt))) ==> m == old(m)
      ensures m == old(m).(running := m.running, pairs := m.pairs, events := m.events) && old(m.pairs) <= m.pairs
      ensures outcome == Done ==>
                && |m.events| > old(|m.events|) && m.events[old(|m.events|)] == Saved(m.active.receipt, false, false)
                && (if elsewhere then m.pairs == old(m.pairs)
                    else Retains(old(m.pairs), m.pairs, m.active.receipt, old(m.app), old(m.temporal)))
      ensures outcome == Done ==> (m.running.Some? <==> old(m.running.Some?))
      ensures (obliging && old(budget) >= 2 && old(!Unfinished(m) && m.active.generation != 0
               && Executable(installed, m, m.active.receipt))) ==> outcome == Done
    {
      if Unfinished(m) || m.active.generation == 0 || !Executable(installed, m, m.active.receipt) { return Refused; }
      var refused := Obstacle(obliging);
      if refused { return Refused; }
      var wasRunning := m.running.Some?;
      ghost var before := m;
      var stopped := Quiesce(obliging);
      StoppingKeeps(installed, before, m);
      if !stopped { return Refused; }
      refused := Obstacle(obliging);
      if !refused {
        var alive := Snapshot(elsewhere);
        if !alive { return Died; }
      }
      outcome := Done;
      if wasRunning {
        outcome := StartSelected(obliging);
      }
      if refused { outcome := Refused; }
    }

    method LosePower()
      modifies this
      ensures m == old(m).(running := None)
    {
      m := m.(running := None);
    }

    // ---- whole runs ----------------------------------------------------------------------------

    /** One command of a run. */
    method Obey(command: Command)
      requires Safe(m)
      modifies this
      ensures Safe(m)
      ensures old(Inv(installed, m)) ==> Inv(installed, m)
      ensures Continued(old(m), m)
      ensures old(Barred(m)) ==> Untouched(old(m), m)
    {
      budget := command.budget;
      ghost var before := m;
      var outcome := Done;
      match command
      case UpdateTo(build, _) =>
        outcome := Update(build, false);
      case ResumeUpdate(_) =>
        outcome := Resume(false);
      case RollBackTo(build, _) =>
        outcome := RollBack(build, false);
      case TakeBackup(elsewhere, _) =>
        outcome := Backup(elsewhere, false);
      case StartByEnvironment(release, _) =>
        outcome := StartFromEnvironment(release);
      case StartNormally(_) =>
        outcome := StartSelected(false);
      case StopAll(_) =>
        outcome := Stop(false);
        StoppingKeeps(installed, before, m);
      case PowerLoss(_) =>
        LosePower();
        StoppingKeeps(installed, before, m);
      case Work(_) =>
        Elapse();
        DriftKeeps(installed, before, m);
    }

    /** Any commands in any order, each cut off after any number of durable writes, with the running
        release writing and the power failing in between. */
    method Serve(commands: seq<Command>)
      requires Safe(m)
      modifies this
      ensures Safe(m)
      ensures old(Inv(installed, m)) ==> Inv(installed, m)
      ensures old(Barred(m)) ==> Untouched(old(m), m)
    {
      for n := 0 to |commands|
        invariant Safe(m)
        invariant old(Inv(installed, m)) ==> Inv(installed, m)
        invariant old(Barred(m)) ==> Barred(m) && Untouched(old(m), m)
      {
        Obey(commands[n]);
      }
    }

    /** From any milestone a forward update was cut off at: whatever happens next, either the update
        completes on the way or one undisturbed `jobctrl update` completes it, one generation on. */
    method Persist(commands: seq<Command>)
      requires Inv(installed, m) && Unfinished(m) && m.journal.value.forwardOnly
      modifies this
      ensures Inv(installed, m)
      ensures Completed(m, old(m).journal.value.candidate, old(m).journal.value.sourceGeneration)
      ensures PolicyCommitted(installed, m, m.active.receipt)
    {
      ghost var candidate, generation := m.journal.value.candidate, m.journal.value.sourceGeneration;
      var n := 0;
      while n < |commands| && Unfinished(m)
        invariant 0 <= n <= |commands|
        invariant Inv(installed, m) && Toward(m, candidate, generation)
      {
        Obey(commands[n]);
        n := n + 1;
      }
      if Unfinished(m) {
        budget := UPDATE_WRITES;
        var outcome := Resume(true);
      }
    }

    /** An update cut off after any number of writes, then anything at all, then one undisturbed
        update: it lands exactly one generation on, unless its first milestone was never written. */
    method UpdateThroughCrashes(build: Build, first: nat, commands: seq<Command>)
      requires Inv(installed, m) && Updatable(installed, m, build)
      modifies this
      ensures Inv(installed, m)
      ensures Completed(m, Some(installed.receipts[build]), old(m.active.generation))
              || (!Unfinished(m) && m.active == old(m.active) && m.selector == old(m.selector))
    {
      budget := first;
      var outcome := Update(build, false);
      if Unfinished(m) {
        Persist(commands);
      }
    }
  }
}
