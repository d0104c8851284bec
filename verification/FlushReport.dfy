/** What a flush of the real queue accomplishes: the atomic queue's results, carried over. */
module FlushReport {
  import opened Wrappers
  import opened CaptureStore
  import opened QueueRefinement
  import opened FlushIsolation
  import opened FlushOutcome
  import A = AtomicQueue
  import Chain = PromiseChain

  /** Flush `j` starts at `s` and runs from then until `t`. */
  ghost predicate RunsThrough(run: seq<World>, s: nat, t: nat, j: nat) {
    && IsRun(run) && s < t < |run|
    && Enabled(run[s], FlushStarts(j)) && run[s + 1] == Apply(run[s], FlushStarts(j))
    && forall u :: s < u <= t ==> FlushRuns(run[u], j)
  }

  lemma RunningIsAbstract(run: seq<World>, t: nat, j: nat)
    requires IsRun(run) && t < |run| && FlushRuns(run[t], j)
    ensures Abstract(run[t]) == A.World(run[t].stored, Some(run[t].flushes[j]), run[t].log)
  {
    RunsKeepBothInvs(run, t);
    CurrentIs(run[t], j);
  }

  lemma StartsEmpty(run: seq<World>, s: nat, j: nat)
    requires RunsThrough(run, s, s + 1, j)
    ensures run[s + 1].flushes[j] == A.NEW_FLUSH
    ensures run[s + 1].stored == run[s].stored && run[s + 1].log == run[s].log
  {
    RunsKeepBothInvs(run, s);
  }

  lemma OneStepOn(run: seq<World>, t: nat, j: nat)
    requires IsRun(run) && 0 < t < |run| && FlushRuns(run[t - 1], j) && FlushRuns(run[t], j)
    ensures A.Inv(Abstract(run[t - 1]))
    ensures Abstract(run[t]) == Abstract(run[t - 1]) || A.Follows(Abstract(run[t - 1]), Abstract(run[t]))
  {
    RunsKeepBothInvs(run, t - 1);
    OneStepRefines(run, t);
  }

  lemma {:induction false} RealTally(run: seq<World>, s: nat, t: nat, j: nat)
    requires RunsThrough(run, s, t, j)
    ensures Tally(Abstract(run[t]), |run[s].log.trail|)
  {
    RunningIsAbstract(run, t, j);
    if t == s + 1 {
      StartsEmpty(run, s, j);
      BeginsATally(A.World(run[s].stored, None, run[s].log));
    } else {
      RealTally(run, s, t - 1, j);
      OneStepOn(run, t, j);
      if Abstract(run[t]) != Abstract(run[t - 1]) {
        FollowingKeepsTally(Abstract(run[t - 1]), Abstract(run[t]), |run[s].log.trail|);
      }
    }
  }

  ghost predicate WasStored(run: seq<World>, s: nat, t: nat, q: seq<Item>) {
    exists u: nat :: s < u <= t && u < |run| && Read(run[u].stored) == Some(q)
  }

  /** The snapshot is what was stored, in order of time, at one moment since the flush started. */
  lemma {:induction false} SnapshotWasStored(run: seq<World>, s: nat, t: nat, j: nat)
    requires RunsThrough(run, s, t, j) && Seen(run[t].flushes[j]).Some?
    ensures WasStored(run, s, t, Seen(run[t].flushes[j]).value)
  {
    RunningIsAbstract(run, t, j);
    if t == s + 1 {
      StartsEmpty(run, s, j);
    } else {
      RunningIsAbstract(run, t - 1, j);
      OneStepOn(run, t, j);
      var a, b := Abstract(run[t - 1]), Abstract(run[t]);
      if a != b {
        var e :| A.Enabled(a, e) && b == A.Apply(a, e);
        SnapshotIsRead(a, e);
      }
      if Seen(run[t].flushes[j]) == Seen(run[t - 1].flushes[j]) {
        SnapshotWasStored(run, s, t - 1, j);
      }
    }
  }

  /** A flush of the real queue rejects only if one of its operations failed.  If it resolves, its
      acknowledgements are exactly the sends the server took, in the order of the snapshot, and none of
      them is stored any more; its failure is set exactly if an item was found or left marked or a
      delivery failed; and unless a delivery failed every item of the snapshot is settled. */
  lemma FlushEndsTruthfully(run: seq<World>, s: nat, t: nat, j: nat, newId: nat)
    requires RunsThrough(run, s, t, j) && t + 1 < |run|
    requires Enabled(run[t], FlushGoes(j, newId)) && run[t + 1] == Apply(run[t], FlushGoes(j, newId))
    ensures var f := run[t + 1].flushes[j];
            && (f.step == A.Ended(false) <==> run[t].flushes[j].reply == Some(Failed))
            && (f.step == A.Ended(true) ==>
                  && |run[s].log.trail| <= |run[t + 1].log.trail|
                  && Reports(run[t + 1].stored, f, run[t + 1].log.trail[|run[s].log.trail|..])
                  && WasStored(run, s, t, f.snapshot))
  {
    RealTally(run, s, t, j);
    RunningIsAbstract(run, t, j);
    RunsKeepBothInvs(run, t);
    EndsWithAReport(Abstract(run[t]), newId, |run[s].log.trail|);
    var f := A.Continue(run[t].flushes[j], newId);
    assert run[t + 1].flushes[j] == f && run[t + 1].log.trail == run[t].log.trail && run[t + 1].stored == run[t].stored;
    if f.step == A.Ended(true) {
      SnapshotWasStored(run, s, t, j);
    }
  }

  /** No item is marked superseded, in the log or in the storage, but by the server's own answer for it,
      unless it was marked at the start; and what counts as acknowledged is exactly what the server took. */
  lemma OnlyTheServerMarks(run: seq<World>, i: nat)
    requires IsRun(run) && i < |run|
    ensures forall id :: id in run[i].log.superseded ==> id in run[0].log.superseded || Denied(run[i].log.trail, id)
    ensures Readable(run[i].stored) ==> forall x :: x in Held(run[i].stored) && x.superseded ==> x.id in run[i].log.superseded
    ensures forall s :: s in run[i].log.acked <==> A.Answer(s, A.Delivered) in run[i].log.trail
  {
    var atomic, at := RunsRefine(run, i);
    MarksAreJustified(atomic, |atomic| - 1);
  }
}
