/** What a flush never touches: an item whose enqueue was asked for after the flush had started. */
module FlushIsolation {
  import opened Wrappers
  import opened CaptureStore
  import opened QueueRefinement
  import A = AtomicQueue
  import Chain = PromiseChain

  predicate Owns(w: World, l: nat, j: nat) {
    l < |w.calls| && Unfinished(w, l) && w.calls[l].owner == Some(j)
  }

  predicate Waits(w: World, j: nat) {
    FlushRuns(w, j) && w.flushes[j].reply.None? && A.OpOf(w.flushes[j]).Some?
  }

  /** A flush that waits for an operation has it queued. */
  ghost predicate Asked(w: World) {
    forall j: nat :: Waits(w, j) ==> exists l :: Owns(w, l, j)
  }

  lemma FlushesKeepAsked(w: World, e: Event)
    requires Inv(w) && Asked(w) && Enabled(w, e) && (e.FlushStarts? || e.FlushGoes? || e.FlushAnswered?)
    ensures Asked(Apply(w, e))
  {
    var v := Apply(w, e);
    forall k: nat | Waits(v, k)
      ensures exists l :: Owns(v, l, k)
    {
      if k == e.j {
        assert Owns(v, |v.calls| - 1, k);
      } else {
        assert Waits(w, k);
        var l :| Owns(w, l, k);
        assert Owns(v, l, k);
      }
    }
  }

  lemma SettlingKeepsAsked(w: World, e: Event)
    requires Inv(w) && Asked(w) && Enabled(w, e) && (e.OpFinishes? || e.OpRejects?)
    ensures Asked(Apply(w, e))
  {
    var v := Apply(w, e);
    forall k: nat | Waits(v, k)
      ensures exists l :: Owns(v, l, k)
    {
      assert Waits(w, k);
      var l :| Owns(w, l, k);
      assert Owns(v, l, k);
    }
  }

  lemma OthersKeepAsked(w: World, e: Event)
    requires Inv(w) && Asked(w) && Enabled(w, e)
    requires e.Ask? || e.AskFlush? || e.OpStarts? || e.OpReads? || e.ForgetOp? || e.ForgetFlush? || e.Death?
    ensures Asked(Apply(w, e))
  {
    var v := Apply(w, e);
    forall k: nat | Waits(v, k)
      ensures exists l :: Owns(v, l, k)
    {
      assert Waits(w, k);
      var l :| Owns(w, l, k);
      assert Owns(v, l, k);
    }
  }

  lemma AskedStep(w: World, e: Event)
    requires Inv(w) && Asked(w) && Enabled(w, e)
    ensures Asked(Apply(w, e))
  {
    if e.FlushStarts? || e.FlushGoes? || e.FlushAnswered? {
      FlushesKeepAsked(w, e);
    } else if e.OpFinishes? || e.OpRejects? {
      SettlingKeepsAsked(w, e);
    } else {
      OthersKeepAsked(w, e);
    }
  }

  lemma RunsKeepBothInvs(run: seq<World>, i: nat)
    requires IsRun(run) && i < |run|
    ensures Inv(run[i]) && A.Inv(Abstract(run[i]))
  {
    var atomic, at := RunsRefine(run, i);
    A.RunsKeepInv(atomic, at[i]);
  }

  lemma {:induction false} RunsKeepAsked(run: seq<World>, i: nat)
    requires IsRun(run) && i < |run|
    ensures Asked(run[i])
  {
    if i > 0 {
      RunsKeepAsked(run, i - 1);
      RunsKeepBothInvs(run, i - 1);
      assert StepAt(run, i);
      FollowingKeepsAsked(run[i - 1], run[i]);
    }
  }

  lemma FollowingKeepsAsked(w: World, v: World)
    requires Inv(w) && Asked(w) && Follows(w, v)
    ensures Asked(v)
  {
    var e :| Enabled(w, e) && v == Apply(w, e);
    AskedStep(w, e);
  }

  // ---- an item that comes after the flush --------------------------------------------------

  predicate Lacks(q: seq<Item>, id: nat) {
    forall x :: x in q ==> x.id != id
  }

  /** The flush's own load is still ahead of every enqueue of the item. */
  ghost predicate BehindLoad(w: World, j: nat, id: nat) {
    && id !in w.log.enqueued
    && exists l :: Leads(w, l, j, id)
  }

  predicate Leads(w: World, l: nat, j: nat, id: nat) {
    && Owns(w, l, j)
    && forall c :: 0 <= c < |w.calls| && PendingEnqueue(w, c) && w.calls[c].op.item.id == id ==> l < c
  }

  /** Nothing that the running flush has in hand is the item. */
  ghost predicate Apart(w: World, j: nat, id: nat) {
    FlushRuns(w, j) ==>
      var f := w.flushes[j];
      && Lacks(f.snapshot, id)
      && (f.step.Loading? ==>
            if f.reply.None? then BehindLoad(w, j, id)
            else f.reply.value.Loaded? ==> Lacks(f.reply.value.queue, id))
  }

  ghost predicate NeverSent(w: World, id: nat) {
    (forall s :: s in w.log.sends ==> s.id != id) && (forall s :: s in w.log.acked ==> s.id != id)
  }

  lemma StartsApart(w: World, j: nat, item: Item)
    requires Inv(w) && Asked(w) && A.Inv(Abstract(w)) && FlushRuns(w, j) && Enabled(w, Ask(Enqueue(item)))
    ensures Apart(Apply(w, Ask(Enqueue(item))), j, item.id) && NeverSent(w, item.id)
  {
    CurrentIs(w, j);
    var v := Apply(w, Ask(Enqueue(item)));
    var f := w.flushes[j];
    assert A.FlushFits(Abstract(w), f);
    if f.step.Loading? && f.reply.None? {
      assert Waits(w, j);
      var l :| Owns(w, l, j);
      assert Leads(v, l, j, item.id);
    }
  }

  /** The flush's load gives it what is stored, and the item is not stored yet. */
  lemma LoadArrives(w: World, i: nat, j: nat, id: nat)
    requires Inv(w) && A.Inv(Abstract(w)) && Enabled(w, OpFinishes(i)) && FlushRuns(w, j) && Apart(w, j, id)
    requires w.flushes[j].step.Loading? && w.flushes[j].reply.None? && Leads(w, i, j, id)
    ensures Apart(Apply(w, OpFinishes(i)), j, id)
  {
    var v := Apply(w, OpFinishes(i));
    var r := Execute(Load, w.stored).1;
    WritesAreAtomic(w, i);
    assert OwnedRightly(w, i);
    assert v.flushes[j] == w.flushes[j].(reply := Some(r));
    LoadedIsStored(w.stored);
    StoredIsEnqueued(w);
    assert r.Loaded? ==> Lacks(r.queue, id);
  }

  lemma StoredIsEnqueued(w: World)
    requires A.Inv(Abstract(w))
    ensures forall x :: x in Held(w.stored) ==> x.id in w.log.enqueued
  {
    assert A.Known(Abstract(w));
  }

  /** No enqueue of the item gets past the load. */
  lemma LoadStaysAhead(w: World, i: nat, l: nat, j: nat, id: nat)
    requires Inv(w) && Enabled(w, OpFinishes(i)) && FlushRuns(w, j) && i != l && Leads(w, l, j, id)
    requires id !in w.log.enqueued && w.flushes[j].reply.None?
    ensures BehindLoad(Apply(w, OpFinishes(i)), j, id) && Apply(w, OpFinishes(i)).flushes[j] == w.flushes[j]
  {
    var v := Apply(w, OpFinishes(i));
    assert OwnedRightly(w, i) && OwnedRightly(w, l);
    assert Chain.AllDoneBefore(w.lock, i);
    assert l > i;
    assert !(PendingEnqueue(w, i) && w.calls[i].op.item.id == id);
    forall c | 0 <= c < |v.calls| && PendingEnqueue(v, c) && v.calls[c].op.item.id == id ensures l < c {
      assert PendingEnqueue(w, c);
    }
    assert Leads(v, l, j, id);
  }

  lemma DoneOpsKeepApart(w: World, i: nat, j: nat, id: nat)
    requires Inv(w) && A.Inv(Abstract(w)) && Enabled(w, OpFinishes(i)) && FlushRuns(w, j) && Apart(w, j, id)
    ensures Apart(Apply(w, OpFinishes(i)), j, id)
  {
    var f := w.flushes[j];
    if f.step.Loading? && f.reply.None? {
      var l: nat :| Leads(w, l, j, id);
      if i == l {
        LoadArrives(w, i, j, id);
      } else {
        LoadStaysAhead(w, i, l, j, id);
      }
    } else {
      LateAnswersKeepApart(w, i, j, id);
    }
  }

  lemma LateAnswersKeepApart(w: World, i: nat, j: nat, id: nat)
    requires Inv(w) && Enabled(w, OpFinishes(i)) && FlushRuns(w, j) && Apart(w, j, id)
    requires !w.flushes[j].step.Loading? || w.flushes[j].reply.Some?
    ensures Apart(Apply(w, OpFinishes(i)), j, id)
  {
    assert OwnedRightly(w, i);
  }

  lemma LoadedIsStored(s: Stored)
    ensures var r := Execute(Load, s).1;
            r.Loaded? ==> forall x :: x in r.queue ==> x in Held(s)
  {
    if s.Items? && UniqueIds(s.items) {
      SameItemsSortedOrNot(s.items);
    }
  }

  /** While the flush runs, no other flush starts, goes on or is answered. */
  lemma OnlyThisFlushMoves(w: World, e: Event, j: nat)
    requires Inv(w) && Enabled(w, e) && FlushRuns(w, j)
    ensures !e.FlushStarts? && (e.FlushGoes? || e.FlushAnswered? ==> e.j == j)
  {
    if e.FlushStarts? {
      StartingFindsTheChainFree(w.turns, e.j);
    } else if e.FlushGoes? || e.FlushAnswered? {
      OnlyOneRuns(w.turns, e.j, j);
    }
  }

  lemma CallsKeepApart(w: World, e: Event, j: nat, id: nat)
    requires Inv(w) && Enabled(w, e) && FlushRuns(w, j) && Apart(w, j, id)
    requires e.Ask? || e.AskFlush? || e.OpStarts? || e.OpReads? || e.OpRejects? || e.ForgetOp? || e.ForgetFlush? || e.Death?
    ensures Apart(Apply(w, e), j, id)
  {
    var v, f := Apply(w, e), w.flushes[j];
    if FlushRuns(v, j) && f.step.Loading? && f.reply.None? && v.flushes[j].reply.None? {
      var l: nat :| Leads(w, l, j, id);
      assert Owns(v, l, j);
      assert Leads(v, l, j, id);
    }
  }

  /** What the flush has in hand next comes out of its snapshot or of its load. */
  lemma ContinueLacks(f: A.Flush, newId: nat, id: nat)
    requires f.reply.Some? && Lacks(f.snapshot, id)
    requires f.step.Loading? && f.reply.value.Loaded? ==> Lacks(f.reply.value.queue, id)
    ensures Lacks(A.Continue(f, newId).snapshot, id) && !A.Continue(f, newId).step.Loading?
  {
  }

  lemma GoingKeepsApart(w: World, j: nat, newId: nat, id: nat)
    requires Inv(w) && A.Inv(Abstract(w)) && Enabled(w, FlushGoes(j, newId)) && Apart(w, j, id) && NeverSent(w, id)
    ensures Apart(Apply(w, FlushGoes(j, newId)), j, id) && NeverSent(Apply(w, FlushGoes(j, newId)), id)
  {
    CurrentIs(w, j);
    var f := w.flushes[j];
    var g := A.Continue(f, newId);
    ContinueLacks(f, newId, id);
    assert A.FlushFits(Abstract(w), f);
    assert g.step.Sending? && !f.step.Sending? ==> g.step.item.id != id;
    assert Apply(w, FlushGoes(j, newId)).flushes[j] == g;
  }

  lemma AnswerKeepsApart(w: World, j: nat, o: A.Outcome, id: nat)
    requires Inv(w) && A.Inv(Abstract(w)) && Enabled(w, FlushAnswered(j, o)) && Apart(w, j, id) && NeverSent(w, id)
    ensures Apart(Apply(w, FlushAnswered(j, o)), j, id) && NeverSent(Apply(w, FlushAnswered(j, o)), id)
  {
    CurrentIs(w, j);
    assert A.FlushFits(Abstract(w), w.flushes[j]);
    assert Apply(w, FlushAnswered(j, o)).flushes[j] == A.Answered(w.flushes[j], o);
  }

  lemma ApartStep(w: World, e: Event, j: nat, id: nat)
    requires Inv(w) && A.Inv(Abstract(w)) && Enabled(w, e) && FlushRuns(w, j) && Apart(w, j, id) && NeverSent(w, id)
    ensures Apart(Apply(w, e), j, id) && NeverSent(Apply(w, e), id)
  {
    OnlyThisFlushMoves(w, e, j);
    if e.OpFinishes? {
      DoneOpsKeepApart(w, e.i, j, id);
      OpsSendNothing(w, e.i);
    } else if e.FlushGoes? {
      GoingKeepsApart(w, j, e.newId, id);
    } else if e.FlushAnswered? {
      AnswerKeepsApart(w, j, e.outcome, id);
    } else {
      CallsKeepApart(w, e, j, id);
    }
  }

  lemma OpsSendNothing(w: World, i: nat)
    requires Enabled(w, OpFinishes(i))
    ensures Apply(w, OpFinishes(i)).log.sends == w.log.sends && Apply(w, OpFinishes(i)).log.acked == w.log.acked
  {
  }

  lemma {:induction false} StaysApart(run: seq<World>, s: nat, t: nat, j: nat, id: nat)
    requires IsRun(run) && s <= t < |run| && Apart(run[s], j, id) && NeverSent(run[s], id)
    requires forall u :: s <= u < t ==> FlushRuns(run[u], j)
    ensures Apart(run[t], j, id) && NeverSent(run[t], id)
  {
    if s < t {
      StaysApart(run, s, t - 1, j, id);
      assert FlushRuns(run[t - 1], j);
      StepStaysApart(run, t, j, id);
    }
  }

  lemma StepStaysApart(run: seq<World>, t: nat, j: nat, id: nat)
    requires IsRun(run) && 0 < t < |run| && FlushRuns(run[t - 1], j) && Apart(run[t - 1], j, id) && NeverSent(run[t - 1], id)
    ensures Apart(run[t], j, id) && NeverSent(run[t], id)
  {
    RunsKeepBothInvs(run, t - 1);
    assert StepAt(run, t);
    FollowingStaysApart(run[t - 1], run[t], j, id);
  }

  /** In every run, from the moment an enqueue is asked for while flush `j` runs, whether that flush
      has loaded yet or not, until flush `j` ends or the worker dies: the flush neither has the item
      in hand nor sends it. */
  lemma EnqueuedDuringAFlushIsApart(run: seq<World>, start: nat, t: nat, j: nat, item: Item)
    requires IsRun(run) && start < t < |run|
    requires Enabled(run[start], Ask(Enqueue(item))) && run[start + 1] == Apply(run[start], Ask(Enqueue(item)))
    requires forall u :: start <= u < t ==> FlushRuns(run[u], j)
    ensures Apart(run[t], j, item.id) && NeverSent(run[t], item.id)
  {
    RunsKeepAsked(run, start);
    RunsKeepBothInvs(run, start);
    StartsApart(run[start], j, item);
    AskingSendsNothing(run[start], item);
    StaysApart(run, start + 1, t, j, item.id);
  }

  lemma AskingSendsNothing(w: World, item: Item)
    requires Enabled(w, Ask(Enqueue(item)))
    ensures Apply(w, Ask(Enqueue(item))).log == w.log
  {
  }

  lemma FollowingStaysApart(w: World, v: World, j: nat, id: nat)
    requires Inv(w) && A.Inv(Abstract(w)) && Follows(w, v) && FlushRuns(w, j) && Apart(w, j, id) && NeverSent(w, id)
    ensures Apart(v, j, id) && NeverSent(v, id)
  {
    var e :| Enabled(w, e) && v == Apply(w, e);
    ApartStep(w, e, j, id);
  }

  /** And so that flush never removes it: once its enqueue has finished, the item is stored at every
      later moment until the flush ends, unless a discard or a clear took it out. */
  lemma EnqueuedDuringAFlushIsNeverRemovedByIt(run: seq<World>, start: nat, t: nat, j: nat, item: Item)
    requires IsRun(run) && start < t < |run|
    requires Enabled(run[start], Ask(Enqueue(item))) && run[start + 1] == Apply(run[start], Ask(Enqueue(item)))
    requires forall u :: start <= u < t ==> FlushRuns(run[u], j)
    ensures item.id in run[t].log.enqueued ==>
              A.IsStored(Held(run[t].stored), item.id) || item.id in run[t].log.dropped
  {
    EnqueuedDuringAFlushIsApart(run, start, t, j, item);
    if item.id in run[t].log.enqueued {
      NothingIsLost(run, t, item.id);
    }
  }

  /** An enqueue that finishes without being refused has stored its item. */
  lemma FinishedEnqueueStores(run: seq<World>, t: nat, i: nat)
    requires IsRun(run) && t < |run| && Enabled(run[t], OpFinishes(i)) && run[t].calls[i].op.Enqueue?
    ensures var (s, r), item := Written(run[t], i), run[t].calls[i].op.item;
            var next := Apply(run[t], OpFinishes(i));
            && next.stored == s
            && (r == Changed(true) ==> item in Held(next.stored) && item.id in next.log.enqueued)
            && (r != Changed(true) ==> next.stored == run[t].stored && item.id !in next.log.enqueued)
  {
    RunsKeepBothInvs(run, t);
    var w := run[t];
    WritesAreAtomic(w, i);
    assert PendingEnqueue(w, i);
    assert forall x :: x in Held(w.stored) ==> x.id in w.log.enqueued;
    if Readable(w.stored) {
      OperationsMeanWhatTheySay(w.calls[i].op, w.stored);
    }
  }
}
