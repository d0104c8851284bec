/** The extension's real queue: operations read and write the storage in separate steps, take
    turns on one promise chain, and flushes take turns on another.  Everything but the stored
    value dies with the worker.  Each step is shown to be a step of the atomic queue. */
module QueueRefinement {
  import opened Wrappers
  import opened CaptureStore
  import A = AtomicQueue
  import Chain = PromiseChain

  /** One queued storage operation: who asked for it, and what it has read so far. */
  datatype Call = Call(op: Op, owner: Option<nat>, view: Option<Stored>)

  /** `calls[i]` belongs to link `i` of `lock`, `flushes[j]` and `tokens[j]` to link `j` of
      `turns`.  `used` are the item ids ever generated. */
  datatype World = World(
    stored: Stored, lock: Chain.Chain, calls: seq<Call>,
    turns: Chain.Chain, tokens: seq<nat>, flushes: seq<A.Flush>,
    used: set<nat>, log: A.Log)

  datatype Event =
    | Ask(op: Op)
    | AskFlush(token: nat)
    | FlushStarts(j: nat)
    | OpStarts(i: nat)
    | OpReads(i: nat)
    | OpFinishes(i: nat)
    | OpRejects(i: nat)
    | FlushGoes(j: nat, newId: nat)
    | FlushAnswered(j: nat, outcome: A.Outcome)
    | ForgetOp(i: nat)
    | ForgetFlush(j: nat)
    | Death

  predicate OpRuns(w: World, i: nat) { Chain.IsAt(w.lock, i, Chain.Running) && i < |w.calls| }
  predicate FlushRuns(w: World, j: nat) { Chain.IsAt(w.turns, j, Chain.Running) && j < |w.flushes| }

  predicate Enabled(w: World, e: Event) {
    match e
    case Ask(op) =>
      A.IsOutside(op) && (op.Enqueue? ==> op.item.id !in w.used && op.item.captureId.Some? && !op.item.superseded)
    case AskFlush(_) => true
    case FlushStarts(j) => Chain.MayStart(w.turns, j) && j < |w.flushes|
    case OpStarts(i) => Chain.MayStart(w.lock, i)
    case OpReads(i) => OpRuns(w, i) && w.calls[i].view.None? && !w.calls[i].op.Clear?
    case OpFinishes(i) => OpRuns(w, i) && (w.calls[i].view.Some? || w.calls[i].op.Clear?)
    case OpRejects(i) => OpRuns(w, i)
    case FlushGoes(j, _) => FlushRuns(w, j) && w.flushes[j].reply.Some?
    case FlushAnswered(j, _) => FlushRuns(w, j) && w.flushes[j].step.Sending? && w.flushes[j].reply.None?
    case ForgetOp(i) => Chain.IsAt(w.lock, i, Chain.Done)
    case ForgetFlush(j) => Chain.IsAt(w.turns, j, Chain.Done)
    case Death => true
  }

  /** `withQueueLock`. */
  function Queue(w: World, op: Op, owner: Option<nat>): World {
    w.(lock := Chain.Call(w.lock), calls := w.calls + [Call(op, owner, None)])
  }

  /** A flush that has gone on queues its next operation, or settles. */
  function FlushOn(w: World, j: nat, f: A.Flush): World
    requires j < |w.flushes| && j < |w.turns.links|
  {
    var v := w.(flushes := w.flushes[j := f]);
    if f.step.Ended? then v.(turns := Chain.Advance(w.turns, j, Chain.Done))
    else if A.OpOf(f).Some? then Queue(v, A.OpOf(f).value, Some(j)) else v
  }

  /** The promise of call `i` settles and its owner, if a flush, gets the answer. */
  function Settle(w: World, i: nat, r: Reply): World
    requires i < |w.calls| && i < |w.lock.links|
  {
    var v := w.(lock := Chain.Advance(w.lock, i, Chain.Done));
    var owner := w.calls[i].owner;
    if owner.Some? && owner.value < |w.flushes|
    then v.(flushes := w.flushes[owner.value := w.flushes[owner.value].(reply := Some(r))])
    else v
  }

  /** What is written: the operation computed its result from what it read earlier. */
  function Written(w: World, i: nat): (Stored, Reply)
    requires i < |w.calls|
  {
    var c := w.calls[i];
    var view := if c.view.Some? then c.view.value else w.stored;
    var (s, r) := Execute(c.op, view);
    (if s == view then w.stored else s, r)
  }

  function Apply(w: World, e: Event): World
    requires Enabled(w, e)
  {
    match e
    case Ask(op) => Queue(w.(used := if op.Enqueue? then w.used + {op.item.id} else w.used), op, None)
    case AskFlush(token) =>
      var tail := w.turns.tail;
      if tail.Some? && tail.value < |w.tokens| && w.tokens[tail.value] == token then w
      else w.(turns := Chain.Call(w.turns), tokens := w.tokens + [token], flushes := w.flushes + [A.NEW_FLUSH])
    case FlushStarts(j) => Queue(w.(turns := Chain.Advance(w.turns, j, Chain.Running)), Load, Some(j))
    case OpStarts(i) => w.(lock := Chain.Advance(w.lock, i, Chain.Running))
    case OpReads(i) => w.(calls := w.calls[i := w.calls[i].(view := Some(w.stored))])
    case OpFinishes(i) =>
      var (s, r) := Written(w, i);
      Settle(w.(stored := s, log := A.LogOp(w.log, w.calls[i].op, w.stored, r)), i, r)
    case OpRejects(i) => Settle(w, i, Failed)
    case FlushGoes(j, newId) =>
      var f := w.flushes[j];
      var g := A.Continue(f, newId);
      FlushOn(w.(log := A.LogSend(w.log, f, g)), j, g)
    case FlushAnswered(j, o) =>
      var f := w.flushes[j];
      FlushOn(w.(log := A.LogAnswer(w.log, f, o)), j, A.Answered(f, o))
    case ForgetOp(i) => w.(lock := Chain.Forget(w.lock, i))
    case ForgetFlush(j) => w.(turns := Chain.Forget(w.turns, j))
    case Death => World(w.stored, Chain.EMPTY, [], Chain.EMPTY, [], [], w.used, w.log)
  }

  predicate IsStart(w: World) {
    && w.lock == Chain.EMPTY && w.calls == [] && w.turns == Chain.EMPTY && w.tokens == [] && w.flushes == []
    && w.used == w.log.enqueued
    && w.log == A.Log(set x | x in Held(w.stored) :: x.id, [], {}, A.AlreadySuperseded(w.stored), {}, [])
  }

  ghost predicate Follows(a: World, b: World) {
    exists e :: Enabled(a, e) && b == Apply(a, e)
  }

  ghost predicate StepAt(run: seq<World>, i: nat)
    requires 0 < i < |run|
  {
    Follows(run[i - 1], run[i])
  }

  ghost predicate IsRun(run: seq<World>) {
    run != [] && IsStart(run[0]) && forall i :: 0 < i < |run| ==> StepAt(run, i)
  }

  predicate Unfinished(w: World, i: nat) {
    i < |w.lock.links| && w.lock.links[i].phase != Chain.Done
  }

  /** Only a running flush waits, for its own latest operation and nothing else. */
  ghost predicate OwnedRightly(w: World, i: nat)
    requires i < |w.calls|
  {
    var owner := w.calls[i].owner;
    if owner.Some? then
      && FlushRuns(w, owner.value)
      && w.flushes[owner.value].reply.None?
      && A.OpOf(w.flushes[owner.value]) == Some(w.calls[i].op)
    else A.IsOutside(w.calls[i].op)
  }

  ghost predicate CallsFit(w: World) {
    && |w.calls| == |w.lock.links| && |w.flushes| == |w.tokens| == |w.turns.links|
    && (forall i :: 0 <= i < |w.calls| && Unfinished(w, i) ==> OwnedRightly(w, i))
    && (forall i, k :: 0 <= i < k < |w.calls| && Unfinished(w, i) && Unfinished(w, k) && w.calls[i].owner.Some? ==>
          w.calls[i].owner != w.calls[k].owner)
  }

  /** What a running operation has read is still what is stored. */
  ghost predicate ViewsFresh(w: World)
    requires |w.calls| == |w.lock.links|
  {
    forall i :: 0 <= i < |w.calls| && Unfinished(w, i) && w.calls[i].view.Some? ==>
      w.lock.links[i].phase == Chain.Running && w.calls[i].view.value == w.stored
  }

  ghost predicate FlushesFit(w: World)
    requires |w.flushes| == |w.turns.links|
  {
    && (forall j :: 0 <= j < |w.flushes| && w.turns.links[j].phase == Chain.Pending ==> w.flushes[j] == A.NEW_FLUSH)
    && (forall j :: 0 <= j < |w.flushes| && FlushRuns(w, j) ==> !w.flushes[j].step.Ended?)
  }

  predicate PendingEnqueue(w: World, i: nat)
    requires i < |w.calls|
  {
    Unfinished(w, i) && w.calls[i].op.Enqueue?
  }

  /** Ids of items still to be stored are new, and no two calls store the same one. */
  ghost predicate IdsFresh(w: World) {
    && w.log.enqueued <= w.used
    && (forall i :: 0 <= i < |w.calls| && PendingEnqueue(w, i) ==>
          w.calls[i].op.item.id in w.used && A.IsNew(w.log, w.calls[i].op))
    && (forall i, k :: 0 <= i < k < |w.calls| && PendingEnqueue(w, i) && PendingEnqueue(w, k) ==>
          w.calls[i].op.item.id != w.calls[k].op.item.id)
  }

  ghost predicate Inv(w: World) {
    && Chain.Inv(w.lock) && Chain.Inv(w.turns)
    && CallsFit(w) && ViewsFresh(w) && FlushesFit(w) && IdsFresh(w)
  }

  ghost function Current(w: World): (c: Option<nat>)
    ensures c.Some? ==> FlushRuns(w, c.value)
    ensures c.None? ==> forall j: nat :: !FlushRuns(w, j)
  {
    if exists j: nat :: FlushRuns(w, j) then
      var j: nat :| FlushRuns(w, j);
      Some(j)
    else None
  }

  /** The atomic queue behind a concrete one. */
  ghost function Abstract(w: World): A.World {
    A.World(w.stored, if Current(w).Some? then Some(w.flushes[Current(w).value]) else None, w.log)
  }

  lemma OnlyOneRuns(c: Chain.Chain, i: nat, j: nat)
    requires Chain.Inv(c) && Chain.IsAt(c, i, Chain.Running) && Chain.IsAt(c, j, Chain.Running)
    ensures i == j
  {
    assert Chain.AllDoneBefore(c, i) && Chain.AllDoneBefore(c, j);
  }

  lemma StartingFindsTheChainFree(c: Chain.Chain, i: nat)
    requires Chain.Inv(c) && Chain.MayStart(c, i)
    ensures forall j: nat :: !Chain.IsAt(c, j, Chain.Running)
    ensures forall j: nat :: j < i ==> Chain.IsAt(c, j, Chain.Done)
  {
    var after := c.links[i].after;
    assert if after.Some? then Chain.AllDoneBefore(c, after.value) else Chain.AllDoneBefore(c, i);
    forall j: nat | Chain.IsAt(c, j, Chain.Running)
      ensures j < i
    {
      assert Chain.AllDoneBefore(c, j);
    }
  }

  lemma CurrentIs(w: World, j: nat)
    requires Chain.Inv(w.turns) && FlushRuns(w, j)
    ensures Current(w) == Some(j)
  {
    OnlyOneRuns(w.turns, j, Current(w).value);
  }

  predicate NewEnqueue(w: World, op: Op) {
    op.Enqueue? ==> op.item.id in w.used && A.IsNew(w.log, op)
                    && forall i :: 0 <= i < |w.calls| && PendingEnqueue(w, i) ==> w.calls[i].op.item.id != op.item.id
  }

  /** The flush has just turned to `op`, and no operation of its own is left. */
  ghost predicate TurnsTo(w: World, owner: Option<nat>, op: Op)
    requires |w.calls| == |w.lock.links|
  {
    if owner.None? then A.IsOutside(op)
    else
      && FlushRuns(w, owner.value) && w.flushes[owner.value].reply.None?
      && A.OpOf(w.flushes[owner.value]) == Some(op)
      && forall i :: 0 <= i < |w.calls| && Unfinished(w, i) ==> w.calls[i].owner != owner
  }

  lemma QueueKeepsInv(w: World, op: Op, owner: Option<nat>)
    requires Inv(w) && TurnsTo(w, owner, op) && NewEnqueue(w, op)
    ensures Inv(Queue(w, op, owner))
  {
    Chain.NextKeepsInv(w.lock, Chain.Calls);
    assert Chain.Call(w.lock) == Chain.Next(w.lock, Chain.Calls);
    QueueKeepsCallsFit(w, op, owner);
    QueueKeepsIdsFresh(w, op, owner);
  }

  lemma QueueKeepsCallsFit(w: World, op: Op, owner: Option<nat>)
    requires CallsFit(w) && TurnsTo(w, owner, op)
    ensures CallsFit(Queue(w, op, owner))
  {
    var v := Queue(w, op, owner);
    forall i | 0 <= i < |v.calls| && Unfinished(v, i)
      ensures OwnedRightly(v, i)
    {
      assert i < |w.calls| ==> Unfinished(w, i) && OwnedRightly(w, i);
    }
  }

  lemma QueueKeepsIdsFresh(w: World, op: Op, owner: Option<nat>)
    requires CallsFit(w) && IdsFresh(w) && NewEnqueue(w, op)
    ensures IdsFresh(Queue(w, op, owner))
  {
    var v := Queue(w, op, owner);
    assert forall i :: 0 <= i < |w.calls| && PendingEnqueue(v, i) ==> PendingEnqueue(w, i);
  }

  /** Marking a call done leaves the other calls as they are. */
  lemma SettleKeepsInv(w: World, i: nat, r: Reply, s: Stored, log: A.Log)
    requires Inv(w) && OpRuns(w, i)
    requires w.log.enqueued <= log.enqueued <= w.log.enqueued + (if w.calls[i].op.Enqueue? then {w.calls[i].op.item.id} else {})
    ensures Inv(Settle(w.(stored := s, log := log), i, r))
  {
    var v := Settle(w.(stored := s, log := log), i, r);
    Chain.NextKeepsInv(w.lock, Chain.Finishes(i));
    assert Chain.Advance(w.lock, i, Chain.Done) == Chain.Next(w.lock, Chain.Finishes(i));
    assert forall k :: 0 <= k < |w.calls| && Unfinished(v, k) ==> k != i && Unfinished(w, k) && OwnedRightly(w, k);
    assert OwnedRightly(w, i);
    forall k | 0 <= k < |v.calls| && Unfinished(v, k)
      ensures OwnedRightly(v, k) && v.calls[k].view.None?
    {
      assert w.calls[k].owner.Some? ==> w.calls[k].owner != w.calls[i].owner;
      if w.calls[k].view.Some? {
        OnlyOneRuns(w.lock, i, k);
      }
    }
    forall k | 0 <= k < |v.calls| && PendingEnqueue(v, k)
      ensures PendingEnqueue(w, k) && v.calls[k].op.item.id in v.used && A.IsNew(v.log, v.calls[k].op)
    {
      assert PendingEnqueue(w, k);
    }
  }

  /** One concrete step is one atomic step, or none. */
  ghost predicate Refines(a: World, b: World) {
    Inv(b) && (Abstract(a) == Abstract(b) || A.Follows(Abstract(a), Abstract(b)))
  }

  lemma SameTurnsSameCurrent(a: World, b: World)
    requires Inv(a) && Inv(b)
    requires |a.flushes| <= |b.flushes|
    requires forall j: nat :: FlushRuns(b, j) <==> FlushRuns(a, j)
    requires forall j: nat :: FlushRuns(a, j) ==> b.flushes[j] == a.flushes[j]
    requires a.stored == b.stored && a.log == b.log
    ensures Abstract(a) == Abstract(b)
  {
    if Current(a).Some? {
      CurrentIs(b, Current(a).value);
    }
  }

  lemma AskRefines(w: World, op: Op)
    requires Inv(w) && Enabled(w, Ask(op))
    ensures Refines(w, Apply(w, Ask(op)))
  {
    var v := w.(used := if op.Enqueue? then w.used + {op.item.id} else w.used);
    forall i | 0 <= i < |v.calls| && Unfinished(v, i)
      ensures OwnedRightly(v, i)
    {
      assert Unfinished(w, i) && OwnedRightly(w, i);
    }
    assert forall i :: 0 <= i < |v.calls| && PendingEnqueue(v, i) ==> PendingEnqueue(w, i);
    QueueKeepsInv(v, op, None);
    SameTurnsSameCurrent(w, Apply(w, Ask(op)));
  }

  lemma AskFlushRefines(w: World, token: nat)
    requires Inv(w)
    ensures Refines(w, Apply(w, AskFlush(token)))
  {
    var v := Apply(w, AskFlush(token));
    if v != w {
      Chain.NextKeepsInv(w.turns, Chain.Calls);
      assert v.turns == Chain.Next(w.turns, Chain.Calls);
      assert forall j: nat :: FlushRuns(v, j) <==> FlushRuns(w, j);
      forall i | 0 <= i < |v.calls| && Unfinished(v, i)
        ensures OwnedRightly(v, i)
      {
        assert Unfinished(w, i) && OwnedRightly(w, i);
      }
      assert forall i :: 0 <= i < |v.calls| && PendingEnqueue(v, i) ==> PendingEnqueue(w, i);
      SameTurnsSameCurrent(w, v);
    }
  }

  lemma ForgetRefines(w: World, e: Event)
    requires Inv(w) && Enabled(w, e) && (e.ForgetOp? || e.ForgetFlush?)
    ensures Refines(w, Apply(w, e))
  {
    var v := Apply(w, e);
    if e.ForgetOp? {
      Chain.NextKeepsInv(w.lock, Chain.Forgets(e.i));
      assert v.lock == Chain.Next(w.lock, Chain.Forgets(e.i)) && v.lock.links == w.lock.links;
    } else {
      Chain.NextKeepsInv(w.turns, Chain.Forgets(e.j));
      assert v.turns == Chain.Next(w.turns, Chain.Forgets(e.j)) && v.turns.links == w.turns.links;
    }
    assert forall j: nat :: FlushRuns(v, j) <==> FlushRuns(w, j);
    forall i | 0 <= i < |v.calls| && Unfinished(v, i)
      ensures OwnedRightly(v, i)
    {
      assert Unfinished(w, i) && OwnedRightly(w, i);
    }
    assert forall i :: 0 <= i < |v.calls| && PendingEnqueue(v, i) ==> PendingEnqueue(w, i);
    SameTurnsSameCurrent(w, v);
  }

  lemma OpStartsRefines(w: World, i: nat)
    requires Inv(w) && Enabled(w, OpStarts(i))
    ensures Refines(w, Apply(w, OpStarts(i)))
  {
    var v := Apply(w, OpStarts(i));
    Chain.NextKeepsInv(w.lock, Chain.Starts(i));
    assert v.lock == Chain.Next(w.lock, Chain.Starts(i));
    SameCallsStillFit(w, v);
    SameTurnsSameCurrent(w, v);
  }

  lemma OpReadsRefines(w: World, i: nat)
    requires Inv(w) && Enabled(w, OpReads(i))
    ensures Refines(w, Apply(w, OpReads(i)))
  {
    var v := Apply(w, OpReads(i));
    SameCallsStillFit(w, v);
    SameTurnsSameCurrent(w, v);
  }

  /** Nothing but phases and views of calls changed. */
  lemma SameCallsStillFit(a: World, b: World)
    requires CallsFit(a) && IdsFresh(a)
    requires |b.calls| == |a.calls| && |b.lock.links| == |a.lock.links|
    requires a.turns == b.turns && a.tokens == b.tokens && a.flushes == b.flushes && a.used == b.used && a.log == b.log
    requires forall i :: 0 <= i < |a.calls| ==>
        Unfinished(a, i) == Unfinished(b, i) && a.calls[i].op == b.calls[i].op && a.calls[i].owner == b.calls[i].owner
    ensures CallsFit(b) && IdsFresh(b)
  {
    forall i | 0 <= i < |b.calls| && Unfinished(b, i)
      ensures OwnedRightly(b, i)
    {
      assert Unfinished(a, i) && OwnedRightly(a, i);
    }
    assert forall i :: 0 <= i < |b.calls| && PendingEnqueue(b, i) ==> PendingEnqueue(a, i);
  }

  lemma DeathRefines(w: World)
    requires Inv(w)
    ensures Refines(w, Apply(w, Death))
  {
    var v := Apply(w, Death);
    assert Current(v).None?;
    assert A.Enabled(Abstract(w), A.Death) && Abstract(v) == A.Apply(Abstract(w), A.Death);
  }

  lemma FlushStartsRefines(w: World, j: nat)
    requires Inv(w) && Enabled(w, FlushStarts(j))
    ensures Refines(w, Apply(w, FlushStarts(j)))
  {
    StartingFindsTheChainFree(w.turns, j);
    assert Current(w).None?;
    Chain.NextKeepsInv(w.turns, Chain.Starts(j));
    var u := w.(turns := Chain.Advance(w.turns, j, Chain.Running));
    assert u.turns == Chain.Next(w.turns, Chain.Starts(j));
    forall i | 0 <= i < |u.calls| && Unfinished(u, i)
      ensures OwnedRightly(u, i) && u.calls[i].owner.None?
    {
      assert Unfinished(w, i) && OwnedRightly(w, i);
    }
    assert forall i :: 0 <= i < |u.calls| && PendingEnqueue(u, i) ==> PendingEnqueue(w, i);
    assert FlushRuns(u, j) && u.flushes[j] == A.NEW_FLUSH;
    assert FlushesFit(u);
    QueueKeepsInv(u, Load, Some(j));
    var v := Apply(w, FlushStarts(j));
    CurrentIs(v, j);
    assert A.Enabled(Abstract(w), A.Begin) && Abstract(v) == A.Apply(Abstract(w), A.Begin);
  }

  lemma OpRejectsRefines(w: World, i: nat)
    requires Inv(w) && Enabled(w, OpRejects(i))
    ensures Refines(w, Apply(w, OpRejects(i)))
  {
    var v := Apply(w, OpRejects(i));
    SettleKeepsInv(w, i, Failed, w.stored, w.log);
    assert OwnedRightly(w, i);
    if w.calls[i].owner.Some? {
      var j := w.calls[i].owner.value;
      CurrentIs(w, j);
      CurrentIs(v, j);
      assert A.Enabled(Abstract(w), A.OpFails) && Abstract(v) == A.Apply(Abstract(w), A.OpFails);
    } else {
      SameTurnsSameCurrent(w, v);
    }
  }

  /** The lock makes read and write one: what is written is what the operation would have
      computed from the stored value of this very moment. */
  lemma WritesAreAtomic(w: World, i: nat)
    requires Inv(w) && Enabled(w, OpFinishes(i))
    ensures Written(w, i) == Execute(w.calls[i].op, w.stored)
  {
    assert Unfinished(w, i);
  }

  lemma OpFinishesRefines(w: World, i: nat)
    requires Inv(w) && Enabled(w, OpFinishes(i))
    ensures Refines(w, Apply(w, OpFinishes(i)))
  {
    var v := Apply(w, OpFinishes(i));
    var op := w.calls[i].op;
    WritesAreAtomic(w, i);
    var (s, r) := Execute(op, w.stored);
    assert PendingEnqueue(w, i) <==> op.Enqueue?;
    SettleKeepsInv(w, i, r, s, A.LogOp(w.log, op, w.stored, r));
    assert OwnedRightly(w, i);
    if w.calls[i].owner.Some? {
      var j := w.calls[i].owner.value;
      CurrentIs(w, j);
      CurrentIs(v, j);
      assert A.Enabled(Abstract(w), A.OpHappens) && Abstract(v) == A.Apply(Abstract(w), A.OpHappens);
    } else {
      assert forall j: nat :: FlushRuns(v, j) <==> FlushRuns(w, j);
      if Current(w).Some? {
        CurrentIs(v, Current(w).value);
      }
      assert A.Enabled(Abstract(w), A.Outside(op)) && Abstract(v) == A.Apply(Abstract(w), A.Outside(op));
    }
  }

  /** A flush whose answer has come in, or that is sending, has no operation queued. */
  lemma NothingOwed(w: World, j: nat)
    requires Inv(w) && FlushRuns(w, j)
    requires w.flushes[j].reply.Some? || A.OpOf(w.flushes[j]).None?
    ensures forall i :: 0 <= i < |w.calls| && Unfinished(w, i) ==> w.calls[i].owner != Some(j)
  {
    forall i | 0 <= i < |w.calls| && Unfinished(w, i)
      ensures w.calls[i].owner != Some(j)
    {
      assert OwnedRightly(w, i);
    }
  }

  lemma FlushOnKeepsInv(w: World, j: nat, f: A.Flush, log: A.Log)
    requires Inv(w) && FlushRuns(w, j) && f.reply.None?
    requires w.flushes[j].reply.Some? || A.OpOf(w.flushes[j]).None?
    requires log.enqueued == w.log.enqueued
    requires A.OpOf(f).Some? ==> !A.OpOf(f).value.Enqueue?
    ensures Inv(FlushOn(w.(log := log), j, f))
  {
    var u := w.(log := log, flushes := w.flushes[j := f]);
    if f.step.Ended? {
      EndingKeepsInv(w, j, f, log);
    } else {
      MovingKeepsInv(w, j, f, log);
      if A.OpOf(f).Some? {
        QueueKeepsInv(u, A.OpOf(f).value, Some(j));
      }
    }
  }

  lemma MovingKeepsInv(w: World, j: nat, f: A.Flush, log: A.Log)
    requires Inv(w) && FlushRuns(w, j) && f.reply.None?
    requires w.flushes[j].reply.Some? || A.OpOf(w.flushes[j]).None?
    requires log.enqueued == w.log.enqueued
    requires !f.step.Ended?
    ensures Inv(w.(log := log, flushes := w.flushes[j := f]))
    ensures forall i :: 0 <= i < |w.calls| && Unfinished(w, i) ==> w.calls[i].owner != Some(j)
  {
    NothingOwed(w, j);
    var u := w.(log := log, flushes := w.flushes[j := f]);
    forall i | 0 <= i < |u.calls| && Unfinished(u, i)
      ensures OwnedRightly(u, i)
    {
      assert Unfinished(w, i) && OwnedRightly(w, i);
    }
    assert forall i :: 0 <= i < |u.calls| && PendingEnqueue(u, i) ==> PendingEnqueue(w, i);
    assert CallsFit(u) && IdsFresh(u);
  }

  lemma EndingKeepsInv(w: World, j: nat, f: A.Flush, log: A.Log)
    requires Inv(w) && FlushRuns(w, j) && f.reply.None?
    requires w.flushes[j].reply.Some? || A.OpOf(w.flushes[j]).None?
    requires log.enqueued == w.log.enqueued
    requires f.step.Ended?
    ensures Inv(FlushOn(w.(log := log), j, f))
  {
    NothingOwed(w, j);
    var v := FlushOn(w.(log := log), j, f);
    Chain.NextKeepsInv(w.turns, Chain.Finishes(j));
    assert v.turns == Chain.Next(w.turns, Chain.Finishes(j));
    forall i | 0 <= i < |v.calls| && Unfinished(v, i)
      ensures OwnedRightly(v, i)
    {
      assert Unfinished(w, i) && OwnedRightly(w, i);
    }
    assert forall i :: 0 <= i < |v.calls| && PendingEnqueue(v, i) ==> PendingEnqueue(w, i);
    assert CallsFit(v) && IdsFresh(v);
  }

  lemma FlushOnIsAlive(w: World, j: nat, f: A.Flush, log: A.Log)
    requires Inv(w) && FlushRuns(w, j) && Inv(FlushOn(w.(log := log), j, f))
    ensures Abstract(FlushOn(w.(log := log), j, f)) == A.World(w.stored, A.Alive(f), log)
  {
    var v := FlushOn(w.(log := log), j, f);
    if f.step.Ended? {
      forall k: nat
        ensures !FlushRuns(v, k)
      {
        if FlushRuns(v, k) {
          OnlyOneRuns(w.turns, j, k);
        }
      }
    } else {
      CurrentIs(v, j);
    }
  }

  lemma FlushGoesRefines(w: World, j: nat, newId: nat)
    requires Inv(w) && Enabled(w, FlushGoes(j, newId))
    ensures Refines(w, Apply(w, FlushGoes(j, newId)))
  {
    var f := w.flushes[j];
    var g := A.Continue(f, newId);
    CurrentIs(w, j);
    FlushOnKeepsInv(w, j, g, A.LogSend(w.log, f, g));
    FlushOnIsAlive(w, j, g, A.LogSend(w.log, f, g));
    assert A.Enabled(Abstract(w), A.Goes(newId));
    assert Abstract(Apply(w, FlushGoes(j, newId))) == A.Apply(Abstract(w), A.Goes(newId));
  }

  lemma FlushAnsweredRefines(w: World, j: nat, o: A.Outcome)
    requires Inv(w) && Enabled(w, FlushAnswered(j, o))
    ensures Refines(w, Apply(w, FlushAnswered(j, o)))
  {
    var f := w.flushes[j];
    var g := A.Answered(f, o);
    CurrentIs(w, j);
    FlushOnKeepsInv(w, j, g, A.LogAnswer(w.log, f, o));
    FlushOnIsAlive(w, j, g, A.LogAnswer(w.log, f, o));
    assert A.Enabled(Abstract(w), A.Answers(o));
    assert Abstract(Apply(w, FlushAnswered(j, o))) == A.Apply(Abstract(w), A.Answers(o));
  }

  lemma EveryStepRefines(w: World, e: Event)
    requires Inv(w) && Enabled(w, e)
    ensures Refines(w, Apply(w, e))
  {
    match e
    case Ask(op) => AskRefines(w, op);
    case AskFlush(token) => AskFlushRefines(w, token);
    case FlushStarts(j) => FlushStartsRefines(w, j);
    case OpStarts(i) => OpStartsRefines(w, i);
    case OpReads(i) => OpReadsRefines(w, i);
    case OpFinishes(i) => OpFinishesRefines(w, i);
    case OpRejects(i) => OpRejectsRefines(w, i);
    case FlushGoes(j, newId) => FlushGoesRefines(w, j, newId);
    case FlushAnswered(j, o) => FlushAnsweredRefines(w, j, o);
    case ForgetOp(_) => ForgetRefines(w, e);
    case ForgetFlush(_) => ForgetRefines(w, e);
    case Death => DeathRefines(w);
  }

  /** The promise chains refine atomic operations: behind every run of the real queue there is a
      run of the atomic queue that passes, in order, through the same stored values and logs. */
  lemma {:induction false} RunsRefine(run: seq<World>, i: nat) returns (atomic: seq<A.World>, at: seq<nat>)
    requires IsRun(run) && i < |run|
    ensures Inv(run[i]) && A.IsRun(atomic)
    ensures |at| == i + 1 && forall k :: 0 <= k <= i ==> at[k] < |atomic| && atomic[at[k]] == Abstract(run[k])
    ensures forall k, l :: 0 <= k <= l <= i ==> at[k] <= at[l]
    ensures at[0] == 0 && at[i] + 1 == |atomic|
  {
    if i == 0 {
      atomic, at := [Abstract(run[0])], [0];
    } else {
      atomic, at := RunsRefine(run, i - 1);
      OneStepRefines(run, i);
      if Abstract(run[i]) != Abstract(run[i - 1]) {
        ExtendingARun(atomic, Abstract(run[i]));
        atomic := atomic + [Abstract(run[i])];
      }
      at := at + [|atomic| - 1];
    }
  }

  lemma OneStepRefines(run: seq<World>, i: nat)
    requires IsRun(run) && 0 < i < |run| && Inv(run[i - 1])
    ensures Refines(run[i - 1], run[i])
  {
    assert StepAt(run, i);
    var e :| Enabled(run[i - 1], e) && run[i] == Apply(run[i - 1], e);
    EveryStepRefines(run[i - 1], e);
  }

  lemma ExtendingARun(atomic: seq<A.World>, next: A.World)
    requires A.IsRun(atomic) && A.Follows(atomic[|atomic| - 1], next)
    ensures A.IsRun(atomic + [next])
  {
    var longer := atomic + [next];
    forall i | 0 < i < |longer| ensures A.StepAt(longer, i) {
      assert i < |atomic| ==> A.StepAt(atomic, i);
    }
  }

  /** Conservation and one identity, for the queue as it really runs. */
  lemma NothingIsLost(run: seq<World>, i: nat, id: nat)
    requires IsRun(run) && i < |run| && id in run[i].log.enqueued
    ensures || A.IsStored(Held(run[i].stored), id)
            || (exists s :: s in run[i].log.acked && s.id == id
                  && forall t :: t in run[i].log.sends && t.id == id ==> t == s)
            || id in run[i].log.dropped
  {
    var atomic, _ := RunsRefine(run, i);
    A.QueueIsConserved(atomic, |atomic| - 1, id);
  }

  /** No item is sent again once it was marked superseded, for the queue as it really runs. */
  lemma SupersededStaysHome(run: seq<World>, i: nat, j: nat, id: nat)
    requires IsRun(run) && i <= j < |run| && id in run[i].log.superseded
    ensures A.SendsWithout(run[i].log.sends, run[j].log.sends, id)
  {
    var atomic, at := RunsRefine(run, j);
    A.SupersededIsNeverSentAgain(atomic, at[i], at[j], id);
  }

  /** Whoever asks for a flush gets one with its own credentials: the latest one if that has them and is
      not over, otherwise a new one that starts only when all earlier ones are done. */
  lemma AskedFlushIsOwn(w: World, token: nat)
    requires Inv(w)
    ensures var v := Apply(w, AskFlush(token));
            && v.turns.tail.Some? && v.turns.tail.value < |v.tokens| && v.tokens[v.turns.tail.value] == token
            && (v == w || (|v.flushes| == |w.flushes| + 1 && v.flushes[|w.flushes|] == A.NEW_FLUSH
                           && v.flushes[..|w.flushes|] == w.flushes && v.tokens[|w.flushes|] == token
                           && v.turns.links[|w.flushes|] == Chain.Link(w.turns.tail, Chain.Pending)))
            && (v == w ==> w.turns.tail.Some? && w.turns.tail.value < |w.tokens| && w.tokens[w.turns.tail.value] == token)
  {
    var v := Apply(w, AskFlush(token));
    if v != w {
      assert v.turns == Chain.Call(w.turns);
    }
  }

  /** At most one storage operation and at most one flush run at a time. */
  lemma OneAtATime(run: seq<World>, i: nat)
    requires IsRun(run) && i < |run|
    ensures forall a, b :: OpRuns(run[i], a) && OpRuns(run[i], b) ==> a == b
    ensures forall a, b :: FlushRuns(run[i], a) && FlushRuns(run[i], b) ==> a == b
  {
    var _, _ := RunsRefine(run, i);
    forall a, b | OpRuns(run[i], a) && OpRuns(run[i], b)
      ensures a == b
    {
      OnlyOneRuns(run[i].lock, a, b);
    }
    forall a, b | FlushRuns(run[i], a) && FlushRuns(run[i], b)
      ensures a == b
    {
      OnlyOneRuns(run[i].turns, a, b);
    }
  }
}
