/** The capture queue with every storage operation atomic: outside calls, one flush at a time
    with sends between its operations, and worker death between any two steps. */
module AtomicQueue {
  import opened Wrappers
  import opened CaptureStore

  datatype Send = Send(id: nat, captureId: nat)

  datatype Outcome = Delivered | SupersededByServer | NotDelivered

  /** One thing that a flush was told: by the server about a send, or by the storage about an item. */
  datatype Note =
    | Answer(send: Send, outcome: Outcome)
    | NotFound(id: nat)
    | FoundMarked(id: nat)
    | KeptMarked(id: nat)

  /** What is known to have happened, across all lives of the worker. */
  datatype Log = Log(
    enqueued: set<nat>, sends: seq<Send>, acked: set<Send>, superseded: set<nat>, dropped: set<nat>, trail: seq<Note>)

  datatype Step =
    | Loading
    | Preparing(newId: nat)
    | Sending(item: Item)
    | Superseding(item: Item)
    | Removing(item: Item)
    | Recounting
    | Ended(ok: bool)

  /** The local state of one flush; `reply` is the settled answer it has not looked at yet. */
  datatype Flush = Flush(snapshot: seq<Item>, next: nat, step: Step, reply: Option<Reply>, acks: seq<Send>, failure: bool)

  const NEW_FLUSH := Flush([], 0, Loading, None, [], false)

  datatype World = World(stored: Stored, flush: Option<Flush>, log: Log)

  function SendOf(x: Item): Send {
    Send(x.id, if x.captureId.Some? then x.captureId.value else 0)
  }

  /** The queue operation a flush waits for. */
  function OpOf(f: Flush): Option<Op> {
    match f.step
    case Loading => Some(Load)
    case Preparing(newId) => if f.next < |f.snapshot| then Some(Prepare(f.snapshot[f.next].id, newId)) else None
    case Superseding(x) => Some(Supersede(x.id, SendOf(x).captureId))
    case Removing(x) => Some(Remove(x.id, SendOf(x).captureId))
    case Recounting => Some(Load)
    case Sending(_) => None
    case Ended(_) => None
  }

  /** On to the next item of the snapshot, or to the final count. */
  function NextItem(f: Flush, newId: nat): Flush {
    var g := f.(next := f.next + 1, reply := None);
    g.(step := if g.next < |g.snapshot| then Preparing(newId) else Recounting)
  }

  function AfterLoad(f: Flush, q: seq<Item>, newId: nat): Flush {
    f.(snapshot := q, next := 0, reply := None, step := if q != [] then Preparing(newId) else Recounting)
  }

  /** The flush looks at a settled answer and goes on to its next wait; a rejected operation
      rejects the flush. */
  function Continue(f: Flush, newId: nat): Flush
    requires f.reply.Some?
  {
    match (f.step, f.reply.value)
    case (Loading, Loaded(q)) => AfterLoad(f, q, newId)
    case (Preparing(_), Prepared(None)) => NextItem(f, newId)
    case (Preparing(_), Prepared(Some(x))) =>
      if x.superseded then NextItem(f.(failure := true), newId) else f.(step := Sending(x), reply := None)
    case (Superseding(_), Changed(kept)) => NextItem(f.(failure := f.failure || kept), newId)
    case (Removing(x), Changed(_)) => NextItem(f.(acks := f.acks + [SendOf(x)]), newId)
    case (Recounting, Loaded(_)) => f.(step := Ended(true), reply := None)
    case _ => f.(step := Ended(false), reply := None)
  }

  function Answered(f: Flush, o: Outcome): Flush
    requires f.step.Sending?
  {
    match o
    case Delivered => f.(step := Removing(f.step.item))
    case SupersededByServer => f.(step := Superseding(f.step.item))
    case NotDelivered => f.(step := Recounting, failure := true)
  }

  function Alive(f: Flush): Option<Flush> {
    if f.step.Ended? then None else Some(f)
  }

  /** What the storage tells a flush about an item. */
  function Notes(op: Op, r: Reply): seq<Note> {
    match op
    case Prepare(id, _) =>
      if r == Prepared(None) then [NotFound(id)]
      else if r.Prepared? && r.item.value.superseded then [FoundMarked(id)]
      else []
    case Supersede(id, _) => if r == Changed(true) then [KeptMarked(id)] else []
    case _ => []
  }

  function LogOp(log: Log, op: Op, before: Stored, r: Reply): Log {
    var told := log.(trail := log.trail + Notes(op, r));
    match op
    case Enqueue(item) => if r == Changed(true) then told.(enqueued := log.enqueued + {item.id}) else told
    case Supersede(id, _) => if r == Changed(true) then told.(superseded := log.superseded + {id}) else told
    case Discard(id) => if r == Changed(true) then told.(dropped := log.dropped + {id}) else told
    case Clear => told.(dropped := log.dropped + set x | x in Held(before) :: x.id)
    case _ => told
  }

  function LogSend(log: Log, f: Flush, g: Flush): Log {
    if g.step.Sending? && !f.step.Sending? then log.(sends := log.sends + [SendOf(g.step.item)]) else log
  }

  function LogAnswer(log: Log, f: Flush, o: Outcome): Log
    requires f.step.Sending?
  {
    var send := SendOf(f.step.item);
    log.(acked := log.acked + (if o.Delivered? then {send} else {}), trail := log.trail + [Answer(send, o)])
  }

  datatype Event =
    | Outside(op: Op)
    | Begin
    | OpHappens
    | OpFails
    | Goes(newId: nat)
    | Answers(outcome: Outcome)
    | Death

  /** A new item has a new id and a capture id. */
  predicate IsNew(log: Log, op: Op) {
    op.Enqueue? ==> op.item.id !in log.enqueued && op.item.captureId.Some? && !op.item.superseded
  }

  predicate IsOutside(op: Op) {
    op.Load? || op.Enqueue? || op.Discard? || op.Clear?
  }

  predicate WaitsForOp(f: Option<Flush>) {
    f.Some? && f.value.reply.None? && OpOf(f.value).Some?
  }

  predicate Enabled(w: World, e: Event) {
    match e
    case Outside(op) => IsOutside(op) && IsNew(w.log, op)
    case Begin => w.flush.None?
    case OpHappens => WaitsForOp(w.flush)
    case OpFails => WaitsForOp(w.flush)
    case Goes(_) => w.flush.Some? && w.flush.value.reply.Some?
    case Answers(_) => w.flush.Some? && w.flush.value.step.Sending? && w.flush.value.reply.None?
    case Death => true
  }

  function Apply(w: World, e: Event): World
    requires Enabled(w, e)
  {
    match e
    case Outside(op) =>
      var (s, r) := Execute(op, w.stored);
      World(s, w.flush, LogOp(w.log, op, w.stored, r))
    case Begin => w.(flush := Some(NEW_FLUSH))
    case OpHappens =>
      var f := w.flush.value;
      var (s, r) := Execute(OpOf(f).value, w.stored);
      World(s, Some(f.(reply := Some(r))), LogOp(w.log, OpOf(f).value, w.stored, r))
    case OpFails => w.(flush := Some(w.flush.value.(reply := Some(Failed))))
    case Goes(newId) =>
      var f := w.flush.value;
      var g := Continue(f, newId);
      World(w.stored, Alive(g), LogSend(w.log, f, g))
    case Answers(o) =>
      var f := w.flush.value;
      World(w.stored, Some(Answered(f, o)), LogAnswer(w.log, f, o))
    case Death => w.(flush := None)
  }

  /** What earlier versions of the worker had marked. */
  function AlreadySuperseded(s: Stored): set<nat> {
    if Readable(s) then set x | x in Held(s) && x.superseded :: x.id else {}
  }

  predicate IsStart(w: World) {
    && w.flush.None?
    && w.log == Log(set x | x in Held(w.stored) :: x.id, [], {}, AlreadySuperseded(w.stored), {}, [])
  }

  ghost predicate Follows(a: World, b: World) {
    exists e :: Enabled(a, e) && b == Apply(a, e)
  }

  ghost predicate StepAt(run: seq<World>, i: nat)
    requires 0 < i < |run|
  {
    Follows(run[i - 1], run[i])
  }

  ghost predicate IsRun(run: seq<World>) {
    run != [] && IsStart(run[0]) && forall i :: 0 < i < |run| ==> StepAt(run, i)
  }

  /** Every item that was ever stored is stored, or acknowledged, or explicitly dropped. */
  ghost predicate Conserved(w: World) {
    forall id :: id in w.log.enqueued ==> AccountedFor(w, id)
  }

  ghost predicate IsStored(a: set<Item>, id: nat) {
    exists x :: x in a && x.id == id
  }

  ghost predicate IsAcked(acked: set<Send>, id: nat) {
    exists s :: s in acked && s.id == id
  }

  ghost predicate AccountedFor(w: World, id: nat) {
    IsStored(Held(w.stored), id) || IsAcked(w.log.acked, id) || id in w.log.dropped
  }

  ghost predicate OneIdentity(w: World) {
    && (forall s, t :: s in w.log.sends && t in w.log.sends && s.id == t.id ==> s == t)
    && (forall s :: s in w.log.acked ==> s in w.log.sends)
    && (forall s, x :: s in w.log.sends && x in Held(w.stored) && x.id == s.id ==> x.captureId == Some(s.captureId))
  }

  predicate GoesNowhere(f: Flush) {
    f.step.Loading? && (f.reply.Some? ==> f.reply.value == Failed)
  }

  ghost predicate Known(w: World) {
    && (forall x :: x in Held(w.stored) ==> x.id in w.log.enqueued)
    && (forall s :: s in w.log.sends ==> s.id in w.log.enqueued)
    && (forall id :: id in w.log.superseded ==> id in w.log.enqueued)
    && (forall x :: x in Held(w.stored) && x.id in w.log.superseded ==> x.superseded)
    && (!Readable(w.stored) ==> w.log.sends == [] && (w.flush.Some? ==> GoesNowhere(w.flush.value)))
  }

  /** `x` is what the flush may send now: stored under that id, or gone. */
  ghost predicate Sendable(w: World, x: Item) {
    && x.captureId.Some? && x.id in w.log.enqueued
    && (forall s :: s in w.log.sends && s.id == x.id ==> s == SendOf(x))
    && (forall y :: y in Held(w.stored) && y.id == x.id ==> y.captureId == x.captureId)
    && (!x.superseded ==> x.id !in w.log.superseded)
  }

  predicate HasItem(f: Flush) {
    f.step.Sending? || f.step.Superseding? || f.step.Removing?
  }

  ghost predicate FlushFits(w: World, f: Flush) {
    && (forall x :: x in f.snapshot ==> x.id in w.log.enqueued)
    && (f.step.Preparing? || HasItem(f) ==> f.next < |f.snapshot|)
    && (HasItem(f) ==> f.step.item.captureId.Some? && f.step.item.id == f.snapshot[f.next].id
                       && SendOf(f.step.item) in w.log.sends)
    && (f.step.Removing? ==> SendOf(f.step.item) in w.log.acked)
    && (f.reply.Some? && f.reply.value.Loaded? ==> forall x :: x in f.reply.value.queue ==> x.id in w.log.enqueued)
    && (f.reply.Some? && f.step.Preparing? && f.reply.value.Prepared? && f.reply.value.item.Some? ==>
          Sendable(w, f.reply.value.item.value) && f.reply.value.item.value.id == f.snapshot[f.next].id)
  }

  ghost predicate Inv(w: World) {
    Conserved(w) && OneIdentity(w) && Known(w) && (w.flush.Some? ==> FlushFits(w, w.flush.value))
  }

  /** The world after `op` happened, before anyone looks at the answer. */
  function Done(w: World, op: Op): World {
    var (s, r) := Execute(op, w.stored);
    World(s, w.flush, LogOp(w.log, op, w.stored, r))
  }

  /** The flush never supersedes or removes but what it sent. */
  ghost predicate Licensed(w: World, op: Op) {
    match op
    case Remove(id, captureId) => Send(id, captureId) in w.log.acked
    case Supersede(id, captureId) => id in w.log.enqueued
    case _ => IsNew(w.log, op)
  }

  lemma OpsConserve(w: World, op: Op)
    requires Inv(w) && Licensed(w, op)
    ensures Conserved(Done(w, op))
  {
    forall id | id in Done(w, op).log.enqueued
      ensures AccountedFor(Done(w, op), id)
    {
      if id in w.log.enqueued {
        OpAccountsFor(w, op, id);
      } else {
        NewItemIsStored(w, op);
      }
    }
  }

  lemma NewItemIsStored(w: World, op: Op)
    requires Inv(w) && op.Enqueue? && IsNew(w.log, op) && Execute(op, w.stored).1 == Changed(true)
    ensures IsStored(Held(Done(w, op).stored), op.item.id)
  {
    OperationsMeanWhatTheySay(op, w.stored);
    assert op.item in Held(Done(w, op).stored);
  }

  lemma OpAccountsFor(w: World, op: Op, id: nat)
    requires Inv(w) && Licensed(w, op) && id in w.log.enqueued
    ensures AccountedFor(Done(w, op), id)
  {
    assert AccountedFor(w, id);
    if IsStored(Held(w.stored), id) {
      var x :| x in Held(w.stored) && x.id == id;
      if op.Clear? {
        assert id in Done(w, op).log.dropped;
      } else if Readable(w.stored) {
        OperationsMeanWhatTheySay(op, w.stored);
        ItemGoesWhere(op, Held(w.stored), Held(Done(w, op).stored), Execute(op, w.stored).1, x);
        if op.Remove? && Matches(x, op.id, Some(op.captureId)) {
          assert Send(op.id, op.captureId) in w.log.acked;
        }
      }
    }
  }

  /** Where one stored item is after an operation. */
  lemma ItemGoesWhere(op: Op, a: set<Item>, b: set<Item>, r: Reply, x: Item)
    requires Acts(op, a, b, r) && x in a && !op.Clear?
    ensures || IsStored(b, x.id)
            || (op.Remove? && r == Changed(true) && Matches(x, op.id, Some(op.captureId)))
            || (op.Discard? && r == Changed(true) && op.id == x.id)
  {
    if x !in b {
      match op
      case Prepare(_, _) => assert r.item.value in b;
      case Supersede(_, _) =>
        var z :| z in a && Matches(z, op.id, Some(op.captureId)) && b == a - {z} + {z.(superseded := true)};
        assert z.(superseded := true) in b;
      case _ =>
    }
  }

  /** What a stored item was before an operation: itself, but for a first capture id or a
      superseded mark, unless it was just enqueued. */
  ghost predicate ComesFrom(op: Op, r: Reply, x: Item, y: Item) {
    && y.id == x.id && (x.superseded ==> y.superseded)
    && (y.captureId == x.captureId || (op.Prepare? && op.id == x.id && x.captureId.None? && r == Prepared(Some(y))))
    && (op.Supersede? && r == Changed(true) && op.id == x.id ==> y.superseded)
    && (y.superseded ==> x.superseded || (op.Supersede? && r == Changed(true) && op.id == x.id))
  }

  lemma ItemComesFrom(op: Op, a: set<Item>, b: set<Item>, r: Reply, y: Item)
    requires Acts(op, a, b, r) && y in b
    requires forall p, q :: p in a && q in a && p.id == q.id ==> p == q
    ensures (op.Enqueue? && y == op.item && r == Changed(true)) || exists x :: x in a && ComesFrom(op, r, x, y)
  {
    match op
    case Prepare(id, newId) =>
      if y !in a {
        var x :| x in a && x.id == id && b == a - {x} + {r.item.value};
        assert ComesFrom(op, r, x, y);
      } else {
        assert ComesFrom(op, r, y, y);
      }
    case Supersede(id, captureId) =>
      if r == Changed(true) {
        var x :| x in a && Matches(x, id, Some(captureId)) && b == a - {x} + {x.(superseded := true)};
        if y == x.(superseded := true) {
          assert ComesFrom(op, r, x, y);
        } else {
          assert ComesFrom(op, r, y, y);
        }
      } else {
        assert ComesFrom(op, r, y, y);
      }
    case _ =>
      if y in a {
        assert ComesFrom(op, r, y, y);
      }
  }

  lemma UniqueInSet(s: Stored)
    requires Readable(s)
    ensures forall p, q :: p in Held(s) && q in Held(s) && p.id == q.id ==> p == q
  {
  }

  lemma OpsKeepIdentity(w: World, op: Op)
    requires Inv(w) && Licensed(w, op)
    ensures OneIdentity(Done(w, op))
    ensures forall x :: x in Held(Done(w, op).stored) ==> x.id in Done(w, op).log.enqueued
    ensures forall x :: x in Held(Done(w, op).stored) && x.id in Done(w, op).log.superseded ==> x.superseded
    ensures Readable(w.stored) ==> Readable(Done(w, op).stored)
    ensures !Readable(w.stored) ==> op.Clear? || (Done(w, op).stored == w.stored && Execute(op, w.stored).1 == Failed)
  {
    if Readable(w.stored) {
      OperationsMeanWhatTheySay(op, w.stored);
      UniqueInSet(w.stored);
      forall y | y in Held(Done(w, op).stored)
        ensures y.id in Done(w, op).log.enqueued
        ensures y.id in Done(w, op).log.superseded ==> y.superseded
        ensures forall s :: s in w.log.sends && y.id == s.id ==> y.captureId == Some(s.captureId)
      {
        ItemComesFrom(op, Held(w.stored), Held(Done(w, op).stored), Execute(op, w.stored).1, y);
      }
    }
  }

  /** An item that may be sent stays so through outside operations. */
  lemma StaysSendable(w: World, op: Op, x: Item)
    requires Inv(w) && Licensed(w, op) && IsOutside(op) && Sendable(w, x)
    ensures Sendable(Done(w, op), x)
  {
    if Readable(w.stored) {
      OperationsMeanWhatTheySay(op, w.stored);
      UniqueInSet(w.stored);
      forall y | y in Held(Done(w, op).stored) && y.id == x.id
        ensures y.captureId == x.captureId
      {
        ItemComesFrom(op, Held(w.stored), Held(Done(w, op).stored), Execute(op, w.stored).1, y);
      }
    }
  }

  /** What a flush gets ready is sendable. */
  lemma PreparedIsSendable(w: World, op: Op, x: Item)
    requires Inv(w) && op.Prepare? && Execute(op, w.stored).1 == Prepared(Some(x))
    ensures Sendable(Done(w, op), x) && x.id == op.id
  {
    OpsKeepIdentity(w, op);
    OperationsMeanWhatTheySay(op, w.stored);
    UniqueInSet(Done(w, op).stored);
    assert x in Held(Done(w, op).stored);
  }

  lemma OutsideKeepsInv(w: World, op: Op)
    requires Inv(w) && IsOutside(op) && IsNew(w.log, op)
    ensures Inv(Done(w, op))
  {
    OpsConserve(w, op);
    OpsKeepIdentity(w, op);
    if w.flush.Some? {
      var f := w.flush.value;
      if f.reply.Some? && f.step.Preparing? && f.reply.value.Prepared? && f.reply.value.item.Some? {
        StaysSendable(w, op, f.reply.value.item.value);
      }
    }
  }

  lemma FlushOpKeepsInv(w: World)
    requires Inv(w) && WaitsForOp(w.flush)
    ensures Inv(Apply(w, OpHappens))
  {
    var f := w.flush.value;
    var op := OpOf(f).value;
    OpsConserve(w, op);
    OpsKeepIdentity(w, op);
    var r := Execute(op, w.stored).1;
    if r.Prepared? && r.item.Some? {
      PreparedIsSendable(w, op, r.item.value);
    }
    if Readable(w.stored) {
      OperationsMeanWhatTheySay(op, w.stored);
    }
  }

  lemma GoingKeepsInv(w: World, newId: nat)
    requires Inv(w) && Enabled(w, Goes(newId))
    ensures Inv(Apply(w, Goes(newId)))
  {
    var f := w.flush.value;
    var g := Continue(f, newId);
    if g.step.Sending? && !f.step.Sending? {
      SendingKeepsInv(w, g.step.item);
    } else {
      NotSendingKeepsInv(w, newId);
    }
  }

  lemma SendingKeepsInv(w: World, x: Item)
    requires Inv(w) && w.flush.Some? && w.flush.value.step.Preparing?
    requires w.flush.value.reply == Some(Prepared(Some(x))) && !x.superseded
    ensures Inv(World(w.stored, Some(w.flush.value.(step := Sending(x), reply := None)),
                      w.log.(sends := w.log.sends + [SendOf(x)])))
  {
    var f := w.flush.value;
    var v := World(w.stored, Some(f.(step := Sending(x), reply := None)), w.log.(sends := w.log.sends + [SendOf(x)]));
    assert Sendable(w, x);
    assert forall s :: s in v.log.sends <==> s in w.log.sends || s == SendOf(x);
    assert forall id :: AccountedFor(w, id) ==> AccountedFor(v, id);
    assert OneIdentity(v);
  }

  lemma NotSendingKeepsInv(w: World, newId: nat)
    requires Inv(w) && Enabled(w, Goes(newId))
    requires var g := Continue(w.flush.value, newId); g.step.Sending? ==> w.flush.value.step.Sending?
    ensures Inv(Apply(w, Goes(newId)))
  {
    var v := Apply(w, Goes(newId));
    assert v.log == w.log && v.stored == w.stored;
    assert forall id :: AccountedFor(w, id) ==> AccountedFor(v, id);
  }

  lemma StepKeepsInv(w: World, e: Event)
    requires Inv(w) && Enabled(w, e)
    ensures Inv(Apply(w, e))
  {
    match e
    case Outside(op) => OutsideKeepsInv(w, op);
    case OpHappens => FlushOpKeepsInv(w);
    case Goes(newId) => GoingKeepsInv(w, newId);
    case _ =>
      assert Held(Apply(w, e).stored) == Held(w.stored);
      assert forall id :: AccountedFor(w, id) ==> AccountedFor(Apply(w, e), id);
  }

  lemma StartHasInv(w: World)
    requires IsStart(w)
    ensures Inv(w)
  {
    assert forall x :: x in Held(w.stored) ==> x.id in w.log.enqueued;
  }

  lemma {:induction false} RunsKeepInv(run: seq<World>, i: nat)
    requires IsRun(run) && i < |run|
    ensures Inv(run[i])
  {
    if i == 0 {
      StartHasInv(run[0]);
    } else {
      RunsKeepInv(run, i - 1);
      assert StepAt(run, i);
      var e :| Enabled(run[i - 1], e) && run[i] == Apply(run[i - 1], e);
      StepKeepsInv(run[i - 1], e);
    }
  }

  /** Nothing is lost: at every moment of every run, each item ever stored is still stored, or
      was acknowledged under the only capture id it was ever sent with, or was discarded or
      cleared. */
  lemma QueueIsConserved(run: seq<World>, i: nat, id: nat)
    requires IsRun(run) && i < |run| && id in run[i].log.enqueued
    ensures || IsStored(Held(run[i].stored), id)
            || (exists s :: s in run[i].log.acked && s.id == id
                  && forall t :: t in run[i].log.sends && t.id == id ==> t == s)
            || id in run[i].log.dropped
  {
    RunsKeepInv(run, i);
    assert AccountedFor(run[i], id);
    if IsAcked(run[i].log.acked, id) {
      var s :| s in run[i].log.acked && s.id == id;
      assert s in run[i].log.sends;
    }
  }

  lemma LogsOnlyGrow(w: World, e: Event)
    requires Enabled(w, e)
    ensures w.log.sends <= Apply(w, e).log.sends
    ensures w.log.enqueued <= Apply(w, e).log.enqueued && w.log.superseded <= Apply(w, e).log.superseded
  {
  }

  /** A step sends nothing that was marked superseded before it. */
  lemma NoSupersededSend(w: World, e: Event, id: nat)
    requires Inv(w) && Enabled(w, e) && id in w.log.superseded
    ensures SendsWithout(w.log.sends, Apply(w, e).log.sends, id)
  {
  }

  /** `b` goes on from `a` without sending `id`. */
  ghost predicate SendsWithout(a: seq<Send>, b: seq<Send>, id: nat) {
    a <= b && forall k :: |a| <= k < |b| ==> b[k].id != id
  }

  lemma SendsWithoutTwice(a: seq<Send>, b: seq<Send>, c: seq<Send>, id: nat)
    requires SendsWithout(a, b, id) && SendsWithout(b, c, id)
    ensures SendsWithout(a, c, id)
  {
    assert forall k :: 0 <= k < |b| ==> c[k] == b[k];
  }

  /** An item once marked superseded is never sent again, in this life of the worker or any
      later one. */
  lemma {:induction false} SupersededIsNeverSentAgain(run: seq<World>, i: nat, j: nat, id: nat)
    requires IsRun(run) && i <= j < |run| && id in run[i].log.superseded
    ensures id in run[j].log.superseded && SendsWithout(run[i].log.sends, run[j].log.sends, id)
  {
    if i < j {
      SupersededIsNeverSentAgain(run, i, j - 1, id);
      RunsKeepInv(run, j - 1);
      assert StepAt(run, j);
      var e :| Enabled(run[j - 1], e) && run[j] == Apply(run[j - 1], e);
      LogsOnlyGrow(run[j - 1], e);
      NoSupersededSend(run[j - 1], e, id);
      SendsWithoutTwice(run[i].log.sends, run[j - 1].log.sends, run[j].log.sends, id);
    }
  }

  /** The flush's own operations take out, at most, items of the snapshot it began with. */
  lemma FlushRemovesOnlyItsSnapshot(w: World, x: Item)
    requires Inv(w) && WaitsForOp(w.flush) && x in Held(w.stored)
    requires forall y :: y in w.flush.value.snapshot ==> y.id != x.id
    ensures IsStored(Held(Apply(w, OpHappens).stored), x.id)
  {
    var op := OpOf(w.flush.value).value;
    if Readable(w.stored) {
      OperationsMeanWhatTheySay(op, w.stored);
      ItemGoesWhere(op, Held(w.stored), Held(Apply(w, OpHappens).stored), Execute(op, w.stored).1, x);
    }
  }

  /** The snapshot of a flush past its first load never changes, so an item enqueued since then
      is never in it. */
  lemma {:induction false} EnqueuedDuringFlushIsNotInSnapshot(run: seq<World>, i: nat, j: nat, id: nat)
    requires IsRun(run) && i <= j < |run| && id !in run[i].log.enqueued
    requires forall k :: i <= k <= j ==> run[k].flush.Some? && !run[k].flush.value.step.Loading?
    ensures run[j].flush.value.snapshot == run[i].flush.value.snapshot
    ensures forall x :: x in run[j].flush.value.snapshot ==> x.id != id
  {
    if i < j {
      EnqueuedDuringFlushIsNotInSnapshot(run, i, j - 1, id);
      assert StepAt(run, j);
    } else {
      RunsKeepInv(run, i);
    }
  }
}
