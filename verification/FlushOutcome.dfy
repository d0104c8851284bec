/** What a flush accomplishes: what it reports is what the server and the storage told it, what the
    server took is gone from the storage, and nothing is marked but by the server's word. */
module FlushOutcome {
  import opened Wrappers
  import opened CaptureStore
  import opened AtomicQueue

  // ---- what a flush was told --------------------------------------------------------------

  /** The sends that the server took, in order. */
  function Taken(got: seq<Note>): seq<Send> {
    if got == [] then []
    else
      var n := got[|got| - 1];
      Taken(got[..|got| - 1]) + (if n.Answer? && n.outcome == Delivered then [n.send] else [])
  }

  /** The sends that the server answered, in order. */
  function Sent(got: seq<Note>): seq<Send> {
    if got == [] then []
    else
      var n := got[|got| - 1];
      Sent(got[..|got| - 1]) + (if n.Answer? then [n.send] else [])
  }

  predicate IsRefusal(n: Note) { n.Answer? && n.outcome == NotDelivered }

  predicate IsTrouble(n: Note) { n.FoundMarked? || n.KeptMarked? || IsRefusal(n) }

  ghost predicate Refused(got: seq<Note>) { exists n :: n in got && IsRefusal(n) }

  ghost predicate Troubled(got: seq<Note>) { exists n :: n in got && IsTrouble(n) }

  /** The item was answered for, was marked already, or was gone before its turn came. */
  predicate Handles(n: Note, id: nat) {
    match n
    case Answer(send, outcome) => send.id == id && outcome != NotDelivered
    case NotFound(i) => i == id
    case FoundMarked(i) => i == id
    case KeptMarked(_) => false
  }

  ghost predicate Handled(got: seq<Note>, id: nat) { exists n :: n in got && Handles(n, id) }

  /** The sends are of different items of `q[..n]`, in its order. */
  ghost predicate InOrderOf(sends: seq<Send>, q: seq<Item>, n: nat) {
    exists places :: Places(places, sends, q, n)
  }

  predicate Places(places: seq<nat>, sends: seq<Send>, q: seq<Item>, n: nat) {
    && |places| == |sends| && n <= |q|
    && (forall k :: 0 <= k < |places| ==> places[k] < n && q[places[k]].id == sends[k].id)
    && forall k, l :: 0 <= k < l < |places| ==> places[k] < places[l]
  }

  lemma MorePlaces(sends: seq<Send>, q: seq<Item>, n: nat, m: nat)
    requires InOrderOf(sends, q, n) && n <= m <= |q|
    ensures InOrderOf(sends, q, m)
  {
    var places :| Places(places, sends, q, n);
    assert Places(places, sends, q, m);
  }

  lemma OnePlaceMore(sends: seq<Send>, more: seq<Send>, q: seq<Item>, n: nat, s: Send)
    requires InOrderOf(sends, q, n) && n < |q| && q[n].id == s.id
    requires more == sends || more == sends + [s]
    ensures InOrderOf(more, q, n + 1)
  {
    var places :| Places(places, sends, q, n);
    if more == sends {
      assert Places(places, sends, q, n + 1);
    } else {
      var longer := places + [n];
      assert longer[..|places|] == places && more[..|sends|] == sends;
      assert Places(longer, more, q, n + 1);
    }
  }

  lemma OneNoteMore(got: seq<Note>, n: Note)
    ensures Taken(got + [n]) == if n.Answer? && n.outcome == Delivered then Taken(got) + [n.send] else Taken(got)
    ensures Sent(got + [n]) == if n.Answer? then Sent(got) + [n.send] else Sent(got)
    ensures Refused(got + [n]) <==> Refused(got) || IsRefusal(n)
    ensures Troubled(got + [n]) <==> Troubled(got) || IsTrouble(n)
    ensures forall id :: Handled(got + [n], id) <==> Handled(got, id) || Handles(n, id)
  {
    var more := got + [n];
    assert more[..|got|] == got && n in more;
    assert forall m :: m in more <==> m in got || m == n;
  }

  // ---- the running flush --------------------------------------------------------------------

  /** How much of the snapshot has been sent. */
  function Upto(f: Flush): nat {
    if f.step.Superseding? || f.step.Removing? || (f.step.Recounting? && f.next < |f.snapshot|) then f.next + 1 else f.next
  }

  /** The flush has an answer before it that will set its failure. */
  predicate TroubleAhead(f: Flush) {
    && f.reply.Some?
    && ((f.step.Preparing? && f.reply.value.Prepared? && f.reply.value.item.Some? && f.reply.value.item.value.superseded)
        || (f.step.Superseding? && f.reply.value == Changed(true)))
  }

  /** The report so far is exactly what the flush was told. */
  ghost predicate ReportFits(f: Flush, got: seq<Note>) {
    && Taken(got) == f.acks + (if f.step.Removing? then [SendOf(f.step.item)] else [])
    && (Troubled(got) <==> f.failure || TroubleAhead(f))
    && (f.step.Superseding? ==> Answer(SendOf(f.step.item), SupersededByServer) in got)
    && (f.step.Removing? ==> Answer(SendOf(f.step.item), Delivered) in got)
  }

  /** Every item whose turn is over is settled, and a failed delivery ends the turns. */
  ghost predicate TurnsFit(f: Flush, got: seq<Note>) {
    && f.next <= |f.snapshot| && Upto(f) <= |f.snapshot|
    && (f.step.Loading? ==> got == [] && f.snapshot == [] && f.next == 0)
    && (forall k :: 0 <= k < f.next ==> Handled(got, f.snapshot[k].id))
    && (Upto(f) == f.next + 1 && !f.step.Recounting? ==> Handled(got, f.snapshot[f.next].id))
    && (f.step.Preparing? && f.reply.Some? && f.next < |f.snapshot| && Settles(f.reply.value) ==> Handled(got, f.snapshot[f.next].id))
    && (Refused(got) ==> f.step.Recounting?)
    && (f.step.Recounting? && !Refused(got) ==> f.next == |f.snapshot|)
  }

  /** Each item of the snapshot is sent once at most, in its order. */
  ghost predicate OrderFits(f: Flush, got: seq<Note>) {
    SentInOrder(f, Sent(got), Taken(got))
  }

  ghost predicate SentInOrder(f: Flush, sent: seq<Send>, taken: seq<Send>) {
    Upto(f) <= |f.snapshot| && InOrderOf(sent, f.snapshot, Upto(f)) && InOrderOf(taken, f.snapshot, Upto(f))
  }

  /** The storage has nothing to send under this id. */
  predicate Settles(r: Reply) {
    r.Prepared? && (r.item.None? || r.item.value.superseded)
  }

  /** An answer is of the kind that its operation gives, unless the operation failed. */
  predicate ReplyFits(f: Flush) {
    f.reply.Some? && !f.reply.value.Failed? ==>
      match f.step
      case Preparing(_) => f.reply.value.Prepared?
      case Superseding(_) => f.reply.value.Changed?
      case Removing(_) => f.reply.value.Changed?
      case Sending(_) => false
      case Ended(_) => false
      case _ => f.reply.value.Loaded?
  }

  /** What was acknowledged has left the storage. */
  ghost predicate TakenAreGone(w: World, f: Flush) {
    && (forall s :: s in f.acks ==> s.id in w.log.enqueued && !IsStored(Held(w.stored), s.id))
    && (f.step.Removing? && f.reply.Some? && f.reply.value.Changed? ==> !IsStored(Held(w.stored), f.step.item.id))
  }

  /** The flush under way, whose notes begin at `since`. */
  ghost predicate Tally(w: World, since: nat) {
    && w.flush.Some? && since <= |w.log.trail|
    && ReportFits(w.flush.value, w.log.trail[since..]) && TurnsFit(w.flush.value, w.log.trail[since..])
    && OrderFits(w.flush.value, w.log.trail[since..]) && TakenAreGone(w, w.flush.value) && ReplyFits(w.flush.value)
  }

  lemma BeginsATally(w: World)
    requires Enabled(w, Begin)
    ensures Tally(Apply(w, Begin), |w.log.trail|)
  {
    var got := w.log.trail[|w.log.trail|..];
    assert got == [];
    assert Places([], [], [], 0);
  }

  /** An id that has left the storage never comes back. */
  lemma GoneStaysGone(w: World, op: Op, id: nat)
    requires Inv(w) && Licensed(w, op) && id in w.log.enqueued && !IsStored(Held(w.stored), id)
    ensures !IsStored(Held(Done(w, op).stored), id)
  {
    if Readable(w.stored) {
      OperationsMeanWhatTheySay(op, w.stored);
      UniqueInSet(w.stored);
      forall y | y in Held(Done(w, op).stored) ensures y.id != id {
        ItemComesFrom(op, Held(w.stored), Held(Done(w, op).stored), Execute(op, w.stored).1, y);
      }
    }
  }

  /** Taking out what was sent leaves nothing under its id. */
  lemma RemovedIsGone(w: World, x: Item)
    requires Inv(w) && SendOf(x) in w.log.acked && Execute(Remove(x.id, SendOf(x).captureId), w.stored).1.Changed?
    ensures !IsStored(Held(Done(w, Remove(x.id, SendOf(x).captureId)).stored), x.id)
  {
    var op := Remove(x.id, SendOf(x).captureId);
    OperationsMeanWhatTheySay(op, w.stored);
    UniqueInSet(w.stored);
    forall y | y in Held(w.stored) && y.id == x.id ensures Matches(y, x.id, Some(op.captureId)) {
      assert SendOf(x) in w.log.sends;
    }
  }

  lemma NothingTold(w: World, v: World, since: nat)
    requires Tally(w, since) && v.flush == w.flush && v.log.trail == w.log.trail && TakenAreGone(v, v.flush.value)
    ensures Tally(v, since)
  {
  }

  lemma OutsideKeepsTally(w: World, op: Op, since: nat)
    requires Inv(w) && Tally(w, since) && Enabled(w, Outside(op))
    ensures Tally(Done(w, op), since)
  {
    TakenStayGone(w, op);
    NothingTold(w, Done(w, op), since);
  }

  /** No operation, the flush's own included, brings back what was taken. */
  lemma TakenStayGone(w: World, op: Op)
    requires Inv(w) && w.flush.Some? && TakenAreGone(w, w.flush.value) && Licensed(w, op)
    ensures TakenAreGone(Done(w, op), w.flush.value)
  {
    var f := w.flush.value;
    forall s | s in f.acks ensures !IsStored(Held(Done(w, op).stored), s.id) {
      GoneStaysGone(w, op, s.id);
    }
    if f.step.Removing? && f.reply.Some? && f.reply.value.Changed? {
      GoneStaysGone(w, op, f.step.item.id);
    }
  }

  lemma NotesAreNoAnswers(op: Op, r: Reply, got: seq<Note>)
    ensures Sent(got + Notes(op, r)) == Sent(got) && Taken(got + Notes(op, r)) == Taken(got)
    ensures forall s, o :: Answer(s, o) in got + Notes(op, r) <==> Answer(s, o) in got
  {
    if Notes(op, r) == [] {
      assert got + [] == got;
    } else {
      OneNoteMore(got, Notes(op, r)[0]);
    }
  }

  /** A note of trouble is one that the flush will look at. */
  lemma TroubleIsAhead(f: Flush, r: Reply, got: seq<Note>)
    requires f.reply.None? && OpOf(f).Some?
    ensures Troubled(got + Notes(OpOf(f).value, r)) <==> Troubled(got) || TroubleAhead(f.(reply := Some(r)))
  {
    var notes := Notes(OpOf(f).value, r);
    assert (exists n :: n in notes && IsTrouble(n)) <==> TroubleAhead(f.(reply := Some(r))) by {
      assert notes != [] ==> notes[0] in notes;
    }
    if notes == [] {
      assert got + [] == got;
    } else {
      OneNoteMore(got, notes[0]);
    }
  }

  /** An operation's answer, before the flush looks at it. */
  lemma OpKeepsReport(f: Flush, r: Reply, got: seq<Note>)
    requires f.reply.None? && OpOf(f).Some? && ReportFits(f, got)
    ensures ReportFits(f.(reply := Some(r)), got + Notes(OpOf(f).value, r))
  {
    NotesAreNoAnswers(OpOf(f).value, r, got);
    TroubleIsAhead(f, r, got);
  }

  lemma OpKeepsTurns(f: Flush, r: Reply, got: seq<Note>)
    requires f.reply.None? && OpOf(f).Some? && TurnsFit(f, got)
    ensures TurnsFit(f.(reply := Some(r)), got + Notes(OpOf(f).value, r))
  {
    if Notes(OpOf(f).value, r) == [] {
      assert got + [] == got;
    } else {
      OneNoteMore(got, Notes(OpOf(f).value, r)[0]);
    }
  }

  lemma OpKeepsOrder(f: Flush, r: Reply, got: seq<Note>)
    requires f.reply.None? && OpOf(f).Some? && OrderFits(f, got)
    ensures OrderFits(f.(reply := Some(r)), got + Notes(OpOf(f).value, r))
  {
    NotesAreNoAnswers(OpOf(f).value, r, got);
    assert SentInOrder(f.(reply := Some(r)), Sent(got), Taken(got));
  }

  lemma OpGivesItsKind(f: Flush, s: Stored)
    requires OpOf(f).Some?
    ensures ReplyFits(f.(reply := Some(Execute(OpOf(f).value, s).1)))
  {
  }

  lemma OpKeepsTakenGone(w: World)
    requires Inv(w) && Enabled(w, OpHappens) && TakenAreGone(w, w.flush.value)
    ensures TakenAreGone(Apply(w, OpHappens), Apply(w, OpHappens).flush.value)
  {
    var f := w.flush.value;
    var op := OpOf(f).value;
    TakenStayGone(w, op);
    if f.step.Removing? && Execute(op, w.stored).1.Changed? {
      RemovedIsGone(w, f.step.item);
    }
  }

  lemma OpKeepsTally(w: World, since: nat)
    requires Inv(w) && Tally(w, since) && Enabled(w, OpHappens)
    ensures Tally(Apply(w, OpHappens), since)
  {
    var f, got := w.flush.value, w.log.trail[since..];
    var r := Execute(OpOf(f).value, w.stored).1;
    OpKeepsReport(f, r, got);
    OpKeepsTurns(f, r, got);
    OpKeepsOrder(f, r, got);
    OpGivesItsKind(f, w.stored);
    OpKeepsTakenGone(w);
    var v, notes := Apply(w, OpHappens), Notes(OpOf(f).value, r);
    assert v.flush.value == f.(reply := Some(r)) && v.log.trail == w.log.trail + notes;
    LaterNotes(w.log.trail, notes, since);
  }

  lemma LaterNotes(trail: seq<Note>, notes: seq<Note>, since: nat)
    requires since <= |trail|
    ensures (trail + notes)[since..] == trail[since..] + notes
  {
  }

  lemma AnswerKeepsReport(f: Flush, o: Outcome, got: seq<Note>)
    requires f.step.Sending? && f.reply.None? && ReportFits(f, got)
    ensures ReportFits(Answered(f, o), got + [Answer(SendOf(f.step.item), o)])
  {
    OneNoteMore(got, Answer(SendOf(f.step.item), o));
  }

  lemma AnswerKeepsTurns(f: Flush, o: Outcome, got: seq<Note>)
    requires f.step.Sending? && f.reply.None? && TurnsFit(f, got)
    requires f.next < |f.snapshot| && f.step.item.id == f.snapshot[f.next].id
    ensures TurnsFit(Answered(f, o), got + [Answer(SendOf(f.step.item), o)])
  {
    OneNoteMore(got, Answer(SendOf(f.step.item), o));
  }

  lemma OneMoreSent(f: Flush, o: Outcome, sent: seq<Send>, taken: seq<Send>)
    requires f.step.Sending? && f.next < |f.snapshot| && f.step.item.id == f.snapshot[f.next].id
    requires SentInOrder(f, sent, taken)
    ensures SentInOrder(Answered(f, o), sent + [SendOf(f.step.item)], if o == Delivered then taken + [SendOf(f.step.item)] else taken)
  {
    var send := SendOf(f.step.item);
    OnePlaceMore(sent, sent + [send], f.snapshot, f.next, send);
    OnePlaceMore(taken, if o == Delivered then taken + [send] else taken, f.snapshot, f.next, send);
  }

  lemma AnswerKeepsOrder(f: Flush, o: Outcome, got: seq<Note>)
    requires f.step.Sending? && f.reply.None? && OrderFits(f, got)
    requires f.next < |f.snapshot| && f.step.item.id == f.snapshot[f.next].id
    ensures OrderFits(Answered(f, o), got + [Answer(SendOf(f.step.item), o)])
  {
    OneNoteMore(got, Answer(SendOf(f.step.item), o));
    OneMoreSent(f, o, Sent(got), Taken(got));
  }

  lemma AnswerKeepsTally(w: World, o: Outcome, since: nat)
    requires Inv(w) && Tally(w, since) && Enabled(w, Answers(o))
    ensures Tally(Apply(w, Answers(o)), since)
  {
    var f, got := w.flush.value, w.log.trail[since..];
    AnswerKeepsReport(f, o, got);
    AnswerKeepsTurns(f, o, got);
    AnswerKeepsOrder(f, o, got);
    LaterNotes(w.log.trail, [Answer(SendOf(f.step.item), o)], since);
  }

  lemma GoingKeepsReport(f: Flush, newId: nat, got: seq<Note>)
    requires f.reply.Some? && ReportFits(f, got) && !Continue(f, newId).step.Ended?
    ensures ReportFits(Continue(f, newId), got)
  {
  }

  lemma GoingKeepsTurns(f: Flush, newId: nat, got: seq<Note>)
    requires f.reply.Some? && TurnsFit(f, got) && !Continue(f, newId).step.Ended? && !f.step.Sending?
    requires f.step.Preparing? ==> f.next < |f.snapshot|
    ensures TurnsFit(Continue(f, newId), got)
  {
  }

  lemma GoingKeepsOrder(f: Flush, newId: nat, got: seq<Note>)
    requires f.reply.Some? && OrderFits(f, got) && !Continue(f, newId).step.Ended? && !f.step.Sending?
    requires f.step.Preparing? ==> f.next < |f.snapshot|
    requires f.step.Loading? ==> got == []
    ensures OrderFits(Continue(f, newId), got)
  {
    var g := Continue(f, newId);
    if f.step.Loading? {
      assert Places([], [], g.snapshot, 0);
    } else if g.next == f.next + 1 {
      MorePlaces(Sent(got), f.snapshot, Upto(f), g.next);
      MorePlaces(Taken(got), f.snapshot, Upto(f), g.next);
    }
  }

  lemma GoingKeepsTally(w: World, newId: nat, since: nat)
    requires Inv(w) && Tally(w, since) && Enabled(w, Goes(newId)) && Apply(w, Goes(newId)).flush.Some?
    ensures Tally(Apply(w, Goes(newId)), since)
  {
    var f, got := w.flush.value, w.log.trail[since..];
    GoingKeepsReport(f, newId, got);
    GoingKeepsTurns(f, newId, got);
    GoingKeepsOrder(f, newId, got);
  }

  lemma StepKeepsTally(w: World, e: Event, since: nat)
    requires Inv(w) && Tally(w, since) && Enabled(w, e) && Apply(w, e).flush.Some?
    ensures Tally(Apply(w, e), since)
  {
    match e
    case Outside(op) => OutsideKeepsTally(w, op, since);
    case OpHappens => OpKeepsTally(w, since);
    case OpFails =>
    case Goes(newId) => GoingKeepsTally(w, newId, since);
    case Answers(o) => AnswerKeepsTally(w, o, since);
  }

  // ---- the flush that ends ------------------------------------------------------------------

  /** The report `f` of a flush, given what it was told and what is stored. */
  ghost predicate Reports(stored: Stored, f: Flush, got: seq<Note>) {
    && f.acks == Taken(got)
    && (f.failure <==> Troubled(got))
    && (forall s :: s in f.acks ==> !IsStored(Held(stored), s.id))
    && (!Refused(got) ==> forall x :: x in f.snapshot ==> Handled(got, x.id))
    && InOrderOf(f.acks, f.snapshot, |f.snapshot|) && InOrderOf(Sent(got), f.snapshot, |f.snapshot|)
  }

  lemma EndsOnlyOnFailure(f: Flush, newId: nat, got: seq<Note>)
    requires f.reply.Some? && ReplyFits(f) && TurnsFit(f, got)
    requires f.step.Preparing? ==> f.next < |f.snapshot|
    ensures Continue(f, newId).step == Ended(false) <==> f.reply.value.Failed?
    ensures Continue(f, newId).step == Ended(true) ==>
              f.step.Recounting? && Continue(f, newId) == f.(step := Ended(true), reply := None)
  {
  }

  /** A flush fails only when an operation fails; otherwise it ends with a true report. */
  lemma EndsWithAReport(w: World, newId: nat, since: nat)
    requires Inv(w) && Tally(w, since) && Enabled(w, Goes(newId))
    ensures var g := Continue(w.flush.value, newId);
            && (g.step == Ended(false) <==> w.flush.value.reply == Some(Failed))
            && (g.step == Ended(true) ==> Reports(w.stored, g, w.log.trail[since..]))
  {
    var f, got := w.flush.value, w.log.trail[since..];
    EndsOnlyOnFailure(f, newId, got);
    if Continue(f, newId).step == Ended(true) {
      MorePlaces(Sent(got), f.snapshot, Upto(f), |f.snapshot|);
      MorePlaces(Taken(got), f.snapshot, Upto(f), |f.snapshot|);
    }
  }

  lemma FollowingKeepsTally(a: World, b: World, since: nat)
    requires Inv(a) && Tally(a, since) && Follows(a, b) && b.flush.Some?
    ensures Tally(b, since)
  {
    var e :| Enabled(a, e) && b == Apply(a, e);
    StepKeepsTally(a, e, since);
  }

  lemma FollowingBeginsATally(a: World, b: World)
    requires a.flush.None? && Follows(a, b) && b.flush.Some?
    ensures Tally(b, |a.log.trail|)
  {
    BeginsATally(a);
  }

  ghost predicate Lasts(run: seq<World>, s: nat, t: nat)
    requires t < |run|
  {
    forall u :: s < u <= t ==> run[u].flush.Some?
  }

  lemma OneStepOfARun(run: seq<World>, t: nat)
    requires IsRun(run) && 0 < t < |run|
    ensures Inv(run[t - 1]) && Follows(run[t - 1], run[t])
  {
    RunsKeepInv(run, t - 1);
    assert StepAt(run, t);
  }

  /** At every moment of a flush of the atomic queue its books are true, since it began at `s`. */
  lemma {:induction false} FlushKeepsTally(run: seq<World>, s: nat, t: nat)
    requires IsRun(run) && s < t < |run| && run[s].flush.None? && Lasts(run, s, t)
    ensures Tally(run[t], |run[s].log.trail|)
  {
    OneStepOfARun(run, t);
    assert run[t].flush.Some?;
    if t == s + 1 {
      FollowingBeginsATally(run[s], run[t]);
    } else {
      FlushKeepsTally(run, s, t - 1);
      FollowingKeepsTally(run[t - 1], run[t], |run[s].log.trail|);
    }
  }

  /** What a flush has read of the storage, looked at or not. */
  function Seen(f: Flush): Option<seq<Item>> {
    if !f.step.Loading? then Some(f.snapshot)
    else if f.reply.Some? && f.reply.value.Loaded? then Some(f.reply.value.queue) else None
  }

  /** A flush works on what was stored, in order of time, at one moment since it began. */
  lemma SnapshotIsRead(w: World, e: Event)
    requires Enabled(w, e) && w.flush.Some? && Apply(w, e).flush.Some? && Seen(Apply(w, e).flush.value).Some?
    ensures Seen(Apply(w, e).flush.value) == Seen(w.flush.value) || Read(w.stored) == Seen(Apply(w, e).flush.value)
  {
  }

  // ---- who marks an item ----------------------------------------------------------------------

  ghost predicate Denied(trail: seq<Note>, id: nat) {
    exists s: Send :: Answer(s, SupersededByServer) in trail && s.id == id
  }

  /** Every mark and every acknowledgement goes back to the server's own answer, but for the marks that
      were there at the beginning. */
  ghost predicate Justified(w: World, marked: set<nat>) {
    && (forall id :: id in w.log.superseded ==> id in marked || Denied(w.log.trail, id))
    && (Readable(w.stored) ==> forall x :: x in Held(w.stored) && x.superseded ==> x.id in w.log.superseded)
    && (forall s :: s in w.log.acked <==> Answer(s, Delivered) in w.log.trail)
    && (w.flush.Some? && w.flush.value.step.Superseding? ==>
          Answer(SendOf(w.flush.value.step.item), SupersededByServer) in w.log.trail)
  }

  /** Only marking marks. */
  lemma MarksComeFromMarking(w: World, op: Op)
    requires Inv(w) && Licensed(w, op) && Readable(w.stored)
    requires forall x :: x in Held(w.stored) && x.superseded ==> x.id in w.log.superseded
    ensures forall x :: x in Held(Done(w, op).stored) && x.superseded ==> x.id in Done(w, op).log.superseded
  {
    var v := Done(w, op);
    OperationsMeanWhatTheySay(op, w.stored);
    UniqueInSet(w.stored);
    forall y | y in Held(v.stored) && y.superseded ensures y.id in v.log.superseded {
      ItemComesFrom(op, Held(w.stored), Held(v.stored), Execute(op, w.stored).1, y);
    }
  }

  lemma OpIsJustified(w: World, op: Op, marked: set<nat>)
    requires Inv(w) && Justified(w, marked) && Licensed(w, op)
    requires op.Supersede? ==> Denied(w.log.trail, op.id)
    ensures Justified(Done(w, op), marked)
  {
    var v := Done(w, op);
    assert v.log.trail == w.log.trail + Notes(op, Execute(op, w.stored).1);
    assert forall s, o :: Answer(s, o) in v.log.trail <==> Answer(s, o) in w.log.trail;
    if Readable(w.stored) {
      MarksComeFromMarking(w, op);
    } else {
      OpsKeepIdentity(w, op);
    }
  }

  lemma StepIsJustified(w: World, e: Event, marked: set<nat>)
    requires Inv(w) && Justified(w, marked) && Enabled(w, e)
    ensures Justified(Apply(w, e), marked)
  {
    match e
    case Outside(op) => OpIsJustified(w, op, marked);
    case OpHappens => OpIsJustified(w, OpOf(w.flush.value).value, marked);
    case Answers(o) =>
      assert forall n :: n in Apply(w, e).log.trail <==> n in w.log.trail || n == Answer(SendOf(w.flush.value.step.item), o);
    case _ =>
  }

  lemma {:induction false} MarksAreJustified(run: seq<World>, i: nat)
    requires IsRun(run) && i < |run|
    ensures Justified(run[i], run[0].log.superseded)
  {
    if i > 0 {
      MarksAreJustified(run, i - 1);
      RunsKeepInv(run, i - 1);
      assert StepAt(run, i);
      var e :| Enabled(run[i - 1], e) && run[i] == Apply(run[i - 1], e);
      StepIsJustified(run[i - 1], e, run[0].log.superseded);
    }
  }
}
