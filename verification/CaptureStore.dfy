/** The persistent capture queue: what each short read/modify/write operation does to the
    stored value.  Nothing here depends on who else uses the storage. */
module CaptureStore {
  import opened Wrappers

  /** `captureId` is missing in items that older versions stored. */
  datatype Item = Item(id: nat, queuedAt: int, capture: nat, captureId: Option<nat>, superseded: bool)

  /** `Unreadable` is a stored value that is no list of items. */
  datatype Stored = Absent | Items(items: seq<Item>) | Unreadable

  const MAX_CAPTURE_QUEUE_SIZE: nat := 25

  datatype Op =
    | Load
    | Enqueue(item: Item)
    | Prepare(id: nat, newId: nat)
    | Supersede(id: nat, captureId: nat)
    | Remove(id: nat, captureId: nat)
    | Discard(id: nat)
    | Clear

  datatype Reply =
    | Failed
    | Loaded(queue: seq<Item>)
    | Prepared(item: Option<Item>)
    | Changed(yes: bool)

  predicate UniqueIds(q: seq<Item>) {
    forall i, j :: 0 <= i < j < |q| ==> q[i].id != q[j].id
  }

  predicate Readable(s: Stored) {
    s.Absent? || (s.Items? && UniqueIds(s.items))
  }

  function Held(s: Stored): set<Item> {
    if s.Items? then set x | x in s.items else {}
  }

  /** The queue is read in order of `queuedAt`, equal times in stored order. */
  function Sorted(q: seq<Item>): seq<Item> {
    if q == [] then [] else InsertLate(Sorted(q[..|q| - 1]), q[|q| - 1])
  }

  function InsertLate(q: seq<Item>, x: Item): seq<Item> {
    if q == [] || q[|q| - 1].queuedAt <= x.queuedAt then q + [x]
    else InsertLate(q[..|q| - 1], x) + [q[|q| - 1]]
  }

  predicate InOrder(q: seq<Item>) {
    forall i, j :: 0 <= i < j < |q| ==> q[i].queuedAt <= q[j].queuedAt
  }

  lemma {:induction false} InsertLateAddsOne(q: seq<Item>, x: Item)
    ensures multiset(InsertLate(q, x)) == multiset(q) + multiset{x}
  {
    if q != [] && q[|q| - 1].queuedAt > x.queuedAt {
      var front, last := q[..|q| - 1], q[|q| - 1];
      assert q == front + [last];
      InsertLateAddsOne(front, x);
    }
  }

  lemma {:induction false} InsertLateKeepsOrder(q: seq<Item>, x: Item)
    requires InOrder(q)
    ensures InOrder(InsertLate(q, x))
  {
    if q != [] && q[|q| - 1].queuedAt > x.queuedAt {
      var front, last := q[..|q| - 1], q[|q| - 1];
      InsertLateKeepsOrder(front, x);
      InsertLateAddsOne(front, x);
      var r := InsertLate(front, x);
      forall y | y in r ensures y.queuedAt <= last.queuedAt {
        assert y in multiset(r);
        assert y in front || y == x;
      }
    }
  }

  /** The items of one moment, in order. */
  function At(q: seq<Item>, time: int): seq<Item> {
    if q == [] then []
    else At(q[..|q| - 1], time) + (if q[|q| - 1].queuedAt == time then [q[|q| - 1]] else [])
  }

  lemma {:induction false} InsertLateIsStable(q: seq<Item>, x: Item, time: int)
    ensures At(InsertLate(q, x), time) == At(q, time) + (if x.queuedAt == time then [x] else [])
  {
    if q == [] || q[|q| - 1].queuedAt <= x.queuedAt {
      assert (q + [x])[..|q|] == q;
    } else {
      var front, last := q[..|q| - 1], q[|q| - 1];
      InsertLateIsStable(front, x, time);
      assert (InsertLate(front, x) + [last])[..|InsertLate(front, x)|] == InsertLate(front, x);
    }
  }

  /** Items of equal time keep their stored order. */
  lemma {:induction false} SortedIsStable(q: seq<Item>, time: int)
    ensures At(Sorted(q), time) == At(q, time)
  {
    if q != [] {
      SortedIsStable(q[..|q| - 1], time);
      InsertLateIsStable(Sorted(q[..|q| - 1]), q[|q| - 1], time);
    }
  }

  lemma {:induction false} SortedIsAPermutation(q: seq<Item>)
    ensures multiset(Sorted(q)) == multiset(q) && |Sorted(q)| == |q|
    ensures InOrder(Sorted(q))
  {
    if q != [] {
      var front := q[..|q| - 1];
      assert q == front + [q[|q| - 1]];
      SortedIsAPermutation(front);
      InsertLateAddsOne(Sorted(front), q[|q| - 1]);
      InsertLateKeepsOrder(Sorted(front), q[|q| - 1]);
    }
    assert |multiset(Sorted(q))| == |multiset(q)|;
  }

  /** What a reader sees, or `None` when the stored value is unusable. */
  function Read(s: Stored): Option<seq<Item>> {
    match s
    case Absent => Some([])
    case Unreadable => None
    case Items(q) => if UniqueIds(q) then Some(Sorted(q)) else None
  }

  predicate Matches(x: Item, id: nat, captureId: Option<nat>) {
    x.id == id && (captureId.Some? ==> x.captureId == captureId)
  }

  /** The first matching position, or the length when there is none. */
  function Find(q: seq<Item>, id: nat, captureId: Option<nat>): (i: nat)
    ensures i <= |q|
    ensures i < |q| ==> Matches(q[i], id, captureId)
    ensures forall j :: 0 <= j < i ==> !Matches(q[j], id, captureId)
  {
    if q == [] || Matches(q[0], id, captureId) then 0 else 1 + Find(q[1..], id, captureId)
  }

  function Without(q: seq<Item>, i: nat): seq<Item>
    requires i < |q|
  {
    q[..i] + q[i + 1..]
  }

  /** One whole operation: the new stored value and the caller's answer. */
  function Execute(op: Op, s: Stored): (Stored, Reply) {
    if op.Clear? then (Absent, Changed(true))
    else match Read(s)
      case None => (s, Failed)
      case Some(q) => Modify(op, s, q)
  }

  function Modify(op: Op, s: Stored, q: seq<Item>): (Stored, Reply) {
    match op
    case Load => (s, Loaded(q))
    case Enqueue(item) =>
      if |q| >= MAX_CAPTURE_QUEUE_SIZE then (s, Failed) else (Items(q + [item]), Changed(true))
    case Prepare(id, newId) =>
      var i := Find(q, id, None);
      if i == |q| then (s, Prepared(None))
      else if q[i].captureId.Some? then (s, Prepared(Some(q[i])))
      else
        var upgraded := q[i].(captureId := Some(newId));
        (Items(q[i := upgraded]), Prepared(Some(upgraded)))
    case Supersede(id, captureId) =>
      var i := Find(q, id, Some(captureId));
      if i == |q| then (s, Changed(false)) else (Items(q[i := q[i].(superseded := true)]), Changed(true))
    case Remove(id, captureId) =>
      var i := Find(q, id, Some(captureId));
      if i == |q| then (s, Changed(false)) else (Items(Without(q, i)), Changed(true))
    case Discard(id) =>
      var i := Find(q, id, None);
      if i == |q| then (s, Changed(false)) else (Items(Without(q, i)), Changed(true))
    case Clear => (Absent, Changed(true))
  }

  lemma SameItemsSortedOrNot(q: seq<Item>)
    requires UniqueIds(q)
    ensures UniqueIds(Sorted(q))
    ensures forall x :: x in Sorted(q) <==> x in q
  {
    SortedIsAPermutation(q);
    var r := Sorted(q);
    forall x
      ensures x in r <==> x in q
    {
      assert x in r <==> x in multiset(r);
      assert x in q <==> x in multiset(q);
    }
    forall i, j | 0 <= i < j < |r| && r[i].id == r[j].id
      ensures false
    {
      SameIdSameItem(q, r[i], r[j]);
      TwiceCountsTwice(r, i, j);
      OnlyOnce(q, r[i]);
    }
  }

  lemma TwiceCountsTwice(r: seq<Item>, i: nat, j: nat)
    requires i < j < |r| && r[i] == r[j]
    ensures multiset(r)[r[i]] >= 2
  {
    assert r == r[..i] + [r[i]] + r[i + 1..j] + [r[j]] + r[j + 1..];
  }

  lemma SameIdSameItem(q: seq<Item>, x: Item, y: Item)
    requires UniqueIds(q) && x in q && y in q && x.id == y.id
    ensures x == y
  {
  }

  lemma {:induction false} OnlyOnce(q: seq<Item>, x: Item)
    requires UniqueIds(q)
    ensures multiset(q)[x] <= 1
  {
    if q != [] {
      var front, last := q[..|q| - 1], q[|q| - 1];
      assert q == front + [last];
      OnlyOnce(front, x);
      if x == last {
        assert x !in front;
      }
    }
  }

  /** What an operation means for the set of stored items, whatever their order. */
  ghost predicate Acts(op: Op, a: set<Item>, b: set<Item>, r: Reply) {
    match op
    case Load => a == b && r.Loaded? && (forall x :: x in r.queue <==> x in a) && InOrder(r.queue)
    case Enqueue(item) =>
      if |a| >= MAX_CAPTURE_QUEUE_SIZE then a == b && r == Failed else b == a + {item} && r == Changed(true)
    case Prepare(id, newId) =>
      || (a == b && r == Prepared(None) && forall x :: x in a ==> x.id != id)
      || (r.Prepared? && r.item.Some? && r.item.value.id == id && r.item.value.captureId.Some? &&
          exists x :: x in a && x.id == id && b == a - {x} + {r.item.value} &&
            r.item.value == if x.captureId.Some? then x else x.(captureId := Some(newId)))
    case Supersede(id, captureId) =>
      || (a == b && r == Changed(false) && forall x :: x in a ==> !Matches(x, id, Some(captureId)))
      || (r == Changed(true) &&
          exists x :: x in a && Matches(x, id, Some(captureId)) && b == a - {x} + {x.(superseded := true)})
    case Remove(id, captureId) =>
      || (a == b && r == Changed(false) && forall x :: x in a ==> !Matches(x, id, Some(captureId)))
      || (r == Changed(true) && exists x :: x in a && Matches(x, id, Some(captureId)) && b == a - {x})
    case Discard(id) =>
      || (a == b && r == Changed(false) && forall x :: x in a ==> x.id != id)
      || (r == Changed(true) && exists x :: x in a && x.id == id && b == a - {x})
    case Clear => b == {} && r == Changed(true)
  }

  lemma ReplacingOne(q: seq<Item>, i: nat, y: Item)
    requires UniqueIds(q) && i < |q| && y.id == q[i].id
    ensures UniqueIds(q[i := y])
    ensures Held(Items(q[i := y])) == Held(Items(q)) - {q[i]} + {y}
  {
    var r := q[i := y];
    forall x
      ensures x in r <==> (x in q && x != q[i]) || x == y
    {
      if x in q && x != q[i] {
        var j :| 0 <= j < |q| && q[j] == x;
        assert r[j] == x;
      }
      assert r[i] == y;
    }
  }

  lemma RemovingOne(q: seq<Item>, i: nat)
    requires UniqueIds(q) && i < |q|
    ensures UniqueIds(Without(q, i))
    ensures Held(Items(Without(q, i))) == Held(Items(q)) - {q[i]}
  {
    var r := Without(q, i);
    forall x
      ensures x in r <==> x in q && x != q[i]
    {
      if x in q && x != q[i] {
        var j :| 0 <= j < |q| && q[j] == x;
        assert r[if j < i then j else j - 1] == x;
      }
    }
  }

  lemma {:induction false} AsManyItemsAsEntries(q: seq<Item>)
    requires UniqueIds(q)
    ensures |Held(Items(q))| == |q|
  {
    if q != [] {
      var front, last := q[..|q| - 1], q[|q| - 1];
      AsManyItemsAsEntries(front);
      assert Held(Items(q)) == Held(Items(front)) + {last};
      assert last !in front;
    }
  }

  /** An operation on an unreadable queue fails and keeps the stored data; only a clear goes on. */
  lemma UnreadableIsKept(op: Op, s: Stored)
    requires !Readable(s) && !op.Clear?
    ensures Execute(op, s) == (s, Failed)
  {
  }

  /** On a readable queue every operation does exactly what it means, and keeps ids unique. */
  lemma OperationsMeanWhatTheySay(op: Op, s: Stored)
    requires Readable(s)
    requires op.Enqueue? ==> forall x :: x in Held(s) ==> x.id != op.item.id
    ensures Readable(Execute(op, s).0)
    ensures Acts(op, Held(s), Held(Execute(op, s).0), Execute(op, s).1)
  {
    if !op.Clear? {
      var stored := if s.Items? then s.items else [];
      SameItemsSortedOrNot(stored);
      SortedIsAPermutation(stored);
      var q := Read(s).value;
      assert Held(Items(q)) == Held(s);
      OperationOnQueue(op, s, q);
    }
  }

  lemma OperationOnQueue(op: Op, s: Stored, q: seq<Item>)
    requires Readable(s) && UniqueIds(q) && InOrder(q) && Held(Items(q)) == Held(s) && !op.Clear?
    requires op.Enqueue? ==> forall x :: x in Held(s) ==> x.id != op.item.id
    ensures Readable(Modify(op, s, q).0)
    ensures Acts(op, Held(s), Held(Modify(op, s, q).0), Modify(op, s, q).1)
  {
    match op
    case Enqueue(_) => EnqueueOnQueue(op, s, q);
    case Prepare(_, _) => PrepareOnQueue(op, s, q);
    case Supersede(_, _) => SupersedeOnQueue(op, s, q);
    case Remove(_, _) => RemoveOnQueue(op, s, q);
    case Discard(_) => DiscardOnQueue(op, s, q);
    case Load => assert forall x :: x in q <==> x in Held(s);
  }

  lemma EnqueueOnQueue(op: Op, s: Stored, q: seq<Item>)
    requires op.Enqueue? && forall x :: x in Held(s) ==> x.id != op.item.id
    requires Readable(s) && UniqueIds(q) && InOrder(q) && Held(Items(q)) == Held(s)
    ensures Readable(Modify(op, s, q).0)
    ensures Acts(op, Held(s), Held(Modify(op, s, q).0), Modify(op, s, q).1)
  {
    AsManyItemsAsEntries(q);
    assert forall x :: x in q ==> x in Held(s);
    assert Held(Items(q + [op.item])) == Held(Items(q)) + {op.item};
  }

  lemma PrepareOnQueue(op: Op, s: Stored, q: seq<Item>)
    requires Readable(s) && UniqueIds(q) && InOrder(q) && Held(Items(q)) == Held(s) && op.Prepare?
    ensures Readable(Modify(op, s, q).0)
    ensures Acts(op, Held(s), Held(Modify(op, s, q).0), Modify(op, s, q).1)
  {
    var i := Find(q, op.id, None);
    assert forall x :: x in Held(s) ==> x in q;
    if i < |q| {
      var y := if q[i].captureId.Some? then q[i] else q[i].(captureId := Some(op.newId));
      ReplacingOne(q, i, y);
      assert q[i] in Held(Items(q)) && q[i := q[i]] == q;
    }
  }

  lemma SupersedeOnQueue(op: Op, s: Stored, q: seq<Item>)
    requires Readable(s) && UniqueIds(q) && InOrder(q) && Held(Items(q)) == Held(s) && op.Supersede?
    ensures Readable(Modify(op, s, q).0)
    ensures Acts(op, Held(s), Held(Modify(op, s, q).0), Modify(op, s, q).1)
  {
    var i := Find(q, op.id, Some(op.captureId));
    assert forall x :: x in Held(s) ==> x in q;
    if i < |q| {
      ReplacingOne(q, i, q[i].(superseded := true));
      assert q[i] in Held(Items(q));
    }
  }

  lemma RemoveOnQueue(op: Op, s: Stored, q: seq<Item>)
    requires Readable(s) && UniqueIds(q) && InOrder(q) && Held(Items(q)) == Held(s) && op.Remove?
    ensures Readable(Modify(op, s, q).0)
    ensures Acts(op, Held(s), Held(Modify(op, s, q).0), Modify(op, s, q).1)
  {
    var i := Find(q, op.id, Some(op.captureId));
    assert forall x :: x in Held(s) ==> x in q;
    if i < |q| {
      RemovingOne(q, i);
      assert q[i] in Held(Items(q));
    }
  }

  lemma DiscardOnQueue(op: Op, s: Stored, q: seq<Item>)
    requires Readable(s) && UniqueIds(q) && InOrder(q) && Held(Items(q)) == Held(s) && op.Discard?
    ensures Readable(Modify(op, s, q).0)
    ensures Acts(op, Held(s), Held(Modify(op, s, q).0), Modify(op, s, q).1)
  {
    var i := Find(q, op.id, None);
    assert forall x :: x in Held(s) ==> x in q;
    if i < |q| {
      RemovingOne(q, i);
      assert q[i] in Held(Items(q));
    }
  }

  method FindIndex(q: seq<Item>, id: nat, captureId: Option<nat>) returns (i: nat)
    ensures i == Find(q, id, captureId)
  {
    i := 0;
    while i < |q| && !Matches(q[i], id, captureId)
      invariant i <= |q|
      invariant Find(q, id, captureId) == i + Find(q[i..], id, captureId)
    {
      assert q[i..][1..] == q[i + 1..];
      i := i + 1;
    }
  }

  /** The storage area as its only writer uses it, each method one locked operation. */
  class CaptureStorage {
    var stored: Stored

    constructor (stored: Stored)
      ensures this.stored == stored
    {
      this.stored := stored;
    }

    method ReadQueue() returns (r: Option<seq<Item>>)
      ensures r == Read(stored)
    {
      match stored
      case Absent => r := Some([]);
      case Unreadable => r := None;
      case Items(q) => r := if UniqueIds(q) then Some(Sorted(q)) else None;
    }

    method EnqueueItem(item: Item) returns (r: Reply)
      modifies this
      ensures (stored, r) == Execute(Enqueue(item), old(stored))
    {
      var queue := ReadQueue();
      if queue.None? || |queue.value| >= MAX_CAPTURE_QUEUE_SIZE {
        return Failed;
      }
      stored := Items(queue.value + [item]);
      r := Changed(true);
    }

    /** Gives an item without capture id one, stored before it can be sent. */
    method PrepareItem(id: nat, newId: nat) returns (r: Reply)
      modifies this
      ensures (stored, r) == Execute(Prepare(id, newId), old(stored))
    {
      var queue := ReadQueue();
      if queue.None? {
        return Failed;
      }
      var q := queue.value;
      var index := FindIndex(q, id, None);
      if index == |q| {
        return Prepared(None);
      }
      var current := q[index];
      if current.captureId.Some? {
        return Prepared(Some(current));
      }
      var upgraded := current.(captureId := Some(newId));
      stored := Items(q[index := upgraded]);
      r := Prepared(Some(upgraded));
    }

    method MarkSuperseded(id: nat, captureId: nat) returns (r: Reply)
      modifies this
      ensures (stored, r) == Execute(Supersede(id, captureId), old(stored))
    {
      var queue := ReadQueue();
      if queue.None? {
        return Failed;
      }
      var q := queue.value;
      var index := FindIndex(q, id, Some(captureId));
      if index == |q| {
        return Changed(false);
      }
      stored := Items(q[index := q[index].(superseded := true)]);
      r := Changed(true);
    }

    /** Removes an acknowledged item, if it is still the one that was sent. */
    method RemoveItem(id: nat, captureId: nat) returns (r: Reply)
      modifies this
      ensures (stored, r) == Execute(Remove(id, captureId), old(stored))
    {
      var queue := ReadQueue();
      if queue.None? {
        return Failed;
      }
      var index := FindIndex(queue.value, id, Some(captureId));
      if index == |queue.value| {
        return Changed(false);
      }
      stored := Items(Without(queue.value, index));
      r := Changed(true);
    }

    method DiscardItem(id: nat) returns (r: Reply)
      modifies this
      ensures (stored, r) == Execute(Discard(id), old(stored))
    {
      var queue := ReadQueue();
      if queue.None? {
        return Failed;
      }
      var index := FindIndex(queue.value, id, None);
      if index == |queue.value| {
        return Changed(false);
      }
      stored := Items(Without(queue.value, index));
      r := Changed(true);
    }

    method ClearQueue()
      modifies this
      ensures stored == Execute(Clear, old(stored)).0
    {
      stored := Absent;
    }
  }
}
