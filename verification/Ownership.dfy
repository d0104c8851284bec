/** The legacy ownership closure: which live processes descend from the seed processes. */
module Ownership {

  type Pid = nat

  /** `marked` is an inherited owner variable or exact legacy workspace binding. */
  datatype Seen = Seen(parent: Pid, birth: nat, marked: bool)

  /** A registry record; `alive` is the independent check that it still names a live process. */
  datatype Record = Record(pid: Pid, birth: nat, alive: bool)

  predicate Matches(all: map<Pid, Seen>, r: Record) {
    r.pid in all && all[r.pid].birth == r.birth && r.alive
  }

  predicate IsSeed(all: map<Pid, Seen>, records: seq<Record>, p: Pid) {
    p in all && (all[p].marked || exists r :: r in records && r.pid == p && Matches(all, r))
  }

  /** A line of descent, from a seed down through live parent links. */
  ghost predicate Line(all: map<Pid, Seen>, records: seq<Record>, path: seq<Pid>) {
    && path != []
    && IsSeed(all, records, path[0])
    && (forall i :: 0 <= i < |path| ==> path[i] in all)
    && (forall i :: 0 < i < |path| ==> all[path[i]].parent == path[i - 1])
  }

  ghost predicate Owned(all: map<Pid, Seen>, records: seq<Record>, p: Pid) {
    exists path :: Line(all, records, path) && path[|path| - 1] == p
  }

  predicate Closed(all: map<Pid, Seen>, owned: set<Pid>) {
    forall p :: p in all && all[p].parent in owned ==> p in owned
  }

  lemma {:induction false} ClosedSetsHoldEveryLine(all: map<Pid, Seen>, records: seq<Record>, owned: set<Pid>, path: seq<Pid>)
    requires Closed(all, owned) && Line(all, records, path)
    requires forall p :: IsSeed(all, records, p) ==> p in owned
    ensures path[|path| - 1] in owned
  {
    if |path| > 1 {
      var front := path[..|path| - 1];
      assert Line(all, records, front);
      ClosedSetsHoldEveryLine(all, records, owned, front);
      assert all[path[|path| - 1]].parent == front[|front| - 1];
    }
  }

  /** The owned processes are the least closed set that holds the seeds. */
  lemma OwnedIsLeastClosed(all: map<Pid, Seen>, records: seq<Record>, owned: set<Pid>, p: Pid)
    requires Closed(all, owned)
    requires forall q :: IsSeed(all, records, q) ==> q in owned
    requires Owned(all, records, p)
    ensures p in owned
  {
    var path :| Line(all, records, path) && path[|path| - 1] == p;
    ClosedSetsHoldEveryLine(all, records, owned, path);
  }

  lemma ChildOfOwned(all: map<Pid, Seen>, records: seq<Record>, p: Pid)
    requires p in all && Owned(all, records, all[p].parent)
    ensures Owned(all, records, p)
  {
    var path :| Line(all, records, path) && path[|path| - 1] == all[p].parent;
    assert Line(all, records, path + [p]);
  }

  method Seeds(all: map<Pid, Seen>, records: seq<Record>) returns (owned: set<Pid>)
    ensures forall p :: p in owned <==> IsSeed(all, records, p)
  {
    owned := set p | p in all && all[p].marked;
    for i := 0 to |records|
      invariant forall p :: p in owned <==>
          p in all && (all[p].marked || exists r :: r in records[..i] && r.pid == p && Matches(all, r))
    {
      ghost var before := owned;
      var r := records[i];
      assert records[..i + 1] == records[..i] + [r];
      if Matches(all, r) {
        owned := owned + {r.pid};
      }
    }
    assert records[..|records|] == records;
  }

  /** One pass over the table, in whatever order it is ranged over. */
  method Pass(all: map<Pid, Seen>, records: seq<Record>, owned: set<Pid>) returns (after: set<Pid>, changed: bool)
    requires owned <= all.Keys && forall p :: p in owned ==> Owned(all, records, p)
    ensures owned <= after <= all.Keys && forall p :: p in after ==> Owned(all, records, p)
    ensures changed <==> owned < after
    ensures !changed ==> Closed(all, after)
  {
    after, changed := owned, false;
    var rest := all.Keys;
    while rest != {}
      invariant rest <= all.Keys
      invariant owned <= after <= all.Keys && forall p :: p in after ==> Owned(all, records, p)
      invariant changed <==> owned < after
      invariant !changed ==> forall p :: p in all && p !in rest && all[p].parent in after ==> p in after
      decreases rest
    {
      var pid :| pid in rest;
      rest := rest - {pid};
      if pid !in after && all[pid].parent in after {
        ChildOfOwned(all, records, pid);
        after, changed := after + {pid}, true;
      }
    }
  }

  /** The changed-flag loop ends, and finds exactly the seeds and their live descendants. */
  method DiscoverOwned(all: map<Pid, Seen>, records: seq<Record>) returns (owned: set<Pid>)
    ensures forall p :: p in owned <==> Owned(all, records, p)
  {
    owned := Seeds(all, records);
    forall p | p in owned
      ensures Owned(all, records, p)
    {
      assert Line(all, records, [p]);
    }
    var changed := true;
    while changed
      invariant owned <= all.Keys && forall p :: p in owned ==> Owned(all, records, p)
      invariant forall p :: IsSeed(all, records, p) ==> p in owned
      invariant !changed ==> Closed(all, owned)
      decreases all.Keys - owned, changed
    {
      owned, changed := Pass(all, records, owned);
    }
    forall p | Owned(all, records, p)
      ensures p in owned
    {
      OwnedIsLeastClosed(all, records, owned, p);
    }
  }
}
