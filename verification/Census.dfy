/** The execution-scope census: reads of a process table that changes between any two of them,
    and the rule by which a scope is declared empty. */
module Census {
  import opened Wrappers
  import opened Kernel

  /** The kernel's answer to one query: the object is gone (ESRCH), another error, or a value. */
  datatype Reading<T> = Gone | Failed | Value(value: T)

  datatype Row = Row(birth: nat, uid: nat, zombie: bool, parent: Pid)
  datatype Member = Member(pid: Pid, parent: Pid, birth: nat, scope: Scope)

  /** One inventory row; `scope` is known only for a live process of the account. */
  datatype Observation = Observation(birth: nat, uid: nat, zombie: bool, parent: Pid, scope: Option<Scope>)

  /** The machine as the inspecting command meets it: each read happens at `now`, and any number
      of kernel events may pass before it. */
  class Host {
    const history: History
    const realm: Realm
    const self: Pid
    const lastInstant: nat  // the inspecting command runs, and so reads, until then
    var now: nat
    var shown: set<Scope>   // scopes the kernel has already given an answer about
    ghost var sent: seq<Sent>  // every signal the kernel accepted, in order
    ghost var failures: nat    // how many reads and signals the kernel has failed

    constructor (history: History, realm: Realm, self: Pid, lastInstant: nat)
      ensures this.history == history && this.realm == realm
      ensures this.self == self && this.lastInstant == lastInstant
      ensures now == 0 && shown == {} && sent == [] && failures == 0
    {
      this.history, this.realm, this.self, this.lastInstant := history, realm, self, lastInstant;
      now, shown, sent, failures := 0, {}, [], 0;
    }

    ghost predicate Valid()
      reads this
    {
      && IsRun(history, realm)
      && now <= lastInstant
      && forall t: nat :: t <= lastInstant ==> CallerRuns(history, realm, self, t)
    }

    method Wait()
      requires Valid()
      modifies this`now
      ensures Valid() && old(now) <= now
    {
      var events: int := *;
      if 0 <= events && now + events <= lastInstant {
        now := now + events;
      }
    }

    /** Every PID of the account once, zombies included, in an order the kernel chooses. */
    method ListPids() returns (r: Reading<seq<Pid>>)
      requires Valid()
      modifies this`now, this`failures
      ensures Valid() && old(now) <= now
      ensures !r.Gone?
      ensures r.Value? ==> forall p :: p in r.value <==> p in Account(history(now), realm)
      ensures r.Value? ==> forall i, j :: 0 <= i < j < |r.value| ==> r.value[i] != r.value[j]
      ensures failures == old(failures) + (if r.Failed? then 1 else 0)
    {
      Wait();
      var fails: bool := *;
      if fails {
        failures := failures + 1;
        return Failed;
      }
      var rest: set<Pid>, pids: seq<Pid> := Account(history(now), realm), [];
      while rest != {}
        invariant forall p :: p in pids || p in rest <==> p in Account(history(now), realm)
        invariant forall p :: p in pids ==> p !in rest
        invariant forall i, j :: 0 <= i < j < |pids| ==> pids[i] != pids[j]
        decreases rest
      {
        var p :| p in rest;
        rest, pids := rest - {p}, pids + [p];
      }
      r := Value(pids);
    }

    method BsdInfo(pid: Pid) returns (r: Reading<Row>)
      requires Valid()
      modifies this`now, this`failures
      ensures Valid() && old(now) <= now
      ensures failures == old(failures) + (if r.Failed? then 1 else 0)
      ensures r.Gone? ==> pid !in history(now).table
      ensures r.Value? ==> pid in history(now).table
                           && r.value == RowOf(history(now).table[pid])
    {
      Wait();
      var fails: bool := *;
      var table := history(now).table;
      r := if fails then Failed else if pid in table then Value(RowOf(table[pid])) else Gone;
      failures := failures + (if r.Failed? then 1 else 0);
    }

    /** The identity of a live process; this flavour of the query does not see zombies. */
    method StartIdentity(pid: Pid) returns (r: Reading<nat>)
      requires Valid()
      modifies this`now, this`failures
      ensures Valid() && old(now) <= now
      ensures failures == old(failures) + (if r.Failed? then 1 else 0)
      ensures r.Gone? ==> pid !in history(now).table || history(now).table[pid].zombie
      ensures r.Value? ==> pid in history(now).table && !history(now).table[pid].zombie
                           && r.value == history(now).table[pid].birth
    {
      Wait();
      var fails: bool := *;
      var table := history(now).table;
      r := if fails then Failed
           else if pid in table && !table[pid].zombie then Value(table[pid].birth) else Gone;
      failures := failures + (if r.Failed? then 1 else 0);
    }

    /** Only a live task has a coalition. */
    method Coalition(pid: Pid) returns (r: Reading<Scope>)
      requires Valid()
      modifies this`now, this`shown, this`failures
      ensures Valid() && old(now) <= now
      ensures failures == old(failures) + (if r.Failed? then 1 else 0)
      ensures old(shown) <= shown
      ensures r.Gone? ==> pid !in history(now).table || history(now).table[pid].zombie
      ensures r.Value? ==> pid in history(now).table && r.value in shown
                           && history(now).table[pid].scope == r.value
    {
      Wait();
      var fails: bool := *;
      var table := history(now).table;
      r := if fails then Failed
           else if pid in table && !table[pid].zombie then Value(table[pid].scope) else Gone;
      shown := if r.Value? then shown + {r.value} else shown;
      failures := failures + (if r.Failed? then 1 else 0);
    }

    /** The kernel's own count of a scope's live tasks is one atomic read.  A scope that was
        answered for before and is gone now was reaped; an unknown one proves nothing. */
    method TaskCount(scope: Scope) returns (r: Reading<nat>)
      requires Valid()
      modifies this`now, this`shown, this`failures
      ensures Valid() && old(now) <= now
      ensures failures == old(failures) + (if r.Failed? then 1 else 0)
      ensures old(shown) <= shown
      ensures r.Value? ==> r.value == |LiveMembers(history(now), scope)| && scope in shown
      ensures r.Gone? && scope in old(shown) ==> Extinct(history(now), scope)
    {
      Wait();
      var fails, gone: bool := *, *;
      var live := LiveMembers(history(now), scope);
      if fails {
        r := Failed;
      } else if gone && (live == {} || scope !in shown) {
        r := Gone;
        ghost var s := history(now);
        assert forall p :: p in s.table && !s.table[p].zombie && s.table[p].scope == scope ==> p in live;
      } else {
        r := Value(|live|);
        shown := shown + {scope};
      }
      failures := failures + (if r.Failed? then 1 else 0);
    }

    /** The signal goes to whatever has the PID at that moment, which is not looked at again; an
        empty PID is no error.  `meant` and `verified` only label the log. */
    method Kill(pid: Pid, signal: Signal, ghost meant: nat, ghost verified: nat) returns (ok: bool)
      requires Valid()
      modifies this`now, this`sent, this`failures
      ensures Valid() && old(now) <= now
      ensures ok ==> sent == old(sent) + [Sent(pid, meant, signal, verified, now, Occupant(history(now), pid))]
      ensures !ok ==> sent == old(sent)
      ensures failures == old(failures) + (if ok then 0 else 1)
    {
      Wait();
      ok := *;
      failures := failures + (if ok then 0 else 1);
      if ok {
        sent := sent + [Sent(pid, meant, signal, verified, now, Occupant(history(now), pid))];
      }
    }
  }

  datatype Signal = Terminate | Freeze | Slay

  /** An accepted signal: the birth it was meant for, seen alive at `verified`, and the birth that had
      the PID when it arrived at `struck`, if any. */
  datatype Sent = Sent(pid: Pid, meant: nat, signal: Signal, verified: nat, struck: nat, hit: Option<nat>)

  function Occupant(s: State, p: Pid): Option<nat> {
    if p in s.table then Some(s.table[p].birth) else None
  }

  /** The inspecting command itself, live and outside every owned scope. */
  ghost predicate CallerRuns(h: History, realm: Realm, self: Pid, t: nat) {
    self in h(t).table && !h(t).table[self].zombie && h(t).table[self].scope !in realm.owned
  }

  function Account(s: State, realm: Realm): set<Pid> {
    set p | p in s.table && s.table[p].uid == realm.account
  }

  function RowOf(p: Process): Row {
    Row(p.birth, p.uid, p.zombie, p.parent)
  }

  /** `o` is what a reader of PID `p` at time `t` must record. */
  ghost predicate Witnessed(h: History, realm: Realm, p: Pid, o: Observation, t: nat) {
    && p in h(t).table
    && var r := h(t).table[p];
       o == Observation(r.birth, r.uid, r.zombie, r.parent,
                        if r.zombie || r.uid != realm.account then None else Some(r.scope))
  }

  /** What one pass of the inventory loop leaves for one PID. */
  datatype Inspection = Inspection(row: Option<Observation>, member: Option<Member>, sound: bool, failed: bool)

  function MemberOf(p: Pid, o: Observation): Option<Member> {
    match o.scope
    case None => None
    case Some(scope) => Some(Member(p, o.parent, o.birth, scope))
  }

  /** No kernel event at all between two moments. */
  ghost predicate Still(h: History, from: nat, to: nat) {
    forall t: nat :: from <= t <= to ==> h(t) == h(from)
  }

  /** A read failed, something happened, or a listed process was gone already. */
  ghost predicate Disturbed(host: Host, pids: seq<Pid>, from: nat, failures: nat)
    reads host
  {
    host.failures > failures || !Still(host.history, from, host.now) || exists p :: p in pids && p !in host.history(from).table
  }

  predicate Names(m: Member, pid: Pid, birth: nat, scope: Scope) {
    m.pid == pid && m.birth == birth && m.scope == scope
  }

  method Inspect(host: Host, pid: Pid) returns (i: Inspection, ghost at: nat)
    requires host.Valid()
    modifies host`now, host`shown, host`failures
    ensures host.Valid() && old(host.now) <= at <= host.now
    ensures old(host.shown) <= host.shown
    ensures i.failed ==> !i.sound && host.failures > old(host.failures)
    ensures old(host.failures) <= host.failures
    ensures i.sound ==> i.row.Some? && Witnessed(host.history, host.realm, pid, i.row.value, at)
                        && i.member == MemberOf(pid, i.row.value)
    ensures !i.sound ==> i.member == None
    ensures i.member.Some? ==> i.member.value.scope in host.shown
    ensures !i.sound ==> Disturbed(host, [pid], old(host.now), old(host.failures))
    ensures !i.failed ==> forall b, s :: s in host.realm.owned && Survives(host.history, pid, b, s, old(host.now), host.now) ==>
              i.member.Some? && Names(i.member.value, pid, b, s)
  {
    at := host.now;
    ghost var start := host.now;
    var before := host.BsdInfo(pid);
    if before.Gone? {
      return Inspection(None, None, false, false), host.now;
    }
    if before.Failed? {
      return Inspection(None, None, false, true), host.now;
    }
    ghost var first := host.now;
    var b := before.value;
    var row := Observation(b.birth, b.uid, b.zombie, b.parent, None);
    if b.uid != host.realm.account || b.zombie {
      RunsStayWellFormed(host.history, host.realm, first);
      return Inspection(Some(row), None, true, false), host.now;
    }
    var ids := host.Coalition(pid);
    ghost var middle := host.now;
    var after := host.BsdInfo(pid);
    forall b, s | s in host.realm.owned && Survives(host.history, pid, b, s, start, host.now)
      ensures IsLive(host.history(first), pid, b, s) && IsLive(host.history(middle), pid, b, s)
    {
      SurvivorsWereThere(host.history, host.realm, pid, b, s, start, first, host.now);
      SurvivorsWereThere(host.history, host.realm, pid, b, s, start, middle, host.now);
    }
    if after.Gone? {
      return Inspection(Some(row), None, false, false), host.now;
    }
    if after.Failed? {
      return Inspection(Some(row), None, false, true), host.now;
    }
    var a := after.value;
    RunsStayWellFormed(host.history, host.realm, first);
    RunsStayWellFormed(host.history, host.realm, host.now);
    if a.birth != b.birth || a.zombie || a.uid != b.uid {
      return Inspection(Some(row), None, false, false), host.now;
    }
    if ids.Gone? {
      return Inspection(Some(row), None, false, false), host.now;
    }
    if ids.Failed? {
      return Inspection(Some(row), None, false, true), host.now;
    }
    SameBirthSameScope(host.history, host.realm, first, middle, host.now, pid);
    row := Observation(a.birth, a.uid, false, a.parent, Some(ids.value));
    return Inspection(Some(row), Some(Member(pid, a.parent, a.birth, ids.value)), true, false), host.now;
  }

  lemma SameBirthSameScope(h: History, realm: Realm, i: nat, j: nat, k: nat, p: Pid)
    requires IsRun(h, realm) && i <= j <= k
    requires p in h(i).table && p in h(k).table
    requires h(i).table[p].birth == h(k).table[p].birth
    ensures p in h(j).table
    ensures h(j).table[p].birth == h(k).table[p].birth
    ensures h(j).table[p].scope == h(k).table[p].scope == h(i).table[p].scope
    ensures h(j).table[p].zombie ==> h(k).table[p].zombie
    ensures h(i).table[p].zombie ==> h(j).table[p].zombie
  {
    RunsStayWellFormed(h, realm, i);
    BirthsOnlyGrow(h, realm, i, j);
    OlderRowsWereThere(h, realm, j, k, p);
    OlderRowsWereThere(h, realm, i, j, p);
  }

  /** A complete inventory: exactly the PIDs listed at `listed`, except the caller's own, each
      read once more at its own later moment `seen[p]`. */
  ghost predicate Faithful(h: History, realm: Realm, self: Pid,
                           inventory: map<Pid, Observation>, listed: nat, seen: map<Pid, nat>, end: nat) {
    && listed <= end
    && inventory.Keys == seen.Keys
    && (forall p :: p in inventory <==> p in Account(h(listed), realm) && p != self)
    && (forall p :: p in inventory ==> listed <= seen[p] <= end && Witnessed(h, realm, p, inventory[p], seen[p]))
  }

  /** A reported member was live, with this birth and in this scope, at some moment of the scan. */
  ghost predicate WasLive(h: History, m: Member, from: nat, to: nat) {
    exists t: nat :: from <= t <= to && IsLive(h(t), m.pid, m.birth, m.scope)
  }

  ghost predicate Listed(members: seq<Member>, pid: Pid, birth: nat, scope: Scope) {
    exists m :: m in members && Names(m, pid, birth, scope)
  }

  /** Every process of a `wanted` scope that was born before `from` and lives at `to` is listed. */
  ghost predicate ListsSurvivors(h: History, members: seq<Member>, wanted: set<Scope>, from: nat, to: nat) {
    forall p, b, s :: s in wanted && Survives(h, p, b, s, from, to) ==> Listed(members, p, b, s)
  }

  predicate OnePerPid(members: seq<Member>) {
    forall i, j :: 0 <= i < j < |members| ==> members[i].pid != members[j].pid
  }

  ghost predicate ListsSurvivorsOf(h: History, members: seq<Member>, pids: seq<Pid>, wanted: set<Scope>, from: nat, to: nat) {
    forall p, b, s :: p in pids && s in wanted && Survives(h, p, b, s, from, to) ==> Listed(members, p, b, s)
  }

  lemma OneMoreInspected(host: Host, members: seq<Member>, found: Inspection, pids: seq<Pid>, i: nat,
                         start: nat, before: nat, failed: bool)
    requires host.Valid() && start <= before <= host.now && i < |pids|
    requires !failed ==> ListsSurvivorsOf(host.history, members, pids[..i], host.realm.owned, start, before)
    requires !found.failed ==> forall b, s :: s in host.realm.owned && Survives(host.history, pids[i], b, s, before, host.now) ==>
               found.member.Some? && Names(found.member.value, pids[i], b, s)
    ensures !failed && !found.failed ==>
              ListsSurvivorsOf(host.history, members + (if found.member.Some? then [found.member.value] else []),
                               pids[..i + 1], host.realm.owned, start, host.now)
  {
    var more := members + (if found.member.Some? then [found.member.value] else []);
    if !failed && !found.failed {
      forall p, b, s | p in pids[..i + 1] && s in host.realm.owned && Survives(host.history, p, b, s, start, host.now)
        ensures Listed(more, p, b, s)
      {
        SurvivorsWereThere(host.history, host.realm, p, b, s, start, before, host.now);
        if p in pids[..i] {
          var m :| m in members && Names(m, p, b, s);
          assert m in more;
        } else {
          assert p == pids[i] && found.member.value in more;
        }
      }
    }
  }

  function SetOf(pids: seq<Pid>): (s: set<Pid>)
    ensures forall p :: p in s <==> p in pids
  {
    set p | p in pids
  }

  /** One pass over the listed PIDs. */
  method InspectAll(host: Host, pids: seq<Pid>)
    returns (members: seq<Member>, inventory: map<Pid, Observation>, complete: bool, failed: bool, ghost seen: map<Pid, nat>)
    requires host.Valid() && forall i, j :: 0 <= i < j < |pids| ==> pids[i] != pids[j]
    modifies host`now, host`shown, host`failures
    ensures host.Valid() && old(host.now) <= host.now && old(host.shown) <= host.shown
    ensures old(host.failures) <= host.failures
    ensures failed ==> !complete && host.failures > old(host.failures)
    ensures !complete ==> Disturbed(host, pids, old(host.now), old(host.failures))
    ensures OnePerPid(members)
    ensures !failed ==> ListsSurvivorsOf(host.history, members, pids, host.realm.owned, old(host.now), host.now)
    ensures complete ==> inventory.Keys == seen.Keys == SetOf(pids) - {host.self}
    ensures complete ==> forall p :: p in inventory ==>
              old(host.now) <= seen[p] <= host.now && Witnessed(host.history, host.realm, p, inventory[p], seen[p])
    ensures complete ==> ListsRows(members, inventory)
    ensures forall m :: m in members ==> WasLive(host.history, m, old(host.now), host.now) && m.scope in host.shown
  {
    ghost var start := host.now;
    members, inventory, complete, failed, seen := [], map[], true, false, map[];
    for i := 0 to |pids|
      invariant host.Valid() && start <= host.now && old(host.shown) <= host.shown
      invariant old(host.failures) <= host.failures
      invariant failed ==> !complete && host.failures > old(host.failures)
      invariant !complete ==> Disturbed(host, pids, start, old(host.failures))
      invariant OnePerPid(members) && forall m :: m in members ==> m.pid in pids[..i]
      invariant !failed ==> ListsSurvivorsOf(host.history, members, pids[..i], host.realm.owned, start, host.now)
      invariant complete ==> inventory.Keys == seen.Keys == SetOf(pids[..i]) - {host.self}
      invariant complete ==> forall p :: p in inventory ==>
                  start <= seen[p] <= host.now && Witnessed(host.history, host.realm, p, inventory[p], seen[p])
      invariant inventory.Keys <= seen.Keys && (complete ==> ListsRows(members, inventory))
      invariant forall m :: m in members ==> WasLive(host.history, m, start, host.now) && m.scope in host.shown
    {
      var pid := pids[i];
      assert SetOf(pids[..i + 1]) == SetOf(pids[..i]) + {pid};
      if pid == host.self {
        assert CallerRuns(host.history, host.realm, host.self, host.now);
        OneMoreInspected(host, members, Inspection(None, None, true, false), pids, i, start, host.now, failed);
        assert members + [] == members;
        continue;
      }
      ghost var before := host.now;
      var found, at := Inspect(host, pid);
      OneMoreInspected(host, members, found, pids, i, start, before, failed);
      complete, failed := complete && found.sound, failed || found.failed;
      if found.row.Some? {
        inventory, seen := inventory[pid := found.row.value], seen[pid := at];
      }
      if found.member.Some? {
        var m := found.member.value;
        assert IsLive(host.history(at), m.pid, m.birth, m.scope);
        members := members + [m];
      }
    }
    assert pids[..|pids|] == pids;
  }

  predicate ListsRows(members: seq<Member>, inventory: map<Pid, Observation>) {
    forall p :: p in inventory && inventory[p].scope.Some? ==> MemberOf(p, inventory[p]).value in members
  }

  lemma AllInspected(host: Host, members: seq<Member>, pids: seq<Pid>, start: nat, listed: nat, scanned: nat)
    requires host.Valid() && start <= listed <= scanned <= host.now
    requires forall p :: p in pids <==> p in Account(host.history(listed), host.realm)
    requires ListsSurvivorsOf(host.history, members, pids, host.realm.owned, listed, scanned)
    ensures ListsSurvivors(host.history, members, host.realm.owned, start, host.now)
  {
    forall p, b, s | s in host.realm.owned && Survives(host.history, p, b, s, start, host.now)
      ensures Listed(members, p, b, s)
    {
      SurvivorsWereThere(host.history, host.realm, p, b, s, start, listed, host.now);
      SurvivorsWereThere(host.history, host.realm, p, b, s, listed, scanned, host.now);
      RunsStayWellFormed(host.history, host.realm, listed);
      assert p in pids;
    }
  }

  method Inventory(host: Host)
    returns (members: seq<Member>, inventory: map<Pid, Observation>, complete: bool, failed: bool,
             ghost listed: nat, ghost seen: map<Pid, nat>)
    requires host.Valid()
    modifies host`now, host`shown, host`failures
    ensures host.Valid() && old(host.now) <= listed <= host.now
    ensures old(host.shown) <= host.shown && old(host.failures) <= host.failures
    ensures failed ==> !complete && host.failures > old(host.failures)
    ensures (Still(host.history, old(host.now), host.now) && host.failures == old(host.failures)) ==> complete
    ensures OnePerPid(members)
    ensures !failed ==> ListsSurvivors(host.history, members, host.realm.owned, old(host.now), host.now)
    ensures complete ==> Faithful(host.history, host.realm, host.self, inventory, listed, seen, host.now)
    ensures complete ==> Account(host.history(host.now), host.realm) == Account(host.history(listed), host.realm)
    ensures complete ==> ListsRows(members, inventory)
    ensures forall m :: m in members ==> WasLive(host.history, m, old(host.now), host.now) && m.scope in host.shown
  {
    ghost var start := host.now;
    var pids := host.ListPids();
    listed := host.now;
    if !pids.Value? {
      return [], map[], false, true, listed, map[];
    }
    members, inventory, complete, failed, seen := InspectAll(host, pids.value);
    ghost var scanned := host.now;
    var after := host.ListPids();
    if !failed {
      AllInspected(host, members, pids.value, start, listed, scanned);
    }
    if !after.Value? {
      return members, inventory, false, true, listed, seen;
    }
    complete := complete && SetOf(pids.value) == SetOf(after.value);
  }

  /** The census rule is sound.  When two complete inventories are equal and neither shows a
      member of an owned scope, the scope had no live member when the second one listed its
      PIDs, and it never has one again, whatever forks, exits, reaps and PID reuse happened
      between the reads.  The comparison of the two listings of one inventory is not needed for it. */
  lemma EmptyCensusIsSound(h: History, realm: Realm, self: Pid, inventory: map<Pid, Observation>,
                           listed1: nat, seen1: map<Pid, nat>, end1: nat,
                           listed2: nat, seen2: map<Pid, nat>, end2: nat, scope: Scope)
    requires IsRun(h, realm) && scope in realm.owned
    requires CallerRuns(h, realm, self, listed2)
    requires Faithful(h, realm, self, inventory, listed1, seen1, end1)
    requires Faithful(h, realm, self, inventory, listed2, seen2, end2)
    requires end1 <= listed2
    requires forall p :: p in inventory ==> inventory[p].scope != Some(scope)
    ensures ExtinctFrom(h, scope, listed2)
  {
    RunsStayWellFormed(h, realm, listed2);
    forall p | p in h(listed2).table && !h(listed2).table[p].zombie
      ensures h(listed2).table[p].scope != scope
    {
      if h(listed2).table[p].scope == scope {
        assert p in inventory;
        SameBirthSameScope(h, realm, seen1[p], listed2, seen2[p], p);
        RunsStayWellFormed(h, realm, seen1[p]);
        assert false;
      }
    }
    ExtinctionIsForever(h, realm, scope, listed2);
  }

  const ONE_OWNED := Realm(7, {9})

  /** A member (PID 5) and another scope's zombie (PID 6); the zombie is read and reaped, the
      member forks into its PID and exits, and is then read as a zombie. */
  function ForkIntoReapedPid(t: nat): State {
    var caller := Process(0, 7, false, 0, 0);
    var member := Process(1, 7, false, 1, 9);
    var zombie := Process(2, 7, true, 1, 0);
    var child := Process(3, 7, false, 5, 9);
    if t == 0 then State(map[1 := caller, 5 := member, 6 := zombie], 3)
    else if t == 1 then State(map[1 := caller, 5 := member], 3)
    else if t == 2 then State(map[1 := caller, 5 := member, 6 := child], 4)
    else State(map[1 := caller, 5 := member.(zombie := true), 6 := child], 4)
  }

  /** Why a second inventory is needed: one complete, fenced inventory without any member of the
      scope does not prove the scope empty. */
  lemma OneInventoryIsNotEnough(inventory: map<Pid, Observation>, seen: map<Pid, nat>)
    requires inventory == map[5 := Observation(1, 7, true, 1, None), 6 := Observation(2, 7, true, 1, None)]
    requires seen == map[5 := 3, 6 := 0]
    ensures IsRun(ForkIntoReapedPid, ONE_OWNED) && CallerRuns(ForkIntoReapedPid, ONE_OWNED, 1, 0)
    ensures Faithful(ForkIntoReapedPid, ONE_OWNED, 1, inventory, 0, seen, 3)
    ensures Account(ForkIntoReapedPid(3), ONE_OWNED) == Account(ForkIntoReapedPid(0), ONE_OWNED)
    ensures IsLive(ForkIntoReapedPid(3), 6, 3, 9)
  {
    ForkIntoReapedPidIsARun();
  }

  lemma ForkIntoReapedPidIsARun()
    ensures IsRun(ForkIntoReapedPid, ONE_OWNED)
  {
    var h := ForkIntoReapedPid;
    forall t: nat
      ensures StepAt(h, ONE_OWNED, t)
    {
      if t < 3 {
        TheEventHappens(t);
        var e := [Reap(6), Fork(5, 6), Exit(5)][t];
        assert Enabled(h(t), ONE_OWNED, e) && h(t + 1) == Apply(h(t), ONE_OWNED, e);
      }
    }
  }

  lemma TheEventHappens(t: nat)
    requires t < 3
    ensures var e := [Reap(6), Fork(5, 6), Exit(5)][t];
            && Enabled(ForkIntoReapedPid(t), ONE_OWNED, e)
            && ForkIntoReapedPid(t + 1) == Apply(ForkIntoReapedPid(t), ONE_OWNED, e)
  {
    var e := [Reap(6), Fork(5, 6), Exit(5)][t];
    var s := ForkIntoReapedPid(t);
    if t == 0 {
      assert e == Reap(6);
    } else if t == 1 {
      assert e == Fork(5, 6) && s == State(map[1 := s.table[1], 5 := Process(1, 7, false, 1, 9)], 3);
    } else {
      assert e == Exit(5);
    }
    assert ForkIntoReapedPid(t + 1) == Apply(s, ONE_OWNED, e);
  }

  /** On a still machine one inventory is like another. */
  lemma StillInventoriesAgree(h: History, realm: Realm, self: Pid, from: nat, to: nat,
                              one: map<Pid, Observation>, listed1: nat, seen1: map<Pid, nat>, end1: nat,
                              two: map<Pid, Observation>, listed2: nat, seen2: map<Pid, nat>, end2: nat)
    requires Still(h, from, to) && from <= listed1 && end1 <= to && from <= listed2 && end2 <= to
    requires Faithful(h, realm, self, one, listed1, seen1, end1)
    requires Faithful(h, realm, self, two, listed2, seen2, end2)
    ensures one == two
  {
    forall p | p in one ensures p in two && one[p] == two[p] {
      assert h(seen1[p]) == h(seen2[p]) == h(listed1) == h(listed2);
    }
    assert one.Keys == two.Keys;
  }

  lemma ExtinctionShifts(h: History, scope: Scope, t: nat, u: nat)
    requires ExtinctFrom(h, scope, t) && t <= u
    ensures ExtinctFrom(h, scope, u)
  {
  }

  /** A scope this command has counted or seen alive, or one that is proved empty: when the
      kernel no longer knows such a scope, it was reaped. */
  ghost predicate Credible(host: Host, scopes: set<Scope>)
    reads host
  {
    forall s :: s in scopes ==> s in host.shown || ExtinctFrom(host.history, s, host.now)
  }

  datatype TaskZero = TaskZero(zero: bool, known: bool)

  /** Whether the kernel's counter proves a scope empty.  `attested` are the scopes with an
      exact completion record of the controller that saw them end. */
  method ScopedTaskZero(host: Host, scope: Scope, witnesses: set<Scope>, attested: set<Scope>)
    returns (r: TaskZero)
    requires host.Valid() && scope in host.realm.owned
    requires Credible(host, witnesses) && Credible(host, attested)
    modifies host`now, host`shown, host`failures
    ensures host.Valid() && old(host.now) <= host.now
    ensures old(host.shown) <= host.shown
    ensures old(host.failures) <= host.failures
    ensures (host.failures == old(host.failures) && scope in witnesses + attested) ==> r.known
    ensures r.known && r.zero ==> ExtinctFrom(host.history, scope, host.now)
    ensures r.known && !r.zero ==> !Extinct(host.history(host.now), scope)
  {
    ghost var before := host.now;
    var count := host.TaskCount(scope);
    if count.Gone? && (scope in witnesses || scope in attested) {
      if ExtinctFrom(host.history, scope, before) {
        ExtinctionShifts(host.history, scope, before, host.now);
      } else {
        ExtinctionIsForever(host.history, host.realm, scope, host.now);
      }
      return TaskZero(true, true);
    }
    if !count.Value? {
      return TaskZero(false, false);
    }
    ghost var live := LiveMembers(host.history(host.now), scope);
    if count.value == 0 {
      ghost var s := host.history(host.now);
      assert forall p :: p in s.table && !s.table[p].zombie && s.table[p].scope == scope ==> p in live;
      ExtinctionIsForever(host.history, host.realm, scope, host.now);
    } else if live == {} {
      assert false;
    } else {
      ghost var p :| p in live;
    }
    r := TaskZero(count.value == 0, true);
  }

  lemma CredibleLater(host: Host, scopes: set<Scope>, shown: set<Scope>, t: nat)
    requires forall s :: s in scopes ==> s in shown || ExtinctFrom(host.history, s, t)
    requires shown <= host.shown && t <= host.now
    ensures Credible(host, scopes)
  {
    forall s | s in scopes && s !in shown
      ensures ExtinctFrom(host.history, s, host.now)
    {
      ExtinctionShifts(host.history, s, t, host.now);
    }
  }

  ghost predicate SomeMemberWas(h: History, wanted: set<Scope>, from: nat, to: nat) {
    exists s, t: nat :: s in wanted && from <= t <= to && !Extinct(h(t), s)
  }

  datatype Sweep = Sweep(allZero: bool, knownNonzero: bool, witnesses: set<Scope>)

  /** One sweep over the counters of the wanted scopes, in any order. */
  method CountScopes(host: Host, wanted: set<Scope>, witnesses: set<Scope>, attested: set<Scope>)
    returns (r: Sweep)
    requires host.Valid() && wanted <= host.realm.owned
    requires Credible(host, witnesses) && Credible(host, attested)
    modifies host`now, host`shown, host`failures
    ensures host.Valid() && old(host.now) <= host.now && old(host.shown) <= host.shown
    ensures old(host.failures) <= host.failures
    ensures Credible(host, r.witnesses) && witnesses <= r.witnesses && (r.allZero ==> wanted <= r.witnesses)
    ensures (host.failures == old(host.failures) && wanted <= witnesses + attested) ==> r.allZero || r.knownNonzero
    ensures Credible(host, attested)
    ensures r.allZero ==> forall s :: s in wanted ==> ExtinctFrom(host.history, s, host.now)
    ensures r.allZero ==> !r.knownNonzero
    ensures r.knownNonzero ==> SomeMemberWas(host.history, wanted, old(host.now), host.now)
  {
    r := Sweep(true, false, witnesses);
    var rest := wanted;
    ghost var empty := {};
    while rest != {}
      invariant rest <= wanted
      invariant host.Valid() && old(host.now) <= host.now && old(host.shown) <= host.shown
      invariant old(host.failures) <= host.failures && witnesses <= r.witnesses
      invariant Credible(host, r.witnesses) && Credible(host, attested) && Credible(host, witnesses)
      invariant forall s :: s in empty ==> ExtinctFrom(host.history, s, host.now)
      invariant r.allZero ==> wanted - rest <= empty && wanted - rest <= r.witnesses && !r.knownNonzero
      invariant (host.failures == old(host.failures) && wanted <= witnesses + attested) ==> r.allZero || r.knownNonzero
      invariant r.knownNonzero ==> SomeMemberWas(host.history, wanted, old(host.now), host.now)
      decreases rest
    {
      var scope :| scope in rest;
      rest := rest - {scope};
      ghost var t, shown := host.now, host.shown;
      var zero := ScopedTaskZero(host, scope, witnesses, attested);
      CredibleLater(host, r.witnesses, shown, t);
      CredibleLater(host, witnesses, shown, t);
      CredibleLater(host, attested, shown, t);
      forall s | s in empty
        ensures ExtinctFrom(host.history, s, host.now)
      {
        ExtinctionShifts(host.history, s, t, host.now);
      }
      if zero.known && zero.zero {
        r := r.(witnesses := r.witnesses + {scope});
        empty := empty + {scope};
      }
      r := r.(allZero := r.allZero && zero.known && zero.zero,
              knownNonzero := r.knownNonzero || (zero.known && !zero.zero));
    }
  }

  datatype Discovery =
    | Empty
    | Found(members: seq<Member>)
    | InspectionFailed
    | Inconclusive

  const MAX_ATTEMPTS: nat := 32

  function Wanted(members: seq<Member>, wanted: set<Scope>): seq<Member> {
    if members == [] then []
    else (if members[0].scope in wanted then [members[0]] else []) + Wanted(members[1..], wanted)
  }

  lemma {:induction false} WantedKeepsExactly(members: seq<Member>, wanted: set<Scope>, m: Member)
    ensures m in Wanted(members, wanted) <==> m in members && m.scope in wanted
  {
    if members != [] {
      WantedKeepsExactly(members[1..], wanted, m);
    }
  }

  lemma {:induction false} WantedKeepsOnePerPid(members: seq<Member>, wanted: set<Scope>)
    requires OnePerPid(members)
    ensures OnePerPid(Wanted(members, wanted))
  {
    if members != [] {
      assert members == [members[0]] + members[1..];
      WantedKeepsOnePerPid(members[1..], wanted);
      forall m | m in Wanted(members[1..], wanted) ensures m.pid != members[0].pid {
        WantedKeepsExactly(members[1..], wanted, m);
      }
    }
  }

  lemma WantedKeepsSurvivors(h: History, members: seq<Member>, owned: set<Scope>, wanted: set<Scope>, realm: Realm,
                             from: nat, start: nat, to: nat)
    requires IsRun(h, realm) && from <= start && wanted <= owned && ListsSurvivors(h, members, owned, start, to)
    ensures ListsSurvivors(h, Wanted(members, wanted), wanted, from, to)
  {
    BirthsOnlyGrow(h, realm, from, start);
    forall p, b, s | s in wanted && Survives(h, p, b, s, from, to)
      ensures Listed(Wanted(members, wanted), p, b, s)
    {
      assert Survives(h, p, b, s, start, to);
      var m :| m in members && Names(m, p, b, s);
      WantedKeepsExactly(members, wanted, m);
    }
  }

  /** The discovery loop for scopes other than the caller's own.  `Empty` is a proof about the
      whole future; `Found` lists only processes that were live members during the call, and unless a
      read failed it lists every one that lived through the call. */
  method DiscoverScopedProcesses(host: Host, wanted: set<Scope>, known: set<Scope>, attested: set<Scope>)
    returns (r: Discovery, witnesses: set<Scope>)
    requires host.Valid() && wanted <= host.realm.owned
    requires Credible(host, known) && Credible(host, attested)
    modifies host`now, host`shown, host`failures
    ensures host.Valid() && old(host.now) <= host.now && old(host.shown) <= host.shown
    ensures known <= witnesses && Credible(host, witnesses) && Credible(host, attested)
    ensures r.Empty? ==> forall s :: s in wanted ==> ExtinctFrom(host.history, s, host.now)
    ensures old(host.failures) <= host.failures && (r.InspectionFailed? ==> old(host.failures) < host.failures)
    ensures (Still(host.history, old(host.now), host.now) && host.failures == old(host.failures)) ==> r.Empty? || r.Found?
    ensures r.Found? ==> r.members != [] && OnePerPid(r.members) && forall m :: m in r.members ==> m.scope in witnesses
    ensures r.Found? && host.failures == old(host.failures) ==>
              ListsSurvivors(host.history, r.members, wanted, old(host.now), host.now)
    ensures r.Found? ==> forall m :: m in r.members ==>
              m.scope in wanted && WasLive(host.history, m, old(host.now), host.now)
  {
    witnesses := known;
    if wanted == {} {
      return Empty, witnesses;
    }
    var previousEmpty: Option<map<Pid, Observation>> := None;
    ghost var listed1: nat, seen1: map<Pid, nat>, end1: nat := 0, map[], 0;
    for attempt := 0 to MAX_ATTEMPTS
      invariant host.Valid() && old(host.now) <= host.now && old(host.shown) <= host.shown
      invariant old(host.failures) <= host.failures
      invariant (Still(host.history, old(host.now), host.now) && host.failures == old(host.failures)) ==>
                  attempt < 2 && (attempt == 1 ==> previousEmpty.Some?)
      invariant previousEmpty.Some? ==> old(host.now) <= listed1
      invariant known <= witnesses && Credible(host, witnesses) && Credible(host, attested)
      invariant previousEmpty.Some? ==>
          Faithful(host.history, host.realm, host.self, previousEmpty.value, listed1, seen1, end1) && end1 <= host.now
    {
      var sweep := CountScopes(host, wanted, witnesses, attested);
      witnesses := sweep.witnesses;
      if sweep.allZero {
        return Empty, witnesses;
      }
      ghost var t, shown := host.now, host.shown;
      var members, inventory, complete, failed, listed2, seen2 := Inventory(host);
      CredibleLater(host, witnesses, shown, t);
      CredibleLater(host, attested, shown, t);
      var result := Wanted(members, wanted);
      OnlyWantedWereLive(host, members, wanted, old(host.now), t);
      WantedKeepsOnePerPid(members, wanted);
      if !failed {
        WantedKeepsSurvivors(host.history, members, host.realm.owned, wanted, host.realm, old(host.now), t, host.now);
      }
      if result != [] && (!failed || sweep.knownNonzero) {
        return Found(result), witnesses + set m | m in result :: m.scope;
      }
      if failed && !sweep.knownNonzero {
        return InspectionFailed, witnesses;
      }
      if Still(host.history, old(host.now), host.now) && !failed && sweep.knownNonzero {
        SomeMemberIsListed(host, members, wanted, old(host.now), t);
        assert false;
      }
      if sweep.knownNonzero {
        previousEmpty := None;
      } else if complete {
        if Still(host.history, old(host.now), host.now) && previousEmpty.Some? {
          StillInventoriesAgree(host.history, host.realm, host.self, old(host.now), host.now,
                                previousEmpty.value, listed1, seen1, end1, inventory, listed2, seen2, host.now);
        }
        if previousEmpty == Some(inventory) {
          NoWantedRow(members, inventory, wanted);
          ProvenEmpty(host, wanted, inventory, listed1, seen1, end1, listed2, seen2, host.now);
          return Empty, witnesses;
        }
        previousEmpty, listed1, seen1, end1 := Some(inventory), listed2, seen2, host.now;
      } else {
        previousEmpty := None;
      }
    }
    r := Inconclusive;
  }

  lemma SomeMemberIsListed(host: Host, members: seq<Member>, wanted: set<Scope>, from: nat, start: nat)
    requires host.Valid() && from <= start <= host.now && Still(host.history, from, host.now)
    requires SomeMemberWas(host.history, wanted, from, start) && wanted <= host.realm.owned
    requires ListsSurvivors(host.history, members, host.realm.owned, start, host.now)
    ensures Wanted(members, wanted) != []
  {
    var s, t: nat :| s in wanted && from <= t <= start && !Extinct(host.history(t), s);
    var p :| p in host.history(t).table && !host.history(t).table[p].zombie && host.history(t).table[p].scope == s;
    RunsStayWellFormed(host.history, host.realm, start);
    assert Survives(host.history, p, host.history(t).table[p].birth, s, start, host.now);
    var m :| m in members && Names(m, p, host.history(t).table[p].birth, s);
    WantedKeepsExactly(members, wanted, m);
  }

  lemma OnlyWantedWereLive(host: Host, members: seq<Member>, wanted: set<Scope>, from: nat, start: nat)
    requires from <= start
    requires forall m :: m in members ==> WasLive(host.history, m, start, host.now) && m.scope in host.shown
    ensures forall m :: m in Wanted(members, wanted) ==>
              m.scope in wanted && WasLive(host.history, m, from, host.now) && m.scope in host.shown
  {
    forall m | m in Wanted(members, wanted)
      ensures m.scope in wanted && WasLive(host.history, m, from, host.now) && m.scope in host.shown
    {
      WantedKeepsExactly(members, wanted, m);
      var t :| start <= t <= host.now && IsLive(host.history(t), m.pid, m.birth, m.scope);
    }
  }

  lemma NoWantedRow(members: seq<Member>, inventory: map<Pid, Observation>, wanted: set<Scope>)
    requires Wanted(members, wanted) == [] && ListsRows(members, inventory)
    ensures forall p, s :: p in inventory && s in wanted ==> inventory[p].scope != Some(s)
  {
    forall p, s | p in inventory && s in wanted && inventory[p].scope == Some(s)
      ensures false
    {
      WantedKeepsExactly(members, wanted, MemberOf(p, inventory[p]).value);
    }
  }

  lemma ProvenEmpty(host: Host, wanted: set<Scope>, inventory: map<Pid, Observation>,
                    listed1: nat, seen1: map<Pid, nat>, end1: nat,
                    listed2: nat, seen2: map<Pid, nat>, end2: nat)
    requires host.Valid() && wanted <= host.realm.owned && end2 == host.now
    requires Faithful(host.history, host.realm, host.self, inventory, listed1, seen1, end1)
    requires Faithful(host.history, host.realm, host.self, inventory, listed2, seen2, end2)
    requires end1 <= listed2
    requires forall p, s :: p in inventory && s in wanted ==> inventory[p].scope != Some(s)
    ensures forall s :: s in wanted ==> ExtinctFrom(host.history, s, host.now)
  {
    forall s | s in wanted
      ensures ExtinctFrom(host.history, s, host.now)
    {
      EmptyCensusIsSound(host.history, host.realm, host.self, inventory, listed1, seen1, end1, listed2, seen2, end2, s);
      ExtinctionShifts(host.history, s, listed2, host.now);
    }
  }
}
