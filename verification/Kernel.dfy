/** The kernel's process table as an infinite run that no program controls.

    A `History` is the whole run, past and future: `history(t)` is the table after `t` kernel
    events.  A program that reads the table at time `t` and again at time `u >= t` allows every
    interleaving of the events between the two reads. */
module Kernel {

  type Pid = nat
  type Scope = nat

  /** One row of the table.  `birth` is the identity a PID has from fork to reap; a row
      outlives its task as a zombie until it is reaped. */
  datatype Process = Process(birth: nat, uid: nat, zombie: bool, parent: Pid, scope: Scope)

  /** `born` counts the births so far; every birth takes the next number. */
  datatype State = State(table: map<Pid, Process>, born: nat)

  type History = nat -> State

  /** What a run is about: the account whose processes are listed, and the scopes that were
      created before the run begins and are never given a second root. */
  datatype Realm = Realm(account: nat, owned: set<Scope>)

  datatype Event =
    | Fork(parent: Pid, child: Pid)
    | Launch(pid: Pid, process: Process)
    | Exit(pid: Pid)
    | Reap(pid: Pid)
    | Adopt(pid: Pid, parent: Pid)
    | ChangeUser(pid: Pid, uid: nat)

  /** Members fork only members; a PID is given out again only after it was reaped; a process
      of an owned scope keeps its account. */
  predicate Enabled(s: State, realm: Realm, e: Event) {
    match e
    case Fork(parent, child) => parent in s.table && !s.table[parent].zombie && child !in s.table
    case Launch(pid, process) =>
      pid !in s.table && process.birth == s.born && process.scope !in realm.owned
    case Exit(pid) => pid in s.table && !s.table[pid].zombie
    case Reap(pid) => pid in s.table && s.table[pid].zombie
    case Adopt(pid, parent) => pid in s.table
    case ChangeUser(pid, uid) => pid in s.table && s.table[pid].scope !in realm.owned
  }

  function Apply(s: State, realm: Realm, e: Event): State
    requires Enabled(s, realm, e)
  {
    match e
    case Fork(parent, child) =>
      var p := s.table[parent];
      State(s.table[child := Process(s.born, p.uid, false, parent, p.scope)], s.born + 1)
    case Launch(pid, process) => State(s.table[pid := process], s.born + 1)
    case Exit(pid) => s.(table := s.table[pid := s.table[pid].(zombie := true)])
    case Reap(pid) => s.(table := s.table - {pid})
    case Adopt(pid, parent) => s.(table := s.table[pid := s.table[pid].(parent := parent)])
    case ChangeUser(pid, uid) => s.(table := s.table[pid := s.table[pid].(uid := uid)])
  }

  ghost predicate Step(a: State, b: State, realm: Realm) {
    a == b || exists e :: Enabled(a, realm, e) && b == Apply(a, realm, e)
  }

  ghost predicate WellFormed(s: State, realm: Realm) {
    && (forall p :: p in s.table ==> s.table[p].birth < s.born)
    && (forall p :: p in s.table && s.table[p].scope in realm.owned ==> s.table[p].uid == realm.account)
  }

  /** No two rows have one birth. */
  ghost predicate Distinct(s: State) {
    forall p, q :: p in s.table && q in s.table && s.table[p].birth == s.table[q].birth ==> p == q
  }

  ghost predicate IsRun(h: History, realm: Realm) {
    WellFormed(h(0), realm) && Distinct(h(0)) && forall t: nat :: StepAt(h, realm, t)
  }

  ghost predicate StepAt(h: History, realm: Realm, t: nat) {
    Step(h(t), h(t + 1), realm)
  }

  predicate IsLive(s: State, p: Pid, birth: nat, scope: Scope) {
    p in s.table && s.table[p].birth == birth && s.table[p].scope == scope && !s.table[p].zombie
  }

  function LiveMembers(s: State, scope: Scope): set<Pid> {
    set p | p in s.table && !s.table[p].zombie && s.table[p].scope == scope
  }

  predicate Extinct(s: State, scope: Scope) {
    forall p :: p in s.table && !s.table[p].zombie ==> s.table[p].scope != scope
  }

  /** No live member at `t` or at any later time. */
  ghost predicate ExtinctFrom(h: History, scope: Scope, t: nat) {
    forall u: nat :: t <= u ==> Extinct(h(u), scope)
  }

  lemma {:induction false} RunsStayWellFormed(h: History, realm: Realm, t: nat)
    requires IsRun(h, realm)
    ensures WellFormed(h(t), realm)
  {
    if t > 0 {
      RunsStayWellFormed(h, realm, t - 1);
      assert StepAt(h, realm, t - 1);
    }
  }

  lemma {:induction false} RunsStayDistinct(h: History, realm: Realm, t: nat)
    requires IsRun(h, realm)
    ensures Distinct(h(t))
  {
    if t > 0 {
      RunsStayDistinct(h, realm, t - 1);
      RunsStayWellFormed(h, realm, t - 1);
      assert StepAt(h, realm, t - 1);
    }
  }

  lemma {:induction false} BirthsOnlyGrow(h: History, realm: Realm, i: nat, j: nat)
    requires IsRun(h, realm) && i <= j
    ensures h(i).born <= h(j).born
  {
    if i < j {
      BirthsOnlyGrow(h, realm, i, j - 1);
      assert StepAt(h, realm, j - 1);
    }
  }

  /** A row seen at `j` whose birth is older than time `i` occupied the same PID at `i`, in the
      same scope, and a zombie never came back to life in between. */
  lemma {:induction false} OlderRowsWereThere(h: History, realm: Realm, i: nat, j: nat, p: Pid)
    requires IsRun(h, realm) && i <= j
    requires p in h(j).table && h(j).table[p].birth < h(i).born
    ensures p in h(i).table
    ensures h(i).table[p].birth == h(j).table[p].birth
    ensures h(i).table[p].scope == h(j).table[p].scope
    ensures h(i).table[p].zombie ==> h(j).table[p].zombie
  {
    if i < j {
      BirthsOnlyGrow(h, realm, i, j - 1);
      RunsStayWellFormed(h, realm, j - 1);
      assert StepAt(h, realm, j - 1);
      OlderRowsWereThere(h, realm, i, j - 1, p);
    }
  }

  /** Born before `from` and alive at `to`. */
  ghost predicate Survives(h: History, p: Pid, birth: nat, scope: Scope, from: nat, to: nat) {
    birth < h(from).born && IsLive(h(to), p, birth, scope)
  }

  lemma SurvivorsWereThere(h: History, realm: Realm, p: Pid, birth: nat, scope: Scope, from: nat, between: nat, to: nat)
    requires IsRun(h, realm) && from <= between <= to && Survives(h, p, birth, scope, from, to)
    ensures Survives(h, p, birth, scope, from, between) && Survives(h, p, birth, scope, between, to)
  {
    BirthsOnlyGrow(h, realm, from, between);
    OlderRowsWereThere(h, realm, between, to, p);
  }

  /** Nobody alive has this birth. */
  ghost predicate Departed(s: State, birth: nat) {
    forall p :: p in s.table && s.table[p].birth == birth ==> s.table[p].zombie
  }

  lemma DepartedForGood(h: History, realm: Realm, birth: nat, t: nat, u: nat)
    requires IsRun(h, realm) && t <= u && birth < h(t).born && Departed(h(t), birth)
    ensures birth < h(u).born && Departed(h(u), birth)
  {
    BirthsOnlyGrow(h, realm, t, u);
    forall p | p in h(u).table && h(u).table[p].birth == birth ensures h(u).table[p].zombie {
      OlderRowsWereThere(h, realm, t, u, p);
    }
  }

  /** A birth once alive at a PID has departed as soon as it is not alive there. */
  lemma GoneMeansDeparted(h: History, realm: Realm, p: Pid, birth: nat, scope: Scope, seen: nat, t: nat)
    requires IsRun(h, realm) && seen <= t && IsLive(h(seen), p, birth, scope) && !IsLive(h(t), p, birth, scope)
    ensures Departed(h(t), birth)
  {
    RunsStayWellFormed(h, realm, seen);
    RunsStayDistinct(h, realm, seen);
    forall q | q in h(t).table && h(t).table[q].birth == birth ensures h(t).table[q].zombie {
      OlderRowsWereThere(h, realm, seen, t, q);
    }
  }

  /** An owned scope that has lost its last live member never has one again. */
  lemma {:induction false} ExtinctionIsForever(h: History, realm: Realm, scope: Scope, t: nat)
    requires IsRun(h, realm) && scope in realm.owned
    requires Extinct(h(t), scope)
    ensures ExtinctFrom(h, scope, t)
  {
    forall u: nat | t <= u
      ensures Extinct(h(u), scope)
    {
      StaysExtinct(h, realm, scope, t, u);
    }
  }

  lemma {:induction false} StaysExtinct(h: History, realm: Realm, scope: Scope, t: nat, u: nat)
    requires IsRun(h, realm) && scope in realm.owned && t <= u
    requires Extinct(h(t), scope)
    ensures Extinct(h(u), scope)
  {
    if t < u {
      StaysExtinct(h, realm, scope, t, u - 1);
      assert StepAt(h, realm, u - 1);
    }
  }
}
