/** Draining the owned scopes: signal every verified member, forget the dead, and finish only
    on a census that proves no writer is left. */
module Drain {
  import opened Wrappers
  import opened Kernel
  import opened Census

  /** What the log says of a signal is what happened: its target was alive when it was verified, and
      `hit` is whoever had the PID when it arrived. */
  ghost predicate Told(h: History, s: Sent) {
    && s.verified <= s.struck && s.hit == Occupant(h(s.struck), s.pid)
    && s.pid in h(s.verified).table && h(s.verified).table[s.pid].birth == s.meant && !h(s.verified).table[s.pid].zombie
  }

  ghost predicate AllTold(h: History, log: seq<Sent>) {
    forall s :: s in log ==> Told(h, s)
  }

  ghost predicate IsMeant(log: seq<Sent>, birth: nat, signal: Signal) {
    exists s :: s in log && s.meant == birth && s.signal == signal
  }

  /** The birth itself was frozen by one of these signals. */
  ghost predicate Froze(log: seq<Sent>, birth: nat) {
    exists s :: s in log && s.meant == birth && s.signal == Freeze && s.hit == Some(birth)
  }

  /** At most one signal of each kind is meant for a birth, and a kill is only meant for a birth that
      was hit by a freeze before. */
  ghost predicate Gentle(log: seq<Sent>) {
    && (forall i, j :: 0 <= i < j < |log| ==> log[i].meant != log[j].meant || log[i].signal != log[j].signal)
    && (forall i :: 0 <= i < |log| && log[i].signal == Slay ==> Froze(log[..i], log[i].meant))
  }

  /** `signaled` remembers the strongest signal sent to each birth. */
  ghost predicate Remembered(log: seq<Sent>, signaled: map<nat, Signal>, killing: bool) {
    && (forall b :: IsMeant(log, b, Terminate) ==> b in signaled)
    && (forall b :: IsMeant(log, b, Freeze) || IsMeant(log, b, Slay) ==> b in signaled && signaled[b] == Slay)
    && (!killing ==> forall b :: b in signaled ==> signaled[b] == Terminate)
  }

  lemma MeantAppend(log: seq<Sent>, s: Sent)
    ensures forall b, k :: IsMeant(log + [s], b, k) <==> IsMeant(log, b, k) || (b == s.meant && k == s.signal)
  {
    var more := log + [s];
    assert s in more && forall t :: t in log ==> t in more;
  }

  lemma GentleAppend(log: seq<Sent>, s: Sent)
    requires Gentle(log) && !IsMeant(log, s.meant, s.signal)
    requires s.signal == Slay ==> Froze(log, s.meant)
    ensures Gentle(log + [s])
  {
    var more := log + [s];
    assert more[..|log|] == log;
    assert forall i :: 0 <= i < |log| ==> more[..i] == log[..i] && log[i] in log;
  }

  // ---- who is hit -------------------------------------------------------------------------

  /** Between `from` and `to` the birth was reaped, and its PID was free for a moment. */
  ghost predicate Reaped(h: History, p: Pid, birth: nat, from: nat, to: nat) {
    exists t: nat :: from <= t < to && Occupant(h(t), p) == Some(birth) && p !in h(t + 1).table
  }

  /** Whoever a signal hits is the process it was meant for, or one born after it was verified. */
  lemma HitIsMeantOrYounger(h: History, realm: Realm, s: Sent)
    requires IsRun(h, realm) && Told(h, s) && s.hit.Some?
    ensures s.hit.value == s.meant || s.hit.value >= h(s.verified).born
  {
    if s.hit.value < h(s.verified).born {
      OlderRowsWereThere(h, realm, s.verified, s.struck, s.pid);
    }
  }

  lemma {:induction false} StaysUnlessReaped(h: History, realm: Realm, p: Pid, birth: nat, from: nat, to: nat)
    requires IsRun(h, realm) && from <= to && Occupant(h(from), p) == Some(birth) && !Reaped(h, p, birth, from, to)
    ensures Occupant(h(to), p) == Some(birth)
  {
    if from < to {
      StaysUnlessReaped(h, realm, p, birth, from, to - 1);
      assert StepAt(h, realm, to - 1);
      assert Occupant(h(to - 1), p) == Some(birth) && p in h(to - 1 + 1).table;
    }
  }

  /** It is the process it was meant for exactly when that one was not reaped on the way. */
  lemma HitsMeantExactlyUnlessReaped(h: History, realm: Realm, s: Sent)
    requires IsRun(h, realm) && Told(h, s)
    ensures s.hit == Some(s.meant) <==> !Reaped(h, s.pid, s.meant, s.verified, s.struck)
  {
    RunsStayWellFormed(h, realm, s.verified);
    if !Reaped(h, s.pid, s.meant, s.verified, s.struck) {
      StaysUnlessReaped(h, realm, s.pid, s.meant, s.verified, s.struck);
    } else if s.hit == Some(s.meant) {
      var t: nat :| s.verified <= t < s.struck && Occupant(h(t), s.pid) == Some(s.meant) && s.pid !in h(t + 1).table;
      BirthsOnlyGrow(h, realm, s.verified, t + 1);
      OlderRowsWereThere(h, realm, t + 1, s.struck, s.pid);
    }
  }

  /** A process that only ever gets signals meant for it gets none twice, and no kill before a
      freeze. */
  lemma ReceiversAreTreatedGently(log: seq<Sent>, receiver: nat)
    requires Gentle(log) && forall s :: s in log && s.hit == Some(receiver) ==> s.meant == receiver
    ensures forall i, j :: 0 <= i < j < |log| && log[i].hit == log[j].hit == Some(receiver) ==> log[i].signal != log[j].signal
    ensures forall i :: 0 <= i < |log| && log[i].hit == Some(receiver) && log[i].signal == Slay ==>
              exists s :: s in log[..i] && s.hit == Some(receiver) && s.signal == Freeze
  {
    forall i | 0 <= i < |log| && log[i].hit == Some(receiver) && log[i].signal == Slay
      ensures exists s :: s in log[..i] && s.hit == Some(receiver) && s.signal == Freeze
    {
      assert log[i] in log;
      assert Froze(log[..i], receiver);
    }
  }

  /** So when no target is reaped between its check and its signal, every receiver is treated gently
      and none is a stranger. */
  lemma NobodyElseIsHit(h: History, realm: Realm, log: seq<Sent>)
    requires IsRun(h, realm) && AllTold(h, log)
    requires forall s :: s in log ==> !Reaped(h, s.pid, s.meant, s.verified, s.struck)
    ensures forall s :: s in log ==> s.hit == Some(s.meant)
  {
    forall s | s in log ensures s.hit == Some(s.meant) {
      HitsMeantExactlyUnlessReaped(h, realm, s);
    }
  }

  /** A member (PID 5) is verified, exits, is reaped, and its PID goes to a process of no owned scope. */
  function ReissuedPid(t: nat): State {
    var caller := Process(0, 7, false, 0, 0);
    var member := Process(1, 7, false, 1, 9);
    var stranger := Process(2, 7, false, 1, 4);
    if t == 0 then State(map[1 := caller, 5 := member], 2)
    else if t == 1 then State(map[1 := caller, 5 := member.(zombie := true)], 2)
    else if t == 2 then State(map[1 := caller], 2)
    else State(map[1 := caller, 5 := stranger], 3)
  }

  /** The check cannot be made safe from here: all three reads of a signal can see the member at
      moment 0 while the signal lands on the stranger at moment 3. */
  lemma StrangersCanBeHit(signal: Signal)
    ensures IsRun(ReissuedPid, ONE_OWNED) && CallerRuns(ReissuedPid, ONE_OWNED, 1, 0) && CallerRuns(ReissuedPid, ONE_OWNED, 1, 3)
    ensures IsLive(ReissuedPid(0), 5, 1, 9) && IsLive(ReissuedPid(3), 5, 2, 4) && 4 !in ONE_OWNED.owned
    ensures Told(ReissuedPid, Sent(5, 1, signal, 0, 3, Some(2))) && Reaped(ReissuedPid, 5, 1, 0, 3)
  {
    forall t: nat
      ensures StepAt(ReissuedPid, ONE_OWNED, t)
    {
      if t < 3 {
        ReissuingHappens(t);
      }
    }
    assert Occupant(ReissuedPid(1), 5) == Some(1) && 5 !in ReissuedPid(1 + 1).table;
  }

  lemma ReissuingHappens(t: nat)
    requires t < 3
    ensures Step(ReissuedPid(t), ReissuedPid(t + 1), ONE_OWNED)
  {
    var s := ReissuedPid(t);
    var e := if t == 0 then Exit(5) else if t == 1 then Reap(5) else Launch(5, Process(2, 7, false, 1, 4));
    assert Enabled(s, ONE_OWNED, e);
    assert ReissuedPid(t + 1) == Apply(s, ONE_OWNED, e);
  }

  // ---- the drain --------------------------------------------------------------------------

  lemma WasBorn(h: History, realm: Realm, m: Member, t: nat)
    requires IsRun(h, realm) && WasLive(h, m, 0, t)
    ensures m.birth < h(t).born
  {
    var seen: nat :| seen <= t && IsLive(h(seen), m.pid, m.birth, m.scope);
    RunsStayWellFormed(h, realm, seen);
    BirthsOnlyGrow(h, realm, seen, t);
  }

  /** A birth that is not live at its PID is never live there again. */
  lemma DeadStaysDead(h: History, realm: Realm, m: Member, t: nat, u: nat)
    requires IsRun(h, realm) && t <= u
    requires m.birth < h(t).born && !IsLive(h(t), m.pid, m.birth, m.scope)
    ensures !IsLive(h(u), m.pid, m.birth, m.scope)
  {
    if IsLive(h(u), m.pid, m.birth, m.scope) {
      OlderRowsWereThere(h, realm, t, u, m.pid);
    }
  }

  datatype Delivery = Delivered | AlreadyGone | Unsafe

  /** One more signal, meant for `m` as it was seen alive at `at`. */
  ghost predicate Adds(h: History, before: seq<Sent>, after: seq<Sent>, m: Member, signal: Signal, at: nat) {
    && |after| == |before| + 1 && after[..|before|] == before
    && var s := after[|before|];
       && s.pid == m.pid && s.meant == m.birth && s.signal == signal && s.verified == at
       && Told(h, s)
  }

  lemma SeenInScope(h: History, realm: Realm, m: Member, t: nat, u: nat)
    requires IsRun(h, realm) && t <= u && WasLive(h, m, 0, t)
    requires m.pid in h(u).table && h(u).table[m.pid].birth == m.birth
    ensures h(u).table[m.pid].scope == m.scope
  {
    var seen: nat :| seen <= t && IsLive(h(seen), m.pid, m.birth, m.scope);
    RunsStayWellFormed(h, realm, seen);
    OlderRowsWereThere(h, realm, seen, u, m.pid);
  }

  /** Identity, scope and identity again, then the signal; nothing ties the signal to that check but
      the PID. */
  method SignalDiscovered(host: Host, m: Member, signal: Signal) returns (d: Delivery, ghost at: nat)
    requires host.Valid() && WasLive(host.history, m, 0, host.now)
    modifies host`now, host`shown, host`sent, host`failures
    ensures host.Valid() && old(host.now) <= at <= host.now && old(host.shown) <= host.shown
    ensures old(host.failures) <= host.failures && old(host.sent) <= host.sent
    ensures d.Delivered? ==> Adds(host.history, old(host.sent), host.sent, m, signal, at)
                             && IsLive(host.history(at), m.pid, m.birth, m.scope)
                             && host.sent[|old(host.sent)|].struck == host.now
    ensures !d.Delivered? ==> host.sent == old(host.sent)
    ensures d.AlreadyGone? ==> !IsLive(host.history(at), m.pid, m.birth, m.scope)
    ensures d.Unsafe? ==> host.failures > old(host.failures) || !Still(host.history, old(host.now), host.now)
  {
    ghost var start := host.now;
    var before := host.StartIdentity(m.pid);
    at := host.now;
    if before.Failed? {
      return Unsafe, at;
    }
    if before.Gone? || before.value != m.birth {
      return AlreadyGone, at;
    }
    ghost var first := host.now;
    SeenInScope(host.history, host.realm, m, start, first);
    var ids := host.Coalition(m.pid);
    at := host.now;
    if ids.Gone? {
      return AlreadyGone, at;
    }
    if ids.Failed? || ids.value != m.scope {
      return Unsafe, at;
    }
    ghost var middle := host.now;
    var after := host.StartIdentity(m.pid);
    at := host.now;
    if after.Failed? {
      return Unsafe, at;
    }
    if after.Gone? || after.value != m.birth {
      return AlreadyGone, at;
    }
    SameBirthSameScope(host.history, host.realm, first, middle, at, m.pid);
    var ok := host.Kill(m.pid, signal, m.birth, at);
    d := if ok then Delivered else Unsafe;
  }

  datatype Outcome = Drained | Remaining | Refused

  /** The drain's two in-memory maps. */
  datatype Books = Books(tracked: map<Pid, Member>, signaled: map<nat, Signal>)

  /** Each tracked process was seen alive at its PID. */
  ghost predicate Tracks(host: Host, tracked: map<Pid, Member>)
    reads host
  {
    forall p :: p in tracked ==> tracked[p].pid == p && WasLive(host.history, tracked[p], 0, host.now)
  }

  /** Nobody alive has the birth, and nobody will. */
  ghost predicate HasDeparted(h: History, birth: nat, t: nat) {
    birth < h(t).born && Departed(h(t), birth)
  }

  /** A signal of this kind was meant for the birth, or nobody alive has it. */
  ghost predicate Met(h: History, log: seq<Sent>, birth: nat, signal: Signal, t: nat) {
    IsMeant(log, birth, signal) || HasDeparted(h, birth, t)
  }

  /** No book entry without its signal in the log, unless nobody is left to get it. */
  ghost predicate Honored(h: History, log: seq<Sent>, signaled: map<nat, Signal>, t: nat) {
    forall b :: b in signaled ==> Met(h, log, b, signaled[b], t)
  }

  lemma StaysMet(h: History, realm: Realm, log: seq<Sent>, more: seq<Sent>, birth: nat, signal: Signal, t: nat, u: nat)
    requires IsRun(h, realm) && t <= u && Met(h, log, birth, signal, t)
    requires forall s :: s in log ==> s in more
    ensures Met(h, more, birth, signal, u)
  {
    if !IsMeant(log, birth, signal) {
      DepartedForGood(h, realm, birth, t, u);
    }
  }

  lemma HonoredLater(h: History, realm: Realm, log: seq<Sent>, more: seq<Sent>, signaled: map<nat, Signal>, t: nat, u: nat)
    requires IsRun(h, realm) && t <= u && Honored(h, log, signaled, t)
    requires forall s :: s in log ==> s in more
    ensures Honored(h, more, signaled, u)
  {
    forall b | b in signaled ensures Met(h, more, b, signaled[b], u) {
      StaysMet(h, realm, log, more, b, signaled[b], t, u);
    }
  }

  lemma NotLiveHasDeparted(h: History, realm: Realm, m: Member, at: nat, t: nat)
    requires IsRun(h, realm) && WasLive(h, m, 0, at) && at <= t && !IsLive(h(at), m.pid, m.birth, m.scope)
    ensures HasDeparted(h, m.birth, t)
  {
    var seen: nat :| seen <= at && IsLive(h(seen), m.pid, m.birth, m.scope);
    RunsStayWellFormed(h, realm, seen);
    BirthsOnlyGrow(h, realm, seen, at);
    GoneMeansDeparted(h, realm, m.pid, m.birth, m.scope, seen, at);
    DepartedForGood(h, realm, m.birth, at, t);
  }

  ghost predicate Gaining(host: Host, base: nat, signaled: map<nat, Signal>, killing: bool)
    reads host
  {
    && base <= |host.sent| && Gentle(host.sent[base..]) && AllTold(host.history, host.sent[base..])
    && Remembered(host.sent[base..], signaled, killing)
    && Honored(host.history, host.sent[base..], signaled, host.now)
  }

  function Due(killing: bool): Signal { if killing then Slay else Terminate }

  lemma LongerLog(a: seq<Sent>, b: seq<Sent>, base: nat)
    requires base <= |a| && a <= b
    ensures a[base..] <= b[base..]
  {
  }

  lemma BooksAfter(h: History, realm: Realm, log: seq<Sent>, more: seq<Sent>, signaled: map<nat, Signal>, birth: nat,
                   killing: bool, t: nat, u: nat)
    requires IsRun(h, realm) && t <= u && log <= more && Remembered(log, signaled, killing) && Honored(h, log, signaled, t)
    requires forall b, k :: IsMeant(more, b, k) ==> IsMeant(log, b, k) || (b == birth && (killing <==> k != Terminate))
    requires Met(h, more, birth, Due(killing), u)
    ensures Remembered(more, signaled[birth := Due(killing)], killing)
    ensures Honored(h, more, signaled[birth := Due(killing)], u)
  {
    HonoredLater(h, realm, log, more, signaled, t, u);
  }

  /** The pass over one tracked process: unless it is gone or something failed, this pass's signal has
      been meant for it.  `keep` tells whether it is still waited for. */
  method SignalOne(host: Host, m: Member, signaled: map<nat, Signal>, killing: bool, ghost base: nat)
    returns (keep: bool, after: map<nat, Signal>, ok: bool)
    requires host.Valid() && WasLive(host.history, m, 0, host.now)
    requires Gaining(host, base, signaled, killing)
    modifies host`now, host`shown, host`sent, host`failures
    ensures host.Valid() && old(host.now) <= host.now && old(host.shown) <= host.shown
    ensures old(host.failures) <= host.failures && old(host.sent) <= host.sent
    ensures base <= |host.sent| && Gentle(host.sent[base..]) && AllTold(host.history, host.sent[base..])
    ensures ok ==> Gaining(host, base, after, killing)
    ensures ok && !keep ==> HasDeparted(host.history, m.birth, host.now)
    ensures ok && keep ==> Met(host.history, host.sent[base..], m.birth, Due(killing), host.now)
    ensures !ok ==> host.failures > old(host.failures) || !Still(host.history, old(host.now), host.now)
  {
    after := signaled;
    ghost var start := host.now;
    var identity := host.StartIdentity(m.pid);
    if identity.Gone? || (identity.Value? && identity.value != m.birth) {
      NotLiveHasDeparted(host.history, host.realm, m, host.now, host.now);
      HonoredLater(host.history, host.realm, host.sent[base..], host.sent[base..], signaled, start, host.now);
      return false, after, true;
    }
    if identity.Failed? {
      return true, after, false;
    }
    var info := host.StartIdentity(m.pid);
    if info.Gone? {
      NotLiveHasDeparted(host.history, host.realm, m, host.now, host.now);
      HonoredLater(host.history, host.realm, host.sent[base..], host.sent[base..], signaled, start, host.now);
      return false, after, true;
    }
    if info.Failed? {
      return true, after, false;
    }
    HonoredLater(host.history, host.realm, host.sent[base..], host.sent[base..], signaled, start, host.now);
    if m.birth in signaled && signaled[m.birth] == Due(killing) {
      return true, after, true;
    }
    ghost var asked, before := host.now, host.sent;
    if killing {
      ok := FreezeAndSlay(host, m, base);
    } else {
      ok := Ask(host, m, base);
    }
    after := signaled[m.birth := Due(killing)];
    keep := true;
    if ok {
      LongerLog(before, host.sent, base);
      BooksAfter(host.history, host.realm, before[base..], host.sent[base..], signaled, m.birth, killing, asked, host.now);
    }
  }

  /** One signal more, in a log from `base` on. */
  lemma OneMoreTold(h: History, before: seq<Sent>, after: seq<Sent>, base: nat, m: Member, signal: Signal, at: nat)
    requires base <= |before| && Adds(h, before, after, m, signal, at)
    requires Gentle(before[base..]) && AllTold(h, before[base..]) && !IsMeant(before[base..], m.birth, signal)
    requires signal == Slay ==> Froze(before[base..], m.birth)
    ensures base <= |after| && Gentle(after[base..]) && AllTold(h, after[base..])
    ensures forall b, k :: IsMeant(after[base..], b, k) <==> IsMeant(before[base..], b, k) || (b == m.birth && k == signal)
  {
    assert after[base..] == before[base..] + [after[|before|]];
    GentleAppend(before[base..], after[|before|]);
    MeantAppend(before[base..], after[|before|]);
  }

  /** The polite signal. */
  method Ask(host: Host, m: Member, ghost base: nat) returns (ok: bool)
    requires host.Valid() && base <= |host.sent|
    requires Gentle(host.sent[base..]) && AllTold(host.history, host.sent[base..])
    requires !IsMeant(host.sent[base..], m.birth, Terminate) && WasLive(host.history, m, 0, host.now)
    modifies host`now, host`shown, host`sent, host`failures
    ensures host.Valid() && old(host.now) <= host.now && old(host.shown) <= host.shown
    ensures old(host.failures) <= host.failures && old(host.sent) <= host.sent
    ensures ok ==> Met(host.history, host.sent[base..], m.birth, Terminate, host.now)
    ensures !ok ==> host.failures > old(host.failures) || !Still(host.history, old(host.now), host.now)
    ensures base <= |host.sent| && Gentle(host.sent[base..]) && AllTold(host.history, host.sent[base..])
    ensures forall b, k :: IsMeant(host.sent[base..], b, k) ==>
              IsMeant(old(host.sent[base..]), b, k) || (b == m.birth && k == Terminate)
  {
    ghost var before := host.sent;
    var d, at := SignalDiscovered(host, m, Terminate);
    if d.Delivered? {
      OneMoreTold(host.history, before, host.sent, base, m, Terminate, at);
    } else if d.AlreadyGone? {
      NotLiveHasDeparted(host.history, host.realm, m, at, host.now);
    }
    ok := !d.Unsafe?;
  }

  /** A process seen alive after a signal meant for it was struck by that very signal. */
  lemma FrozenFirst(h: History, realm: Realm, s: Sent, m: Member, later: nat)
    requires IsRun(h, realm) && Told(h, s) && s.pid == m.pid && s.meant == m.birth
    requires s.struck <= later && IsLive(h(later), m.pid, m.birth, m.scope)
    ensures s.hit == Some(m.birth)
  {
    RunsStayWellFormed(h, realm, s.verified);
    BirthsOnlyGrow(h, realm, s.verified, s.struck);
    OlderRowsWereThere(h, realm, s.struck, later, s.pid);
  }

  lemma FreezeHasHit(h: History, realm: Realm, before: seq<Sent>, middle: seq<Sent>, base: nat,
                     m: Member, frozen: Delivery, at: nat, between: nat, at2: nat)
    requires IsRun(h, realm) && WasLive(h, m, 0, at) && at <= between <= at2 && base <= |before| && before <= middle
    requires frozen.Delivered? ==> Adds(h, before, middle, m, Freeze, at) && middle[|before|].struck == between
    requires !frozen.Delivered? ==> !IsLive(h(at), m.pid, m.birth, m.scope)
    requires IsLive(h(at2), m.pid, m.birth, m.scope)
    ensures Froze(middle[base..], m.birth)
  {
    if frozen.Delivered? {
      FrozenFirst(h, realm, middle[|before|], m, at2);
      assert middle[base..][|before| - base] == middle[|before|];
    } else {
      WasBorn(h, realm, m, at);
      DeadStaysDead(h, realm, m, at, at2);
      assert false;
    }
  }

  /** Freeze, then kill: a kill is only sent while its target is still there to have been frozen. */
  method FreezeAndSlay(host: Host, m: Member, ghost base: nat) returns (ok: bool)
    requires host.Valid() && WasLive(host.history, m, 0, host.now) && base <= |host.sent|
    requires Gentle(host.sent[base..]) && AllTold(host.history, host.sent[base..])
    requires !IsMeant(host.sent[base..], m.birth, Freeze) && !IsMeant(host.sent[base..], m.birth, Slay)
    modifies host`now, host`shown, host`sent, host`failures
    ensures host.Valid() && old(host.now) <= host.now && old(host.shown) <= host.shown
    ensures old(host.failures) <= host.failures && old(host.sent) <= host.sent
    ensures base <= |host.sent| && Gentle(host.sent[base..]) && AllTold(host.history, host.sent[base..])
    ensures forall b, k :: IsMeant(host.sent[base..], b, k) ==>
              IsMeant(old(host.sent[base..]), b, k) || (b == m.birth && k != Terminate)
    ensures ok ==> Met(host.history, host.sent[base..], m.birth, Slay, host.now)
    ensures !ok ==> host.failures > old(host.failures) || !Still(host.history, old(host.now), host.now)
  {
    ghost var before := host.sent;
    var frozen, at := SignalDiscovered(host, m, Freeze);
    if frozen.Unsafe? {
      return false;
    }
    ghost var middle, between := host.sent, host.now;
    if frozen.Delivered? {
      OneMoreTold(host.history, before, middle, base, m, Freeze, at);
    }
    var slain, at2 := SignalDiscovered(host, m, Slay);
    if slain.Delivered? {
      FreezeHasHit(host.history, host.realm, before, middle, base, m, frozen, at, between, at2);
      OneMoreTold(host.history, middle, host.sent, base, m, Slay, at2);
    } else if slain.AlreadyGone? {
      NotLiveHasDeparted(host.history, host.realm, m, at2, host.now);
    }
    ok := !slain.Unsafe?;
  }

  function Without(tracked: map<Pid, Member>, rest: set<Pid>): map<Pid, Member> {
    map p | p in tracked && p !in rest :: tracked[p]
  }

  ghost predicate AllMet(h: History, log: seq<Sent>, tracked: map<Pid, Member>, signal: Signal, t: nat) {
    forall p :: p in tracked ==> Met(h, log, tracked[p].birth, signal, t)
  }

  /** Whoever is in `a` is in `b` or has departed, and `b` has nobody else. */
  ghost predicate KeepsTrack(h: History, a: map<Pid, Member>, b: map<Pid, Member>, t: nat) {
    && b.Keys <= a.Keys && (forall p :: p in b ==> b[p] == a[p])
    && forall p :: p in a ==> (p in b && b[p] == a[p]) || HasDeparted(h, a[p].birth, t)
  }

  lemma AllMetLater(h: History, realm: Realm, log: seq<Sent>, more: seq<Sent>, tracked: map<Pid, Member>, signal: Signal, t: nat, u: nat)
    requires IsRun(h, realm) && t <= u && AllMet(h, log, tracked, signal, t)
    requires forall s :: s in log ==> s in more
    ensures AllMet(h, more, tracked, signal, u)
  {
    forall p | p in tracked ensures Met(h, more, tracked[p].birth, signal, u) {
      StaysMet(h, realm, log, more, tracked[p].birth, signal, t, u);
    }
  }

  lemma KeepsTrackLater(h: History, realm: Realm, a: map<Pid, Member>, b: map<Pid, Member>, t: nat, u: nat)
    requires IsRun(h, realm) && t <= u && KeepsTrack(h, a, b, t)
    ensures KeepsTrack(h, a, b, u)
  {
    forall p | p in a && HasDeparted(h, a[p].birth, t) ensures HasDeparted(h, a[p].birth, u) {
      DepartedForGood(h, realm, a[p].birth, t, u);
    }
  }

  lemma StillShrinks(h: History, from: nat, between: nat, to: nat)
    requires from <= between <= to
    ensures Still(h, from, to) ==> Still(h, between, to)
  {
  }

  lemma OneMoreSignalled(host: Host, all: map<Pid, Member>, tracked: map<Pid, Member>, rest: set<Pid>, pid: Pid, keep: bool,
                         before: seq<Sent>, base: nat, signal: Signal, t: nat)
    requires host.Valid() && t <= host.now && pid in tracked && pid !in rest && base <= |before| && before <= host.sent
    requires KeepsTrack(host.history, all, tracked, t) && AllMet(host.history, before[base..], Without(all, rest + {pid}), signal, t)
    requires if keep then Met(host.history, host.sent[base..], tracked[pid].birth, signal, host.now)
             else HasDeparted(host.history, tracked[pid].birth, host.now)
    requires pid in all && tracked[pid] == all[pid]
    ensures KeepsTrack(host.history, all, if keep then tracked else tracked - {pid}, host.now)
    ensures AllMet(host.history, host.sent[base..], Without(all, rest), signal, host.now)
  {
    var log, more := before[base..], host.sent[base..];
    assert more[..|log|] == log;
    KeepsTrackLater(host.history, host.realm, all, tracked, t, host.now);
    AllMetLater(host.history, host.realm, log, more, Without(all, rest + {pid}), signal, t, host.now);
    assert Without(all, rest).Keys <= Without(all, rest + {pid}).Keys + {pid};
  }

  lemma TracksLater(host: Host, tracked: map<Pid, Member>, t: nat)
    requires t <= host.now
    requires forall p :: p in tracked ==> tracked[p].pid == p && WasLive(host.history, tracked[p], 0, t)
    ensures Tracks(host, tracked)
  {
    forall p | p in tracked ensures WasLive(host.history, tracked[p], 0, host.now) {
      var seen: nat :| seen <= t && IsLive(host.history(seen), p, tracked[p].birth, tracked[p].scope);
    }
  }

  /** One pass over the tracked processes, in any order: unless something fails, each of them has been
      meant by this pass's signal or has departed, and only departed ones are forgotten. */
  method SignalAll(host: Host, books: Books, killing: bool, ghost base: nat) returns (after: Books, ok: bool)
    requires host.Valid() && Tracks(host, books.tracked)
    requires Gaining(host, base, books.signaled, killing)
    modifies host`now, host`shown, host`sent, host`failures
    ensures host.Valid() && old(host.now) <= host.now && old(host.shown) <= host.shown
    ensures old(host.failures) <= host.failures && old(host.sent) <= host.sent
    ensures base <= |host.sent| && Gentle(host.sent[base..]) && AllTold(host.history, host.sent[base..])
    ensures ok ==> Gaining(host, base, after.signaled, killing) && Tracks(host, after.tracked)
    ensures ok ==> KeepsTrack(host.history, books.tracked, after.tracked, host.now)
    ensures ok ==> AllMet(host.history, host.sent[base..], books.tracked, Due(killing), host.now)
    ensures !ok ==> host.failures > old(host.failures) || !Still(host.history, old(host.now), host.now)
  {
    after := books;
    ghost var start := host.now;
    var rest := books.tracked.Keys;
    while rest != {}
      invariant rest <= after.tracked.Keys
      invariant host.Valid() && old(host.now) <= host.now && old(host.shown) <= host.shown
      invariant old(host.failures) <= host.failures && old(host.sent) <= host.sent
      invariant Tracks(host, after.tracked)
      invariant Gaining(host, base, after.signaled, killing)
      invariant KeepsTrack(host.history, books.tracked, after.tracked, host.now)
      invariant AllMet(host.history, host.sent[base..], Without(books.tracked, rest), Due(killing), host.now)
      decreases rest
    {
      var pid :| pid in rest;
      rest := rest - {pid};
      ghost var t, before := host.now, host.sent;
      var keep, signaled, fine := SignalOne(host, after.tracked[pid], after.signaled, killing, base);
      if !fine {
        StillShrinks(host.history, start, t, host.now);
        return after, false;
      }
      TracksLater(host, after.tracked, t);
      OneMoreSignalled(host, books.tracked, after.tracked, rest, pid, keep, before, base, Due(killing), t);
      after := Books(if keep then after.tracked else after.tracked - {pid}, signaled);
    }
    assert Without(books.tracked, rest) == books.tracked;
    ok := true;
  }

  function Track(tracked: map<Pid, Member>, members: seq<Member>): map<Pid, Member>
    decreases |members|
  {
    if members == [] then tracked else Track(tracked[members[0].pid := members[0]], members[1..])
  }

  lemma {:induction false} TrackingFoundMembers(host: Host, tracked: map<Pid, Member>, members: seq<Member>, from: nat)
    requires host.Valid() && Tracks(host, tracked)
    requires forall m :: m in members ==> WasLive(host.history, m, from, host.now)
    ensures Tracks(host, Track(tracked, members))
    decreases |members|
  {
    if members != [] {
      var m := members[0];
      assert WasLive(host.history, m, from, host.now);
      var t :| from <= t <= host.now && IsLive(host.history(t), m.pid, m.birth, m.scope);
      RunsStayWellFormed(host.history, host.realm, t);
      BirthsOnlyGrow(host.history, host.realm, t, host.now);
      TrackingFoundMembers(host, tracked[m.pid := m], members[1..], from);
    }
  }

  function Killing(round: nat, deadline: nat): bool { round > deadline }

  /** One finished pass of the drain: what the census that began it found. */
  datatype Pass = Pass(start: nat, found: seq<Member>, end: nat)

  /** Everything tracked so far, had nobody been forgotten. */
  function Ever(known: seq<Member>, passes: seq<Pass>): map<Pid, Member> {
    if passes == [] then Track(map[], known)
    else Track(Ever(known, passes[..|passes| - 1]), passes[|passes| - 1].found)
  }

  ghost predicate InOrder(passes: seq<Pass>, from: nat, to: nat) {
    && (forall k :: 0 <= k < |passes| ==> from <= passes[k].start <= passes[k].end <= to)
    && forall k, l :: 0 <= k < l < |passes| ==> passes[k].end <= passes[l].start
  }

  /** By the end of pass `k` its signal was meant for everyone tracked who is still there, so for every
      member it found, and, if nothing failed, for every process of a wanted scope that lived through it. */
  ghost predicate PassKept(h: History, wanted: set<Scope>, known: seq<Member>, passes: seq<Pass>, k: nat,
                           deadline: nat, log: seq<Sent>, flawless: bool)
    requires k < |passes|
  {
    var pass, signal := passes[k], Due(Killing(k, deadline));
    && AllMet(h, log, Ever(known, passes[..k + 1]), signal, pass.end)
    && (forall m :: m in pass.found ==> m.scope in wanted && WasLive(h, m, pass.start, pass.end))
    && (forall m :: m in pass.found && IsLive(h(pass.end), m.pid, m.birth, m.scope) ==> IsMeant(log, m.birth, signal))
    && (flawless ==> SurvivorsMeant(h, wanted, log, signal, pass.start, pass.end))
  }

  ghost predicate SurvivorsMeant(h: History, wanted: set<Scope>, log: seq<Sent>, signal: Signal, from: nat, to: nat) {
    forall p, b, s :: s in wanted && Survives(h, p, b, s, from, to) ==> IsMeant(log, b, signal)
  }

  ghost predicate PassesKept(h: History, wanted: set<Scope>, known: seq<Member>, passes: seq<Pass>, deadline: nat,
                             log: seq<Sent>, flawless: bool)
  {
    forall k :: 0 <= k < |passes| ==> PassKept(h, wanted, known, passes, k, deadline, log, flawless)
  }

  lemma PassesStayKept(h: History, wanted: set<Scope>, known: seq<Member>, passes: seq<Pass>, deadline: nat,
                       log: seq<Sent>, more: seq<Sent>, flawless: bool, still: bool)
    requires PassesKept(h, wanted, known, passes, deadline, log, flawless) && log <= more && (still ==> flawless)
    ensures PassesKept(h, wanted, known, passes, deadline, more, still)
  {
    assert forall b, k :: IsMeant(log, b, k) ==> IsMeant(more, b, k);
    forall k | 0 <= k < |passes| ensures PassKept(h, wanted, known, passes, k, deadline, more, still) {
      assert PassKept(h, wanted, known, passes, k, deadline, log, flawless);
    }
  }

  lemma {:induction false} TrackKeeps(h: History, a: map<Pid, Member>, b: map<Pid, Member>, found: seq<Member>, t: nat)
    requires KeepsTrack(h, a, b, t)
    ensures KeepsTrack(h, Track(a, found), Track(b, found), t)
    decreases |found|
  {
    if found != [] {
      TrackKeeps(h, a[found[0].pid := found[0]], b[found[0].pid := found[0]], found[1..], t);
    }
  }

  lemma {:induction false} TrackedAreTracked(tracked: map<Pid, Member>, found: seq<Member>)
    requires OnePerPid(found)
    ensures forall m :: m in found ==> m.pid in Track(tracked, found) && Track(tracked, found)[m.pid] == m
    ensures forall p :: p in tracked && (forall m :: m in found ==> m.pid != p) ==>
              p in Track(tracked, found) && Track(tracked, found)[p] == tracked[p]
    decreases |found|
  {
    if found != [] {
      assert found == [found[0]] + found[1..];
      TrackedAreTracked(tracked[found[0].pid := found[0]], found[1..]);
    }
  }

  /** What a census and the pass after it make of one more round. */
  lemma OnePassMore(h: History, realm: Realm, wanted: set<Scope>, known: seq<Member>, passes: seq<Pass>, pass: Pass, listed: nat,
                    deadline: nat, log: seq<Sent>, flawless: bool)
    requires IsRun(h, realm) && pass.start <= listed <= pass.end && OnePerPid(pass.found)
    requires PassesKept(h, wanted, known, passes, deadline, log, flawless)
    requires AllMet(h, log, Ever(known, passes + [pass]), Due(Killing(|passes|, deadline)), pass.end)
    requires forall m :: m in pass.found ==> m.scope in wanted && WasLive(h, m, pass.start, listed)
    requires flawless ==> ListsSurvivors(h, pass.found, wanted, pass.start, listed)
    ensures PassesKept(h, wanted, known, passes + [pass], deadline, log, flawless)
  {
    var more, signal := passes + [pass], Due(Killing(|passes|, deadline));
    TrackedAreTracked(Ever(known, passes), pass.found);
    assert more[..|passes| + 1] == more && more[..|more| - 1] == passes;
    forall m | m in pass.found && IsLive(h(pass.end), m.pid, m.birth, m.scope) ensures IsMeant(log, m.birth, signal) {
      assert Met(h, log, Ever(known, more)[m.pid].birth, signal, pass.end);
    }
    forall m | m in pass.found ensures WasLive(h, m, pass.start, pass.end) {
      var t: nat :| pass.start <= t <= listed && IsLive(h(t), m.pid, m.birth, m.scope);
    }
    if flawless {
      forall p, b, s | s in wanted && Survives(h, p, b, s, pass.start, pass.end) ensures IsMeant(log, b, signal) {
        SurvivorsWereThere(h, realm, p, b, s, pass.start, listed, pass.end);
        var m :| m in pass.found && Names(m, p, b, s);
      }
    }
    forall k | 0 <= k < |more| ensures PassKept(h, wanted, known, more, k, deadline, log, flawless) {
      if k < |passes| {
        assert PassKept(h, wanted, known, passes, k, deadline, log, flawless);
        assert more[..k + 1] == passes[..k + 1];
      }
    }
  }

  /** Someone was to be drained: a known process, or a live member of a wanted scope. */
  ghost predicate SomeoneWas(h: History, wanted: set<Scope>, known: seq<Member>, from: nat, to: nat) {
    known != [] || exists m: Member :: m.scope in wanted && WasLive(h, m, from, to)
  }

  /** The drain's promise about a run that nothing failed in: whoever was born before it, belongs to a
      wanted scope and outlives it was asked, and, past the deadline, frozen and killed. */
  lemma WhoeverOutlivesTheDrainWasKilled(h: History, realm: Realm, wanted: set<Scope>, known: seq<Member>, passes: seq<Pass>,
                                         deadline: nat, log: seq<Sent>, from: nat, to: nat, p: Pid, b: nat, s: Scope)
    requires IsRun(h, realm) && from <= to && InOrder(passes, from, to) && Gentle(log)
    requires PassesKept(h, wanted, known, passes, deadline, log, true)
    requires s in wanted && Survives(h, p, b, s, from, to)
    ensures |passes| > 0 ==> IsMeant(log, b, Terminate)
    ensures |passes| > deadline + 1 ==> IsMeant(log, b, Slay) && Froze(log, b)
  {
    forall k | 0 <= k < |passes| ensures IsMeant(log, b, Due(Killing(k, deadline))) {
      assert PassKept(h, wanted, known, passes, k, deadline, log, true);
      BirthsOnlyGrow(h, realm, from, passes[k].start);
      SurvivorsWereThere(h, realm, p, b, s, from, passes[k].end, to);
      assert Survives(h, p, b, s, passes[k].start, passes[k].end);
    }
    if |passes| > 0 {
      assert Due(Killing(0, deadline)) == Terminate;
    }
    if |passes| > deadline + 1 {
      assert Due(Killing(deadline + 1, deadline)) == Slay;
      var i :| 0 <= i < |log| && log[i].meant == b && log[i].signal == Slay;
      assert Froze(log[..i], b);
    }
  }

  lemma StillExtinct(host: Host, wanted: set<Scope>, t: nat)
    requires t <= host.now
    requires forall s :: s in wanted ==> ExtinctFrom(host.history, s, t)
    ensures forall s :: s in wanted ==> ExtinctFrom(host.history, s, host.now)
  {
    forall s | s in wanted
      ensures ExtinctFrom(host.history, s, host.now)
    {
      ExtinctionShifts(host.history, s, t, host.now);
    }
  }

  /** The books, as good at the end of a census as they were at its start, with what it found. */
  lemma AfterTheCensus(host: Host, ever: map<Pid, Member>, books: Books, found: seq<Member>, base: nat, was: bool, killing: bool, t: nat)
    requires host.Valid() && t <= host.now && base <= |host.sent| && (was ==> killing)
    requires forall p :: p in books.tracked ==> books.tracked[p].pid == p && WasLive(host.history, books.tracked[p], 0, t)
    requires Gentle(host.sent[base..]) && AllTold(host.history, host.sent[base..])
    requires Remembered(host.sent[base..], books.signaled, was) && Honored(host.history, host.sent[base..], books.signaled, t)
    requires KeepsTrack(host.history, ever, books.tracked, t)
    requires forall m :: m in found ==> WasLive(host.history, m, t, host.now)
    ensures Gaining(host, base, books.signaled, killing)
    ensures Tracks(host, Track(books.tracked, found))
    ensures KeepsTrack(host.history, Track(ever, found), Track(books.tracked, found), host.now)
  {
    TracksLater(host, books.tracked, t);
    TrackingFoundMembers(host, books.tracked, found, t);
    HonoredLater(host.history, host.realm, host.sent[base..], host.sent[base..], books.signaled, t, host.now);
    KeepsTrackLater(host.history, host.realm, ever, books.tracked, t, host.now);
    TrackKeeps(host.history, ever, books.tracked, found, host.now);
  }

  lemma AfterThePass(h: History, realm: Realm, log: seq<Sent>, ever: map<Pid, Member>, before: map<Pid, Member>, after: map<Pid, Member>,
                     signal: Signal, t: nat, u: nat)
    requires IsRun(h, realm) && t <= u && KeepsTrack(h, ever, before, t) && KeepsTrack(h, before, after, u)
    requires AllMet(h, log, before, signal, u)
    ensures KeepsTrack(h, ever, after, u) && AllMet(h, log, ever, signal, u)
  {
    KeepsTrackLater(h, realm, ever, before, t, u);
  }

  lemma SomeoneIsTracked(h: History, wanted: set<Scope>, known: seq<Member>, tracked: map<Pid, Member>, found: seq<Member>,
                         start: nat, from: nat, to: nat, later: nat)
    requires start <= from <= to <= later
    requires tracked != map[] ==> SomeoneWas(h, wanted, known, start, from)
    requires forall m :: m in found ==> m.scope in wanted && WasLive(h, m, from, to)
    ensures tracked != map[] || found != [] ==> SomeoneWas(h, wanted, known, start, later)
  {
    if found != [] {
      assert found[0] in found;
      assert WasLive(h, found[0], start, later);
    } else if tracked != map[] && known == [] {
      var m: Member :| m.scope in wanted && WasLive(h, m, start, from);
      assert WasLive(h, m, start, later);
    }
  }

  /** One census and the pass over everything tracked.  `ever` is what would be tracked had nobody been
      forgotten. */
  method OnePass(host: Host, wanted: set<Scope>, witnesses: set<Scope>, attested: set<Scope>, books: Books,
                 ghost was: bool, killing: bool, ghost base: nat, ghost ever: map<Pid, Member>)
    returns (found: Discovery, seenAlive: set<Scope>, after: Books, ok: bool, ghost listed: nat)
    requires host.Valid() && wanted <= host.realm.owned && (was ==> killing)
    requires Credible(host, witnesses) && Credible(host, attested)
    requires Tracks(host, books.tracked) && Gaining(host, base, books.signaled, was)
    requires KeepsTrack(host.history, ever, books.tracked, host.now)
    modifies host`now, host`shown, host`sent, host`failures
    ensures host.Valid() && old(host.now) <= listed <= host.now && old(host.sent) <= host.sent && old(host.failures) <= host.failures
    ensures base <= |host.sent| && Gentle(host.sent[base..]) && AllTold(host.history, host.sent[base..])
    ensures !ok ==> host.failures > old(host.failures) || !Still(host.history, old(host.now), host.now)
    ensures ok ==> Credible(host, seenAlive) && Credible(host, attested)
    ensures ok ==> Tracks(host, after.tracked) && Gaining(host, base, after.signaled, killing)
    ensures ok ==> OnePerPid(Members(found)) && (found.Empty? || found.Found?)
    ensures ok ==> KeepsTrack(host.history, Track(ever, Members(found)), after.tracked, host.now)
    ensures ok ==> AllMet(host.history, host.sent[base..], Track(ever, Members(found)), Due(killing), host.now)
    ensures ok ==> forall m :: m in Members(found) ==> m.scope in wanted && WasLive(host.history, m, old(host.now), listed)
    ensures ok && host.failures == old(host.failures) ==> ListsSurvivors(host.history, Members(found), wanted, old(host.now), listed)
    ensures ok && found.Empty? ==> forall s :: s in wanted ==> ExtinctFrom(host.history, s, host.now)
    ensures ok ==> after.tracked.Keys <= Track(books.tracked, Members(found)).Keys
  {
    ghost var t := host.now;
    after, ok := books, false;
    found, seenAlive := DiscoverScopedProcesses(host, wanted, witnesses, attested);
    listed := host.now;
    if found.InspectionFailed? || found.Inconclusive? {
      return;
    }
    AfterTheCensus(host, ever, books, Members(found), base, was, killing, t);
    var tracked := Track(books.tracked, Members(found));
    ghost var shown := host.shown;
    after, ok := SignalAll(host, Books(tracked, books.signaled), killing, base);
    if !ok {
      StillShrinks(host.history, t, listed, host.now);
      return;
    }
    AfterThePass(host.history, host.realm, host.sent[base..], Track(ever, Members(found)), tracked, after.tracked,
                 Due(killing), listed, host.now);
    CredibleLater(host, seenAlive, shown, listed);
    CredibleLater(host, attested, shown, listed);
    if found.Empty? {
      StillExtinct(host, wanted, listed);
    }
  }

  function Members(d: Discovery): seq<Member> { if d.Found? then d.members else [] }

  /** What the drain has achieved by time `t`. */
  ghost predicate OnTheWay(h: History, wanted: set<Scope>, known: seq<Member>, passes: seq<Pass>, tracked: map<Pid, Member>,
                           deadline: nat, log: seq<Sent>, start: nat, t: nat, flawless: bool)
  {
    && start <= t && InOrder(passes, start, t)
    && KeepsTrack(h, Ever(known, passes), tracked, t)
    && PassesKept(h, wanted, known, passes, deadline, log, flawless)
    && (tracked != map[] ==> SomeoneWas(h, wanted, known, start, t))
  }

  lemma RoundKeeps(h: History, realm: Realm, wanted: set<Scope>, known: seq<Member>, passes: seq<Pass>, tracked: map<Pid, Member>,
                   deadline: nat, log: seq<Sent>, start: nat, flawless: bool,
                   pass: Pass, listed: nat, after: map<Pid, Member>, more: seq<Sent>, still: bool)
    requires IsRun(h, realm) && pass.start <= listed <= pass.end && OnePerPid(pass.found) && log <= more && (still ==> flawless)
    requires OnTheWay(h, wanted, known, passes, tracked, deadline, log, start, pass.start, flawless)
    requires KeepsTrack(h, Track(Ever(known, passes), pass.found), after, pass.end)
    requires AllMet(h, more, Track(Ever(known, passes), pass.found), Due(Killing(|passes|, deadline)), pass.end)
    requires forall m :: m in pass.found ==> m.scope in wanted && WasLive(h, m, pass.start, listed)
    requires still ==> ListsSurvivors(h, pass.found, wanted, pass.start, listed)
    requires after.Keys <= Track(tracked, pass.found).Keys
    ensures OnTheWay(h, wanted, known, passes + [pass], after, deadline, more, start, pass.end, still)
  {
    assert (passes + [pass])[..|passes|] == passes;
    PassesStayKept(h, wanted, known, passes, deadline, log, more, flawless, still);
    OnePassMore(h, realm, wanted, known, passes, pass, listed, deadline, more, still);
    SomeoneIsTracked(h, wanted, known, tracked, pass.found, start, pass.start, listed, pass.end);
    if pass.found == [] && tracked == map[] {
      assert after.Keys == {};
    }
  }

  lemma DrainBegins(host: Host, wanted: set<Scope>, known: seq<Member>, deadline: nat, base: nat)
    requires host.Valid() && base == |host.sent| && forall m :: m in known ==> WasLive(host.history, m, 0, host.now)
    ensures Tracks(host, Track(map[], known)) && Gaining(host, base, map[], false)
    ensures OnTheWay(host.history, wanted, known, [], Track(map[], known), deadline, host.sent[base..], host.now, host.now, true)
  {
    TrackingFoundMembers(host, map[], known, 0);
    assert host.sent[base..] == [];
  }

  /** `rounds` passes fit before the final deadline, the first `deadline` of them polite. */
  method DrainOwnedProcesses(host: Host, wanted: set<Scope>, known: seq<Member>, witnesses: set<Scope>,
                             attested: set<Scope>, deadline: nat, rounds: nat) returns (o: Outcome, ghost passes: seq<Pass>)
    requires host.Valid() && wanted <= host.realm.owned
    requires Credible(host, witnesses) && Credible(host, attested)
    requires forall m :: m in known ==> WasLive(host.history, m, 0, host.now)
    modifies host`now, host`shown, host`sent, host`failures
    ensures host.Valid() && old(host.sent) <= host.sent && old(host.failures) <= host.failures
    ensures Gentle(host.sent[|old(host.sent)|..]) && AllTold(host.history, host.sent[|old(host.sent)|..])
    ensures InOrder(passes, old(host.now), host.now)
    ensures PassesKept(host.history, wanted, known, passes, deadline, host.sent[|old(host.sent)|..],
                       host.failures == old(host.failures))
    ensures o.Drained? ==> forall s :: s in wanted ==> ExtinctFrom(host.history, s, host.now)
    ensures o.Remaining? ==> |passes| == rounds && SomeoneWas(host.history, wanted, known, old(host.now), host.now)
    ensures o.Refused? ==> host.failures > old(host.failures) || !Still(host.history, old(host.now), host.now)
  {
    ghost var base, start, faults := |host.sent|, host.now, host.failures;
    passes := [];
    var seenAlive := witnesses;
    var books := Books(Track(map[], known), map[]);
    DrainBegins(host, wanted, known, deadline, base);
    for round := 0 to rounds
      invariant host.Valid() && Credible(host, seenAlive) && Credible(host, attested)
      invariant old(host.sent) <= host.sent && faults <= host.failures && |passes| == round
      invariant Tracks(host, books.tracked)
      invariant Gaining(host, base, books.signaled, round > 0 && Killing(round - 1, deadline))
      invariant OnTheWay(host.history, wanted, known, passes, books.tracked, deadline, host.sent[base..], start, host.now, host.failures == faults)
    {
      ghost var t, before, flawless, tracked := host.now, host.sent, host.failures == faults, books.tracked;
      var found, seen, after, ok, listed := OnePass(host, wanted, seenAlive, attested, books, round > 0 && Killing(round - 1, deadline),
                                                    Killing(round, deadline), base, Ever(known, passes));
      LongerLog(before, host.sent, base);
      if !ok {
        StillShrinks(host.history, start, t, host.now);
        PassesStayKept(host.history, wanted, known, passes, deadline, before[base..], host.sent[base..], flawless, host.failures == faults);
        return Refused, passes;
      }
      ghost var pass := Pass(t, Members(found), host.now);
      RoundKeeps(host.history, host.realm, wanted, known, passes, tracked, deadline, before[base..], start, flawless,
                 pass, listed, after.tracked, host.sent[base..], host.failures == faults);
      passes := passes + [pass];
      seenAlive, books := seen, after;
      if books.tracked == map[] && found.Empty? {
        return Drained, passes;
      }
    }
    ghost var t, flawless := host.now, host.failures == faults;
    var remaining, _ := DiscoverScopedProcesses(host, wanted, seenAlive, attested);
    PassesStayKept(host.history, wanted, known, passes, deadline, host.sent[base..], host.sent[base..],
                   flawless, host.failures == faults);
    StillShrinks(host.history, start, t, host.now);
    SomeoneIsTracked(host.history, wanted, known, books.tracked, Members(remaining), start, t, host.now, host.now);
    if remaining.InspectionFailed? || remaining.Inconclusive? {
      return Refused, passes;
    }
    o := if remaining.Empty? && books.tracked == map[] then Drained else Remaining;
  }
}
