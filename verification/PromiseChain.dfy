/** A chain of promises kept in a map entry: each call waits for the entry it found and becomes
    the new entry; an entry is dropped once its own promise has settled. */
module PromiseChain {
  import opened Wrappers

  datatype Phase = Pending | Running | Done
  datatype Link = Link(after: Option<nat>, phase: Phase)

  /** Calls in the order they were made; `tail` is the map entry. */
  datatype Chain = Chain(links: seq<Link>, tail: Option<nat>)

  const EMPTY := Chain([], None)

  function Call(c: Chain): Chain {
    Chain(c.links + [Link(c.tail, Pending)], Some(|c.links|))
  }

  predicate IsAt(c: Chain, i: nat, phase: Phase) {
    i < |c.links| && c.links[i].phase == phase
  }

  /** The promise this call waits for has settled, either way. */
  predicate MayStart(c: Chain, i: nat) {
    IsAt(c, i, Pending) && (c.links[i].after.Some? ==> IsAt(c, c.links[i].after.value, Done))
  }

  function Advance(c: Chain, i: nat, phase: Phase): Chain
    requires i < |c.links|
  {
    c.(links := c.links[i := c.links[i].(phase := phase)])
  }

  /** The settled callback of call `i`, at any moment after it is done. */
  function Forget(c: Chain, i: nat): Chain
    requires IsAt(c, i, Done)
  {
    if c.tail == Some(i) then c.(tail := None) else c
  }

  ghost predicate AllDoneBefore(c: Chain, n: nat)
    requires n <= |c.links|
  {
    forall i :: 0 <= i < n ==> c.links[i].phase == Done
  }

  ghost predicate Inv(c: Chain) {
    && (c.tail.Some? ==> c.tail.value + 1 == |c.links|)
    && (c.tail.None? ==> AllDoneBefore(c, |c.links|))
    && (forall i :: 0 <= i < |c.links| ==>
          if c.links[i].after.Some? then c.links[i].after.value + 1 == i else AllDoneBefore(c, i))
    && (forall i :: 0 <= i < |c.links| && c.links[i].phase != Pending ==> AllDoneBefore(c, i))
  }

  datatype Move = Calls | Starts(i: nat) | Finishes(i: nat) | Forgets(i: nat)

  predicate Allowed(c: Chain, m: Move) {
    match m
    case Calls => true
    case Starts(i) => MayStart(c, i)
    case Finishes(i) => IsAt(c, i, Running)
    case Forgets(i) => IsAt(c, i, Done)
  }

  function Next(c: Chain, m: Move): Chain
    requires Allowed(c, m)
  {
    match m
    case Calls => Call(c)
    case Starts(i) => Advance(c, i, Running)
    case Finishes(i) => Advance(c, i, Done)
    case Forgets(i) => Forget(c, i)
  }

  lemma NextKeepsInv(c: Chain, m: Move)
    requires Inv(c) && Allowed(c, m)
    ensures Inv(Next(c, m))
  {
    var d := Next(c, m);
    forall i | 0 <= i <= |c.links| && AllDoneBefore(c, i)
      ensures AllDoneBefore(d, i)
    {
    }
    if m.Starts? {
      var after := c.links[m.i].after;
      if after.Some? {
        assert AllDoneBefore(c, after.value);
      }
      assert AllDoneBefore(c, m.i);
    }
  }

  ghost predicate Follows(c: Chain, d: Chain) {
    exists m :: Allowed(c, m) && d == Next(c, m)
  }

  ghost predicate IsRun(run: seq<Chain>) {
    && run != [] && run[0] == EMPTY
    && forall k :: 0 < k < |run| ==> Follows(run[k - 1], run[k])
  }

  lemma {:induction false} RunsKeepInv(run: seq<Chain>, k: nat)
    requires IsRun(run) && k < |run|
    ensures Inv(run[k])
  {
    if k > 0 {
      RunsKeepInv(run, k - 1);
      assert Follows(run[k - 1], run[k]);
      var m :| Allowed(run[k - 1], m) && run[k] == Next(run[k - 1], m);
      NextKeepsInv(run[k - 1], m);
    }
  }

  /** A promise chain is a lock, and a fair one: when a call runs or has run, every call made
      before it is done, so at most one runs and they run in call order. */
  lemma ChainsAreLocks(run: seq<Chain>, k: nat, i: nat, j: nat)
    requires IsRun(run) && k < |run| && i < j < |run[k].links|
    requires run[k].links[j].phase != Pending
    ensures run[k].links[i].phase == Done
  {
    RunsKeepInv(run, k);
    assert AllDoneBefore(run[k], j);
  }

  /** No call is stranded: while something is unfinished, something can start or finish. */
  lemma ChainsProgress(run: seq<Chain>, k: nat, i: nat)
    requires IsRun(run) && k < |run| && i < |run[k].links| && run[k].links[i].phase != Done
    ensures exists m :: Allowed(run[k], m) && (m.Starts? || m.Finishes?) && m.i <= i
  {
    RunsKeepInv(run, k);
    var first := FirstUnfinished(run[k], i);
    if run[k].links[first].phase == Running {
      assert Allowed(run[k], Finishes(first));
    } else {
      assert Allowed(run[k], Starts(first));
    }
  }

  ghost function FirstUnfinished(c: Chain, i: nat): (f: nat)
    requires i < |c.links| && c.links[i].phase != Done
    ensures f <= i && c.links[f].phase != Done && AllDoneBefore(c, f)
  {
    if i > 0 && exists j :: 0 <= j < i && c.links[j].phase != Done then
      var j :| 0 <= j < i && c.links[j].phase != Done;
      FirstUnfinished(c, j)
    else i
  }
}
