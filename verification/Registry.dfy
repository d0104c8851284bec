/** Launch gates, the durable runtime registry and execution receipts, with the supervisor, a
    component shell and a stop command dying at any step. */
module Registry {
  import opened Wrappers

  type Identity = nat
  type Scope = nat

  /** The registry file; `stopped` stands for a stop time with verified ownership. */
  datatype Record = Record(components: map<string, Identity>, scope: Scope, stopped: bool)

  /** A component's process: at its gate, authorized, past the gate's end of file, running, or gone. */
  datatype Child = Waiting | Released | Closed | Executing | Gone

  /** A launch in progress: spawned but unpublished, or published and about to be let through. */
  datatype Launch = Launch(name: string, id: Identity, published: bool)

  datatype Supervisor = Supervisor(memory: Record, written: bool, closing: bool, launch: Option<Launch>)

  /** A stop command: holding the control lock, also holding the instance lock, or past its proof. */
  datatype Stopper = Absent | Controlling | Locked | Proven

  datatype Instance = Instance(
    registry: Option<Record>, receipts: set<Scope>,
    admitted: set<Scope>, dedicated: set<Scope>, running: set<Scope>,
    supervisor: Option<Supervisor>, children: map<Identity, Child>, stopper: Stopper)

  const EMPTY := Instance(None, {}, {}, {}, {}, None, map[], Absent)

  datatype Event =
    | Admit(scope: Scope, alone: bool) | RetireAlone(scope: Scope) | ScopeEnds(scope: Scope)
    | Claim(scope: Scope) | WriteFirst
    | Spawn(name: string, id: Identity) | Publish(ok: bool) | OpenGate(complete: bool)
    | Rewrite | Close | RecordStopped
    | Exec(id: Identity) | ChildEnds(id: Identity)
    | SupervisorDies
    | StopBegins | StopLocks | StopProves | Retire(scope: Scope) | StopEnds
    | PowerLoss

  predicate Runs(c: Child) { c == Released || c == Executing }

  predicate Alive(c: Child) { c != Gone }

  predicate Recorded(r: Record, id: Identity) {
    exists name :: name in r.components && r.components[name] == id
  }

  /** The receipt that a stop, or a new start, insists on. */
  predicate ReceiptHeld(s: Instance) {
    s.registry.None? || s.registry.value.stopped || s.registry.value.scope in s.receipts
  }

  /** A new supervisor may take over this registry. */
  predicate Startable(s: Instance) {
    && ReceiptHeld(s)
    && (s.registry.Some? && !s.registry.value.stopped ==>
          forall id :: id in s.children && Recorded(s.registry.value, id) ==> !Alive(s.children[id]))
  }

  /** No process of the instance is left. */
  predicate Empty(s: Instance) {
    s.running == {} && s.supervisor.None? && forall id :: id in s.children ==> !Alive(s.children[id])
  }

  predicate Enabled(s: Instance, e: Event) {
    match e
    case Admit(scope, _) => s.stopper == Absent && scope !in s.admitted
    case RetireAlone(scope) => scope in s.dedicated && scope !in s.running
    case ScopeEnds(scope) => s.supervisor.Some? ==> s.supervisor.value.memory.scope != scope
    case Claim(scope) =>
      && s.supervisor.None? && s.stopper != Locked && s.stopper != Proven
      && scope in s.running && scope !in s.dedicated && Startable(s)
    case WriteFirst => s.supervisor.Some? && !s.supervisor.value.written
    case Spawn(name, id) =>
      && s.supervisor.Some? && s.supervisor.value.written && !s.supervisor.value.closing && s.supervisor.value.launch.None?
      && name !in s.supervisor.value.memory.components && id !in s.children
    case Publish(_) =>
      s.supervisor.Some? && s.supervisor.value.launch.Some? && !s.supervisor.value.launch.value.published
    case OpenGate(_) =>
      s.supervisor.Some? && s.supervisor.value.launch.Some? && s.supervisor.value.launch.value.published
    case Rewrite => s.supervisor.Some? && s.supervisor.value.written && s.supervisor.value.launch.None?
    case Close => s.supervisor.Some? && s.supervisor.value.launch.None?
    case RecordStopped =>
      && s.supervisor.Some? && s.supervisor.value.written && s.supervisor.value.closing && s.supervisor.value.launch.None?
      && forall id :: id in s.children ==> !Alive(s.children[id])
    case Exec(id) => id in s.children && s.children[id] == Released
    case ChildEnds(id) => id in s.children && Alive(s.children[id])
    case SupervisorDies => s.supervisor.Some?
    case StopBegins => s.stopper == Absent
    case StopLocks => s.stopper == Controlling && s.supervisor.None? && ReceiptHeld(s)
    case StopProves => s.stopper == Locked && Empty(s) && ReceiptHeld(s)
    case Retire(scope) => s.stopper == Proven && scope in s.receipts
    case StopEnds => s.stopper != Absent
    case PowerLoss => true
  }

  /** Every gate still held by the dead writer reads end of file. */
  function GatesClosed(children: map<Identity, Child>): map<Identity, Child> {
    map id | id in children :: if children[id] == Waiting then Closed else children[id]
  }

  function Published(u: Supervisor): Record
    requires u.launch.Some?
  {
    u.memory.(components := u.memory.components[u.launch.value.name := u.launch.value.id])
  }

  function Apply(s: Instance, e: Event): Instance
    requires Enabled(s, e)
  {
    match e
    case Admit(scope, alone) =>
      s.(receipts := s.receipts + {scope}, admitted := s.admitted + {scope}, running := s.running + {scope},
         dedicated := if alone then s.dedicated + {scope} else s.dedicated)
    case RetireAlone(scope) => s.(receipts := s.receipts - {scope})
    case ScopeEnds(scope) => s.(running := s.running - {scope})
    case Claim(scope) => s.(supervisor := Some(Supervisor(Record(map[], scope, false), false, false, None)))
    case WriteFirst =>
      var u := s.supervisor.value;
      s.(registry := Some(u.memory), supervisor := Some(u.(written := true)))
    case Spawn(name, id) =>
      s.(children := s.children[id := Waiting],
         supervisor := Some(s.supervisor.value.(launch := Some(Launch(name, id, false)))))
    case Publish(ok) =>
      var u := s.supervisor.value;
      if ok
      then s.(registry := Some(Published(u)),
              supervisor := Some(u.(memory := Published(u), launch := Some(u.launch.value.(published := true)))))
      else s.(children := GatesClosed(s.children),
              supervisor := Some(u.(memory := Published(u), launch := None, closing := true)))
    case OpenGate(complete) =>
      var u := s.supervisor.value;
      if complete
      then s.(children := Authorized(s.children, u.launch.value.id), supervisor := Some(u.(launch := None)))
      else s.(children := GatesClosed(s.children), supervisor := Some(u.(launch := None, closing := true)))
    case Rewrite => s.(registry := Some(s.supervisor.value.memory))
    case Close => s.(supervisor := Some(s.supervisor.value.(closing := true)))
    case RecordStopped =>
      var u := s.supervisor.value;
      s.(registry := Some(u.memory.(stopped := true)), supervisor := Some(u.(memory := u.memory.(stopped := true))))
    case Exec(id) => s.(children := s.children[id := Executing])
    case ChildEnds(id) => s.(children := s.children[id := Gone])
    case SupervisorDies => s.(supervisor := None, children := GatesClosed(s.children))
    case StopBegins => s.(stopper := Controlling)
    case StopLocks => s.(stopper := Locked)
    case StopProves =>
      s.(stopper := Proven, registry := if s.registry.None? then None else Some(s.registry.value.(stopped := true)))
    case Retire(scope) => s.(receipts := s.receipts - {scope})
    case StopEnds => s.(stopper := Absent)
    case PowerLoss =>
      s.(supervisor := None, stopper := Absent, running := {}, children := map id | id in s.children :: Gone)
  }

  /** A child that died at its gate takes no notice of the message. */
  function Authorized(children: map<Identity, Child>, id: Identity): map<Identity, Child> {
    if id in children && children[id] == Waiting then children[id := Released] else children
  }

  // ---- the invariant ------------------------------------------------------------------------

  /** Whoever runs, or may at once, is in the durable registry. */
  predicate Registered(s: Instance) {
    forall id :: id in s.children && Runs(s.children[id]) ==> s.registry.Some? && Recorded(s.registry.value, id)
  }

  /** A child still at an open gate is the one being launched. */
  predicate GateHeld(s: Instance) {
    forall id :: id in s.children && s.children[id] == Waiting ==>
      s.supervisor.Some? && s.supervisor.value.launch.Some? && s.supervisor.value.launch.value.id == id
  }

  predicate StoppedIsEmpty(s: Instance) {
    s.registry.Some? && s.registry.value.stopped ==>
      && (forall id :: id in s.children ==> !Runs(s.children[id]) && s.children[id] != Waiting)
      && (s.supervisor.Some? && s.supervisor.value.written ==> s.supervisor.value.closing && s.supervisor.value.launch.None?)
  }

  /** What the supervisor remembers contains what it has published. */
  predicate SupervisorAgrees(s: Instance) {
    s.supervisor.Some? ==>
      var u := s.supervisor.value;
      && u.memory.scope in s.receipts && u.memory.scope !in s.dedicated
      && (!u.written ==> u.launch.None? && !u.memory.stopped
                         && forall id :: id in s.children ==> !Runs(s.children[id]) && s.children[id] != Waiting)
      && (u.written ==> s.registry.Some? && s.registry.value.scope == u.memory.scope
                        && forall id :: id in s.children && Runs(s.children[id]) ==> Recorded(u.memory, id))
      && (u.memory.stopped ==> s.registry.Some? && s.registry.value.stopped)
      && (u.launch.Some? && !u.launch.value.published ==> u.launch.value.name !in u.memory.components)
      && (u.launch.Some? && u.launch.value.published ==>
            s.registry == Some(u.memory) && Recorded(u.memory, u.launch.value.id))
      && (u.launch.Some? ==> u.written)
  }

  predicate ReceiptsKept(s: Instance) {
    && ReceiptHeld(s)
    && (s.registry.Some? && !s.registry.value.stopped ==> s.registry.value.scope !in s.dedicated)
    && (forall scope :: scope in s.running ==> scope in s.receipts)
    && s.receipts <= s.admitted && s.dedicated <= s.admitted
  }

  predicate StopperAlone(s: Instance) {
    && (s.stopper == Locked || s.stopper == Proven ==> s.supervisor.None?)
    && (s.stopper == Proven ==> s.running == {} && (s.registry.Some? ==> s.registry.value.stopped))
  }

  predicate Inv(s: Instance) {
    Registered(s) && GateHeld(s) && StoppedIsEmpty(s) && SupervisorAgrees(s) && ReceiptsKept(s) && StopperAlone(s)
  }

  // ---- every step keeps it ------------------------------------------------------------------

  lemma ScopesStepKeepsInv(s: Instance, e: Event)
    requires Inv(s) && Enabled(s, e) && (e.Admit? || e.RetireAlone? || e.ScopeEnds?)
    ensures Inv(Apply(s, e))
  {
  }

  lemma ClaimKeepsInv(s: Instance, e: Event)
    requires Inv(s) && Enabled(s, e) && e.Claim?
    ensures Inv(Apply(s, e))
  {
  }

  lemma WriteFirstKeepsInv(s: Instance, e: Event)
    requires Inv(s) && Enabled(s, e) && e.WriteFirst?
    ensures Inv(Apply(s, e))
  {
  }

  lemma SpawnKeepsInv(s: Instance, e: Event)
    requires Inv(s) && Enabled(s, e) && e.Spawn?
    ensures Inv(Apply(s, e))
  {
  }

  /** One more component never displaces a recorded one. */
  lemma PublishedRecords(u: Supervisor)
    requires u.launch.Some? && u.launch.value.name !in u.memory.components
    ensures Recorded(Published(u), u.launch.value.id)
    ensures forall id :: Recorded(u.memory, id) ==> Recorded(Published(u), id)
  {
    assert Published(u).components[u.launch.value.name] == u.launch.value.id;
    forall id | Recorded(u.memory, id) ensures Recorded(Published(u), id) {
      var name :| name in u.memory.components && u.memory.components[name] == id;
      assert Published(u).components[name] == id;
    }
  }

  lemma PublishKeepsInv(s: Instance, e: Event)
    requires Inv(s) && Enabled(s, e) && e.Publish?
    ensures Inv(Apply(s, e))
  {
    PublishedRecords(s.supervisor.value);
  }

  lemma OpenGateKeepsInv(s: Instance, e: Event)
    requires Inv(s) && Enabled(s, e) && e.OpenGate?
    ensures Inv(Apply(s, e))
  {
  }

  lemma WritesKeepInv(s: Instance, e: Event)
    requires Inv(s) && Enabled(s, e) && (e.Rewrite? || e.Close? || e.RecordStopped?)
    ensures Inv(Apply(s, e))
  {
  }

  lemma ChildrenKeepInv(s: Instance, e: Event)
    requires Inv(s) && Enabled(s, e) && (e.Exec? || e.ChildEnds? || e.SupervisorDies? || e.PowerLoss?)
    ensures Inv(Apply(s, e))
  {
  }

  lemma StopKeepsInv(s: Instance, e: Event)
    requires Inv(s) && Enabled(s, e) && (e.StopBegins? || e.StopLocks? || e.StopProves? || e.Retire? || e.StopEnds?)
    ensures Inv(Apply(s, e))
  {
  }

  lemma StepKeepsInv(s: Instance, e: Event)
    requires Inv(s) && Enabled(s, e)
    ensures Inv(Apply(s, e))
  {
    match e
    case Admit(_, _) => ScopesStepKeepsInv(s, e);
    case RetireAlone(_) => ScopesStepKeepsInv(s, e);
    case ScopeEnds(_) => ScopesStepKeepsInv(s, e);
    case Claim(_) => ClaimKeepsInv(s, e);
    case WriteFirst => WriteFirstKeepsInv(s, e);
    case Spawn(_, _) => SpawnKeepsInv(s, e);
    case Publish(_) => PublishKeepsInv(s, e);
    case OpenGate(_) => OpenGateKeepsInv(s, e);
    case Rewrite => WritesKeepInv(s, e);
    case Close => WritesKeepInv(s, e);
    case RecordStopped => WritesKeepInv(s, e);
    case Exec(_) => ChildrenKeepInv(s, e);
    case ChildEnds(_) => ChildrenKeepInv(s, e);
    case SupervisorDies => ChildrenKeepInv(s, e);
    case StopBegins => StopKeepsInv(s, e);
    case StopLocks => StopKeepsInv(s, e);
    case StopProves => StopKeepsInv(s, e);
    case Retire(_) => StopKeepsInv(s, e);
    case StopEnds => StopKeepsInv(s, e);
    case PowerLoss => ChildrenKeepInv(s, e);
  }

  // ---- whole runs ---------------------------------------------------------------------------

  predicate Next(s: Instance, e: Event, t: Instance) {
    Enabled(s, e) && t == Apply(s, e)
  }

  predicate IsRun(states: seq<Instance>, events: seq<Event>) {
    && |states| == |events| + 1 && states[0] == EMPTY
    && forall k :: 0 <= k < |events| ==> Next(states[k], events[k], states[k + 1])
  }

  lemma {:induction false} RunsKeepInv(states: seq<Instance>, events: seq<Event>, k: nat)
    requires IsRun(states, events) && k < |states|
    ensures Inv(states[k])
  {
    if k > 0 {
      RunsKeepInv(states, events, k - 1);
      assert Next(states[k - 1], events[k - 1], states[k]);
      StepKeepsInv(states[k - 1], events[k - 1]);
    }
  }

  /** A launch that nothing disturbs ends with the component registered and executing, and changes nothing
      about any other. */
  lemma LaunchesComplete(s: Instance, name: string, id: Identity)
    requires Enabled(s, Spawn(name, id))
    ensures var spawned := Apply(s, Spawn(name, id));
            && Enabled(spawned, Publish(true))
            && var published := Apply(spawned, Publish(true));
            && Enabled(published, OpenGate(true))
            && var released := Apply(published, OpenGate(true));
            && Enabled(released, Exec(id))
            && var u := s.supervisor.value;
               var memory := u.memory.(components := u.memory.components[name := id]);
               Apply(released, Exec(id)) == s.(registry := Some(memory), supervisor := Some(u.(memory := memory)),
                                             children := s.children[id := Executing])
  {
    var released := Apply(Apply(Apply(s, Spawn(name, id)), Publish(true)), OpenGate(true));
    assert released.children == s.children[id := Released];
  }

  /** A launch that fails closes its gate for good and lets the supervisor launch nothing more. */
  lemma FailedLaunchesClose(s: Instance, e: Event)
    requires Inv(s) && Enabled(s, e) && (e == Publish(false) || e == OpenGate(false))
    ensures var t := Apply(s, e);
            && (forall id :: id in s.children && s.children[id] == Waiting ==> t.children[id] == Closed)
            && (forall id :: id in s.children && s.children[id] != Waiting ==> t.children[id] == s.children[id])
            && forall name, id :: !Enabled(t, Spawn(name, id))
  {
  }

  /** Whatever dies when, a component's body only executes while its identity is in the registry
      file. */
  lemma OnlyRegisteredComponentsExecute(states: seq<Instance>, events: seq<Event>, k: nat, id: Identity)
    requires IsRun(states, events) && k < |states| && id in states[k].children && states[k].children[id] == Executing
    ensures states[k].registry.Some? && Recorded(states[k].registry.value, id)
  {
    RunsKeepInv(states, events, k);
  }

  /** A stop that was cut off anywhere passes its receipt test again, and so does any later one. */
  lemma StopCanAlwaysBeRetried(states: seq<Instance>, events: seq<Event>, k: nat)
    requires IsRun(states, events) && k < |states|
    ensures ReceiptHeld(states[k])
    ensures Empty(states[k]) && states[k].stopper == Absent ==>
              var locked := Apply(Apply(states[k], StopBegins), StopLocks);
              Enabled(locked, StopProves) && ReceiptHeld(Apply(locked, StopProves))
              && (Apply(locked, StopProves).registry.Some? ==> Apply(locked, StopProves).registry.value.stopped)
  {
    RunsKeepInv(states, events, k);
  }

  /** A receipt only disappears once the stopped proof of the registry is durable, or when it never
      belonged to a supervisor. */
  lemma ReceiptsOutliveTheirRegistry(states: seq<Instance>, events: seq<Event>, k: nat, scope: Scope)
    requires IsRun(states, events) && k < |events| && scope in states[k].receipts && scope !in states[k + 1].receipts
    ensures states[k].registry.Some? && !states[k].registry.value.stopped ==> states[k].registry.value.scope != scope
    ensures events[k].Retire? ==>
              && states[k].running == {} && states[k].supervisor.None?
              && forall id :: id in states[k].children ==> states[k].children[id] == Closed || states[k].children[id] == Gone
  {
    RunsKeepInv(states, events, k);
    assert Next(states[k], events[k], states[k + 1]);
  }

  /** A gate that closed unopened stays closed: its component never executes, whoever starts next. */
  lemma {:induction false} ClosedGatesStayClosed(states: seq<Instance>, events: seq<Event>, j: nat, k: nat, id: Identity)
    requires IsRun(states, events) && j <= k < |states|
    requires id in states[j].children && (states[j].children[id] == Closed || states[j].children[id] == Gone)
    ensures id in states[k].children && (states[k].children[id] == Closed || states[k].children[id] == Gone)
    decreases k - j
  {
    if j < k {
      ClosedGatesStayClosed(states, events, j, k - 1, id);
      assert Next(states[k - 1], events[k - 1], states[k]);
      ClosedStep(states[k - 1], events[k - 1], id);
    }
  }

  lemma ClosedStep(s: Instance, e: Event, id: Identity)
    requires Enabled(s, e) && id in s.children && (s.children[id] == Closed || s.children[id] == Gone)
    ensures id in Apply(s, e).children && (Apply(s, e).children[id] == Closed || Apply(s, e).children[id] == Gone)
  {
  }
}
