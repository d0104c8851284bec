/** The redirect-guard rule numbers of one Discovery task. */
module RuleNumbers {

  /** The 32-bit FNV-1a step on one UTF-16 code unit. */
  function Mix(hash: bv32, unit: bv16): bv32 {
    (hash ^ unit as bv32) * 16_777_619
  }

  function Hash(units: seq<bv16>): bv32 {
    if units == [] then 2_166_136_261 else Mix(Hash(units[..|units| - 1]), units[|units| - 1])
  }

  function Base(hash: nat): nat {
    100_000_000 + (hash % 500_000_000) * 2
  }

  /** The code units are those the iteration over "taskId:leaseId" yields. */
  method DiscoveryRuleBase(units: seq<bv16>) returns (base: nat)
    ensures base == Base(Hash(units) as nat)
  {
    var hash: bv32 := 2_166_136_261;
    for i := 0 to |units|
      invariant hash == Hash(units[..i])
    {
      assert units[..i + 1][..i] == units[..i];
      hash := Mix(hash, units[i]);
    }
    assert units[..|units|] == units;
    base := 100_000_000 + (hash as int % 500_000_000) * 2;
  }

  /** A task's two rule numbers. */
  function Pair(base: nat): set<int> { {base, base + 1} }

  /** The pairs of any two tasks are equal or disjoint, and every number fits in 31 bits. */
  lemma PairsAreEqualOrDisjoint(a: nat, b: nat)
    ensures Pair(Base(a)) == Pair(Base(b)) || Pair(Base(a)) !! Pair(Base(b))
    ensures forall id :: id in Pair(Base(a)) ==> 100_000_000 <= id < 0x8000_0000
  {
    var x: int, y: int := Base(a), Base(b);
    var half: int := a % 500_000_000 - b % 500_000_000;
    assert x - y == 2 * half;
    assert x - y != 1 && y - x != 1;
  }

  /** The text "a:084dba84", which begins a task id and a lease id. */
  const FIRST: seq<bv16> := [97, 58, 48, 56, 52, 100, 98, 97, 56, 52]

  /** The text "b:90434406". */
  const SECOND: seq<bv16> := [98, 58, 57, 48, 52, 51, 52, 52, 48, 54]

  lemma MixOn(units: seq<bv16>, k: nat, before: bv32, after: bv32)
    requires k < |units| && Hash(units[..k]) == before && Mix(before, units[k]) == after
    ensures Hash(units[..k + 1]) == after
  {
    assert units[..k + 1][..k] == units[..k];
  }

  lemma HashOfFirst()
    ensures Hash(FIRST) == 4252521671
  {
    assert FIRST[..0] == [];
    MixOn(FIRST, 0, 2166136261, 3826002220);
    MixOn(FIRST, 1, 3826002220, 354725282);
    MixOn(FIRST, 2, 354725282, 3669834966);
    MixOn(FIRST, 3, 3669834966, 1172761258);
    MixOn(FIRST, 4, 1172761258, 2827179706);
    MixOn(FIRST, 5, 2827179706, 616677242);
    MixOn(FIRST, 6, 616677242, 4110406344);
    MixOn(FIRST, 7, 4110406344, 1471717387);
    MixOn(FIRST, 8, 1471717387, 1252274249);
    MixOn(FIRST, 9, 1252274249, 4252521671);
    assert FIRST[..10] == FIRST;
  }

  lemma HashOfSecond()
    ensures Hash(SECOND) == 4252521671
  {
    assert SECOND[..0] == [];
    MixOn(SECOND, 0, 2166136261, 3876335077);
    MixOn(SECOND, 1, 3876335077, 2536257037);
    MixOn(SECOND, 2, 2536257037, 781800412);
    MixOn(SECOND, 3, 781800412, 1197415556);
    MixOn(SECOND, 4, 1197415556, 179972368);
    MixOn(SECOND, 5, 179972368, 101630489);
    MixOn(SECOND, 6, 101630489, 3057364183);
    MixOn(SECOND, 7, 3057364183, 3270584665);
    MixOn(SECOND, 8, 3270584665, 1252274251);
    MixOn(SECOND, 9, 1252274251, 4252521671);
    assert SECOND[..10] == SECOND;
  }

  /** Texts with one hash keep one hash whatever they both go on with. */
  lemma {:induction false} CommonTail(a: seq<bv16>, b: seq<bv16>, tail: seq<bv16>)
    requires Hash(a) == Hash(b)
    ensures Hash(a + tail) == Hash(b + tail)
    decreases |tail|
  {
    if tail == [] {
      assert a + tail == a && b + tail == b;
    } else {
      var front := tail[..|tail| - 1];
      CommonTail(a, b, front);
      assert (a + tail)[..|a + tail| - 1] == a + front && (b + tail)[..|b + tail| - 1] == b + front;
    }
  }

  /** Two real tasks can collide: tasks "a" and "b", under leases that begin differently and go on in
      one way, any way, have one rule pair. */
  lemma TwoTasksShareAPair(rest: seq<bv16>)
    ensures FIRST + rest != SECOND + rest && Hash(FIRST + rest) == Hash(SECOND + rest)
    ensures Pair(Base(Hash(FIRST + rest) as nat)) == Pair(Base(Hash(SECOND + rest) as nat))
  {
    HashOfFirst();
    HashOfSecond();
    CommonTail(FIRST, SECOND, rest);
    assert (FIRST + rest)[0] == 97 && (SECOND + rest)[0] == 98;
  }
}

/** One Discovery browser task against a browser whose answers arrive late and in any order.

    Every browser call is sent, later answered (that is when its effect happens) and later
    settled (that is when its promise callbacks run).  Timeout, external cancellation and a
    navigation error are all `Abort`.  Another task, or the user, may act between any two steps. */
module Executor {
  import opened Wrappers
  import opened RuleNumbers

  type TabId = nat

  datatype Rule = Allow(tab: TabId) | Block(tab: TabId)

  /** `away` are the tabs that have left about:blank; `used` all tab ids ever given out. */
  datatype Browser = Browser(open: set<TabId>, away: set<TabId>, used: set<TabId>, rules: map<int, Rule>)

  datatype Flight = Unsent | Sent | Answered(ok: bool) | Settled(ok: bool)

  /** A cleanup call; `main` is the one the `finally` block waits for. */
  datatype Cleanup = Cleanup(kind: Kind, main: bool, done: bool)
  datatype Kind = CloseTab | ClearRules

  datatype Pc = AtCreate | AtInstall | AtMove | AtNavigate | AtPage | AtClose | AtClear | Over
  datatype Await = Waiting | Settling(ok: bool) | Resolved | Rejected

  /** `tabKept` and `rulesKept` record that Chrome refused to close the open tab, although it was not
      being moved, or to remove the rules; the executor swallows both.
      `tab` and `guarded` are the executor's `tabId` and non-empty `ruleIds`; `made` is the tab
      Chrome really created for the task's request. */
  datatype Task = Task(
    base: nat, visible: bool,
    pc: Pc, await: Await, aborted: bool, finished: bool,
    tab: Option<TabId>, guarded: bool,
    create: Flight, made: Option<TabId>, install: Flight, move: Flight, navigate: Flight,
    cleanups: multiset<Cleanup>, tabKept: bool, rulesKept: bool)

  datatype World = World(task: Task, browser: Browser)

  function Begin(base: nat, visible: bool, alreadyAborted: bool): Task {
    if alreadyAborted then
      Task(base, visible, Over, Waiting, true, true, None, false,
           Unsent, None, Unsent, Unsent, Unsent, multiset{}, false, false)
    else
      Task(base, visible, AtCreate, Waiting, false, false, None, false,
           Sent, None, Unsent, Unsent, Unsent, multiset{}, false, false)
  }

  datatype Event =
    | CreateAnswers(created: Option<TabId>, ok: bool)
    | InstallAnswers(ok: bool)
    | MoveAnswers(ok: bool)
    | NavigateAnswers(ok: bool)
    | CleanupAnswers(call: Cleanup, ok: bool)
    | CreateSettles
    | InstallSettles
    | MoveSettles
    | NavigateSettles
    | CleanupSettles(call: Cleanup)
    | PageSettles(ok: bool)
    | Deliver
    | Abort
    | Resume
    | UserCloses(tab: TabId)
    | OthersAct(browser: Browser)

  /** `finished || controller.signal.aborted`, the test of every late callback. */
  predicate Late(t: Task) { t.finished || t.aborted }

  /** The task's tab is open and not being moved to a window: nothing of the task's own excuses a
      refusal to close it. */
  predicate AtRest(w: World) {
    w.task.made.Some? && w.task.made.value in w.browser.open && w.task.move != Sent
  }

  /** Another task keeps to its own rule pair; ids of tabs are never reused. */
  predicate KeepsClear(task: Task, a: Browser, b: Browser) {
    && a.used <= b.used && b.open <= b.used && b.away <= b.used
    && (task.made.Some? ==> (task.made.value in a.open <==> task.made.value in b.open)
                            && (task.made.value in a.away <==> task.made.value in b.away))
    && (forall id :: id in Pair(task.base) ==>
          (id in a.rules <==> id in b.rules) && (id in a.rules ==> a.rules[id] == b.rules[id]))
  }

  predicate Enabled(w: World, e: Event) {
    var t := w.task;
    match e
    case CreateAnswers(created, ok) =>
      t.create == Sent && (created.Some? ==> ok && created.value !in w.browser.used)
    case InstallAnswers(_) => t.install == Sent
    case MoveAnswers(_) => t.move == Sent
    case NavigateAnswers(ok) => t.navigate == Sent && (ok ==> t.made.Some? && t.made.value in w.browser.open)
    case CleanupAnswers(call, _) => call in t.cleanups && !call.done
    case CreateSettles => t.create.Answered?
    case InstallSettles => t.install.Answered?
    case MoveSettles => t.move.Answered?
    case NavigateSettles => t.navigate.Answered?
    case CleanupSettles(call) => call in t.cleanups && call.done
    case PageSettles(_) => t.pc == AtPage && t.await == Waiting
    case Deliver => t.await.Settling?
    case Abort => !t.finished && !t.aborted
    case Resume => !t.finished && (t.await == Resolved || t.await == Rejected)
    case UserCloses(tab) => tab in w.browser.open
    case OthersAct(b) => KeepsClear(t, w.browser, b)
  }

  function Guards(base: nat, tab: TabId): map<int, Rule> {
    map[base := Allow(tab), base + 1 := Block(tab)]
  }

  /** The promise the main flow waits for, if it still waits, goes on to settle. */
  function Proceed(t: Task, pc: Pc, ok: bool): Task {
    if t.pc == pc && t.await == Waiting then t.(await := Settling(ok)) else t
  }

  function Request(t: Task, kind: Kind, main: bool): Task {
    t.(cleanups := t.cleanups + multiset{Cleanup(kind, main, false)})
  }

  function CreateSettled(t: Task): Task
    requires t.create.Answered?
  {
    var ok := t.create.ok;
    var s := t.(create := Settled(ok));
    if !ok then Proceed(s, AtCreate, false)
    else
      var s := s.(tab := t.made);
      if s.tab.Some? && Late(s) then Request(s, CloseTab, false) else Proceed(s, AtCreate, true)
  }

  function InstallSettled(t: Task): Task
    requires t.install.Answered?
  {
    var ok := t.install.ok;
    var s := t.(install := Settled(ok));
    if Late(s) then (if s.guarded then Request(s, ClearRules, false) else s) else Proceed(s, AtInstall, ok)
  }

  function MoveSettled(t: Task): Task
    requires t.move.Answered?
  {
    var ok := t.move.ok;
    var s := t.(move := Settled(ok));
    if Late(s) then Request(s, CloseTab, false) else Proceed(s, AtMove, ok)
  }

  /** The `finally` block up to its first wait, and after the tab was closed. */
  function Finally(t: Task): Task {
    var s := t.(finished := true);
    if s.tab.Some? then Request(s, CloseTab, true).(pc := AtClose, await := Waiting) else AfterClose(s)
  }

  function AfterClose(t: Task): Task {
    if t.guarded then Request(t, ClearRules, true).(pc := AtClear, await := Waiting)
    else t.(pc := Over, await := Waiting)
  }

  /** The main flow from one `await` to the next. */
  function Resumed(t: Task): Task {
    if t.await == Rejected || t.pc == AtPage then Finally(t)
    else match t.pc
      case AtCreate =>
        if t.tab.None? || t.aborted then Finally(t)
        else t.(guarded := true, install := Sent, pc := AtInstall, await := Waiting)
      case AtInstall =>
        if t.aborted then Finally(t)
        else if t.visible then t.(move := Sent, pc := AtMove, await := Waiting)
        else t.(navigate := Sent, pc := AtNavigate, await := Waiting)
      case AtMove =>
        if t.aborted then Finally(t) else t.(navigate := Sent, pc := AtNavigate, await := Waiting)
      case AtNavigate => if t.aborted then Finally(t) else t.(pc := AtPage, await := Waiting)
      case _ => t
  }

  function CleanupSettled(t: Task, call: Cleanup): Task
    requires call in t.cleanups
  {
    var s := t.(cleanups := t.cleanups - multiset{call});
    if !call.main then s else if call.kind == CloseTab then AfterClose(s) else s.(pc := Over)
  }

  function CleanupAnswered(w: World, call: Cleanup, ok: bool): World
    requires call in w.task.cleanups
  {
    var t := w.task.(cleanups := w.task.cleanups - multiset{call} + multiset{call.(done := true)},
                     tabKept := w.task.tabKept || (!ok && call.kind == CloseTab && AtRest(w)),
                     rulesKept := w.task.rulesKept || (!ok && call.kind == ClearRules));
    var b := w.browser;
    World(t,
          if !ok then b
          else if call.kind == ClearRules then b.(rules := b.rules - Pair(t.base))
          else if t.made.Some? then b.(open := b.open - {t.made.value}) else b)
  }

  function Apply(w: World, e: Event): World
    requires Enabled(w, e)
  {
    var t, b := w.task, w.browser;
    match e
    case CreateAnswers(created, ok) =>
      World(t.(create := Answered(ok), made := created),
            if created.Some? then b.(open := b.open + {created.value}, used := b.used + {created.value}) else b)
    case InstallAnswers(ok) =>
      World(t.(install := Answered(ok)),
            if ok && t.tab.Some? then b.(rules := b.rules + Guards(t.base, t.tab.value)) else b)
    case MoveAnswers(ok) => World(t.(move := Answered(ok)), b)
    case NavigateAnswers(ok) =>
      World(t.(navigate := Answered(ok)), if ok then b.(away := b.away + {t.made.value}) else b)
    case CleanupAnswers(call, ok) => CleanupAnswered(w, call, ok)
    case CreateSettles => w.(task := CreateSettled(t))
    case InstallSettles => w.(task := InstallSettled(t))
    case MoveSettles => w.(task := MoveSettled(t))
    case NavigateSettles => w.(task := Proceed(t.(navigate := Settled(t.navigate.ok)), AtNavigate, t.navigate.ok))
    case CleanupSettles(call) => w.(task := CleanupSettled(t, call))
    case PageSettles(ok) => w.(task := Proceed(t, AtPage, ok))
    case Deliver => w.(task := t.(await := if t.await.ok then Resolved else Rejected))
    case Abort => w.(task := t.(aborted := true,
                                await := if t.await.Waiting? || t.await.Settling? then Rejected else t.await))
    case Resume => w.(task := Resumed(t))
    case UserCloses(tab) => w.(browser := b.(open := b.open - {tab}))
    case OthersAct(after) => w.(browser := after)
  }

  /** Every interleaving is a run. */
  ghost predicate IsRun(run: seq<World>) {
    && run != []
    && (exists base, visible, aborted, browser ::
          run[0] == World(Begin(base, visible, aborted), browser) && Fresh(run[0]))
    && forall i :: 0 < i < |run| ==> Follows(run[i - 1], run[i])
  }

  ghost predicate Follows(a: World, b: World) {
    exists e :: Enabled(a, e) && b == Apply(a, e)
  }

  /** At the start the browser holds none of the task's rules, and knows its own tab ids. */
  predicate Fresh(w: World) {
    && w.browser.open <= w.browser.used && w.browser.away <= w.browser.used
    && forall id :: id in Pair(w.task.base) ==> id !in w.browser.rules
  }

  predicate Has(t: Task, kind: Kind) {
    Cleanup(kind, true, false) in t.cleanups || Cleanup(kind, false, false) in t.cleanups
  }

  /** Someone will still close the task's tab. */
  predicate WillClose(t: Task) {
    || t.create.Answered?
    || (t.tab == t.made && (!t.finished || Has(t, CloseTab) || t.move == Sent || t.move.Answered?))
  }

  /** Someone will still remove the task's rules. */
  predicate WillClear(t: Task) {
    && t.guarded
    && (!t.finished || t.pc == AtClose || Has(t, ClearRules) || t.install == Sent || t.install.Answered?)
  }

  predicate RulesInstalled(w: World, tab: TabId) {
    var r := w.browser.rules;
    var base := w.task.base;
    base in r && r[base] == Allow(tab) && base + 1 in r && r[base + 1] == Block(tab)
  }

  /** The main flow got past the installation of its guards. */
  predicate Armed(t: Task) {
    || (t.pc == AtInstall && (t.await == Settling(true) || t.await == Resolved))
    || t.pc == AtMove || t.pc == AtNavigate || t.pc == AtPage
  }

  predicate MayBeAway(w: World) {
    || w.task.navigate == Sent
    || (w.task.made.Some? && w.task.made.value in w.browser.away)
  }

  /** Which calls can exist at which point of the main flow. */
  predicate Shape(t: Task) {
    && (t.finished <==> t.pc == AtClose || t.pc == AtClear || t.pc == Over)
    && (t.aborted && !t.finished ==> t.await == Resolved || t.await == Rejected)
    && (t.made.Some? ==> t.create.Answered? || t.create.Settled?)
    && (t.create == Answered(false) || t.create == Settled(false) ==> t.made.None?)
    && (t.create.Settled? ==> t.tab == t.made) && (!t.create.Settled? ==> t.tab.None?)
    && (t.guarded ==> t.tab.Some? && t.create.Settled?) && (t.guarded <==> t.install != Unsent)
    && (t.pc == AtCreate ==> !t.guarded)
    && (t.pc == AtInstall || t.pc == AtMove || t.pc == AtNavigate || t.pc == AtPage ==> t.guarded)
    && (t.pc == AtCreate || t.pc == AtInstall ==> t.move == Unsent)
    && (t.pc == AtCreate || t.pc == AtInstall || t.pc == AtMove ==> t.navigate == Unsent)
    && (t.move != Unsent || t.navigate != Unsent ==> t.guarded)
    && (t.pc == AtCreate && t.await.Waiting? ==> t.create == Sent || t.create.Answered?)
    && (t.pc == AtInstall && t.await.Waiting? ==> t.install == Sent || t.install.Answered?)
    && (t.pc == AtMove && (t.await.Settling? || t.await.Resolved?) ==> t.move.Settled?)
    && (t.pc == AtMove && t.await.Waiting? ==> t.move == Sent || t.move.Answered?)
    && (t.pc == AtNavigate && t.await.Waiting? ==> t.navigate == Sent || t.navigate.Answered?)
  }

  /** The `finally` block waits for exactly one cleanup at a time. */
  predicate OneMainCleanup(t: Task) {
    && t.cleanups[Cleanup(CloseTab, true, false)] + t.cleanups[Cleanup(CloseTab, true, true)]
       == (if t.pc == AtClose then 1 else 0)
    && t.cleanups[Cleanup(ClearRules, true, false)] + t.cleanups[Cleanup(ClearRules, true, true)]
       == (if t.pc == AtClear then 1 else 0)
    && (!Late(t) ==> t.cleanups == multiset{})
  }

  predicate KnownTabs(w: World) {
    && w.browser.open <= w.browser.used && w.browser.away <= w.browser.used
    && (w.task.made.Some? ==> w.task.made.value in w.browser.used)
    && (w.task.made.Some? && w.task.made.value in w.browser.away ==> w.task.navigate != Unsent)
  }

  predicate NoLeak(w: World) {
    && (w.task.made.Some? && w.task.made.value in w.browser.open ==> WillClose(w.task) || w.task.tabKept)
    && (forall id :: id in Pair(w.task.base) && id in w.browser.rules ==> WillClear(w.task) || w.task.rulesKept)
  }

  /** Nothing that could still remove the rules is under way. */
  predicate Sheltered(w: World) {
    && w.task.made.Some? && RulesInstalled(w, w.task.made.value) && !Has(w.task, ClearRules)
  }

  predicate Guarded(w: World) {
    var t := w.task;
    && (!Late(t) && (t.install == Answered(true) || t.install == Settled(true)) ==>
          t.made.Some? && RulesInstalled(w, t.made.value))
    && (Armed(t) ==> t.install == Settled(true) && Sheltered(w))
    && (MayBeAway(w) ==>
          && t.install == Settled(true) && t.move != Sent && !t.move.Answered?
          && (t.made.Some? && t.made.value in w.browser.open && !t.tabKept ==>
                Sheltered(w) && Cleanup(CloseTab, true, true) !in t.cleanups && Cleanup(CloseTab, false, true) !in t.cleanups))
  }

  predicate Inv(w: World) {
    Shape(w.task) && OneMainCleanup(w.task) && KnownTabs(w) && NoLeak(w) && Guarded(w)
  }

  lemma BeginKeepsInv(w: World)
    requires Fresh(w) && exists base, visible, aborted :: w.task == Begin(base, visible, aborted)
    ensures Inv(w)
  {
  }

  lemma AnswersKeepInv(w: World, e: Event)
    requires Inv(w) && Enabled(w, e)
    requires e.CreateAnswers? || e.InstallAnswers? || e.MoveAnswers? || e.NavigateAnswers?
    ensures Inv(Apply(w, e))
  {
  }

  lemma CleanupAnswersKeepInv(w: World, e: Event)
    requires Inv(w) && Enabled(w, e) && e.CleanupAnswers?
    ensures Inv(Apply(w, e))
  {
    if e.call.kind == CloseTab {
      CloseAnswersKeepInv(w, e);
    } else {
      ClearAnswersKeepInv(w, e);
    }
  }

  lemma CloseAnswersKeepInv(w: World, e: Event)
    requires Inv(w) && Enabled(w, e) && e.CleanupAnswers? && e.call.kind == CloseTab
    ensures Inv(Apply(w, e))
  {
  }

  lemma ClearAnswersKeepInv(w: World, e: Event)
    requires Inv(w) && Enabled(w, e) && e.CleanupAnswers? && e.call.kind == ClearRules
    ensures Inv(Apply(w, e))
  {
    var t := Apply(w, e).task;
    assert Late(t) && OneMainCleanup(t) && Shape(t);
    assert Has(t, CloseTab) == Has(w.task, CloseTab) && (Has(t, ClearRules) ==> Has(w.task, ClearRules));
  }

  lemma CreateSettlesKeepsInv(w: World, e: Event)
    requires Inv(w) && Enabled(w, e) && e.CreateSettles?
    ensures Inv(Apply(w, e))
  {
    if w.task.create == Answered(false) {
      FailedCreateKeepsInv(w);
    } else if w.task.made.Some? && Late(w.task) {
      LateCreateKeepsInv(w);
    } else {
      EarlyCreateKeepsInv(w);
    }
  }

  lemma FailedCreateKeepsInv(w: World)
    requires Inv(w) && w.task.create == Answered(false)
    ensures Inv(w.(task := CreateSettled(w.task)))
  {
  }

  lemma EarlyCreateKeepsInv(w: World)
    requires Inv(w) && w.task.create == Answered(true) && (w.task.made.None? || !Late(w.task))
    ensures Inv(w.(task := CreateSettled(w.task)))
  {
    EarlyCreateKeepsShape(w.task);
  }

  lemma EarlyCreateKeepsShape(t: Task)
    requires Shape(t) && OneMainCleanup(t) && t.create == Answered(true) && (t.made.None? || !Late(t))
    ensures var s := CreateSettled(t);
            Shape(s) && OneMainCleanup(s) && s.tab == t.made && !s.guarded && !Armed(s) && s.cleanups == t.cleanups
  {
    assert CreateSettled(t) == Proceed(t.(create := Settled(true), tab := t.made), AtCreate, true);
  }

  lemma LateCreateKeepsInv(w: World)
    requires Inv(w) && w.task.create.Answered? && w.task.made.Some? && Late(w.task)
    ensures Inv(w.(task := CreateSettled(w.task)))
  {
    var t := CreateSettled(w.task);
    assert t == Request(w.task.(create := Settled(true), tab := w.task.made), CloseTab, false);
    assert !w.task.guarded && t.install == Unsent && t.move == Unsent && t.navigate == Unsent;
    assert OneMainCleanup(t) && Shape(t);
  }

  lemma InstallSettlesKeepsInv(w: World, e: Event)
    requires Inv(w) && Enabled(w, e) && e.InstallSettles?
    ensures Inv(Apply(w, e))
  {
  }

  lemma MoveSettlesKeepsInv(w: World, e: Event)
    requires Inv(w) && Enabled(w, e) && e.MoveSettles?
    ensures Inv(Apply(w, e))
  {
  }

  lemma NavigateSettlesKeepsInv(w: World, e: Event)
    requires Inv(w) && Enabled(w, e) && e.NavigateSettles?
    ensures Inv(Apply(w, e))
  {
  }

  lemma PageSettlesKeepsInv(w: World, e: Event)
    requires Inv(w) && Enabled(w, e) && e.PageSettles?
    ensures Inv(Apply(w, e))
  {
  }

  lemma CleanupSettlesKeepsInv(w: World, e: Event)
    requires Inv(w) && Enabled(w, e) && e.CleanupSettles?
    ensures Inv(Apply(w, e))
  {
    if !e.call.main {
      LateCleanupSettlesKeepsInv(w, e);
    } else if e.call.kind == CloseTab {
      MainCloseSettlesKeepsInv(w, e);
    } else {
      MainClearSettlesKeepsInv(w, e);
    }
  }

  lemma LateCleanupSettlesKeepsInv(w: World, e: Event)
    requires Inv(w) && Enabled(w, e) && e.CleanupSettles? && !e.call.main
    ensures Inv(Apply(w, e))
  {
    var t := Apply(w, e).task;
    assert forall c: Cleanup :: c.main || !c.done ==> t.cleanups[c] == w.task.cleanups[c];
    assert Has(t, CloseTab) == Has(w.task, CloseTab) && Has(t, ClearRules) == Has(w.task, ClearRules);
  }

  lemma MainCloseSettlesKeepsInv(w: World, e: Event)
    requires Inv(w) && Enabled(w, e) && e.CleanupSettles? && e.call == Cleanup(CloseTab, true, true)
    ensures Inv(Apply(w, e))
  {
    var t := Apply(w, e).task;
    assert w.task.pc == AtClose && Late(w.task);
    assert t.cleanups[Cleanup(CloseTab, true, false)] == 0 && t.cleanups[Cleanup(CloseTab, true, true)] == 0;
    assert Has(w.task, CloseTab) ==> Has(t, CloseTab);
    assert OneMainCleanup(t) && Shape(t);
    assert NoLeak(Apply(w, e));
  }

  lemma MainClearSettlesKeepsInv(w: World, e: Event)
    requires Inv(w) && Enabled(w, e) && e.CleanupSettles? && e.call == Cleanup(ClearRules, true, true)
    ensures Inv(Apply(w, e))
  {
    var t := Apply(w, e).task;
    assert w.task.pc == AtClear && Late(w.task);
    assert t.cleanups[Cleanup(ClearRules, true, false)] == 0 && t.cleanups[Cleanup(ClearRules, true, true)] == 0;
    assert Has(w.task, ClearRules) ==> Has(t, ClearRules);
    assert OneMainCleanup(t) && Shape(t);
  }

  lemma DeliverKeepsInv(w: World, e: Event)
    requires Inv(w) && Enabled(w, e) && e.Deliver?
    ensures Inv(Apply(w, e))
  {
  }

  lemma AbortKeepsInv(w: World, e: Event)
    requires Inv(w) && Enabled(w, e) && e.Abort?
    ensures Inv(Apply(w, e))
  {
  }

  lemma FinallyKeepsInv(w: World)
    requires Inv(w) && !w.task.finished
    ensures Inv(w.(task := Finally(w.task)))
  {
    var t := Finally(w.task);
    assert !Armed(t) && OneMainCleanup(t) && Shape(t);
    if w.task.tab.Some? {
      assert t.cleanups == w.task.cleanups + multiset{Cleanup(CloseTab, true, false)};
      assert Has(t, CloseTab) && Has(t, ClearRules) == Has(w.task, ClearRules);
    } else {
      assert t == w.task.(finished := true, pc := Over, await := Waiting);
    }
  }

  predicate Stops(t: Task) {
    t.await == Rejected || t.pc == AtPage || t.aborted || (t.pc == AtCreate && t.tab.None?)
  }

  lemma GoingOnKeepsInv(w: World)
    requires Inv(w) && !w.task.finished && w.task.await == Resolved && !Stops(w.task)
    ensures Inv(w.(task := Resumed(w.task)))
  {
    var t, r := w.task, Resumed(w.task);
    assert r.cleanups == t.cleanups == multiset{};
    if t.pc == AtCreate {
      assert r == t.(guarded := true, install := Sent, pc := AtInstall, await := Waiting);
    } else if t.pc == AtNavigate {
      assert r == t.(pc := AtPage, await := Waiting);
    } else if t.pc == AtInstall && t.visible {
      assert r == t.(move := Sent, pc := AtMove, await := Waiting);
    } else {
      assert r == t.(navigate := Sent, pc := AtNavigate, await := Waiting);
    }
  }

  lemma ResumeKeepsInv(w: World, e: Event)
    requires Inv(w) && Enabled(w, e) && e.Resume?
    ensures Inv(Apply(w, e))
  {
    if Stops(w.task) {
      FinallyKeepsInv(w);
    } else {
      GoingOnKeepsInv(w);
    }
  }

  lemma OthersKeepInv(w: World, e: Event)
    requires Inv(w) && Enabled(w, e)
    requires e.UserCloses? || e.OthersAct?
    ensures Inv(Apply(w, e))
  {
  }

  lemma StepKeepsInv(w: World, e: Event)
    requires Inv(w) && Enabled(w, e)
    ensures Inv(Apply(w, e))
  {
    match e
    case CreateAnswers(_, _) => AnswersKeepInv(w, e);
    case InstallAnswers(_) => AnswersKeepInv(w, e);
    case MoveAnswers(_) => AnswersKeepInv(w, e);
    case NavigateAnswers(_) => AnswersKeepInv(w, e);
    case CleanupAnswers(_, _) => CleanupAnswersKeepInv(w, e);
    case CreateSettles => CreateSettlesKeepsInv(w, e);
    case InstallSettles => InstallSettlesKeepsInv(w, e);
    case MoveSettles => MoveSettlesKeepsInv(w, e);
    case NavigateSettles => NavigateSettlesKeepsInv(w, e);
    case CleanupSettles(_) => CleanupSettlesKeepsInv(w, e);
    case PageSettles(_) => PageSettlesKeepsInv(w, e);
    case Deliver => DeliverKeepsInv(w, e);
    case Abort => AbortKeepsInv(w, e);
    case Resume => ResumeKeepsInv(w, e);
    case UserCloses(_) => OthersKeepInv(w, e);
    case OthersAct(_) => OthersKeepInv(w, e);
  }

  lemma {:induction false} RunsKeepInv(run: seq<World>, i: nat)
    requires IsRun(run) && i < |run|
    ensures Inv(run[i])
  {
    if i == 0 {
      BeginKeepsInv(run[0]);
    } else {
      RunsKeepInv(run, i - 1);
      assert Follows(run[i - 1], run[i]);
      var e :| Enabled(run[i - 1], e) && run[i] == Apply(run[i - 1], e);
      StepKeepsInv(run[i - 1], e);
    }
  }

  /** The task is over and every call it ever made has settled. */
  predicate Quiet(t: Task) {
    && t.pc == Over && t.cleanups == multiset{}
    && t.create != Sent && !t.create.Answered? && t.install != Sent && !t.install.Answered?
    && t.move != Sent && !t.move.Answered? && t.navigate != Sent && !t.navigate.Answered?
  }

  /** In every interleaving, a task that is over and quiet has left its tab open only if Chrome
      refused to close it at rest, and left a rule only if Chrome refused to remove it. */
  lemma NothingLeaks(run: seq<World>, i: nat)
    requires IsRun(run) && i < |run| && Quiet(run[i].task)
    ensures run[i].task.made.Some? && run[i].task.made.value in run[i].browser.open ==> run[i].task.tabKept
    ensures forall id :: id in Pair(run[i].task.base) && id in run[i].browser.rules ==> run[i].task.rulesKept
  {
    RunsKeepInv(run, i);
  }

  /** In every interleaving, an open tab that is away from about:blank has both of its rules, unless
      Chrome has refused to close that tab at rest. */
  lemma GuardBeforeNavigation(run: seq<World>, i: nat)
    requires IsRun(run) && i < |run| && run[i].task.made.Some?
    requires run[i].task.made.value in run[i].browser.open && run[i].task.made.value in run[i].browser.away
    ensures RulesInstalled(run[i], run[i].task.made.value) || run[i].task.tabKept
  {
    RunsKeepInv(run, i);
  }

  /** A task never waits for a call that nobody will answer: until it is quiet, something other
      than an abort or an outsider can happen next. */
  lemma NeverStuck(run: seq<World>, i: nat)
    requires IsRun(run) && i < |run| && !Quiet(run[i].task)
    ensures exists e :: OwnMove(run[i], e)
  {
    RunsKeepInv(run, i);
    var t := run[i].task;
    if t.create == Sent || t.create.Answered? || t.install == Sent || t.install.Answered? {
      EarlyCallsMoveOn(run[i]);
    } else if t.move == Sent || t.move.Answered? || t.navigate == Sent || t.navigate.Answered? {
      LateCallsMoveOn(run[i]);
    } else {
      OthersMoveOn(run[i]);
    }
  }

  predicate OwnMove(w: World, e: Event) {
    Enabled(w, e) && !e.Abort? && !e.UserCloses? && !e.OthersAct?
  }

  lemma EarlyCallsMoveOn(w: World)
    requires var t := w.task; t.create == Sent || t.create.Answered? || t.install == Sent || t.install.Answered?
    ensures exists e :: OwnMove(w, e)
  {
    if w.task.create == Sent { assert OwnMove(w, CreateAnswers(None, false)); }
    else if w.task.create.Answered? { assert OwnMove(w, CreateSettles); }
    else if w.task.install == Sent { assert OwnMove(w, InstallAnswers(true)); }
    else { assert OwnMove(w, InstallSettles); }
  }

  lemma LateCallsMoveOn(w: World)
    requires var t := w.task; t.move == Sent || t.move.Answered? || t.navigate == Sent || t.navigate.Answered?
    ensures exists e :: OwnMove(w, e)
  {
    if w.task.move == Sent { assert OwnMove(w, MoveAnswers(true)); }
    else if w.task.move.Answered? { assert OwnMove(w, MoveSettles); }
    else if w.task.navigate == Sent { assert OwnMove(w, NavigateAnswers(false)); }
    else { assert OwnMove(w, NavigateSettles); }
  }

  lemma OthersMoveOn(w: World)
    requires Inv(w) && !Quiet(w.task)
    requires var t := w.task; t.create != Sent && !t.create.Answered? && t.install != Sent && !t.install.Answered?
    requires var t := w.task; t.move != Sent && !t.move.Answered? && t.navigate != Sent && !t.navigate.Answered?
    ensures exists e :: OwnMove(w, e)
  {
    var t := w.task;
    if t.cleanups != multiset{} {
      var call :| call in t.cleanups;
      assert if call.done then OwnMove(w, CleanupSettles(call)) else OwnMove(w, CleanupAnswers(call, true));
    }
    else if t.pc == AtPage && t.await == Waiting { assert OwnMove(w, PageSettles(true)); }
    else if t.await.Settling? { assert OwnMove(w, Deliver); }
    else { assert OwnMove(w, Resume); }
  }

  /** What any other task does to the shared browser leaves this one clear, exactly as
      `OthersAct` allows, as long as the two rule pairs differ. */
  lemma OtherTasksKeepClear(mine: Task, other: Task, b: Browser, e: Event)
    requires Inv(World(mine, b)) && Inv(World(other, b)) && Enabled(World(other, b), e)
    requires !e.UserCloses? && !e.OthersAct?
    requires Pair(mine.base) !! Pair(other.base)
    requires mine.made.Some? ==> mine.made != other.made
    ensures KeepsClear(mine, b, Apply(World(other, b), e).browser)
  {
    assert forall id :: id in Pair(mine.base) ==> id !in Pair(other.base);
  }

  /** Another task's own step `e`, in a browser that both tasks fit. */
  predicate Meets(mine: Task, other: Task, b: Browser, e: Event) {
    && Inv(World(mine, b)) && Inv(World(other, b)) && Enabled(World(other, b), e)
    && !e.UserCloses? && !e.OthersAct? && (mine.made.Some? ==> mine.made != other.made)
  }

  /** No task on base `b` can ever disturb a task on base `a`. */
  ghost predicate AlwaysClear(a: nat, b: nat) {
    forall mine: Task, other: Task, browser: Browser, e: Event
      | mine.base == a && other.base == b && Meets(mine, other, browser, e)
      :: KeepsClear(mine, browser, Apply(World(other, browser), e).browser)
  }

  /** Tasks keep clear of one another exactly when their bases differ. */
  lemma ClearExactlyWhenBasesDiffer(x: nat, y: nat)
    ensures AlwaysClear(Base(x), Base(y)) <==> Base(x) != Base(y)
  {
    PairsAreEqualOrDisjoint(x, y);
    if Base(x) == Base(y) {
      ClearingDisturbs(Base(x));
    } else {
      assert Base(x) in Pair(Base(x)) && Base(x) + 1 in Pair(Base(x));
      assert Pair(Base(x)) != Pair(Base(y));
      forall mine: Task, other: Task, browser: Browser, e: Event
        | mine.base == Base(x) && other.base == Base(y) && Meets(mine, other, browser, e)
        ensures KeepsClear(mine, browser, Apply(World(other, browser), e).browser)
      {
        OtherTasksKeepClear(mine, other, browser, e);
      }
    }
  }

  /** One task reads its page while another, over and closed, is about to clear the same pair. */
  lemma ClearingDisturbs(base: nat)
    ensures !AlwaysClear(base, base)
  {
    var mine := Task(base, false, AtPage, Waiting, false, false, Some(7), true, Settled(true), Some(7),
                     Settled(true), Unsent, Settled(true), multiset{}, false, false);
    var clear := Cleanup(ClearRules, true, false);
    var other := Task(base, false, AtClear, Waiting, true, true, Some(8), true, Settled(true), Some(8),
                      Settled(true), Unsent, Unsent, multiset{clear}, false, false);
    var browser := Browser({7}, {7}, {7, 8}, Guards(base, 7));
    assert Inv(World(mine, browser));
    assert Inv(World(other, browser));
    assert Meets(mine, other, browser, CleanupAnswers(clear, true));
    SharedPairIsNotClear(mine, other, browser, clear);
  }

  /** With the same pair there is no such protection: the other task's own cleanup takes away
      the rules this one stands behind. */
  lemma SharedPairIsNotClear(mine: Task, other: Task, b: Browser, call: Cleanup)
    requires mine.base == other.base && mine.made.Some? && RulesInstalled(World(mine, b), mine.made.value)
    requires Enabled(World(other, b), CleanupAnswers(call, true)) && call.kind == ClearRules
    ensures !KeepsClear(mine, b, Apply(World(other, b), CleanupAnswers(call, true)).browser)
    ensures !RulesInstalled(World(mine, Apply(World(other, b), CleanupAnswers(call, true)).browser), mine.made.value)
  {
    assert mine.base in Pair(mine.base);
  }

  // ---- the refused close --------------------------------------------------------------------

  ghost predicate Reachable(w: World) {
    exists run :: IsRun(run) && run[|run| - 1] == w
  }

  lemma StepsReach(w: World, e: Event)
    requires Reachable(w) && Enabled(w, e)
    ensures Reachable(Apply(w, e))
  {
    var run :| IsRun(run) && run[|run| - 1] == w;
    var longer := run + [Apply(w, e)];
    forall i | 0 < i < |longer| ensures Follows(longer[i - 1], longer[i]) {
      if i < |run| {
        assert Follows(run[i - 1], run[i]);
      }
    }
    assert IsRun(longer);
  }

  const BASE: nat := 100_000_000

  /** A background task on its way: tab 7 is made, guarded and navigated, as `pc` says. */
  function OnTheWay(pc: Pc, await: Await, install: Flight, navigate: Flight, away: set<TabId>): World {
    World(Task(BASE, false, pc, await, false, false, Some(7), install != Unsent, Settled(true), Some(7),
               install, Unsent, navigate, multiset{}, false, false),
          Browser({7}, away, {7}, if install == Unsent || install == Sent then map[] else Guards(BASE, 7)))
  }

  lemma TabIsMade()
    ensures Reachable(OnTheWay(AtCreate, Resolved, Unsent, Unsent, {}))
  {
    var w := World(Begin(BASE, false, false), Browser({}, {}, {}, map[]));
    assert Fresh(w) && IsRun([w]);
    assert [w][|[w]| - 1] == w;
    StepsReach(w, CreateAnswers(Some(7), true));
    var w1 := Apply(w, CreateAnswers(Some(7), true));
    StepsReach(w1, CreateSettles);
    var w2 := Apply(w1, CreateSettles);
    StepsReach(w2, Deliver);
    assert Apply(w2, Deliver) == OnTheWay(AtCreate, Resolved, Unsent, Unsent, {});
  }

  lemma TabIsGuarded()
    ensures Reachable(OnTheWay(AtInstall, Resolved, Settled(true), Unsent, {}))
  {
    TabIsMade();
    var w := OnTheWay(AtCreate, Resolved, Unsent, Unsent, {});
    StepsReach(w, Resume);
    var w1 := OnTheWay(AtInstall, Waiting, Sent, Unsent, {});
    assert Apply(w, Resume) == w1;
    StepsReach(w1, InstallAnswers(true));
    var w2 := OnTheWay(AtInstall, Waiting, Answered(true), Unsent, {});
    assert Apply(w1, InstallAnswers(true)) == w2;
    StepsReach(w2, InstallSettles);
    var w3 := OnTheWay(AtInstall, Settling(true), Settled(true), Unsent, {});
    assert Apply(w2, InstallSettles) == w3;
    StepsReach(w3, Deliver);
    assert Apply(w3, Deliver) == OnTheWay(AtInstall, Resolved, Settled(true), Unsent, {});
  }

  lemma TabIsNavigated()
    ensures Reachable(OnTheWay(AtPage, Waiting, Settled(true), Settled(true), {7}))
  {
    TabIsGuarded();
    var w := OnTheWay(AtInstall, Resolved, Settled(true), Unsent, {});
    StepsReach(w, Resume);
    var w1 := OnTheWay(AtNavigate, Waiting, Settled(true), Sent, {});
    assert Apply(w, Resume) == w1;
    StepsReach(w1, NavigateAnswers(true));
    var w2 := OnTheWay(AtNavigate, Waiting, Settled(true), Answered(true), {7});
    assert Apply(w1, NavigateAnswers(true)) == w2;
    StepsReach(w2, NavigateSettles);
    var w3 := OnTheWay(AtNavigate, Settling(true), Settled(true), Settled(true), {7});
    assert Apply(w2, NavigateSettles) == w3;
    StepsReach(w3, Deliver);
    var w4 := OnTheWay(AtNavigate, Resolved, Settled(true), Settled(true), {7});
    assert Apply(w3, Deliver) == w4;
    StepsReach(w4, Resume);
    assert Apply(w4, Resume) == OnTheWay(AtPage, Waiting, Settled(true), Settled(true), {7});
  }

  /** The page has answered and the `finally` block waits for the close. */
  lemma CloseIsAsked() returns (w: World)
    ensures Reachable(w) && w.task.pc == AtClose && w.task.guarded && w.task.made == Some(7) && w.task.move == Unsent
    ensures w.task.base == BASE && w.task.cleanups == multiset{Cleanup(CloseTab, true, false)}
    ensures w.browser == Browser({7}, {7}, {7}, Guards(BASE, 7))
  {
    TabIsNavigated();
    w := OnTheWay(AtPage, Waiting, Settled(true), Settled(true), {7});
    StepsReach(w, PageSettles(true));
    w := Apply(w, PageSettles(true));
    StepsReach(w, Deliver);
    w := Apply(w, Deliver);
    StepsReach(w, Resume);
    w := Apply(w, Resume);
  }

  /** The refusal does take the guard away: after it the `finally` block goes on and removes the
      rules of a tab that is still open and navigated. */
  lemma RefusedCloseUnguards() returns (w: World)
    ensures Reachable(w) && w.task.tabKept
    ensures 7 in w.browser.open * w.browser.away && w.task.made == Some(7) && !RulesInstalled(w, 7)
  {
    w := CloseIsAsked();
    var close := Cleanup(CloseTab, true, false);
    StepsReach(w, CleanupAnswers(close, false));
    w := Apply(w, CleanupAnswers(close, false));
    assert w.task.cleanups == multiset{Cleanup(CloseTab, true, true)};
    StepsReach(w, CleanupSettles(Cleanup(CloseTab, true, true)));
    w := Apply(w, CleanupSettles(Cleanup(CloseTab, true, true)));
    var clear := Cleanup(ClearRules, true, false);
    assert w.task.cleanups == multiset{clear};
    StepsReach(w, CleanupAnswers(clear, true));
    w := Apply(w, CleanupAnswers(clear, true));
    assert BASE in Pair(BASE);
  }

  /** And it does so from every state in which the `finally` block waits for that close. */
  lemma RefusedCloseWouldUnguard(w: World)
    requires Inv(w) && w.task.pc == AtClose && w.task.guarded && Cleanup(CloseTab, true, false) in w.task.cleanups
    requires w.task.made.Some? && w.task.made.value in w.browser.open * w.browser.away
    ensures var refused := Apply(w, CleanupAnswers(Cleanup(CloseTab, true, false), false));
            && Enabled(refused, CleanupSettles(Cleanup(CloseTab, true, true)))
            && var clearing := Apply(refused, CleanupSettles(Cleanup(CloseTab, true, true)));
            && Enabled(clearing, CleanupAnswers(Cleanup(ClearRules, true, false), true))
            && var done := Apply(clearing, CleanupAnswers(Cleanup(ClearRules, true, false), true));
               w.task.made.value in done.browser.open * done.browser.away && !RulesInstalled(done, w.task.made.value)
  {
    assert w.task.base in Pair(w.task.base);
  }
}
