/** The demo edge's tables: rate windows, retry digests, daily counters, product events, and the
    sweep that expires them.  Times are milliseconds. */
module Retention {

  const MINUTE: nat := 60_000
  const HOUR: nat := 3_600_000
  const DAY: nat := 86_400_000

  const OPERATIONAL_LIMIT: nat := 120
  const SESSION_LIMIT: nat := 30
  const GLOBAL_LIMIT: nat := 2_000
  const MARGIN: nat := 2 * HOUR
  const DIGEST_AGE: nat := 24 * HOUR
  const PRODUCT_AGE: nat := 90 * DAY
  const COOKIE_AGE: nat := 180 * DAY - MARGIN

  /** A window of one minute for one endpoint, one session, or (with an empty scope) everyone. */
  datatype Window = Window(scope: string, minute: nat)

  /** `writtenAt` is not a column: it names the write that set the expiry. */
  datatype Rate = Rate(count: nat, writtenAt: nat, expiresAt: int)

  datatype Digest = Digest(writtenAt: nat, expiresAt: int)

  datatype CounterKey = CounterKey(day: nat, dimensions: string)

  datatype Counter = Counter(count: nat, expiresAt: int)

  datatype Event = Event(occurredAt: nat, expiresAt: int)

  datatype Tables = Tables(
    operational: map<Window, Rate>, session: map<Window, Rate>, global: map<Window, Rate>,
    digests: map<string, Digest>, counters: map<CounterKey, Counter>, events: map<string, Event>,
    identities: map<(string, string), int>)

  const EMPTY := Tables(map[], map[], map[], map[], map[], map[], map[])

  datatype Request =
    | Operational(endpoint: string)
    | Record(digest: string, dimensions: string)
    | ChargeSession(visitor: string, session: string)
    | ChargeEveryone
    | Insert(id: string, visitor: string, session: string)
    | Activate(visitor: string, session: string)
    | Refresh(visitor: string, session: string)
    | Cleanup

  /** One statement (or one transaction), in the order in which the database runs them, with the clock
      its caller had read.  A telemetry request is two statements with one clock. */
  datatype Stamped = Stamped(now: nat, request: Request)

  function Minute(now: nat): nat { now / MINUTE }

  function Day(now: nat): nat { now / DAY }

  function BoundedExpiry(now: nat, age: nat): int { now + age - MARGIN }

  /** A counter ages from the start of its day. */
  function CounterExpiry(now: nat): int { BoundedExpiry(Day(now) * DAY, PRODUCT_AGE) }

  // ---- one statement each -------------------------------------------------------------------

  /** Does the conditional upsert return a row? */
  predicate Within(rows: map<Window, Rate>, key: Window, limit: nat) {
    key in rows ==> rows[key].count < limit
  }

  function Upsert(rows: map<Window, Rate>, key: Window, now: nat, limit: nat): map<Window, Rate> {
    if Within(rows, key, limit)
    then rows[key := Rate(if key in rows then rows[key].count + 1 else 1, now, BoundedExpiry(now, DIGEST_AGE))]
    else rows
  }

  predicate Active(t: Tables, visitor: string, session: string, now: nat) {
    (visitor, session) in t.identities && t.identities[(visitor, session)] > now
  }

  function Unexpired(rows: map<Window, Rate>, now: nat): map<Window, Rate> {
    map key | key in rows && rows[key].expiresAt > now :: rows[key]
  }

  function Counted(t: Tables, digest: string, dimensions: string, now: nat): Tables {
    if digest in t.digests then t
    else
      var key := CounterKey(Day(now), dimensions);
      var row := if key in t.counters then t.counters[key].(count := t.counters[key].count + 1)
                 else Counter(1, CounterExpiry(now));
      t.(digests := t.digests[digest := Digest(now, BoundedExpiry(now, DIGEST_AGE))], counters := t.counters[key := row])
  }

  /** An inactive identity is not charged. */
  function SessionCharged(t: Tables, visitor: string, session: string, now: nat): Tables {
    if Active(t, visitor, session, now)
    then t.(session := Upsert(t.session, Window(session, Minute(now)), now, SESSION_LIMIT)) else t
  }

  function Swept(t: Tables, now: nat): Tables {
    Tables(Unexpired(t.operational, now), Unexpired(t.session, now), Unexpired(t.global, now),
           map d | d in t.digests && t.digests[d].expiresAt > now :: t.digests[d],
           map k | k in t.counters && t.counters[k].expiresAt > now :: t.counters[k],
           map e | e in t.events && t.events[e].expiresAt > now :: t.events[e],
           map i | i in t.identities && t.identities[i] > now :: t.identities[i])
  }

  /** Every request but the sweep. */
  function Served(t: Tables, s: Stamped): Tables
    requires !s.request.Cleanup?
  {
    match s.request
    case Operational(endpoint) =>
      t.(operational := Upsert(t.operational, Window(endpoint, Minute(s.now)), s.now, OPERATIONAL_LIMIT))
    case Record(digest, dimensions) => Counted(t, digest, dimensions, s.now)
    case ChargeSession(visitor, session) => SessionCharged(t, visitor, session, s.now)
    case ChargeEveryone => t.(global := Upsert(t.global, Window("", Minute(s.now)), s.now, GLOBAL_LIMIT))
    case Insert(id, visitor, session) =>
      if id !in t.events && Active(t, visitor, session, s.now)
      then t.(events := t.events[id := Event(s.now, BoundedExpiry(s.now, PRODUCT_AGE))]) else t
    case Activate(visitor, session) => t.(identities := t.identities[(visitor, session) := s.now + COOKIE_AGE])
    case Refresh(visitor, session) =>
      if Active(t, visitor, session, s.now) then t.(identities := t.identities[(visitor, session) := s.now + COOKIE_AGE]) else t
  }

  function Step(t: Tables, s: Stamped): Tables {
    if s.request.Cleanup? then Swept(t, s.now) else Served(t, s)
  }

  /** Does the statement return a row, record, insert or refresh? */
  predicate Granted(t: Tables, s: Stamped) {
    match s.request
    case Operational(endpoint) => Within(t.operational, Window(endpoint, Minute(s.now)), OPERATIONAL_LIMIT)
    case Record(digest, _) => digest !in t.digests
    case ChargeSession(visitor, session) =>
      Active(t, visitor, session, s.now) && Within(t.session, Window(session, Minute(s.now)), SESSION_LIMIT)
    case ChargeEveryone => Within(t.global, Window("", Minute(s.now)), GLOBAL_LIMIT)
    case Insert(id, visitor, session) => id !in t.events && Active(t, visitor, session, s.now)
    case Activate(_, _) => true
    case Refresh(visitor, session) => Active(t, visitor, session, s.now)
    case Cleanup => true
  }

  // ---- runs -----------------------------------------------------------------------------------

  function Ran(t: Tables, ops: seq<Stamped>): Tables {
    if ops == [] then t else Step(Ran(t, ops[..|ops| - 1]), ops[|ops| - 1])
  }

  function Run(ops: seq<Stamped>): Tables {
    Ran(EMPTY, ops)
  }

  /** Statements may run late, but none is more than `slack` older than one that ran before it; with
      no slack the clock never goes back. */
  predicate Ordered(ops: seq<Stamped>, slack: nat) {
    forall j, k :: 0 <= j < k < |ops| ==> ops[j].now <= ops[k].now + slack
  }

  /** How late a statement may run: as long as its window's row cannot have been swept. */
  const SLACK: nat := DIGEST_AGE - MARGIN - MINUTE

  /** The latest clock that any statement so far has carried. */
  function High(ops: seq<Stamped>): (high: nat)
    ensures forall k :: 0 <= k < |ops| ==> ops[k].now <= high
    ensures ops != [] ==> exists k :: 0 <= k < |ops| && ops[k].now == high
  {
    if ops == [] then 0
    else
      var before, last := High(ops[..|ops| - 1]), ops[|ops| - 1].now;
      assert forall k :: 0 <= k < |ops| - 1 ==> ops[..|ops| - 1][k] == ops[k];
      if last >= before then assert ops[|ops| - 1].now == last; last
      else
        assert |ops| > 1;
        var k :| 0 <= k < |ops| - 1 && ops[..|ops| - 1][k].now == before;
        assert ops[k].now == before;
        before
  }

  datatype Budget = Endpoints | Sessions | Everyone

  function Rows(t: Tables, b: Budget): map<Window, Rate> {
    match b
    case Endpoints => t.operational
    case Sessions => t.session
    case Everyone => t.global
  }

  function Limit(b: Budget): nat {
    match b
    case Endpoints => OPERATIONAL_LIMIT
    case Sessions => SESSION_LIMIT
    case Everyone => GLOBAL_LIMIT
  }

  /** The window of a budget that a request would be charged to. */
  function Charges(s: Stamped, b: Budget): (w: seq<Window>)
    ensures |w| <= 1
  {
    if s.request.Operational? && b == Endpoints then [Window(s.request.endpoint, Minute(s.now))]
    else if s.request.ChargeSession? && b == Sessions then [Window(s.request.session, Minute(s.now))]
    else if s.request.ChargeEveryone? && b == Everyone then [Window("", Minute(s.now))]
    else []
  }

  /** How many requests charged to the window were allowed. */
  function Allowed(ops: seq<Stamped>, b: Budget, w: Window): nat {
    if ops == [] then 0
    else
      var before, last := ops[..|ops| - 1], ops[|ops| - 1];
      Allowed(before, b, w) + (if Charges(last, b) == [w] && Granted(Run(before), last) then 1 else 0)
  }

  /** Could a statement still come that is charged to the window? */
  predicate Open(w: Window, high: nat) { (w.minute + 1) * MINUTE + SLACK > high }

  function CountOf(rows: map<Window, Rate>, w: Window): nat {
    if w in rows then rows[w].count else 0
  }

  /** While a window is open its row is there and counts exactly what was allowed; no row ever counts
      past the limit. */
  predicate Tracks(rows: map<Window, Rate>, w: Window, allowed: nat, limit: nat, high: nat) {
    && allowed <= limit
    && (w in rows ==> rows[w].count <= limit && w.minute == Minute(rows[w].writtenAt)
                      && rows[w].expiresAt == BoundedExpiry(rows[w].writtenAt, DIGEST_AGE))
    && (Open(w, high) ==> allowed == CountOf(rows, w))
  }

  predicate Tracked(ops: seq<Stamped>, b: Budget, w: Window) {
    Tracks(Rows(Run(ops), b), w, Allowed(ops, b, w), Limit(b), High(ops))
  }

  lemma UpsertTracks(rows: map<Window, Rate>, w: Window, key: Window, allowed: nat, limit: nat, now: nat, high: nat)
    requires Tracks(rows, w, allowed, limit, high) && limit > 0 && key.minute == Minute(now) && high <= now + SLACK
    ensures Tracks(Upsert(rows, key, now, limit), w, allowed + (if w == key && Within(rows, key, limit) then 1 else 0), limit,
                   if now > high then now else high)
  {
    assert Open(key, if now > high then now else high);
  }

  /** The margin keeps a sweep out of every window that is still open. */
  lemma SweepTracks(rows: map<Window, Rate>, w: Window, allowed: nat, limit: nat, now: nat, high: nat)
    requires Tracks(rows, w, allowed, limit, high)
    ensures Tracks(Unexpired(rows, now), w, allowed, limit, if now > high then now else high)
  {
    if w in rows && Open(w, now) {
      assert rows[w].writtenAt >= w.minute * MINUTE;
      assert rows[w].expiresAt > now;
    }
  }

  lemma RowsAfterSweep(t: Tables, s: Stamped, b: Budget)
    requires s.request.Cleanup?
    ensures Rows(Step(t, s), b) == Unexpired(Rows(t, b), s.now)
  {
  }

  /** What a request does to the rows of one budget. */
  lemma RowsAfterCharge(t: Tables, s: Stamped, b: Budget, key: Window)
    requires Charges(s, b) == [key]
    ensures key.minute == Minute(s.now)
    ensures Granted(t, s) ==> Within(Rows(t, b), key, Limit(b))
    ensures !s.request.Cleanup?
    ensures || (Rows(Served(t, s), b) == Upsert(Rows(t, b), key, s.now, Limit(b)) && (Granted(t, s) <==> Within(Rows(t, b), key, Limit(b))))
            || (Rows(Served(t, s), b) == Rows(t, b) && !Granted(t, s))
  {
    match b
    case Endpoints =>
    case Sessions =>
    case Everyone =>
  }

  lemma OnlyOperationalRequestsChargeEndpoints(t: Tables, s: Stamped)
    requires !s.request.Operational? && !s.request.Cleanup?
    ensures Served(t, s).operational == t.operational
  {
    match s.request
    case Record(_, _) =>
    case ChargeSession(_, _) =>
    case ChargeEveryone =>
    case Insert(_, _, _) =>
    case Activate(_, _) =>
    case Refresh(_, _) =>
  }

  lemma OnlyTelemetryChargesSessions(t: Tables, s: Stamped)
    requires !s.request.ChargeSession? && !s.request.Cleanup?
    ensures Served(t, s).session == t.session
  {
    match s.request
    case Operational(_) =>
    case ChargeEveryone =>
    case Record(_, _) =>
    case Insert(_, _, _) =>
    case Activate(_, _) =>
    case Refresh(_, _) =>
  }

  lemma OnlyTelemetryChargesEveryone(t: Tables, s: Stamped)
    requires !s.request.ChargeEveryone? && !s.request.Cleanup?
    ensures Served(t, s).global == t.global
  {
    match s.request
    case Operational(_) =>
    case ChargeSession(_, _) =>
    case Record(_, _) =>
    case Insert(_, _, _) =>
    case Activate(_, _) =>
    case Refresh(_, _) =>
  }

  lemma RowsUncharged(t: Tables, s: Stamped, b: Budget)
    requires Charges(s, b) == [] && !s.request.Cleanup?
    ensures Rows(Served(t, s), b) == Rows(t, b)
  {
    if b == Endpoints {
      OnlyOperationalRequestsChargeEndpoints(t, s);
    } else if b == Sessions {
      OnlyTelemetryChargesSessions(t, s);
    } else {
      OnlyTelemetryChargesEveryone(t, s);
    }
  }

  lemma SweepStepTracks(ops: seq<Stamped>, last: Stamped, b: Budget, w: Window)
    requires Tracked(ops, b, w) && last.request.Cleanup?
    ensures Tracked(ops + [last], b, w)
  {
    assert (ops + [last])[..|ops|] == ops;
    RowsAfterSweep(Run(ops), last, b);
    SweepTracks(Rows(Run(ops), b), w, Allowed(ops, b, w), Limit(b), last.now, High(ops));
  }

  lemma UnchargedStepTracks(ops: seq<Stamped>, last: Stamped, b: Budget, w: Window)
    requires Tracked(ops, b, w) && !last.request.Cleanup? && Charges(last, b) == []
    ensures Tracked(ops + [last], b, w)
  {
    assert (ops + [last])[..|ops|] == ops;
    RowsUncharged(Run(ops), last, b);
    assert High(ops) <= High(ops + [last]);
    assert Open(w, High(ops + [last])) ==> Open(w, High(ops));
  }

  lemma ChargedStepTracks(ops: seq<Stamped>, last: Stamped, b: Budget, w: Window, key: Window)
    requires Tracked(ops, b, w) && Charges(last, b) == [key] && High(ops) <= last.now + SLACK
    ensures Tracked(ops + [last], b, w)
  {
    assert (ops + [last])[..|ops|] == ops;
    RowsAfterCharge(Run(ops), last, b, key);
    assert Open(w, High(ops + [last])) ==> Open(w, High(ops));
    UpsertTracks(Rows(Run(ops), b), w, key, Allowed(ops, b, w), Limit(b), last.now, High(ops));
  }

  lemma {:induction false} RunsAreTracked(ops: seq<Stamped>, b: Budget, w: Window)
    requires Ordered(ops, SLACK)
    ensures Tracked(ops, b, w)
  {
    if ops != [] {
      var before, last := ops[..|ops| - 1], ops[|ops| - 1];
      RunsAreTracked(before, b, w);
      assert before + [last] == ops;
      LatestIsNear(before, last, SLACK);
      if last.request.Cleanup? {
        SweepStepTracks(before, last, b, w);
      } else if Charges(last, b) == [] {
        UnchargedStepTracks(before, last, b, w);
      } else {
        ChargedStepTracks(before, last, b, w, Charges(last, b)[0]);
      }
    }
  }

  lemma LatestIsNear(ops: seq<Stamped>, last: Stamped, slack: nat)
    requires Ordered(ops + [last], slack)
    ensures High(ops) <= last.now + slack && Ordered(ops, slack)
  {
    var longer := ops + [last];
    assert forall k :: 0 <= k < |ops| ==> longer[k] == ops[k];
    if ops != [] {
      var k :| 0 <= k < |ops| && ops[k].now == High(ops);
      assert longer[k].now <= longer[|ops|].now + slack;
    }
  }

  /** However late statements run, up to the slack, and however the sweeps fall among them, no window
      of any budget ever allows more than its limit. */
  lemma LimitsHold(ops: seq<Stamped>, b: Budget, w: Window)
    requires Ordered(ops, SLACK)
    ensures Allowed(ops, b, w) <= Limit(b)
  {
    RunsAreTracked(ops, b, w);
  }

  /** And a charge is refused only at the limit, or because the identity is not active. */
  lemma RefusedOnlyAtTheLimit(ops: seq<Stamped>, last: Stamped, b: Budget, w: Window)
    requires Ordered(ops + [last], SLACK) && Charges(last, b) == [w] && !Granted(Run(ops), last)
    ensures || Allowed(ops, b, w) == Limit(b)
            || (b == Sessions && !Active(Run(ops), last.request.visitor, last.request.session, last.now))
  {
    LatestIsNear(ops, last, SLACK);
    RunsAreTracked(ops, b, w);
    assert Open(w, High(ops));
  }

  // ---- a statement later than that ------------------------------------------------------------

  function Repeated(s: Stamped, n: nat): (ops: seq<Stamped>)
    ensures |ops| == n && forall k :: 0 <= k < n ==> ops[k] == s
  {
    if n == 0 then [] else Repeated(s, n - 1) + [s]
  }

  lemma {:induction false} WindowFills(n: nat)
    requires n <= OPERATIONAL_LIMIT
    ensures var ops, w := Repeated(Stamped(0, Operational("consent")), n), Window("consent", 0);
            && Allowed(ops, Endpoints, w) == n
            && Run(ops).operational == (if n == 0 then map[] else map[w := Rate(n, 0, BoundedExpiry(0, DIGEST_AGE))])
  {
    if n > 0 {
      var s := Stamped(0, Operational("consent"));
      var ops := Repeated(s, n - 1);
      WindowFills(n - 1);
      OneMoreFills(Run(ops), n - 1);
      assert Repeated(s, n) == ops + [s] && (ops + [s])[..n - 1] == ops;
      assert Run(ops + [s]) == Served(Run(ops), s);
      assert Charges(s, Endpoints) == [Window("consent", 0)];
    }
  }

  lemma OneMoreFills(t: Tables, n: nat)
    requires n < OPERATIONAL_LIMIT
    requires t.operational == (if n == 0 then map[] else map[Window("consent", 0) := Rate(n, 0, BoundedExpiry(0, DIGEST_AGE))])
    ensures var s := Stamped(0, Operational("consent"));
            Granted(t, s) && Served(t, s).operational == map[Window("consent", 0) := Rate(n + 1, 0, BoundedExpiry(0, DIGEST_AGE))]
  {
  }

  /** A full window, a sweep at its row's expiry, and one statement from the window's last moment. */
  function TooLate(): seq<Stamped> {
    Repeated(Stamped(0, Operational("consent")), OPERATIONAL_LIMIT)
    + [Stamped(DIGEST_AGE - MARGIN, Cleanup)] + [Stamped(MINUTE - 1, Operational("consent"))]
  }

  /** The slack is exact: one millisecond more and a limit is exceeded. */
  lemma LaterThanSlackExceedsTheLimit()
    ensures Ordered(TooLate(), SLACK + 1)
    ensures Allowed(TooLate(), Endpoints, Window("consent", 0)) == OPERATIONAL_LIMIT + 1
  {
    var full := Repeated(Stamped(0, Operational("consent")), OPERATIONAL_LIMIT);
    var sweep, late := Stamped(DIGEST_AGE - MARGIN, Cleanup), Stamped(MINUTE - 1, Operational("consent"));
    var w := Window("consent", 0);
    WindowFills(OPERATIONAL_LIMIT);
    assert (full + [sweep])[..|full|] == full;
    assert (full + [sweep] + [late])[..|full| + 1] == full + [sweep];
    RowsAfterSweep(Run(full), sweep, Endpoints);
    assert w !in Run(full + [sweep]).operational;
    assert Granted(Run(full + [sweep]), late);
    assert Allowed(full + [sweep], Endpoints, w) == OPERATIONAL_LIMIT;
  }

  // ---- nothing outlives its age -----------------------------------------------------------------

  /** The latest clock of a sweep; `start` is when the tables were created. */
  function LastSweep(start: nat, ops: seq<Stamped>): nat {
    if ops == [] then start
    else
      var last, before := ops[|ops| - 1], LastSweep(start, ops[..|ops| - 1]);
      if last.request.Cleanup? && last.now > before then last.now else before
  }

  /** Sweeps come at most one margin apart: nothing happens later than that after the last one. */
  predicate Prompt(start: nat, ops: seq<Stamped>) {
    forall k :: 0 <= k < |ops| ==> start <= ops[k].now <= LastSweep(start, ops[..k]) + MARGIN
  }

  predicate FreshRates(rows: map<Window, Rate>, sweep: nat) {
    forall w :: w in rows ==> rows[w].expiresAt == BoundedExpiry(rows[w].writtenAt, DIGEST_AGE) > sweep
  }

  predicate FreshDigests(digests: map<string, Digest>, sweep: nat) {
    forall d :: d in digests ==> digests[d].expiresAt == BoundedExpiry(digests[d].writtenAt, DIGEST_AGE) > sweep
  }

  predicate FreshEvents(events: map<string, Event>, sweep: nat) {
    forall e :: e in events ==> events[e].expiresAt == BoundedExpiry(events[e].occurredAt, PRODUCT_AGE) > sweep
  }

  predicate FreshCounters(counters: map<CounterKey, Counter>, sweep: nat) {
    forall k :: k in counters ==> counters[k].expiresAt == BoundedExpiry(k.day * DAY, PRODUCT_AGE) > sweep
  }

  /** Every row's expiry is its own age less the margin, and lies after the last sweep. */
  predicate Fresh(t: Tables, sweep: nat) {
    && FreshRates(t.operational, sweep) && FreshRates(t.session, sweep) && FreshRates(t.global, sweep)
    && FreshDigests(t.digests, sweep) && FreshEvents(t.events, sweep) && FreshCounters(t.counters, sweep)
  }

  lemma ServedStaysFresh(t: Tables, s: Stamped, sweep: nat)
    requires Fresh(t, sweep) && sweep <= s.now + SLACK && !s.request.Cleanup?
    ensures Fresh(Served(t, s), sweep)
  {
    RatesStayFresh(t, s, sweep);
    OthersStayFresh(t, s, sweep);
  }

  lemma RatesStayFresh(t: Tables, s: Stamped, sweep: nat)
    requires Fresh(t, sweep) && sweep <= s.now + SLACK && !s.request.Cleanup?
    ensures var next := Served(t, s);
            FreshRates(next.operational, sweep) && FreshRates(next.session, sweep) && FreshRates(next.global, sweep)
  {
    if s.request.Operational? {
      OnlyTelemetryChargesSessions(t, s);
      OnlyTelemetryChargesEveryone(t, s);
      UpsertStaysFresh(t.operational, Window(s.request.endpoint, Minute(s.now)), s.now, OPERATIONAL_LIMIT, sweep);
    } else if s.request.ChargeSession? {
      OnlyOperationalRequestsChargeEndpoints(t, s);
      OnlyTelemetryChargesEveryone(t, s);
      UpsertStaysFresh(t.session, Window(s.request.session, Minute(s.now)), s.now, SESSION_LIMIT, sweep);
    } else if s.request.ChargeEveryone? {
      OnlyOperationalRequestsChargeEndpoints(t, s);
      OnlyTelemetryChargesSessions(t, s);
      UpsertStaysFresh(t.global, Window("", Minute(s.now)), s.now, GLOBAL_LIMIT, sweep);
    } else {
      OnlyTelemetryChargesSessions(t, s);
      OnlyTelemetryChargesEveryone(t, s);
      OnlyOperationalRequestsChargeEndpoints(t, s);
    }
  }

  lemma OnlyRecordsTouchDigests(t: Tables, s: Stamped)
    requires !s.request.Record? && !s.request.Cleanup?
    ensures Served(t, s).digests == t.digests && Served(t, s).counters == t.counters
  {
    match s.request
    case Operational(_) =>
    case ChargeSession(_, _) =>
    case ChargeEveryone =>
    case Insert(_, _, _) =>
    case Activate(_, _) =>
    case Refresh(_, _) =>
  }

  lemma OnlyInsertsTouchEvents(t: Tables, s: Stamped)
    requires !s.request.Insert? && !s.request.Cleanup?
    ensures Served(t, s).events == t.events
  {
    match s.request
    case Operational(_) =>
    case Record(_, _) =>
    case ChargeSession(_, _) =>
    case ChargeEveryone =>
    case Activate(_, _) =>
    case Refresh(_, _) =>
  }

  lemma OthersStayFresh(t: Tables, s: Stamped, sweep: nat)
    requires Fresh(t, sweep) && sweep <= s.now + SLACK && !s.request.Cleanup?
    ensures var next := Served(t, s);
            FreshDigests(next.digests, sweep) && FreshEvents(next.events, sweep) && FreshCounters(next.counters, sweep)
  {
    if s.request.Record? {
      OnlyInsertsTouchEvents(t, s);
      CountedStaysFresh(t, s.request.digest, s.request.dimensions, s.now, sweep);
    } else if s.request.Insert? {
      OnlyRecordsTouchDigests(t, s);
    } else {
      OnlyRecordsTouchDigests(t, s);
      OnlyInsertsTouchEvents(t, s);
    }
  }

  lemma UpsertStaysFresh(rows: map<Window, Rate>, key: Window, now: nat, limit: nat, sweep: nat)
    requires FreshRates(rows, sweep) && sweep <= now + SLACK
    ensures FreshRates(Upsert(rows, key, now, limit), sweep)
  {
  }

  lemma CountedStaysFresh(t: Tables, digest: string, dimensions: string, now: nat, sweep: nat)
    requires FreshDigests(t.digests, sweep) && FreshCounters(t.counters, sweep) && sweep <= now + SLACK
    ensures FreshDigests(Counted(t, digest, dimensions, now).digests, sweep)
    ensures FreshCounters(Counted(t, digest, dimensions, now).counters, sweep)
  {
    assert now < Day(now) * DAY + DAY;
  }

  lemma SweepStaysFresh(t: Tables, sweep: nat, now: nat)
    requires Fresh(t, sweep)
    ensures Fresh(Swept(t, now), if now > sweep then now else sweep)
  {
  }

  lemma {:induction false} RunsStayFresh(start: nat, ops: seq<Stamped>)
    requires Ordered(ops, SLACK) && Prompt(start, ops)
    ensures Fresh(Run(ops), LastSweep(start, ops))
    ensures LastSweep(start, ops) <= (if ops == [] then start else High(ops))
  {
    if ops != [] {
      var before, last := ops[..|ops| - 1], ops[|ops| - 1];
      assert before + [last] == ops;
      LatestIsNear(before, last, SLACK);
      PromptSoFar(start, before, last);
      RunsStayFresh(start, before);
      StepStaysFresh(start, before, last);
    }
  }

  lemma PromptSoFar(start: nat, ops: seq<Stamped>, last: Stamped)
    requires Prompt(start, ops + [last])
    ensures Prompt(start, ops) && start <= last.now
  {
    var longer := ops + [last];
    assert longer[|ops|] == last;
    assert forall k :: 0 <= k < |ops| ==> longer[k] == ops[k] && longer[..k] == ops[..k];
  }

  lemma StepStaysFresh(start: nat, ops: seq<Stamped>, last: Stamped)
    requires Fresh(Run(ops), LastSweep(start, ops)) && LastSweep(start, ops) <= (if ops == [] then start else High(ops))
    requires High(ops) <= last.now + SLACK && start <= last.now
    ensures Fresh(Run(ops + [last]), LastSweep(start, ops + [last]))
    ensures LastSweep(start, ops + [last]) <= High(ops + [last])
  {
    assert (ops + [last])[..|ops|] == ops;
    if last.request.Cleanup? {
      SweepStaysFresh(Run(ops), LastSweep(start, ops), last.now);
    } else {
      ServedStaysFresh(Run(ops), last, LastSweep(start, ops));
    }
  }

  /** With prompt sweeps, at any moment until the next one is due, no product event and no day's
      count is ninety days old and no digest and no last-written rate row is a day old. */
  lemma NothingOutlivesItsAge(start: nat, ops: seq<Stamped>, now: nat)
    requires Ordered(ops, SLACK) && Prompt(start, ops) && now <= LastSweep(start, ops) + MARGIN
    ensures var t := Run(ops);
            && (forall e :: e in t.events ==> now < t.events[e].occurredAt + PRODUCT_AGE)
            && (forall k :: k in t.counters ==> now < k.day * DAY + PRODUCT_AGE)
            && (forall d :: d in t.digests ==> now < t.digests[d].writtenAt + DIGEST_AGE)
            && (forall b, w :: w in Rows(t, b) ==> now < Rows(t, b)[w].writtenAt + DIGEST_AGE)
  {
    RunsStayFresh(start, ops);
  }

  // ---- a retry is counted once --------------------------------------------------------------------

  predicate CountsAt(ops: seq<Stamped>, k: nat, digest: string)
    requires k < |ops|
  {
    ops[k].request.Record? && ops[k].request.digest == digest && Granted(Run(ops[..k]), ops[k])
  }

  /** Some sweep from position `from` on had a clock at or past `expiry`. */
  predicate SweptPast(ops: seq<Stamped>, from: nat, expiry: int) {
    exists m :: from <= m < |ops| && ops[m].request.Cleanup? && ops[m].now >= expiry
  }

  predicate Keeps(t: Tables, digest: string, expiry: int) {
    digest in t.digests && t.digests[digest].expiresAt == expiry
  }

  lemma KeepsOrSweeps(ops: seq<Stamped>, last: Stamped, from: nat, digest: string, expiry: int)
    requires from <= |ops| && (Keeps(Run(ops), digest, expiry) || SweptPast(ops, from, expiry))
    ensures Keeps(Run(ops + [last]), digest, expiry) || SweptPast(ops + [last], from, expiry)
  {
    var longer := ops + [last];
    assert longer[..|ops|] == ops;
    if SweptPast(ops, from, expiry) {
      var m :| from <= m < |ops| && ops[m].request.Cleanup? && ops[m].now >= expiry;
      assert longer[m] == ops[m];
    } else if last.request.Cleanup? {
      assert longer[|ops|] == last;
    } else {
      DigestsOnlyGrow(Run(ops), last, digest);
    }
  }

  lemma DigestsOnlyGrow(t: Tables, s: Stamped, digest: string)
    requires digest in t.digests && !s.request.Cleanup?
    ensures digest in Served(t, s).digests && Served(t, s).digests[digest] == t.digests[digest]
  {
    match s.request
    case Operational(_) =>
    case Record(_, _) =>
    case ChargeSession(_, _) =>
    case ChargeEveryone =>
    case Insert(_, _, _) =>
    case Activate(_, _) =>
    case Refresh(_, _) =>
  }

  lemma {:induction false} KeptUntilSwept(ops: seq<Stamped>, j: nat, n: nat, digest: string)
    requires j < n <= |ops| && CountsAt(ops, j, digest)
    ensures var expiry := BoundedExpiry(ops[j].now, DIGEST_AGE);
            Keeps(Run(ops[..n]), digest, expiry) || SweptPast(ops[..n], j + 1, expiry)
    decreases n
  {
    assert ops[..n] == ops[..n - 1] + [ops[n - 1]];
    if n == j + 1 {
      assert ops[..n][..j] == ops[..j];
    } else {
      KeptUntilSwept(ops, j, n - 1, digest);
      KeepsOrSweeps(ops[..n - 1], ops[n - 1], j + 1, digest, BoundedExpiry(ops[j].now, DIGEST_AGE));
    }
  }

  /** Whatever the clock does: two records of one operation are both counted only if a sweep between
      them had a clock past the first digest's expiry. */
  lemma CountedTwiceMeansSwept(ops: seq<Stamped>, j: nat, k: nat, digest: string)
    requires j < k < |ops| && CountsAt(ops, j, digest) && CountsAt(ops, k, digest)
    ensures exists m :: j < m < k && ops[m].request.Cleanup? && ops[m].now >= BoundedExpiry(ops[j].now, DIGEST_AGE)
  {
    KeptUntilSwept(ops, j, k, digest);
    var m :| j + 1 <= m < k && ops[..k][m].request.Cleanup? && ops[..k][m].now >= BoundedExpiry(ops[j].now, DIGEST_AGE);
    assert ops[..k][m] == ops[m];
  }

  /** So with statements in order the second comes no earlier than that expiry. */
  lemma CountedTwiceMeansExpired(ops: seq<Stamped>, j: nat, k: nat, digest: string, slack: nat)
    requires Ordered(ops, slack) && j < k < |ops| && CountsAt(ops, j, digest) && CountsAt(ops, k, digest)
    ensures ops[k].now + slack >= BoundedExpiry(ops[j].now, DIGEST_AGE)
  {
    CountedTwiceMeansSwept(ops, j, k, digest);
  }

  // ---- a day's count ------------------------------------------------------------------------------

  /** A record that is counted for the day and the dimensions of `key`. */
  predicate CountsFor(t: Tables, s: Stamped, key: CounterKey) {
    s.request.Record? && CounterKey(Day(s.now), s.request.dimensions) == key && Granted(t, s)
  }

  function KeyExpiry(key: CounterKey): int { CounterExpiry(key.day * DAY) }

  predicate Forgets(s: Stamped, key: CounterKey) { s.request.Cleanup? && s.now >= KeyExpiry(key) }

  /** How many records were counted for the key. */
  function CountedFor(ops: seq<Stamped>, key: CounterKey): nat {
    if ops == [] then 0
    else
      var before, last := ops[..|ops| - 1], ops[|ops| - 1];
      CountedFor(before, key) + (if CountsFor(Run(before), last, key) then 1 else 0)
  }

  /** How many of them since a sweep last forgot the key. */
  function CountedLately(ops: seq<Stamped>, key: CounterKey): nat {
    if ops == [] then 0
    else
      var before, last := ops[..|ops| - 1], ops[|ops| - 1];
      if Forgets(last, key) then 0
      else CountedLately(before, key) + (if CountsFor(Run(before), last, key) then 1 else 0)
  }

  /** The row of a key is there exactly if something is to be counted, and counts it. */
  predicate Counts(t: Tables, key: CounterKey, n: nat) {
    if n == 0 then key !in t.counters else key in t.counters && t.counters[key] == Counter(n, KeyExpiry(key))
  }

  lemma DayOfDay(now: nat)
    ensures Day(Day(now) * DAY) == Day(now)
  {
  }

  lemma StepCounts(t: Tables, s: Stamped, key: CounterKey, n: nat)
    requires Counts(t, key, n)
    ensures Counts(Step(t, s), key, if Forgets(s, key) then 0 else n + (if CountsFor(t, s, key) then 1 else 0))
  {
    DayOfDay(s.now);
    if !s.request.Record? && !s.request.Cleanup? {
      OnlyRecordsTouchDigests(t, s);
    }
  }

  /** Whatever the clock does, each counter counts exactly the records that were counted for its day and
      dimensions since a sweep last forgot it, and there is no row for nothing. */
  lemma {:induction false} CountersCount(ops: seq<Stamped>, key: CounterKey)
    ensures Counts(Run(ops), key, CountedLately(ops, key))
  {
    if ops != [] {
      var before, last := ops[..|ops| - 1], ops[|ops| - 1];
      CountersCount(before, key);
      StepCounts(Run(before), last, key, CountedLately(before, key));
    }
  }

  lemma {:induction false} NothingForgottenYet(ops: seq<Stamped>, key: CounterKey)
    requires High(ops) < KeyExpiry(key)
    ensures CountedLately(ops, key) == CountedFor(ops, key)
  {
    if ops != [] {
      assert High(ops[..|ops| - 1]) <= High(ops) && ops[|ops| - 1].now <= High(ops);
      NothingForgottenYet(ops[..|ops| - 1], key);
    }
  }

  /** Until its expiry a day's counter is exactly the number of its counted records. */
  lemma DaysAreCountedExactly(ops: seq<Stamped>, key: CounterKey)
    requires High(ops) < KeyExpiry(key)
    ensures Counts(Run(ops), key, CountedFor(ops, key))
  {
    CountersCount(ops, key);
    NothingForgottenYet(ops, key);
  }

  /** And no record within the slack comes after that: whenever one can still be counted for a day, that
      day's counter is exact. */
  lemma CountedInTime(ops: seq<Stamped>, last: Stamped, dimensions: string)
    requires Ordered(ops + [last], SLACK)
    ensures var key := CounterKey(Day(last.now), dimensions);
            High(ops) < KeyExpiry(key) && Counts(Run(ops), key, CountedFor(ops, key))
  {
    var key := CounterKey(Day(last.now), dimensions);
    LatestIsNear(ops, last, SLACK);
    DayOfDay(last.now);
    assert last.now < Day(last.now) * DAY + DAY;
    DaysAreCountedExactly(ops, key);
  }

  // ---- what a sweep leaves ------------------------------------------------------------------------

  predicate KeepsEvent(t: Tables, id: string, at: nat) {
    id in t.events && t.events[id] == Event(at, BoundedExpiry(at, PRODUCT_AGE))
  }

  predicate InsertsAt(ops: seq<Stamped>, j: nat, id: string)
    requires j < |ops|
  {
    ops[j].request.Insert? && ops[j].request.id == id && Granted(Run(ops[..j]), ops[j])
  }

  lemma EventsStay(t: Tables, s: Stamped, id: string, at: nat)
    requires KeepsEvent(t, id, at)
    ensures KeepsEvent(Step(t, s), id, at) || (s.request.Cleanup? && s.now >= BoundedExpiry(at, PRODUCT_AGE))
  {
    if !s.request.Cleanup? && !s.request.Insert? {
      OnlyInsertsTouchEvents(t, s);
    }
  }

  lemma SweptPastStays(ops: seq<Stamped>, last: Stamped, from: nat, expiry: int)
    requires SweptPast(ops, from, expiry)
    ensures SweptPast(ops + [last], from, expiry)
  {
    var m :| from <= m < |ops| && ops[m].request.Cleanup? && ops[m].now >= expiry;
    assert (ops + [last])[m] == ops[m];
  }

  /** An accepted event is there, unchanged, until a sweep past its expiry. */
  lemma {:induction false} EventsLast(ops: seq<Stamped>, j: nat, n: nat, id: string)
    requires j < n <= |ops| && InsertsAt(ops, j, id)
    ensures KeepsEvent(Run(ops[..n]), id, ops[j].now) || SweptPast(ops[..n], j + 1, BoundedExpiry(ops[j].now, PRODUCT_AGE))
    decreases n
  {
    var before, last := ops[..n - 1], ops[n - 1];
    assert ops[..n] == before + [last] && ops[..n][..n - 1] == before;
    if n == j + 1 {
      assert before == ops[..j];
    } else {
      EventsLast(ops, j, n - 1, id);
      if KeepsEvent(Run(before), id, ops[j].now) {
        EventsStay(Run(before), last, id, ops[j].now);
        assert ops[..n][n - 1] == last;
      } else {
        SweptPastStays(before, last, j + 1, BoundedExpiry(ops[j].now, PRODUCT_AGE));
      }
    }
  }

  predicate Writes(s: Stamped, visitor: string, session: string) {
    && (s.request.Activate? || s.request.Refresh?)
    && s.request.visitor == visitor && s.request.session == session
  }

  predicate KeepsIdentity(t: Tables, visitor: string, session: string, until: int) {
    (visitor, session) in t.identities && t.identities[(visitor, session)] == until
  }

  lemma IdentitiesStay(t: Tables, s: Stamped, visitor: string, session: string, until: int)
    requires KeepsIdentity(t, visitor, session, until) && !Writes(s, visitor, session)
    ensures KeepsIdentity(Step(t, s), visitor, session, until) || (s.request.Cleanup? && s.now >= until)
  {
    match s.request
    case Operational(_) =>
    case Record(_, _) =>
    case ChargeSession(_, _) =>
    case ChargeEveryone =>
    case Insert(_, _, _) =>
    case Activate(_, _) =>
    case Refresh(_, _) =>
    case Cleanup =>
  }

  /** An identity written at `j` stays active for its whole lifetime, until it is written again or a
      sweep comes past its end. */
  lemma {:induction false} IdentitiesLast(ops: seq<Stamped>, j: nat, n: nat, visitor: string, session: string)
    requires j < n <= |ops| && Writes(ops[j], visitor, session) && Granted(Run(ops[..j]), ops[j])
    requires forall m :: j < m < n ==> !Writes(ops[m], visitor, session)
    ensures || KeepsIdentity(Run(ops[..n]), visitor, session, ops[j].now + COOKIE_AGE)
            || SweptPast(ops[..n], j + 1, ops[j].now + COOKIE_AGE)
    decreases n
  {
    var before, last := ops[..n - 1], ops[n - 1];
    assert ops[..n] == before + [last] && ops[..n][..n - 1] == before;
    if n == j + 1 {
      assert before == ops[..j];
    } else {
      IdentitiesLast(ops, j, n - 1, visitor, session);
      if KeepsIdentity(Run(before), visitor, session, ops[j].now + COOKIE_AGE) {
        IdentitiesStay(Run(before), last, visitor, session, ops[j].now + COOKIE_AGE);
        assert ops[..n][n - 1] == last;
      } else {
        SweptPastStays(before, last, j + 1, ops[j].now + COOKIE_AGE);
      }
    }
  }

  /** Some activation of the identity, at or before position `m`, began it. */
  predicate ActivatedBy(ops: seq<Stamped>, m: nat, visitor: string, session: string) {
    exists k :: 0 <= k <= m && k < |ops| && ops[k].request == Activate(visitor, session)
  }

  /** The identity's lifetime was set by the write at `m`. */
  predicate SetAt(ops: seq<Stamped>, m: nat, visitor: string, session: string, until: int) {
    m < |ops| && Writes(ops[m], visitor, session) && until == ops[m].now + COOKIE_AGE && ActivatedBy(ops, m, visitor, session)
  }

  lemma SetAtStays(ops: seq<Stamped>, last: Stamped, m: nat, visitor: string, session: string, until: int)
    requires SetAt(ops, m, visitor, session, until)
    ensures SetAt(ops + [last], m, visitor, session, until)
  {
    var longer := ops + [last];
    var k :| 0 <= k <= m && k < |ops| && ops[k].request == Activate(visitor, session);
    assert longer[k] == ops[k] && longer[m] == ops[m];
  }

  lemma OthersLeaveIdentities(t: Tables, s: Stamped)
    requires !s.request.Activate? && !s.request.Refresh? && !s.request.Cleanup?
    ensures Served(t, s).identities == t.identities
  {
    match s.request
    case Operational(_) =>
    case Record(_, _) =>
    case ChargeSession(_, _) =>
    case ChargeEveryone =>
    case Insert(_, _, _) =>
  }

  lemma OnlyWritesTouchIdentities(t: Tables, s: Stamped, visitor: string, session: string)
    requires !Writes(s, visitor, session) && (visitor, session) in Step(t, s).identities
    ensures (visitor, session) in t.identities && Step(t, s).identities[(visitor, session)] == t.identities[(visitor, session)]
  {
    if !s.request.Activate? && !s.request.Refresh? && !s.request.Cleanup? {
      OthersLeaveIdentities(t, s);
    } else {
      assert !s.request.Cleanup? ==> (s.request.visitor, s.request.session) != (visitor, session);
    }
  }

  lemma WritesSetLifetimes(t: Tables, s: Stamped, visitor: string, session: string)
    requires Writes(s, visitor, session) && (visitor, session) in Step(t, s).identities
    ensures || Step(t, s).identities[(visitor, session)] == s.now + COOKIE_AGE
            || ((visitor, session) in t.identities && Step(t, s).identities[(visitor, session)] == t.identities[(visitor, session)])
    ensures s.request.Refresh? ==> (visitor, session) in t.identities
  {
    if s.request.Activate? {
      assert Step(t, s).identities == t.identities[(visitor, session) := s.now + COOKIE_AGE];
    } else if Active(t, visitor, session, s.now) {
      assert Step(t, s).identities == t.identities[(visitor, session) := s.now + COOKIE_AGE];
    } else {
      assert Step(t, s) == t;
    }
  }

  /** Every identity goes back to an activation, and lives as long as its latest write says. */
  lemma {:induction false} IdentitiesComeFromActivations(ops: seq<Stamped>, visitor: string, session: string)
    requires (visitor, session) in Run(ops).identities
    ensures exists m: nat :: SetAt(ops, m, visitor, session, Run(ops).identities[(visitor, session)])
  {
    if ops == [] {
      assert false;
    } else {
      var before, last := ops[..|ops| - 1], ops[|ops| - 1];
      assert before + [last] == ops;
      if !Writes(last, visitor, session) {
        OnlyWritesTouchIdentities(Run(before), last, visitor, session);
      } else {
        WritesSetLifetimes(Run(before), last, visitor, session);
      }
      if (visitor, session) in Run(before).identities {
        IdentitiesComeFromActivations(before, visitor, session);
        var m: nat :| SetAt(before, m, visitor, session, Run(before).identities[(visitor, session)]);
        SetAtStays(before, last, m, visitor, session, Run(before).identities[(visitor, session)]);
        var k :| 0 <= k <= m && k < |before| && before[k].request == Activate(visitor, session);
        assert ops[k] == before[k];
      } else {
        assert ops[|before|].request == Activate(visitor, session);
      }
      if Writes(last, visitor, session) && Run(ops).identities[(visitor, session)] == last.now + COOKIE_AGE {
        assert SetAt(ops, |before|, visitor, session, last.now + COOKIE_AGE);
      }
    }
  }

  /** No session is charged and no event is stored but within the lifetime of an activated identity. */
  lemma OnlyActivatedAreServed(ops: seq<Stamped>, last: Stamped)
    requires (last.request.ChargeSession? || last.request.Insert? || last.request.Refresh?) && Granted(Run(ops), last)
    ensures exists m: nat, until :: SetAt(ops, m, last.request.visitor, last.request.session, until) && last.now < until
  {
    IdentitiesComeFromActivations(ops, last.request.visitor, last.request.session);
    var until := Run(ops).identities[(last.request.visitor, last.request.session)];
    var m: nat :| SetAt(ops, m, last.request.visitor, last.request.session, until);
  }

  /** What was not granted changes nothing. */
  lemma RefusalsChangeNothing(t: Tables, s: Stamped)
    requires !Granted(t, s)
    ensures Step(t, s) == t
  {
  }

  // ---- the database ---------------------------------------------------------------------------------

  class Database {
    var operational: map<Window, Rate>
    var session: map<Window, Rate>
    var global: map<Window, Rate>
    var digests: map<string, Digest>
    var counters: map<CounterKey, Counter>
    var events: map<string, Event>
    var identities: map<(string, string), int>

    constructor ()
      ensures Contents() == EMPTY
    {
      operational, session, global, digests, counters, events, identities := map[], map[], map[], map[], map[], map[], map[];
    }

    function Contents(): Tables
      reads this
    {
      Tables(operational, session, global, digests, counters, events, identities)
    }

    method IsOperationalRequestAllowed(endpoint: string, now: nat) returns (allowed: bool)
      modifies this`operational
      ensures Contents() == Step(old(Contents()), Stamped(now, Operational(endpoint)))
      ensures allowed == Granted(old(Contents()), Stamped(now, Operational(endpoint)))
    {
      operational, allowed := UpsertRow(operational, Window(endpoint, Minute(now)), now, OPERATIONAL_LIMIT);
    }

    /** Insert a row with one count, or add one to a row that is still below the limit. */
    static method UpsertRow(rows: map<Window, Rate>, key: Window, now: nat, limit: nat)
      returns (next: map<Window, Rate>, returned: bool)
      ensures next == Upsert(rows, key, now, limit) && returned == Within(rows, key, limit)
    {
      next, returned := rows, true;
      if key !in rows {
        next := rows[key := Rate(1, now, BoundedExpiry(now, DIGEST_AGE))];
      } else if rows[key].count < limit {
        next := rows[key := Rate(rows[key].count + 1, now, BoundedExpiry(now, DIGEST_AGE))];
      } else {
        returned := false;
      }
    }

    /** One transaction: the counter is touched only if the digest was new. */
    method RecordOperationalCounter(digest: string, dimensions: string, now: nat)
      modifies this`digests, this`counters
      ensures Contents() == Step(old(Contents()), Stamped(now, Record(digest, dimensions)))
    {
      var changes := 0;
      if digest !in digests {
        digests := digests[digest := Digest(now, BoundedExpiry(now, DIGEST_AGE))];
        changes := 1;
      }
      if changes == 1 {
        var key := CounterKey(Day(now), dimensions);
        if key in counters {
          counters := counters[key := counters[key].(count := counters[key].count + 1)];
        } else {
          counters := counters[key := Counter(1, CounterExpiry(now))];
        }
      }
    }

    method ChargeSessionWindow(visitor: string, caller: string, now: nat) returns (allowed: bool)
      modifies this`session
      ensures Contents() == Step(old(Contents()), Stamped(now, ChargeSession(visitor, caller)))
      ensures allowed == Granted(old(Contents()), Stamped(now, ChargeSession(visitor, caller)))
    {
      allowed := (visitor, caller) in identities && identities[(visitor, caller)] > now;
      if allowed {
        session, allowed := UpsertRow(session, Window(caller, Minute(now)), now, SESSION_LIMIT);
      }
    }

    method ChargeGlobalWindow(now: nat) returns (allowed: bool)
      modifies this`global
      ensures Contents() == Step(old(Contents()), Stamped(now, ChargeEveryone))
      ensures allowed == Granted(old(Contents()), Stamped(now, ChargeEveryone))
    {
      global, allowed := UpsertRow(global, Window("", Minute(now)), now, GLOBAL_LIMIT);
    }

    /** Two awaited statements with one clock: whatever other requests and sweeps run `between` them,
        the global window is charged only after the session window allowed it, and the request is
        allowed only if both did. */
    method IsTelemetryRequestAllowed(visitor: string, caller: string, edgeAllows: bool, now: nat, between: seq<Stamped>)
      returns (allowed: bool)
      modifies this
      ensures var first := Stamped(now, ChargeSession(visitor, caller));
              var middle := Ran(Step(old(Contents()), first), between);
              if Granted(old(Contents()), first)
              then Contents() == Step(middle, Stamped(now, ChargeEveryone))
                   && allowed == (Granted(middle, Stamped(now, ChargeEveryone)) && edgeAllows)
              else Contents() == Step(old(Contents()), first) && !allowed
    {
      allowed := ChargeSessionWindow(visitor, caller, now);
      if !allowed { return; }
      Serve(between);
      allowed := ChargeGlobalWindow(now);
      if !allowed { return; }
      allowed := edgeAllows;
    }

    /** Any statements of other requests, one after another. */
    method Serve(ops: seq<Stamped>)
      modifies this
      ensures Contents() == Ran(old(Contents()), ops)
    {
      for n := 0 to |ops|
        invariant Contents() == Ran(old(Contents()), ops[..n])
      {
        assert ops[..n + 1][..n] == ops[..n];
        Perform(ops[n]);
      }
      assert ops[..|ops|] == ops;
    }

    method Perform(s: Stamped)
      modifies this
      ensures Contents() == Step(old(Contents()), s)
    {
      match s.request
      case Operational(endpoint) => var _ := IsOperationalRequestAllowed(endpoint, s.now);
      case Record(digest, dimensions) => RecordOperationalCounter(digest, dimensions, s.now);
      case ChargeSession(visitor, caller) => var _ := ChargeSessionWindow(visitor, caller, s.now);
      case ChargeEveryone => var _ := ChargeGlobalWindow(s.now);
      case Insert(id, visitor, caller) => var _ := InsertTelemetryEvent(id, visitor, caller, s.now);
      case Activate(visitor, caller) => ActivateTelemetryIdentity(visitor, caller, s.now);
      case Refresh(visitor, caller) => var _ := RefreshTelemetryIdentity(visitor, caller, s.now);
      case Cleanup => CleanupExpiredData(s.now);
    }

    method InsertTelemetryEvent(id: string, visitor: string, caller: string, now: nat) returns (inserted: bool)
      modifies this`events
      ensures Contents() == Step(old(Contents()), Stamped(now, Insert(id, visitor, caller)))
      ensures inserted == Granted(old(Contents()), Stamped(now, Insert(id, visitor, caller)))
    {
      inserted := id !in events && (visitor, caller) in identities && identities[(visitor, caller)] > now;
      if inserted {
        events := events[id := Event(now, BoundedExpiry(now, PRODUCT_AGE))];
      }
    }

    method ActivateTelemetryIdentity(visitor: string, caller: string, now: nat)
      modifies this`identities
      ensures Contents() == Step(old(Contents()), Stamped(now, Activate(visitor, caller)))
    {
      identities := identities[(visitor, caller) := now + COOKIE_AGE];
    }

    method RefreshTelemetryIdentity(visitor: string, caller: string, now: nat) returns (refreshed: bool)
      modifies this`identities
      ensures Contents() == Step(old(Contents()), Stamped(now, Refresh(visitor, caller)))
      ensures refreshed == Granted(old(Contents()), Stamped(now, Refresh(visitor, caller)))
    {
      refreshed := (visitor, caller) in identities && identities[(visitor, caller)] > now;
      if refreshed {
        identities := identities[(visitor, caller) := now + COOKIE_AGE];
      }
    }

    /** One batch of deletions, each on its own expiry column. */
    method CleanupExpiredData(now: nat)
      modifies this
      ensures Contents() == Step(old(Contents()), Stamped(now, Cleanup))
    {
      counters := map k | k in counters && counters[k].expiresAt > now :: counters[k];
      digests := map d | d in digests && digests[d].expiresAt > now :: digests[d];
      events := map e | e in events && events[e].expiresAt > now :: events[e];
      session := map w | w in session && session[w].expiresAt > now :: session[w];
      global := map w | w in global && global[w].expiresAt > now :: global[w];
      operational := map w | w in operational && operational[w].expiresAt > now :: operational[w];
      identities := map i | i in identities && identities[i] > now :: identities[i];
    }
  }
}
