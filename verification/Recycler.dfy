/**
 Cluster recycling: the idle timer and the billing boundary of a tenant's cluster.

 `TickRow` is one visit of the recycler to one cluster; `Tick` carries the
 instant, the number of active tasks it counted and which of its calls succeed.
 `Store` keeps the cluster rows and performs the visits step by step.
 */
module Recycler {
  import opened Rows
  import opened Ledger

  datatype ClusterStatus = Provisioning | Active | Terminated

  datatype Cluster = Cluster(status: ClusterStatus, backend: string, cycle: Time, boundary: Time, idleSince: Option<Time>)

  /** Configuration loading replaces nonpositive values by defaults. */
  datatype Config = Config(advance: Time, idle: Time)
  {
    predicate Positive() {
      advance > 0 && idle > 0
    }
  }

  /** `active` is `None` when counting the active tasks fails. */
  datatype Tick = Tick(now: Time, active: Option<nat>, clearOk: bool, markOk: bool, renewOk: bool, destroyOk: bool, terminateOk: bool)
  {
    predicate Busy() {
      active.Some? && active.value > 0
    }

    predicate Quiet() {
      active == Some(0)
    }
  }

  predicate IsNearBoundary(c: Cluster, now: Time, threshold: Time) {
    c.boundary - now <= threshold
  }

  predicate IsExpired(c: Cluster, now: Time) {
    now > c.boundary
  }

  predicate IsIdleExpired(c: Cluster, now: Time, threshold: Time) {
    c.idleSince.Some? && now - c.idleSince.value >= threshold
  }

  function Renewed(c: Cluster): Cluster {
    c.(boundary := c.boundary + c.cycle)
  }

  /** The idle timer the visit works with: the recorded one, or one started now. */
  function IdleNow(c: Cluster, now: Time): Cluster {
    if c.idleSince.None? then c.(idleSince := Some(now)) else c
  }

  function TickRow(cfg: Config, c: Cluster, t: Tick): Cluster {
    if !c.status.Active? || t.active.None? then c
    else if t.active.value > 0 then
      var kept := if c.idleSince.Some? && t.clearOk then c.(idleSince := None) else c;
      if (IsExpired(c, t.now) || IsNearBoundary(c, t.now, cfg.advance)) && t.renewOk then Renewed(kept) else kept
    else
      var kept := if t.markOk then IdleNow(c, t.now) else c;
      var due := IsIdleExpired(IdleNow(c, t.now), t.now, cfg.idle) && (IsNearBoundary(c, t.now, cfg.advance) || IsExpired(c, t.now));
      if due && t.destroyOk && t.terminateOk then kept.(status := Terminated) else kept
  }

  /******* The visit, column by column *******/

  /** Past the boundary, or no further from it than the advance. */
  predicate AtBoundary(cfg: Config, c: Cluster, now: Time) {
    c.boundary < now || c.boundary <= now + cfg.advance
  }

  /** What one visit leaves of the row `c`, each column for itself. */
  predicate Visited(cfg: Config, c: Cluster, t: Tick, c': Cluster) {
    var processed := c.status == Active && t.active.Some?;
    var busy, quiet := processed && t.active.value > 0, processed && t.active.value == 0;
    && c'.backend == c.backend && c'.cycle == c.cycle
    && c'.boundary == (if busy && AtBoundary(cfg, c, t.now) && t.renewOk then c.boundary + c.cycle else c.boundary)
    && c'.idleSince == (if busy && t.clearOk then None else if quiet && t.markOk && c.idleSince.None? then Some(t.now) else c.idleSince)
    && c'.status == (if && quiet && AtBoundary(cfg, c, t.now) && t.destroyOk && t.terminateOk
                        && t.now >= (if c.idleSince.Some? then c.idleSince.value else t.now) + cfg.idle
                     then Terminated else c.status)
  }

  lemma VisitedExactly(cfg: Config, c: Cluster, t: Tick, c': Cluster)
    ensures Visited(cfg, c, t, c') <==> c' == TickRow(cfg, c, t)
  {
  }

  /** The row after a sequence of visits. */
  function Ticks(cfg: Config, c: Cluster, ts: seq<Tick>): Cluster {
    if |ts| == 0 then c else TickRow(cfg, Ticks(cfg, c, Front(ts)), Last(ts))
  }

  /******* The billing corridor *******/

  /** A cluster's life: visits, and the poller providing or activating it. */
  datatype Step =
    | Visit(tick: Tick)
    | Provide(at: Time, cycle: Time, backend: string)
    | Activate(at: Time)

  /** `base` is the boundary set when the row was last provided. */
  datatype Life = Life(row: Option<Cluster>, base: Time, now: Time)

  function At(s: Step): Time {
    if s.Visit? then s.tick.now else s.at
  }

  /** An existing row is reused; a terminated one is provided anew but keeps `idle_since`. */
  function Provided(row: Option<Cluster>, at: Time, cycle: Time, backend: string): Cluster {
    if row.None? then Cluster(Provisioning, backend, cycle, at + cycle, None)
    else if row.value.status.Terminated? then row.value.(status := Provisioning, backend := backend, cycle := cycle, boundary := at + cycle)
    else row.value
  }

  function Activated(row: Option<Cluster>): Option<Cluster> {
    if row.Some? && !row.value.status.Terminated? then Some(row.value.(status := Active)) else row
  }

  function Live(cfg: Config, l: Life, s: Step): Life {
    match s
    case Visit(t) => Life(if l.row.Some? then Some(TickRow(cfg, l.row.value, t)) else None, l.base, t.now)
    case Provide(at, cycle, backend) =>
      var row := Provided(l.row, at, cycle, backend);
      Life(Some(row), if l.row.None? || l.row.value.status.Terminated? then row.boundary else l.base, at)
    case Activate(at) => Life(Activated(l.row), l.base, at)
  }

  function Lived(cfg: Config, steps: seq<Step>): Life {
    if |steps| == 0 then Life(None, 0, 0) else Live(cfg, Lived(cfg, Front(steps)), Last(steps))
  }

  predicate InOrder(steps: seq<Step>) {
    && (forall i :: 0 <= i < |steps| ==> steps[i].Provide? ==> steps[i].cycle > 0)
    && (forall i, j :: 0 <= i < j < |steps| ==> At(steps[i]) <= At(steps[j]))
  }

  /** The boundary is the provided one plus whole cycles, at most a cycle and the advance ahead. */
  ghost predicate InCorridor(cfg: Config, l: Life) {
    l.row.Some? ==>
      && l.row.value.cycle > 0
      && l.row.value.boundary <= l.now + cfg.advance + l.row.value.cycle
      && exists k: nat :: l.row.value.boundary == l.base + k * l.row.value.cycle
  }

  lemma CorridorStep(cfg: Config, l: Life, s: Step)
    requires cfg.Positive() && InCorridor(cfg, l) && l.now <= At(s) && (s.Provide? ==> s.cycle > 0)
    ensures InCorridor(cfg, Live(cfg, l, s))
  {
    var l' := Live(cfg, l, s);
    if l.row.Some? {
      var c := l.row.value;
      var k: nat :| c.boundary == l.base + k * c.cycle;
      if l'.base == l.base && l'.row.value.cycle == c.cycle && l'.row.value.boundary == c.boundary + c.cycle {
        assert l'.row.value.boundary == l'.base + (k + 1) * c.cycle;
      } else if l'.row.value.boundary == c.boundary && l'.base == l.base {
        assert l'.row.value.boundary == l'.base + k * c.cycle;
      } else {
        assert l'.row.value.boundary == l'.base + 0 * l'.row.value.cycle;
      }
    } else if s.Provide? {
      assert l'.row.value.boundary == l'.base + 0 * l'.row.value.cycle;
    }
  }

  lemma {:induction false} BillingCorridor(cfg: Config, steps: seq<Step>)
    requires cfg.Positive() && InOrder(steps) && (|steps| > 0 ==> At(steps[0]) >= 0)
    ensures InCorridor(cfg, Lived(cfg, steps))
    ensures |steps| > 0 ==> Lived(cfg, steps).now == At(Last(steps))
  {
    if |steps| > 0 {
      BillingCorridor(cfg, Front(steps));
      if |steps| > 1 { assert Last(Front(steps)) == steps[|steps| - 2]; }
      CorridorStep(cfg, Lived(cfg, Front(steps)), Last(steps));
    }
  }

  /******* Renewal under activity *******/

  /** Every visit sees activity and can renew, and comes within `gap` of the previous one. */
  predicate Paced(ts: seq<Tick>, gap: Time) {
    && (forall i :: 0 <= i < |ts| ==> ts[i].Busy() && ts[i].renewOk)
    && (forall i :: 0 < i < |ts| ==> ts[i - 1].now <= ts[i].now <= ts[i - 1].now + gap)
  }

  lemma PacedFront(ts: seq<Tick>, gap: Time)
    requires |ts| > 0 && Paced(ts, gap)
    ensures Paced(Front(ts), gap)
    ensures |ts| > 1 ==> Last(Front(ts)).now <= Last(ts).now <= Last(Front(ts)).now + gap
  {
    var f := Front(ts);
    forall i | 0 < i < |f| ensures f[i - 1].now <= f[i].now <= f[i - 1].now + gap { assert f[i] == ts[i] && f[i - 1] == ts[i - 1]; }
  }

  /** How far past the boundary the last visit of `ts` came. */
  function Deficit(cfg: Config, c: Cluster, ts: seq<Tick>): Time
    requires |ts| > 0
  {
    Last(ts).now - Ticks(cfg, c, Front(ts)).boundary
  }

  /** The i-th visit came no later than the boundary. */
  predicate SeenInTime(cfg: Config, c: Cluster, ts: seq<Tick>, i: nat) {
    i < |ts| && Deficit(cfg, c, ts[..i + 1]) <= 0
  }

  lemma {:induction false} StaysActive(cfg: Config, c: Cluster, ts: seq<Tick>, gap: Time)
    requires c.status.Active? && Paced(ts, gap)
    ensures Ticks(cfg, c, ts).status.Active? && Ticks(cfg, c, ts).cycle == c.cycle
  {
    if |ts| > 0 {
      PacedFront(ts, gap);
      StaysActive(cfg, c, Front(ts), gap);
    }
  }

  lemma OneMoreVisit(cfg: Config, c: Cluster, ts: seq<Tick>, gap: Time)
    requires cfg.Positive() && c.status.Active? && c.cycle > 0 && |ts| > 1 && Paced(ts, gap)
    ensures Deficit(cfg, c, Front(ts)) > 0 ==> Deficit(cfg, c, ts) <= Deficit(cfg, c, Front(ts)) - (c.cycle - gap)
    ensures gap <= cfg.advance && gap <= c.cycle && Deficit(cfg, c, Front(ts)) <= 0 ==> Deficit(cfg, c, ts) <= 0
  {
    var f := Front(ts);
    PacedFront(ts, gap);
    PacedFront(f, gap);
    StaysActive(cfg, c, Front(f), gap);
  }

  /** With visits at most min(advance, cycle) apart, a cluster seen unexpired is never again seen expired. */
  lemma {:induction false} NeverExpiresAgain(cfg: Config, c: Cluster, ts: seq<Tick>, gap: Time, i: nat)
    requires cfg.Positive() && c.status.Active? && c.cycle > 0 && Paced(ts, gap) && gap <= cfg.advance && gap <= c.cycle
    requires SeenInTime(cfg, c, ts, i)
    ensures Deficit(cfg, c, ts) <= 0
  {
    if i + 1 == |ts| {
      assert ts[..i + 1] == ts;
    } else {
      PacedFront(ts, gap);
      assert Front(ts)[..i + 1] == ts[..i + 1];
      NeverExpiresAgain(cfg, c, Front(ts), gap, i);
      OneMoreVisit(cfg, c, ts, gap);
    }
  }

  /** An expired boundary catches up: within n visits the deficit is gone, or it has shrunk by (n - 1) * (cycle - gap). */
  lemma {:induction false} CatchesUp(cfg: Config, c: Cluster, ts: seq<Tick>, gap: Time)
    requires cfg.Positive() && c.status.Active? && c.cycle > 0 && Paced(ts, gap) && |ts| > 0
    ensures || (exists i: nat :: SeenInTime(cfg, c, ts, i))
            || Deficit(cfg, c, ts) <= Deficit(cfg, c, ts[..1]) - (|ts| - 1) * (c.cycle - gap)
  {
    if |ts| == 1 {
      assert ts[..1] == ts;
    } else {
      var f := Front(ts);
      PacedFront(ts, gap);
      CatchesUp(cfg, c, f, gap);
      assert f[..1] == ts[..1];
      if i: nat :| SeenInTime(cfg, c, f, i) {
        assert f[..i + 1] == ts[..i + 1];
        assert SeenInTime(cfg, c, ts, i);
      } else {
        assert f[..|f|] == f;
        assert !SeenInTime(cfg, c, f, |f| - 1);
        OneMoreVisit(cfg, c, ts, gap);
        Less(|f| - 1, c.cycle - gap);
      }
    }
  }

  lemma Less(n: int, d: int)
    ensures (n + 1) * d == n * d + d
  {
  }

  /******* Idle termination *******/

  /** When a quiet cluster with idle timer `t0` is due for termination. */
  function DueAt(cfg: Config, c: Cluster, t0: Time): Time {
    if t0 + cfg.idle >= c.boundary - cfg.advance then t0 + cfg.idle else c.boundary - cfg.advance
  }

  predicate AllQuiet(ts: seq<Tick>) {
    && (forall i :: 0 <= i < |ts| ==> ts[i].Quiet() && ts[i].markOk && ts[i].destroyOk && ts[i].terminateOk)
    && (forall i, j :: 0 <= i < j < |ts| ==> ts[i].now <= ts[j].now)
  }

  /**
   Idle termination is exact: as long as the cluster is quiet and calls succeed,
   it is terminated by the first visit at or after max(t0 + idle, B - advance).
   */
  lemma {:induction false} TerminatedOnTime(cfg: Config, c: Cluster, ts: seq<Tick>)
    requires cfg.Positive() && c.status.Active? && AllQuiet(ts) && |ts| > 0
    ensures var t0 := if c.idleSince.Some? then c.idleSince.value else ts[0].now;
      Ticks(cfg, c, ts) == c.(idleSince := Some(t0), status := if Last(ts).now >= DueAt(cfg, c, t0) then Terminated else Active)
  {
    if |ts| == 1 {
      assert Ticks(cfg, c, Front(ts)) == c;
    } else {
      var f := Front(ts);
      assert Last(f) == ts[|ts| - 2] && f[0] == ts[0];
      TerminatedOnTime(cfg, c, f);
    }
  }

  /** No visit from the m-th on found active tasks. */
  predicate QuietFrom(ts: seq<Tick>, m: nat) {
    forall j :: m <= j < |ts| ==> !ts[j].Busy()
  }

  predicate ClearsSucceed(ts: seq<Tick>) {
    forall j :: 0 <= j < |ts| && ts[j].Busy() ==> ts[j].clearOk
  }

  /** `t0` was recorded at a visit after which no activity was found, or before the visits, none of which found any. */
  ghost predicate Honest(c: Cluster, ts: seq<Tick>, t0: Time) {
    || (exists m: nat :: m < |ts| && ts[m].now == t0 && QuietFrom(ts, m))
    || (c.idleSince == Some(t0) && QuietFrom(ts, 0))
  }

  lemma HonestLonger(c: Cluster, ts: seq<Tick>, t0: Time)
    requires |ts| > 0 && Honest(c, Front(ts), t0) && !Last(ts).Busy()
    ensures Honest(c, ts, t0)
  {
    var f := Front(ts);
    if m: nat :| m < |f| && f[m].now == t0 && QuietFrom(f, m) {
      assert QuietFrom(ts, m) by {
        forall j | m <= j < |ts| ensures !ts[j].Busy() { if j < |f| { assert ts[j] == f[j]; } }
      }
    } else {
      forall j | 0 <= j < |ts| ensures !ts[j].Busy() { if j < |f| { assert ts[j] == f[j]; } }
    }
  }

  lemma {:induction false} IdleTimerHonest(cfg: Config, c: Cluster, ts: seq<Tick>)
    requires c.status.Active? && ClearsSucceed(ts)
    ensures var r := Ticks(cfg, c, ts); r.status.Active? && r.idleSince.Some? ==> Honest(c, ts, r.idleSince.value)
  {
    if |ts| > 0 {
      var f, t := Front(ts), Last(ts);
      assert ClearsSucceed(f) by { forall j | 0 <= j < |f| && f[j].Busy() ensures f[j].clearOk { assert f[j] == ts[j]; } }
      IdleTimerHonest(cfg, c, f);
      var before, r := Ticks(cfg, c, f), Ticks(cfg, c, ts);
      if r.status.Active? && r.idleSince.Some? {
        if before.idleSince.Some? {
          if !t.Busy() { HonestLonger(c, ts, r.idleSince.value); }
        } else {
          assert ts[|ts| - 1].now == r.idleSince.value && QuietFrom(ts, |ts| - 1);
        }
      }
    }
  }

  /**
   If every clearing of the idle timer succeeds, a cluster is terminated only
   after `idle` time in which no visit found active tasks, counted from a visit,
   or from the timer it had before the first of them.
   */
  lemma TerminationHonest(cfg: Config, c: Cluster, ts: seq<Tick>)
    requires cfg.Positive() && c.status.Active? && ClearsSucceed(ts) && |ts| > 0
    requires Ticks(cfg, c, Front(ts)).status.Active? && Ticks(cfg, c, ts).status.Terminated?
    ensures exists t0 :: Honest(c, ts, t0) && Last(ts).now - t0 >= cfg.idle
  {
    var f, t := Front(ts), Last(ts);
    assert ClearsSucceed(f) by { forall j | 0 <= j < |f| && f[j].Busy() ensures f[j].clearOk { assert f[j] == ts[j]; } }
    IdleTimerHonest(cfg, c, f);
    var before := Ticks(cfg, c, f);
    HonestLonger(c, ts, before.idleSince.value);
    assert Last(ts).now - before.idleSince.value >= cfg.idle;
  }

  /** The termination by the last visit keeps the promise: enough time without activity. */
  ghost predicate Promise(cfg: Config, c: Cluster, ts: seq<Tick>)
    requires |ts| > 0
  {
    Ticks(cfg, c, ts).status.Terminated? ==> exists t0 :: Honest(c, ts, t0) && Last(ts).now - t0 >= cfg.idle
  }

  /** Visits that find no activity, in the order of time. */
  predicate Calm(qs: seq<Tick>) {
    QuietFrom(qs, 0) && forall i, j :: 0 <= i < j < |qs| ==> qs[i].now <= qs[j].now
  }

  /** Calm visits, at least one, after the visit `t`. */
  predicate CalmAfter(t: Tick, qs: seq<Tick>) {
    Calm(qs) && |qs| > 0 && t.now <= qs[0].now
  }

  lemma {:induction false} TicksSplit(cfg: Config, c: Cluster, a: seq<Tick>, b: seq<Tick>)
    ensures Ticks(cfg, c, a + b) == Ticks(cfg, Ticks(cfg, c, a), b)
  {
    if |b| == 0 {
      assert a + b == a;
    } else {
      assert Front(a + b) == a + Front(b) && Last(a + b) == Last(b);
      TicksSplit(cfg, c, a, Front(b));
    }
  }

  /** An active cluster without a timer keeps the promise as long as nothing happens. */
  lemma {:induction false} CalmKeepsPromise(cfg: Config, c: Cluster, qs: seq<Tick>)
    requires cfg.Positive() && c.status.Active? && c.idleSince.None? && Calm(qs) && |qs| > 0
    ensures Promise(cfg, c, qs)
  {
    if Ticks(cfg, c, qs).status.Terminated? {
      var f := Front(qs);
      if Ticks(cfg, c, f).status.Terminated? {
        assert Calm(f) && f != [];
        CalmKeepsPromise(cfg, c, f);
        var t0 :| Honest(c, f, t0) && Last(f).now - t0 >= cfg.idle;
        HonestLonger(c, qs, t0);
        assert Last(f) == qs[|qs| - 2];
      } else {
        StillActive(cfg, c, f);
        TerminationHonest(cfg, c, qs);
      }
    }
  }

  lemma {:induction false} StillActive(cfg: Config, c: Cluster, ts: seq<Tick>)
    requires c.status.Active?
    ensures !Ticks(cfg, c, ts).status.Provisioning?
  {
    if |ts| > 0 { StillActive(cfg, c, Front(ts)); }
  }

  /** A timer started in the later visits is honest about the whole run. */
  lemma HonestWhole(c: Cluster, mid: Cluster, a: seq<Tick>, qs: seq<Tick>, t0: Time)
    requires mid.idleSince.None? && Honest(mid, qs, t0)
    ensures Honest(c, a + qs, t0)
  {
    var m: nat :| m < |qs| && qs[m].now == t0 && QuietFrom(qs, m);
    var ts := a + qs;
    assert ts[|a| + m] == qs[m];
    assert QuietFrom(ts, |a| + m) by {
      forall j | |a| + m <= j < |ts| ensures !ts[j].Busy() { assert ts[j] == qs[j - |a|]; }
    }
  }

  lemma ClearedKeepsPromise(cfg: Config, c: Cluster, a: seq<Tick>, qs: seq<Tick>)
    requires cfg.Positive() && Ticks(cfg, c, a).status.Active? && Ticks(cfg, c, a).idleSince.None? && Calm(qs) && |qs| > 0
    ensures Promise(cfg, c, a + qs)
  {
    var mid := Ticks(cfg, c, a);
    TicksSplit(cfg, c, a, qs);
    CalmKeepsPromise(cfg, mid, qs);
    assert Last(a + qs) == Last(qs);
    if Ticks(cfg, c, a + qs).status.Terminated? {
      var t0 :| Honest(mid, qs, t0) && Last(qs).now - t0 >= cfg.idle;
      HonestWhole(c, mid, a, qs, t0);
    }
  }

  /** With the timer still running after activity, one quiet visit late enough breaks the promise. */
  lemma FailedClearTerminates(cfg: Config, c: Cluster, pre: seq<Tick>, busy: Tick, quiet: Tick)
    requires cfg.Positive() && busy.Busy() && quiet.Quiet() && quiet.destroyOk && quiet.terminateOk
    requires var row := Ticks(cfg, c, pre + [busy]);
      row.status.Active? && row.idleSince.Some? && quiet.now >= DueAt(cfg, row, row.idleSince.value)
    ensures Ticks(cfg, c, pre + [busy] + [quiet]).status.Terminated? && !Promise(cfg, c, pre + [busy] + [quiet])
  {
    var ts := pre + [busy] + [quiet];
    assert Front(ts) == pre + [busy] && Last(ts) == quiet;
    assert ts[|pre|].Busy();
    forall t0 | Honest(c, ts, t0) ensures quiet.now - t0 < cfg.idle {
      var m: nat :| m < |ts| && ts[m].now == t0 && QuietFrom(ts, m);
      assert m == |ts| - 1;
    }
  }

  /** The row after a visit that finds activity. */
  lemma AfterBusy(cfg: Config, c: Cluster, pre: seq<Tick>, busy: Tick)
    requires Ticks(cfg, c, pre).status.Active? && busy.Busy()
    ensures var row, row' := Ticks(cfg, c, pre), Ticks(cfg, c, pre + [busy]);
      row'.status.Active? && row'.idleSince == if busy.clearOk then None else row.idleSince
  {
    assert Front(pre + [busy]) == pre && Last(pre + [busy]) == busy;
  }

  /**
   Exactly when the promise survives, in any run: after the last visit that found
   activity, whatever came before it, no calm visits can break the promise if and
   only if that visit's clearing of the idle timer succeeded or there was no timer
   to clear. Earlier clearings may fail.
   */
  lemma PromiseNeedsClear(cfg: Config, c: Cluster, pre: seq<Tick>, busy: Tick)
    requires cfg.Positive() && Ticks(cfg, c, pre).status.Active? && busy.Busy()
    ensures (forall qs :: CalmAfter(busy, qs) ==> Promise(cfg, c, pre + [busy] + qs))
      <==> busy.clearOk || Ticks(cfg, c, pre).idleSince.None?
  {
    AfterBusy(cfg, c, pre, busy);
    var row := Ticks(cfg, c, pre + [busy]);
    if row.idleSince.None? {
      forall qs | CalmAfter(busy, qs) ensures Promise(cfg, c, pre + [busy] + qs) { ClearedKeepsPromise(cfg, c, pre + [busy], qs); }
    } else {
      var due := DueAt(cfg, row, row.idleSince.value);
      var quiet := Tick(if due >= busy.now then due else busy.now, Some(0), true, true, true, true, true);
      FailedClearTerminates(cfg, c, pre, busy, quiet);
      assert CalmAfter(busy, [quiet]);
    }
  }

  /**
   A terminated row that is provided again keeps its old idle timer: if its task
   is over before the first visit, that visit counts idle time from the past life.
   */
  lemma ReusedTimer(cfg: Config, row: Cluster, at: Time, cycle: Time, backend: string, t: Tick)
    requires cfg.Positive() && row.status.Terminated? && row.idleSince.Some? && t.Quiet() && t.destroyOk && t.terminateOk
    ensures var c := Activated(Some(Provided(Some(row), at, cycle, backend))).value;
      TickRow(cfg, c, t).status.Terminated? <==> t.now >= row.idleSince.value + cfg.idle && t.now >= at + cycle - cfg.advance
  {
  }

  /******* The store *******/

  class Store {
    var rows: map<TenantId, Cluster>

    constructor ()
      ensures rows == map[]
    {
      rows := map[];
    }

    method UpdateIdleSince(id: TenantId, to: Option<Time>, ok: bool)
      requires id in rows
      modifies this
      ensures rows == if ok then old(rows)[id := old(rows)[id].(idleSince := to)] else old(rows)
    {
      if ok { rows := rows[id := rows[id].(idleSince := to)]; }
    }

    method RenewBilling(id: TenantId, ok: bool)
      requires id in rows
      modifies this
      ensures rows == if ok then old(rows)[id := Renewed(old(rows)[id])] else old(rows)
    {
      if ok {
        var cluster := rows[id];
        rows := rows[id := cluster.(boundary := cluster.boundary + cluster.cycle)];
      }
    }

    method UpdateStatus(id: TenantId, status: ClusterStatus, ok: bool)
      requires id in rows
      modifies this
      ensures rows == if ok then old(rows)[id := old(rows)[id].(status := status)] else old(rows)
    {
      if ok { rows := rows[id := rows[id].(status := status)]; }
    }

    /** The recycler's visit to one cluster it has listed. */
    method RecycleOne(cfg: Config, id: TenantId, t: Tick)
      requires id in rows
      modifies this
      ensures rows == old(rows)[id := TickRow(cfg, old(rows)[id], t)]
      ensures rows == old(rows)[id := rows[id]] && Visited(cfg, old(rows)[id], t, rows[id])
    {
      var cluster := rows[id];
      if !cluster.status.Active? || t.active.None? { return; }
      if t.active.value > 0 {
        if cluster.idleSince.Some? { UpdateIdleSince(id, None, t.clearOk); }
        if IsExpired(cluster, t.now) {
          RenewBilling(id, t.renewOk);
          return;
        }
        if IsNearBoundary(cluster, t.now, cfg.advance) { RenewBilling(id, t.renewOk); }
        return;
      }
      if cluster.idleSince.None? {
        UpdateIdleSince(id, Some(t.now), t.markOk);
        cluster := cluster.(idleSince := Some(t.now));
      }
      if IsIdleExpired(cluster, t.now, cfg.idle) && (IsNearBoundary(cluster, t.now, cfg.advance) || IsExpired(cluster, t.now)) {
        if !t.destroyOk { return; }
        UpdateStatus(id, Terminated, t.terminateOk);
      }
    }

    /** One round over all listed clusters. */
    method RecycleClusters(cfg: Config, visits: map<TenantId, Tick>)
      requires rows.Keys <= visits.Keys
      modifies this
      ensures rows.Keys == old(rows).Keys
      ensures forall id :: id in rows ==> rows[id] == TickRow(cfg, old(rows)[id], visits[id])
      ensures forall id :: id in rows ==> Visited(cfg, old(rows)[id], visits[id], rows[id])
    {
      var todo := set id | id in rows && !rows[id].status.Terminated?;
      while todo != {}
        invariant rows.Keys == old(rows).Keys && todo <= rows.Keys
        invariant forall id :: id in rows ==> rows[id] == if id in todo then old(rows)[id] else TickRow(cfg, old(rows)[id], visits[id])
      {
        var id :| id in todo;
        RecycleOne(cfg, id, visits[id]);
        todo := todo - {id};
      }
    }

    method GetOrCreateActiveCluster(id: TenantId, at: Time, cycle: Time, backend: string) returns (c: Cluster)
      modifies this
      ensures c == Provided(if id in old(rows) then Some(old(rows)[id]) else None, at, cycle, backend)
      ensures rows == old(rows)[id := c]
      ensures id !in old(rows) ==> c == Cluster(Provisioning, backend, cycle, at + cycle, None)
      ensures id in old(rows) && old(rows)[id].status != Terminated ==> c == old(rows)[id]
      ensures id in old(rows) && old(rows)[id].status == Terminated ==>
        c == Cluster(Provisioning, backend, cycle, at + cycle, old(rows)[id].idleSince)
    {
      if id in rows && !rows[id].status.Terminated? { return rows[id]; }
      if id !in rows {
        c := Cluster(Provisioning, backend, cycle, at + cycle, None);
      } else {
        c := rows[id].(status := Provisioning, backend := backend, cycle := cycle, boundary := at + cycle);
      }
      rows := rows[id := c];
    }
  }
}
