/**
 Buckets whose row was pruned. The ingest clamp and a forward-moving clock keep new rows out of
 them, but not the rows they already hold: one that was still undecided when the bucket's row went
 is later summarised alone. Every summary is complete in every run in which no bucket row is pruned
 while a raw row of its bucket is left.
 */
module StoreRetirement {
  import opened Wrappers
  import opened Ordering
  import opened Samples
  import opened StoreModel
  import opened StoreInvariant
  import opened StoreSteps
  import opened StoreTransactions
  import opened StoreCleanup
  import opened StoreRuns
  import opened StoreWitnesses

  const DAY: real := 86400.0

  /** What ingestion stores (backend/app/websocket/agent_ws.py:183-190): a positive timestamp near the clock. */
  predicate Clamped(arrived: real, ts: real) {
    0.0 < ts && arrived - DAY <= ts <= arrived + 300.0
  }

  /** The clock has not gone back past any cleanup's, and ingestion clamped the timestamp. */
  ghost predicate Clocked(s: State, e: Event) {
    match e
    case Stored(arrived, _, ts, _) => Clamped(arrived, ts) && forall t | t in s.h.clocks :: t <= arrived
    case Downsampled(_, now, _) => forall t | t in s.h.clocks :: t <= now
    case CleanedUp(now, _, _, _, _) => forall t | t in s.h.clocks :: t <= now
    case RolledBack => true
  }

  /** No bucket row goes while a raw row of the bucket is left. */
  ghost predicate LeavesNoRow(e: Event, next: State) {
    e.CleanedUp? ==> forall m, k | m in next.db.metrics && k in e.bucketsCut :: KeyOf(m, k.res) != k
  }

  ghost predicate IsClockedRun(states: seq<State>, events: seq<Event>) {
    IsRun(states, events) && forall i | 0 <= i < |events| :: Clocked(states[i], events[i])
  }

  ghost predicate IsTidyRun(states: seq<State>, events: seq<Event>) {
    IsClockedRun(states, events) && forall i | 0 <= i < |events| :: LeavesNoRow(events[i], states[i + 1])
  }

  // ── tidy runs ───────────────────────────────────────

  /** Every row ever stored in a retired bucket is behind the generation it had published. */
  ghost predicate Closed(h: History) {
    forall m, k | m in h.stored && k in h.retired :: KeyOf(m, k.res) == k ==> m.id <= h.retired[k]
  }

  /** A clamped arrival misses every bucket some cleanup was more than a week past. */
  lemma ArrivalMissesSwept(s: State, e: Event, k: Key)
    requires e.Stored? && Clocked(s, e) && Swept(s.h, k)
    ensures KeyOf(Incoming(s.db, e.agent, e.ts, e.data), k.res) != k
  {
    var t :| t in s.h.clocks && k.start as real < t - WEEK;
    assert t <= e.arrived;
    hide BucketStart;
  }

  lemma StoreCloses(s: State, e: Event, next: State)
    requires Inv(s.db, s.h) && Step(s, e, next) && e.Stored? && Clocked(s, e) && Closed(s.h)
    ensures Closed(next.h)
  {
    hide KeyOf, Clocked, StoreMetric, Swept, HasStored, Inv;
    var row := Incoming(s.db, e.agent, e.ts, e.data);
    forall k | k in s.h.retired
      ensures KeyOf(row, k.res) != k
    {
      KeyFacts(s.db, s.h, k);
      ArrivalMissesSwept(s, e, k);
    }
  }

  lemma CleanupCloses(s: State, e: Event, next: State)
    requires Inv(s.db, s.h) && Step(s, e, next) && e.CleanedUp? && LeavesNoRow(e, next) && Closed(s.h)
    ensures Closed(next.h)
  {
    hide KeyOf, Cleanup, CleanupPicks, Inv, HasStored, CoverInv, LegacyInv, SummaryExact, Swept;
    StepKeeps(s, e, next);
    forall m, k | m in next.h.stored && k in next.h.retired && KeyOf(m, k.res) == k
      ensures m.id <= next.h.retired[k]
    {
      if k in e.bucketsCut {
        RowFact(next.db, next.h, m, k.res);
        KeyFacts(next.db, next.h, k);
        PrunedIsGone(s, e, next, k);
      }
    }
  }

  lemma PrunedIsGone(s: State, e: Event, next: State, k: Key)
    requires Step(s, e, next) && e.CleanedUp? && k in e.bucketsCut
    ensures k !in next.db.buckets
  {
    hide Reclaim, Doomed, CleanupPicks;
  }

  lemma {:induction false} TidyRunCloses(states: seq<State>, events: seq<Event>)
    requires IsTidyRun(states, events)
    ensures Closed(states[|events|].h)
    decreases |events|
  {
    if events != [] {
      var n := |events| - 1;
      TidyPrefix(states, events);
      TidyRunCloses(states[..n + 1], events[..n]);
      hide *;
      RunKeeps(states[..n + 1], events[..n]);
      LastStep(states, events);
      StepCloses(states[n], events[n], states[n + 1]);
    }
  }

  lemma TidyPrefix(states: seq<State>, events: seq<Event>)
    requires IsTidyRun(states, events) && events != []
    ensures var n := |events| - 1;
            && |states| == n + 2
            && IsTidyRun(states[..n + 1], events[..n]) && IsRun(states[..n + 1], events[..n])
            && states[..n + 1][n] == states[n]
  {
    hide Installed, Step, Clocked, LeavesNoRow;
  }

  lemma LastStep(states: seq<State>, events: seq<Event>)
    requires IsTidyRun(states, events) && events != []
    ensures var n := |events| - 1;
            && |states| == n + 2
            && Step(states[n], events[n], states[n + 1])
            && Clocked(states[n], events[n]) && LeavesNoRow(events[n], states[n + 1])
  {
    hide Installed, Step, Clocked, LeavesNoRow;
  }

  lemma StepCloses(s: State, e: Event, next: State)
    requires Inv(s.db, s.h) && Step(s, e, next) && Clocked(s, e) && LeavesNoRow(e, next) && Closed(s.h)
    ensures Closed(next.h)
  {
    hide Inv, Downsample, Cleanup, CleanupPicks, Closed, Clocked, LeavesNoRow;
    match e
    case Stored(_, _, _, _) => StoreCloses(s, e, next);
    case CleanedUp(_, _, _, _, _) => CleanupCloses(s, e, next);
    case _ =>
  }

  lemma ClosedBucketIsOver(db: Db, h: History, k: Key)
    requires Inv(db, h) && Closed(h) && k in h.retired
    ensures k !in db.buckets
  {
    hide Inv, KeyOf, Swept, SummaryExact;
    KeyFacts(db, h, k);
  }

  /**
   In a tidy run a live summary is the average of every row ever stored in its bucket above the
   cutover and up to its published generation: none is missed.
   */
  lemma TidyRunsAreComplete(states: seq<State>, events: seq<Event>, k: Key)
    requires IsTidyRun(states, events)
    requires var s := states[|events|]; k in s.db.buckets && k in s.db.summaries
    ensures var s := states[|events|];
            var rows := EverStored(s, k, s.db.buckets[k].publishedGen);
            IsAverage(rows, s.db.summaries[k])
  {
    var s := states[|events|];
    assert Reachable(s);
    TidyRunCloses(states, events);
    hide *;
    ReachableInv(s);
    if k in s.h.retired {
      ClosedBucketIsOver(s.db, s.h, k);
    }
    PublishedIsOneShot(s, k);
    CompleteUnlessRetired(s, k);
  }

  // ── a clocked run that leaves a row out ─────────────

  ghost predicate ReachedByClock(s: State) {
    exists states, events :: IsClockedRun(states, events) && states[|events|] == s
  }

  lemma ClockStarts(s: State)
    requires Installed(s)
    ensures ReachedByClock(s)
  {
    hide Installed;
    assert IsClockedRun([s], []);
  }

  lemma ClockStep(s: State, e: Event, next: State)
    requires ReachedByClock(s) && Step(s, e, next) && Clocked(s, e)
    ensures ReachedByClock(next)
  {
    var states, events :| IsClockedRun(states, events) && states[|events|] == s;
    hide Step, Installed, Clocked;
    var more, moves := states + [next], events + [e];
    forall i | 0 <= i < |moves|
      ensures Step(more[i], moves[i], more[i + 1]) && Clocked(more[i], moves[i])
    {
      if i < |events| {
        assert more[i] == states[i] && more[i + 1] == states[i + 1] && moves[i] == events[i];
      }
    }
    assert IsClockedRun(more, moves) && more[|moves|] == next;
  }

  /** The snapshot of the first row; what it says besides averages comes from the template. */
  const HOST: Sample := map["host" := Null]

  const EARLY: Row := Row(1, 0, 1.0, HOST)
  const LATE: Row := Row(2, 0, 2.0, IDLE)

  /** The template is the first snapshot, and with no readings in it nothing replaces it. */
  lemma HostAverages()
    ensures AverageMetrics([HOST]) == Some(HOST)
    ensures AverageMetrics([HOST, IDLE]) == Some(HOST)
  {
    var t := NO_TOTALS;
    var one := Acc(1, Some(HOST), t, [], false, false);
    var two := one.(n := 2);
    assert Zeros(0) == [] && seq<GpuTotal>(0, _ => GpuTotal(0, Zeros(|GPU_FIELDS|))) == [];
    assert Get(Look(HOST, "cpu", EMPTY), "percent_per_core", NO_ITEMS) == Some(NO_ITEMS);
    assert Reserve(HOST) == Some(t);
    assert AddTotals(t, HOST) == Done(t) && AddTotals(t, IDLE) == Done(t);
    assert AggAdd(NEW_ACC, HOST) == Some(one) && AggAdd(one, IDLE) == Some(two);
    assert [HOST][1..] == [] && [HOST, IDLE][1..] == [IDLE] && [IDLE][1..] == [];
    assert Fold(one, []) == Some(one) && Fold(two, []) == Some(two);
    assert Fold(one, [IDLE]) == Some(two);
    assert Fold(NEW_ACC, [HOST]) == Some(one) && Fold(NEW_ACC, [HOST, IDLE]) == Some(two);
    assert FillIn(HOST, one) == HOST && FillIn(HOST, two) == HOST;
    assert HOST - {"processes", "network"} == HOST;
  }

  const K1: Key := Key(0, OneMinute, 0)
  const K5: Key := Key(0, FiveMinutes, 0)

  lemma WitnessKeys()
    ensures KeyOf(EARLY, OneMinute) == K1 == KeyOf(LATE, OneMinute)
    ensures KeyOf(EARLY, FiveMinutes) == K5 == KeyOf(LATE, FiveMinutes)
    ensures DueCutoff(1000.0, OneMinute) == 960.0 && DueCutoff(1000.0, FiveMinutes) == 900.0
    ensures DueCutoff(700000.0, OneMinute) == 699960.0
  {
    assert (1.0 / 60.0).Floor == 0 && (2.0 / 60.0).Floor == 0;
    assert (1.0 / 300.0).Floor == 0 && (2.0 / 300.0).Floor == 0;
    assert (1000.0 / 60.0).Floor == 16 && (1000.0 / 300.0).Floor == 3;
    assert (700000.0 / 60.0).Floor == 11666;
  }

  /** With nothing held back, the floor of the only candidate's agent goes to that candidate. */
  lemma LoneFloor(db: Db, m: Row, r: Resolution, due: real)
    requires RowKey(m.id, r) in db.coverage && Cutover(db) < m.id
    requires forall x | x in db.metrics :: x.ts < due
    requires FloorKey(m.agent, r) in db.progress ==> db.progress[FloorKey(m.agent, r)] <= m.id
    ensures RaiseFloors(db, {m}, r, due) == db.(progress := db.progress[FloorKey(m.agent, r) := m.id])
  {
    var f, own := FloorKey(m.agent, r), OwnCandidates({m}, m.agent);
    assert own == {m};
    assert Holding(db, {m}, m.agent, r, due) == {};
    assert NewFloor(db, {m}, m.agent, r, due) == m.id;
    assert AgentsOf({m}) == {m.agent};
    forall g: FloorKey | g != f
      ensures !(g.res == r && OwnCandidates({m}, g.agent) != {})
    {
      assert g.agent != m.agent ==> OwnCandidates({m}, g.agent) == {};
    }
    var raised := RaiseFloors(db, {m}, r, due).progress;
    assert raised == db.progress[f := m.id];
  }

  ghost function Tables(last: nat, rows: set<Row>, covered: map<RowKey, Coverage>, buckets: map<Key, Bucket>,
                        summaries: map<Key, Sample>, progress: map<FloorKey, nat>): Db {
    Db(last, Some(0), rows, covered, buckets, map[], summaries, progress)
  }

  /** One row alone in its bucket, in a call whose window it fills: what the call leaves. */
  lemma LoneCall(db: Db, r: Resolution, now: real, m: Row, avg: Sample)
    requires DistinctIds(db.metrics) && db.cutover == Some(0) && db.partials == map[] && m in db.metrics && m.id > 0
    requires forall x | x in db.metrics :: x.ts < DueCutoff(now, r)
    requires forall x | x in db.metrics && x != m :: RowKey(x.id, r) in db.coverage
    requires BucketRows(db, KeyOf(m, r)) == {m} && KeyOf(m, r) !in db.buckets && KeyOf(m, r) !in db.summaries
    requires !HasLegacy(db, KeyOf(m, r)) && RowKey(m.id, r) !in db.coverage
    requires FloorKey(m.agent, r) in db.progress ==> db.progress[FloorKey(m.agent, r)] < m.id
    requires AverageMetrics([m.data]) == Some(avg)
    ensures var k := KeyOf(m, r);
            Downsample(db, r, now, 1).db ==
            db.(coverage := db.coverage[RowKey(m.id, r) := Coverage(k.agent, k.start, Folded)],
                summaries := db.summaries[k := avg],
                buckets := db.buckets[k := Bucket(Open, m.id)],
                progress := db.progress[FloorKey(m.agent, r) := m.id])
  {
    var k, due := KeyOf(m, r), DueCutoff(now, r);
    KeyRes(m, r);
    hide KeyOf, DueCutoff, AverageMetrics, Downsample, RaiseFloors, HasLegacy, BucketRows, DistinctIds;
    OnlyCandidate(db, r, due, m);
    OneBucketCall(db, r, now, 1, m);
    var next := Alone(db, k, m, avg);
    assert RowKeys({m}, r) == {RowKey(m.id, r)};
    assert next.coverage == db.coverage[RowKey(m.id, r) := Coverage(k.agent, k.start, Folded)];
    assert next.partials == map[];
    LoneFloor(next, m, r, due);
  }

  lemma OnlyCandidate(db: Db, r: Resolution, due: real, m: Row)
    requires DistinctIds(db.metrics) && db.cutover == Some(0) && m in db.metrics && m.id > 0
    requires forall x | x in db.metrics :: x.ts < due
    requires forall x | x in db.metrics && x != m :: RowKey(x.id, r) in db.coverage
    requires RowKey(m.id, r) !in db.coverage
    requires FloorKey(m.agent, r) in db.progress ==> db.progress[FloorKey(m.agent, r)] < m.id
    ensures Candidates(db, r, due, 1) == [m] && Budget(1) == 1
  {
    assert CandidateRows(db, r, due) == {m};
    CandidatesTotal(db, r, due);
    LeastFirst(Older, {m}, m);
  }

  const COVERED: Coverage := Coverage(0, 0, Folded)

  ghost function Stored1(): Db { Tables(1, {EARLY}, map[], map[], map[], map[]) }

  ghost function Folded1(): Db {
    Tables(1, {EARLY}, map[RowKey(1, OneMinute) := COVERED], map[K1 := Bucket(Open, 1)], map[K1 := HOST],
           map[FloorKey(0, OneMinute) := 1])
  }

  ghost function Folded5(): Db {
    Tables(1, {EARLY}, map[RowKey(1, OneMinute) := COVERED, RowKey(1, FiveMinutes) := COVERED],
           map[K1 := Bucket(Open, 1), K5 := Bucket(Open, 1)], map[K1 := HOST, K5 := HOST],
           map[FloorKey(0, OneMinute) := 1, FloorKey(0, FiveMinutes) := 1])
  }

  ghost function Stored2(): Db {
    Folded5().(lastId := 2, metrics := {EARLY, LATE})
  }

  ghost function Swept2(): Db {
    Tables(2, {LATE}, map[], map[], map[], map[FloorKey(0, OneMinute) := 1, FloorKey(0, FiveMinutes) := 1])
  }

  ghost function Folded2(): Db {
    Tables(2, {LATE}, map[RowKey(2, OneMinute) := COVERED], map[K1 := Bucket(Open, 2)], map[K1 := IDLE],
           map[FloorKey(0, OneMinute) := 2, FloorKey(0, FiveMinutes) := 1])
  }

  lemma FirstFold()
    ensures Downsample(Stored1(), OneMinute, 1000.0, 1).db == Folded1()
  {
    WitnessKeys();
    HostAverages();
    hide AverageMetrics, Downsample, DueCutoff, KeyOf;
    LoneCall(Stored1(), OneMinute, 1000.0, EARLY, HOST);
  }

  lemma SecondFold()
    ensures Downsample(Folded1(), FiveMinutes, 1000.0, 1).db == Folded5()
  {
    WitnessKeys();
    HostAverages();
    hide AverageMetrics, Downsample, DueCutoff, KeyOf;
    LoneCall(Folded1(), FiveMinutes, 1000.0, EARLY, HOST);
  }

  lemma LateFold()
    ensures Downsample(Swept2(), OneMinute, 700000.0, 1).db == Folded2()
  {
    WitnessKeys();
    IdleAverages();
    hide AverageMetrics, Downsample, DueCutoff, KeyOf;
    LoneCall(Swept2(), OneMinute, 700000.0, LATE, IDLE);
  }

  lemma OnlyEarlyIsDoomed()
    ensures DistinctIds(Stored2().metrics) && Doomed(Stored2(), 700000.0, 1, 2) == {EARLY} && Budget(2) == 2
  {
    var db := Stored2();
    WitnessKeys();
    hide KeyOf;
    assert Covered(db, EARLY, OneMinute) && Covered(db, EARLY, FiveMinutes);
    assert Deletable(db, 696400.0) == {EARLY};
    DeletableTotal(db, 696400.0);
    var q := First(Older, {EARLY}, 2);
    assert Elements(q) <= {EARLY} && |Elements(q)| == 1;
    assert q[0] in Elements(q);
    assert Elements(q) == {EARLY};
    assert 700000.0 - (1 * 3600) as real == 696400.0;
  }

  ghost function Reclaimed2(): Db {
    Tables(2, {LATE}, map[], map[K1 := Bucket(Sealed, 1), K5 := Bucket(Sealed, 1)], map[K1 := HOST, K5 := HOST],
           map[FloorKey(0, OneMinute) := 1, FloorKey(0, FiveMinutes) := 1])
  }

  lemma EarlyReclaimed()
    ensures Reclaim(Stored2(), {EARLY}) == Reclaimed2()
  {
    var db := Stored2();
    assert Ids({EARLY}) == {1};
    assert RowKey(1, OneMinute) in db.coverage && Touches(db, {EARLY}, K1);
    assert RowKey(1, FiveMinutes) in db.coverage && Touches(db, {EARLY}, K5);
    assert db.metrics - {EARLY} == {LATE};
    assert Reclaim(db, {EARLY}).buckets == Reclaimed2().buckets;
    assert Reclaim(db, {EARLY}).coverage == map[];
  }

  lemma BothPruned()
    ensures StaleSummaries(Reclaimed2(), 700000.0 - WEEK) == {K1, K5}
    ensures StaleBuckets(PruneSummaries(Reclaimed2(), {K1, K5}), 700000.0 - WEEK) == {K1, K5}
    ensures PruneBuckets(PruneSummaries(Reclaimed2(), {K1, K5}), {K1, K5}) == Swept2()
    ensures |{K1, K5}| == 2
  {
    var db := PruneSummaries(Reclaimed2(), {K1, K5});
    assert db.summaries == map[];
    assert db.buckets - {K1, K5} == map[];
  }

  lemma CleanupSweeps()
    ensures DistinctIds(Stored2().metrics)
    ensures CleanupPicks(Stored2(), 700000.0, 1, 2, {K1, K5}, {K1, K5})
    ensures Cleanup(Stored2(), 700000.0, 1, 2, {K1, K5}, {K1, K5}) == Swept2()
  {
    hide Doomed, Reclaim, StaleSummaries, StaleBuckets, PruneSummaries, PruneBuckets, DistinctIds, Budget;
    OnlyEarlyIsDoomed();
    EarlyReclaimed();
    BothPruned();
  }

  /**
   Clamped timestamps and a clock that never goes back do not make every summary complete. A row
   arrives for a bucket already summarised, no downsample runs for a week, the cleanup drops the
   bucket's old row, its summary and its provenance, and the next downsample publishes a summary of
   the late row alone: not the average of the two rows stored in that bucket.
   */
  lemma LateRowAveragedAlone()
    ensures exists s | ReachedByClock(s) ::
              && K1 in s.db.buckets && K1 in s.db.summaries
              && var rows := EverStored(s, K1, s.db.buckets[K1].publishedGen);
                 DistinctIds(rows) && AverageMetrics(Datas(InTime(rows))) != Some(s.db.summaries[K1])
  {
    var h1, h2 := History({EARLY}, map[], {}), History({EARLY, LATE}, map[], {});
    var h3 := CleanupHistory(Stored2(), h2, 700000.0, {K1, K5});
    ClockedRun(h1, h2, h3);
    assert h3.stored == {EARLY, LATE};
    BothEverStored(State(Folded2(), h3));
  }

  lemma ClockedRun(h1: History, h2: History, h3: History)
    requires h1 == History({EARLY}, map[], {}) && h2 == History({EARLY, LATE}, map[], {})
    requires h3 == CleanupHistory(Stored2(), h2, 700000.0, {K1, K5})
    ensures ReachedByClock(State(Folded2(), h3))
  {
    hide *;
    FreshIsInstalled();
    ClockStarts(FRESH);
    EarlyArrives(h1);
    ClockStep(FRESH, StoreRuns.Stored(50.0, 0, 1.0, HOST), State(Stored1(), h1));
    FirstFold();
    DownsampleStep(State(Stored1(), h1), OneMinute, 1000.0, Folded1());
    ClockStep(State(Stored1(), h1), Downsampled(OneMinute, 1000.0, 1), State(Folded1(), h1));
    SecondFold();
    DownsampleStep(State(Folded1(), h1), FiveMinutes, 1000.0, Folded5());
    ClockStep(State(Folded1(), h1), Downsampled(FiveMinutes, 1000.0, 1), State(Folded5(), h1));
    LateArrives(h1, h2);
    ClockStep(State(Folded5(), h1), StoreRuns.Stored(1000.0, 0, 2.0, IDLE), State(Stored2(), h2));
    CleanupSweeps();
    CleanupStep(h2, h3);
    ClockStep(State(Stored2(), h2), CleanedUp(700000.0, 1, 2, {K1, K5}, {K1, K5}), State(Swept2(), h3));
    LateFold();
    DownsampleStep(State(Swept2(), h3), OneMinute, 700000.0, Folded2());
    ClockStep(State(Swept2(), h3), Downsampled(OneMinute, 700000.0, 1), State(Folded2(), h3));
  }

  lemma FreshIsInstalled()
    ensures Installed(FRESH)
    ensures DistinctIds(Stored1().metrics) && DistinctIds(Folded1().metrics) && DistinctIds(Swept2().metrics)
  {
  }

  lemma EarlyArrives(h1: History)
    requires h1 == History({EARLY}, map[], {})
    ensures Step(FRESH, StoreRuns.Stored(50.0, 0, 1.0, HOST), State(Stored1(), h1))
    ensures Clocked(FRESH, StoreRuns.Stored(50.0, 0, 1.0, HOST))
  {
    assert {} + {EARLY} == {EARLY};
  }

  lemma LateArrives(h1: History, h2: History)
    requires h1 == History({EARLY}, map[], {}) && h2 == History({EARLY, LATE}, map[], {})
    ensures Step(State(Folded5(), h1), StoreRuns.Stored(1000.0, 0, 2.0, IDLE), State(Stored2(), h2))
    ensures Clocked(State(Folded5(), h1), StoreRuns.Stored(1000.0, 0, 2.0, IDLE))
  {
    assert {EARLY} + {LATE} == {EARLY, LATE};
  }

  lemma DownsampleStep(s: State, r: Resolution, now: real, next: Db)
    requires DistinctIds(s.db.metrics)
    requires forall t | t in s.h.clocks :: t <= now
    requires Downsample(s.db, r, now, 1).db == next
    ensures Step(s, Downsampled(r, now, 1), State(next, s.h))
    ensures Clocked(s, Downsampled(r, now, 1))
  {
    hide Downsample;
  }

  lemma CleanupStep(h2: History, h3: History)
    requires h2 == History({EARLY, LATE}, map[], {})
    requires h3 == CleanupHistory(Stored2(), h2, 700000.0, {K1, K5})
    requires DistinctIds(Stored2().metrics) && CleanupPicks(Stored2(), 700000.0, 1, 2, {K1, K5}, {K1, K5})
    requires Cleanup(Stored2(), 700000.0, 1, 2, {K1, K5}, {K1, K5}) == Swept2()
    ensures Step(State(Stored2(), h2), CleanedUp(700000.0, 1, 2, {K1, K5}, {K1, K5}), State(Swept2(), h3))
    ensures Clocked(State(Stored2(), h2), CleanedUp(700000.0, 1, 2, {K1, K5}, {K1, K5}))
    ensures h3.clocks == {700000.0}
  {
    hide Cleanup, CleanupPicks, DistinctIds;
  }

  lemma BothEverStored(s: State)
    requires s.db == Folded2() && s.h.stored == {EARLY, LATE}
    ensures var rows := EverStored(s, K1, 2);
            DistinctIds(rows) && AverageMetrics(Datas(InTime(rows))) == Some(HOST)
    ensures HOST != IDLE
  {
    WitnessKeys();
    HostAverages();
    hide AverageMetrics, KeyOf;
    var rows := EverStored(s, K1, 2);
    assert rows == {EARLY, LATE};
    TimeTotal(rows);
    var q := [EARLY, LATE];
    assert Elements(q) == rows;
    IncreasingUnique(Earlier, InTime(rows), q);
    assert Datas(q) == [HOST, IDLE];
    assert "host" in HOST && "host" !in IDLE;
  }
}
