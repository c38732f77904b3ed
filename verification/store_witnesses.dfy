/** Concrete runs in which two things the store promises do not happen. */
module StoreWitnesses {
  import opened Wrappers
  import opened Ordering
  import opened Averaging
  import opened Samples
  import opened StoreModel
  import opened StoreInvariant
  import opened StoreSteps
  import opened StoreTransactions
  import opened StoreCleanup
  import opened StoreRuns
  import opened CatchUp
  import opened ScanFloor

  // ── building runs ───────────────────────────────────

  lemma ReachInstalled(s: State)
    requires Installed(s)
    ensures Reachable(s)
  {
    assert IsRun([s], []);
  }

  lemma ReachStep(s: State, e: Event, next: State)
    requires Reachable(s) && Step(s, e, next)
    ensures Reachable(next)
  {
    var states, events :| IsRun(states, events) && states[|events|] == s;
    hide Step, Installed;
    assert IsRun(states + [next], events + [e]);
    assert (states + [next])[|events + [e]|] == next;
  }

  // ── a bucket of one row ─────────────────────────────

  ghost function Alone(db: Db, k: Key, m: Row, avg: Sample): Db {
    db.(coverage := Cover(db.coverage, {m}, k, Folded), partials := db.partials - {k},
        summaries := db.summaries[k := avg],
        buckets := db.buckets[k := Bucket(Open, Max(PublishedGen(db, k), m.id))])
  }

  lemma LoneGeneration(db: Db, k: Key, m: Row)
    requires BucketRows(db, k) == {m} && DistinctIds(db.metrics)
    ensures var p := NewGeneration(db, k);
            && p.through == m.id && p.acc == NEW_ACC
            && Remaining(db, k, p) == {m}
            && forall moved: Partial | moved.lastTs == m.ts && moved.lastId == m.id :: Remaining(db, k, moved) == {}
  {
    var p := NewGeneration(db, k);
    assert m in BucketRows(db, k);
    KeyAligned(m, k.res);
  }

  /** Advancing a bucket whose only row is undecided publishes the average of that row. */
  lemma LoneRow(db: Db, k: Key, m: Row, budget: nat)
    requires BucketRows(db, k) == {m} && DistinctIds(db.metrics) && budget > 0
    requires k !in db.partials && Provable(db, k) && RowKey(m.id, k.res) !in db.coverage
    requires AverageMetrics([m.data]).Some?
    ensures AdvanceBucket(db, k, budget) == Advanced(Alone(db, k, m, AverageMetrics([m.data]).value), 1, true)
  {
    var p := NewGeneration(db, k);
    LoneGeneration(db, k, m);
    assert Outstanding(db, k) by {
      assert m in BucketRows(db, k);
    }
    RemainingTotal(db, k, p);
    var batch := First(Earlier, Remaining(db, k, p), budget);
    LoneBatch(batch, m);
    hide Provable, Outstanding, BucketRows, NewGeneration, Cover, First, Remaining, AggAdd, AggFinalize;
    assert Datas(batch) == [m.data];
    var acc := Fold(NEW_ACC, [m.data]).value;
    FoldBatchPublishes(db, k, p, budget, acc);
    AdvanceCases(db, k, budget);
  }

  lemma LoneBatch(batch: seq<Row>, m: Row)
    requires Elements(batch) <= {m} && |batch| == 1
    ensures batch == [m] && Elements(batch) == {m}
  {
    assert batch[0] in Elements(batch);
  }

  lemma OneKeyBacklog(m: Row, r: Resolution)
    ensures Backlog([m], r, []) == [KeyOf(m, r)]
  {
    hide KeyOf;
    var q := [m];
    assert q[..0] == [];
    assert BucketsOf(q, r) == [KeyOf(m, r)];
    var keys := BucketsOf(q, r);
    assert keys[1..] == [];
    assert Elements<Key>([]) == {};
    assert Without([], Elements<Key>([])) == [];
    assert Without(keys, Elements<Key>([])) == [KeyOf(m, r)] + [];
  }

  /** A call whose only candidate is alone in its bucket. */
  lemma OneBucketCall(db: Db, r: Resolution, now: real, batchLimit: int, m: Row)
    requires DistinctIds(db.metrics) && db.cutover.Some? && (forall k | k in db.partials :: k.res != r)
    requires Candidates(db, r, DueCutoff(now, r), Budget(batchLimit)) == [m]
    requires BucketRows(db, KeyOf(m, r)) == {m} && Provable(db, KeyOf(m, r))
    requires KeyOf(m, r) !in db.partials && RowKey(m.id, r) !in db.coverage
    requires AverageMetrics([m.data]).Some?
    ensures Downsample(db, r, now, batchLimit).db ==
            RaiseFloors(Alone(db, KeyOf(m, r), m, AverageMetrics([m.data]).value), {m}, r, DueCutoff(now, r))
  {
    hide *;
    var budget, due, k := Budget(batchLimit), DueCutoff(now, r), KeyOf(m, r);
    BudgetPositive(batchLimit);
    DownsampleCases(db, r, now, batchLimit);
    NothingToResume(db, r, budget);
    PassIs(db, r, due, budget, [], 0);
    AdvanceAllCases(db, [], budget);
    PassIs(db, r, due, budget, [], budget);
    OneKeyBacklog(m, r);
    KeyRes(m, r);
    LoneRow(db, k, m, budget);
    AdvanceAllCases(db, [k], budget);
    var next := Alone(db, k, m, AverageMetrics([m.data]).value);
    AdvanceAllCases(next, [k][1..], budget - 1);
    LoneElements(m);
  }

  lemma LoneElements(m: Row)
    ensures Elements([m]) == {m}
  {
  }

  // ── the floor runs past a due row ───────────────────

  const IDLE: Sample := map[]

  /** A fresh database: tracking installed over nothing. */
  const FRESH: State := State(Db(0, Some(0), {}, map[], map[], map[], map[], map[]), History({}, map[], {}))

  /** An empty snapshot averages to an empty summary. */
  lemma IdleAverages()
    ensures AverageMetrics([IDLE]) == Some(IDLE)
  {
    var t := NO_TOTALS;
    assert Zeros(0) == [] && seq<GpuTotal>(0, _ => GpuTotal(0, Zeros(|GPU_FIELDS|))) == [];
    assert Get(Look(IDLE, "cpu", EMPTY), "percent_per_core", NO_ITEMS) == Some(NO_ITEMS);
    assert Reserve(IDLE) == Some(t);
    assert AddTotals(t, IDLE) == Done(t);
    var acc := Acc(1, Some(IDLE), t, [], false, false);
    assert AggAdd(NEW_ACC, IDLE) == Some(acc);
    assert [IDLE][1..] == [];
    assert Fold(acc, []) == Some(acc);
    assert Fold(NEW_ACC, [IDLE]) == Some(acc);
    assert FillIn(IDLE, acc) == IDLE;
    assert IDLE - {"processes", "network"} == IDLE;
  }

  /** One agent, two closed one-minute buckets of one row each, and one row in the current one. */
  const FIRST: Row := Row(1, 0, 1.0, IDLE)
  const SECOND: Row := Row(2, 0, 60.0, IDLE)
  const CURRENT: Row := Row(3, 0, 120.0, IDLE)

  ghost function ThreeStored(): State {
    State(Db(3, Some(0), {FIRST, SECOND, CURRENT}, map[], map[], map[], map[], map[]),
          History({FIRST, SECOND, CURRENT}, map[], {}))
  }

  lemma ThreeStoredReachable()
    ensures Reachable(ThreeStored())
  {
    ReachInstalled(FRESH);
    var s1 := State(Db(1, Some(0), {FIRST}, map[], map[], map[], map[], map[]), History({FIRST}, map[], {}));
    var s2 := State(Db(2, Some(0), {FIRST, SECOND}, map[], map[], map[], map[], map[]),
                    History({FIRST, SECOND}, map[], {}));
    assert {} + {FIRST} == {FIRST} && {FIRST} + {SECOND} == {FIRST, SECOND};
    assert {FIRST, SECOND} + {CURRENT} == {FIRST, SECOND, CURRENT};
    ReachStep(FRESH, Stored(130.0, 0, 1.0, IDLE), s1);
    ReachStep(s1, Stored(130.0, 0, 60.0, IDLE), s2);
    ReachStep(s2, Stored(130.0, 0, 120.0, IDLE), ThreeStored());
  }

  lemma ThreeKeys()
    ensures KeyOf(FIRST, OneMinute) == Key(0, OneMinute, 0)
    ensures KeyOf(SECOND, OneMinute) == Key(0, OneMinute, 60)
    ensures KeyOf(CURRENT, OneMinute) == Key(0, OneMinute, 120)
    ensures DueCutoff(130.0, OneMinute) == 120.0
  {
    assert (130.0 / 60.0).Floor == 2;
    assert (1.0 / 60.0).Floor == 0 && (60.0 / 60.0).Floor == 1 && (120.0 / 60.0).Floor == 2;
  }

  lemma ThreeCandidates()
    ensures Candidates(ThreeStored().db, OneMinute, 120.0, 1) == [FIRST]
  {
    var db := ThreeStored().db;
    assert CandidateRows(db, OneMinute, 120.0) == {FIRST, SECOND};
    CandidatesTotal(db, OneMinute, 120.0);
    LeastFirst(Older, {FIRST, SECOND}, FIRST);
  }

  /** Whatever the limit, the least element comes first. */
  lemma LeastLeads<T(!new)>(less: Less<T>, s: set<T>, a: T, n: nat)
    requires StrictTotal(less, s) && a in s && n > 0 && forall b | b in s :: b == a || less(a, b)
    ensures First(less, s, n) != [] && First(less, s, n)[0] == a
  {
    var q := First(less, s, n);
    hide First;
    assert |s| > 0 by {
      assert s == {a} + (s - {a});
    }
    assert q[0] in Elements(q);
    assert a !in Elements(q) ==> a in s - Elements(q);
    var i :| 0 <= i < |q| && q[i] == a;
  }

  /** LIMIT 1 takes the least element. */
  lemma LeastFirst<T(!new)>(less: Less<T>, s: set<T>, a: T)
    requires StrictTotal(less, s) && a in s && forall b | b in s :: b == a || less(a, b)
    ensures First(less, s, 1) == [a]
  {
    hide First;
    LeastLeads(less, s, a, 1);
    assert s == {a} + (s - {a});
  }

  /**
   With a batch limit of one, one call publishes the first bucket and leaves the floor at 2,
   right below the row that is not due: the second row is due, undecided, and behind the floor.
   */
  lemma FloorRunsPastARow()
    ensures Reachable(ThreeStored())
    ensures FloorSound(ThreeStored().db, OneMinute)
    ensures var next := Downsample(ThreeStored().db, OneMinute, 130.0, 1).db;
            && Reachable(State(next, ThreeStored().h))
            && SECOND in next.metrics && SECOND.ts < DueCutoff(130.0, OneMinute)
            && RowKey(SECOND.id, OneMinute) !in next.coverage
            && SECOND.id <= Floor(next, SECOND.agent, OneMinute)
            && !FloorSound(next, OneMinute)
  {
    hide *;
    var s := ThreeStored();
    ThreeStoredReachable();
    ThreeAtStart();
    var next := Downsample(s.db, OneMinute, 130.0, 1).db;
    ReachStep(s, Downsampled(OneMinute, 130.0, 1), State(next, s.h)) by { StepIs(s); }
    ThreeKeys();
    ThreeCandidates();
    IdleAverages();
    OneBucketCall(s.db, OneMinute, 130.0, 1, FIRST);
    ThreeAfter();
    AloneKeepsRows(s.db, Key(0, OneMinute, 0), FIRST, IDLE, SECOND);
    FloorRunsPast(Alone(s.db, Key(0, OneMinute, 0), FIRST, IDLE), {FIRST}, OneMinute, 120.0, SECOND, CURRENT);
    AfterRaise(Alone(s.db, Key(0, OneMinute, 0), FIRST, IDLE), {FIRST}, OneMinute, 120.0);
  }

  lemma ThreeAtStart()
    ensures var db := ThreeStored().db;
            && DistinctIds(db.metrics) && db.cutover.Some? && (forall k | k in db.partials :: k.res != OneMinute)
            && BucketRows(db, Key(0, OneMinute, 0)) == {FIRST} && Provable(db, Key(0, OneMinute, 0))
            && Key(0, OneMinute, 0) !in db.partials && RowKey(FIRST.id, OneMinute) !in db.coverage
            && FloorSound(db, OneMinute) && Budget(1) == 1 && FIRST.data == IDLE && SECOND.agent == 0
            && SECOND in db.metrics && SECOND.ts == 60.0 && SECOND.id == 2 && FIRST.id == 1
            && RowKey(SECOND.id, OneMinute) !in db.coverage
  {
    ThreeKeys();
  }

  lemma AloneKeepsRows(db: Db, k: Key, m: Row, avg: Sample, x: Row)
    ensures Alone(db, k, m, avg).metrics == db.metrics
    ensures x.id != m.id && RowKey(x.id, k.res) !in db.coverage ==>
              RowKey(x.id, k.res) !in Alone(db, k, m, avg).coverage
  {
  }

  lemma StepIs(s: State)
    requires DistinctIds(s.db.metrics)
    ensures Step(s, Downsampled(OneMinute, 130.0, 1), State(Downsample(s.db, OneMinute, 130.0, 1).db, s.h))
  {
    hide Downsample, DistinctIds;
  }

  lemma ThreeAfter()
    ensures RunsPast(Alone(ThreeStored().db, Key(0, OneMinute, 0), FIRST, IDLE), {FIRST}, OneMinute, 120.0,
                     SECOND, CURRENT)
  {
    var db, k := ThreeStored().db, Key(0, OneMinute, 0);
    CoverAt(db.metrics, db.coverage, {FIRST}, k, Folded, SECOND, OneMinute);
    CoverAt(db.metrics, db.coverage, {FIRST}, k, Folded, FIRST, OneMinute);
    assert FIRST in OwnCandidates({FIRST}, 0);
    hide Cover;
  }

  lemma AfterRaise(db: Db, window: set<Row>, r: Resolution, due: real)
    ensures var next := RaiseFloors(db, window, r, due);
            next.metrics == db.metrics && next.coverage == db.coverage
  {
  }

  // ── one bad snapshot stops every agent ──────────────

  /** A snapshot that no fold can start with. */
  ghost predicate Bad(data: Sample) { AggAdd(NEW_ACC, data).None? }

  /** A text for a container's CPU share is one, and an integer no float holds for the host's is another. */
  lemma BothAreBad()
    ensures Bad(POISON) && Bad(OVERSIZED)
  {
    PoisonRaises(NEW_ACC);
    OversizedRaises(NEW_ACC);
  }

  function BadRow(data: Sample): Row { Row(1, 0, 1.0, data) }

  const GOOD: Row := Row(2, 1, 1.0, IDLE)

  ghost function Poisoned(data: Sample): State {
    State(Db(2, Some(0), {BadRow(data), GOOD}, map[], map[], map[], map[], map[]), History({BadRow(data), GOOD}, map[], {}))
  }

  lemma PoisonedReachable(data: Sample)
    ensures Reachable(Poisoned(data))
  {
    ReachInstalled(FRESH);
    var s1 := State(Db(1, Some(0), {BadRow(data)}, map[], map[], map[], map[], map[]), History({BadRow(data)}, map[], {}));
    assert {} + {BadRow(data)} == {BadRow(data)} && {BadRow(data)} + {GOOD} == {BadRow(data), GOOD};
    hide Reachable;
    ReachStep(FRESH, Stored(10.0, 0, 1.0, data), s1);
    ReachStep(s1, Stored(10.0, 1, 1.0, IDLE), Poisoned(data));
  }

  lemma BadIsFirst(data: Sample, due: real, limit: nat)
    requires 60.0 <= due && limit > 0
    ensures DistinctIds(Poisoned(data).db.metrics)
    ensures var q := Candidates(Poisoned(data).db, OneMinute, due, limit); q != [] && q[0] == BadRow(data)
  {
    var db := Poisoned(data).db;
    assert CandidateRows(db, OneMinute, due) == {BadRow(data), GOOD};
    CandidatesTotal(db, OneMinute, due);
    hide CandidateRows, First;
    LeastLeads(Older, {BadRow(data), GOOD}, BadRow(data), limit);
  }

  lemma {:induction false} FirstBucket(candidates: seq<Row>, r: Resolution)
    requires candidates != []
    ensures var keys := BucketsOf(candidates, r); keys != [] && keys[0] == KeyOf(candidates[0], r)
    decreases |candidates|
  {
    hide KeyOf;
    var n := |candidates| - 1;
    if n > 0 {
      FirstBucket(candidates[..n], r);
    } else {
      assert candidates[..n] == [];
    }
  }

  lemma BadBucketRaises(data: Sample, budget: nat)
    requires budget > 0 && Bad(data)
    ensures var db := Poisoned(data).db;
            DistinctIds(db.metrics) && AdvanceBucket(db, KeyOf(BadRow(data), OneMinute), budget) == Raised
  {
    var db, k := Poisoned(data).db, KeyOf(BadRow(data), OneMinute);
    assert (1.0 / 60.0).Floor == 0;
    assert k == Key(0, OneMinute, 0) && KeyOf(GOOD, OneMinute) == Key(1, OneMinute, 0);
    hide KeyOf;
    assert BucketRows(db, k) == {BadRow(data)};
    assert BadRow(data) in BucketRows(db, k) && Outstanding(db, k);
    LoneGeneration(db, k, BadRow(data));
    var p := NewGeneration(db, k);
    RemainingTotal(db, k, p);
    var batch := First(Earlier, Remaining(db, k, p), budget);
    LoneBatch(batch, BadRow(data));
    hide Provable, Outstanding, BucketRows, NewGeneration, Cover, First, Remaining, AggAdd;
    assert Datas(batch) == [data];
    FoldBatchRaises(db, k, p, budget);
    AdvanceCases(db, k, budget);
  }

  /**
   A bad snapshot aborts the call that reaches it, whatever the batch limit and the clock: nothing is
   ever written again, for this agent or for any other.
   */
  lemma OneBadRowStopsEveryAgent(data: Sample, now: real, batchLimit: int)
    requires Bad(data) && 60.0 <= DueCutoff(now, OneMinute)
    ensures Reachable(Poisoned(data)) && DistinctIds(Poisoned(data).db.metrics)
    ensures Downsample(Poisoned(data).db, OneMinute, now, batchLimit) == Maintenance(Poisoned(data).db, 0, 0, true)
  {
    hide *;
    PoisonedReachable(data);
    PoisonedTables(data);
    var db, due, budget := Poisoned(data).db, DueCutoff(now, OneMinute), Budget(batchLimit);
    BudgetPositive(batchLimit);
    BadIsFirst(data, due, budget);
    DownsampleCases(db, OneMinute, now, batchLimit);
    NothingToResume(db, OneMinute, budget);
    PassIs(db, OneMinute, due, budget, [], 0);
    AdvanceAllCases(db, [], budget);
    PassIs(db, OneMinute, due, budget, [], budget);
    var q := Candidates(db, OneMinute, due, budget);
    BacklogAll(q, OneMinute);
    FirstBucket(q, OneMinute);
    BadBucketRaises(data, budget);
    AdvanceAllCases(db, BucketsOf(q, OneMinute), budget);
  }

  lemma PoisonedTables(data: Sample)
    ensures var db := Poisoned(data).db; db.cutover.Some? && forall k | k in db.partials :: k.res != OneMinute
  {
  }

  lemma BacklogAll(candidates: seq<Row>, r: Resolution)
    ensures Backlog(candidates, r, []) == BucketsOf(candidates, r)
  {
    assert Elements<Key>([]) == {};
    WithoutNothing(BucketsOf(candidates, r));
  }

  /** And it stays that way for as long as nothing removes the row. */
  lemma {:induction false} BadRowStopsForGood(data: Sample, now: real, batchLimit: int, n: nat)
    requires Bad(data) && 60.0 <= DueCutoff(now, OneMinute)
    ensures DistinctIds(Poisoned(data).db.metrics)
    ensures Again(Poisoned(data).db, OneMinute, now, batchLimit, n) == Poisoned(data).db
    ensures forall x | x in Poisoned(data).db.metrics :: RowKey(x.id, OneMinute) !in Poisoned(data).db.coverage
    decreases n
  {
    hide Downsample, DueCutoff, Reachable, Bad;
    OneBadRowStopsEveryAgent(data, now, batchLimit);
    if n > 0 {
      BadRowStopsForGood(data, now, batchLimit, n - 1);
    }
  }
}
