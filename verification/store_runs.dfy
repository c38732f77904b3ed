/** Whole runs of the metric store: what holds in every state any interleaving can reach. */
module StoreRuns {
  import opened Wrappers
  import opened Ordering
  import opened Samples
  import opened Batches
  import opened StoreModel
  import opened StoreInvariant
  import opened StoreSteps
  import opened StoreTransactions
  import opened StoreCleanup

  datatype State = State(db: Db, h: History)

  datatype Event =
    | Stored(arrived: real, agent: Agent, ts: real, data: Sample)
    | Downsampled(r: Resolution, now: real, batchLimit: int)
    | CleanedUp(now: real, maxAgeHours: int, batchLimit: int, summariesCut: set<Key>, bucketsCut: set<Key>)
    | RolledBack

  /**
   Coverage tracking has just been installed: raw rows and summaries of an older build may be
   there, at or below the cutover, and nothing else is. A database without the marker has no
   cutover at all.
   */
  ghost predicate Installed(s: State) {
    && DistinctIds(s.db.metrics)
    && (forall m | m in s.db.metrics :: 1 <= m.id <= s.db.lastId)
    && (s.db.cutover.Some? ==> s.db.cutover.value == s.db.lastId)
    && s.db.coverage == map[] && s.db.buckets == map[] && s.db.partials == map[] && s.db.progress == map[]
    && s.h == History(s.db.metrics, map[], {})
  }

  ghost predicate Step(s: State, e: Event, next: State) {
    DistinctIds(s.db.metrics) &&
    match e
    case Stored(_, agent, ts, data) =>
      next == State(StoreMetric(s.db, agent, ts, data),
                    s.h.(stored := s.h.stored + {Incoming(s.db, agent, ts, data)}))
    case Downsampled(r, now, batchLimit) =>
      next == State(Downsample(s.db, r, now, batchLimit).db, s.h)
    case CleanedUp(now, maxAgeHours, batchLimit, ps, pb) =>
      && CleanupPicks(s.db, now, maxAgeHours, batchLimit, ps, pb)
      && next == State(Cleanup(s.db, now, maxAgeHours, batchLimit, ps, pb), CleanupHistory(s.db, s.h, now, pb))
    case RolledBack => next == s
  }

  ghost predicate IsRun(states: seq<State>, events: seq<Event>) {
    && |states| == |events| + 1
    && Installed(states[0])
    && forall i | 0 <= i < |events| :: Step(states[i], events[i], states[i + 1])
  }

  ghost predicate Reachable(s: State) {
    exists states, events :: IsRun(states, events) && states[|events|] == s
  }

  lemma InstalledInv(s: State)
    requires Installed(s)
    ensures Inv(s.db, s.h)
  {
    hide KeyOf;
    forall m, r | m in s.h.stored
      ensures RowInv(s.db, s.h, m, r)
    {
    }
  }

  lemma StepKeeps(s: State, e: Event, next: State)
    requires Inv(s.db, s.h) && Step(s, e, next)
    ensures Inv(next.db, next.h)
  {
    hide Inv, StoreMetric, Downsample, Cleanup, CleanupHistory, CleanupPicks;
    match e
    case Stored(_, agent, ts, data) => StoreKeeps(s.db, s.h, agent, ts, data);
    case Downsampled(r, now, batchLimit) => DownsampleKeeps(s.db, s.h, r, now, batchLimit);
    case CleanedUp(now, maxAgeHours, batchLimit, ps, pb) =>
      CleanupKeeps(s.db, s.h, now, maxAgeHours, batchLimit, ps, pb);
    case RolledBack =>
  }

  /** The invariant holds in every state of every run. */
  lemma {:induction false} RunKeeps(states: seq<State>, events: seq<Event>)
    requires IsRun(states, events)
    ensures forall i | 0 <= i < |states| :: Inv(states[i].db, states[i].h)
    decreases |events|
  {
    hide Inv, Installed, Step;
    if events == [] {
      InstalledInv(states[0]);
    } else {
      var n := |events| - 1;
      RunKeeps(states[..n + 1], events[..n]);
      assert states[..n + 1][n] == states[n];
      StepKeeps(states[n], events[n], states[n + 1]);
      forall i | 0 <= i < |states|
        ensures Inv(states[i].db, states[i].h)
      {
        assert i <= n ==> states[..n + 1][i] == states[i];
      }
    }
  }

  lemma ReachableInv(s: State)
    requires Reachable(s)
    ensures Inv(s.db, s.h)
  {
    var states, events :| IsRun(states, events) && states[|events|] == s;
    hide Inv, Step, Installed;
    RunKeeps(states, events);
  }

  // ── what every reachable state promises ─────────────

  /**
   `avg` is the average of these rows in (timestamp, id) order, each folded once, in some batches:
   and that is the one-shot `_average_metrics` as long as every container in the record before the
   last of them is under a text.
   */
  ghost predicate IsAverage(rows: set<Row>, avg: Sample) {
    && DistinctIds(rows)
    && BatchAverage(Datas(InTime(rows)), avg)
    && (SavesText(Datas(InTime(rows))) ==> AverageMetrics(Datas(InTime(rows))) == Some(avg))
  }

  lemma IsAverageOf(rows: set<Row>, avg: Sample)
    requires DistinctIds(rows) && BatchAverage(Datas(InTime(rows)), avg)
    ensures IsAverage(rows, avg)
  {
    hide BatchAverage, SavesText, AverageMetrics, InTime, Datas;
    if SavesText(Datas(InTime(rows))) {
      TextIsOneShot(Datas(InTime(rows)), avg);
    }
  }

  /** The summary of this bucket is live, and is the average of a generation holding `m`. */
  ghost predicate AveragedIn(s: State, m: Row, k: Key) {
    && k in s.db.buckets && k in s.db.summaries
    && var rows := Generation(s.db, s.h, k, s.db.buckets[k].publishedGen);
       m in rows && IsAverage(rows, s.db.summaries[k])
  }

  /**
   No sample is lost: at each resolution separately, a row stored above the cutover is still
   raw, or is averaged into the live summary of its own bucket, or some cleanup has already run
   with its clock more than seven days past that bucket.
   */
  lemma NoSampleLost(s: State, m: Row, r: Resolution)
    requires Reachable(s) && m in s.h.stored && Cutover(s.db) < m.id
    ensures m in s.db.metrics || AveragedIn(s, m, KeyOf(m, r)) || Swept(s.h, KeyOf(m, r))
  {
    hide Inv, Reachable, KeyOf, InTime, Datas, Swept, HasStored, CoverInv, LegacyInv, IsAverage, BatchAverage;
    ReachableInv(s);
    KeyRes(m, r);
    RowFact(s.db, s.h, m, r);
    KeyFacts(s.db, s.h, KeyOf(m, r));
    var k := KeyOf(m, r);
    if k in s.db.buckets && k in s.db.summaries {
      PublishedIsOneShot(s, k);
    }
  }

  /**
   Batched folding refines the one-shot average: whatever the batch limits and interleavings, a
   published summary averages every row stored in its bucket above the base of the bucket's present
   life and up to its published generation, in (timestamp, id) order, none missed and none twice.
   */
  lemma PublishedIsOneShot(s: State, k: Key)
    requires Reachable(s) && k in s.db.buckets && k in s.db.summaries
    ensures var rows := Generation(s.db, s.h, k, s.db.buckets[k].publishedGen);
            IsAverage(rows, s.db.summaries[k])
  {
    hide Inv, Reachable, KeyOf, BatchAverage, InTime, Datas, Swept, HasStored, IsAverage;
    ReachableInv(s);
    KeyFacts(s.db, s.h, k);
    IsAverageOf(Generation(s.db, s.h, k, s.db.buckets[k].publishedGen), s.db.summaries[k]);
  }

  /** Every row ever stored that the tracker could have put into this summary. */
  ghost function EverStored(s: State, k: Key, through: nat): set<Row> {
    set m | m in s.h.stored && KeyOf(m, k.res) == k && Cutover(s.db) < m.id <= through
  }

  /** The summary leaves none of them out exactly when the bucket's row has never been pruned. */
  lemma CompleteUnlessRetired(s: State, k: Key)
    requires Reachable(s) && k in s.db.buckets
    ensures var gen := s.db.buckets[k].publishedGen;
            Generation(s.db, s.h, k, gen) == EverStored(s, k, gen) <==> k !in s.h.retired
  {
    hide Inv, Reachable, KeyOf, BatchAverage, InTime, Datas, Swept;
    ReachableInv(s);
    KeyFacts(s.db, s.h, k);
    var gen := s.db.buckets[k].publishedGen;
    if k in s.h.retired {
      var m :| m in s.h.stored && KeyOf(m, k.res) == k && m.id == s.h.retired[k];
      assert m in EverStored(s, k, gen) && m !in Generation(s.db, s.h, k, gen);
    }
  }

  /** A bucket that lost one of the rows of its present life is sealed until its row is pruned. */
  lemma LostRowSeals(s: State, m: Row, r: Resolution)
    requires Reachable(s) && m in s.h.stored && m !in s.db.metrics
    requires Base(s.db, s.h, KeyOf(m, r)) < m.id
    ensures KeyOf(m, r) in s.db.buckets && s.db.buckets[KeyOf(m, r)].state == Sealed
    ensures KeyOf(m, r) !in s.db.partials
  {
    hide Inv, Reachable, KeyOf, CoverInv, LegacyInv;
    ReachableInv(s);
    RowFact(s.db, s.h, m, r);
  }

  /** Sealed is absorbing: no step re-opens the bucket or rewrites its summary; it can only prune them. */
  lemma SealedAbsorbs(s: State, e: Event, next: State, k: Key)
    requires Reachable(s) && Step(s, e, next)
    requires k in s.db.buckets && s.db.buckets[k].state == Sealed
    ensures k in next.db.buckets ==> next.db.buckets[k] == s.db.buckets[k]
    ensures k in next.db.summaries ==> k in s.db.summaries && next.db.summaries[k] == s.db.summaries[k]
    ensures k !in next.db.buckets ==> k !in next.db.summaries && k in next.h.retired && Swept(next.h, k)
  {
    hide Inv, Downsample, Reachable, CleanupPicks, Cleanup, OnlyCovers;
    ReachableInv(s);
    StepKeeps(s, e, next);
    match e
    case Stored(_, agent, ts, data) =>
    case Downsampled(r, now, batchLimit) =>
      DownsampleKeeps(s.db, s.h, r, now, batchLimit);
    case CleanedUp(now, maxAgeHours, batchLimit, ps, pb) =>
      CleanupSeals(s, e, next, k);
    case RolledBack =>
  }

  lemma CleanupSeals(s: State, e: Event, next: State, k: Key)
    requires Step(s, e, next) && e.CleanedUp? && Inv(next.db, next.h)
    requires k in s.db.buckets && s.db.buckets[k].state == Sealed
    ensures k in next.db.buckets ==> next.db.buckets[k] == s.db.buckets[k]
    ensures k in next.db.summaries ==> k in s.db.summaries && next.db.summaries[k] == s.db.summaries[k]
    ensures k !in next.db.buckets ==> k !in next.db.summaries && k in next.h.retired && Swept(next.h, k)
  {
    hide Inv, Reclaim, Doomed, CleanupPicks, AnyCoverage, HasStored, Touches;
    var limit := Budget(e.batchLimit);
    var doomed := Doomed(s.db, e.now, e.maxAgeHours, limit);
    ReclaimedAt(s.db, doomed, k);
    CleanupPicksAre(s.db, e.now, e.maxAgeHours, e.batchLimit, e.summariesCut, e.bucketsCut);
    if k in e.bucketsCut {
      StaleBucketIs(PruneSummaries(Reclaim(s.db, doomed), e.summariesCut), e.bucketsCut, e.now - WEEK, k);
      assert k in next.h.retired;
      KeyFacts(next.db, next.h, k);
    }
  }

  /**
   Nothing is stranded: a folded row at or below its bucket's published generation keeps the
   summary and the bucket row its deletion proof needs.
   */
  lemma ProofSurvives(s: State, m: Row, r: Resolution)
    requires Reachable(s) && m in s.db.metrics && Cutover(s.db) < m.id
    requires KeyOf(m, r) in s.db.buckets && m.id <= s.db.buckets[KeyOf(m, r)].publishedGen
    requires KeyOf(m, r) !in s.db.partials
    ensures Covered(s.db, m, r)
  {
    hide Inv, Reachable, KeyOf, GoneInv, LegacyInv;
    ReachableInv(s);
    RowsDistinct(s.db, s.h);
    RowFact(s.db, s.h, m, r);
    KeyRes(m, r);
  }

  /** Conversely, a row the cleanup may delete really is in both its live, finished summaries. */
  lemma DeletableIsAveraged(s: State, m: Row, rawCutoff: real, r: Resolution)
    requires Reachable(s) && m in Deletable(s.db, rawCutoff)
    ensures AveragedIn(s, m, KeyOf(m, r)) && KeyOf(m, r) !in s.db.partials
  {
    hide Inv, Reachable, KeyOf, IsAverage, InTime, Datas, Deletable, Covered, RowInv, Base;
    ReachableInv(s);
    DeletableIsCovered(s.db, rawCutoff, m, r);
    RowsDistinct(s.db, s.h);
    RowFact(s.db, s.h, m, r);
    CoveredAt(s.db, s.h, m, r);
    LiveAboveBase(s.db, s.h, m, r);
    KeyRes(m, r);
    PublishedIsOneShot(s, KeyOf(m, r));
  }

  lemma LiveAboveBase(db: Db, h: History, m: Row, r: Resolution)
    requires RowInv(db, h, m, r) && m in db.metrics && Cutover(db) < m.id
    ensures Base(db, h, KeyOf(m, r)) < m.id
  {
    hide KeyOf;
  }

  /** Coverage lives exactly as long as the raw row it covers. */
  lemma CoverageNeverOutlives(s: State, q: RowKey)
    requires Reachable(s) && q in s.db.coverage
    ensures exists m :: m in s.db.metrics && m.id == q.id
  {
    ReachableInv(s);
    assert q.id in Ids(s.db.metrics);
  }
}
