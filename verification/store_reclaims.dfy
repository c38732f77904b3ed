/**
 What a cleanup takes and what it leaves (`cleanup_old_metrics`), said of the tables before and after:
 which raw rows go, which buckets are sealed for it, and which summaries and bucket rows age out.
 */
module StoreReclaims {
  import opened Wrappers
  import opened Ordering
  import opened Samples
  import opened StoreModel
  import opened StoreInvariant
  import opened StoreSteps
  import opened StoreTransactions
  import opened StoreCleanup
  import opened StoreRuns

  /** This resolution really shows the row: folded, published, summarised, and not being recomputed. */
  ghost predicate Shown(db: Db, m: Row, r: Resolution) {
    var k, q := KeyOf(m, r), RowKey(m.id, r);
    && q in db.coverage && db.coverage[q].state == Folded
    && k in db.buckets && m.id <= db.buckets[k].publishedGen
    && k in db.summaries && k !in db.partials
  }

  /** More than so many hours old, tracked, and shown at both resolutions. */
  ghost predicate Spent(db: Db, m: Row, now: real, maxAgeHours: int) {
    && m in db.metrics && m.ts < now - (3600 * maxAgeHours) as real
    && db.cutover.Some? && db.cutover.value < m.id
    && Shown(db, m, OneMinute) && Shown(db, m, FiveMinutes)
  }

  lemma ShownIsCovered(db: Db, h: History, m: Row, r: Resolution)
    requires RowInv(db, h, m, r) && m in db.metrics && Cutover(db) < m.id
    ensures Shown(db, m, r) <==> Covered(db, m, r)
  {
    KeyRes(m, r);
    if Covered(db, m, r) {
      CoveredAt(db, h, m, r);
    }
    hide KeyOf;
  }

  lemma SpentIsDeletable(db: Db, h: History, m: Row, now: real, maxAgeHours: int)
    requires Inv(db, h) && DistinctIds(db.metrics) && db.cutover.Some?
    ensures Spent(db, m, now, maxAgeHours) <==> m in Deletable(db, now - (maxAgeHours * 3600) as real)
  {
    hide Inv, RowInv, Covered, Shown;
    if m in db.metrics && Cutover(db) < m.id {
      RowStored(db, h, m);
      RowFact(db, h, m, OneMinute);
      RowFact(db, h, m, FiveMinutes);
      ShownIsCovered(db, h, m, OneMinute);
      ShownIsCovered(db, h, m, FiveMinutes);
    }
  }

  lemma RowStored(db: Db, h: History, m: Row)
    requires Inv(db, h) && m in db.metrics
    ensures m in h.stored
  {
  }

  /** So many, or all of them if there are no more. */
  function AtMost(batchLimit: int): int {
    if batchLimit < 1 then 1 else batchLimit
  }

  /**
   A cleanup takes raw rows that are spent and no others, lowest ids first, as many as the limit or
   all there are; each takes its coverage with it, and no other coverage goes.
   */
  lemma CleanupReclaims(db: Db, h: History, now: real, maxAgeHours: int, batchLimit: int, ps: set<Key>, pb: set<Key>)
    requires Inv(db, h) && DistinctIds(db.metrics)
    ensures var next := Cleanup(db, now, maxAgeHours, batchLimit, ps, pb);
            var gone := db.metrics - next.metrics;
            && next.metrics <= db.metrics
            && (forall m | m in gone :: Spent(db, m, now, maxAgeHours))
            && |gone| <= AtMost(batchLimit)
            && (|gone| < AtMost(batchLimit) ==> forall m | m in next.metrics :: !Spent(db, m, now, maxAgeHours))
            && (forall m, x | m in gone && x in next.metrics && Spent(db, x, now, maxAgeHours) :: m.id < x.id)
            && next.coverage == (map q | q in db.coverage && q.id !in Ids(gone) :: db.coverage[q])
            && next.partials == db.partials && next.progress == db.progress
            && next.cutover == db.cutover && next.lastId == db.lastId
  {
    hide *;
    var limit, doomed := Budget(batchLimit), Doomed(db, now, maxAgeHours, Budget(batchLimit));
    LimitIs(batchLimit);
    if db.cutover.Some? {
      var all := Deletable(db, now - (maxAgeHours * 3600) as real);
      DeletableTotal(db, now - (maxAgeHours * 3600) as real);
      DoomedAre(db, now, maxAgeHours, limit);
      TakesLowest(all, limit);
      forall m
        ensures Spent(db, m, now, maxAgeHours) <==> m in all
        ensures m in all ==> m in db.metrics
      {
        SpentIsDeletable(db, h, m, now, maxAgeHours);
        SpentIsRow(db, m, now, maxAgeHours);
      }
    } else {
      NothingSpent(db, now, maxAgeHours, limit);
    }
    CleanupTables(db, now, maxAgeHours, batchLimit, ps, pb);
    assert db.metrics - (db.metrics - doomed) == doomed;
  }

  lemma LimitIs(batchLimit: int)
    ensures Budget(batchLimit) == AtMost(batchLimit) && AtMost(batchLimit) > 0
  {
  }

  lemma CleanupTables(db: Db, now: real, maxAgeHours: int, batchLimit: int, ps: set<Key>, pb: set<Key>)
    requires DistinctIds(db.metrics)
    ensures var next, doomed := Cleanup(db, now, maxAgeHours, batchLimit, ps, pb), Doomed(db, now, maxAgeHours, Budget(batchLimit));
            && next.metrics == db.metrics - doomed
            && next.coverage == (map q | q in db.coverage && q.id !in Ids(doomed) :: db.coverage[q])
            && next.partials == db.partials && next.progress == db.progress
            && next.cutover == db.cutover && next.lastId == db.lastId
  {
    hide Doomed, Ids, Touches;
  }

  lemma DoomedAre(db: Db, now: real, maxAgeHours: int, limit: nat)
    requires DistinctIds(db.metrics) && db.cutover.Some?
    requires StrictTotal(Older, Deletable(db, now - (maxAgeHours * 3600) as real))
    ensures Doomed(db, now, maxAgeHours, limit) == Elements(First(Older, Deletable(db, now - (maxAgeHours * 3600) as real), limit))
  {
    hide Deletable, First, Elements;
  }

  lemma SpentIsRow(db: Db, m: Row, now: real, maxAgeHours: int)
    ensures Spent(db, m, now, maxAgeHours) ==> m in db.metrics
  {
  }

  lemma NothingSpent(db: Db, now: real, maxAgeHours: int, limit: nat)
    requires db.cutover.None? && DistinctIds(db.metrics)
    ensures forall m :: !Spent(db, m, now, maxAgeHours)
    ensures Doomed(db, now, maxAgeHours, limit) == {}
  {
  }

  lemma TakesLowest(all: set<Row>, limit: nat)
    requires StrictTotal(Older, all)
    ensures var taken := Elements(First(Older, all, limit));
            && taken <= all && |taken| <= limit && (|taken| < limit ==> taken == all)
            && forall m, x | m in taken && x in all - taken :: m.id < x.id
  {
    if |First(Older, all, limit)| == |all| {
      WholeSet(Elements(First(Older, all, limit)), all);
    }
  }

  lemma WholeSet<T>(part: set<T>, all: set<T>)
    requires part <= all && |part| == |all|
    ensures part == all
  {
    assert all == part + (all - part) && |all| == |part| + |all - part|;
  }

  // ── sealing ─────────────────────────────────────────

  /** A bucket is sealed by a cleanup if and only if one of its own rows goes; its generation never moves. */
  lemma CleanupSeals(db: Db, h: History, now: real, maxAgeHours: int, batchLimit: int, ps: set<Key>, pb: set<Key>, k: Key)
    requires Inv(db, h) && DistinctIds(db.metrics)
    requires var next := Cleanup(db, now, maxAgeHours, batchLimit, ps, pb); k in next.buckets
    ensures var next := Cleanup(db, now, maxAgeHours, batchLimit, ps, pb);
            && k in db.buckets && next.buckets[k].publishedGen == db.buckets[k].publishedGen
            && (next.buckets[k].state == Sealed <==>
                  db.buckets[k].state == Sealed || exists m :: m in db.metrics - next.metrics && KeyOf(m, k.res) == k)
  {
    hide *;
    var doomed := Doomed(db, now, maxAgeHours, Budget(batchLimit));
    DoomedIsCovered(db, now, maxAgeHours, Budget(batchLimit));
    CleanupTables(db, now, maxAgeHours, batchLimit, ps, pb);
    BucketAfter(db, now, maxAgeHours, batchLimit, ps, pb, k);
    assert db.metrics - (db.metrics - doomed) == doomed;
    forall m | m in doomed
      ensures Names(db, m, k) <==> KeyOf(m, k.res) == k
    {
      RowStored(db, h, m);
      RowFact(db, h, m, k.res);
      assert Covered(db, m, k.res) && Cutover(db) < m.id;
      NamesOwn(db, h, m, k);
    }
    TouchedBy(db, doomed, k);
  }

  /** The coverage of this row names this bucket. */
  ghost predicate Names(db: Db, m: Row, k: Key) {
    var q := RowKey(m.id, k.res);
    q in db.coverage && db.coverage[q].agent == k.agent && db.coverage[q].start == k.start
  }

  lemma TouchedBy(db: Db, doomed: set<Row>, k: Key)
    ensures Touches(db, doomed, k) <==> exists m :: m in doomed && Names(db, m, k)
  {
  }

  lemma NamesOwn(db: Db, h: History, m: Row, k: Key)
    requires RowInv(db, h, m, k.res) && m in db.metrics && Cutover(db) < m.id && Covered(db, m, k.res)
    ensures Names(db, m, k) <==> KeyOf(m, k.res) == k
  {
    CoveredAt(db, h, m, k.res);
    KeyRes(m, k.res);
    hide KeyOf;
  }

  lemma BucketAfter(db: Db, now: real, maxAgeHours: int, batchLimit: int, ps: set<Key>, pb: set<Key>, k: Key)
    requires DistinctIds(db.metrics) && k in Cleanup(db, now, maxAgeHours, batchLimit, ps, pb).buckets
    ensures var next := Cleanup(db, now, maxAgeHours, batchLimit, ps, pb);
            var doomed := Doomed(db, now, maxAgeHours, Budget(batchLimit));
            && k in db.buckets && next.buckets[k].publishedGen == db.buckets[k].publishedGen
            && (next.buckets[k].state == Sealed <==> db.buckets[k].state == Sealed || Touches(db, doomed, k))
  {
    hide Doomed, Touches, Ids;
  }

  // ── ageing out ──────────────────────────────────────

  const SEVEN_DAYS := 7.0 * 86400.0

  /** Some raw row is still covered into this bucket, folded if it is asked for. */
  ghost predicate Holds(coverage: map<RowKey, Coverage>, k: Key, folded: bool) {
    exists q | q in coverage ::
      q.res == k.res && coverage[q].agent == k.agent && coverage[q].start == k.start && (folded ==> coverage[q].state == Folded)
  }

  /** A summary a week old that no surviving row needs as its proof and no generation is rebuilding. */
  ghost predicate StaleSummary(db: Db, after: map<RowKey, Coverage>, k: Key, now: real) {
    k in db.summaries && k.start as real < now - SEVEN_DAYS && !Holds(after, k, true) && k !in db.partials
  }

  /**
   The summaries a cleanup drops are stale once the raw rows have gone, as many as the limit or all
   there are; the others stay as they are.
   */
  lemma CleanupPrunesSummaries(db: Db, now: real, maxAgeHours: int, batchLimit: int, ps: set<Key>, pb: set<Key>)
    requires DistinctIds(db.metrics) && CleanupPicks(db, now, maxAgeHours, batchLimit, ps, pb)
    ensures var next := Cleanup(db, now, maxAgeHours, batchLimit, ps, pb);
            var gone := db.summaries.Keys - next.summaries.Keys;
            && (forall k | k in next.summaries :: k in db.summaries && next.summaries[k] == db.summaries[k])
            && (forall k | k in gone :: StaleSummary(db, next.coverage, k, now))
            && |gone| <= AtMost(batchLimit)
            && (|gone| < AtMost(batchLimit) ==> forall k | k in next.summaries :: !StaleSummary(db, next.coverage, k, now))
  {
    hide *;
    var reclaimed := Reclaim(db, Doomed(db, now, maxAgeHours, Budget(batchLimit)));
    var next := Cleanup(db, now, maxAgeHours, batchLimit, ps, pb);
    LimitIs(batchLimit);
    PickedSummaries(db, now, maxAgeHours, batchLimit, ps, pb);
    AfterPrunes(db, now, maxAgeHours, batchLimit, ps, pb);
    forall k
      ensures k in StaleSummaries(reclaimed, now - WEEK) <==> StaleSummary(db, next.coverage, k, now)
      ensures k in StaleSummaries(reclaimed, now - WEEK) ==> k in db.summaries
    {
      SummaryStaleIff(db, reclaimed, k, now);
    }
    var gone := db.summaries.Keys - next.summaries.Keys;
    assert gone == ps;
    if |gone| < AtMost(batchLimit) {
      WholeSet(ps, StaleSummaries(reclaimed, now - WEEK));
    }
  }

  lemma PickedSummaries(db: Db, now: real, maxAgeHours: int, batchLimit: int, ps: set<Key>, pb: set<Key>)
    requires DistinctIds(db.metrics) && CleanupPicks(db, now, maxAgeHours, batchLimit, ps, pb)
    ensures var stale := StaleSummaries(Reclaim(db, Doomed(db, now, maxAgeHours, Budget(batchLimit))), now - WEEK);
            ps <= stale && |ps| == if Budget(batchLimit) < |stale| then Budget(batchLimit) else |stale|
  {
    hide Doomed, Reclaim, StaleSummaries, StaleBuckets;
  }

  lemma AfterPrunes(db: Db, now: real, maxAgeHours: int, batchLimit: int, ps: set<Key>, pb: set<Key>)
    requires DistinctIds(db.metrics)
    ensures var next := Cleanup(db, now, maxAgeHours, batchLimit, ps, pb);
            var reclaimed := Reclaim(db, Doomed(db, now, maxAgeHours, Budget(batchLimit)));
            && reclaimed.summaries == db.summaries && reclaimed.partials == db.partials == next.partials
            && reclaimed.buckets.Keys == db.buckets.Keys && next.coverage == reclaimed.coverage
            && next.summaries == db.summaries - ps && next.buckets == reclaimed.buckets - pb
            && PruneSummaries(reclaimed, ps) == reclaimed.(summaries := next.summaries)
  {
    hide Doomed, Touches, Ids;
  }

  lemma SummaryStaleIff(db: Db, reclaimed: Db, k: Key, now: real)
    requires reclaimed.summaries == db.summaries && reclaimed.partials == db.partials
    ensures k in StaleSummaries(reclaimed, now - WEEK) <==> StaleSummary(db, reclaimed.coverage, k, now)
    ensures k in StaleSummaries(reclaimed, now - WEEK) ==> k in db.summaries
  {
    assert WEEK == SEVEN_DAYS;
  }

  /** A bucket row a week old without a summary, without any coverage and with no generation in flight. */
  ghost predicate StaleBucket(next: Db, buckets: set<Key>, k: Key, now: real) {
    && k in buckets && k.start as real < now - SEVEN_DAYS
    && k !in next.summaries && !Holds(next.coverage, k, false) && k !in next.partials
  }

  /** And so with the bucket rows, once the summaries have gone. */
  lemma CleanupPrunesBuckets(db: Db, now: real, maxAgeHours: int, batchLimit: int, ps: set<Key>, pb: set<Key>)
    requires DistinctIds(db.metrics) && CleanupPicks(db, now, maxAgeHours, batchLimit, ps, pb)
    ensures var next := Cleanup(db, now, maxAgeHours, batchLimit, ps, pb);
            var gone := db.buckets.Keys - next.buckets.Keys;
            && next.buckets.Keys <= db.buckets.Keys
            && (forall k | k in gone :: StaleBucket(next, db.buckets.Keys, k, now))
            && |gone| <= AtMost(batchLimit)
            && (|gone| < AtMost(batchLimit) ==> forall k | k in next.buckets :: !StaleBucket(next, db.buckets.Keys, k, now))
  {
    hide *;
    var reclaimed := Reclaim(db, Doomed(db, now, maxAgeHours, Budget(batchLimit)));
    var next := Cleanup(db, now, maxAgeHours, batchLimit, ps, pb);
    LimitIs(batchLimit);
    PickedBuckets(db, now, maxAgeHours, batchLimit, ps, pb);
    AfterPrunes(db, now, maxAgeHours, batchLimit, ps, pb);
    var mid := PruneSummaries(reclaimed, ps);
    forall k
      ensures k in StaleBuckets(mid, now - WEEK) <==> StaleBucket(next, db.buckets.Keys, k, now)
      ensures k in StaleBuckets(mid, now - WEEK) ==> k in db.buckets
    {
      BucketStaleIff(mid, next, db.buckets.Keys, k, now);
    }
    var gone := db.buckets.Keys - next.buckets.Keys;
    assert gone == pb;
    if |gone| < AtMost(batchLimit) {
      WholeSet(pb, StaleBuckets(mid, now - WEEK));
    }
  }

  lemma PickedBuckets(db: Db, now: real, maxAgeHours: int, batchLimit: int, ps: set<Key>, pb: set<Key>)
    requires DistinctIds(db.metrics) && CleanupPicks(db, now, maxAgeHours, batchLimit, ps, pb)
    ensures var reclaimed := Reclaim(db, Doomed(db, now, maxAgeHours, Budget(batchLimit)));
            var stale := StaleBuckets(PruneSummaries(reclaimed, ps), now - WEEK);
            pb <= stale && |pb| == if Budget(batchLimit) < |stale| then Budget(batchLimit) else |stale|
  {
    hide Doomed, Reclaim, StaleSummaries, StaleBuckets, PruneSummaries;
  }

  lemma BucketStaleIff(mid: Db, next: Db, buckets: set<Key>, k: Key, now: real)
    requires mid.buckets.Keys == buckets && mid.summaries == next.summaries && mid.coverage == next.coverage
    requires mid.partials == next.partials
    ensures k in StaleBuckets(mid, now - WEEK) <==> StaleBucket(next, buckets, k, now)
    ensures k in StaleBuckets(mid, now - WEEK) ==> k in buckets
  {
    assert WEEK == SEVEN_DAYS;
  }
}
