/** Storing a row and cleaning up old ones keep the invariant, with the history they extend. */
module StoreCleanup {
  import opened Wrappers
  import opened Ordering
  import opened Samples
  import opened Batches
  import opened StoreModel
  import opened StoreInvariant
  import opened StoreSteps
  import opened StoreTransactions

  // ── store_metric ────────────────────────────────────

  function Incoming(db: Db, agent: Agent, ts: real, data: Sample): Row {
    Row(db.lastId + 1, agent, ts, data)
  }

  /** Nothing the tables or the history name is above the last id ever assigned. */
  lemma IdBounds(db: Db, h: History, k: Key)
    requires Inv(db, h)
    ensures Base(db, h, k) <= db.lastId
    ensures k in db.buckets ==> db.buckets[k].publishedGen <= db.lastId
    ensures k in db.partials ==> db.partials[k].through <= db.lastId
  {
    assert k in db.buckets ==> BucketInv(db, h, k);
    assert k in h.retired ==> RetiredInv(db, h, k);
    assert k in db.partials ==> PartialInv(db, h, k);
  }

  lemma NewOwnRow(db: Db, h: History, next: Db, after: History, m: Row, r: Resolution)
    requires next.cutover == db.cutover && after.retired == h.retired
    requires next.buckets == db.buckets && next.partials == db.partials && next.coverage == db.coverage
    requires m in next.metrics && Cutover(db) < m.id && RowKey(m.id, r) !in db.coverage
    requires var k := KeyOf(m, r);
             && Base(db, h, k) < m.id
             && (k in db.buckets ==> db.buckets[k].publishedGen < m.id)
             && (k in db.partials ==> db.partials[k].through < m.id)
    ensures RowInv(next, after, m, r)
  {
    hide KeyOf;
  }

  lemma NewRowInv(db: Db, h: History, m: Row, r: Resolution)
    requires Inv(db, h) && m.id == db.lastId + 1
    ensures RowInv(db.(lastId := m.id, metrics := db.metrics + {m}), h.(stored := h.stored + {m}), m, r)
  {
    hide Inv, RowInv, KeyOf, Base;
    NewRowUncovered(db, h, m, r);
    IdBounds(db, h, KeyOf(m, r));
    NewOwnRow(db, h, db.(lastId := m.id, metrics := db.metrics + {m}), h.(stored := h.stored + {m}), m, r);
  }

  lemma NewRowUncovered(db: Db, h: History, m: Row, r: Resolution)
    requires Inv(db, h) && db.lastId < m.id
    ensures RowKey(m.id, r) !in db.coverage && Cutover(db) < m.id && m !in h.stored
    ensures forall x | x in h.stored :: x.id < m.id
  {
    assert m.id !in Ids(db.metrics);
  }

  lemma OldRowInv(db: Db, h: History, m: Row, x: Row, r: Resolution)
    requires RowInv(db, h, x, r) && x != m
    ensures RowInv(db.(lastId := m.id, metrics := db.metrics + {m}), h.(stored := h.stored + {m}), x, r)
  {
    hide KeyOf;
  }

  lemma StoredGeneration(db: Db, h: History, m: Row, k: Key, through: nat)
    requires through < m.id
    ensures Generation(db.(lastId := m.id, metrics := db.metrics + {m}), h.(stored := h.stored + {m}), k, through) ==
            Generation(db, h, k, through)
  {
  }

  lemma StoredBucket(db: Db, h: History, m: Row, k: Key)
    requires DistinctIds(h.stored) && DistinctIds(h.stored + {m}) && BucketInv(db, h, k)
    requires db.lastId < m.id
    ensures BucketInv(db.(lastId := m.id, metrics := db.metrics + {m}), h.(stored := h.stored + {m}), k)
  {
    if k in db.buckets {
      StoredGeneration(db, h, m, k, db.buckets[k].publishedGen);
      HasStoredGrows(h, m, k, db.buckets[k].publishedGen);
      hide KeyOf, BatchAverage, Datas, InTime, Generation, HasStored;
    }
  }

  lemma HasStoredGrows(h: History, m: Row, k: Key, id: nat)
    ensures HasStored(h, k, id) ==> HasStored(h.(stored := h.stored + {m}), k, id)
  {
  }

  lemma StoredPartial(db: Db, h: History, m: Row, k: Key)
    requires DistinctIds(h.stored) && DistinctIds(h.stored + {m}) && PartialInv(db, h, k)
    requires db.lastId < m.id
    ensures PartialInv(db.(lastId := m.id, metrics := db.metrics + {m}), h.(stored := h.stored + {m}), k)
  {
    if k in db.partials {
      var p := db.partials[k];
      var next, after := db.(lastId := m.id, metrics := db.metrics + {m}), h.(stored := h.stored + {m});
      assert Remaining(db, k, p) <= Remaining(next, k, p);
      StoredGeneration(db, h, m, k, p.through);
      HasStoredGrows(h, m, k, p.through);
      hide KeyOf, Fold, Datas, InTime, Generation, HasStored, Remaining;
      assert Consumed(next, after, k, p) == Consumed(db, h, k, p);
    }
  }

  /** A stored row is new to every generation, whatever its timestamp. */
  lemma StoreKeeps(db: Db, h: History, agent: Agent, ts: real, data: Sample)
    requires Inv(db, h)
    ensures Inv(StoreMetric(db, agent, ts, data), h.(stored := h.stored + {Incoming(db, agent, ts, data)}))
  {
    var m := Incoming(db, agent, ts, data);
    var next, after := db.(lastId := m.id, metrics := db.metrics + {m}), h.(stored := h.stored + {m});
    assert StoreMetric(db, agent, ts, data) == next;
    NewRowUncovered(db, h, m, OneMinute);
    hide *;
    InvParts(db, h);
    StoredRows(db, h, m);
    StoredShape(db, h, m);
    forall x, r | x in after.stored
      ensures RowInv(next, after, x, r)
    {
      if x == m {
        NewRowInv(db, h, m, r);
      } else {
        OldRowInv(db, h, m, x, r);
      }
    }
    forall k | k in next.buckets
      ensures BucketInv(next, after, k)
    {
      StoredBucket(db, h, m, k);
    }
    forall k | k in next.partials
      ensures PartialInv(next, after, k)
    {
      StoredPartial(db, h, m, k);
    }
    forall k | k in after.retired
      ensures RetiredInv(next, after, k)
    {
      StoredRetired(db, h, m, k);
    }
    FormsInv(next, after);
  }

  lemma StoredRows(db: Db, h: History, m: Row)
    requires RowsInv(db, h) && (forall x | x in h.stored :: x.id < m.id) && m.id == db.lastId + 1
    ensures RowsInv(db.(lastId := m.id, metrics := db.metrics + {m}), h.(stored := h.stored + {m}))
    ensures DistinctIds(h.stored + {m})
  {
    assert Ids(db.metrics) <= Ids(db.metrics + {m});
  }

  lemma StoredShape(db: Db, h: History, m: Row)
    requires m.id == db.lastId + 1
    ensures var next, after := db.(lastId := m.id, metrics := db.metrics + {m}), h.(stored := h.stored + {m});
            && next.buckets == db.buckets && next.partials == db.partials && after.retired == h.retired
            && (forall x | x in after.stored :: x == m || x in h.stored)
            && db.lastId < m.id
  {
  }

  lemma StoredRetired(db: Db, h: History, m: Row, k: Key)
    requires RetiredInv(db, h, k) && db.lastId < m.id
    ensures RetiredInv(db.(lastId := m.id, metrics := db.metrics + {m}), h.(stored := h.stored + {m}), k)
  {
    hide KeyOf;
    if k in h.retired {
      HasStoredGrows(h, m, k, h.retired[k]);
    }
  }

  // ── cleanup: reclaiming raw rows ────────────────────

  lemma DeletableIsCovered(db: Db, cutoff: real, m: Row, r: Resolution)
    requires m in Deletable(db, cutoff)
    ensures m in db.metrics && Covered(db, m, r) && Cutover(db) < m.id
  {
    hide Covered;
    match r
    case OneMinute =>
    case FiveMinutes =>
  }

  lemma DoomedIsCovered(db: Db, now: real, maxAgeHours: int, limit: nat)
    requires DistinctIds(db.metrics)
    ensures var doomed := Doomed(db, now, maxAgeHours, limit);
            && doomed <= db.metrics
            && |doomed| <= limit
            && forall m, r | m in doomed :: Covered(db, m, r) && Cutover(db) < m.id
  {
    hide *;
    var cutoff := now - (maxAgeHours * 3600) as real;
    DeletableTotal(db, cutoff);
    DoomedIs(db, now, maxAgeHours, limit);
    var doomed := Doomed(db, now, maxAgeHours, limit);
    forall m | m in doomed
      ensures m in db.metrics
    {
      DeletableIsCovered(db, cutoff, m, OneMinute);
    }
    forall m, r | m in doomed
      ensures m in db.metrics && Covered(db, m, r) && Cutover(db) < m.id
    {
      DeletableIsCovered(db, cutoff, m, r);
    }
  }

  lemma DeletableTotal(db: Db, cutoff: real)
    requires DistinctIds(db.metrics)
    ensures StrictTotal(Older, Deletable(db, cutoff))
  {
    hide Covered;
  }

  lemma DoomedIs(db: Db, now: real, maxAgeHours: int, limit: nat)
    requires DistinctIds(db.metrics)
    requires StrictTotal(Older, Deletable(db, now - (maxAgeHours * 3600) as real))
    ensures Doomed(db, now, maxAgeHours, limit) <= Deletable(db, now - (maxAgeHours * 3600) as real)
    ensures |Doomed(db, now, maxAgeHours, limit)| <= limit
  {
    hide Deletable, First, Elements;
  }

  /** A covered row's coverage names its own bucket. */
  lemma CoveredAt(db: Db, h: History, m: Row, r: Resolution)
    requires RowInv(db, h, m, r) && m in db.metrics && Cutover(db) < m.id && Covered(db, m, r)
    ensures var k := KeyOf(m, r);
            && k in db.buckets && m.id <= db.buckets[k].publishedGen && k in db.summaries && k !in db.partials
            && IsFolded(db, RowKey(m.id, r))
            && db.coverage[RowKey(m.id, r)].agent == k.agent && db.coverage[RowKey(m.id, r)].start == k.start
  {
    KeyRes(m, r);
    hide KeyOf;
  }

  lemma ReclaimedAt(db: Db, doomed: set<Row>, k: Key)
    ensures var next := Reclaim(db, doomed);
            && (k in next.buckets <==> k in db.buckets)
            && (k in db.buckets ==>
                  next.buckets[k] == if db.buckets[k].state == Open && Touches(db, doomed, k)
                                     then Bucket(Sealed, db.buckets[k].publishedGen) else db.buckets[k])
            && next.cutover == db.cutover && next.lastId == db.lastId && next.progress == db.progress
            && next.metrics == db.metrics - doomed
            && next.partials == db.partials && next.summaries == db.summaries
  {
    hide Touches, Ids;
  }

  lemma ReclaimedCoverage(stored: set<Row>, db: Db, doomed: set<Row>, m: Row, r: Resolution)
    requires DistinctIds(stored) && doomed <= stored && m in stored && m !in doomed
    ensures SameAt(db.coverage, Reclaim(db, doomed).coverage, RowKey(m.id, r))
  {
    assert m.id !in Ids(doomed);
  }

  lemma ReclaimedOwnRow(db: Db, next: Db, h: History, m: Row, r: Resolution)
    requires RowInv(db, h, m, r) && m in db.metrics && Cutover(db) < m.id && Covered(db, m, r)
    requires m !in next.metrics && next.cutover == db.cutover && next.partials == db.partials
    requires var k := KeyOf(m, r);
             k in db.buckets ==> k in next.buckets && next.buckets[k] == Bucket(Sealed, db.buckets[k].publishedGen)
    ensures RowInv(next, h, m, r)
  {
    CoveredAt(db, h, m, r);
    hide KeyOf, Covered;
  }

  lemma ReclaimedOtherRow(db: Db, next: Db, h: History, m: Row, r: Resolution)
    requires RowInv(db, h, m, r) && (m in next.metrics <==> m in db.metrics)
    requires next.cutover == db.cutover && next.partials == db.partials && next.summaries == db.summaries
    requires SameAt(db.coverage, next.coverage, RowKey(m.id, r))
    requires var k := KeyOf(m, r);
             && (k in next.buckets <==> k in db.buckets)
             && (k in db.buckets ==> next.buckets[k].publishedGen == db.buckets[k].publishedGen &&
                                     (next.buckets[k].state == db.buckets[k].state || next.buckets[k].state == Sealed))
    ensures RowInv(next, h, m, r)
  {
    hide KeyOf;
  }

  lemma ReclaimedRow(db: Db, h: History, doomed: set<Row>, m: Row, r: Resolution)
    requires RowsInv(db, h) && m in h.stored && RowInv(db, h, m, r) && doomed <= db.metrics
    requires forall x, s | x in doomed :: Covered(db, x, s) && Cutover(db) < x.id
    requires m in doomed ==> KeyOf(m, r) in db.buckets ==>
               db.buckets[KeyOf(m, r)].state == Sealed || Touches(db, doomed, KeyOf(m, r))
    ensures RowInv(Reclaim(db, doomed), h, m, r)
  {
    hide KeyOf, RowInv, Covered, Touches, CoverageLive, Reclaim;
    var next := Reclaim(db, doomed);
    ReclaimedAt(db, doomed, KeyOf(m, r));
    if m in doomed {
      assert Covered(db, m, r);
      ReclaimedOwnRow(db, next, h, m, r);
    } else {
      ReclaimedCoverage(h.stored, db, doomed, m, r);
      ReclaimedOtherRow(db, next, h, m, r);
    }
  }

  /** A reclaimed row seals the buckets it came from, at both resolutions. */
  lemma DoomedTouches(db: Db, h: History, doomed: set<Row>, m: Row, r: Resolution)
    requires m in doomed && m in db.metrics && RowInv(db, h, m, r)
    requires Covered(db, m, r) && Cutover(db) < m.id
    ensures Touches(db, doomed, KeyOf(m, r))
  {
    CoveredAt(db, h, m, r);
    KeyRes(m, r);
    hide KeyOf, Covered, RowInv;
  }

  /** No bucket in flight loses a row. */
  lemma InFlightUntouched(db: Db, h: History, doomed: set<Row>, k: Key)
    requires RowsInv(db, h) && k in db.partials && doomed <= db.metrics
    requires forall m, r | m in h.stored :: RowInv(db, h, m, r)
    requires forall m, r | m in doomed :: Covered(db, m, r) && Cutover(db) < m.id
    ensures !Touches(db, doomed, k)
    ensures Remaining(Reclaim(db, doomed), k, db.partials[k]) == Remaining(db, k, db.partials[k])
  {
    forall m | m in doomed
      ensures KeyOf(m, k.res) != k
      ensures var q := RowKey(m.id, k.res);
              q in db.coverage ==> !(db.coverage[q].agent == k.agent && db.coverage[q].start == k.start)
    {
      assert RowInv(db, h, m, k.res) && Covered(db, m, k.res);
      CoveredAt(db, h, m, k.res);
      KeyRes(m, k.res);
    }
    hide KeyOf, RowInv, Covered, AfterCursor;
  }

  lemma ReclaimedBucket(db: Db, h: History, doomed: set<Row>, k: Key)
    requires DistinctIds(h.stored) && BucketInv(db, h, k)
    ensures BucketInv(Reclaim(db, doomed), h, k)
  {
    ReclaimedAt(db, doomed, k);
    var next := Reclaim(db, doomed);
    hide Reclaim, KeyOf, BatchAverage, Datas, InTime, Swept, HasStored, Generation, Touches;
    if k in db.buckets {
      GenerationFrame(db, next, h, k, db.buckets[k].publishedGen);
    }
  }

  lemma ReclaimedPartial(db: Db, h: History, doomed: set<Row>, k: Key)
    requires DistinctIds(h.stored) && PartialInv(db, h, k) && k in db.partials
    requires !Touches(db, doomed, k)
    requires Remaining(Reclaim(db, doomed), k, db.partials[k]) == Remaining(db, k, db.partials[k])
    ensures PartialInv(Reclaim(db, doomed), h, k)
  {
    ReclaimedAt(db, doomed, k);
    var next, p := Reclaim(db, doomed), db.partials[k];
    hide Reclaim, KeyOf, Fold, Datas, InTime, HasStored, Generation, Remaining, Touches;
    GenerationFrame(db, next, h, k, p.through);
    assert Consumed(next, h, k, p) == Consumed(db, h, k, p);
  }

  lemma ReclaimedRows(db: Db, h: History, doomed: set<Row>)
    requires RowsInv(db, h) && doomed <= db.metrics
    requires forall m, r | m in doomed :: Covered(db, m, r) && Cutover(db) < m.id
    ensures RowsInv(Reclaim(db, doomed), h)
  {
    hide Touches, Covered;
    var next := Reclaim(db, doomed);
    forall q | q in next.coverage
      ensures q.id in Ids(next.metrics)
    {
      assert q.id in Ids(db.metrics);
      var m :| m in db.metrics && m.id == q.id;
      assert m !in doomed;
    }
    forall m | m in h.stored && m.id <= Cutover(next)
      ensures m in next.metrics
    {
      assert m in doomed ==> Covered(db, m, OneMinute) && Cutover(db) < m.id;
    }
  }

  /** Deleting covered rows and sealing the buckets they came from. */
  lemma ReclaimKeeps(db: Db, h: History, doomed: set<Row>)
    requires Inv(db, h) && doomed <= db.metrics
    requires forall m, r | m in doomed :: Covered(db, m, r) && Cutover(db) < m.id
    ensures Inv(Reclaim(db, doomed), h)
  {
    hide *;
    InvParts(db, h);
    var next := Reclaim(db, doomed);
    ReclaimedRows(db, h, doomed);
    RowsDistinct(db, h);
    forall m, r | m in h.stored
      ensures RowInv(next, h, m, r)
    {
      if m in doomed {
        assert Covered(db, m, r);
        DoomedTouches(db, h, doomed, m, r);
      }
      ReclaimedRow(db, h, doomed, m, r);
    }
    forall k
      ensures k in next.buckets ==> BucketInv(next, h, k)
      ensures k in next.partials ==> PartialInv(next, h, k)
      ensures k in h.retired ==> RetiredInv(next, h, k)
    {
      ReclaimedAt(db, doomed, k);
      if k in db.buckets {
        ReclaimedBucket(db, h, doomed, k);
      }
      if k in db.partials {
        InFlightUntouched(db, h, doomed, k);
        ReclaimedPartial(db, h, doomed, k);
      }
      if k in h.retired {
        RetiredFrame(db, next, h, k);
      }
    }
    FormsInv(next, h);
  }

  // ── cleanup: the seven-day sweeps ───────────────────

  lemma ClockKeeps(db: Db, h: History, now: real)
    requires Inv(db, h)
    ensures Inv(db, h.(clocks := h.clocks + {now}))
  {
    var after := h.(clocks := h.clocks + {now});
    hide *;
    InvParts(db, h);
    forall m, r | m in after.stored
      ensures RowInv(db, after, m, r)
    {
      ClockRow(db, h, now, m, r);
    }
    ClockShape(db, h, now);
    forall k
      ensures k in db.buckets ==> BucketInv(db, after, k)
      ensures k in db.partials ==> PartialInv(db, after, k)
      ensures k in after.retired ==> RetiredInv(db, after, k)
    {
      ClockKey(db, h, now, k);
    }
    FormsInv(db, after);
  }

  lemma ClockRow(db: Db, h: History, now: real, m: Row, r: Resolution)
    ensures RowInv(db, h, m, r) ==> RowInv(db, h.(clocks := h.clocks + {now}), m, r)
    ensures m in h.(clocks := h.clocks + {now}).stored <==> m in h.stored
  {
    hide KeyOf;
  }

  lemma ClockShape(db: Db, h: History, now: real)
    requires RowsInv(db, h)
    ensures var after := h.(clocks := h.clocks + {now});
            && RowsInv(db, after) && DistinctIds(after.stored) && after.stored == h.stored && after.retired == h.retired
  {
  }

  lemma ClockKey(db: Db, h: History, now: real, k: Key)
    requires DistinctIds(h.stored) && DistinctIds(h.(clocks := h.clocks + {now}).stored)
    ensures var after := h.(clocks := h.clocks + {now});
            && (BucketInv(db, h, k) ==> BucketInv(db, after, k))
            && (PartialInv(db, h, k) ==> PartialInv(db, after, k))
            && (RetiredInv(db, h, k) ==> RetiredInv(db, after, k))
            && (k in after.retired <==> k in h.retired)
  {
    var after := h.(clocks := h.clocks + {now});
    hide KeyOf, InBatches, BatchAverage, Datas, InTime;
    assert forall through :: Generation(db, after, k, through) == Generation(db, h, k, through);
    assert forall p :: Consumed(db, after, k, p) == Consumed(db, h, k, p);
    assert Swept(h, k) ==> Swept(after, k);
  }

  lemma PublishedHasFolded(db: Db, h: History, m: Row, r: Resolution)
    requires RowInv(db, h, m, r) && m in db.metrics && Cutover(db) < m.id
    requires KeyOf(m, r) in db.buckets && m.id <= db.buckets[KeyOf(m, r)].publishedGen
    ensures AnyFolded(db, KeyOf(m, r)) && AnyCoverage(db, KeyOf(m, r))
  {
    KeyRes(m, r);
    hide KeyOf;
    assert RowKey(m.id, r) in db.coverage;
  }

  lemma CutoverBelow(db: Db, h: History, k: Key)
    ensures Cutover(db) <= Base(db, h, k)
  {
  }

  /** A bucket whose contributors are all still here cannot lose its summary. */
  lemma OpenHasFolded(db: Db, h: History, k: Key)
    requires Inv(db, h) && k in db.buckets && db.buckets[k].state == Open
    ensures AnyFolded(db, k)
  {
    hide Inv, KeyOf, Swept, SummaryExact;
    KeyFacts(db, h, k);
    var gen := db.buckets[k].publishedGen;
    var m :| m in h.stored && KeyOf(m, k.res) == k && m.id == gen;
    RowFact(db, h, m, k.res);
    CutoverBelow(db, h, k);
    assert m in db.metrics;
    PublishedHasFolded(db, h, m, k.res);
  }

  lemma PrunedSummaryRow(db: Db, h: History, ps: set<Key>, m: Row, r: Resolution)
    requires RowInv(db, h, m, r)
    requires forall k | k in ps :: !AnyFolded(db, k)
    ensures RowInv(PruneSummaries(db, ps), h, m, r)
  {
    if m in db.metrics && Cutover(db) < m.id && KeyOf(m, r) in db.buckets
       && m.id <= db.buckets[KeyOf(m, r)].publishedGen {
      PublishedHasFolded(db, h, m, r);
    }
    hide KeyOf, AnyFolded;
  }

  lemma PrunedSummaryKey(db: Db, h: History, ps: set<Key>, k: Key)
    requires DistinctIds(h.stored)
    requires k in ps ==> Swept(h, k) && k !in db.partials &&
                         (k in db.buckets ==> db.buckets[k].state == Sealed)
    ensures var next := PruneSummaries(db, ps);
            && (BucketInv(db, h, k) ==> BucketInv(next, h, k))
            && (PartialInv(db, h, k) ==> PartialInv(next, h, k))
            && (RetiredInv(db, h, k) ==> RetiredInv(next, h, k))
  {
    var next := PruneSummaries(db, ps);
    hide KeyOf, InBatches, BatchAverage, Datas, InTime, HasStored, Swept;
    assert forall through :: Generation(next, h, k, through) == Generation(db, h, k, through);
    assert forall p :: Consumed(next, h, k, p) == Consumed(db, h, k, p);
    assert forall p :: Remaining(next, k, p) == Remaining(db, k, p);
  }

  lemma PruneSummariesKeeps(db: Db, h: History, ps: set<Key>, now: real)
    requires Inv(db, h) && now in h.clocks && ps <= StaleSummaries(db, now - WEEK)
    ensures Inv(PruneSummaries(db, ps), h)
  {
    hide *;
    InvParts(db, h);
    var next := PruneSummaries(db, ps);
    forall k | k in ps
      ensures !AnyFolded(db, k) && k !in db.partials && Swept(h, k)
    {
      StaleSummaryIs(db, h, ps, now, k);
    }
    forall m, r | m in h.stored
      ensures RowInv(next, h, m, r)
    {
      PrunedSummaryRow(db, h, ps, m, r);
    }
    PrunedSummaryShape(db, h, ps);
    forall k
      ensures k in next.buckets ==> BucketInv(next, h, k)
      ensures k in next.partials ==> PartialInv(next, h, k)
      ensures k in h.retired ==> RetiredInv(next, h, k)
    {
      if k in ps && k in db.buckets && db.buckets[k].state == Open {
        OpenHasFolded(db, h, k);
      }
      OpenOrSealed(db, k);
      PrunedSummaryKey(db, h, ps, k);
    }
    FormsInv(next, h);
  }

  lemma OpenOrSealed(db: Db, k: Key)
    ensures k in db.buckets ==> db.buckets[k].state == Open || db.buckets[k].state == Sealed
  {
  }

  lemma StaleSummaryIs(db: Db, h: History, ps: set<Key>, now: real, k: Key)
    requires ps <= StaleSummaries(db, now - WEEK) && now in h.clocks && k in ps
    ensures !AnyFolded(db, k) && k !in db.partials && Swept(h, k)
  {
    hide AnyFolded;
  }

  lemma PrunedSummaryShape(db: Db, h: History, ps: set<Key>)
    requires RowsInv(db, h)
    ensures var next := PruneSummaries(db, ps);
            RowsInv(next, h) && next.buckets == db.buckets && next.partials == db.partials
  {
  }

  /** The history of a sweep that dropped the bucket rows `pb`. */
  function Retire(db: Db, retired: map<Key, nat>, pb: set<Key>): map<Key, nat> {
    map k | k in retired.Keys + (pb * db.buckets.Keys) ::
      if k in pb && k in db.buckets then db.buckets[k].publishedGen else retired[k]
  }

  /** The base of a bucket whose row goes rises to the generation that row had published. */
  lemma RetiredBase(db: Db, h: History, pb: set<Key>, k: Key)
    requires k in db.buckets ==> Base(db, h, k) < db.buckets[k].publishedGen
    ensures Base(PruneBuckets(db, pb), h.(retired := Retire(db, h.retired, pb)), k) ==
            if k in pb && k in db.buckets then db.buckets[k].publishedGen else Base(db, h, k)
  {
  }

  lemma RetiredOwnRow(db: Db, h: History, next: Db, after: History, m: Row, r: Resolution)
    requires RowInv(db, h, m, r)
    requires next == db.(buckets := next.buckets)
    requires var k := KeyOf(m, r);
             && (k in next.buckets ==> k in db.buckets && next.buckets[k] == db.buckets[k])
             && Base(next, after, k) == (if k in db.buckets && k !in next.buckets then db.buckets[k].publishedGen
                                         else Base(db, h, k))
             && (k in db.buckets && k !in next.buckets ==>
                   k !in db.partials &&
                   (m in db.metrics && Cutover(db) < m.id ==> db.buckets[k].publishedGen < m.id))
    ensures RowInv(next, after, m, r)
  {
    hide KeyOf, Base;
  }

  lemma RetiredRow(db: Db, h: History, pb: set<Key>, m: Row, r: Resolution)
    requires RowInv(db, h, m, r)
    requires forall k | k in pb :: k in db.buckets && !AnyCoverage(db, k) && k !in db.partials
    requires KeyOf(m, r) in db.buckets ==> Base(db, h, KeyOf(m, r)) < db.buckets[KeyOf(m, r)].publishedGen
    ensures RowInv(PruneBuckets(db, pb), h.(retired := Retire(db, h.retired, pb)), m, r)
  {
    if m in db.metrics && Cutover(db) < m.id && KeyOf(m, r) in db.buckets
       && m.id <= db.buckets[KeyOf(m, r)].publishedGen {
      PublishedHasFolded(db, h, m, r);
    }
    hide KeyOf, AnyCoverage, Base, RowInv, Retire;
    RetiredBase(db, h, pb, KeyOf(m, r));
    RetiredOwnRow(db, h, PruneBuckets(db, pb), h.(retired := Retire(db, h.retired, pb)), m, r);
  }

  lemma RetiredKey(db: Db, h: History, pb: set<Key>, k: Key)
    requires DistinctIds(h.stored) && DistinctIds(h.(retired := Retire(db, h.retired, pb)).stored)
    requires k in pb ==> k in db.buckets && k !in db.summaries && k !in db.partials
    ensures var next, after := PruneBuckets(db, pb), h.(retired := Retire(db, h.retired, pb));
            && (BucketInv(db, h, k) ==> BucketInv(next, after, k))
            && (PartialInv(db, h, k) ==> PartialInv(next, after, k))
            && (BucketInv(db, h, k) && RetiredInv(db, h, k) ==> RetiredInv(next, after, k))
            && (k in next.buckets ==> k in db.buckets)
            && (k in after.retired ==> k in h.retired || k in db.buckets)
  {
    var next, after := PruneBuckets(db, pb), h.(retired := Retire(db, h.retired, pb));
    hide KeyOf, InBatches, BatchAverage, Datas, InTime, HasStored, Swept;
    if k !in pb {
      assert forall through :: Generation(next, after, k, through) == Generation(db, h, k, through);
      assert forall p :: Consumed(next, after, k, p) == Consumed(db, h, k, p);
      assert forall p :: Remaining(next, k, p) == Remaining(db, k, p);
    }
    RetireHistory(h, Retire(db, h.retired, pb), k);
  }

  lemma RetireHistory(h: History, retired: map<Key, nat>, k: Key)
    ensures Swept(h.(retired := retired), k) <==> Swept(h, k)
    ensures forall id :: HasStored(h.(retired := retired), k, id) <==> HasStored(h, k, id)
  {
    hide KeyOf;
  }

  lemma PruneBucketsKeeps(db: Db, h: History, pb: set<Key>, cutoff: real)
    requires Inv(db, h) && pb <= StaleBuckets(db, cutoff)
    ensures Inv(PruneBuckets(db, pb), h.(retired := Retire(db, h.retired, pb)))
  {
    hide *;
    InvParts(db, h);
    var next, after := PruneBuckets(db, pb), h.(retired := Retire(db, h.retired, pb));
    forall k | k in pb
      ensures k in db.buckets && !AnyCoverage(db, k) && k !in db.partials && k !in db.summaries
    {
      StaleBucketIs(db, pb, cutoff, k);
    }
    RetiredShape(db, h, pb);
    forall m, r | m in after.stored
      ensures RowInv(next, after, m, r)
    {
      if KeyOf(m, r) in db.buckets {
        BucketBase(db, h, KeyOf(m, r));
      }
      RetiredRow(db, h, pb, m, r);
    }
    forall k
      ensures k in next.buckets ==> BucketInv(next, after, k)
      ensures k in next.partials ==> PartialInv(next, after, k)
      ensures k in after.retired ==> RetiredInv(next, after, k)
    {
      AbsentKey(db, h, k);
      RetiredKey(db, h, pb, k);
    }
    FormsInv(next, after);
  }

  lemma AbsentKey(db: Db, h: History, k: Key)
    requires DistinctIds(h.stored)
    ensures k !in db.buckets ==> BucketInv(db, h, k)
    ensures k !in h.retired ==> RetiredInv(db, h, k)
  {
  }

  lemma BucketBase(db: Db, h: History, k: Key)
    requires DistinctIds(h.stored) && k in db.buckets && BucketInv(db, h, k)
    ensures Base(db, h, k) < db.buckets[k].publishedGen
  {
  }

  lemma StaleBucketIs(db: Db, pb: set<Key>, cutoff: real, k: Key)
    requires pb <= StaleBuckets(db, cutoff) && k in pb
    ensures k in db.buckets && !AnyCoverage(db, k) && k !in db.partials && k !in db.summaries
  {
    hide AnyCoverage;
  }

  lemma RetiredShape(db: Db, h: History, pb: set<Key>)
    requires RowsInv(db, h)
    ensures var next, after := PruneBuckets(db, pb), h.(retired := Retire(db, h.retired, pb));
            && RowsInv(next, after) && DistinctIds(after.stored) && after.stored == h.stored
            && next.partials == db.partials
  {
  }

  // ── cleanup_old_metrics ─────────────────────────────

  /** The history after a cleanup that dropped the bucket rows `pb`. */
  function CleanupHistory(db: Db, h: History, now: real, pb: set<Key>): History {
    History(h.stored, Retire(db, h.retired, pb), h.clocks + {now})
  }

  lemma CleanupKeeps(db: Db, h: History, now: real, maxAgeHours: int, batchLimit: int, ps: set<Key>, pb: set<Key>)
    requires Inv(db, h) && DistinctIds(db.metrics)
    requires CleanupPicks(db, now, maxAgeHours, batchLimit, ps, pb)
    ensures var next := Cleanup(db, now, maxAgeHours, batchLimit, ps, pb);
            Inv(next, CleanupHistory(db, h, now, pb))
  {
    hide *;
    var limit := Budget(batchLimit);
    var doomed := Doomed(db, now, maxAgeHours, limit);
    DoomedIsCovered(db, now, maxAgeHours, limit);
    ReclaimKeeps(db, h, doomed);
    var reclaimed := Reclaim(db, doomed);
    var clocked := h.(clocks := h.clocks + {now});
    ClockKeeps(reclaimed, h, now);
    CleanupPicksAre(db, now, maxAgeHours, batchLimit, ps, pb);
    assert now in clocked.clocks;
    PruneSummariesKeeps(reclaimed, clocked, ps, now);
    var swept := PruneSummaries(reclaimed, ps);
    PruneBucketsKeeps(swept, clocked, pb, now - WEEK);
    CleanupIs(db, h, now, maxAgeHours, batchLimit, ps, pb);
  }

  lemma CleanupPicksAre(db: Db, now: real, maxAgeHours: int, batchLimit: int, ps: set<Key>, pb: set<Key>)
    requires DistinctIds(db.metrics) && CleanupPicks(db, now, maxAgeHours, batchLimit, ps, pb)
    ensures var reclaimed := Reclaim(db, Doomed(db, now, maxAgeHours, Budget(batchLimit)));
            && ps <= StaleSummaries(reclaimed, now - WEEK)
            && pb <= StaleBuckets(PruneSummaries(reclaimed, ps), now - WEEK)
  {
    hide Reclaim, Doomed, StaleSummaries, StaleBuckets, PruneSummaries;
  }

  lemma CleanupIs(db: Db, h: History, now: real, maxAgeHours: int, batchLimit: int, ps: set<Key>, pb: set<Key>)
    requires DistinctIds(db.metrics)
    ensures var swept := PruneSummaries(Reclaim(db, Doomed(db, now, maxAgeHours, Budget(batchLimit))), ps);
            && Cleanup(db, now, maxAgeHours, batchLimit, ps, pb) == PruneBuckets(swept, pb)
            && Retire(swept, h.retired, pb) == Retire(db, h.retired, pb)
            && CleanupHistory(db, h, now, pb) ==
               h.(clocks := h.clocks + {now}).(retired := Retire(swept, h.retired, pb))
  {
    var doomed := Doomed(db, now, maxAgeHours, Budget(batchLimit));
    var swept := PruneSummaries(Reclaim(db, doomed), ps);
    hide Doomed, Reclaim;
    forall k
      ensures k in swept.buckets <==> k in db.buckets
      ensures k in swept.buckets ==> swept.buckets[k].publishedGen == db.buckets[k].publishedGen
    {
      ReclaimedAt(db, doomed, k);
    }
    assert swept.buckets.Keys == db.buckets.Keys;
    assert Retire(swept, h.retired, pb) == Retire(db, h.retired, pb);
  }
}
