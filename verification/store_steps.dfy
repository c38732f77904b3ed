/** Every transaction of the metric tables keeps the invariant. */
module StoreSteps {
  import opened Wrappers
  import opened Ordering
  import opened Samples
  import opened Batches
  import opened StoreModel
  import opened StoreInvariant

  // ── one batch of a generation ───────────────────────

  /** Every row an in-flight generation has to average is still there. */
  lemma GenerationIsLive(db: Db, h: History, k: Key)
    requires Inv(db, h) && k in db.partials
    ensures Generation(db, h, k, db.partials[k].through) ==
            set m | m in BucketRows(db, k) && m.id <= db.partials[k].through
  {
    hide BatchAverage, InBatches, InTime;
    forall m | m in h.stored && KeyOf(m, k.res) == k
      ensures Base(db, h, k) < m.id <==> (m in db.metrics && Cutover(db) < m.id)
    {
      assert RowInv(db, h, m, k.res);
    }
  }

  /** The last row of a batch comes after the rest of it and before everything left out. */
  lemma BatchEnds(s: set<Row>, n: nat)
    requires DistinctIds(s) && s != {} && n > 0
    ensures StrictTotal(Earlier, s)
    ensures var batch := First(Earlier, s, n);
            && batch != []
            && Elements(batch) <= s
            && var last := batch[|batch| - 1];
              && last in Elements(batch)
              && (forall m | m in Elements(batch) :: m == last || Earlier(m, last))
              && (forall m | m in s - Elements(batch) :: Earlier(last, m))
  {
    TimeTotal(s);
    var batch := First(Earlier, s, n);
    assert |s| != 0;
    var last := batch[|batch| - 1];
    assert last in Elements(batch);
    forall m | m in Elements(batch)
      ensures m == last || Earlier(m, last)
    {
      var i :| 0 <= i < |batch| && batch[i] == m;
      assert i < |batch| - 1 ==> Earlier(batch[i], last);
    }
  }

  lemma CursorSplits(m: Row, last: Row, p: Partial, moved: Partial)
    requires AfterCursor(p, last) && moved.lastTs == last.ts && moved.lastId == last.id
    ensures m == last || Earlier(m, last) ==> !AfterCursor(moved, m)
    ensures Earlier(last, m) ==> AfterCursor(moved, m)
    ensures !AfterCursor(p, m) ==> !AfterCursor(moved, m)
  {
  }

  lemma CursorMoves(db: Db, k: Key, p: Partial, budget: nat, acc: Acc)
    requires DistinctIds(db.metrics) && budget > 0 && Remaining(db, k, p) != {}
    ensures StrictTotal(Earlier, Remaining(db, k, p))
    ensures var batch := First(Earlier, Remaining(db, k, p), budget);
            var moved := MoveCursor(p, batch, acc);
            && batch != []
            && Elements(batch) <= Remaining(db, k, p)
            && Remaining(db, k, moved) == Remaining(db, k, p) - Elements(batch)
            && (forall m | m in BucketRows(db, k) && m.id <= p.through ::
                  !AfterCursor(moved, m) <==> !AfterCursor(p, m) || m in Elements(batch))
  {
    var todo := Remaining(db, k, p);
    BatchEnds(todo, budget);
    var batch := First(Earlier, todo, budget);
    var moved := MoveCursor(p, batch, acc);
    var last := batch[|batch| - 1];
    hide First, BucketRows, AfterCursor, Earlier, Elements;
    assert AfterCursor(p, last);
    forall m | m in BucketRows(db, k) && m.id <= p.through
      ensures !AfterCursor(moved, m) <==> !AfterCursor(p, m) || m in Elements(batch)
    {
      CursorSplits(m, last, p, moved);
    }
  }

  /** Covering rows of one bucket changes the coverage of exactly those rows at that resolution. */
  lemma CoverAt(stored: set<Row>, coverage: map<RowKey, Coverage>, rows: set<Row>, k: Key, state: CoverState,
                m: Row, r: Resolution)
    requires DistinctIds(stored) && rows <= stored && m in stored
    ensures var q, after := RowKey(m.id, r), Cover(coverage, rows, k, state);
            if m in rows && r == k.res then q in after && after[q] == Coverage(k.agent, k.start, state)
            else (q in after <==> q in coverage) && (q in coverage ==> after[q] == coverage[q])
  {
    var q := RowKey(m.id, r);
    assert q in RowKeys(rows, k.res) <==> m in rows && r == k.res;
  }

  lemma RowsDistinct(db: Db, h: History)
    requires Inv(db, h)
    ensures DistinctIds(h.stored) && db.metrics <= h.stored && DistinctIds(db.metrics)
  {
  }

  lemma RowFact(db: Db, h: History, m: Row, r: Resolution)
    requires Inv(db, h) && m in h.stored
    ensures RowInv(db, h, m, r)
  {
  }

  lemma KeyFacts(db: Db, h: History, k: Key)
    requires Inv(db, h)
    ensures DistinctIds(h.stored)
    ensures k in db.buckets ==> BucketInv(db, h, k)
    ensures k in h.retired ==> RetiredInv(db, h, k)
  {
  }

  lemma PartialFacts(db: Db, h: History, k: Key)
    requires Inv(db, h) && k in db.partials
    ensures DistinctIds(h.stored) && PartialInv(db, h, k) && Remaining(db, k, db.partials[k]) != {}
    ensures InBatches(Datas(InTime(Consumed(db, h, k, db.partials[k]))), db.partials[k].acc)
  {
  }

  lemma CursorOrder(p: Partial, a: Row, b: Row)
    requires !AfterCursor(p, a) && AfterCursor(p, b)
    ensures Earlier(a, b)
  {
  }

  lemma ConsumedExtends(db: Db, h: History, k: Key, p: Partial, moved: Partial, batch: set<Row>)
    requires moved.through == p.through
    requires Generation(db, h, k, p.through) == set m | m in BucketRows(db, k) && m.id <= p.through
    requires batch <= Remaining(db, k, p) && Remaining(db, k, moved) == Remaining(db, k, p) - batch
    requires forall m | m in BucketRows(db, k) && m.id <= p.through ::
               !AfterCursor(moved, m) <==> !AfterCursor(p, m) || m in batch
    ensures Consumed(db, h, k, moved) == Consumed(db, h, k, p) + batch
    ensures forall a, b | a in Consumed(db, h, k, p) && b in batch :: Earlier(a, b)
    ensures Remaining(db, k, moved) == {} ==> Consumed(db, h, k, moved) == Generation(db, h, k, p.through)
  {
    hide BucketRows, Generation, AfterCursor, Earlier;
    forall a, b | a in Consumed(db, h, k, p) && b in batch
      ensures Earlier(a, b)
    {
      CursorOrder(p, a, b);
    }
    assert Remaining(db, k, moved) == {} ==> forall m | m in BucketRows(db, k) && m.id <= p.through ::
                                               m !in Remaining(db, k, moved);
  }

  /** A batch extends what is behind the cursor, and everything once nothing remains. */
  lemma ConsumedGrows(db: Db, h: History, k: Key, budget: nat, acc: Acc)
    requires Inv(db, h) && k in db.partials && budget > 0 && DistinctIds(db.metrics)
    requires StrictTotal(Earlier, Remaining(db, k, db.partials[k]))
    ensures var p := db.partials[k];
            var batch := First(Earlier, Remaining(db, k, p), budget);
            var moved := MoveCursor(p, batch, acc);
            && Consumed(db, h, k, moved) == Consumed(db, h, k, p) + Elements(batch)
            && (forall a, b | a in Consumed(db, h, k, p) && b in Elements(batch) :: Earlier(a, b))
            && (Remaining(db, k, moved) == {} ==> Consumed(db, h, k, moved) == Generation(db, h, k, p.through))
  {
    hide *;
    var p := db.partials[k];
    PartialFacts(db, h, k);
    CursorMoves(db, k, p, budget, acc);
    GenerationIsLive(db, h, k);
    var batch := First(Earlier, Remaining(db, k, p), budget);
    CursorKeepsThrough(p, batch, acc);
    ConsumedExtends(db, h, k, p, MoveCursor(p, batch, acc), Elements(batch));
  }

  lemma CursorKeepsThrough(p: Partial, batch: seq<Row>, acc: Acc)
    ensures var moved := MoveCursor(p, batch, acc);
            moved.through == p.through && moved.acc == acc && moved.n == acc.n
  {
  }

  /** The accumulator after a batch is a fold of everything behind the new cursor, and its average a summary of it. */
  lemma AccumulatorIsFold(db: Db, h: History, k: Key, budget: nat, acc: Acc)
    requires Inv(db, h) && k in db.partials && budget > 0 && DistinctIds(db.metrics)
    requires DistinctIds(h.stored)
    requires StrictTotal(Earlier, Remaining(db, k, db.partials[k]))
    requires Fold(db.partials[k].acc, Datas(First(Earlier, Remaining(db, k, db.partials[k]), budget))) == Some(acc)
    ensures var moved := MoveCursor(db.partials[k], First(Earlier, Remaining(db, k, db.partials[k]), budget), acc);
            && InBatches(Datas(InTime(Consumed(db, h, k, moved))), acc)
            && (AggFinalize(acc).Some? && Remaining(db, k, db.partials[k]) != {} ==>
                  BatchAverage(Datas(InTime(Consumed(db, h, k, moved))), AggFinalize(acc).value))
  {
    hide *;
    var p := db.partials[k];
    var todo := Remaining(db, k, p);
    PartialFacts(db, h, k);
    ConsumedGrows(db, h, k, budget, acc);
    var before, batch := Consumed(db, h, k, p), First(Earlier, todo, budget);
    ConsumedStored(db, h, k, MoveCursor(p, batch, acc));
    SubsetDistinct(h.stored, before + Elements(batch));
    SubsetDistinct(h.stored, Elements(batch));
    InTimeIsArrange(Elements(batch));
    FirstThenRest(Earlier, todo, budget);
    FoldResumes(before, Elements(batch), p.acc, acc);
    BatchHas(db, k, budget, acc);
  }

  lemma ConsumedStored(db: Db, h: History, k: Key, p: Partial)
    ensures Consumed(db, h, k, p) <= h.stored
  {
    hide KeyOf, AfterCursor;
  }

  lemma BatchHas(db: Db, k: Key, budget: nat, acc: Acc)
    requires k in db.partials && budget > 0 && DistinctIds(db.metrics)
    requires StrictTotal(Earlier, Remaining(db, k, db.partials[k]))
    ensures Remaining(db, k, db.partials[k]) != {} ==> Elements(First(Earlier, Remaining(db, k, db.partials[k]), budget)) != {}
  {
    if Remaining(db, k, db.partials[k]) != {} {
      CursorMoves(db, k, db.partials[k], budget, acc);
      var batch := First(Earlier, Remaining(db, k, db.partials[k]), budget);
      assert batch[0] in Elements(batch);
    }
  }

  lemma SubsetDistinct(s: set<Row>, t: set<Row>)
    requires DistinctIds(s) && t <= s
    ensures DistinctIds(t)
  {
  }

  lemma InTimeIsArrange(s: set<Row>)
    requires DistinctIds(s)
    ensures StrictTotal(Earlier, s) && InTime(s) == Arrange(Earlier, s)
  {
    TimeTotal(s);
  }

  // ── what a step that leaves an entry alone keeps ────

  ghost predicate SameAt<K, V>(a: map<K, V>, b: map<K, V>, x: K) {
    (x in a <==> x in b) && (x in a ==> a[x] == b[x])
  }

  lemma GenerationFrame(db: Db, next: Db, h: History, k: Key, through: nat)
    requires next.cutover == db.cutover
    ensures Generation(next, h, k, through) == Generation(db, h, k, through)
  {
  }

  lemma RowFrame(db: Db, next: Db, h: History, m: Row, r: Resolution)
    requires RowInv(db, h, m, r)
    requires next.cutover == db.cutover && (m in next.metrics <==> m in db.metrics)
    requires SameAt(db.coverage, next.coverage, RowKey(m.id, r))
    requires SameAt(db.buckets, next.buckets, KeyOf(m, r)) && SameAt(db.partials, next.partials, KeyOf(m, r))
    requires KeyOf(m, r) in db.summaries ==> KeyOf(m, r) in next.summaries
    ensures RowInv(next, h, m, r)
  {
    hide KeyOf;
  }

  lemma BucketFrame(db: Db, next: Db, h: History, k: Key)
    requires DistinctIds(h.stored) && BucketInv(db, h, k)
    requires next.cutover == db.cutover && db.lastId <= next.lastId
    requires SameAt(db.buckets, next.buckets, k) && SameAt(db.summaries, next.summaries, k)
    ensures BucketInv(next, h, k)
  {
    hide KeyOf, BatchAverage, Datas, InTime, Swept, HasStored, Generation;
    if k in db.buckets {
      GenerationFrame(db, next, h, k, db.buckets[k].publishedGen);
    }
  }

  lemma PartialFrame(db: Db, next: Db, h: History, k: Key)
    requires DistinctIds(h.stored) && PartialInv(db, h, k)
    requires next.cutover == db.cutover && db.lastId <= next.lastId && db.metrics <= next.metrics
    requires SameAt(db.buckets, next.buckets, k) && SameAt(db.summaries, next.summaries, k)
    requires SameAt(db.partials, next.partials, k)
    ensures PartialInv(next, h, k)
  {
    if k in db.partials {
      var p := db.partials[k];
      assert Remaining(db, k, p) <= Remaining(next, k, p);
      hide KeyOf, InBatches, Datas, InTime, HasStored, Generation, Remaining;
      GenerationFrame(db, next, h, k, p.through);
      assert Consumed(next, h, k, p) == Consumed(db, h, k, p);
    }
  }

  // ── _advance_bucket ─────────────────────────────────

  /** The tables once `batch` is covered and the generation saved behind its new cursor. */
  ghost function Saved(db: Db, k: Key, batch: set<Row>, moved: Partial): Db {
    db.(coverage := Cover(db.coverage, batch, k, Folded), partials := db.partials[k := moved])
  }

  /** The tables once `batch` is covered and the generation published. */
  ghost function Published(db: Db, k: Key, batch: set<Row>, through: nat, avg: Sample): Db {
    Publish(db.(coverage := Cover(db.coverage, batch, k, Folded), partials := db.partials - {k}), k, avg, through)
  }

  /** What a moved cursor leaves behind it, row by row. */
  ghost predicate Extends(db: Db, k: Key, p: Partial, moved: Partial, batch: set<Row>) {
    && moved.through == p.through
    && batch <= Remaining(db, k, p)
    && (forall m | m in BucketRows(db, k) && m.id <= p.through ::
          !AfterCursor(moved, m) <==> !AfterCursor(p, m) || m in batch)
  }

  /** One row of the bucket being folded, before and after its batch. */
  ghost predicate RowStep(db: Db, next: Db, k: Key, moved: Partial, batch: set<Row>, m: Row)
    requires k in db.partials
  {
    var p, q := db.partials[k], RowKey(m.id, k.res);
    && next.cutover == db.cutover
    && (m in next.metrics <==> m in db.metrics)
    && moved.through == p.through
    && (if m in batch then q in next.coverage && next.coverage[q] == Coverage(k.agent, k.start, Folded)
        else SameAt(db.coverage, next.coverage, q))
    && (m in batch ==> m in db.metrics && Cutover(db) < m.id <= p.through)
    && (m in db.metrics && Cutover(db) < m.id <= p.through ==>
          (!AfterCursor(moved, m) <==> !AfterCursor(p, m) || m in batch))
  }

  lemma SavedOwnRow(db: Db, next: Db, h: History, k: Key, moved: Partial, batch: set<Row>, m: Row)
    requires RowInv(db, h, m, k.res) && KeyOf(m, k.res) == k && k in db.partials
    requires RowStep(db, next, k, moved, batch, m)
    requires SameAt(db.buckets, next.buckets, k) && SameAt(db.summaries, next.summaries, k)
    requires k in next.partials && next.partials[k] == moved
    ensures RowInv(next, h, m, k.res)
  {
    hide KeyOf, AfterCursor;
  }

  lemma PublishedOwnRow(db: Db, next: Db, h: History, k: Key, moved: Partial, batch: set<Row>, m: Row)
    requires RowInv(db, h, m, k.res) && KeyOf(m, k.res) == k && k in db.partials
    requires RowStep(db, next, k, moved, batch, m)
    requires m in db.metrics && Cutover(db) < m.id <= moved.through ==> !AfterCursor(moved, m)
    requires PublishedGen(db, k) < moved.through && Base(db, h, k) < moved.through
    requires k !in next.partials && k in next.summaries
    requires k in next.buckets && next.buckets[k] == Bucket(Open, moved.through)
    ensures RowInv(next, h, m, k.res)
  {
    hide KeyOf, AfterCursor;
  }

  lemma BatchRowStep(db: Db, next: Db, h: History, k: Key, moved: Partial, batch: set<Row>, m: Row)
    requires RowsInv(db, h) && k in db.partials && m in h.stored && KeyOf(m, k.res) == k
    requires Extends(db, k, db.partials[k], moved, batch)
    requires next.cutover == db.cutover && next.metrics == db.metrics
    requires next.coverage == Cover(db.coverage, batch, k, Folded)
    ensures RowStep(db, next, k, moved, batch, m)
  {
    hide KeyOf, AfterCursor, Cover;
    assert batch <= h.stored;
    CoverAt(h.stored, db.coverage, batch, k, Folded, m, k.res);
  }

  lemma SavedRow(db: Db, h: History, k: Key, batch: set<Row>, moved: Partial, m: Row, r: Resolution)
    requires Inv(db, h) && k in db.partials && m in h.stored && RowInv(db, h, m, r)
    requires Extends(db, k, db.partials[k], moved, batch)
    ensures RowInv(Saved(db, k, batch, moved), h, m, r)
  {
    hide AfterCursor, RowInv, KeyOf, BucketInv, PartialInv, RetiredInv, Cover, BucketRows, RowStep;
    var next := Saved(db, k, batch, moved);
    if KeyOf(m, r) == k {
      assert r == k.res by { KeyRes(m, r); }
      BatchRowStep(db, next, h, k, moved, batch, m);
      SavedOwnRow(db, next, h, k, moved, batch, m);
    } else {
      OtherRowCovered(db, h, k, moved, batch, m, r);
      RowFrame(db, next, h, m, r);
    }
  }

  lemma KeyRes(m: Row, r: Resolution)
    ensures KeyOf(m, r).res == r && KeyOf(m, r).agent == m.agent
  {
  }

  lemma OtherRowCovered(db: Db, h: History, k: Key, moved: Partial, batch: set<Row>, m: Row, r: Resolution)
    requires RowsInv(db, h) && k in db.partials && m in h.stored && KeyOf(m, r) != k
    requires Extends(db, k, db.partials[k], moved, batch)
    ensures SameAt(db.coverage, Cover(db.coverage, batch, k, Folded), RowKey(m.id, r))
  {
    hide KeyOf, AfterCursor, Cover;
    CoverAt(h.stored, db.coverage, batch, k, Folded, m, r);
    KeyRes(m, r);
  }

  lemma NothingRemains(db: Db, k: Key, moved: Partial, m: Row)
    requires Remaining(db, k, moved) == {}
    ensures m in db.metrics && KeyOf(m, k.res) == k && Cutover(db) < m.id <= moved.through ==> !AfterCursor(moved, m)
  {
    assert m !in Remaining(db, k, moved);
  }

  lemma PublishedRow(db: Db, h: History, k: Key, batch: set<Row>, moved: Partial, avg: Sample, m: Row, r: Resolution)
    requires Inv(db, h) && k in db.partials && m in h.stored && RowInv(db, h, m, r)
    requires PublishedGen(db, k) < moved.through && Base(db, h, k) < moved.through
    requires Extends(db, k, db.partials[k], moved, batch)
    requires Remaining(db, k, moved) == {}
    ensures RowInv(Published(db, k, batch, moved.through, avg), h, m, r)
  {
    hide RowInv, KeyOf, BucketInv, PartialInv, RetiredInv, Cover, RowStep, AfterCursor, Extends, Remaining, Base;
    var next := Published(db, k, batch, moved.through, avg);
    if KeyOf(m, r) == k {
      assert r == k.res by { KeyRes(m, r); }
      BatchRowStep(db, next, h, k, moved, batch, m);
      NothingRemains(db, k, moved, m);
      PublishedOwnRow(db, next, h, k, moved, batch, m);
    } else {
      OtherRowCovered(db, h, k, moved, batch, m, r);
      RowFrame(db, next, h, m, r);
    }
  }

  lemma SavedKeeps(db: Db, h: History, k: Key, batch: set<Row>, moved: Partial)
    requires Inv(db, h) && k in db.partials
    requires Extends(db, k, db.partials[k], moved, batch)
    requires Remaining(db, k, moved) != {}
    requires moved.n == moved.acc.n && InBatches(Datas(InTime(Consumed(db, h, k, moved))), moved.acc)
    ensures Inv(Saved(db, k, batch, moved), h)
  {
    hide *;
    InvParts(db, h);
    ExtendsThrough(db, k, moved, batch);
    var next := Saved(db, k, batch, moved);
    SavedShape(db, h, k, batch, moved);
    forall m, r | m in h.stored
      ensures RowInv(next, h, m, r)
    {
      SavedRow(db, h, k, batch, moved, m, r);
    }
    forall x
      ensures x in next.buckets ==> BucketInv(next, h, x)
      ensures x in next.partials ==> PartialInv(next, h, x)
      ensures x in h.retired ==> RetiredInv(next, h, x)
    {
      SavedElsewhere(db, h, k, batch, moved, x);
      if x == k {
        SavedPartial(db, h, k, batch, moved);
      }
      if x in h.retired {
        RetiredFrame(db, next, h, x);
      }
    }
    FormsInv(next, h);
  }

  lemma CoverLive(db: Db, rows: set<Row>, k: Key, state: CoverState, q: RowKey)
    requires CoverageLive(db) && rows <= db.metrics
    ensures q in Cover(db.coverage, rows, k, state) ==> q.id in Ids(db.metrics)
  {
    if q in RowKeys(rows, k.res) {
      var m :| m in rows && q == RowKey(m.id, k.res);
    }
  }

  lemma SavedShape(db: Db, h: History, k: Key, batch: set<Row>, moved: Partial)
    requires RowsInv(db, h) && batch <= db.metrics
    ensures var next := Saved(db, k, batch, moved);
            && RowsInv(next, h)
            && next.cutover == db.cutover && next.lastId == db.lastId
  {
    hide Cover, Ids;
    forall q
      ensures q in Cover(db.coverage, batch, k, Folded) ==> q.id in Ids(db.metrics)
    {
      CoverLive(db, batch, k, Folded, q);
    }
  }

  lemma SavedElsewhere(db: Db, h: History, k: Key, batch: set<Row>, moved: Partial, x: Key)
    requires DistinctIds(h.stored) && k in db.partials
    requires x in db.buckets ==> BucketInv(db, h, x)
    requires x in db.partials ==> PartialInv(db, h, x)
    ensures var next := Saved(db, k, batch, moved);
            && (x in next.buckets ==> BucketInv(next, h, x))
            && (x in next.partials && x != k ==> PartialInv(next, h, x))
  {
    hide Cover, BucketInv, PartialInv;
    var next := Saved(db, k, batch, moved);
    if x in db.buckets {
      BucketFrame(db, next, h, x);
    }
    if x in db.partials && x != k {
      PartialFrame(db, next, h, x);
    }
  }

  lemma RetiredFrame(db: Db, next: Db, h: History, k: Key)
    requires RetiredInv(db, h, k) && next.cutover == db.cutover && db.lastId <= next.lastId
    ensures RetiredInv(next, h, k)
  {
  }

  lemma SavedPartial(db: Db, h: History, k: Key, batch: set<Row>, moved: Partial)
    requires DistinctIds(h.stored) && k in db.partials && PartialInv(db, h, k)
    requires Extends(db, k, db.partials[k], moved, batch)
    requires Remaining(db, k, moved) != {}
    requires moved.n == moved.acc.n && InBatches(Datas(InTime(Consumed(db, h, k, moved))), moved.acc)
    ensures PartialInv(Saved(db, k, batch, moved), h, k)
  {
    var next := Saved(db, k, batch, moved);
    assert Remaining(next, k, moved) == Remaining(db, k, moved);
    hide Cover, KeyOf, InBatches, Datas, InTime, HasStored, Generation, Remaining;
    GenerationFrame(db, next, h, k, moved.through);
    assert Consumed(next, h, k, moved) == Consumed(db, h, k, moved);
  }

  lemma PublishedKeeps(db: Db, h: History, k: Key, batch: set<Row>, moved: Partial, avg: Sample)
    requires Inv(db, h) && k in db.partials
    requires Extends(db, k, db.partials[k], moved, batch)
    requires Remaining(db, k, moved) == {}
    requires BatchAverage(Datas(InTime(Generation(db, h, k, moved.through))), avg)
    ensures Inv(Published(db, k, batch, moved.through, avg), h)
  {
    hide *;
    PartialBounds(db, h, k);
    InvParts(db, h);
    ExtendsThrough(db, k, moved, batch);
    var next := Published(db, k, batch, moved.through, avg);
    forall m, r | m in h.stored
      ensures RowInv(next, h, m, r)
    {
      PublishedRow(db, h, k, batch, moved, avg, m, r);
    }
    forall x
      ensures x in next.buckets ==> BucketInv(next, h, x)
      ensures x in next.partials ==> PartialInv(next, h, x)
      ensures x in h.retired ==> RetiredInv(next, h, x)
    {
      if x == k {
        PublishedBucket(db, h, k, batch, moved, avg);
      } else {
        PublishedElsewhere(db, h, k, batch, moved, avg, x);
      }
      PublishedShape(db, h, k, batch, moved, avg);
      if x in h.retired {
        RetiredFrame(db, next, h, x);
      }
    }
    PublishedShape(db, h, k, batch, moved, avg);
    FormsInv(next, h);
  }

  lemma InvParts(db: Db, h: History)
    requires Inv(db, h)
    ensures RowsInv(db, h) && DistinctIds(h.stored)
    ensures forall m, r | m in h.stored :: RowInv(db, h, m, r)
    ensures forall k | k in db.buckets :: BucketInv(db, h, k)
    ensures forall k | k in db.partials :: PartialInv(db, h, k)
    ensures forall k | k in h.retired :: RetiredInv(db, h, k)
  {
  }

  lemma FormsInv(db: Db, h: History)
    requires RowsInv(db, h) && DistinctIds(h.stored)
    requires forall m, r | m in h.stored :: RowInv(db, h, m, r)
    requires forall k | k in db.buckets :: BucketInv(db, h, k)
    requires forall k | k in db.partials :: PartialInv(db, h, k)
    requires forall k | k in h.retired :: RetiredInv(db, h, k)
    ensures Inv(db, h)
  {
  }

  lemma ExtendsThrough(db: Db, k: Key, moved: Partial, batch: set<Row>)
    requires k in db.partials && Extends(db, k, db.partials[k], moved, batch)
    ensures moved.through == db.partials[k].through && batch <= db.metrics
  {
  }

  lemma PublishedShape(db: Db, h: History, k: Key, batch: set<Row>, moved: Partial, avg: Sample)
    requires RowsInv(db, h) && batch <= db.metrics
    ensures var next := Published(db, k, batch, moved.through, avg);
            && RowsInv(next, h) && k !in next.partials
            && next.cutover == db.cutover && next.lastId == db.lastId
  {
    hide Cover, Ids;
    forall q
      ensures q in Cover(db.coverage, batch, k, Folded) ==> q.id in Ids(db.metrics)
    {
      CoverLive(db, batch, k, Folded, q);
    }
  }

  lemma PublishedElsewhere(db: Db, h: History, k: Key, batch: set<Row>, moved: Partial, avg: Sample, x: Key)
    requires DistinctIds(h.stored) && x != k
    requires x in db.buckets ==> BucketInv(db, h, x)
    requires x in db.partials ==> PartialInv(db, h, x)
    ensures var next := Published(db, k, batch, moved.through, avg);
            && (x in next.buckets ==> BucketInv(next, h, x))
            && (x in next.partials ==> PartialInv(next, h, x))
  {
    hide Cover, BucketInv, PartialInv;
    var next := Published(db, k, batch, moved.through, avg);
    if x in db.buckets {
      BucketFrame(db, next, h, x);
    }
    if x in db.partials {
      PartialFrame(db, next, h, x);
    }
  }

  lemma PartialBounds(db: Db, h: History, k: Key)
    requires Inv(db, h) && k in db.partials
    ensures var p := db.partials[k];
            && PublishedGen(db, k) < p.through <= db.lastId && Base(db, h, k) < p.through
            && HasStored(h, k, p.through)
  {
    assert PartialInv(db, h, k);
  }

  lemma PublishedBucket(db: Db, h: History, k: Key, batch: set<Row>, moved: Partial, avg: Sample)
    requires DistinctIds(h.stored)
    requires PublishedGen(db, k) < moved.through <= db.lastId && Base(db, h, k) < moved.through
    requires HasStored(h, k, moved.through)
    requires BatchAverage(Datas(InTime(Generation(db, h, k, moved.through))), avg)
    ensures BucketInv(Published(db, k, batch, moved.through, avg), h, k)
  {
    hide Cover, BatchAverage, Datas, InTime, HasStored, Generation, Swept;
    GenerationFrame(db, Published(db, k, batch, moved.through, avg), h, k, moved.through);
  }

  /** One bounded advance of an in-flight generation. */
  lemma FoldBatchKeeps(db: Db, h: History, k: Key, budget: nat)
    requires Inv(db, h) && k in db.partials && budget > 0 && DistinctIds(db.metrics)
    ensures var a := FoldBatch(db, k, db.partials[k], budget);
            a.Advanced? ==> Inv(a.db, h) && a.used > 0
  {
    var p := db.partials[k];
    PartialFacts(db, h, k);
    CursorMoves(db, k, p, budget, p.acc);
    var batch := First(Earlier, Remaining(db, k, p), budget);
    hide *;
    RowsDistinct(db, h);
    match Fold(p.acc, Datas(batch)) {
      case None => FoldBatchRaises(db, k, p, budget);
      case Some(acc) =>
        var moved := MoveCursor(p, batch, acc);
        CursorMoves(db, k, p, budget, acc);
        CursorKeepsThrough(p, batch, acc);
        AccumulatorIsFold(db, h, k, budget, acc);
        ConsumedGrows(db, h, k, budget, acc);
        MakesExtends(db, k, p, moved, Elements(batch));
        if Remaining(db, k, moved) != {} {
          ReadBackExtends(db, k, p, moved, Elements(batch));
          ReadBackFolds(db, h, k, moved);
          SavedKeeps(db, h, k, Elements(batch), ReadBack(moved));
          FoldBatchSaves(db, k, p, budget, acc);
        } else {
          Finalizes(p.acc, Datas(batch), acc);
          PublishedKeeps(db, h, k, Elements(batch), moved, AggFinalize(acc).value);
          PartialBounds(db, h, k);
          FoldBatchPublishes(db, k, p, budget, acc);
        }
    }
  }

  /** Saving a cursor and reading it back changes nothing but how its containers are keyed. */
  lemma ReadBackExtends(db: Db, k: Key, p: Partial, moved: Partial, batch: set<Row>)
    requires Extends(db, k, p, moved, batch)
    ensures Extends(db, k, p, ReadBack(moved), batch) && Remaining(db, k, ReadBack(moved)) == Remaining(db, k, moved)
  {
    hide BucketRows, Reload;
  }

  lemma ReadBackFolds(db: Db, h: History, k: Key, moved: Partial)
    requires DistinctIds(h.stored)
    requires moved.n == moved.acc.n && InBatches(Datas(InTime(Consumed(db, h, k, moved))), moved.acc)
    ensures var saved := ReadBack(moved);
            saved.n == saved.acc.n && InBatches(Datas(InTime(Consumed(db, h, k, saved))), saved.acc)
  {
    assert Consumed(db, h, k, moved) <= h.stored;
    hide InBatches, Datas, InTime, Generation, KeyOf;
    BatchIsSaved(Datas(InTime(Consumed(db, h, k, moved))), moved.acc);
    hide Reload;
    assert Consumed(db, h, k, ReadBack(moved)) == Consumed(db, h, k, moved);
  }

  lemma MakesExtends(db: Db, k: Key, p: Partial, moved: Partial, batch: set<Row>)
    requires moved.through == p.through && batch <= Remaining(db, k, p)
    requires forall m | m in BucketRows(db, k) && m.id <= p.through ::
               !AfterCursor(moved, m) <==> !AfterCursor(p, m) || m in batch
    ensures Extends(db, k, p, moved, batch)
  {
    hide BucketRows, AfterCursor, Remaining;
  }

  lemma DatasLength(q: seq<Row>)
    ensures |Datas(q)| == |q|
  {
  }

  /** A generation that folded at least one row has something to publish. */
  lemma Finalizes(acc: Acc, entries: seq<Sample>, done: Acc)
    requires entries != [] && Fold(acc, entries) == Some(done)
    ensures AggFinalize(done).Some?
  {
    FoldCounts(acc, entries);
  }

  lemma FoldBatchRaises(db: Db, k: Key, p: Partial, budget: nat)
    requires DistinctIds(db.metrics) && StrictTotal(Earlier, Remaining(db, k, p))
    requires Fold(p.acc, Datas(First(Earlier, Remaining(db, k, p), budget))) == None
    ensures FoldBatch(db, k, p, budget) == Raised
  {
    hide Fold, First, Remaining, Datas;
  }

  lemma FoldBatchSaves(db: Db, k: Key, p: Partial, budget: nat, acc: Acc)
    requires DistinctIds(db.metrics) && StrictTotal(Earlier, Remaining(db, k, p))
    requires Fold(p.acc, Datas(First(Earlier, Remaining(db, k, p), budget))) == Some(acc)
    requires Remaining(db, k, MoveCursor(p, First(Earlier, Remaining(db, k, p), budget), acc)) != {}
    ensures var batch := First(Earlier, Remaining(db, k, p), budget);
            FoldBatch(db, k, p, budget) ==
            Advanced(Saved(db, k, Elements(batch), ReadBack(MoveCursor(p, batch, acc))), |batch|, false)
  {
    hide Fold, First, Remaining, Datas, MoveCursor, Cover;
  }

  lemma FoldBatchPublishes(db: Db, k: Key, p: Partial, budget: nat, acc: Acc)
    requires DistinctIds(db.metrics) && StrictTotal(Earlier, Remaining(db, k, p))
    requires Fold(p.acc, Datas(First(Earlier, Remaining(db, k, p), budget))) == Some(acc)
    requires Remaining(db, k, MoveCursor(p, First(Earlier, Remaining(db, k, p), budget), acc)) == {}
    requires AggFinalize(acc).Some?
    ensures var batch := First(Earlier, Remaining(db, k, p), budget);
            FoldBatch(db, k, p, budget) ==
            Advanced(Published(db, k, Elements(batch), p.through, AggFinalize(acc).value), |batch|, true)
  {
    hide Fold, First, Remaining, Datas, MoveCursor, Cover, AggFinalize;
  }
}
