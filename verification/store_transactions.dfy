/** The transactions built from those steps, and what each of them keeps. */
module StoreTransactions {
  import opened Wrappers
  import opened Ordering
  import opened Samples
  import opened Batches
  import opened StoreModel
  import opened StoreInvariant
  import opened StoreSteps

  // ── starting a generation ───────────────────────────

  ghost function Started(db: Db, k: Key): Db
    requires BucketRows(db, k) != {}
  {
    db.(partials := db.partials[k := NewGeneration(db, k)])
  }

  /** A row that still needs work is above everything its bucket has published. */
  lemma OutstandingIsNew(db: Db, h: History, k: Key)
    requires Inv(db, h) && k !in db.partials && Outstanding(db, k)
    ensures BucketRows(db, k) != {}
    ensures PublishedGen(db, k) < MaxId(BucketRows(db, k)) <= db.lastId
    ensures Base(db, h, k) < MaxId(BucketRows(db, k))
    ensures HasStored(h, k, MaxId(BucketRows(db, k)))
    ensures k.start % Seconds(k.res) == 0
    ensures exists m | m in BucketRows(db, k) :: RowKey(m.id, k.res) !in db.coverage
  {
    var m :| m in BucketRows(db, k) &&
             (RowKey(m.id, k.res) !in db.coverage ||
              (IsFolded(db, RowKey(m.id, k.res)) && PublishedGen(db, k) < m.id));
    assert RowInv(db, h, m, k.res);
    hide RowInv, BucketInv, PartialInv, RetiredInv;
    var top := MaxId(BucketRows(db, k));
    var high :| high in BucketRows(db, k) && high.id == top;
    KeyAligned(m, k.res);
  }

  lemma KeyAligned(m: Row, r: Resolution)
    ensures KeyOf(m, r).start % Seconds(r) == 0
    ensures KeyOf(m, r).start as real <= m.ts
  {
  }

  lemma StartedOwnRow(db: Db, next: Db, h: History, k: Key, m: Row)
    requires RowInv(db, h, m, k.res) && KeyOf(m, k.res) == k && k !in db.partials && k in next.partials
    requires next.cutover == db.cutover && next.metrics == db.metrics && next.coverage == db.coverage
    requires SameAt(db.buckets, next.buckets, k) && SameAt(db.summaries, next.summaries, k)
    requires k in db.buckets ==> db.buckets[k].state == Open
    requires Cutover(db) < m.id
    requires m in db.metrics ==> m.id <= next.partials[k].through && AfterCursor(next.partials[k], m)
    ensures RowInv(next, h, m, k.res)
  {
    hide KeyOf, AfterCursor;
  }

  lemma StartedRow(db: Db, h: History, k: Key, m: Row, r: Resolution)
    requires Inv(db, h) && k !in db.partials && Outstanding(db, k) && Provable(db, k)
    requires BucketRows(db, k) != {} && m in h.stored && RowInv(db, h, m, r)
    ensures RowInv(Started(db, k), h, m, r)
  {
    hide KeyOf, RowInv, BucketInv, PartialInv, RetiredInv, BucketRows, Outstanding, MaxId, Started;
    var next := Started(db, k);
    StartedShape(db, h, k);
    if KeyOf(m, r) != k {
      hide Provable;
      StartedElsewhere(db, k, KeyOf(m, r));
      RowFrame(db, next, h, m, r);
    } else {
      KeyRes(m, r);
      KeyAligned(m, r);
      InBucketRows(db, k, m);
      assert Cutover(db) < m.id;
      StartedOwnRow(db, next, h, k, m);
    }
  }

  lemma InBucketRows(db: Db, k: Key, m: Row)
    requires BucketRows(db, k) != {} && KeyOf(m, k.res) == k
    ensures m in db.metrics && Cutover(db) < m.id ==> m in BucketRows(db, k) && m.id <= MaxId(BucketRows(db, k))
  {
  }

  lemma StartedElsewhere(db: Db, k: Key, x: Key)
    requires BucketRows(db, k) != {} && x != k
    ensures SameAt(db.partials, Started(db, k).partials, x)
  {
  }

  lemma StartedPartial(db: Db, h: History, k: Key)
    requires Inv(db, h) && k !in db.partials && Outstanding(db, k) && Provable(db, k)
    requires BucketRows(db, k) != {} && DistinctIds(h.stored)
    ensures PartialInv(Started(db, k), h, k)
  {
    hide *;
    OutstandingIsNew(db, h, k);
    StartedRemaining(db, k);
    StartedConsumes(Started(db, k), h, k, NewGeneration(db, k)) by { NewGenerationIs(db, k); }
    NewGenerationIs(db, k);
    StartedPartialInv(db, h, k);
  }

  lemma NewGenerationIs(db: Db, k: Key)
    requires BucketRows(db, k) != {}
    ensures NewGeneration(db, k) == Partial(0, k.start as real - 1.0, 0, MaxId(BucketRows(db, k)), NEW_ACC)
  {
  }

  lemma StartedRemaining(db: Db, k: Key)
    requires BucketRows(db, k) != {}
    ensures Remaining(Started(db, k), k, NewGeneration(db, k)) != {}
  {
    var p := NewGeneration(db, k);
    var top :| top in BucketRows(db, k) && top.id == p.through;
    KeyAligned(top, k.res);
    assert top in Remaining(Started(db, k), k, p);
  }

  lemma StartedPartialInv(db: Db, h: History, k: Key)
    requires DistinctIds(h.stored) && k !in db.partials && Provable(db, k) && BucketRows(db, k) != {}
    requires k.start % Seconds(k.res) == 0
    requires PublishedGen(db, k) < MaxId(BucketRows(db, k)) <= db.lastId && Base(db, h, k) < MaxId(BucketRows(db, k))
    requires HasStored(h, k, MaxId(BucketRows(db, k)))
    requires Remaining(Started(db, k), k, NewGeneration(db, k)) != {}
    requires InBatches(Datas(InTime(Consumed(Started(db, k), h, k, NewGeneration(db, k)))), NEW_ACC)
    ensures PartialInv(Started(db, k), h, k)
  {
    hide HasStored, Remaining, InBatches, Datas, InTime, Consumed, BucketRows, MaxId, HasLegacy;
  }

  lemma StartedConsumes(db: Db, h: History, k: Key, p: Partial)
    requires DistinctIds(h.stored) && p.lastTs == k.start as real - 1.0
    ensures Consumed(db, h, k, p) == {}
    ensures InBatches(Datas(InTime(Consumed(db, h, k, p))), NEW_ACC)
  {
    forall m | m in Generation(db, h, k, p.through)
      ensures AfterCursor(p, m)
    {
      KeyAligned(m, k.res);
    }
    assert Consumed(db, h, k, p) == {};
    NothingFolded();
  }

  lemma StartKeeps(db: Db, h: History, k: Key)
    requires Inv(db, h) && k !in db.partials && Outstanding(db, k) && Provable(db, k)
    requires BucketRows(db, k) != {}
    ensures Inv(Started(db, k), h)
  {
    hide *;
    InvParts(db, h);
    var next := Started(db, k);
    StartedShape(db, h, k);
    forall m, r | m in h.stored
      ensures RowInv(next, h, m, r)
    {
      StartedRow(db, h, k, m, r);
    }
    forall x | x in next.buckets
      ensures BucketInv(next, h, x)
    {
      BucketFrame(db, next, h, x);
    }
    forall x | x in next.partials
      ensures PartialInv(next, h, x)
    {
      if x == k {
        StartedPartial(db, h, k);
      } else {
        StartedElsewhere(db, k, x);
        SameMembers(db.partials, next.partials, x);
        PartialFrame(db, next, h, x);
      }
    }
    forall x | x in h.retired
      ensures RetiredInv(next, h, x)
    {
      RetiredFrame(db, next, h, x);
    }
    FormsInv(next, h);
  }

  lemma SameMembers<K, V>(a: map<K, V>, b: map<K, V>, x: K)
    requires SameAt(a, b, x)
    ensures x in a <==> x in b
  {
  }

  lemma StartedShape(db: Db, h: History, k: Key)
    requires RowsInv(db, h) && BucketRows(db, k) != {}
    ensures var next := Started(db, k);
            && RowsInv(next, h) && next.cutover == db.cutover && next.lastId == db.lastId
            && next.metrics == db.metrics && next.buckets == db.buckets && next.summaries == db.summaries
            && next.coverage == db.coverage && next.progress == db.progress
            && k in next.partials && next.partials[k] == NewGeneration(db, k)
            && (forall x :: SameAt(db.buckets, next.buckets, x) && SameAt(db.summaries, next.summaries, x))
  {
  }

  /** Starting a generation and folding its first batch happen in one step. */
  lemma FirstBatch(db: Db, k: Key, budget: nat)
    requires DistinctIds(db.metrics) && BucketRows(db, k) != {} && k !in db.partials
    ensures FoldBatch(db, k, NewGeneration(db, k), budget) ==
            FoldBatch(Started(db, k), k, NewGeneration(db, k), budget)
  {
    hide Remaining, BucketRows, NewGeneration, FoldBatch;
    FoldsAlike(db, k, NewGeneration(db, k), budget);
  }

  lemma FoldsAlike(db: Db, k: Key, p: Partial, budget: nat)
    requires DistinctIds(db.metrics) && k !in db.partials
    ensures FoldBatch(db, k, p, budget) == FoldBatch(db.(partials := db.partials[k := p]), k, p, budget)
  {
    hide Remaining, First, Fold, Datas, MoveCursor, Cover, AggFinalize, Elements, DistinctIds;
    var next := db.(partials := db.partials[k := p]);
    assert next.partials - {k} == db.partials - {k};
    forall x
      ensures Remaining(next, k, x) == Remaining(db, k, x)
    {
      SameRemaining(db, next, k, x);
    }
  }

  lemma SameRemaining(db: Db, next: Db, k: Key, p: Partial)
    requires next.metrics == db.metrics && next.cutover == db.cutover
    ensures Remaining(next, k, p) == Remaining(db, k, p)
  {
  }

  // ── keeping rows a bucket cannot average ────────────

  ghost function Marked(db: Db, k: Key, rows: set<Row>): Db {
    db.(coverage := Cover(db.coverage, rows, k, Pending))
  }

  lemma MarkedOwnRow(db: Db, next: Db, h: History, k: Key, m: Row)
    requires RowInv(db, h, m, k.res) && KeyOf(m, k.res) == k && k !in db.partials
    requires next == db.(coverage := next.coverage)
    requires RowKey(m.id, k.res) !in db.coverage
    requires RowKey(m.id, k.res) in next.coverage
    requires next.coverage[RowKey(m.id, k.res)] == Coverage(k.agent, k.start, Pending)
    requires k in db.buckets ==> db.buckets[k].state == Sealed
    ensures RowInv(next, h, m, k.res)
  {
    hide KeyOf;
  }

  lemma MarkedRow(db: Db, h: History, k: Key, rows: set<Row>, m: Row, r: Resolution)
    requires RowsInv(db, h) && m in h.stored && RowInv(db, h, m, r)
    requires rows <= Undecided(db, k) && k !in db.partials
    requires k in db.buckets ==> db.buckets[k].state == Sealed
    ensures RowInv(Marked(db, k, rows), h, m, r)
  {
    hide KeyOf, Cover, CoverageLive, RowInv;
    CoverAt(h.stored, db.coverage, rows, k, Pending, m, r);
    if m in rows && r == k.res {
      MarkedOwnRow(db, Marked(db, k, rows), h, k, m);
    } else {
      RowFrame(db, Marked(db, k, rows), h, m, r);
    }
  }

  /** A bucket that is not provable and not in flight has published nothing that is still open. */
  lemma UnprovableIsClosed(db: Db, h: History, k: Key)
    requires Inv(db, h) && !Provable(db, k)
    ensures k in db.buckets ==> db.buckets[k].state == Sealed
  {
    if HasLegacy(db, k) {
      var m :| m in db.metrics && KeyOf(m, k.res) == k && m.id <= Cutover(db);
      assert RowInv(db, h, m, k.res);
    }
  }

  lemma MarkKeeps(db: Db, h: History, k: Key, rows: set<Row>)
    requires Inv(db, h) && !Provable(db, k) && k !in db.partials && rows <= Undecided(db, k)
    ensures Inv(Marked(db, k, rows), h)
  {
    hide *;
    InvParts(db, h);
    UnprovableIsClosed(db, h, k);
    var next := Marked(db, k, rows);
    MarkedShape(db, h, k, rows);
    forall m, r | m in h.stored
      ensures RowInv(next, h, m, r)
    {
      MarkedRow(db, h, k, rows, m, r);
    }
    forall x | x in next.buckets
      ensures BucketInv(next, h, x)
    {
      BucketFrame(db, next, h, x);
    }
    forall x | x in next.partials
      ensures PartialInv(next, h, x)
    {
      PartialFrame(db, next, h, x);
    }
    forall x | x in h.retired
      ensures RetiredInv(next, h, x)
    {
      RetiredFrame(db, next, h, x);
    }
    FormsInv(next, h);
  }

  lemma MarkedShape(db: Db, h: History, k: Key, rows: set<Row>)
    requires RowsInv(db, h) && rows <= Undecided(db, k)
    ensures var next := Marked(db, k, rows);
            && RowsInv(next, h) && next.cutover == db.cutover && next.lastId == db.lastId
            && next.metrics == db.metrics && next.buckets == db.buckets && next.partials == db.partials
            && (forall x :: SameAt(db.buckets, next.buckets, x) && SameAt(db.summaries, next.summaries, x)
                            && SameAt(db.partials, next.partials, x))
  {
    hide Cover, Ids;
    assert rows <= db.metrics;
    forall q
      ensures q in Cover(db.coverage, rows, k, Pending) ==> q.id in Ids(db.metrics)
    {
      CoverLive(db, rows, k, Pending, q);
    }
  }

  // ── _advance_bucket ─────────────────────────────────

  /** Advancing any bucket by any budget keeps the invariant; with work to do it does some. */
  lemma AdvanceKeeps(db: Db, h: History, k: Key, budget: nat)
    requires Inv(db, h) && budget > 0 && DistinctIds(db.metrics)
    ensures var a := AdvanceBucket(db, k, budget);
            a.Advanced? ==> Inv(a.db, h) && (k in db.partials || Outstanding(db, k) ==> a.used > 0)
  {
    hide *;
    if k in db.partials {
      FoldBatchKeeps(db, h, k, budget);
      AdvanceCases(db, k, budget);
    } else if Outstanding(db, k) {
      OutstandingIsNew(db, h, k);
      if Provable(db, k) {
        StartKeeps(db, h, k);
        StartedShape(db, h, k) by { InvParts(db, h); }
        FoldBatchKeeps(Started(db, k), h, k, budget);
        FirstBatch(db, k, budget);
      } else {
        UndecidedTotal(db, k);
        MarkKeeps(db, h, k, Elements(First(Older, Undecided(db, k), budget)));
        MarkPendingIs(db, k, budget);
      }
      AdvanceCases(db, k, budget);
    } else {
      AdvanceCases(db, k, budget);
    }
  }

  lemma UndecidedTotal(db: Db, k: Key)
    requires DistinctIds(db.metrics)
    ensures StrictTotal(Older, Undecided(db, k))
  {
  }

  lemma MarkPendingIs(db: Db, k: Key, budget: nat)
    requires DistinctIds(db.metrics) && budget > 0
    requires exists m | m in BucketRows(db, k) :: RowKey(m.id, k.res) !in db.coverage
    requires StrictTotal(Older, Undecided(db, k))
    ensures var marked := First(Older, Undecided(db, k), budget);
            && MarkPending(db, k, budget) == Advanced(Marked(db, k, Elements(marked)), |marked|, false)
            && |marked| > 0
  {
    hide BucketRows, Cover;
    var m :| m in BucketRows(db, k) && RowKey(m.id, k.res) !in db.coverage;
    assert m in Undecided(db, k);
    assert |Undecided(db, k)| != 0;
  }

  lemma AdvanceCases(db: Db, k: Key, budget: nat)
    requires DistinctIds(db.metrics)
    ensures k in db.partials ==> AdvanceBucket(db, k, budget) == FoldBatch(db, k, db.partials[k], budget)
    ensures k !in db.partials && !Outstanding(db, k) ==> AdvanceBucket(db, k, budget) == Advanced(db, 0, false)
    ensures k !in db.partials && Outstanding(db, k) && !Provable(db, k) ==>
              AdvanceBucket(db, k, budget) == MarkPending(db, k, budget)
    ensures k !in db.partials && Outstanding(db, k) && Provable(db, k) ==>
              BucketRows(db, k) != {} &&
              AdvanceBucket(db, k, budget) == FoldBatch(db, k, NewGeneration(db, k), budget)
  {
    hide FoldBatch, MarkPending, Provable;
  }

  // ── what an advance leaves alone ────────────────────

  /** Raw rows, floors, cutover and the other resolution stay; coverage only grows. */
  ghost predicate OnlyCovers(db: Db, next: Db, r: Resolution) {
    && next.cutover == db.cutover && next.lastId == db.lastId
    && next.metrics == db.metrics && next.progress == db.progress
    && db.coverage.Keys <= next.coverage.Keys
    && (forall q | q in next.coverage :: q in db.coverage || (q.res == r && q.id in Ids(db.metrics)))
    && (forall q: RowKey | q.res != r :: SameAt(db.coverage, next.coverage, q))
    && (forall k: Key | k.res != r :: SameAt(db.buckets, next.buckets, k) && SameAt(db.partials, next.partials, k)
                                 && SameAt(db.summaries, next.summaries, k))
  }

  /** A sealed bucket stays sealed, and its summary stays what it was. */
  ghost predicate SealsKept(db: Db, next: Db) {
    forall k | k in db.buckets && db.buckets[k].state == Sealed ::
      && SameAt(db.buckets, next.buckets, k)
      && SameAt(db.summaries, next.summaries, k)
  }

  lemma CoverOnly(db: Db, rows: set<Row>, k: Key, state: CoverState, next: Db)
    requires rows <= db.metrics
    requires next == db.(coverage := Cover(db.coverage, rows, k, state), partials := next.partials,
                         buckets := next.buckets, summaries := next.summaries)
    requires forall x | x != k :: SameAt(db.buckets, next.buckets, x) && SameAt(db.partials, next.partials, x)
                                  && SameAt(db.summaries, next.summaries, x)
    ensures OnlyCovers(db, next, k.res)
  {
    forall q | q in next.coverage
      ensures q in db.coverage || (q.res == k.res && q.id in Ids(db.metrics))
    {
      if q !in db.coverage {
        assert q in RowKeys(rows, k.res);
      }
    }
  }

  lemma FoldOnlyCovers(db: Db, h: History, k: Key, p: Partial, budget: nat)
    requires DistinctIds(db.metrics)
    ensures var a := FoldBatch(db, k, p, budget);
            a.Advanced? ==> OnlyCovers(db, a.db, k.res) && (forall x | x != k :: SameAt(db.buckets, a.db.buckets, x)
                                                                       && SameAt(db.summaries, a.db.summaries, x))
  {
    hide *;
    RemainingTotal(db, k, p);
    var batch := First(Earlier, Remaining(db, k, p), budget);
    var a := FoldBatch(db, k, p, budget);
    FoldBatchShape(db, k, p, budget);
    if a.Advanced? {
      forall x | x != k
        ensures SameAt(db.buckets, a.db.buckets, x) && SameAt(db.partials, a.db.partials, x)
                && SameAt(db.summaries, a.db.summaries, x)
      {
        ElsewhereSameIs(db, a, x);
      }
      CoverOnly(db, Elements(batch), k, Folded, a.db);
    }
  }

  lemma FoldBatchShape(db: Db, k: Key, p: Partial, budget: nat)
    requires DistinctIds(db.metrics) && StrictTotal(Earlier, Remaining(db, k, p))
    ensures var rows := Elements(First(Earlier, Remaining(db, k, p), budget));
            var a := FoldBatch(db, k, p, budget);
            && (a.Advanced? ==>
                  a.db == db.(coverage := Cover(db.coverage, rows, k, Folded), partials := a.db.partials,
                              buckets := a.db.buckets, summaries := a.db.summaries))
            && forall x | x != k :: ElsewhereSame(db, a, x)
  {
    forall x | x != k
      ensures ElsewhereSame(db, FoldBatch(db, k, p, budget), x)
    {
      FoldBatchElsewhere(db, k, p, budget, x);
    }
    FoldBatchCovers(db, k, p, budget);
    hide *;
  }

  lemma FoldBatchCovers(db: Db, k: Key, p: Partial, budget: nat)
    requires DistinctIds(db.metrics) && StrictTotal(Earlier, Remaining(db, k, p))
    ensures var rows := Elements(First(Earlier, Remaining(db, k, p), budget));
            var a := FoldBatch(db, k, p, budget);
            a.Advanced? ==>
              a.db == db.(coverage := Cover(db.coverage, rows, k, Folded), partials := a.db.partials,
                          buckets := a.db.buckets, summaries := a.db.summaries)
  {
    hide First, Fold, Datas, MoveCursor, Cover, AggFinalize, Remaining, Elements, DistinctIds, StrictTotal;
  }

  ghost predicate ElsewhereSame(db: Db, a: Advance, x: Key) {
    a.Advanced? ==> SameAt(db.buckets, a.db.buckets, x) && SameAt(db.partials, a.db.partials, x)
                    && SameAt(db.summaries, a.db.summaries, x)
  }

  lemma ElsewhereSameIs(db: Db, a: Advance, x: Key)
    requires a.Advanced? && ElsewhereSame(db, a, x)
    ensures SameAt(db.buckets, a.db.buckets, x) && SameAt(db.partials, a.db.partials, x)
            && SameAt(db.summaries, a.db.summaries, x)
  {
    hide SameAt;
  }

  lemma FoldBatchElsewhere(db: Db, k: Key, p: Partial, budget: nat, x: Key)
    requires DistinctIds(db.metrics) && x != k
    ensures ElsewhereSame(db, FoldBatch(db, k, p, budget), x)
  {
    hide First, Fold, Datas, MoveCursor, Cover, AggFinalize, Remaining, Elements, DistinctIds, StrictTotal, NextBatch, Reload;
  }

  lemma RemainingTotal(db: Db, k: Key, p: Partial)
    requires DistinctIds(db.metrics)
    ensures StrictTotal(Earlier, Remaining(db, k, p)) && Remaining(db, k, p) <= db.metrics
  {
  }

  lemma AdvanceOnlyCovers(db: Db, h: History, k: Key, budget: nat)
    requires Inv(db, h) && budget > 0 && DistinctIds(db.metrics)
    ensures var a := AdvanceBucket(db, k, budget);
            a.Advanced? ==> OnlyCovers(db, a.db, k.res) && SealsKept(db, a.db)
  {
    hide *;
    AdvanceCases(db, k, budget);
    if k in db.partials {
      FoldOnlyCovers(db, h, k, db.partials[k], budget);
      InFlightIsOpen(db, h, k);
      KeepsOtherSeals(db, k, AdvanceBucket(db, k, budget));
    } else if !Outstanding(db, k) {
      OnlyCoversSelf(db, k.res);
    } else if Provable(db, k) {
      FoldOnlyCovers(db, h, k, NewGeneration(db, k), budget);
      InFlightIsOpen(db, h, k);
      KeepsOtherSeals(db, k, AdvanceBucket(db, k, budget));
    } else {
      UndecidedTotal(db, k);
      OutstandingIsNew(db, h, k);
      MarkPendingIs(db, k, budget);
      MarkedOnlyCovers(db, k, Elements(First(Older, Undecided(db, k), budget)));
    }
  }

  lemma InFlightIsOpen(db: Db, h: History, k: Key)
    requires Inv(db, h)
    ensures k in db.partials || Provable(db, k) ==> (k in db.buckets ==> db.buckets[k].state == Open)
  {
    assert k in db.partials ==> PartialInv(db, h, k);
  }

  lemma KeepsOtherSeals(db: Db, k: Key, a: Advance)
    requires k in db.buckets ==> db.buckets[k].state == Open
    requires a.Advanced? ==> forall x | x != k :: SameAt(db.buckets, a.db.buckets, x)
                                                  && SameAt(db.summaries, a.db.summaries, x)
    ensures a.Advanced? ==> SealsKept(db, a.db)
  {
  }

  lemma OnlyCoversSelf(db: Db, r: Resolution)
    ensures OnlyCovers(db, db, r) && SealsKept(db, db)
  {
  }

  lemma MarkedOnlyCovers(db: Db, k: Key, rows: set<Row>)
    requires rows <= Undecided(db, k)
    ensures OnlyCovers(db, Marked(db, k, rows), k.res) && SealsKept(db, Marked(db, k, rows))
  {
    hide Cover, OnlyCovers;
    CoverOnly(db, rows, k, Pending, Marked(db, k, rows));
  }

  lemma OnlyCoversChain(db: Db, mid: Db, next: Db, r: Resolution)
    requires OnlyCovers(db, mid, r) && OnlyCovers(mid, next, r)
    requires SealsKept(db, mid) && SealsKept(mid, next)
    ensures OnlyCovers(db, next, r) && SealsKept(db, next)
  {
    forall k: Key | k.res != r
      ensures SameAt(db.buckets, next.buckets, k) && SameAt(db.partials, next.partials, k)
              && SameAt(db.summaries, next.summaries, k)
    {
      assert SameAt(db.buckets, mid.buckets, k) && SameAt(mid.buckets, next.buckets, k);
    }
    forall q: RowKey | q.res != r
      ensures SameAt(db.coverage, next.coverage, q)
    {
      assert SameAt(db.coverage, mid.coverage, q) && SameAt(mid.coverage, next.coverage, q);
    }
    forall k | k in db.buckets && db.buckets[k].state == Sealed
      ensures SameAt(db.buckets, next.buckets, k) && SameAt(db.summaries, next.summaries, k)
    {
      assert SameAt(db.buckets, mid.buckets, k) && SameAt(mid.buckets, next.buckets, k);
    }
  }

  /** A whole pass over any buckets of one resolution. */
  lemma {:induction false} PassKeeps(db: Db, h: History, r: Resolution, keys: seq<Key>, budget: nat)
    requires Inv(db, h) && DistinctIds(db.metrics)
    requires forall k | k in keys :: k.res == r
    ensures var p := AdvanceAll(db, keys, budget);
            p.Passed? ==> Inv(p.db, h) && OnlyCovers(db, p.db, r) && SealsKept(db, p.db)
    decreases |keys|
  {
    hide *;
    AdvanceAllCases(db, keys, budget);
    OnlyCoversSelf(db, r);
    if keys != [] && budget != 0 {
      AdvanceKeeps(db, h, keys[0], budget);
      AdvanceOnlyCovers(db, h, keys[0], budget);
      var a := AdvanceBucket(db, keys[0], budget);
      if a.Advanced? {
        PassKeeps(a.db, h, r, keys[1..], budget - a.used);
        var rest := AdvanceAll(a.db, keys[1..], budget - a.used);
        if rest.Passed? {
          OnlyCoversChain(db, a.db, rest.db, r);
        }
      }
    }
  }

  lemma AdvanceAllCases(db: Db, keys: seq<Key>, budget: nat)
    requires DistinctIds(db.metrics)
    ensures keys == [] || budget == 0 ==> AdvanceAll(db, keys, budget) == Passed(db, budget, 0)
    ensures keys != [] && budget != 0 ==>
              (match AdvanceBucket(db, keys[0], budget)
               case Raised => AdvanceAll(db, keys, budget) == PassRaised
               case Advanced(next, used, published) =>
                 DistinctIds(next.metrics) && used <= budget &&
                 (match AdvanceAll(next, keys[1..], budget - used)
                  case PassRaised => AdvanceAll(db, keys, budget) == PassRaised
                  case Passed(last, left, count) =>
                    AdvanceAll(db, keys, budget) == Passed(last, left, count + if published then 1 else 0)))
  {
    hide AdvanceBucket;
  }

  // ── downsample_metrics ──────────────────────────────

  lemma ProgressKeeps(db: Db, h: History, progress: map<FloorKey, nat>)
    requires Inv(db, h)
    ensures Inv(db.(progress := progress), h)
  {
    hide *;
    InvParts(db, h);
    var next := db.(progress := progress);
    ProgressShape(db, h, progress);
    forall m, r | m in h.stored
      ensures RowInv(next, h, m, r)
    {
      ProgressSame(db, progress, KeyOf(m, r), RowKey(m.id, r));
      RowFrame(db, next, h, m, r);
    }
    forall x | x in next.buckets
      ensures BucketInv(next, h, x)
    {
      ProgressSame(db, progress, x, RowKey(0, x.res));
      BucketFrame(db, next, h, x);
    }
    forall x | x in next.partials
      ensures PartialInv(next, h, x)
    {
      ProgressSame(db, progress, x, RowKey(0, x.res));
      PartialFrame(db, next, h, x);
    }
    forall x | x in h.retired
      ensures RetiredInv(next, h, x)
    {
      RetiredFrame(db, next, h, x);
    }
    FormsInv(next, h);
  }

  lemma ProgressSame(db: Db, progress: map<FloorKey, nat>, k: Key, q: RowKey)
    ensures var next := db.(progress := progress);
            && SameAt(db.buckets, next.buckets, k) && SameAt(db.partials, next.partials, k)
            && SameAt(db.summaries, next.summaries, k) && SameAt(db.coverage, next.coverage, q)
  {
  }

  lemma ProgressShape(db: Db, h: History, progress: map<FloorKey, nat>)
    requires RowsInv(db, h)
    ensures RowsInv(db.(progress := progress), h)
  {
  }

  lemma RaiseFloorsIs(db: Db, candidates: set<Row>, r: Resolution, due: real)
    ensures RaiseFloors(db, candidates, r, due) ==
            db.(progress := RaiseFloors(db, candidates, r, due).progress)
  {
  }

  /** Everything a downsample changes besides the progress floor. */
  ghost predicate OnlyDownsamples(db: Db, next: Db, r: Resolution) {
    OnlyCovers(db, next.(progress := db.progress), r) && SealsKept(db, next)
  }

  lemma DownsampleKeeps(db: Db, h: History, r: Resolution, now: real, batchLimit: int)
    requires Inv(db, h) && DistinctIds(db.metrics)
    ensures var done := Downsample(db, r, now, batchLimit);
            && Inv(done.db, h)
            && OnlyDownsamples(db, done.db, r)
  {
    hide *;
    DownsampleCases(db, r, now, batchLimit);
    OnlyDownsamplesSelf(db, r);
    var budget, due := Budget(batchLimit), DueCutoff(now, r);
    if db.cutover.Some? {
      PassKeeps(db, h, r, InFlight(db, r, budget), budget);
      PassIs(db, r, due, budget, [], 0);
      var first := FirstPass(db, r, budget);
      if first.Passed? {
        var visited := InFlight(db, r, budget);
        BacklogRes(first.db, r, due, visited, first.left);
        PassKeeps(first.db, h, r, Backlog(Candidates(first.db, r, due, first.left), r, visited), first.left);
        PassIs(first.db, r, due, budget, visited, first.left);
        var second := SecondPass(first.db, r, due, visited, first.left);
        if second.Passed? {
          OnlyCoversChain(db, first.db, second.db, r);
          var candidates := Elements(Candidates(first.db, r, due, first.left));
          RaiseFloorsIs(second.db, candidates, r, due);
          ProgressKeeps(second.db, h, RaiseFloors(second.db, candidates, r, due).progress);
          OnlyDownsamplesFrom(db, second.db, RaiseFloors(second.db, candidates, r, due), r);
        }
      }
    }
  }

  lemma OnlyDownsamplesSelf(db: Db, r: Resolution)
    ensures OnlyDownsamples(db, db, r)
  {
  }

  lemma OnlyDownsamplesFrom(db: Db, mid: Db, next: Db, r: Resolution)
    requires OnlyCovers(db, mid, r) && SealsKept(db, mid) && next == mid.(progress := next.progress)
    ensures OnlyDownsamples(db, next, r)
  {
  }

  lemma PassIs(db: Db, r: Resolution, due: real, budget: nat, visited: seq<Key>, left: nat)
    requires DistinctIds(db.metrics)
    ensures FirstPass(db, r, budget) == AdvanceAll(db, InFlight(db, r, budget), budget)
    ensures SecondPass(db, r, due, visited, left) ==
            AdvanceAll(db, Backlog(Candidates(db, r, due, left), r, visited), left)
  {
    hide AdvanceAll, InFlight, Backlog, Candidates;
  }

  lemma BacklogRes(db: Db, r: Resolution, due: real, visited: seq<Key>, left: nat)
    requires DistinctIds(db.metrics)
    ensures forall k | k in Backlog(Candidates(db, r, due, left), r, visited) :: k.res == r
  {
    hide Backlog, Candidates, BucketStart;
  }

  lemma DownsampleCases(db: Db, r: Resolution, now: real, batchLimit: int)
    requires DistinctIds(db.metrics)
    ensures var budget, due := Budget(batchLimit), DueCutoff(now, r);
            var done := Downsample(db, r, now, batchLimit);
            && (db.cutover.None? ==> done == Maintenance(db, 0, 0, false))
            && (db.cutover.Some? ==>
                  match FirstPass(db, r, budget)
                  case PassRaised => done == Maintenance(db, 0, 0, true)
                  case Passed(db1, left1, count1) =>
                    match SecondPass(db1, r, due, InFlight(db, r, budget), left1)
                    case PassRaised => done == Maintenance(db, 0, 0, true)
                    case Passed(db2, left2, count2) =>
                      left2 <= budget &&
                      done == Maintenance(RaiseFloors(db2, Elements(Candidates(db1, r, due, left1)), r, due),
                                          budget - left2, count1 + count2, false))
  {
    hide FirstPass, SecondPass, InFlight, Candidates, RaiseFloors, Elements;
    var budget := Budget(batchLimit);
    PassIs(db, r, 0.0, budget, [], 0);
    hide AdvanceAll;
    var first := FirstPass(db, r, budget);
    if first.Passed? {
      PassIs(first.db, r, DueCutoff(now, r), budget, InFlight(db, r, budget), first.left);
    }
  }

  // ── the scan floor ──────────────────────────────────

  /** The lowest row of its agent that is not due: the one `held` stops the floor below. */
  ghost predicate LowestNotDue(db: Db, held: Row, due: real) {
    && held in db.metrics && Cutover(db) < held.id && due <= held.ts
    && forall m | m in db.metrics && m.agent == held.agent && Cutover(db) < m.id && due <= m.ts :: held.id <= m.id
  }

  /**
   The floor runs past `m`: every candidate of its agent was decided, so the floor goes right
   below the agent's lowest row that is not due, and `m` is due, undecided, and older than that.
   The LIMIT of the candidate scan had left it out.
   */
  ghost predicate RunsPast(db: Db, candidates: set<Row>, r: Resolution, due: real, m: Row, held: Row) {
    && m in db.metrics && Cutover(db) < m.id && RowKey(m.id, r) !in db.coverage && m.ts < due
    && LowestNotDue(db, held, due) && held.agent == m.agent && m.id < held.id
    && OwnCandidates(candidates, m.agent) != {}
    && forall c | c in candidates && c.agent == m.agent :: RowKey(c.id, r) in db.coverage
  }

  ghost predicate Overrun(db: Db, candidates: set<Row>, r: Resolution, due: real) {
    exists m, held :: RunsPast(db, candidates, r, due, m, held)
  }

  /** When nothing undecided is run past, the new floor is below every undecided row. */
  lemma FloorBelow(db: Db, cs: set<Row>, r: Resolution, due: real, m: Row)
    requires m.ts < due && m !in cs ==> forall c | c in cs :: c.id < m.id
    requires !Overrun(db, cs, r, due)
    requires m in db.metrics && Cutover(db) < m.id && RowKey(m.id, r) !in db.coverage
    requires OwnCandidates(cs, m.agent) != {}
    ensures NewFloor(db, cs, m.agent, r, due) < m.id
  {
    var own, holding := OwnCandidates(cs, m.agent), Holding(db, cs, m.agent, r, due);
    if m !in holding {
      assert m.ts < due && m !in cs;
      assert forall c | c in own :: c in cs;
      if holding == {} {
        var top :| top in own && top.id == MaxId(own);
      } else {
        var low :| low in holding && low.id == MinId(holding);
        if low !in own && m.id <= low.id - 1 {
          HeldIsLowest(db, cs, m.agent, r, due, low);
          assert RunsPast(db, cs, r, due, m, low);
        }
      }
    }
  }

  lemma HeldIsLowest(db: Db, cs: set<Row>, agent: Agent, r: Resolution, due: real, low: Row)
    requires low in Holding(db, cs, agent, r, due) && low !in OwnCandidates(cs, agent)
    requires low.id == MinId(Holding(db, cs, agent, r, due))
    requires forall c | c in OwnCandidates(cs, agent) :: c.id < low.id
    ensures LowestNotDue(db, low, due) && low.agent == agent
    ensures forall c | c in cs && c.agent == agent :: RowKey(c.id, r) in db.coverage
  {
    var holding := Holding(db, cs, agent, r, due);
    forall x | x in db.metrics && x.agent == agent && Cutover(db) < x.id && due <= x.ts
      ensures low.id <= x.id
    {
      assert x in holding;
    }
    forall c | c in cs && c.agent == agent
      ensures RowKey(c.id, r) in db.coverage
    {
      assert c in OwnCandidates(cs, agent);
      assert RowKey(c.id, r) !in db.coverage ==> c in holding;
    }
  }

  /** A due undecided row the scan did not return is younger than everything it returned. */
  lemma MissedCandidate(before: Db, db: Db, candidates: seq<Row>, limit: nat, r: Resolution, due: real, m: Row)
    requires DistinctIds(before.metrics) && FloorSound(before, r) && OnlyCovers(before, db, r)
    requires candidates == Candidates(before, r, due, limit)
    requires m in db.metrics && Cutover(db) < m.id && RowKey(m.id, r) !in db.coverage && m.ts < due
    requires m !in Elements(candidates)
    ensures forall c | c in Elements(candidates) :: c.id < m.id
  {
    assert m in CandidateRows(before, r, due);
    CandidatesTotal(before, r, due);
  }

  lemma CandidatesTotal(db: Db, r: Resolution, due: real)
    requires DistinctIds(db.metrics)
    ensures StrictTotal(Older, CandidateRows(db, r, due))
  {
  }

  /** Where a row's floor stands after the floors were raised. */
  lemma RaisedFloor(db: Db, cs: set<Row>, r: Resolution, due: real, agent: Agent)
    ensures var next := RaiseFloors(db, cs, r, due);
            var f := FloorKey(agent, r);
            && (Moves(db, cs, f, r, due) ==>
                  Floor(next, agent, r) ==
                  Max(if f in db.progress then db.progress[f] else 0, NewFloor(db, cs, agent, r, due)))
            && (!Moves(db, cs, f, r, due) ==> Floor(next, agent, r) == Floor(db, agent, r))
  {
    hide Moves;
    var f := FloorKey(agent, r);
    if Moves(db, cs, f, r, due) {
      MovingAgent(db, cs, f, r, due);
    }
  }

  lemma MovingAgent(db: Db, cs: set<Row>, f: FloorKey, r: Resolution, due: real)
    requires Moves(db, cs, f, r, due)
    ensures f.agent in AgentsOf(cs) && f == FloorKey(f.agent, r)
  {
    hide NewFloor;
    var own := OwnCandidates(cs, f.agent);
    var c :| c in own;
  }

  /** The floors of a whole call skip nothing exactly when they run past nothing. */
  lemma FloorsExact(before: Db, db: Db, candidates: seq<Row>, limit: nat, r: Resolution, due: real)
    requires FloorSound(before, r) && OnlyCovers(before, db, r) && DistinctIds(before.metrics)
    requires candidates == Candidates(before, r, due, limit)
    ensures FloorSound(RaiseFloors(db, Elements(candidates), r, due), r) <==>
            !Overrun(db, Elements(candidates), r, due)
  {
    var cs := Elements(candidates);
    var next := RaiseFloors(db, cs, r, due);
    if !Overrun(db, cs, r, due) {
      forall m | m in next.metrics && Cutover(next) < m.id && RowKey(m.id, r) !in next.coverage
        ensures Floor(next, m.agent, r) < m.id
      {
        FloorStaysBelow(before, db, candidates, limit, r, due, m);
      }
      assert FloorSound(next, r);
    } else {
      var m, held :| RunsPast(db, cs, r, due, m, held);
      FloorRunsPast(db, cs, r, due, m, held);
    }
  }

  lemma FloorStaysBelow(before: Db, db: Db, candidates: seq<Row>, limit: nat, r: Resolution, due: real, m: Row)
    requires FloorSound(before, r) && OnlyCovers(before, db, r) && DistinctIds(before.metrics)
    requires candidates == Candidates(before, r, due, limit) && !Overrun(db, Elements(candidates), r, due)
    requires m in db.metrics && Cutover(db) < m.id && RowKey(m.id, r) !in db.coverage
    ensures Floor(RaiseFloors(db, Elements(candidates), r, due), m.agent, r) < m.id
  {
    hide Overrun, RaiseFloors, Candidates;
    var cs := Elements(candidates);
    if m.ts < due && m !in cs {
      MissedCandidate(before, db, candidates, limit, r, due, m);
    }
    hide NewFloor, Elements;
    RaisedFloor(db, cs, r, due, m.agent);
    if Moves(db, cs, FloorKey(m.agent, r), r, due) {
      FloorBelow(db, cs, r, due, m);
    }
  }

  lemma FloorRunsPast(db: Db, cs: set<Row>, r: Resolution, due: real, m: Row, held: Row)
    requires RunsPast(db, cs, r, due, m, held)
    ensures m.id <= Floor(RaiseFloors(db, cs, r, due), m.agent, r)
    ensures !FloorSound(RaiseFloors(db, cs, r, due), r)
  {
    var holding := Holding(db, cs, m.agent, r, due);
    assert held in holding;
    var low :| low in holding && low.id == MinId(holding);
    assert low in cs && low.agent == m.agent ==> RowKey(low.id, r) in db.coverage;
    assert low in db.metrics && due <= low.ts && low.agent == held.agent;
    assert NewFloor(db, cs, m.agent, r, due) == held.id - 1;
    RaisedFloor(db, cs, r, due, m.agent);
  }
}
