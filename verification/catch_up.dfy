/** With no new rows and a fixed clock, downsampling works off an exact measure of what is owed. */
module CatchUp {
  import opened Wrappers
  import opened Ordering
  import opened Samples
  import opened StoreModel
  import opened StoreInvariant
  import opened StoreSteps
  import opened StoreTransactions

  // ── what is owed ────────────────────────────────────

  /** Rows the generations in flight have still to fold. */
  ghost function InFlightRows(db: Db, r: Resolution): set<Row> {
    set m | m in db.metrics && Cutover(db) < m.id && KeyOf(m, r) in db.partials &&
            m.id <= db.partials[KeyOf(m, r)].through && AfterCursor(db.partials[KeyOf(m, r)], m)
  }

  /** The bucket needs a generation that has not started: it holds a row no generation will reach. */
  ghost predicate NeedsGeneration(db: Db, k: Key) {
    && (k in db.partials || Provable(db, k))
    && exists m | m in BucketRows(db, k) ::
         RowKey(m.id, k.res) !in db.coverage && (k in db.partials ==> db.partials[k].through < m.id)
  }

  /** A further generation folds its bucket from scratch, every row of it. */
  ghost function WaitingRows(db: Db, r: Resolution, due: real): set<Row> {
    set m | m in db.metrics && Cutover(db) < m.id && m.ts < due && NeedsGeneration(db, KeyOf(m, r))
  }

  /** Rows still to be marked, of buckets that cannot be averaged. */
  ghost function UndecidedRows(db: Db, r: Resolution, due: real): set<Row> {
    set m | m in db.metrics && Cutover(db) < m.id && m.ts < due &&
            KeyOf(m, r) !in db.partials && !Provable(db, KeyOf(m, r)) && RowKey(m.id, r) !in db.coverage
  }

  ghost function Potential(db: Db, r: Resolution, due: real): nat {
    |InFlightRows(db, r)| + |WaitingRows(db, r, due)| + |UndecidedRows(db, r, due)|
  }

  /** Nothing is owed exactly when every due row is kept as PENDING or behind a publication. */
  ghost predicate Settled(db: Db, r: Resolution, due: real) {
    && (forall k | k in db.partials :: k.res != r)
    && forall m | m in db.metrics && Cutover(db) < m.id && m.ts < due ::
         IsPending(db, RowKey(m.id, r)) ||
         (KeyOf(m, r) in db.buckets && m.id <= db.buckets[KeyOf(m, r)].publishedGen)
  }

  // ── one bucket at a time ────────────────────────────

  /** `after` is `before` with `spent` taken out of the bucket's share and nothing else changed. */
  lemma Spend(before: set<Row>, after: set<Row>, share: set<Row>, spent: set<Row>)
    requires after - share == before - share
    requires spent <= before * share && after * share == before * share - spent
    ensures |after| + |spent| == |before|
  {
    forall x
      ensures x in before <==> x in after || x in spent
      ensures !(x in after && x in spent)
    {
      assert x in after - share <==> x in before - share;
      assert x in after * share <==> x in before * share - spent;
    }
    assert before == after + spent && after !! spent;
  }

  lemma Shift(a: set<Row>, b: set<Row>, a': set<Row>, b': set<Row>, share: set<Row>)
    requires a' - share == a - share && b' - share == b - share
    requires a * share == {} && b * share == share && a' * share == share && b' * share == {}
    ensures |a'| + |b'| == |a| + |b|
  {
    forall x
      ensures x in a' <==> x in a || x in share
      ensures x in b <==> x in b' || x in share
      ensures !(x in a && x in share) && !(x in b' && x in share)
    {
      assert x in a' - share <==> x in a - share;
      assert x in b' - share <==> x in b - share;
      assert x in a' * share <==> x in share;
      assert x in b * share <==> x in share;
      assert x !in a * share && x !in b' * share;
    }
    assert a' == a + share && a !! share;
    assert b == b' + share && b' !! share;
  }

  ghost predicate SameOutside(db: Db, next: Db, k: Key) {
    && next.cutover == db.cutover && next.metrics == db.metrics
    && (forall x | x != k :: SameAt(db.buckets, next.buckets, x) && SameAt(db.partials, next.partials, x)
                             && SameAt(db.summaries, next.summaries, x))
    && (forall m | m in db.metrics && KeyOf(m, k.res) != k :: SameAt(db.coverage, next.coverage, RowKey(m.id, k.res)))
  }

  lemma SameNeeds(db: Db, next: Db, k: Key, x: Key)
    requires SameOutside(db, next, k) && x != k && x.res == k.res
    ensures NeedsGeneration(db, x) <==> NeedsGeneration(next, x)
    ensures Provable(db, x) <==> Provable(next, x)
  {
    assert BucketRows(next, x) == BucketRows(db, x);
    assert SameAt(db.buckets, next.buckets, x) && SameAt(db.partials, next.partials, x)
           && SameAt(db.summaries, next.summaries, x);
    forall m | m in BucketRows(db, x)
      ensures SameAt(db.coverage, next.coverage, RowKey(m.id, x.res))
    {
      assert m in db.metrics && KeyOf(m, k.res) != k;
    }
    hide KeyOf, AfterCursor;
  }

  lemma SameRest(db: Db, next: Db, k: Key, due: real)
    requires SameOutside(db, next, k)
    ensures InFlightRows(next, k.res) - BucketRows(db, k) == InFlightRows(db, k.res) - BucketRows(db, k)
    ensures WaitingRows(next, k.res, due) - BucketRows(db, k) == WaitingRows(db, k.res, due) - BucketRows(db, k)
    ensures UndecidedRows(next, k.res, due) - BucketRows(db, k) == UndecidedRows(db, k.res, due) - BucketRows(db, k)
  {
    hide KeyOf, AfterCursor, NeedsGeneration, Provable;
    forall m | m in db.metrics && KeyOf(m, k.res) != k
      ensures NeedsGeneration(next, KeyOf(m, k.res)) <==> NeedsGeneration(db, KeyOf(m, k.res))
      ensures Provable(next, KeyOf(m, k.res)) <==> Provable(db, KeyOf(m, k.res))
      ensures SameAt(db.partials, next.partials, KeyOf(m, k.res))
      ensures SameAt(db.coverage, next.coverage, RowKey(m.id, k.res))
    {
      KeyRes(m, k.res);
      SameNeeds(db, next, k, KeyOf(m, k.res));
    }
  }

  lemma ShareOf(db: Db, next: Db, k: Key, due: real)
    requires next.metrics == db.metrics && next.cutover == db.cutover
    ensures InFlightRows(next, k.res) * BucketRows(db, k) ==
            if k in next.partials then Remaining(next, k, next.partials[k]) else {}
    ensures WaitingRows(next, k.res, due) * BucketRows(db, k) ==
            set m | m in BucketRows(db, k) && m.ts < due && NeedsGeneration(next, k)
    ensures UndecidedRows(next, k.res, due) * BucketRows(db, k) ==
            set m | m in BucketRows(db, k) && m.ts < due && k !in next.partials && !Provable(next, k) &&
                    RowKey(m.id, k.res) !in next.coverage
  {
    hide AfterCursor, NeedsGeneration, Provable;
    hide BucketStart;
  }

  lemma SameShare(before: set<Row>, after: set<Row>, share: set<Row>)
    requires after - share == before - share && after * share == before * share
    ensures after == before
  {
    forall x
      ensures x in after <==> x in before
    {
      assert x in after - share <==> x in before - share;
      assert x in after * share <==> x in before * share;
    }
  }

  /** Saving a batch takes exactly that batch out of what is in flight. */
  lemma SavedOwes(db: Db, h: History, k: Key, batch: set<Row>, moved: Partial, due: real)
    requires Inv(db, h) && k in db.partials
    requires Extends(db, k, db.partials[k], moved, batch)
    requires Remaining(db, k, moved) == Remaining(db, k, db.partials[k]) - batch
    ensures Potential(Saved(db, k, batch, moved), k.res, due) + |batch| == Potential(db, k.res, due)
  {
    hide *;
    var next := Saved(db, k, batch, moved);
    SavedOutside(db, h, k, batch, moved);
    SameRest(db, next, k, due);
    ShareOf(db, db, k, due);
    ShareOf(db, next, k, due);
    SavedNeeds(db, h, k, batch, moved);
    SavedPartialIs(db, k, batch, moved);
    Spend(InFlightRows(db, k.res), InFlightRows(next, k.res), BucketRows(db, k), batch);
    SameShare(WaitingRows(db, k.res, due), WaitingRows(next, k.res, due), BucketRows(db, k));
    SameShare(UndecidedRows(db, k.res, due), UndecidedRows(next, k.res, due), BucketRows(db, k));
    PotentialIs(db, k.res, due);
    PotentialIs(next, k.res, due);
  }

  lemma PotentialIs(db: Db, r: Resolution, due: real)
    ensures Potential(db, r, due) == |InFlightRows(db, r)| + |WaitingRows(db, r, due)| + |UndecidedRows(db, r, due)|
  {
  }

  lemma SavedPartialIs(db: Db, k: Key, batch: set<Row>, moved: Partial)
    requires k in db.partials && Extends(db, k, db.partials[k], moved, batch)
    ensures var next := Saved(db, k, batch, moved);
            && k in next.partials && next.partials[k] == moved
            && Remaining(next, k, moved) == Remaining(db, k, moved)
            && batch <= Remaining(db, k, db.partials[k]) <= BucketRows(db, k)
  {
    hide KeyOf, Cover, AfterCursor;
  }

  lemma SavedOutside(db: Db, h: History, k: Key, batch: set<Row>, moved: Partial)
    requires Inv(db, h) && k in db.partials && Extends(db, k, db.partials[k], moved, batch)
    ensures SameOutside(db, Saved(db, k, batch, moved), k)
    ensures Saved(db, k, batch, moved).metrics == db.metrics && Saved(db, k, batch, moved).cutover == db.cutover
  {
    hide Cover, KeyOf, Extends, RowInv, BucketInv, PartialInv;
    forall m | m in db.metrics && KeyOf(m, k.res) != k
      ensures SameAt(db.coverage, Cover(db.coverage, batch, k, Folded), RowKey(m.id, k.res))
    {
      OtherRowCovered(db, h, k, moved, batch, m, k.res);
    }
  }

  lemma SavedNeeds(db: Db, h: History, k: Key, batch: set<Row>, moved: Partial)
    requires Inv(db, h) && k in db.partials && Extends(db, k, db.partials[k], moved, batch)
    ensures NeedsGeneration(Saved(db, k, batch, moved), k) <==> NeedsGeneration(db, k)
  {
    hide *;
    var next := Saved(db, k, batch, moved);
    RowsDistinct(db, h);
    ExtendsThrough(db, k, moved, batch);
    BatchIds(db, k, moved, batch);
    forall m | m in BucketRows(db, k) && moved.through < m.id
      ensures RowKey(m.id, k.res) in db.coverage <==> RowKey(m.id, k.res) in Cover(db.coverage, batch, k, Folded)
    {
      BucketRowIs(db, k, m);
      CoverAt(db.metrics, db.coverage, batch, k, Folded, m, k.res);
      SameAtIs(db.coverage, Cover(db.coverage, batch, k, Folded), RowKey(m.id, k.res));
    }
    SavedProvable(db, k, batch, moved);
  }

  lemma SameAtIs<K, V>(a: map<K, V>, b: map<K, V>, x: K)
    ensures SameAt(a, b, x) <==> ((x in a <==> x in b) && (x in a ==> a[x] == b[x]))
  {
  }

  lemma BucketRowIs(db: Db, k: Key, m: Row)
    requires m in BucketRows(db, k)
    ensures m in db.metrics && KeyOf(m, k.res) == k && Cutover(db) < m.id
  {
  }

  lemma BatchIds(db: Db, k: Key, moved: Partial, batch: set<Row>)
    requires k in db.partials && Extends(db, k, db.partials[k], moved, batch)
    ensures forall m | m in batch :: m.id <= moved.through
  {
    hide KeyOf, AfterCursor;
  }

  lemma SavedProvable(db: Db, k: Key, batch: set<Row>, moved: Partial)
    requires k in db.partials && db.partials[k].through == moved.through
    requires forall m | m in BucketRows(db, k) && moved.through < m.id ::
               RowKey(m.id, k.res) in db.coverage <==> RowKey(m.id, k.res) in Cover(db.coverage, batch, k, Folded)
    ensures NeedsGeneration(Saved(db, k, batch, moved), k) <==> NeedsGeneration(db, k)
  {
    hide Cover, KeyOf;
    assert BucketRows(Saved(db, k, batch, moved), k) == BucketRows(db, k);
    hide BucketRows;
  }

  /** Publishing takes the last batch out of what is in flight, and leaves what waits waiting. */
  lemma PublishedOwes(db: Db, h: History, k: Key, batch: set<Row>, moved: Partial, avg: Sample, due: real)
    requires Inv(db, h) && k in db.partials
    requires Extends(db, k, db.partials[k], moved, batch)
    requires Remaining(db, k, moved) == {} == Remaining(db, k, db.partials[k]) - batch
    ensures Potential(Published(db, k, batch, moved.through, avg), k.res, due) + |batch| == Potential(db, k.res, due)
  {
    hide *;
    var next := Published(db, k, batch, moved.through, avg);
    PublishedOutside(db, h, k, batch, moved, avg);
    SameRest(db, next, k, due);
    ShareOf(db, db, k, due);
    ShareOf(db, next, k, due);
    PublishedNeeds(db, h, k, batch, moved, avg);
    SavedPartialIs(db, k, batch, moved);
    Spend(InFlightRows(db, k.res), InFlightRows(next, k.res), BucketRows(db, k), batch);
    SameShare(WaitingRows(db, k.res, due), WaitingRows(next, k.res, due), BucketRows(db, k));
    SameShare(UndecidedRows(db, k.res, due), UndecidedRows(next, k.res, due), BucketRows(db, k));
    PotentialIs(db, k.res, due);
    PotentialIs(next, k.res, due);
  }

  lemma PublishedOutside(db: Db, h: History, k: Key, batch: set<Row>, moved: Partial, avg: Sample)
    requires Inv(db, h) && k in db.partials && Extends(db, k, db.partials[k], moved, batch)
    ensures var next := Published(db, k, batch, moved.through, avg);
            SameOutside(db, next, k) && k !in next.partials && next.metrics == db.metrics && next.cutover == db.cutover
  {
    hide Cover, KeyOf, Extends, RowInv, BucketInv, PartialInv;
    forall m | m in db.metrics && KeyOf(m, k.res) != k
      ensures SameAt(db.coverage, Cover(db.coverage, batch, k, Folded), RowKey(m.id, k.res))
    {
      OtherRowCovered(db, h, k, moved, batch, m, k.res);
    }
  }

  lemma NoLegacyInFlight(db: Db, h: History, k: Key)
    requires Inv(db, h) && k in db.partials
    ensures !HasLegacy(db, k)
  {
    hide Inv, KeyOf;
    RowsDistinct(db, h);
    forall m | m in db.metrics && KeyOf(m, k.res) == k
      ensures Cutover(db) < m.id
    {
      RowFact(db, h, m, k.res);
    }
  }

  lemma PublishedNeeds(db: Db, h: History, k: Key, batch: set<Row>, moved: Partial, avg: Sample)
    requires Inv(db, h) && k in db.partials && Extends(db, k, db.partials[k], moved, batch)
    requires Remaining(db, k, moved) == {}
    ensures var next := Published(db, k, batch, moved.through, avg);
            Provable(next, k) && (NeedsGeneration(next, k) <==> NeedsGeneration(db, k))
  {
    hide *;
    var next := Published(db, k, batch, moved.through, avg);
    NoLegacyInFlight(db, h, k);
    RowsDistinct(db, h);
    forall m | m in BucketRows(db, k)
      ensures RowKey(m.id, k.res) !in Cover(db.coverage, batch, k, Folded) <==>
              RowKey(m.id, k.res) !in db.coverage && moved.through < m.id
    {
      PublishedCovers(db, h, k, batch, moved, m);
    }
    ExtendsThrough(db, k, moved, batch);
    PublishedProvable(db, k, batch, moved.through, avg);
  }

  lemma PublishedProvable(db: Db, k: Key, batch: set<Row>, through: nat, avg: Sample)
    requires !HasLegacy(db, k) && k in db.partials && db.partials[k].through == through
    requires forall m | m in BucketRows(db, k) ::
               RowKey(m.id, k.res) !in Cover(db.coverage, batch, k, Folded) <==>
               RowKey(m.id, k.res) !in db.coverage && through < m.id
    ensures var next := Published(db, k, batch, through, avg);
            Provable(next, k) && (NeedsGeneration(next, k) <==> NeedsGeneration(db, k))
  {
    hide Cover, KeyOf;
    assert BucketRows(Published(db, k, batch, through, avg), k) == BucketRows(db, k);
    hide BucketRows;
  }

  /** After a publication a row of the bucket is covered unless its id is above the generation. */
  lemma PublishedCovers(db: Db, h: History, k: Key, batch: set<Row>, moved: Partial, m: Row)
    requires Inv(db, h) && k in db.partials && Extends(db, k, db.partials[k], moved, batch)
    requires Remaining(db, k, moved) == {} && m in BucketRows(db, k) && DistinctIds(db.metrics)
    ensures RowKey(m.id, k.res) !in Cover(db.coverage, batch, k, Folded) <==>
            RowKey(m.id, k.res) !in db.coverage && moved.through < m.id
  {
    hide KeyOf, Cover, AfterCursor, Inv;
    RowsDistinct(db, h);
    RowFact(db, h, m, k.res);
    NothingRemains(db, k, moved, m);
    CoverAt(db.metrics, db.coverage, batch, k, Folded, m, k.res);
  }

  /** Starting a generation turns what waits into what is in flight, row for row. */
  lemma StartedOwes(db: Db, h: History, k: Key, due: real)
    requires Inv(db, h) && k !in db.partials && Outstanding(db, k) && Provable(db, k) && BucketRows(db, k) != {}
    requires forall m | m in BucketRows(db, k) :: m.ts < due
    ensures Potential(Started(db, k), k.res, due) == Potential(db, k.res, due)
  {
    hide *;
    var next := Started(db, k);
    InvParts(db, h);
    StartedShape(db, h, k);
    StartedOutside(db, k);
    SameRest(db, next, k, due);
    ShareOf(db, db, k, due);
    ShareOf(db, next, k, due);
    StartedNeeds(db, h, k);
    StartedRemains(db, k);
    Shift(InFlightRows(db, k.res), WaitingRows(db, k.res, due),
          InFlightRows(next, k.res), WaitingRows(next, k.res, due), BucketRows(db, k));
    SameShare(UndecidedRows(db, k.res, due), UndecidedRows(next, k.res, due), BucketRows(db, k));
    PotentialIs(db, k.res, due);
    PotentialIs(next, k.res, due);
  }

  lemma StartedOutside(db: Db, k: Key)
    requires BucketRows(db, k) != {}
    ensures SameOutside(db, Started(db, k), k)
  {
    hide KeyOf;
  }

  lemma StartedRemains(db: Db, k: Key)
    requires BucketRows(db, k) != {}
    ensures Remaining(Started(db, k), k, NewGeneration(db, k)) == BucketRows(db, k)
  {
    var p := NewGeneration(db, k);
    forall m | m in BucketRows(db, k)
      ensures m.id <= p.through && AfterCursor(p, m)
    {
      KeyAligned(m, k.res);
    }
    hide KeyOf, NewGeneration;
  }

  lemma StartedNeeds(db: Db, h: History, k: Key)
    requires Inv(db, h) && k !in db.partials && Outstanding(db, k) && Provable(db, k) && BucketRows(db, k) != {}
    ensures NeedsGeneration(db, k) && !NeedsGeneration(Started(db, k), k)
  {
    OutstandingIsNew(db, h, k);
    assert BucketRows(Started(db, k), k) == BucketRows(db, k);
    hide KeyOf, Inv, Outstanding, MaxId;
  }

  /** Marking takes the marked rows out of the undecided ones of an unprovable bucket. */
  lemma MarkedOwes(db: Db, h: History, k: Key, rows: set<Row>, due: real)
    requires Inv(db, h) && k !in db.partials && !Provable(db, k) && rows <= Undecided(db, k)
    requires forall m | m in BucketRows(db, k) :: m.ts < due
    ensures Potential(Marked(db, k, rows), k.res, due) + |rows| == Potential(db, k.res, due)
  {
    hide *;
    var next := Marked(db, k, rows);
    MarkedOutside(db, h, k, rows);
    SameRest(db, next, k, due);
    ShareOf(db, db, k, due);
    ShareOf(db, next, k, due);
    MarkedNeeds(db, h, k, rows);
    SameShare(InFlightRows(db, k.res), InFlightRows(next, k.res), BucketRows(db, k));
    SameShare(WaitingRows(db, k.res, due), WaitingRows(next, k.res, due), BucketRows(db, k));
    Spend(UndecidedRows(db, k.res, due), UndecidedRows(next, k.res, due), BucketRows(db, k), rows);
    PotentialIs(db, k.res, due);
    PotentialIs(next, k.res, due);
  }

  lemma MarkedOutside(db: Db, h: History, k: Key, rows: set<Row>)
    requires Inv(db, h) && k !in db.partials && rows <= Undecided(db, k)
    ensures var next := Marked(db, k, rows);
            SameOutside(db, next, k) && k !in next.partials && next.metrics == db.metrics && next.cutover == db.cutover
  {
    hide Cover, KeyOf, RowInv, BucketInv, PartialInv;
    RowsDistinct(db, h);
    forall m | m in db.metrics && KeyOf(m, k.res) != k
      ensures SameAt(db.coverage, Cover(db.coverage, rows, k, Pending), RowKey(m.id, k.res))
    {
      CoverAt(db.metrics, db.coverage, rows, k, Pending, m, k.res);
    }
  }

  lemma MarkedNeeds(db: Db, h: History, k: Key, rows: set<Row>)
    requires Inv(db, h) && k !in db.partials && !Provable(db, k) && rows <= Undecided(db, k)
    ensures var next := Marked(db, k, rows);
            && !NeedsGeneration(db, k) && !NeedsGeneration(next, k) && !Provable(next, k)
            && rows <= BucketRows(db, k)
            && (forall m | m in rows :: RowKey(m.id, k.res) !in db.coverage)
            && (forall m | m in BucketRows(db, k) ::
                  RowKey(m.id, k.res) !in next.coverage <==> RowKey(m.id, k.res) !in db.coverage && m !in rows)
  {
    hide Cover, KeyOf, RowInv, BucketInv, PartialInv;
    RowsDistinct(db, h);
    forall m | m in BucketRows(db, k)
      ensures RowKey(m.id, k.res) !in Cover(db.coverage, rows, k, Pending) <==>
              RowKey(m.id, k.res) !in db.coverage && m !in rows
    {
      CoverAt(db.metrics, db.coverage, rows, k, Pending, m, k.res);
    }
  }

  // ── whole calls ─────────────────────────────────────

  lemma FoldBatchOwes(db: Db, h: History, k: Key, budget: nat, due: real)
    requires Inv(db, h) && k in db.partials && budget > 0 && DistinctIds(db.metrics)
    ensures var a := FoldBatch(db, k, db.partials[k], budget);
            a.Advanced? ==> Potential(a.db, k.res, due) + a.used == Potential(db, k.res, due)
  {
    hide *;
    var p := db.partials[k];
    PartialFacts(db, h, k);
    CursorMoves(db, k, p, budget, p.acc);
    var batch := First(Earlier, Remaining(db, k, p), budget);
    match Fold(p.acc, Datas(batch)) {
      case None => FoldBatchRaises(db, k, p, budget);
      case Some(acc) =>
        var moved := MoveCursor(p, batch, acc);
        CursorMoves(db, k, p, budget, acc);
        CursorKeepsThrough(p, batch, acc);
        MakesExtends(db, k, p, moved, Elements(batch));
        if Remaining(db, k, moved) != {} {
          ReadBackExtends(db, k, p, moved, Elements(batch));
          SavedOwes(db, h, k, Elements(batch), ReadBack(moved), due);
          FoldBatchSaves(db, k, p, budget, acc);
        } else {
          DatasLength(batch);
          Finalizes(p.acc, Datas(batch), acc);
          PublishedOwes(db, h, k, Elements(batch), moved, AggFinalize(acc).value, due);
          FoldBatchPublishes(db, k, p, budget, acc);
        }
    }
  }

  /** Every row of this bucket is due. */
  ghost predicate DueKey(db: Db, k: Key, due: real) {
    forall m | m in BucketRows(db, k) :: m.ts < due
  }

  /** An advance lowers what is owed by exactly the rows it used. */
  lemma AdvanceOwes(db: Db, h: History, k: Key, budget: nat, due: real)
    requires Inv(db, h) && budget > 0 && DistinctIds(db.metrics)
    requires k in db.partials || DueKey(db, k, due)
    ensures var a := AdvanceBucket(db, k, budget);
            a.Advanced? ==> Potential(a.db, k.res, due) + a.used == Potential(db, k.res, due)
  {
    hide *;
    AdvanceCases(db, k, budget);
    if k in db.partials {
      FoldBatchOwes(db, h, k, budget, due);
    } else if Outstanding(db, k) {
      OutstandingIsNew(db, h, k);
      DueKeyIs(db, k, due);
      if Provable(db, k) {
        StartKeeps(db, h, k);
        InvParts(db, h);
        StartedShape(db, h, k);
        StartedOwes(db, h, k, due);
        FoldBatchOwes(Started(db, k), h, k, budget, due);
        FirstBatch(db, k, budget);
      } else {
        UndecidedTotal(db, k);
        MarkPendingIs(db, k, budget);
        MarkedOwes(db, h, k, Elements(First(Older, Undecided(db, k), budget)), due);
      }
    }
  }

  lemma DueKeyIs(db: Db, k: Key, due: real)
    ensures DueKey(db, k, due) <==> forall m | m in BucketRows(db, k) :: m.ts < due
  {
  }

  /** Each key is due, or in flight and not visited before. */
  ghost predicate Payable(db: Db, keys: seq<Key>, r: Resolution, due: real) {
    forall i | 0 <= i < |keys| ::
      && keys[i].res == r
      && (DueKey(db, keys[i], due) ||
          (keys[i] in db.partials && forall j | 0 <= j < i :: keys[j] != keys[i]))
  }

  lemma AdvanceElsewhere(db: Db, h: History, k: Key, budget: nat, x: Key)
    requires Inv(db, h) && budget > 0 && DistinctIds(db.metrics) && x != k
    ensures var a := AdvanceBucket(db, k, budget);
            a.Advanced? ==> SameAt(db.partials, a.db.partials, x)
  {
    hide *;
    AdvanceCases(db, k, budget);
    SameAtIs(db.partials, db.partials, x);
    if k in db.partials {
      FoldBatchElsewhere(db, k, db.partials[k], budget, x);
      ElsewherePartial(db, AdvanceBucket(db, k, budget), x);
    } else if Outstanding(db, k) && Provable(db, k) {
      FoldBatchElsewhere(db, k, NewGeneration(db, k), budget, x);
      ElsewherePartial(db, AdvanceBucket(db, k, budget), x);
    } else if Outstanding(db, k) {
      UndecidedTotal(db, k);
      OutstandingIsNew(db, h, k);
      MarkPendingIs(db, k, budget);
      InvParts(db, h);
      UndecidedWithin(db, k, budget);
      MarkedShape(db, h, k, Elements(First(Older, Undecided(db, k), budget)));
      SameAtIs(db.partials, AdvanceBucket(db, k, budget).db.partials, x);
    }
  }

  lemma ElsewherePartial(db: Db, a: Advance, x: Key)
    requires ElsewhereSame(db, a, x)
    ensures a.Advanced? ==> SameAt(db.partials, a.db.partials, x)
  {
    hide SameAt;
  }

  lemma UndecidedWithin(db: Db, k: Key, budget: nat)
    requires StrictTotal(Older, Undecided(db, k))
    ensures Elements(First(Older, Undecided(db, k), budget)) <= Undecided(db, k)
  {
    hide Undecided;
  }

  lemma PayableTail(db: Db, h: History, keys: seq<Key>, budget: nat, r: Resolution, due: real)
    requires Inv(db, h) && budget > 0 && DistinctIds(db.metrics) && keys != [] && Payable(db, keys, r, due)
    ensures var a := AdvanceBucket(db, keys[0], budget);
            a.Advanced? ==> Payable(a.db, keys[1..], r, due)
  {
    hide Inv, AdvanceBucket, DueKey, DistinctIds, OnlyCovers;
    var a := AdvanceBucket(db, keys[0], budget);
    AdvanceOnlyCovers(db, h, keys[0], budget);
    if a.Advanced? {
      forall i | 0 <= i < |keys[1..]|
        ensures DueKey(a.db, keys[1..][i], due) ||
                (keys[1..][i] in a.db.partials && forall j | 0 <= j < i :: keys[1..][j] != keys[1..][i])
      {
        var k := keys[i + 1];
        if DueKey(db, k, due) {
          DueKeySame(db, a.db, k, due, keys[0].res);
        } else {
          AdvanceElsewhere(db, h, keys[0], budget, k);
        }
      }
    }
  }

  lemma DueKeySame(db: Db, next: Db, k: Key, due: real, r: Resolution)
    requires OnlyCovers(db, next, r)
    ensures DueKey(db, k, due) <==> DueKey(next, k, due)
  {
    assert BucketRows(next, k) == BucketRows(db, k);
    hide KeyOf, BucketRows, SameAt;
  }

  lemma {:induction false} PassOwes(db: Db, h: History, keys: seq<Key>, budget: nat, r: Resolution, due: real)
    requires Inv(db, h) && DistinctIds(db.metrics) && Payable(db, keys, r, due)
    ensures var p := AdvanceAll(db, keys, budget);
            p.Passed? ==> Potential(p.db, r, due) + budget == Potential(db, r, due) + p.left
    decreases |keys|
  {
    hide *;
    AdvanceAllCases(db, keys, budget);
    if keys != [] && budget != 0 {
      PayableHead(db, keys, r, due);
      AdvanceKeeps(db, h, keys[0], budget);
      AdvanceOwes(db, h, keys[0], budget, due);
      PayableTail(db, h, keys, budget, r, due);
      var a := AdvanceBucket(db, keys[0], budget);
      if a.Advanced? {
        PassOwes(a.db, h, keys[1..], budget - a.used, r, due);
      }
    }
  }

  lemma PayableHead(db: Db, keys: seq<Key>, r: Resolution, due: real)
    requires Payable(db, keys, r, due) && keys != []
    ensures keys[0].res == r && (keys[0] in db.partials || DueKey(db, keys[0], due))
  {
  }

  lemma InFlightPayable(db: Db, r: Resolution, budget: nat, due: real)
    ensures Payable(db, InFlight(db, r, budget), r, due)
  {
    KeysTotal(InFlightKeys(db, r), r);
    var keys := InFlight(db, r, budget);
    forall i | 0 <= i < |keys|
      ensures keys[i] in db.partials && keys[i].res == r
      ensures forall j | 0 <= j < i :: keys[j] != keys[i]
    {
      assert keys[i] in keys;
      assert forall j | 0 <= j < i :: KeyBefore(keys[j], keys[i]);
    }
  }

  /** A bucket holding one row before the due cutoff lies wholly before it. */
  lemma WholeBucketDue(m: Row, c: Row, now: real, r: Resolution)
    requires c.ts < DueCutoff(now, r) && KeyOf(m, r) == KeyOf(c, r)
    ensures m.ts < DueCutoff(now, r)
  {
    match r
    case OneMinute =>
      var i, j := (c.ts / 60.0).Floor, (now / 60.0).Floor;
      assert i < j;
      assert (m.ts / 60.0).Floor == i;
    case FiveMinutes =>
      var i, j := (c.ts / 300.0).Floor, (now / 300.0).Floor;
      assert i < j;
      assert (m.ts / 300.0).Floor == i;
  }

  lemma BacklogPayable(db: Db, r: Resolution, now: real, visited: seq<Key>, left: nat)
    requires DistinctIds(db.metrics)
    ensures Payable(db, Backlog(Candidates(db, r, DueCutoff(now, r), left), r, visited), r, DueCutoff(now, r))
  {
    var due := DueCutoff(now, r);
    var candidates := Candidates(db, r, due, left);
    var keys := Backlog(candidates, r, visited);
    CandidatesTotal(db, r, due);
    hide Backlog, DueCutoff, KeyOf;
    forall i | 0 <= i < |keys|
      ensures keys[i].res == r && DueKey(db, keys[i], due)
    {
      assert keys[i] in keys;
      var c :| c in candidates && KeyOf(c, r) == keys[i];
      assert c in Elements(candidates);
      KeyRes(c, r);
      forall m | m in BucketRows(db, keys[i])
        ensures m.ts < due
      {
        WholeBucketDue(m, c, now, r);
      }
    }
  }

  lemma ProgressOwes(db: Db, progress: map<FloorKey, nat>, r: Resolution, due: real)
    ensures Potential(db.(progress := progress), r, due) == Potential(db, r, due)
  {
    var next := db.(progress := progress);
    forall k
      ensures NeedsGeneration(next, k) <==> NeedsGeneration(db, k)
      ensures Provable(next, k) <==> Provable(db, k)
    {
      assert BucketRows(next, k) == BucketRows(db, k);
    }
    hide KeyOf, NeedsGeneration, Provable, AfterCursor;
    assert InFlightRows(next, r) == InFlightRows(db, r);
    assert WaitingRows(next, r, due) == WaitingRows(db, r, due);
    assert UndecidedRows(next, r, due) == UndecidedRows(db, r, due);
  }

  /**
   Every call uses at most its budget and lowers what is owed by exactly the rows it used,
   whether or not the floor has run past some of them, and even when it raises.
   */
  lemma DownsampleOwes(db: Db, h: History, r: Resolution, now: real, batchLimit: int)
    requires Inv(db, h) && DistinctIds(db.metrics)
    ensures var done := Downsample(db, r, now, batchLimit);
            && done.used <= Budget(batchLimit)
            && Potential(done.db, r, DueCutoff(now, r)) + done.used == Potential(db, r, DueCutoff(now, r))
  {
    hide *;
    DownsampleCases(db, r, now, batchLimit);
    var budget, due := Budget(batchLimit), DueCutoff(now, r);
    if db.cutover.Some? {
      PassIs(db, r, due, budget, [], 0);
      InFlightPayable(db, r, budget, due);
      PassKeeps(db, h, r, InFlight(db, r, budget), budget);
      PassOwes(db, h, InFlight(db, r, budget), budget, r, due);
      var first := FirstPass(db, r, budget);
      if first.Passed? {
        var visited := InFlight(db, r, budget);
        PassIs(first.db, r, due, budget, visited, first.left);
        BacklogPayable(first.db, r, now, visited, first.left);
        PassOwes(first.db, h, Backlog(Candidates(first.db, r, due, first.left), r, visited), first.left, r, due);
        var second := SecondPass(first.db, r, due, visited, first.left);
        if second.Passed? {
          var candidates := Elements(Candidates(first.db, r, due, first.left));
          RaiseFloorsIs(second.db, candidates, r, due);
          ProgressOwes(second.db, RaiseFloors(second.db, candidates, r, due).progress, r, due);
        }
      }
    }
  }

  // ── where catching up stops ─────────────────────────

  /** Nothing is owed exactly when everything due is settled. */
  lemma SettledWhenNothingOwed(db: Db, h: History, r: Resolution, now: real)
    requires Inv(db, h)
    ensures Potential(db, r, DueCutoff(now, r)) == 0 <==> Settled(db, r, DueCutoff(now, r))
  {
    hide Inv, DueCutoff, Provable, KeyOf, AfterCursor, Potential, NeedsGeneration;
    var due := DueCutoff(now, r);
    PotentialIs(db, r, due);
    if Potential(db, r, due) == 0 {
      forall k | k in db.partials
        ensures k.res != r
      {
        PartialFacts(db, h, k);
        PartialOwes(db, h, k);
      }
      forall m | m in db.metrics && Cutover(db) < m.id && m.ts < due
        ensures IsPending(db, RowKey(m.id, r)) ||
                (KeyOf(m, r) in db.buckets && m.id <= db.buckets[KeyOf(m, r)].publishedGen)
      {
        KeyRes(m, r);
        SettledRow(db, h, m, r, due);
      }
    }
    if Settled(db, r, due) {
      assert InFlightRows(db, r) == {} by { NothingInFlight(db, r); }
      forall m | m in db.metrics && Cutover(db) < m.id && m.ts < due
        ensures m !in UndecidedRows(db, r, due) && m !in WaitingRows(db, r, due)
      {
        SettledOwesNothing(db, h, m, r, now);
      }
      assert WaitingRows(db, r, due) == {} && UndecidedRows(db, r, due) == {};
    }
  }

  lemma NothingInFlight(db: Db, r: Resolution)
    requires forall k | k in db.partials :: k.res != r
    ensures InFlightRows(db, r) == {}
  {
    forall m | m in db.metrics
      ensures KeyOf(m, r) !in db.partials
    {
      KeyRes(m, r);
    }
  }

  lemma PartialOwes(db: Db, h: History, k: Key)
    requires k in db.partials && Remaining(db, k, db.partials[k]) != {}
    ensures InFlightRows(db, k.res) != {}
  {
    var m :| m in Remaining(db, k, db.partials[k]);
    assert m in InFlightRows(db, k.res);
  }

  lemma SettledRow(db: Db, h: History, m: Row, r: Resolution, due: real)
    requires Inv(db, h) && m in db.metrics && Cutover(db) < m.id && m.ts < due
    requires KeyOf(m, r) !in db.partials
    requires WaitingRows(db, r, due) == {} && UndecidedRows(db, r, due) == {}
    ensures IsPending(db, RowKey(m.id, r)) ||
            (KeyOf(m, r) in db.buckets && m.id <= db.buckets[KeyOf(m, r)].publishedGen)
  {
    hide Inv, Provable, KeyOf;
    RowsDistinct(db, h);
    RowFact(db, h, m, r);
    KeyRes(m, r);
    assert m in BucketRows(db, KeyOf(m, r));
    assert m !in WaitingRows(db, r, due) && m !in UndecidedRows(db, r, due);
  }

  lemma SettledOwesNothing(db: Db, h: History, m: Row, r: Resolution, now: real)
    requires Inv(db, h) && Settled(db, r, DueCutoff(now, r))
    requires m in db.metrics && Cutover(db) < m.id && m.ts < DueCutoff(now, r)
    ensures m !in WaitingRows(db, r, DueCutoff(now, r)) && m !in UndecidedRows(db, r, DueCutoff(now, r))
  {
    hide Inv, Provable, KeyOf, DueCutoff;
    RowsDistinct(db, h);
    KeyRes(m, r);
    forall x | x in BucketRows(db, KeyOf(m, r))
      ensures RowKey(x.id, r) in db.coverage
    {
      WholeBucketDue(x, m, now, r);
      RowFact(db, h, x, r);
    }
    assert m in BucketRows(db, KeyOf(m, r));
  }

  /** While the floor skips nothing, a call with something owed uses some of its budget. */
  lemma NeverStalls(db: Db, h: History, r: Resolution, now: real, batchLimit: int)
    requires Inv(db, h) && DistinctIds(db.metrics) && db.cutover.Some? && FloorSound(db, r)
    requires Potential(db, r, DueCutoff(now, r)) > 0
    ensures var done := Downsample(db, r, now, batchLimit);
            done.raised || done.used > 0
  {
    hide *;
    DownsampleCases(db, r, now, batchLimit);
    var budget, due := Budget(batchLimit), DueCutoff(now, r);
    BudgetPositive(batchLimit);
    var visited := InFlight(db, r, budget);
    PassIs(db, r, due, budget, [], 0);
    FirstAdvance(db, h, visited, budget);
    if visited == [] {
      AdvanceAllCases(db, visited, budget);
      InFlightEmpty(db, r, budget);
      OwedIsCandidate(db, h, r, now, budget);
      PassIs(db, r, due, budget, visited, budget);
      FirstAdvance(db, h, Backlog(Candidates(db, r, due, budget), r, visited), budget);
    } else {
      var first := FirstPass(db, r, budget);
      if first.Passed? {
        PassIs(first.db, r, due, budget, visited, first.left);
      }
    }
  }

  lemma BudgetPositive(batchLimit: int)
    ensures Budget(batchLimit) > 0
  {
  }

  lemma FirstAdvance(db: Db, h: History, keys: seq<Key>, budget: nat)
    requires Inv(db, h) && DistinctIds(db.metrics) && budget > 0
    requires keys != [] ==> keys[0] in db.partials || Outstanding(db, keys[0])
    ensures var p := AdvanceAll(db, keys, budget);
            p.Passed? && keys != [] ==> p.left < budget
  {
    hide *;
    AdvanceAllCases(db, keys, budget);
    if keys != [] {
      AdvanceKeeps(db, h, keys[0], budget);
    }
  }

  lemma InFlightEmpty(db: Db, r: Resolution, budget: nat)
    requires budget > 0 && InFlight(db, r, budget) == []
    ensures forall k | k in db.partials :: k.res != r
  {
    KeysTotal(InFlightKeys(db, r), r);
    assert |InFlightKeys(db, r)| == 0;
    forall k | k in db.partials
      ensures k.res != r
    {
      assert k !in InFlightKeys(db, r);
    }
  }

  /** What is owed with nothing in flight shows up in the candidate scan. */
  lemma OwedIsCandidate(db: Db, h: History, r: Resolution, now: real, budget: nat)
    requires Inv(db, h) && DistinctIds(db.metrics) && FloorSound(db, r) && budget > 0
    requires forall k | k in db.partials :: k.res != r
    requires Potential(db, r, DueCutoff(now, r)) > 0
    ensures var keys := Backlog(Candidates(db, r, DueCutoff(now, r), budget), r, []);
            keys != [] && Outstanding(db, keys[0])
  {
    hide Inv, DueCutoff, Provable, KeyOf, Backlog, AfterCursor, Outstanding;
    var due := DueCutoff(now, r);
    NothingInFlight(db, r);
    assert WaitingRows(db, r, due) + UndecidedRows(db, r, due) != {} by {
      OwedNonempty(InFlightRows(db, r), WaitingRows(db, r, due), UndecidedRows(db, r, due));
    }
    var x :| x in WaitingRows(db, r, due) + UndecidedRows(db, r, due);
    var m := OwedRow(db, r, now, x);
    assert m in CandidateRows(db, r, due);
    CandidatesTotal(db, r, due);
    var candidates := Candidates(db, r, due, budget);
    assert |candidates| != 0;
    BacklogHead(candidates, r);
    var keys := Backlog(candidates, r, []);
    assert keys[0] in keys;
    var c :| c in candidates && KeyOf(c, r) == keys[0];
    assert c in Elements(candidates);
    KeyRes(c, r);
    UncoveredOutstanding(db, c, r);
  }

  lemma OwedNonempty(a: set<Row>, b: set<Row>, c: set<Row>)
    requires a == {} && |a| + |b| + |c| > 0
    ensures b + c != {}
  {
    if b != {} {
      var x :| x in b;
      assert x in b + c;
    } else {
      var x :| x in c;
      assert x in b + c;
    }
  }

  lemma UncoveredOutstanding(db: Db, m: Row, r: Resolution)
    requires m in db.metrics && Cutover(db) < m.id && RowKey(m.id, r) !in db.coverage
    ensures Outstanding(db, KeyOf(m, r))
  {
    KeyRes(m, r);
    hide KeyOf;
    assert m in BucketRows(db, KeyOf(m, r));
  }

  lemma BacklogHead(candidates: seq<Row>, r: Resolution)
    requires candidates != []
    ensures Backlog(candidates, r, []) != []
  {
    var all := BucketsOf(candidates, r);
    assert candidates[0] in candidates;
    hide BucketsOf, KeyOf;
    var k := KeyOf(candidates[0], r);
    assert k in all && k !in Elements<Key>([]);
    assert k in Without(all, Elements<Key>([]));
  }

  lemma OwedRow(db: Db, r: Resolution, now: real, x: Row) returns (m: Row)
    requires x in WaitingRows(db, r, DueCutoff(now, r)) + UndecidedRows(db, r, DueCutoff(now, r))
    ensures m in db.metrics && Cutover(db) < m.id && m.ts < DueCutoff(now, r) && RowKey(m.id, r) !in db.coverage
  {
    hide DueCutoff, Provable, KeyOf;
    if x in UndecidedRows(db, r, DueCutoff(now, r)) {
      m := x;
    } else {
      KeyRes(x, r);
      m :| m in BucketRows(db, KeyOf(x, r)) && RowKey(m.id, r) !in db.coverage;
      WholeBucketDue(m, x, now, r);
    }
  }
}
