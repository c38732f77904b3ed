/**
 What every reachable state of the metric tables satisfies, with the history the tables forget:
 every row ever stored, the generation a pruned bucket row had published, and the clock of every
 cleanup that ran.
 */
module StoreInvariant {
  import opened Wrappers
  import opened Ordering
  import opened Samples
  import opened Batches
  import opened StoreModel

  datatype History = History(stored: set<Row>, retired: map<Key, nat>, clocks: set<real>)

  /** Some cleanup ran with its clock more than seven days past the start of this bucket. */
  ghost predicate Swept(h: History, k: Key) {
    exists t | t in h.clocks :: k.start as real < t - WEEK
  }

  /** Ids at or below this are outside the bucket's present life. */
  ghost function Base(db: Db, h: History, k: Key): nat {
    if k in h.retired then Max(Cutover(db), h.retired[k]) else Cutover(db)
  }

  /** Every row ever stored that a generation of this bucket frozen at `through` has to average. */
  ghost function Generation(db: Db, h: History, k: Key, through: nat): set<Row> {
    set m | m in h.stored && KeyOf(m, k.res) == k && Base(db, h, k) < m.id <= through
  }

  /** The part of a generation already behind its cursor. */
  ghost function Consumed(db: Db, h: History, k: Key, p: Partial): set<Row> {
    set m | m in Generation(db, h, k, p.through) && !AfterCursor(p, m)
  }

  /** Coverage never outlives the raw row it covers. */
  ghost predicate CoverageLive(db: Db) {
    forall q | q in db.coverage :: q.id in Ids(db.metrics)
  }

  ghost predicate RowsInv(db: Db, h: History) {
    && DistinctIds(h.stored)
    && db.metrics <= h.stored
    && Cutover(db) <= db.lastId
    && (forall m | m in h.stored :: m.id <= db.lastId)
    && (forall m | m in h.stored :: m.id <= Cutover(db) ==> m in db.metrics)
    && CoverageLive(db)
  }

  /** A legacy row is never part of anything the tracker published or started. */
  ghost predicate LegacyInv(db: Db, m: Row, r: Resolution) {
    m.id <= Cutover(db) ==> KeyOf(m, r) !in db.buckets && KeyOf(m, r) !in db.partials
  }

  /** A row that is gone was behind a published generation, live or retired. */
  ghost predicate GoneInv(db: Db, h: History, m: Row, r: Resolution) {
    var k := KeyOf(m, r);
    m !in db.metrics ==>
      && m.id <= (if k in db.buckets then db.buckets[k].publishedGen else Base(db, h, k))
      && (k in db.buckets && db.buckets[k].state == Open ==> m.id <= Base(db, h, k))
      && (k in db.partials ==> m.id <= Base(db, h, k))
  }

  /** The coverage of a live row says what actually happened to it. */
  ghost predicate CoverInv(db: Db, h: History, m: Row, r: Resolution) {
    var k, q := KeyOf(m, r), RowKey(m.id, r);
    m in db.metrics && Cutover(db) < m.id ==>
      && Base(db, h, k) < m.id
      && (q in db.coverage ==> db.coverage[q].agent == k.agent && db.coverage[q].start == k.start)
      && (IsFolded(db, q) ==> (k in db.buckets && m.id <= db.buckets[k].publishedGen) ||
                              (k in db.partials && m.id <= db.partials[k].through && !AfterCursor(db.partials[k], m)))
      && (k in db.buckets && m.id <= db.buckets[k].publishedGen ==> IsFolded(db, q) && k in db.summaries)
      && (k in db.partials && m.id <= db.partials[k].through && !AfterCursor(db.partials[k], m) ==> IsFolded(db, q))
      && (IsPending(db, q) && k in db.buckets ==> db.buckets[k].state == Sealed)
      && (IsPending(db, q) && k in db.partials ==> m.id <= db.partials[k].through)
  }

  ghost predicate RowInv(db: Db, h: History, m: Row, r: Resolution) {
    LegacyInv(db, m, r) && GoneInv(db, h, m, r) && CoverInv(db, h, m, r)
  }

  ghost predicate HasStored(h: History, k: Key, id: nat) {
    exists m | m in h.stored :: KeyOf(m, k.res) == k && m.id == id
  }

  /** A stored summary is an average of its whole generation, folded in order, in some batches. */
  ghost predicate SummaryExact(db: Db, h: History, k: Key)
    requires k in db.buckets && k in db.summaries && DistinctIds(h.stored)
  {
    BatchAverage(Datas(InTime(Generation(db, h, k, db.buckets[k].publishedGen))), db.summaries[k])
  }

  ghost predicate BucketInv(db: Db, h: History, k: Key)
    requires DistinctIds(h.stored)
  {
    k in db.buckets ==>
      && Base(db, h, k) < db.buckets[k].publishedGen <= db.lastId
      && HasStored(h, k, db.buckets[k].publishedGen)
      && (db.buckets[k].state == Open ==> k in db.summaries)
      && (k in db.summaries ==> SummaryExact(db, h, k))
      && (k !in db.summaries ==> Swept(h, k))
  }

  ghost predicate PartialInv(db: Db, h: History, k: Key)
    requires DistinctIds(h.stored)
  {
    k in db.partials ==>
      var p := db.partials[k];
      && k.start % Seconds(k.res) == 0
      && (k in db.buckets ==> db.buckets[k].state == Open)
      && (k !in db.buckets ==> k !in db.summaries)
      && PublishedGen(db, k) < p.through <= db.lastId
      && Base(db, h, k) < p.through
      && Remaining(db, k, p) != {}
      && HasStored(h, k, p.through)
      && p.n == p.acc.n
      && InBatches(Datas(InTime(Consumed(db, h, k, p))), p.acc)
  }

  ghost predicate RetiredInv(db: Db, h: History, k: Key) {
    k in h.retired ==>
      && Cutover(db) < h.retired[k] <= db.lastId
      && HasStored(h, k, h.retired[k])
      && Swept(h, k)
  }

  ghost predicate Inv(db: Db, h: History) {
    && RowsInv(db, h)
    && (forall m, r | m in h.stored :: RowInv(db, h, m, r))
    && (forall k | k in db.buckets :: BucketInv(db, h, k))
    && (forall k | k in db.partials :: PartialInv(db, h, k))
    && (forall k | k in h.retired :: RetiredInv(db, h, k))
  }

  /** The scan floor skips nothing: every undecided row above the cutover is above it. */
  ghost predicate FloorSound(db: Db, r: Resolution) {
    forall m | m in db.metrics && Cutover(db) < m.id && RowKey(m.id, r) !in db.coverage ::
      Floor(db, m.agent, r) < m.id
  }

  // ── rows and order ──────────────────────────────────

  lemma TimeTotal(s: set<Row>)
    requires DistinctIds(s)
    ensures StrictTotal(Earlier, s)
    ensures StrictTotal(Older, s)
  {
  }

  lemma DatasAppend(p: seq<Row>, q: seq<Row>)
    ensures Datas(p + q) == Datas(p) + Datas(q)
  {
  }

  lemma InTimeSplits(early: set<Row>, late: set<Row>)
    requires DistinctIds(early + late)
    requires forall a, b | a in early && b in late :: Earlier(a, b)
    ensures InTime(early + late) == InTime(early) + InTime(late)
  {
    hide Arrange;
    TimeTotal(early + late);
    ArrangeSplit(Earlier, early, late);
  }

  /** Resuming a fold behind the rows already folded is folding all of them in order. */
  lemma FoldResumes(early: set<Row>, late: set<Row>, mid: Acc, end: Acc)
    requires DistinctIds(early + late)
    requires forall a, b | a in early && b in late :: Earlier(a, b)
    requires InBatches(Datas(InTime(early)), mid) && Fold(mid, Datas(InTime(late))) == Some(end)
    ensures InBatches(Datas(InTime(early + late)), end)
    ensures late != {} && AggFinalize(end).Some? ==>
              BatchAverage(Datas(InTime(early + late)), AggFinalize(end).value)
  {
    InTimeSplits(early, late);
    InTimeHas(late);
    hide InBatches, Fold, AggFinalize, InTime, DistinctIds, Earlier;
    DatasAppend(InTime(early), InTime(late));
    BatchGoesOn(Datas(InTime(early)), mid, Datas(InTime(late)), end);
  }

  lemma InTimeHas(s: set<Row>)
    requires DistinctIds(s)
    ensures s != {} ==> Datas(InTime(s)) != []
  {
    TimeTotal(s);
  }

  lemma {:induction false} FoldCounts(acc: Acc, entries: seq<Sample>)
    ensures var done := Fold(acc, entries);
            done.Some? ==> done.value.n == acc.n + |entries| &&
                           (entries != [] ==> done.value.template.Some?) &&
                           (acc.template.Some? ==> done.value.template == acc.template)
    decreases |entries|
  {
    hide AddTotals, WalkContainers, Reserve;
    if entries != [] {
      var next := AggAdd(acc, entries[0]);
      if next.Some? {
        FoldCounts(next.value, entries[1..]);
      }
    }
  }
}
