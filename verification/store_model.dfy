/**
 The metric tables and the transactions over them, as values (backend/app/database.py:2808-3520).
 A table is the set of its rows or a map from its primary key; a transaction is a function from
 the tables before it to the tables after it. `Store` proves the step-by-step procedures equal to
 these functions, `StoreInvariant` and what follows it proves what they keep.
 */
module StoreModel {
  import opened Wrappers
  import opened Ordering
  import opened Samples

  datatype Resolution = OneMinute | FiveMinutes

  function Seconds(r: Resolution): int {
    match r
    case OneMinute => 60
    case FiveMinutes => 300
  }

  /** Agents are numbered in the order their names collate. */
  type Agent = nat

  datatype Row = Row(id: nat, agent: Agent, ts: real, data: Sample)

  /** One bucket of one agent's history at one resolution. */
  datatype Key = Key(agent: Agent, res: Resolution, start: int)

  datatype RowKey = RowKey(id: nat, res: Resolution)

  datatype CoverState = Folded | Pending

  datatype Coverage = Coverage(agent: Agent, start: int, state: CoverState)

  datatype BucketState = Open | Sealed

  datatype Bucket = Bucket(state: BucketState, publishedGen: nat)

  datatype Partial = Partial(n: nat, lastTs: real, lastId: nat, through: nat, acc: Acc)

  datatype FloorKey = FloorKey(agent: Agent, res: Resolution)

  datatype Db = Db(
    lastId: nat,                          // sqlite_sequence: the last metrics.id ever assigned
    cutover: Option<nat>,                 // runtime_config: metric_agg_cutover_raw_id
    metrics: set<Row>,
    coverage: map<RowKey, Coverage>,
    buckets: map<Key, Bucket>,
    partials: map<Key, Partial>,
    summaries: map<Key, Sample>,          // metrics_downsampled
    progress: map<FloorKey, nat>)

  // ── keys and order ──────────────────────────────────

  function BucketStart(ts: real, r: Resolution): (start: int)
    ensures start as real <= ts < (start + Seconds(r)) as real
    ensures start % Seconds(r) == 0
  {
    match r
    case OneMinute => (ts / 60.0).Floor * 60
    case FiveMinutes => (ts / 300.0).Floor * 300
  }

  function KeyOf(m: Row, r: Resolution): Key {
    Key(m.agent, r, BucketStart(m.ts, r))
  }

  /** The SQL range test finds exactly the rows whose own bucket it is. */
  lemma RangeIsBucket(m: Row, k: Key)
    requires k.start % Seconds(k.res) == 0
    ensures (m.agent == k.agent && k.start as real <= m.ts < (k.start + Seconds(k.res)) as real)
            <==> KeyOf(m, k.res) == k
  {
    var b := BucketStart(m.ts, k.res);
    if k.start as real <= m.ts < (k.start + Seconds(k.res)) as real {
      assert b < k.start + Seconds(k.res) && k.start < b + Seconds(k.res);
    }
  }

  /** ORDER BY timestamp, id. */
  predicate Earlier(a: Row, b: Row) {
    a.ts < b.ts || (a.ts == b.ts && a.id < b.id)
  }

  /** ORDER BY id. */
  predicate Older(a: Row, b: Row) {
    a.id < b.id
  }

  /** ORDER BY bucket_ts, agent_id within one resolution. */
  predicate KeyBefore(a: Key, b: Key) {
    a.start < b.start || (a.start == b.start && a.agent < b.agent)
  }

  ghost predicate DistinctIds(s: set<Row>) {
    forall a, b | a in s && b in s :: a.id == b.id ==> a == b
  }

  function Ids(s: set<Row>): set<nat> {
    set m | m in s :: m.id
  }

  function InTime(s: set<Row>): seq<Row>
    requires DistinctIds(s)
  {
    Arrange(Earlier, s)
  }

  function Datas(q: seq<Row>): seq<Sample> {
    seq(|q|, i requires 0 <= i < |q| => q[i].data)
  }

  /** A nonempty set of rows has a highest id: SELECT MAX(id). */
  function MaxId(s: set<Row>): (top: nat)
    requires s != {}
    ensures exists m :: m in s && m.id == top
    ensures forall m | m in s :: m.id <= top
    decreases |s|
  {
    HighestExists(s);
    var top :| top in s && forall m | m in s :: m.id <= top.id;
    top.id
  }

  lemma {:induction false} HighestExists(s: set<Row>)
    requires s != {}
    ensures exists top :: top in s && forall m | m in s :: m.id <= top.id
    decreases |s|
  {
    var a :| a in s;
    var rest := s - {a};
    if rest != {} {
      HighestExists(rest);
      var top :| top in rest && forall m | m in rest :: m.id <= top.id;
      var highest := if top.id < a.id then a else top;
      assert highest in s && forall m | m in s :: m.id <= highest.id;
    } else {
      assert s == {a};
    }
  }

  // ── reads every transaction shares ──────────────────

  function Cutover(db: Db): nat {
    if db.cutover.Some? then db.cutover.value else 0
  }

  function PublishedGen(db: Db, k: Key): nat {
    if k in db.buckets then db.buckets[k].publishedGen else 0
  }

  predicate IsFolded(db: Db, q: RowKey) {
    q in db.coverage && db.coverage[q].state == Folded
  }

  predicate IsPending(db: Db, q: RowKey) {
    q in db.coverage && db.coverage[q].state == Pending
  }

  /** The rows of a bucket that coverage tracking knows about. */
  function BucketRows(db: Db, k: Key): set<Row> {
    set m | m in db.metrics && KeyOf(m, k.res) == k && Cutover(db) < m.id
  }

  predicate AfterCursor(p: Partial, m: Row) {
    m.ts > p.lastTs || (m.ts == p.lastTs && m.id > p.lastId)
  }

  /** What a generation has still to fold. */
  function Remaining(db: Db, k: Key, p: Partial): set<Row> {
    set m | m in BucketRows(db, k) && m.id <= p.through && AfterCursor(p, m)
  }

  predicate Outstanding(db: Db, k: Key) {
    exists m | m in BucketRows(db, k) ::
      var q := RowKey(m.id, k.res);
      q !in db.coverage || (IsFolded(db, q) && PublishedGen(db, k) < m.id)
  }

  predicate HasLegacy(db: Db, k: Key) {
    exists m | m in db.metrics :: KeyOf(m, k.res) == k && m.id <= Cutover(db)
  }

  predicate Provable(db: Db, k: Key) {
    && !HasLegacy(db, k)
    && (k in db.buckets ==> db.buckets[k].state == Open)
    && (k in db.buckets || k !in db.summaries)
  }

  function RowKeys(rows: set<Row>, r: Resolution): set<RowKey> {
    set m | m in rows :: RowKey(m.id, r)
  }

  /** Upsert one coverage row per raw row. */
  function Cover(coverage: map<RowKey, Coverage>, rows: set<Row>, k: Key, state: CoverState): map<RowKey, Coverage> {
    var touched := RowKeys(rows, k.res);
    map q | q in coverage.Keys + touched ::
      if q in touched then Coverage(k.agent, k.start, state) else coverage[q]
  }

  // ── _mark_pending and _advance_bucket ───────────────

  /** An advance either raises, and the transaction rolls back, or it leaves new tables behind. */
  datatype Advance = Raised | Advanced(db: Db, used: nat, published: bool)

  function Undecided(db: Db, k: Key): set<Row> {
    set m | m in BucketRows(db, k) && RowKey(m.id, k.res) !in db.coverage
  }

  function MarkPending(db: Db, k: Key, budget: nat): Advance
    requires DistinctIds(db.metrics)
  {
    var marked := First(Older, Undecided(db, k), budget);
    Advanced(db.(coverage := Cover(db.coverage, Elements(marked), k, Pending)), |marked|, false)
  }

  /** Where a new generation starts: frozen at the bucket's highest id, nothing folded yet. */
  function NewGeneration(db: Db, k: Key): Partial
    requires BucketRows(db, k) != {}
  {
    Partial(0, k.start as real - 1.0, 0, MaxId(BucketRows(db, k)), NEW_ACC)
  }

  function MoveCursor(p: Partial, batch: seq<Row>, acc: Acc): Partial {
    if batch == [] then p.(n := acc.n, acc := acc)
    else
      var last := batch[|batch| - 1];
      Partial(acc.n, last.ts, last.id, p.through, acc)
  }

  /** The cursor as it reads back from the row it is saved in. */
  function ReadBack(p: Partial): Partial {
    p.(acc := Reload(p.acc))
  }

  /** The next rows of a generation, in averaging order. */
  function NextBatch(db: Db, k: Key, p: Partial, budget: nat): (batch: seq<Row>)
    requires DistinctIds(db.metrics)
    ensures |batch| <= budget
  {
    First(Earlier, Remaining(db, k, p), budget)
  }

  /** Fold the next `budget` rows of the generation `p`, and publish once none remain. */
  function FoldBatch(db: Db, k: Key, p: Partial, budget: nat): (a: Advance)
    requires DistinctIds(db.metrics)
    ensures a.Advanced? ==> a.db.metrics == db.metrics && a.used <= budget
  {
    var batch := NextBatch(db, k, p, budget);
    match Fold(p.acc, Datas(batch))
    case None => Raised
    case Some(acc) =>
      var moved := MoveCursor(p, batch, acc);
      var covered := db.(coverage := Cover(db.coverage, Elements(batch), k, Folded));
      if Remaining(db, k, moved) != {} then
        Advanced(covered.(partials := db.partials[k := ReadBack(moved)]), |batch|, false)
      else
        var cleared := covered.(partials := db.partials - {k});
        match AggFinalize(acc)
        case None => Advanced(cleared, |batch|, false)
        case Some(avg) => Advanced(Publish(cleared, k, avg, p.through), |batch|, true)
  }

  function Publish(db: Db, k: Key, avg: Sample, through: nat): Db {
    db.(summaries := db.summaries[k := avg],
        buckets := db.buckets[k := Bucket(Open, Max(PublishedGen(db, k), through))])
  }

  function AdvanceBucket(db: Db, k: Key, budget: nat): (a: Advance)
    requires DistinctIds(db.metrics)
    ensures a.Advanced? ==> a.db.metrics == db.metrics && a.used <= budget
  {
    if k in db.partials then FoldBatch(db, k, db.partials[k], budget)
    else if !Outstanding(db, k) then Advanced(db, 0, false)
    else if !Provable(db, k) then MarkPending(db, k, budget)
    else FoldBatch(db, k, NewGeneration(db, k), budget)
  }

  // ── downsample_metrics ──────────────────────────────

  datatype Pass = PassRaised | Passed(db: Db, left: nat, count: nat)

  /** Advance bucket after bucket until the budget is spent. */
  function AdvanceAll(db: Db, keys: seq<Key>, budget: nat): (p: Pass)
    requires DistinctIds(db.metrics)
    ensures p.Passed? ==> p.db.metrics == db.metrics && p.left <= budget
    decreases |keys|
  {
    if keys == [] || budget == 0 then Passed(db, budget, 0)
    else
      match AdvanceBucket(db, keys[0], budget)
      case Raised => PassRaised
      case Advanced(next, used, published) =>
        match AdvanceAll(next, keys[1..], budget - used)
        case PassRaised => PassRaised
        case Passed(last, left, count) => Passed(last, left, count + if published then 1 else 0)
  }

  function InFlightKeys(db: Db, r: Resolution): set<Key> {
    set k | k in db.partials && k.res == r
  }

  lemma KeysTotal(s: set<Key>, r: Resolution)
    requires forall k | k in s :: k.res == r
    ensures StrictTotal(KeyBefore, s)
  {
  }

  function Floor(db: Db, agent: Agent, r: Resolution): nat {
    var f := FloorKey(agent, r);
    if f in db.progress then db.progress[f] else Cutover(db)
  }

  /** Undecided rows above the scan floor whose bucket has closed. */
  function CandidateRows(db: Db, r: Resolution, due: real): set<Row> {
    set m | m in db.metrics && Cutover(db) < m.id && Floor(db, m.agent, r) < m.id && m.ts < due &&
            RowKey(m.id, r) !in db.coverage
  }

  function Candidates(db: Db, r: Resolution, due: real, limit: nat): seq<Row>
    requires DistinctIds(db.metrics)
  {
    First(Older, CandidateRows(db, r, due), limit)
  }

  /** The buckets of the candidates, each once, in the order their lowest id comes up. */
  function BucketsOf(candidates: seq<Row>, r: Resolution): (keys: seq<Key>)
    ensures forall k | k in keys :: exists m :: m in candidates && KeyOf(m, r) == k
    ensures forall m | m in candidates :: KeyOf(m, r) in keys
  {
    if candidates == [] then []
    else
      var n := |candidates| - 1;
      var front := BucketsOf(candidates[..n], r);
      var k := KeyOf(candidates[n], r);
      assert candidates == candidates[..n] + [candidates[n]];
      if k in front then front else front + [k]
  }

  function Without(keys: seq<Key>, seen: set<Key>): (rest: seq<Key>)
    ensures forall k :: k in rest <==> k in keys && k !in seen
  {
    if keys == [] then []
    else
      assert keys == [keys[0]] + keys[1..];
      (if keys[0] in seen then [] else [keys[0]]) + Without(keys[1..], seen)
  }

  lemma {:induction false} WithoutNothing(keys: seq<Key>)
    ensures Without(keys, {}) == keys
    decreases |keys|
  {
    if keys != [] {
      WithoutNothing(keys[1..]);
    }
  }

  /** Rows the scan floor has to stay below: candidates still undecided, and rows not due yet. */
  function Holding(db: Db, candidates: set<Row>, agent: Agent, r: Resolution, due: real): set<Row> {
    (set m | m in candidates && m.agent == agent && RowKey(m.id, r) !in db.coverage) +
    (set m | m in db.metrics && m.agent == agent && Cutover(db) < m.id && due <= m.ts)
  }

  function OwnCandidates(candidates: set<Row>, agent: Agent): set<Row> {
    set m | m in candidates && m.agent == agent
  }

  function MinId(s: set<Row>): (low: nat)
    requires s != {}
    ensures exists m :: m in s && m.id == low
    ensures forall m | m in s :: low <= m.id
  {
    LowestExists(s);
    var low :| low in s && forall m | m in s :: low.id <= m.id;
    low.id
  }

  lemma {:induction false} LowestExists(s: set<Row>)
    requires s != {}
    ensures exists low :: low in s && forall m | m in s :: low.id <= m.id
    decreases |s|
  {
    var a :| a in s;
    var rest := s - {a};
    if rest != {} {
      LowestExists(rest);
      var low :| low in rest && forall m | m in rest :: low.id <= m.id;
      var lowest := if a.id < low.id then a else low;
      assert lowest in s && forall m | m in s :: lowest.id <= m.id;
    } else {
      assert s == {a};
    }
  }

  function NewFloor(db: Db, candidates: set<Row>, agent: Agent, r: Resolution, due: real): int
    requires OwnCandidates(candidates, agent) != {}
  {
    var holding := Holding(db, candidates, agent, r, due);
    if holding != {} then MinId(holding) - 1 else MaxId(OwnCandidates(candidates, agent))
  }

  function AgentsOf(rows: set<Row>): set<Agent> {
    set m | m in rows :: m.agent
  }

  /** Whose floor moves: an agent that had a candidate, and only past the cutover. */
  predicate Moves(db: Db, candidates: set<Row>, f: FloorKey, r: Resolution, due: real) {
    f.res == r && OwnCandidates(candidates, f.agent) != {} &&
    Cutover(db) < NewFloor(db, candidates, f.agent, r, due)
  }

  function RaiseFloors(db: Db, candidates: set<Row>, r: Resolution, due: real): Db {
    var keys := db.progress.Keys + set a | a in AgentsOf(candidates) :: FloorKey(a, r);
    db.(progress := map f | f in keys && (f in db.progress || Moves(db, candidates, f, r, due)) ::
          if Moves(db, candidates, f, r, due) then
            Max(if f in db.progress then db.progress[f] else 0, NewFloor(db, candidates, f.agent, r, due))
          else db.progress[f])
  }

  /** The start of the bucket the clock is in: a row before it is due. */
  function DueCutoff(now: real, r: Resolution): real {
    BucketStart(now, r) as real
  }

  /** What one call used of its budget, and how many summaries it published. */
  datatype Maintenance = Maintenance(db: Db, used: nat, count: nat, raised: bool)

  function Budget(batchLimit: int): nat {
    Max(1, batchLimit)
  }

  /** 1. What is already in flight. */
  function InFlight(db: Db, r: Resolution, budget: nat): (keys: seq<Key>)
    ensures forall k | k in keys :: k in db.partials && k.res == r
  {
    KeysTotal(InFlightKeys(db, r), r);
    var keys := First(KeyBefore, InFlightKeys(db, r), budget);
    assert forall k | k in keys :: k in Elements(keys);
    keys
  }

  /** 2. Then the closed buckets of the candidates, except those just visited. */
  function Backlog(candidates: seq<Row>, r: Resolution, visited: seq<Key>): (keys: seq<Key>)
    ensures forall k | k in keys :: exists m :: m in candidates && KeyOf(m, r) == k
  {
    Without(BucketsOf(candidates, r), Elements(visited))
  }

  function FirstPass(db: Db, r: Resolution, budget: nat): (p: Pass)
    requires DistinctIds(db.metrics)
    ensures p.Passed? ==> DistinctIds(p.db.metrics)
  {
    AdvanceAll(db, InFlight(db, r, budget), budget)
  }

  function SecondPass(db: Db, r: Resolution, due: real, visited: seq<Key>, left: nat): (p: Pass)
    requires DistinctIds(db.metrics)
  {
    AdvanceAll(db, Backlog(Candidates(db, r, due, left), r, visited), left)
  }

  function Downsample(db: Db, r: Resolution, now: real, batchLimit: int): (done: Maintenance)
    requires DistinctIds(db.metrics)
    ensures done.used <= Budget(batchLimit)
  {
    if db.cutover.None? then Maintenance(db, 0, 0, false)
    else
      var budget := Budget(batchLimit);
      var due := DueCutoff(now, r);
      match FirstPass(db, r, budget)
      case PassRaised => Maintenance(db, 0, 0, true)
      case Passed(db1, left1, count1) =>
        match SecondPass(db1, r, due, InFlight(db, r, budget), left1)
        case PassRaised => Maintenance(db, 0, 0, true)
        case Passed(db2, left2, count2) =>
          var candidates := Elements(Candidates(db1, r, due, left1));
          Maintenance(RaiseFloors(db2, candidates, r, due), budget - left2, count1 + count2, false)
  }

  // ── store_metric and cleanup_old_metrics ────────────

  function StoreMetric(db: Db, agent: Agent, ts: real, data: Sample): Db {
    var id := db.lastId + 1;
    db.(lastId := id, metrics := db.metrics + {Row(id, agent, ts, data)})
  }

  /** `_covered_clause`: this raw row is represented, right now, at this resolution. */
  predicate Covered(db: Db, m: Row, r: Resolution) {
    var q := RowKey(m.id, r);
    && IsFolded(db, q)
    && db.coverage[q].agent == m.agent
    && var k := Key(m.agent, r, db.coverage[q].start);
      && k in db.buckets && m.id <= db.buckets[k].publishedGen
      && k in db.summaries
      && k !in db.partials
  }

  function Deletable(db: Db, rawCutoff: real): set<Row> {
    set m | m in db.metrics && m.ts < rawCutoff && Cutover(db) < m.id &&
            Covered(db, m, OneMinute) && Covered(db, m, FiveMinutes)
  }

  /** The buckets whose coverage names one of these rows. */
  predicate Touches(db: Db, doomed: set<Row>, k: Key) {
    exists m | m in doomed ::
      var q := RowKey(m.id, k.res);
      q in db.coverage && db.coverage[q].agent == k.agent && db.coverage[q].start == k.start
  }

  function Reclaim(db: Db, doomed: set<Row>): Db {
    db.(buckets := map k | k in db.buckets ::
                     if db.buckets[k].state == Open && Touches(db, doomed, k)
                     then db.buckets[k].(state := Sealed) else db.buckets[k],
        coverage := map q | q in db.coverage && q.id !in Ids(doomed) :: db.coverage[q],
        metrics := db.metrics - doomed)
  }

  predicate AnyCoverage(db: Db, k: Key) {
    exists q | q in db.coverage ::
      q.res == k.res && db.coverage[q].agent == k.agent && db.coverage[q].start == k.start
  }

  predicate AnyFolded(db: Db, k: Key) {
    exists q | q in db.coverage ::
      q.res == k.res && db.coverage[q].agent == k.agent && db.coverage[q].start == k.start &&
      db.coverage[q].state == Folded
  }

  function StaleSummaries(db: Db, cutoff: real): set<Key> {
    set k | k in db.summaries && k.start as real < cutoff && !AnyFolded(db, k) && k !in db.partials
  }

  function StaleBuckets(db: Db, cutoff: real): set<Key> {
    set k | k in db.buckets && k.start as real < cutoff && k !in db.summaries &&
            !AnyCoverage(db, k) && k !in db.partials
  }

  function PruneSummaries(db: Db, ks: set<Key>): Db {
    db.(summaries := db.summaries - ks)
  }

  function PruneBuckets(db: Db, ks: set<Key>): Db {
    db.(buckets := db.buckets - ks)
  }

  const WEEK: real := 604800.0

  /** A LIMIT without ORDER BY: the engine picks which rows, not how many. */
  ghost predicate Picked<T>(picked: set<T>, eligible: set<T>, limit: nat) {
    picked <= eligible && |picked| == if limit < |eligible| then limit else |eligible|
  }

  function Doomed(db: Db, now: real, maxAgeHours: int, limit: nat): set<Row>
    requires DistinctIds(db.metrics)
  {
    if db.cutover.None? then {}
    else Elements(First(Older, Deletable(db, now - (maxAgeHours * 3600) as real), limit))
  }

  /** The tables after a cleanup that pruned the summaries `ps` and the bucket rows `pb`. */
  function Cleanup(db: Db, now: real, maxAgeHours: int, batchLimit: int, ps: set<Key>, pb: set<Key>): Db
    requires DistinctIds(db.metrics)
  {
    var reclaimed := Reclaim(db, Doomed(db, now, maxAgeHours, Budget(batchLimit)));
    PruneBuckets(PruneSummaries(reclaimed, ps), pb)
  }

  ghost predicate CleanupPicks(db: Db, now: real, maxAgeHours: int, batchLimit: int, ps: set<Key>, pb: set<Key>)
    requires DistinctIds(db.metrics)
  {
    var limit := Budget(batchLimit);
    var reclaimed := Reclaim(db, Doomed(db, now, maxAgeHours, limit));
    && Picked(ps, StaleSummaries(reclaimed, now - WEEK), limit)
    && Picked(pb, StaleBuckets(PruneSummaries(reclaimed, ps), now - WEEK), limit)
  }
}
