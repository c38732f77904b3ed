/**
 The metric store as the procedures run it (backend/app/database.py:2808-3520): tables updated row
 by row inside loops, a budget that goes down, settled ids and doomed ids handled in chunks. Every
 procedure is proved to leave exactly the tables the function of the same name in `StoreModel`
 gives, and to keep the invariant that every theorem about whole runs rests on.
 */
module Store {
  import opened Wrappers
  import opened Ordering
  import opened Samples
  import opened StoreModel
  import opened StoreInvariant
  import opened StoreSteps
  import opened StoreTransactions
  import opened StoreCleanup

  /** SQLite takes a bounded number of variables in one statement. */
  const CHUNK := 400

  datatype Outcome = Unsupported | Failed | Completed(count: nat)

  /** The two resolutions the history tables serve. */
  function SpecOf(wanted: string): Option<Resolution> {
    if wanted == "1m" then Some(OneMinute)
    else if wanted == "5m" then Some(FiveMinutes)
    else None
  }

  /** The rows of one agent with `lo <= timestamp < hi`. */
  function Between(metrics: set<Row>, agent: Agent, lo: real, hi: real): set<Row> {
    set m | m in metrics && m.agent == agent && lo <= m.ts < hi
  }

  function InRange(metrics: set<Row>, k: Key): set<Row> {
    Between(metrics, k.agent, k.start as real, (k.start + Seconds(k.res)) as real)
  }

  /** What the queries of one bucket see is the bucket. */
  lemma RangeRows(db: Db, k: Key)
    requires k.start % Seconds(k.res) == 0
    ensures BucketRows(db, k) == set m | m in InRange(db.metrics, k) && Cutover(db) < m.id
    ensures HasLegacy(db, k) <==> exists m :: m in InRange(db.metrics, k) && m.id <= Cutover(db)
  {
    hide KeyOf;
    forall m | m in db.metrics
      ensures m in InRange(db.metrics, k) <==> KeyOf(m, k.res) == k
    {
      RangeIsBucket(m, k);
    }
  }

  // ── covering rows one at a time ─────────────────────

  lemma CoverOne(coverage: map<RowKey, Coverage>, rows: seq<Row>, i: nat, k: Key, state: CoverState)
    requires i < |rows|
    ensures Cover(coverage, Elements(rows[..i]), k, state)[RowKey(rows[i].id, k.res) := Coverage(k.agent, k.start, state)]
            == Cover(coverage, Elements(rows[..i + 1]), k, state)
  {
    assert rows[..i + 1] == rows[..i] + [rows[i]];
    assert Elements(rows[..i + 1]) == Elements(rows[..i]) + {rows[i]};
    assert RowKeys(Elements(rows[..i + 1]), k.res) == RowKeys(Elements(rows[..i]), k.res) + {RowKey(rows[i].id, k.res)};
  }

  lemma NothingCovered(coverage: map<RowKey, Coverage>, rows: seq<Row>, k: Key, state: CoverState)
    ensures Cover(coverage, Elements(rows[..0]), k, state) == coverage
    ensures rows[..|rows|] == rows
  {
    assert Elements(rows[..0]) == {};
    assert RowKeys({}, k.res) == {};
  }

  lemma NothingFolded(acc: Acc, rows: seq<Row>)
    ensures Fold(acc, Datas(rows[..0])) == Some(acc)
    ensures rows[..|rows|] == rows
  {
    assert Datas(rows[..0]) == [];
  }

  lemma FirstFrom<T(!new)>(less: Less<T>, s: set<T>, n: nat)
    requires StrictTotal(less, s)
    ensures forall x | x in First(less, s, n) :: x in s && x in Elements(First(less, s, n))
  {
    var q := First(less, s, n);
    hide First;
    forall x | x in q
      ensures x in s
    {
      assert x in Elements(q);
    }
  }

  lemma CoverCovers(coverage: map<RowKey, Coverage>, rows: set<Row>, k: Key, state: CoverState, q: RowKey)
    ensures q in Cover(coverage, rows, k, state) <==> q in coverage || q in RowKeys(rows, k.res)
    ensures q in RowKeys(rows, k.res) ==> Cover(coverage, rows, k, state)[q] == Coverage(k.agent, k.start, state)
  {
  }

  lemma FoldOne(acc: Acc, rows: seq<Row>, i: nat)
    requires i < |rows|
    ensures Fold(acc, Datas(rows[..i + 1])) ==
            (match Fold(acc, Datas(rows[..i])) case None => None case Some(mid) => AggAdd(mid, rows[i].data))
    ensures Fold(acc, Datas(rows[..i + 1])) == None ==> Fold(acc, Datas(rows)) == None
  {
    assert Datas(rows[..i + 1]) == Datas(rows[..i]) + [rows[i].data];
    assert Datas(rows) == Datas(rows[..i + 1]) + Datas(rows[i + 1..]);
    hide AggAdd;
    FoldAppend(acc, Datas(rows[..i]), [rows[i].data]);
    FoldAppend(acc, Datas(rows[..i + 1]), Datas(rows[i + 1..]));
    forall mid
      ensures Fold(mid, [rows[i].data]) == AggAdd(mid, rows[i].data)
    {
      assert [rows[i].data][1..] == [];
    }
  }

  // ── passes ──────────────────────────────────────────

  /** A pass that had already published `count` summaries before it got here. */
  ghost function Credited(p: Pass, count: nat): Pass {
    match p
    case PassRaised => PassRaised
    case Passed(db, left, more) => Passed(db, left, more + count)
  }

  ghost predicate PassAnswers(p: Pass, raised: bool, left: nat, count: nat, after: Db) {
    match p
    case PassRaised => raised
    case Passed(db, l, c) => !raised && left == l && count == c && after == db
  }

  ghost predicate Aligned(keys: seq<Key>) {
    forall k | k in keys :: k.start % Seconds(k.res) == 0
  }

  lemma AlignedAt(keys: seq<Key>, i: nat)
    requires Aligned(keys) && i < |keys|
    ensures keys[i].start % Seconds(keys[i].res) == 0
  {
  }

  /** A pass over `keys` from `db` comes to the same as the rest of it from where it now stands. */
  ghost predicate PassGoesOn(db: Db, keys: seq<Key>, budget: nat, published: nat,
                             raised: bool, after: Db, rest: seq<Key>, left: nat, count: nat)
    requires DistinctIds(db.metrics)
  {
    var whole := Credited(AdvanceAll(db, keys, budget), published);
    if raised then whole == PassRaised
    else after.metrics == db.metrics && whole == Credited(AdvanceAll(after, rest, left), count)
  }

  lemma PassIdles(db: Db, keys: seq<Key>, budget: nat, published: nat)
    requires DistinctIds(db.metrics)
    ensures PassGoesOn(db, keys, budget, published, false, db, keys, budget, published)
  {
  }

  /** What one advance leaves of a pass. */
  lemma PassStep(mid: Db, now: seq<Key>, left: nat, count: nat, failed: bool, used: nat, published: bool, after: Db)
    requires DistinctIds(mid.metrics) && now != [] && left != 0
    requires Answers(StoreModel.AdvanceBucket(mid, now[0], left), failed, used, published, after)
    ensures failed ==> forall rest, l, c :: PassGoesOn(mid, now, left, count, true, after, rest, l, c)
    ensures !failed ==>
              && used <= left
              && PassGoesOn(mid, now, left, count, false, after, now[1..], left - used, count + if published then 1 else 0)
  {
    hide *;
    AnswersIs(StoreModel.AdvanceBucket(mid, now[0], left), failed, used, published, after);
    AdvanceAllCases(mid, now, left);
    if failed {
      PassFails(mid, now, left, count, after);
    } else {
      PassMoves(mid, now, left, count, after, used, published);
    }
  }

  lemma PassFails(mid: Db, now: seq<Key>, left: nat, count: nat, after: Db)
    requires DistinctIds(mid.metrics) && AdvanceAll(mid, now, left) == PassRaised
    ensures forall rest, l, c :: PassGoesOn(mid, now, left, count, true, after, rest, l, c)
  {
    hide AdvanceAll, DistinctIds;
  }

  lemma PassMoves(mid: Db, now: seq<Key>, left: nat, count: nat, after: Db, used: nat, published: bool)
    requires DistinctIds(mid.metrics) && now != [] && used <= left && after.metrics == mid.metrics
    requires match AdvanceAll(after, now[1..], left - used)
             case PassRaised => AdvanceAll(mid, now, left) == PassRaised
             case Passed(last, over, more) =>
               AdvanceAll(mid, now, left) == Passed(last, over, more + if published then 1 else 0)
    ensures PassGoesOn(mid, now, left, count, false, after, now[1..], left - used, count + if published then 1 else 0)
  {
    hide AdvanceAll, DistinctIds;
  }

  lemma PassChains(db: Db, keys: seq<Key>, budget: nat, mid: Db, now: seq<Key>, had: nat, seen: nat,
                   raised: bool, after: Db, rest: seq<Key>, left: nat, count: nat)
    requires DistinctIds(db.metrics) && PassGoesOn(db, keys, budget, 0, false, mid, now, had, seen)
    requires DistinctIds(mid.metrics) && PassGoesOn(mid, now, had, seen, raised, after, rest, left, count)
    ensures PassGoesOn(db, keys, budget, 0, raised, after, rest, left, count)
    ensures raised ==> PassAnswers(AdvanceAll(db, keys, budget), true, left, count, after)
  {
    hide AdvanceAll, DistinctIds;
  }

  lemma PassBegins(db: Db, keys: seq<Key>, skip: set<Key>, budget: nat)
    requires DistinctIds(db.metrics)
    ensures PassGoesOn(db, Without(keys, skip), budget, 0, false, db, Without(keys[0..], skip), budget, 0)
    ensures Seen({}, keys, 0, skip)
  {
    hide AdvanceAll, DistinctIds;
    assert keys[0..] == keys;
  }

  lemma PassFinishes(db: Db, keys: seq<Key>, skip: set<Key>, budget: nat, after: Db, i: nat, left: nat, count: nat)
    requires DistinctIds(db.metrics) && i <= |keys| && (i == |keys| || left == 0)
    requires PassGoesOn(db, Without(keys, skip), budget, 0, false, after, Without(keys[i..], skip), left, count)
    ensures PassAnswers(AdvanceAll(db, Without(keys, skip), budget), false, left, count, after)
    ensures forall visited | left > 0 && Seen(visited, keys, i, skip) :: visited == Elements(keys) - skip
  {
    assert i == |keys| ==> keys[i..] == [] && keys[..i] == keys;
    hide AdvanceAll, DistinctIds;
    AdvanceAllCases(after, Without(keys[i..], skip), left);
  }

  /** One more key dealt with: it leads what was left unless it is to be skipped. */
  lemma WithoutStep(keys: seq<Key>, i: nat, skip: set<Key>)
    requires i < |keys|
    ensures var rest, now := Without(keys[i + 1..], skip), Without(keys[i..], skip);
            && (keys[i] in skip ==> now == rest)
            && (keys[i] !in skip ==> now != [] && now[0] == keys[i] && now[1..] == rest)
  {
    assert keys[i..][0] == keys[i] && keys[i..][1..] == keys[i + 1..];
  }

  /** The keys the loop has advanced when it comes to the `i`th. */
  ghost predicate Seen(visited: set<Key>, keys: seq<Key>, i: nat, skip: set<Key>)
    requires i <= |keys|
  {
    visited == Elements(keys[..i]) - skip
  }

  lemma VisitedStep(visited: set<Key>, keys: seq<Key>, i: nat, skip: set<Key>)
    requires i < |keys| && Seen(visited, keys, i, skip)
    ensures Seen(if keys[i] in skip then visited else visited + {keys[i]}, keys, i + 1, skip)
  {
    assert keys[..i + 1] == keys[..i] + [keys[i]];
  }

  lemma AnswersIs(a: Advance, raised: bool, used: nat, published: bool, after: Db)
    requires Answers(a, raised, used, published, after)
    ensures a.Raised? <==> raised
    ensures !raised ==> a == Advanced(after, used, published)
  {
  }

  ghost function RaisedProgress(db: Db, cs: set<Row>, f: FloorKey, r: Resolution, due: real): map<FloorKey, nat>
    requires OwnCandidates(cs, f.agent) != {}
  {
    var advanced := NewFloor(db, cs, f.agent, r, due);
    if advanced <= Cutover(db) then db.progress
    else db.progress[f := Max(if f in db.progress then db.progress[f] else 0, advanced)]
  }

  /** The floors once those of `done` have been raised and no other. */
  ghost predicate RaisedFor(db: Db, cs: set<Row>, r: Resolution, due: real, done: set<Agent>, after: map<FloorKey, nat>) {
    forall f: FloorKey ::
      if f.res == r && f.agent in done then SameAt(StoreModel.RaiseFloors(db, cs, r, due).progress, after, f)
      else SameAt(db.progress, after, f)
  }

  lemma SettledAre(candidates: seq<Row>, ids: seq<nat>, settled: set<nat>, coverage: map<RowKey, Coverage>, r: Resolution)
    requires ids == seq(|candidates|, i requires 0 <= i < |candidates| => candidates[i].id)
    requires settled == set id | id in ids && RowKey(id, r) in coverage
    ensures settled == set id | id in Ids(Elements(candidates)) && RowKey(id, r) in coverage
  {
    forall id
      ensures id in ids <==> id in Ids(Elements(candidates))
    {
      if id in ids {
        var i :| 0 <= i < |ids| && ids[i] == id;
        assert candidates[i] in Elements(candidates);
      }
      if id in Ids(Elements(candidates)) {
        var m :| m in candidates && m.id == id;
        var i :| 0 <= i < |candidates| && candidates[i] == m;
        assert ids[i] == id;
      }
    }
  }

  lemma RaiseNone(db: Db, cs: set<Row>, r: Resolution, due: real)
    ensures RaisedFor(db, cs, r, due, {}, db.progress)
    ensures db.(progress := db.progress) == db
    ensures {} + AgentsOf(cs) == AgentsOf(cs)
  {
  }

  lemma CandidateOf(cs: set<Row>, agent: Agent, agents: set<Agent>)
    requires agent in agents && agents == AgentsOf(cs)
    ensures OwnCandidates(cs, agent) != {}
  {
    var m :| m in cs && m.agent == agent;
    assert m in OwnCandidates(cs, agent);
  }

  lemma RaiseOne(db: Db, mid: Db, cs: set<Row>, r: Resolution, due: real, done: set<Agent>, agent: Agent,
                 after: map<FloorKey, nat>)
    requires mid == db.(progress := mid.progress) && RaisedFor(db, cs, r, due, done, mid.progress)
    requires agent !in done && OwnCandidates(cs, agent) != {}
    requires after == RaisedProgress(mid, cs, FloorKey(agent, r), r, due)
    ensures RaisedFor(db, cs, r, due, done + {agent}, after)
  {
    var f := FloorKey(agent, r);
    hide *;
    RaisedHere(db, mid, cs, r, due, done, f);
    RaisedThere(db, cs, r, due, f, after);
    RaisedStep(db, mid, cs, r, due, done, f, after);
  }

  /** Raising the floor of one agent does not look at, or touch, the floor of another. */
  lemma RaisedHere(db: Db, mid: Db, cs: set<Row>, r: Resolution, due: real, done: set<Agent>, f: FloorKey)
    requires mid == db.(progress := mid.progress) && RaisedFor(db, cs, r, due, done, mid.progress)
    requires f.res == r && f.agent !in done && OwnCandidates(cs, f.agent) != {}
    ensures SameAt(RaisedProgress(db, cs, f, r, due), RaisedProgress(mid, cs, f, r, due), f)
    ensures forall g | g != f :: SameAt(mid.progress, RaisedProgress(mid, cs, f, r, due), g)
  {
    assert Holding(mid, cs, f.agent, r, due) == Holding(db, cs, f.agent, r, due);
    assert SameAt(db.progress, mid.progress, f);
    hide Holding, OwnCandidates, RaisedFor, StoreModel.RaiseFloors;
  }

  lemma RaisedStep(db: Db, mid: Db, cs: set<Row>, r: Resolution, due: real, done: set<Agent>, f: FloorKey,
                   after: map<FloorKey, nat>)
    requires RaisedFor(db, cs, r, due, done, mid.progress) && f.res == r && f.agent !in done
    requires forall g | g != f :: SameAt(mid.progress, after, g)
    requires SameAt(StoreModel.RaiseFloors(db, cs, r, due).progress, after, f)
    ensures RaisedFor(db, cs, r, due, done + {f.agent}, after)
  {
    hide StoreModel.RaiseFloors;
    forall g: FloorKey
      ensures if g.res == r && g.agent in done + {f.agent} then SameAt(StoreModel.RaiseFloors(db, cs, r, due).progress, after, g)
              else SameAt(db.progress, after, g)
    {
      assert g != f ==> SameAt(mid.progress, after, g);
    }
  }

  lemma RaisedThere(db: Db, cs: set<Row>, r: Resolution, due: real, f: FloorKey, after: map<FloorKey, nat>)
    requires f.res == r && OwnCandidates(cs, f.agent) != {}
    requires SameAt(RaisedProgress(db, cs, f, r, due), after, f)
    ensures SameAt(StoreModel.RaiseFloors(db, cs, r, due).progress, after, f)
  {
    hide NewFloor;
    var c :| c in OwnCandidates(cs, f.agent);
    assert f.agent in AgentsOf(cs) && f == FloorKey(f.agent, r);
  }

  lemma RaiseAll(db: Db, cs: set<Row>, r: Resolution, due: real, after: map<FloorKey, nat>)
    requires RaisedFor(db, cs, r, due, AgentsOf(cs), after)
    ensures StoreModel.RaiseFloors(db, cs, r, due) == db.(progress := after)
  {
    var target := StoreModel.RaiseFloors(db, cs, r, due).progress;
    hide StoreModel.RaiseFloors, SameAt;
    forall f
      ensures SameAt(target, after, f)
    {
      RaisedElsewhere(db, cs, r, due, f);
      SameAtBoth(db.progress, target, after, f);
    }
    SameEverywhere(target, after);
    RaiseFloorsIs(db, cs, r, due);
  }

  lemma SameAtBoth<K, V>(a: map<K, V>, b: map<K, V>, c: map<K, V>, x: K)
    ensures SameAt(a, b, x) && SameAt(a, c, x) ==> SameAt(b, c, x)
  {
  }

  lemma SameEverywhere<K(!new), V>(a: map<K, V>, b: map<K, V>)
    requires forall x :: SameAt(a, b, x)
    ensures a == b
  {
    assert forall x | x in a :: SameAt(a, b, x);
    assert forall x | x in b :: SameAt(a, b, x);
  }

  lemma RaisedElsewhere(db: Db, cs: set<Row>, r: Resolution, due: real, f: FloorKey)
    ensures f.res != r || f.agent !in AgentsOf(cs) ==>
              SameAt(db.progress, StoreModel.RaiseFloors(db, cs, r, due).progress, f)
  {
    hide NewFloor;
    if f.res == r && OwnCandidates(cs, f.agent) != {} {
      var c :| c in OwnCandidates(cs, f.agent);
      assert c.agent in AgentsOf(cs);
    }
  }

  /** A procedure that ended like this is this advance; one that raised is rolled back by its caller. */
  ghost predicate Answers(a: Advance, raised: bool, used: nat, published: bool, after: Db) {
    match a
    case Raised => raised
    case Advanced(db, u, p) => !raised && used == u && published == p && after == db
  }

  lemma AnswersRaised(a: Advance, raised: bool, used: nat, published: bool, after: Db)
    requires a.Raised?
    ensures Answers(a, true, used, published, after)
  {
  }

  lemma AnswersAdvanced(a: Advance, used: nat, published: bool, after: Db)
    requires a == Advanced(after, used, published)
    ensures Answers(a, false, used, published, after)
  {
  }

  lemma RemainingSame(db: Db, next: Db, k: Key, p: Partial)
    requires next.metrics == db.metrics && next.cutover == db.cutover
    ensures Remaining(next, k, p) == Remaining(db, k, p)
  {
    hide KeyOf, AfterCursor;
  }

  /** The four ways a batch can end. */
  lemma FoldBatchForms(db: Db, k: Key, p: Partial, budget: nat)
    requires DistinctIds(db.metrics) && StrictTotal(Earlier, Remaining(db, k, p))
    ensures var rows := First(Earlier, Remaining(db, k, p), budget);
            var covered := db.(coverage := Cover(db.coverage, Elements(rows), k, Folded));
            var a := StoreModel.FoldBatch(db, k, p, budget);
            match Fold(p.acc, Datas(rows))
            case None => a == Raised
            case Some(acc) =>
              if Remaining(db, k, MoveCursor(p, rows, acc)) != {} then
                a == Advanced(covered.(partials := db.partials[k := ReadBack(MoveCursor(p, rows, acc))]), |rows|, false)
              else
                var cleared := covered.(partials := db.partials - {k});
                match AggFinalize(acc)
                case None => a == Advanced(cleared, |rows|, false)
                case Some(avg) => a == Advanced(Publish(cleared, k, avg, p.through), |rows|, true)
  {
    hide First, Fold, Datas, MoveCursor, Cover, AggFinalize, Remaining, Elements, DistinctIds, StrictTotal, Publish;
  }

  // ── one call ────────────────────────────────────────

  /** The buckets of the candidates, in the order of first appearance. */
  method GroupByBucket(candidates: seq<Row>, r: Resolution) returns (keys: seq<Key>)
    ensures keys == BucketsOf(candidates, r)
  {
    hide KeyOf;
    keys := [];
    for i := 0 to |candidates|
      invariant keys == BucketsOf(candidates[..i], r)
    {
      assert candidates[..i + 1][..i] == candidates[..i];
      var k := KeyOf(candidates[i], r);
      if k !in keys {
        keys := keys + [k];
      }
    }
    assert candidates[..|candidates|] == candidates;
  }

  ghost function OfBucket(candidates: seq<Row>, k: Key): set<Row> {
    set m | m in candidates && KeyOf(m, k.res) == k
  }

  /** The lowest candidate id of a bucket; 0 when no candidate is in it. */
  ghost function LowestIn(candidates: seq<Row>, k: Key): nat {
    if OfBucket(candidates, k) == {} then 0 else MinId(OfBucket(candidates, k))
  }

  /**
   Candidates come lowest id first, so the order of first appearance is the order of each bucket's
   lowest candidate id: sorting the groups by it would change nothing.
   */
  lemma {:induction false} BucketsByLowestId(candidates: seq<Row>, r: Resolution, i: nat, j: nat)
    requires Increasing(Older, candidates) && i < j < |BucketsOf(candidates, r)|
    ensures var keys := BucketsOf(candidates, r);
            LowestIn(candidates, keys[i]) < LowestIn(candidates, keys[j])
    decreases |candidates|
  {
    hide *;
    var n := |candidates| - 1;
    BucketsGrow(candidates, r);
    FrontIncreasing(candidates);
    var front, last := candidates[..n], candidates[n];
    var older := BucketsOf(front, r);
    LowestStays(front, last, older[i], r);
    if j < |older| {
      BucketsByLowestId(front, r, i, j);
      LowestStays(front, last, older[j], r);
    } else {
      NewBucket(front, last, r);
    }
  }

  lemma BucketsGrow(candidates: seq<Row>, r: Resolution)
    ensures candidates == [] ==> BucketsOf(candidates, r) == []
    ensures candidates != [] ==>
              var n := |candidates| - 1;
              var older, k := BucketsOf(candidates[..n], r), KeyOf(candidates[n], r);
              BucketsOf(candidates, r) == if k in older then older else older + [k]
  {
    hide KeyOf;
  }

  lemma FrontIncreasing(q: seq<Row>)
    requires Increasing(Older, q) && q != []
    ensures Increasing(Older, q[..|q| - 1]) && q == q[..|q| - 1] + [q[|q| - 1]]
  {
    var front := q[..|q| - 1];
    forall i, j | 0 <= i < j < |front|
      ensures Older(front[i], front[j])
    {
      assert Older(q[i], q[j]);
    }
  }

  /** A later candidate does not change the lowest id of a bucket already there, and is above it. */
  lemma LowestStays(front: seq<Row>, last: Row, k: Key, r: Resolution)
    requires Increasing(Older, front + [last]) && k in BucketsOf(front, r)
    ensures LowestIn(front + [last], k) == LowestIn(front, k) < last.id
  {
    hide KeyOf, MinId;
    var m :| m in front && KeyOf(m, r) == k;
    KeyRes(m, r);
    var all := front + [last];
    assert m in OfBucket(front, k);
    var low :| low in OfBucket(front, k) && low.id == MinId(OfBucket(front, k));
    assert low in OfBucket(all, k);
    var at :| 0 <= at < |front| && front[at] == low;
    assert Older(all[at], all[|front|]);
    var least :| least in OfBucket(all, k) && least.id == MinId(OfBucket(all, k));
    if least in front {
      assert least in OfBucket(front, k);
    }
  }

  lemma NewBucket(front: seq<Row>, last: Row, r: Resolution)
    requires KeyOf(last, r) !in BucketsOf(front, r)
    ensures LowestIn(front + [last], KeyOf(last, r)) == last.id
  {
    var k := KeyOf(last, r);
    KeyRes(last, r);
    hide KeyOf, MinId;
    forall m
      ensures m in OfBucket(front + [last], k) <==> m == last
    {
      assert m in front ==> KeyOf(m, r) in BucketsOf(front, r);
    }
    assert OfBucket(front + [last], k) == {last};
  }

  /** A run that ended like this left the tables one call leaves. */
  ghost predicate RunAnswers(db: Db, r: Resolution, due: real, batch: nat, raised: bool, count: nat, after: Db)
    requires DistinctIds(db.metrics)
  {
    match FirstPass(db, r, batch)
    case PassRaised => raised
    case Passed(db1, left1, count1) =>
      match SecondPass(db1, r, due, InFlight(db, r, batch), left1)
      case PassRaised => raised
      case Passed(db2, left2, count2) =>
        !raised && count == count1 + count2 &&
        after == StoreModel.RaiseFloors(db2, Elements(Candidates(db1, r, due, left1)), r, due)
  }

  lemma InFlightAligned(db: Db, h: History, r: Resolution, budget: nat)
    requires Inv(db, h)
    ensures Aligned(InFlight(db, r, budget))
  {
    hide InFlight, Inv;
    forall k | k in InFlight(db, r, budget)
      ensures k.start % Seconds(k.res) == 0
    {
      InvParts(db, h);
      assert PartialInv(db, h, k);
    }
  }

  lemma BucketsAligned(candidates: seq<Row>, r: Resolution)
    ensures Aligned(BucketsOf(candidates, r))
  {
    hide BucketsOf;
    forall k | k in BucketsOf(candidates, r)
      ensures k.start % Seconds(k.res) == 0
    {
      var m :| m in candidates && KeyOf(m, r) == k;
    }
  }

  lemma NothingSkipped(keys: seq<Key>)
    ensures Without(keys, {}) == keys && Elements(keys) - {} == Elements(keys)
  {
    WithoutNothing(keys);
  }

  /** Once the budget is spent nothing is scanned, so it does not matter what was visited. */
  lemma SameBacklog(db: Db, r: Resolution, due: real, left: nat, keys: seq<Key>, visited: set<Key>)
    requires DistinctIds(db.metrics) && (left > 0 ==> visited == Elements(keys))
    ensures var candidates := Candidates(db, r, due, left);
            Without(BucketsOf(candidates, r), visited) == Backlog(candidates, r, keys)
  {
    CandidatesTotal(db, r, due);
    hide First, CandidateRows;
    assert left == 0 ==> Candidates(db, r, due, left) == [];
  }

  lemma FirstRaised(db: Db, r: Resolution, due: real, batch: nat, left: nat, count: nat, after: Db)
    requires DistinctIds(db.metrics) && PassAnswers(FirstPass(db, r, batch), true, left, count, after)
    ensures RunAnswers(db, r, due, batch, true, count, after)
  {
    hide FirstPass, SecondPass;
  }

  lemma FirstPassed(db: Db, r: Resolution, batch: nat, left: nat, count: nat, mid: Db)
    requires DistinctIds(db.metrics) && PassAnswers(FirstPass(db, r, batch), false, left, count, mid)
    ensures FirstPass(db, r, batch) == Passed(mid, left, count)
  {
    hide FirstPass;
  }

  lemma SecondRaised(db: Db, mid: Db, r: Resolution, due: real, batch: nat, spare: nat, count: nat,
                     left: nat, more: nat, after: Db)
    requires DistinctIds(db.metrics) && DistinctIds(mid.metrics) && FirstPass(db, r, batch) == Passed(mid, spare, count)
    requires PassAnswers(SecondPass(mid, r, due, InFlight(db, r, batch), spare), true, left, more, after)
    ensures RunAnswers(db, r, due, batch, true, count, after)
  {
    hide FirstPass, SecondPass, InFlight;
  }

  lemma BothPassed(db: Db, mid: Db, late: Db, r: Resolution, due: real, batch: nat, spare: nat, count: nat,
                   left: nat, more: nat)
    requires DistinctIds(db.metrics) && DistinctIds(mid.metrics) && FirstPass(db, r, batch) == Passed(mid, spare, count)
    requires PassAnswers(SecondPass(mid, r, due, InFlight(db, r, batch), spare), false, left, more, late)
    ensures RunAnswers(db, r, due, batch, false, count + more,
                       StoreModel.RaiseFloors(late, Elements(Candidates(mid, r, due, spare)), r, due))
  {
    hide FirstPass, SecondPass, InFlight, StoreModel.RaiseFloors, Candidates;
  }

  lemma RunIsDownsample(db: Db, r: Resolution, now: real, batchLimit: int, raised: bool, count: nat, after: Db)
    requires DistinctIds(db.metrics) && db.cutover.Some?
    requires RunAnswers(db, r, DueCutoff(now, r), Budget(batchLimit), raised, count, after)
    ensures var done := Downsample(db, r, now, batchLimit);
            && done.raised == raised
            && (raised ==> done.db == db)
            && (!raised ==> done.db == after && done.count == count)
  {
    hide FirstPass, SecondPass, InFlight, StoreModel.RaiseFloors, Candidates, DueCutoff, Budget;
  }

  ghost predicate DownsampleAnswers(db: Db, r: Resolution, now: real, batchLimit: int, outcome: Outcome, after: Db) {
    DistinctIds(db.metrics) &&
    var done := Downsample(db, r, now, batchLimit);
    after == done.db && outcome == if done.raised then Failed else Completed(done.count)
  }

  /** Without the cutover marker nothing is provable, and nothing is aggregated. */
  lemma NothingProvable(db: Db, r: Resolution, now: real, batchLimit: int)
    requires DistinctIds(db.metrics) && db.cutover.None?
    ensures Downsample(db, r, now, batchLimit) == Maintenance(db, 0, 0, false)
  {
    hide DistinctIds;
  }

  // ── retention ───────────────────────────────────────

  /** A LIMIT without ORDER BY takes any rows there are, up to the limit. */
  method PickSome<T>(eligible: set<T>, limit: nat) returns (picked: set<T>)
    ensures Picked(picked, eligible, limit)
  {
    var rest := eligible;
    picked := {};
    while |picked| < limit && rest != {}
      invariant picked + rest == eligible && picked !! rest
      invariant |picked| <= limit
      decreases |rest|
    {
      var x :| x in rest;
      picked, rest := picked + {x}, rest - {x};
    }
    assert |eligible| == |picked| + |rest|;
  }

  lemma SealsAreTouched(db: Db, doomed: set<Row>, seals: set<Key>)
    requires seals == set q | q in db.coverage && q.id in Ids(doomed) ::
                        Key(db.coverage[q].agent, q.res, db.coverage[q].start)
    ensures forall k :: k in seals <==> Touches(db, doomed, k)
  {
    forall k
      ensures k in seals <==> Touches(db, doomed, k)
    {
      if k in seals {
        var q :| q in db.coverage && q.id in Ids(doomed) && k == Key(db.coverage[q].agent, q.res, db.coverage[q].start);
        var m :| m in doomed && m.id == q.id;
        assert q == RowKey(m.id, k.res);
      }
      if Touches(db, doomed, k) {
        var m :| m in doomed && RowKey(m.id, k.res) in db.coverage &&
                 db.coverage[RowKey(m.id, k.res)].agent == k.agent && db.coverage[RowKey(m.id, k.res)].start == k.start;
        assert m.id in Ids(doomed);
        assert k == Key(db.coverage[RowKey(m.id, k.res)].agent, RowKey(m.id, k.res).res, db.coverage[RowKey(m.id, k.res)].start);
      }
    }
  }

  lemma IdsOf(rows: seq<Row>, ids: set<nat>)
    requires ids == set m | m in rows :: m.id
    ensures ids == Ids(Elements(rows))
  {
    assert forall m :: m in rows <==> m in Elements(rows);
  }

  /** What reclaiming comes to, statement by statement. */
  lemma ReclaimForm(db: Db, doomed: set<Row>, ids: set<nat>, seals: set<Key>)
    requires DistinctIds(db.metrics) && doomed <= db.metrics && ids == Ids(doomed)
    requires forall k :: k in seals <==> Touches(db, doomed, k)
    ensures doomed == set m | m in db.metrics && m.id in ids
    ensures Reclaim(db, doomed) ==
            db.(buckets := map k | k in db.buckets ::
                             if db.buckets[k].state == Open && k in seals then db.buckets[k].(state := Sealed) else db.buckets[k],
                coverage := map q | q in db.coverage && q.id !in ids :: db.coverage[q],
                metrics := db.metrics - doomed)
  {
    hide Touches;
  }

  lemma ReclaimNothing(db: Db, rows: seq<Row>)
    ensures Elements(rows[..0]) == {} && rows[..|rows|] == rows
    ensures Reclaim(db, {}) == db
  {
    assert Ids({}) == {};
    assert Reclaim(db, {}).coverage == db.coverage;
    assert Reclaim(db, {}).buckets == db.buckets;
    assert db.metrics - {} == db.metrics;
  }

  /** Reclaiming in chunks is reclaiming at once: a chunk leaves the coverage of the others alone. */
  lemma ReclaimChunks(db: Db, early: set<Row>, late: set<Row>)
    requires DistinctIds(db.metrics) && early <= db.metrics && late <= db.metrics && early !! late
    ensures Reclaim(Reclaim(db, early), late) == Reclaim(db, early + late)
  {
    var mid := Reclaim(db, early);
    assert Ids(early + late) == Ids(early) + Ids(late);
    assert db.metrics - early - late == db.metrics - (early + late);
    assert Reclaim(mid, late).coverage == Reclaim(db, early + late).coverage;
    hide Reclaim;
    forall k
      ensures Touches(mid, late, k) <==> Touches(db, late, k)
      ensures Touches(db, early + late, k) <==> Touches(db, early, k) || Touches(db, late, k)
    {
      LateTouches(db, early, late, k);
    }
    ReclaimedAlike(db, early, late);
  }

  lemma LateTouches(db: Db, early: set<Row>, late: set<Row>, k: Key)
    requires DistinctIds(db.metrics) && early <= db.metrics && late <= db.metrics && early !! late
    ensures Touches(Reclaim(db, early), late, k) <==> Touches(db, late, k)
    ensures Touches(db, early + late, k) <==> Touches(db, early, k) || Touches(db, late, k)
  {
    var mid := Reclaim(db, early);
    forall m | m in late
      ensures var q := RowKey(m.id, k.res);
              (q in mid.coverage <==> q in db.coverage) && (q in db.coverage ==> mid.coverage[q] == db.coverage[q])
    {
      assert m.id !in Ids(early);
    }
  }

  lemma ReclaimedAlike(db: Db, early: set<Row>, late: set<Row>)
    requires var mid := Reclaim(db, early);
             forall k :: (Touches(mid, late, k) <==> Touches(db, late, k)) &&
                         (Touches(db, early + late, k) <==> Touches(db, early, k) || Touches(db, late, k))
    ensures Reclaim(Reclaim(db, early), late) == Reclaim(db, early + late)
  {
    var mid, last, all := Reclaim(db, early), Reclaim(Reclaim(db, early), late), Reclaim(db, early + late);
    hide Touches;
    assert Ids(early + late) == Ids(early) + Ids(late);
    assert last.metrics == all.metrics;
    assert last.coverage == all.coverage;
    assert last.buckets == all.buckets by {
      forall k | k in db.buckets
        ensures last.buckets[k] == all.buckets[k]
      {
        assert Touches(mid, late, k) <==> Touches(db, late, k);
      }
    }
  }

  lemma ChunkEnd(start: nat, length: nat)
    requires start < length
    ensures start < Min(start + CHUNK, length) <= length
  {
  }

  lemma ChunkOf(db: Db, rows: seq<Row>, start: nat, end: nat)
    requires DistinctIds(db.metrics) && Elements(rows) <= db.metrics && |Elements(rows)| == |rows|
    requires start <= end <= |rows|
    ensures var early, late := Elements(rows[..start]), Elements(rows[start..end]);
            && early <= db.metrics && late <= db.metrics && early !! late
            && early + late == Elements(rows[..end]) && |late| == end - start
            && DistinctIds(Reclaim(db, early).metrics) && late <= Reclaim(db, early).metrics
  {
    hide *;
    var a, b, c := rows[..start], rows[start..end], rows[end..];
    assert rows == a + b + c && rows[..end] == a + b;
    ElementsOfJoin(a, b);
    ElementsOfJoin(a + b, c);
    AtMostLength(a);
    AtMostLength(b);
    AtMostLength(c);
    CountOfJoin(Elements(a), Elements(b), Elements(c), |a|, |b|, |c|);
    ReclaimedMetrics(db, Elements(a));
    FewerRows(db, Elements(a), Elements(b));
  }

  lemma ElementsOfJoin<T>(a: seq<T>, b: seq<T>)
    ensures Elements(a + b) == Elements(a) + Elements(b)
  {
  }

  /** Three parts that reach their full count together overlap nowhere. */
  lemma CountOfJoin<T>(a: set<T>, b: set<T>, c: set<T>, na: nat, nb: nat, nc: nat)
    requires |a| <= na && |b| <= nb && |c| <= nc && |a + b + c| == na + nb + nc
    ensures a !! b && |b| == nb
  {
    assert |a + b + c| <= |a + b| + |c|;
    assert |a + b| == |a| + |b| - |a * b|;
    assert |a * b| == 0;
    forall x | x in a
      ensures x !in b
    {
      assert x !in a * b;
    }
  }

  lemma FewerRows(db: Db, early: set<Row>, late: set<Row>)
    requires DistinctIds(db.metrics) && early !! late && late <= db.metrics
    ensures DistinctIds(db.metrics - early) && late <= db.metrics - early
  {
  }

  lemma ReclaimedMetrics(db: Db, doomed: set<Row>)
    ensures Reclaim(db, doomed).metrics == db.metrics - doomed
  {
  }

  lemma {:induction false} AtMostLength<T>(q: seq<T>)
    ensures |Elements(q)| <= |q|
    decreases |q|
  {
    if q == [] {
      assert Elements(q) == {};
    } else {
      AtMostLength(q[1..]);
      assert q == [q[0]] + q[1..];
      assert Elements(q) == {q[0]} + Elements(q[1..]);
    }
  }

  lemma DoomedCases(db: Db, now: real, maxAgeHours: int, limit: nat)
    requires DistinctIds(db.metrics)
    ensures db.cutover.None? ==> Doomed(db, now, maxAgeHours, limit) == {}
    ensures StrictTotal(Older, Deletable(db, now - (maxAgeHours * 3600) as real))
    ensures db.cutover.Some? ==>
              Doomed(db, now, maxAgeHours, limit) ==
              Elements(First(Older, Deletable(db, now - (maxAgeHours * 3600) as real), limit))
  {
    DeletableTotal(db, now - (maxAgeHours * 3600) as real);
    hide Deletable, First, Elements;
  }

  lemma DeletableWithin(db: Db, rawCutoff: real, limit: nat)
    requires StrictTotal(Older, Deletable(db, rawCutoff))
    ensures var rows := First(Older, Deletable(db, rawCutoff), limit);
            Elements(rows) <= db.metrics && |Elements(rows)| == |rows|
  {
    assert Deletable(db, rawCutoff) <= db.metrics;
    hide Deletable, First;
  }

  /** The tables of the metric pipeline, and what they forget. */
  class MetricStore {
    var lastId: nat
    var cutover: Option<nat>
    var metrics: set<Row>
    var coverage: map<RowKey, Coverage>
    var buckets: map<Key, Bucket>
    var partials: map<Key, Partial>
    var summaries: map<Key, Sample>
    var progress: map<FloorKey, nat>
    ghost var history: History

    function View(): Db
      reads this
    {
      Db(lastId, cutover, metrics, coverage, buckets, partials, summaries, progress)
    }

    lemma ViewRows()
      ensures View().metrics == metrics && View().cutover == cutover && View().coverage == coverage
      ensures View().partials == partials && View().summaries == summaries && View().buckets == buckets
    {
    }

    ghost predicate Valid()
      reads this
    {
      Inv(View(), history)
    }

    /** Tracking has just been installed over the rows and summaries of an older build. */
    constructor (lastId: nat, legacy: set<Row>, summaries: map<Key, Sample>)
      requires DistinctIds(legacy) && forall m | m in legacy :: 1 <= m.id <= lastId
      ensures Valid()
      ensures View() == Db(lastId, Some(lastId), legacy, map[], map[], map[], summaries, map[])
      ensures history == History(legacy, map[], {})
    {
      this.lastId, this.cutover, this.metrics := lastId, Some(lastId), legacy;
      this.coverage, this.buckets, this.partials, this.summaries := map[], map[], map[], summaries;
      this.progress, this.history := map[], History(legacy, map[], {});
      new;
      hide KeyOf;
    }

    lemma ValidView()
      requires Valid()
      ensures Inv(View(), history)
    {
      hide Inv;
    }

    /** Give every field back the value it had: what a rolled-back transaction leaves. */
    method Restore(db: Db)
      modifies this
      ensures View() == db && history == old(history)
    {
      lastId, cutover, metrics, coverage := db.lastId, db.cutover, db.metrics, db.coverage;
      buckets, partials, summaries, progress := db.buckets, db.partials, db.summaries, db.progress;
    }

    method StoreMetric(agent: Agent, ts: real, data: Sample)
      requires Valid()
      modifies this
      ensures Valid()
      ensures View() == StoreModel.StoreMetric(old(View()), agent, ts, data)
      ensures history == old(history).(stored := old(history).stored + {Row(old(lastId) + 1, agent, ts, data)})
    {
      hide Inv;
      StoreKeeps(View(), history, agent, ts, data);
      var row := Row(lastId + 1, agent, ts, data);
      lastId, metrics := row.id, metrics + {row};
      history := history.(stored := history.stored + {row});
    }

    // ── one bucket ────────────────────────────────────

    /** One coverage row per raw row, unless it has one already. */
    method CoverPending(rows: seq<Row>, k: Key)
      requires forall m | m in rows :: RowKey(m.id, k.res) !in coverage
      modifies `coverage
      ensures coverage == Cover(old(coverage), Elements(rows), k, Pending)
    {
      ghost var before := coverage;
      NothingCovered(coverage, rows, k, Pending);
      hide *;
      for i := 0 to |rows|
        invariant coverage == Cover(before, Elements(rows[..i]), k, Pending)
      {
        CoverOne(before, rows, i, k, Pending);
        var q := RowKey(rows[i].id, k.res);
        CoverCovers(before, Elements(rows[..i]), k, Pending, q);
        if q !in coverage {
          coverage := coverage[q := Coverage(k.agent, k.start, Pending)];
        } else {
          assert coverage == coverage[q := Coverage(k.agent, k.start, Pending)];
        }
      }
    }

    method MarkPending(k: Key, budget: nat) returns (marked: nat)
      requires DistinctIds(metrics) && k.start % Seconds(k.res) == 0
      modifies `coverage
      ensures StoreModel.MarkPending(old(View()), k, budget) == Advanced(View(), marked, false)
    {
      hide First, BucketRows, KeyOf, InRange, Cover, DistinctIds, StrictTotal, Elements;
      var floor := if cutover.Some? then cutover.value else 0;
      var undecided := set m | m in InRange(metrics, k) && floor < m.id && RowKey(m.id, k.res) !in coverage;
      RangeRows(View(), k);
      assert undecided == Undecided(View(), k);
      UndecidedTotal(View(), k);
      var rows := First(Older, undecided, budget);
      FirstFrom(Older, undecided, budget);
      CoverPending(rows, k);
      marked := |rows|;
    }

    /**
     Fold the rows in, one by one, covering each and moving the cursor behind it. None is an
     exception that leaves the fold.
     */
    method FoldRows(p: Partial, rows: seq<Row>, k: Key) returns (done: Option<Acc>, lastTs: real, lastId: nat)
      modifies `coverage
      ensures done == Fold(p.acc, Datas(rows))
      ensures done.Some? ==>
                && View() == old(View()).(coverage := Cover(old(coverage), Elements(rows), k, Folded))
                && MoveCursor(p, rows, done.value) == Partial(done.value.n, lastTs, lastId, p.through, done.value)
    {
      ghost var before := coverage;
      var state := p.acc;
      lastTs, lastId := p.lastTs, p.lastId;
      NothingCovered(coverage, rows, k, Folded);
      NothingFolded(p.acc, rows);
      hide Fold, Cover, AggAdd, Datas, Elements;
      for i := 0 to |rows|
        invariant Fold(p.acc, Datas(rows[..i])) == Some(state)
        invariant coverage == Cover(before, Elements(rows[..i]), k, Folded)
        invariant lastTs == (if i == 0 then p.lastTs else rows[i - 1].ts)
        invariant lastId == (if i == 0 then p.lastId else rows[i - 1].id)
      {
        FoldOne(p.acc, rows, i);
        CoverOne(before, rows, i, k, Folded);
        var next := AggAdd(state, rows[i].data);
        if next.None? {
          return None, lastTs, lastId;
        }
        state := next.value;
        coverage := coverage[RowKey(rows[i].id, k.res) := Coverage(k.agent, k.start, Folded)];
        lastTs, lastId := rows[i].ts, rows[i].id;
      }
      done := Some(state);
    }

    method Waiting(k: Key, p: Partial) returns (rows: set<Row>)
      requires DistinctIds(metrics) && k.start % Seconds(k.res) == 0
      ensures rows == Remaining(View(), k, p) && StrictTotal(Earlier, rows)
    {
      hide KeyOf, InRange, DistinctIds, AfterCursor;
      var floor := if cutover.Some? then cutover.value else 0;
      rows := set m | m in InRange(metrics, k) && floor < m.id && m.id <= p.through && AfterCursor(p, m);
      RangeRows(View(), k);
      RemainingTotal(View(), k, p);
    }

    method SavePartial(k: Key, moved: Partial)
      modifies `partials
      ensures View() == old(View()).(partials := old(partials)[k := moved])
    {
      partials := partials[k := moved];
    }

    method DropPartial(k: Key)
      modifies `partials
      ensures View() == old(View()).(partials := old(partials) - {k})
    {
      partials := partials - {k};
    }

    method PublishSummary(k: Key, avg: Sample, through: nat)
      modifies `summaries, `buckets
      ensures View() == Publish(old(View()), k, avg, through)
    {
      summaries := summaries[k := avg];
      var gen := if k in buckets then buckets[k].publishedGen else 0;
      buckets := buckets[k := Bucket(Open, Max(gen, through))];
    }

    /** Fold the next batch of the generation `p`, then save the cursor or publish the average. */
    method FoldBatch(k: Key, p: Partial, budget: nat) returns (raised: bool, used: nat, published: bool)
      requires DistinctIds(metrics) && k.start % Seconds(k.res) == 0
      modifies `coverage, `partials, `summaries, `buckets
      ensures Answers(StoreModel.FoldBatch(old(View()), k, p, budget), raised, used, published, View())
    {
      hide *;
      ghost var before := View();
      ViewRows();
      var waiting := Waiting(k, p);
      var rows := First(Earlier, waiting, budget);
      FoldBatchForms(before, k, p, budget);
      var folded, lastTs, lastId := FoldRows(p, rows, k);
      if folded.None? {
        AnswersRaised(StoreModel.FoldBatch(before, k, p, budget), false, 0, false, View());
        return true, 0, false;
      }
      var state := folded.value;
      var moved := Partial(state.n, lastTs, lastId, p.through, state);
      ViewRows();
      RemainingSame(before, View(), k, moved);
      var remaining := Waiting(k, moved);
      raised, used, published := false, |rows|, false;
      if remaining != {} {
        SavePartial(k, ReadBack(moved));
      } else {
        DropPartial(k);
        var avg := AggFinalize(state);
        if avg.Some? {
          PublishSummary(k, avg.value, p.through);
          published := true;
        }
      }
      AnswersAdvanced(StoreModel.FoldBatch(before, k, p, budget), used, published, View());
    }

    method IsOutstanding(k: Key) returns (outstanding: bool)
      requires k.start % Seconds(k.res) == 0
      ensures outstanding == Outstanding(View(), k)
    {
      hide KeyOf, InRange, BucketRows;
      RangeRows(View(), k);
      var floor := if cutover.Some? then cutover.value else 0;
      var gen := if k in buckets then buckets[k].publishedGen else 0;
      outstanding := exists m | m in InRange(metrics, k) && floor < m.id ::
        var q := RowKey(m.id, k.res);
        q !in coverage || (coverage[q].state == Folded && gen < m.id);
      assert outstanding == Outstanding(View(), k) by {
        ghost var rows := BucketRows(View(), k);
        assert forall m :: m in rows <==> m in InRange(metrics, k) && floor < m.id;
      }
    }

    method IsProvable(k: Key) returns (provable: bool)
      requires k.start % Seconds(k.res) == 0
      ensures provable == Provable(View(), k)
    {
      hide KeyOf, InRange, BucketRows, HasLegacy;
      RangeRows(View(), k);
      var floor := if cutover.Some? then cutover.value else 0;
      var legacy := exists m | m in InRange(metrics, k) :: m.id <= floor;
      provable := !legacy && (k in buckets ==> buckets[k].state == Open) && (k in buckets || k !in summaries);
    }

    method Freeze(k: Key) returns (frozen: Partial)
      requires k.start % Seconds(k.res) == 0 && BucketRows(View(), k) != {}
      ensures frozen == NewGeneration(View(), k)
    {
      hide KeyOf, InRange, BucketRows, MaxId;
      RangeRows(View(), k);
      var floor := if cutover.Some? then cutover.value else 0;
      var rows := set m | m in InRange(metrics, k) && floor < m.id;
      assert rows == BucketRows(View(), k);
      frozen := Partial(0, k.start as real - 1.0, 0, MaxId(rows), NEW_ACC);
    }

    /** Fold at most `budget` rows of one completed bucket, or mark them pending. */
    method AdvanceBucket(k: Key, budget: nat) returns (raised: bool, used: nat, published: bool)
      requires DistinctIds(metrics) && k.start % Seconds(k.res) == 0
      modifies `coverage, `partials, `summaries, `buckets
      ensures Answers(StoreModel.AdvanceBucket(old(View()), k, budget), raised, used, published, View())
    {
      hide *;
      ghost var before := View();
      ViewRows();
      AdvanceCases(before, k, budget);
      if k in partials {
        raised, used, published := FoldBatch(k, partials[k], budget);
        return;
      }
      var outstanding := IsOutstanding(k);
      if !outstanding {
        AnswersAdvanced(StoreModel.AdvanceBucket(before, k, budget), 0, false, View());
        return false, 0, false;
      }
      var provable := IsProvable(k);
      if !provable {
        used := MarkPending(k, budget);
        AnswersAdvanced(StoreModel.AdvanceBucket(before, k, budget), used, false, View());
        return false, used, false;
      }
      var frozen := Freeze(k);
      raised, used, published := FoldBatch(k, frozen, budget);
    }

    // ── one call ──────────────────────────────────────

    /** One turn of the loop over the buckets: pass over a visited one, advance any other. */
    method AdvanceNext(keys: seq<Key>, i: nat, skip: set<Key>, budget: nat, published: nat)
        returns (raised: bool, left: nat, count: nat)
      requires DistinctIds(metrics) && i < |keys| && Aligned(keys) && budget > 0
      modifies `coverage, `partials, `summaries, `buckets
      ensures PassGoesOn(old(View()), Without(keys[i..], skip), budget, published,
                         raised, View(), Without(keys[i + 1..], skip), left, count)
    {
      ghost var before := View();
      raised, left, count := false, budget, published;
      hide *;
      ViewRows();
      WithoutStep(keys, i, skip);
      if keys[i] in skip {
        PassIdles(before, Without(keys[i..], skip), budget, published);
      } else {
        AlignedAt(keys, i);
        var used, done;
        raised, used, done := AdvanceBucket(keys[i], budget);
        PassStep(before, Without(keys[i..], skip), budget, published, raised, used, done, View());
        if !raised {
          left, count := budget - used, published + if done then 1 else 0;
        }
      }
    }

    /** Advance each of these buckets, but for the ones to skip, until the budget is spent. */
    method AdvanceEach(keys: seq<Key>, skip: set<Key>, budget: nat)
        returns (raised: bool, left: nat, count: nat, visited: set<Key>)
      requires DistinctIds(metrics) && Aligned(keys)
      modifies `coverage, `partials, `summaries, `buckets
      ensures PassAnswers(AdvanceAll(old(View()), Without(keys, skip), budget), raised, left, count, View())
      ensures !raised && left > 0 ==> visited == Elements(keys) - skip
    {
      ghost var before := View();
      raised, left, count, visited := false, budget, 0, {};
      hide *;
      PassBegins(before, keys, skip, budget);
      var i := 0;
      while i < |keys| && left > 0
        invariant i <= |keys| && metrics == before.metrics && !raised
        invariant PassGoesOn(before, Without(keys, skip), budget, 0, false, View(), Without(keys[i..], skip), left, count)
        invariant Seen(visited, keys, i, skip)
      {
        ghost var mid, had, seen := View(), left, count;
        raised, left, count := AdvanceNext(keys, i, skip, left, count);
        PassChains(before, Without(keys, skip), budget, mid, Without(keys[i..], skip), had, seen,
                   raised, View(), Without(keys[i + 1..], skip), left, count);
        if raised {
          return;
        }
        VisitedStep(visited, keys, i, skip);
        if keys[i] !in skip {
          visited := visited + {keys[i]};
        }
        i := i + 1;
      }
      PassFinishes(before, keys, skip, budget, View(), i, left, count);
    }

    /** Which of these raw rows have been decided, looked up a chunk at a time. */
    method SettledIds(r: Resolution, ids: seq<nat>) returns (settled: set<nat>)
      ensures settled == set id | id in ids && RowKey(id, r) in coverage
    {
      settled := {};
      var start := 0;
      while start < |ids|
        invariant start <= |ids|
        invariant settled == set id | id in ids[..start] && RowKey(id, r) in coverage
      {
        var end := Min(start + CHUNK, |ids|);
        var chunk := ids[start..end];
        var found := set id | id in chunk && RowKey(id, r) in coverage;
        assert ids[..end] == ids[..start] + chunk;
        settled, start := settled + found, end;
      }
      assert ids[..|ids|] == ids;
    }

    /** The rows this agent's floor has to stay below. */
    method HoldingRows(agent: Agent, candidates: seq<Row>, settled: set<nat>, r: Resolution, due: real)
        returns (holding: set<Row>)
      requires settled == set id | id in Ids(Elements(candidates)) && RowKey(id, r) in coverage
      ensures holding == Holding(View(), Elements(candidates), agent, r, due)
    {
      var floor := if cutover.Some? then cutover.value else 0;
      var undecided := set m | m in candidates && m.agent == agent && m.id !in settled;
      var held := set m | m in metrics && m.agent == agent && floor < m.id && due <= m.ts;
      forall m | m in candidates
        ensures m.id in settled <==> RowKey(m.id, r) in coverage
      {
        assert m in Elements(candidates);
        assert m.id in Ids(Elements(candidates));
      }
      holding := undecided + held;
    }

    /** Raise one agent's scan floor: below its lowest row undecided or not due, or past all it had. */
    method RaiseFloor(agent: Agent, candidates: seq<Row>, settled: set<nat>, r: Resolution, due: real)
      requires settled == set id | id in Ids(Elements(candidates)) && RowKey(id, r) in coverage
      requires OwnCandidates(Elements(candidates), agent) != {}
      modifies `progress
      ensures progress == RaisedProgress(old(View()), Elements(candidates), FloorKey(agent, r), r, due)
    {
      hide MinId, MaxId, Holding;
      var floor := if cutover.Some? then cutover.value else 0;
      var own := set m | m in candidates && m.agent == agent;
      assert own == OwnCandidates(Elements(candidates), agent);
      var holding := HoldingRows(agent, candidates, settled, r, due);
      var advanced := if holding != {} then MinId(holding) - 1 else MaxId(own);
      if floor < advanced {
        var f := FloorKey(agent, r);
        progress := progress[f := Max(if f in progress then progress[f] else 0, advanced)];
      }
    }

    /** The floors of every agent that had a candidate. */
    method RaiseFloors(candidates: seq<Row>, r: Resolution, due: real)
      modifies `progress
      ensures View() == StoreModel.RaiseFloors(old(View()), Elements(candidates), r, due)
    {
      ghost var before, cs := View(), Elements(candidates);
      var ids := seq(|candidates|, i requires 0 <= i < |candidates| => candidates[i].id);
      var settled := SettledIds(r, ids);
      var agents := set m | m in candidates :: m.agent;
      assert agents == AgentsOf(cs);
      SettledAre(candidates, ids, settled, coverage, r);
      ghost var done: set<Agent> := {};
      hide *;
      RaiseNone(before, cs, r, due);
      while agents != {}
        invariant done + agents == AgentsOf(cs) && done !! agents
        invariant View() == before.(progress := progress)
        invariant RaisedFor(before, cs, r, due, done, progress)
      {
        var agent :| agent in agents;
        CandidateOf(cs, agent, done + agents);
        ghost var mid := View();
        RaiseFloor(agent, candidates, settled, r, due);
        RaiseOne(before, mid, cs, r, due, done, agent, progress);
        done := done + {agent};
        agents := agents - {agent};
      }
      RaiseAll(before, cs, r, due, progress);
    }

    /** What is in flight at this resolution, oldest bucket first. */
    method InFlightKeys(r: Resolution, budget: nat) returns (keys: seq<Key>)
      ensures keys == InFlight(View(), r, budget)
    {
      var open := set k | k in partials && k.res == r;
      assert open == StoreModel.InFlightKeys(View(), r);
      KeysTotal(open, r);
      keys := First(KeyBefore, open, budget);
    }

    /** Undecided rows above the scan floors whose bucket has closed, lowest id first. */
    method CandidateScan(r: Resolution, due: real, limit: nat) returns (candidates: seq<Row>)
      requires DistinctIds(metrics)
      ensures candidates == Candidates(View(), r, due, limit)
    {
      var base := if cutover.Some? then cutover.value else 0;
      var found := set m | m in metrics && base < m.id &&
                           (if FloorKey(m.agent, r) in progress then progress[FloorKey(m.agent, r)] else base) < m.id &&
                           m.ts < due && RowKey(m.id, r) !in coverage;
      assert found == CandidateRows(View(), r, due);
      CandidatesTotal(View(), r, due);
      candidates := First(Older, found, limit);
    }

    /** The two passes and the floors of one call; a step that raised leaves the rest undone. */
    method RunPasses(r: Resolution, due: real, batch: nat) returns (raised: bool, count: nat)
      requires Valid() && DistinctIds(metrics) && cutover.Some?
      modifies `coverage, `partials, `summaries, `buckets, `progress
      ensures RunAnswers(old(View()), r, due, batch, raised, count, View())
    {
      ghost var before := View();
      hide *;
      ViewRows();
      var inFlight := InFlightKeys(r, batch);
      ValidView();
      InFlightAligned(before, history, r, batch);
      NothingSkipped(inFlight);
      var left, visited, more;
      raised, left, count, visited := AdvanceEach(inFlight, {}, batch);
      PassIs(before, r, due, batch, inFlight, left);
      if raised {
        FirstRaised(before, r, due, batch, left, count, View());
        return;
      }
      ghost var mid := View();
      FirstPassed(before, r, batch, left, count, mid);
      ViewRows();
      var candidates := CandidateScan(r, due, left);
      var keys := GroupByBucket(candidates, r);
      BucketsAligned(candidates, r);
      SameBacklog(mid, r, due, left, inFlight, visited);
      ghost var spare := left;
      raised, left, more, visited := AdvanceEach(keys, visited, left);
      PassIs(mid, r, due, batch, inFlight, spare);
      if raised {
        SecondRaised(before, mid, r, due, batch, spare, count, left, more, View());
        return;
      }
      ghost var late := View();
      RaiseFloors(candidates, r, due);
      BothPassed(before, mid, late, r, due, batch, spare, count, left, more);
      count := count + more;
    }

    /** One transaction: whatever raises rolls summaries, coverage, cursors and floors back together. */
    method DownsampleOnce(r: Resolution, now: real, batchLimit: int) returns (raised: bool, count: nat)
      requires Valid() && DistinctIds(metrics) && cutover.Some?
      modifies this
      ensures history == old(history)
      ensures var done := Downsample(old(View()), r, now, batchLimit);
              View() == done.db && raised == done.raised && (!raised ==> count == done.count)
    {
      hide *;
      ghost var before := View();
      var saved := Snapshot();
      ViewRows();
      raised, count := RunPasses(r, DueCutoff(now, r), Budget(batchLimit));
      RunIsDownsample(before, r, now, batchLimit, raised, count, View());
      if raised {
        Restore(saved);
      }
    }

    /** Aggregate raw metrics into summaries of one resolution. */
    method DownsampleMetrics(seconds: int, name: string, now: real, batchLimit: int) returns (outcome: Outcome)
      requires Valid()
      modifies this
      ensures Valid() && history == old(history)
      ensures outcome.Unsupported? <==> SpecOf(name).None? || Seconds(SpecOf(name).value) != seconds
      ensures outcome.Unsupported? ==> View() == old(View())
      ensures !outcome.Unsupported? ==> DownsampleAnswers(old(View()), SpecOf(name).value, now, batchLimit, outcome, View())
    {
      hide Inv, Downsample, SpecOf, DistinctIds;
      var spec := SpecOf(name);
      if spec.None? || Seconds(spec.value) != seconds {
        return Unsupported;
      }
      ghost var before, h := View(), history;
      RowsDistinct(before, h);
      DownsampleKeeps(before, h, spec.value, now, batchLimit);
      if cutover.None? {
        NothingProvable(before, spec.value, now, batchLimit);
        return Completed(0);
      }
      var raised, count := DownsampleOnce(spec.value, now, batchLimit);
      outcome := if raised then Failed else Completed(count);
    }

    method Snapshot() returns (db: Db)
      ensures db == View()
    {
      db := Db(lastId, cutover, metrics, coverage, buckets, partials, summaries, progress);
    }

    // ── retention ─────────────────────────────────────

    /** UPDATE ... SET state = SEALED WHERE ... AND state = OPEN, once per bucket looked up. */
    method Seal(seals: set<Key>)
      modifies `buckets
      ensures buckets == map k | k in old(buckets) ::
                if old(buckets)[k].state == Open && k in seals then old(buckets)[k].(state := Sealed) else old(buckets)[k]
    {
      var rest := seals;
      while rest != {}
        invariant rest <= seals
        invariant buckets == map k | k in old(buckets) ::
                    if old(buckets)[k].state == Open && k in seals - rest then old(buckets)[k].(state := Sealed)
                    else old(buckets)[k]
      {
        var k :| k in rest;
        if k in buckets && buckets[k].state == Open {
          buckets := buckets[k := buckets[k].(state := Sealed)];
        }
        rest := rest - {k};
      }
    }

    /** Delete these rows: seal the buckets their coverage names first, then drop both. */
    method ReclaimChunk(rows: seq<Row>) returns (deleted: nat)
      requires DistinctIds(metrics) && Elements(rows) <= metrics
      modifies `buckets, `coverage, `metrics
      ensures View() == Reclaim(old(View()), Elements(rows))
      ensures deleted == |Elements(rows)|
    {
      ghost var before := View();
      var ids := set m | m in rows :: m.id;
      var seals := set q | q in coverage && q.id in ids :: Key(coverage[q].agent, q.res, coverage[q].start);
      hide Reclaim, Touches, DistinctIds;
      IdsOf(rows, ids);
      SealsAreTouched(before, Elements(rows), seals);
      hide Ids, Elements;
      ReclaimForm(before, Elements(rows), ids, seals);
      var doomed := set m | m in metrics && m.id in ids;
      Seal(seals);
      coverage := map q | q in coverage && q.id !in ids :: coverage[q];
      metrics := metrics - doomed;
      deleted := |doomed|;
    }

    /** The oldest rows a cleanup may delete. */
    method DeletableRows(rawCutoff: real, limit: nat) returns (rows: seq<Row>)
      requires DistinctIds(metrics)
      ensures StrictTotal(Older, Deletable(View(), rawCutoff))
      ensures rows == First(Older, Deletable(View(), rawCutoff), limit)
    {
      DeletableTotal(View(), rawCutoff);
      hide Deletable;
      rows := First(Older, Deletable(View(), rawCutoff), limit);
    }

    /** Delete these rows, a bounded number of ids to a statement. */
    method ReclaimAll(rows: seq<Row>) returns (deleted: nat)
      requires DistinctIds(metrics) && Elements(rows) <= metrics && |Elements(rows)| == |rows|
      modifies `buckets, `coverage, `metrics
      ensures View() == Reclaim(old(View()), Elements(rows))
      ensures deleted == |rows|
    {
      hide *;
      ghost var before := View();
      ViewRows();
      var start := 0;
      deleted := 0;
      ReclaimNothing(before, rows);
      while start < |rows|
        invariant start <= |rows| && deleted == start
        invariant View() == Reclaim(before, Elements(rows[..start]))
      {
        var end := Min(start + CHUNK, |rows|);
        ChunkEnd(start, |rows|);
        ChunkOf(before, rows, start, end);
        ViewRows();
        var gone := ReclaimChunk(rows[start..end]);
        ReclaimChunks(before, Elements(rows[..start]), Elements(rows[start..end]));
        deleted, start := deleted + gone, end;
      }
    }

    method PruneSummaries(cutoff: real, limit: nat) returns (pruned: set<Key>)
      modifies `summaries
      ensures View() == StoreModel.PruneSummaries(old(View()), pruned)
      ensures Picked(pruned, StaleSummaries(old(View()), cutoff), limit)
    {
      hide StaleSummaries;
      pruned := PickSome(StaleSummaries(View(), cutoff), limit);
      summaries := summaries - pruned;
    }

    method PruneBuckets(cutoff: real, limit: nat) returns (pruned: set<Key>)
      modifies `buckets
      ensures View() == StoreModel.PruneBuckets(old(View()), pruned)
      ensures Picked(pruned, StaleBuckets(old(View()), cutoff), limit)
    {
      hide StaleBuckets;
      pruned := PickSome(StaleBuckets(View(), cutoff), limit);
      buckets := buckets - pruned;
    }

    /** One transaction of the cleanup. */
    method CleanupOnce(now: real, maxAgeHours: int, limit: nat)
        returns (deleted: nat, summariesCut: set<Key>, bucketsCut: set<Key>)
      requires DistinctIds(metrics)
      modifies `metrics, `coverage, `buckets, `summaries
      ensures var reclaimed := Reclaim(old(View()), Doomed(old(View()), now, maxAgeHours, limit));
              && deleted == |Doomed(old(View()), now, maxAgeHours, limit)|
              && Picked(summariesCut, StaleSummaries(reclaimed, now - WEEK), limit)
              && Picked(bucketsCut, StaleBuckets(StoreModel.PruneSummaries(reclaimed, summariesCut), now - WEEK), limit)
              && View() == StoreModel.PruneBuckets(StoreModel.PruneSummaries(reclaimed, summariesCut), bucketsCut)
    {
      hide *;
      ghost var before := View();
      ViewRows();
      deleted := 0;
      var rawCutoff := now - (maxAgeHours * 3600) as real;
      DoomedCases(before, now, maxAgeHours, limit);
      if cutover.Some? {
        var rows := DeletableRows(rawCutoff, limit);
        DeletableWithin(before, rawCutoff, limit);
        deleted := ReclaimAll(rows);
      } else {
        ReclaimNothing(before, []);
      }
      summariesCut := PruneSummaries(now - WEEK, limit);
      bucketsCut := PruneBuckets(now - WEEK, limit);
    }

    /**
     Delete raw rows that are old and provably summarised at both resolutions, then the summaries
     and the provenance that are more than seven days old and that nothing needs any more.
     */
    method CleanupOldMetrics(now: real, maxAgeHours: int, batchLimit: int)
        returns (deleted: nat, summariesCut: set<Key>, bucketsCut: set<Key>)
      requires Valid()
      modifies this
      ensures Valid() && DistinctIds(old(View()).metrics)
      ensures CleanupPicks(old(View()), now, maxAgeHours, batchLimit, summariesCut, bucketsCut)
      ensures View() == Cleanup(old(View()), now, maxAgeHours, batchLimit, summariesCut, bucketsCut)
      ensures history == CleanupHistory(old(View()), old(history), now, bucketsCut)
      ensures deleted == |Doomed(old(View()), now, maxAgeHours, Budget(batchLimit))|
    {
      hide Inv, Doomed, Reclaim, StaleBuckets, StaleSummaries, CleanupHistory, Picked, DistinctIds,
           StoreModel.PruneBuckets, StoreModel.PruneSummaries, Budget;
      ghost var before, h := View(), history;
      RowsDistinct(before, h);
      deleted, summariesCut, bucketsCut := CleanupOnce(now, maxAgeHours, Budget(batchLimit));
      history := CleanupHistory(before, h, now, bucketsCut);
      CleanupKeeps(before, h, now, maxAgeHours, batchLimit, summariesCut, bucketsCut);
    }
  }
}
