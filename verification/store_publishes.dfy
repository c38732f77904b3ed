/**
 What one `downsample_metrics` call touches and what it returns: nothing of a bucket that has not
 closed, unless a generation was already in flight there, and the number of summaries it published.
 */
module StorePublishes {
  import opened Wrappers
  import opened Ordering
  import opened Samples
  import opened StoreModel
  import opened StoreInvariant
  import opened StoreSteps
  import opened StoreTransactions

  // ── what is due ─────────────────────────────────────

  /** The whole of the bucket lies behind the clock. */
  predicate HasClosed(k: Key, now: real) {
    (k.start + Seconds(k.res)) as real <= now
  }

  /** A row is due if and only if its bucket has closed. */
  lemma DueIffClosed(m: Row, now: real, r: Resolution)
    ensures m.ts < DueCutoff(now, r) <==> HasClosed(KeyOf(m, r), now)
  {
    KeyRes(m, r);
    KeyStart(m, r);
    OnGrid(BucketStart(m.ts, r), BucketStart(now, r), Seconds(r));
    hide BucketStart, KeyOf, Seconds;
    var a, b := BucketStart(m.ts, r), BucketStart(now, r);
    assert m.ts < b as real <==> a < b;
    assert (a + Seconds(r)) as real <= now <==> a < b;
  }

  lemma KeyStart(m: Row, r: Resolution)
    ensures KeyOf(m, r).start == BucketStart(m.ts, r)
  {
  }

  lemma OnGrid(a: int, b: int, step: int)
    requires step > 0 && a % step == 0 && b % step == 0
    ensures a < b <==> a + step <= b
  {
    if a < b {
      assert a == step * (a / step) && b == step * (b / step);
      assert b / step > a / step;
      assert step * (b / step) >= step * (a / step + 1);
    }
  }

  // ── what an advance touches ─────────────────────────

  /** Everything the tables say of this bucket and of its rows at its resolution is as it was. */
  ghost predicate Untouched(db: Db, next: Db, k: Key) {
    && SameAt(db.buckets, next.buckets, k) && SameAt(db.partials, next.partials, k)
    && SameAt(db.summaries, next.summaries, k)
    && forall m | m in db.metrics && KeyOf(m, k.res) == k :: SameAt(db.coverage, next.coverage, RowKey(m.id, k.res))
  }

  lemma UntouchedChains(a: Db, b: Db, c: Db, k: Key)
    requires b.metrics == a.metrics
    ensures Untouched(a, a, k)
    ensures Untouched(a, b, k) && Untouched(b, c, k) ==> Untouched(a, c, k)
  {
  }

  lemma CoversOwn(db: Db, rows: set<Row>, k: Key, state: CoverState, x: Key)
    requires DistinctIds(db.metrics) && rows <= BucketRows(db, k) && x != k
    ensures forall m | m in db.metrics && KeyOf(m, x.res) == x ::
              SameAt(db.coverage, Cover(db.coverage, rows, k, state), RowKey(m.id, x.res))
  {
    forall m | m in db.metrics && KeyOf(m, x.res) == x
      ensures SameAt(db.coverage, Cover(db.coverage, rows, k, state), RowKey(m.id, x.res))
    {
      CoverAt(db.metrics, db.coverage, rows, k, state, m, x.res);
    }
  }

  lemma BatchOwn(db: Db, k: Key, p: Partial, budget: nat)
    requires DistinctIds(db.metrics) && StrictTotal(Earlier, Remaining(db, k, p))
    ensures Elements(First(Earlier, Remaining(db, k, p), budget)) <= BucketRows(db, k)
  {
    assert Remaining(db, k, p) <= BucketRows(db, k);
  }

  lemma FoldTouches(db: Db, k: Key, p: Partial, budget: nat, x: Key)
    requires DistinctIds(db.metrics) && x != k
    ensures var a := FoldBatch(db, k, p, budget); a.Advanced? ==> Untouched(db, a.db, x)
  {
    hide *;
    RemainingTotal(db, k, p);
    BatchOwn(db, k, p, budget);
    FoldBatchCovers(db, k, p, budget);
    FoldBatchElsewhere(db, k, p, budget, x);
    var a := FoldBatch(db, k, p, budget);
    if a.Advanced? {
      ElsewhereSameIs(db, a, x);
      CoversOwn(db, Elements(First(Earlier, Remaining(db, k, p), budget)), k, Folded, x);
      UntouchedIs(db, a.db, x);
    }
  }

  lemma UntouchedIs(db: Db, next: Db, k: Key)
    requires SameAt(db.buckets, next.buckets, k) && SameAt(db.partials, next.partials, k)
    requires SameAt(db.summaries, next.summaries, k)
    requires forall m | m in db.metrics && KeyOf(m, k.res) == k :: SameAt(db.coverage, next.coverage, RowKey(m.id, k.res))
    ensures Untouched(db, next, k)
  {
    hide SameAt;
  }

  lemma MarkTouches(db: Db, k: Key, budget: nat, x: Key)
    requires DistinctIds(db.metrics) && x != k
    ensures var a := MarkPending(db, k, budget); a.Advanced? && Untouched(db, a.db, x)
  {
    UndecidedTotal(db, k);
    hide BucketRows, KeyOf, First;
    var rows := Elements(First(Older, Undecided(db, k), budget));
    CoversOwn(db, rows, k, Pending, x);
  }

  lemma AdvanceTouches(db: Db, k: Key, budget: nat, x: Key)
    requires DistinctIds(db.metrics) && x != k
    ensures var a := AdvanceBucket(db, k, budget); a.Advanced? ==> Untouched(db, a.db, x)
  {
    hide *;
    AdvanceCases(db, k, budget);
    if k in db.partials {
      FoldTouches(db, k, db.partials[k], budget, x);
    } else if !Outstanding(db, k) {
      UntouchedChains(db, db, db, x);
    } else if Provable(db, k) {
      FoldTouches(db, k, NewGeneration(db, k), budget, x);
    } else {
      MarkTouches(db, k, budget, x);
    }
  }

  lemma {:induction false} PassTouches(db: Db, keys: seq<Key>, budget: nat, x: Key)
    requires DistinctIds(db.metrics) && x !in keys
    ensures var p := AdvanceAll(db, keys, budget); p.Passed? ==> Untouched(db, p.db, x)
    decreases |keys|
  {
    hide *;
    AdvanceAllCases(db, keys, budget);
    UntouchedChains(db, db, db, x);
    if keys != [] && budget != 0 {
      assert keys[0] in keys;
      AdvanceTouches(db, keys[0], budget, x);
      var a := AdvanceBucket(db, keys[0], budget);
      if a.Advanced? {
        PassTouches(a.db, keys[1..], budget - a.used, x);
        var p := AdvanceAll(a.db, keys[1..], budget - a.used);
        if p.Passed? {
          UntouchedChains(db, a.db, p.db, x);
        }
      }
    }
  }

  lemma FloorsTouchNothing(db: Db, window: set<Row>, r: Resolution, due: real, k: Key)
    ensures Untouched(db, RaiseFloors(db, window, r, due), k)
  {
    hide Moves, NewFloor;
  }

  lemma BacklogClosed(db: Db, r: Resolution, now: real, visited: seq<Key>, left: nat, k: Key)
    requires DistinctIds(db.metrics)
    requires k in Backlog(Candidates(db, r, DueCutoff(now, r), left), r, visited)
    ensures HasClosed(k, now) && k.res == r && k !in visited
  {
    var candidates := Candidates(db, r, DueCutoff(now, r), left);
    CandidatesTotal(db, r, DueCutoff(now, r));
    assert k in BucketsOf(candidates, r) && k !in Elements(visited);
    hide BucketsOf, Without, Backlog, First;
    var m :| m in candidates && KeyOf(m, r) == k;
    assert m in Elements(candidates) && m in CandidateRows(db, r, DueCutoff(now, r));
    DueIffClosed(m, now, r);
    hide KeyOf, DueCutoff;
    KeyRes(m, r);
  }

  /** A call touches a bucket only once it has closed, or to finish a generation already in flight there. */
  lemma OnlyClosedAreTouched(db: Db, r: Resolution, now: real, batchLimit: int, k: Key)
    requires DistinctIds(db.metrics) && k !in db.partials && !HasClosed(k, now)
    ensures Untouched(db, Downsample(db, r, now, batchLimit).db, k)
  {
    hide *;
    DownsampleCases(db, r, now, batchLimit);
    UntouchedChains(db, db, db, k);
    var budget, due := Budget(batchLimit), DueCutoff(now, r);
    if db.cutover.Some? {
      PassIs(db, r, due, budget, [], 0);
      var visited := InFlight(db, r, budget);
      PassTouches(db, visited, budget, k);
      var first := FirstPass(db, r, budget);
      if first.Passed? {
        PassIs(first.db, r, due, budget, visited, first.left);
        var backlog := Backlog(Candidates(first.db, r, due, first.left), r, visited);
        if k in backlog {
          BacklogClosed(first.db, r, now, visited, first.left, k);
        }
        PassTouches(first.db, backlog, first.left, k);
        var second := SecondPass(first.db, r, due, visited, first.left);
        if second.Passed? {
          var window := Elements(Candidates(first.db, r, due, first.left));
          FloorsTouchNothing(second.db, window, r, due, k);
          PassRows(db, visited, budget);
          PassRows(first.db, backlog, first.left);
          UntouchedChains(db, first.db, second.db, k);
          UntouchedChains(db, second.db, RaiseFloors(second.db, window, r, due), k);
        }
      }
    }
  }

  lemma PassRows(db: Db, keys: seq<Key>, budget: nat)
    requires DistinctIds(db.metrics)
    ensures var p := AdvanceAll(db, keys, budget); p.Passed? ==> p.db.metrics == db.metrics
  {
  }

  // ── what it returns ─────────────────────────────────

  /** The buckets that got a summary of a later generation. */
  ghost function Published(db: Db, next: Db): set<Key> {
    set k | k in next.buckets && (k !in db.buckets || db.buckets[k].publishedGen != next.buckets[k].publishedGen)
  }

  lemma PublishedIs(db: Db, next: Db, k: Key)
    ensures k in Published(db, next) <==>
            k in next.buckets && (k !in db.buckets || db.buckets[k].publishedGen != next.buckets[k].publishedGen)
    ensures Untouched(db, next, k) ==> k !in Published(db, next)
  {
  }

  lemma FoldPublishes(db: Db, k: Key, p: Partial, budget: nat)
    requires DistinctIds(db.metrics) && PublishedGen(db, k) < p.through
    ensures var a := FoldBatch(db, k, p, budget);
            a.Advanced? ==> (a.published <==> k in Published(db, a.db))
  {
    hide NextBatch, Fold, Datas, MoveCursor, Cover, AggFinalize, Remaining, Elements, DistinctIds, Reload;
  }

  lemma AdvancePublishes(db: Db, h: History, k: Key, budget: nat)
    requires Inv(db, h) && DistinctIds(db.metrics)
    ensures var a := AdvanceBucket(db, k, budget);
            a.Advanced? ==> Published(db, a.db) == if a.published then {k} else {}
  {
    hide *;
    AdvanceCases(db, k, budget);
    var a := AdvanceBucket(db, k, budget);
    if k in db.partials {
      ThroughIsNew(db, h, k);
      FoldPublishes(db, k, db.partials[k], budget);
    } else if Outstanding(db, k) && Provable(db, k) {
      OutstandingIsNew(db, h, k);
      NewGenerationIs(db, k);
      FoldPublishes(db, k, NewGeneration(db, k), budget);
    } else if Outstanding(db, k) {
      MarkPublishes(db, k, budget);
    }
    if a.Advanced? {
      forall x
        ensures x in Published(db, a.db) <==> a.published && x == k
      {
        PublishedIs(db, a.db, x);
        if x != k {
          AdvanceTouches(db, k, budget, x);
        }
      }
    }
  }

  lemma ThroughIsNew(db: Db, h: History, k: Key)
    requires Inv(db, h) && k in db.partials
    ensures PublishedGen(db, k) < db.partials[k].through
  {
  }

  lemma MarkPublishes(db: Db, k: Key, budget: nat)
    requires DistinctIds(db.metrics)
    ensures var a := MarkPending(db, k, budget); a.Advanced? && !a.published && Published(db, a.db) == {}
  {
    UndecidedTotal(db, k);
    hide First, Undecided, Cover, Elements;
  }

  ghost predicate Once(keys: seq<Key>) {
    forall i, j | 0 <= i < j < |keys| :: keys[i] != keys[j]
  }

  lemma OnceTail(keys: seq<Key>)
    requires Once(keys) && keys != []
    ensures Once(keys[1..]) && keys[0] !in keys[1..]
  {
    assert forall j | 0 <= j < |keys[1..]| :: keys[1..][j] == keys[j + 1];
  }

  lemma {:induction false} PassPublishes(db: Db, h: History, keys: seq<Key>, budget: nat)
    requires Inv(db, h) && DistinctIds(db.metrics) && Once(keys)
    ensures var p := AdvanceAll(db, keys, budget);
            p.Passed? ==> Published(db, p.db) <= Elements(keys) && |Published(db, p.db)| == p.count
    decreases |keys|
  {
    hide *;
    AdvanceAllCases(db, keys, budget);
    NothingPublished(db);
    if keys != [] && budget != 0 {
      OnceTail(keys);
      AdvancePublishes(db, h, keys[0], budget);
      AdvanceKeeps(db, h, keys[0], budget);
      var a := AdvanceBucket(db, keys[0], budget);
      if a.Advanced? {
        PassPublishes(a.db, h, keys[1..], budget - a.used);
        var p := AdvanceAll(a.db, keys[1..], budget - a.used);
        if p.Passed? {
          PassTouches(a.db, keys[1..], budget - a.used, keys[0]);
          forall x | x != keys[0]
            ensures Untouched(db, a.db, x)
          {
            AdvanceTouches(db, keys[0], budget, x);
          }
          PublishedAdds(db, a.db, p.db, keys, if a.published then {keys[0]} else {});
        }
      }
    }
  }

  lemma NothingPublished(db: Db)
    ensures Published(db, db) == {}
  {
  }

  lemma PublishedAdds(db: Db, mid: Db, last: Db, keys: seq<Key>, first: set<Key>)
    requires keys != [] && Published(db, mid) == first <= {keys[0]}
    requires Published(mid, last) <= Elements(keys[1..]) && keys[0] !in keys[1..] && Untouched(mid, last, keys[0])
    requires forall x | x != keys[0] :: Untouched(db, mid, x)
    ensures Published(db, last) <= Elements(keys) && |Published(db, last)| == |first| + |Published(mid, last)|
  {
    forall x
      ensures x in Published(db, last) <==> x in first || x in Published(mid, last)
    {
      PublishedIs(db, last, x);
      PublishedIs(mid, last, x);
      PublishedIs(db, mid, x);
      if x != keys[0] {
        assert Untouched(db, mid, x);
      }
    }
    assert first !! Published(mid, last);
    assert Published(db, last) == first + Published(mid, last);
    assert keys == [keys[0]] + keys[1..];
  }

  lemma InFlightOnce(db: Db, r: Resolution, budget: nat)
    ensures Once(InFlight(db, r, budget))
  {
    KeysTotal(InFlightKeys(db, r), r);
    var keys := First(KeyBefore, InFlightKeys(db, r), budget);
    assert Increasing(KeyBefore, keys);
  }

  lemma {:induction false} BucketsOnce(candidates: seq<Row>, r: Resolution)
    ensures Once(BucketsOf(candidates, r))
    decreases |candidates|
  {
    if candidates != [] {
      BucketsOnce(candidates[..|candidates| - 1], r);
      hide KeyOf;
    }
  }

  lemma {:induction false} WithoutOnce(keys: seq<Key>, seen: set<Key>)
    requires Once(keys)
    ensures Once(Without(keys, seen))
    decreases |keys|
  {
    if keys != [] {
      OnceTail(keys);
      WithoutOnce(keys[1..], seen);
      assert keys[0] !in Without(keys[1..], seen);
    }
  }

  lemma BacklogOnce(candidates: seq<Row>, r: Resolution, visited: seq<Key>)
    ensures Once(Backlog(candidates, r, visited)) && Elements(Backlog(candidates, r, visited)) !! Elements(visited)
  {
    BucketsOnce(candidates, r);
    WithoutOnce(BucketsOf(candidates, r), Elements(visited));
    hide BucketsOf;
  }

  /** What a call returns is the number of buckets it published a summary for, each in a later generation. */
  lemma DownsampleCounts(db: Db, h: History, r: Resolution, now: real, batchLimit: int)
    requires Inv(db, h) && DistinctIds(db.metrics)
    ensures var done := Downsample(db, r, now, batchLimit);
            done.count == |Published(db, done.db)| && forall k | k in Published(db, done.db) :: k.res == r
  {
    hide *;
    DownsampleCases(db, r, now, batchLimit);
    NothingPublished(db);
    var budget, due := Budget(batchLimit), DueCutoff(now, r);
    if db.cutover.Some? {
      PassIs(db, r, due, budget, [], 0);
      var visited := InFlight(db, r, budget);
      InFlightOnce(db, r, budget);
      PassKeeps(db, h, r, visited, budget);
      PassPublishes(db, h, visited, budget);
      var first := FirstPass(db, r, budget);
      if first.Passed? {
        PassIs(first.db, r, due, budget, visited, first.left);
        var backlog := Backlog(Candidates(first.db, r, due, first.left), r, visited);
        BacklogOnce(Candidates(first.db, r, due, first.left), r, visited);
        BacklogRes(first.db, r, due, visited, first.left);
        PassPublishes(first.db, h, backlog, first.left);
        var second := SecondPass(first.db, r, due, visited, first.left);
        if second.Passed? {
          var next := RaiseFloors(second.db, Elements(Candidates(first.db, r, due, first.left)), r, due);
          RaiseFloorsIs(second.db, Elements(Candidates(first.db, r, due, first.left)), r, due);
          forall x | x !in visited
            ensures Untouched(db, first.db, x)
          {
            PassTouches(db, visited, budget, x);
          }
          forall x | x !in backlog
            ensures Untouched(first.db, second.db, x)
          {
            PassTouches(first.db, backlog, first.left, x);
          }
          BothPublish(db, first.db, second.db, visited, backlog);
          PublishedSame(db, second.db, next);
        }
      }
    }
  }

  lemma PublishedSame(db: Db, a: Db, b: Db)
    requires a.buckets == b.buckets
    ensures Published(db, a) == Published(db, b)
  {
  }

  lemma BothPublish(db: Db, mid: Db, last: Db, visited: seq<Key>, backlog: seq<Key>)
    requires Published(db, mid) <= Elements(visited) && Published(mid, last) <= Elements(backlog)
    requires Elements(backlog) !! Elements(visited)
    requires forall x | x !in visited :: Untouched(db, mid, x)
    requires forall x | x !in backlog :: Untouched(mid, last, x)
    ensures |Published(db, last)| == |Published(db, mid)| + |Published(mid, last)|
    ensures forall x | x in Published(db, last) :: x in visited || x in backlog
  {
    forall x
      ensures x in Published(db, last) <==> x in Published(db, mid) || x in Published(mid, last)
    {
      PublishedIs(db, last, x);
      PublishedIs(mid, last, x);
      PublishedIs(db, mid, x);
      if x !in visited {
        assert Untouched(db, mid, x);
      } else {
        assert x in Elements(visited) && x !in Elements(backlog);
        assert Untouched(mid, last, x);
      }
    }
    assert Published(db, mid) !! Published(mid, last);
    assert Published(db, last) == Published(db, mid) + Published(mid, last);
  }
}
