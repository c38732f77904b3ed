/**
 A container named by a number, in two rows of one bucket folded in two calls: its summary lists the
 container twice, where averaging the rows at once lists it once.
 */
module StoreSplits {
  import opened Wrappers
  import opened Ordering
  import opened Averaging
  import opened Batches
  import opened Samples
  import opened StoreModel
  import opened StoreInvariant
  import opened StoreSteps
  import opened StoreTransactions
  import opened StoreRuns
  import opened CatchUp
  import opened ScanFloor
  import opened StoreWitnesses
  import opened StoreRetirement

  // ── the two averages ────────────────────────────────

  const NAMED: Sample := map["name" := Num(5.0)]

  const NUMBERED: Sample :=
    map["cpu" := EMPTY, "memory" := EMPTY, "disk" := EMPTY, "containers" := Arr([Obj(NAMED)])]

  const READ: Reading := Reading(Num(5.0), Finite(0.0), Finite(0.0), None, None, NAMED)

  /** What the record is after `n` of these snapshots, but for its containers. */
  ghost function Record(n: nat, cs: seq<ContainerSum>): Acc {
    Acc(n, Some(NUMBERED), NO_TOTALS, cs, false, false)
  }

  lemma NumberedReads()
    ensures WalkContainers([], NUMBERED) == Done(Merge([], READ))
    ensures forall cs :: WalkContainers(cs, NUMBERED) == Done(Merge(cs, READ))
  {
    assert ReadContainer(Obj(NAMED)) == Done(Some(READ));
    forall cs
      ensures WalkContainers(cs, NUMBERED) == Done(Merge(cs, READ))
    {
      hide ReadContainer, Merge;
      assert [Obj(NAMED)][1..] == [];
      assert AddContainers(Merge(cs, READ), []) == Done(Merge(cs, READ));
    }
  }

  lemma NumberedTotals()
    ensures Reserve(NUMBERED) == Some(NO_TOTALS) && AddTotals(NO_TOTALS, NUMBERED) == Done(NO_TOTALS)
  {
    assert Zeros(0) == [] && seq<GpuTotal>(0, _ => GpuTotal(0, Zeros(|GPU_FIELDS|))) == [];
    assert Get(Look(NUMBERED, "cpu", EMPTY), "percent_per_core", NO_ITEMS) == Some(NO_ITEMS);
  }

  lemma NumberedAdds(n: nat, cs: seq<ContainerSum>)
    ensures AggAdd(NEW_ACC, NUMBERED) == Some(Record(1, Merge([], READ)))
    ensures n > 0 ==> AggAdd(Record(n, cs), NUMBERED) == Some(Record(n + 1, Merge(cs, READ)))
  {
    NumberedReads();
    NumberedTotals();
    hide WalkContainers, Merge, Reserve, AddTotals;
  }

  /** The summary lists what the record holds. */
  lemma NumberedFinalizes(n: nat, cs: seq<ContainerSum>)
    requires n > 0
    ensures AggFinalize(Record(n, cs)).Some?
    ensures var summary := AggFinalize(Record(n, cs)).value;
            "containers" in summary && summary["containers"].Arr? && |summary["containers"].items| == |cs|
  {
    var acc := Record(n, cs);
    var zero := Num(0.0 / n as real);
    var filled := NUMBERED["cpu" := Obj(map["percent_total" := zero])]["memory" := Obj(map["percent" := zero])]
                  ["disk" := Obj(map["percent" := zero])];
    assert Assign(NUMBERED, "cpu", "percent_total", zero) == Some(NUMBERED["cpu" := Obj(map["percent_total" := zero])]);
    assert FillCores(filled, acc) == Some(filled);
    assert AverageDevices([], []) == ([], true);
    assert FillDevices(filled, acc) == FillContainers(filled, acc);
    hide ContainerEntry;
    assert FillIn(NUMBERED, acc) == FillContainers(filled, acc);
  }

  /** The record as it is saved after the first row. */
  ghost function SavedOnce(): Acc { Reload(Record(1, Merge([], READ))) }

  ghost function Twice(): Acc { Record(2, Merge(SavedOnce().containers, READ)) }

  ghost function SplitSummary(): Sample
  {
    if AggFinalize(Twice()).Some? then AggFinalize(Twice()).value else NUMBERED
  }

  lemma NumberedFolds()
    ensures Fold(NEW_ACC, [NUMBERED]) == Some(Record(1, Merge([], READ)))
    ensures Fold(SavedOnce(), [NUMBERED]) == Some(Twice())
    ensures AggFinalize(Twice()) == Some(SplitSummary())
    ensures AverageMetrics([NUMBERED, NUMBERED]).Some? && AverageMetrics([NUMBERED, NUMBERED]) != Some(SplitSummary())
  {
    var one := Merge([], READ);
    NumberedAdds(1, one);
    NumberedAdds(1, SavedOnce().containers);
    ReloadIs(one);
    assert |one| == 1 && one[0].key == Num(5.0);
    assert one[..0] == [];
    assert |SavedOnce().containers| == 1;
    assert SavedOnce().containers[0] in SavedOnce().containers;
    NumberedFinalizes(2, Merge(one, READ));
    NumberedFinalizes(2, Twice().containers);
    assert |Merge(one, READ)| == 1 && |Twice().containers| == 2;
    hide AggAdd, AggFinalize, Merge, ReloadContainers;
    assert [NUMBERED][1..] == [] && [NUMBERED, NUMBERED][1..] == [NUMBERED];
    FoldOne(NEW_ACC, NUMBERED);
    FoldOne(SavedOnce(), NUMBERED);
    FoldOne(Record(1, one), NUMBERED);
  }

  // ── two rows, two calls ─────────────────────────────

  const A: Row := Row(1, 0, 1.0, NUMBERED)
  const B: Row := Row(2, 0, 2.0, NUMBERED)

  ghost function Both(): Db { Tables(2, {A, B}, map[], map[], map[], map[]) }

  ghost function Half(): Db {
    Both().(coverage := map[RowKey(1, OneMinute) := COVERED],
            partials := map[K1 := Partial(1, 1.0, 1, 2, SavedOnce())],
            progress := map[FloorKey(0, OneMinute) := 1])
  }

  ghost function Whole(): Db {
    Half().(coverage := map[RowKey(1, OneMinute) := COVERED, RowKey(2, OneMinute) := COVERED], partials := map[],
            summaries := map[K1 := SplitSummary()], buckets := map[K1 := Bucket(Open, 2)])
  }

  lemma SplitKeys()
    ensures KeyOf(A, OneMinute) == K1 == KeyOf(B, OneMinute) && DueCutoff(1000.0, OneMinute) == 960.0
    ensures DistinctIds({A, B}) && DistinctIds(Both().metrics) && DistinctIds(Half().metrics)
    ensures BucketRows(Both(), K1) == {A, B} == BucketRows(Half(), K1)
  {
    assert (1.0 / 60.0).Floor == 0 && (2.0 / 60.0).Floor == 0 && (1000.0 / 60.0).Floor == 16;
  }

  lemma InOrder()
    ensures A != B && Earlier(A, B) && Older(A, B) && DistinctIds({A, B}) && DistinctIds({B})
    ensures Elements([A]) == {A} && Elements([B]) == {B} && Datas([A]) == [NUMBERED] == Datas([B])
  {
  }

  lemma FirstBatch()
    ensures StrictTotal(Earlier, {A, B}) && StrictTotal(Older, {A, B}) && StrictTotal(Earlier, {B})
    ensures First(Earlier, {A, B}, 1) == [A] && First(Older, {A, B}, 1) == [A] && First(Earlier, {B}, 1) == [B]
  {
    InOrder();
    hide *;
    TimeTotal({A, B});
    TimeTotal({B});
    LeastFirst(Earlier, {A, B}, A);
    LeastFirst(Older, {A, B}, A);
    LeastFirst(Earlier, {B}, B);
  }

  lemma SplitStarts()
    ensures BucketRows(Both(), K1) == {A, B}
    ensures NewGeneration(Both(), K1) == Partial(0, -1.0, 0, 2, NEW_ACC)
    ensures Remaining(Both(), K1, NewGeneration(Both(), K1)) == {A, B}
    ensures forall acc :: Remaining(Both(), K1, MoveCursor(NewGeneration(Both(), K1), [A], acc)) == {B}
    ensures Outstanding(Both(), K1) && Provable(Both(), K1) && K1 !in Both().partials
  {
    SplitKeys();
    hide KeyOf;
    assert A in BucketRows(Both(), K1);
    var p := NewGeneration(Both(), K1);
    assert p.through == 2 by {
      assert B in BucketRows(Both(), K1);
    }
  }

  /** The first call folds one row and saves the record. */
  lemma HalfBucket()
    ensures AdvanceBucket(Both(), K1, 1) == Advanced(Half().(progress := map[]), 1, false)
  {
    hide *;
    var acc := Record(1, Merge([], READ));
    SplitKeys();
    SplitStarts();
    InOrder();
    FirstBatch();
    NumberedFolds();
    HalfTables(acc);
    var p := Partial(0, -1.0, 0, 2, NEW_ACC);
    AdvanceCases(Both(), K1, 1);
    NotEmpty();
    FoldBatchSaves(Both(), K1, p, 1, acc);
  }

  lemma NotEmpty()
    ensures {B} != {}
  {
    assert B in {B};
  }

  lemma HalfTables(acc: Acc)
    requires acc == Record(1, Merge([], READ))
    ensures Saved(Both(), K1, {A}, ReadBack(MoveCursor(Partial(0, -1.0, 0, 2, NEW_ACC), [A], acc))) == Half().(progress := map[])
  {
    hide Merge, ReloadContainers;
    assert RowKeys({A}, OneMinute) == {RowKey(1, OneMinute)};
  }

  ghost function HalfWay(): Partial { Partial(1, 1.0, 1, 2, SavedOnce()) }

  lemma SplitResumes()
    ensures K1 in Half().partials && Half().partials[K1] == HalfWay()
    ensures Remaining(Half(), K1, HalfWay()) == {B}
    ensures Remaining(Half(), K1, MoveCursor(HalfWay(), [B], Twice())) == {}
    ensures HalfWay().acc == SavedOnce() && HalfWay().through == 2
  {
    SplitKeys();
    hide KeyOf, SavedOnce, Twice;
  }

  /** The second folds the other into what was saved, and publishes. */
  lemma WholeBucket()
    ensures AdvanceBucket(Half(), K1, 1) == Advanced(Whole(), 1, true)
  {
    hide *;
    SplitKeys();
    SplitResumes();
    InOrder();
    FirstBatch();
    NumberedFolds();
    WholeIs();
    AdvanceCases(Half(), K1, 1);
    FoldBatchPublishes(Half(), K1, HalfWay(), 1, Twice());
  }

  lemma WholeIs()
    ensures Published(Half(), K1, {B}, 2, SplitSummary()) == Whole()
  {
    hide SplitSummary, SavedOnce;
    assert RowKeys({B}, OneMinute) == {RowKey(2, OneMinute)};
  }

  lemma FirstCall()
    ensures Downsample(Both(), OneMinute, 1000.0, 1).db == Half()
  {
    hide *;
    var db, mid := Both(), Half().(progress := map[]);
    SplitKeys();
    InOrder();
    FirstCandidate();
    FloorIs(mid);
    DownsampleCases(db, OneMinute, 1000.0, 1);
    BothTables();
    NothingToResume(db, OneMinute, 1);
    PassIs(db, OneMinute, 960.0, 1, [], 0);
    AdvanceAllCases(db, [], 1);
    PassIs(db, OneMinute, 960.0, 1, [], 1);
    OneKeyBacklog(A, OneMinute);
    HalfBucket();
    AdvanceAllCases(db, [K1], 1);
    AdvanceAllCases(mid, [K1][1..], 0);
  }

  lemma FirstCandidate()
    ensures Candidates(Both(), OneMinute, 960.0, 1) == [A] && Budget(1) == 1
    ensures DistinctIds(Half().(progress := map[]).metrics)
  {
    SplitKeys();
    FirstBatch();
    hide KeyOf, First;
    assert CandidateRows(Both(), OneMinute, 960.0) == {A, B};
  }

  lemma BothTables()
    ensures Both().cutover.Some? && (forall k | k in Both().partials :: k.res != OneMinute)
    ensures Half().cutover.Some?
  {
  }

  lemma FloorIs(mid: Db)
    requires mid == Half().(progress := map[])
    ensures RaiseFloors(mid, {A}, OneMinute, 960.0) == Half()
  {
    LoneFloor(mid, A, OneMinute, 960.0);
  }

  lemma SecondCall()
    ensures Downsample(Half(), OneMinute, 1000.0, 1).db == Whole()
  {
    var db := Half();
    SplitKeys();
    InFlightIs();
    NoFloors();
    hide *;
    DownsampleCases(db, OneMinute, 1000.0, 1);
    BothTables();
    PassIs(db, OneMinute, 960.0, 1, [], 0);
    WholeBucket();
    AdvanceAllCases(db, [K1], 1);
    AdvanceAllCases(Whole(), [K1][1..], 0);
    PassIs(Whole(), OneMinute, 960.0, 1, [K1], 0);
    AdvanceAllCases(Whole(), Backlog(Candidates(Whole(), OneMinute, 960.0, 0), OneMinute, [K1]), 0);
  }

  lemma InFlightIs()
    ensures InFlight(Half(), OneMinute, 1) == [K1] && Budget(1) == 1
  {
    assert InFlightKeys(Half(), OneMinute) == {K1};
    KeysTotal({K1}, OneMinute);
    LeastFirst(KeyBefore, {K1}, K1);
  }

  lemma NoFloors()
    ensures DistinctIds(Whole().metrics)
    ensures Elements(Candidates(Whole(), OneMinute, 960.0, 0)) == {}
    ensures RaiseFloors(Whole(), {}, OneMinute, 960.0) == Whole()
  {
    CandidatesTotal(Whole(), OneMinute, 960.0);
    assert AgentsOf({}) == {};
    forall f: FloorKey
      ensures !Moves(Whole(), {}, f, OneMinute, 960.0)
    {
      assert OwnCandidates({}, f.agent) == {};
    }
    assert RaiseFloors(Whole(), {}, OneMinute, 960.0).progress == Whole().progress;
  }

  /**
   Two rows of one bucket with a container named 5, a batch limit of one, and two calls: the summary
   published is not the average of the two rows, and what had been saved was not under texts alone.
   */
  lemma NumberedNamesSplit()
    ensures exists s | ReachedByClock(s) ::
              && K1 in s.db.buckets && K1 in s.db.summaries
              && var rows := EverStored(s, K1, s.db.buckets[K1].publishedGen);
                 && DistinctIds(rows) && AverageMetrics(Datas(InTime(rows))).Some?
                 && AverageMetrics(Datas(InTime(rows))) != Some(s.db.summaries[K1])
                 && !SavesText(Datas(InTime(rows)))
  {
    var h := History({A, B}, map[], {});
    SplitRun(h);
    BothAveraged(State(Whole(), h));
    WholeTables();
  }

  lemma WholeTables()
    ensures K1 in Whole().buckets && K1 in Whole().summaries && Whole().summaries[K1] == SplitSummary()
    ensures Whole().buckets[K1].publishedGen == 2
  {
  }

  lemma SplitRun(h: History)
    requires h == History({A, B}, map[], {})
    ensures ReachedByClock(State(Whole(), h))
  {
    hide *;
    var s1 := State(Tables(1, {A}, map[], map[], map[], map[]), History({A}, map[], {}));
    SplitKeys();
    FreshIsInstalled();
    ClockStarts(FRESH);
    BothArrive(s1, h);
    ClockStep(FRESH, StoreRuns.Stored(50.0, 0, 1.0, NUMBERED), s1);
    ClockStep(s1, StoreRuns.Stored(50.0, 0, 2.0, NUMBERED), State(Both(), h));
    FirstCall();
    DownsampleStep(State(Both(), h), OneMinute, 1000.0, Half());
    ClockStep(State(Both(), h), Downsampled(OneMinute, 1000.0, 1), State(Half(), h));
    SecondCall();
    DownsampleStep(State(Half(), h), OneMinute, 1000.0, Whole());
    ClockStep(State(Half(), h), Downsampled(OneMinute, 1000.0, 1), State(Whole(), h));
  }

  lemma BothArrive(s1: State, h: History)
    requires h == History({A, B}, map[], {})
    requires s1 == State(Tables(1, {A}, map[], map[], map[], map[]), History({A}, map[], {}))
    ensures Step(FRESH, StoreRuns.Stored(50.0, 0, 1.0, NUMBERED), s1)
    ensures Clocked(FRESH, StoreRuns.Stored(50.0, 0, 1.0, NUMBERED))
    ensures Step(s1, StoreRuns.Stored(50.0, 0, 2.0, NUMBERED), State(Both(), h))
    ensures Clocked(s1, StoreRuns.Stored(50.0, 0, 2.0, NUMBERED))
  {
    assert {} + {A} == {A} && {A} + {B} == {A, B};
  }

  lemma BothAveraged(s: State)
    requires s.db == Whole() && s.h.stored == {A, B}
    ensures var rows := EverStored(s, K1, 2);
            && DistinctIds(rows) && AverageMetrics(Datas(InTime(rows))).Some?
            && AverageMetrics(Datas(InTime(rows))) != Some(SplitSummary()) && !SavesText(Datas(InTime(rows)))
  {
    hide *;
    BothEver(s);
    NumberedFolds();
    BothInTime();
    SplitSaves();
  }

  lemma BothEver(s: State)
    requires s.db == Whole() && s.h.stored == {A, B}
    ensures EverStored(s, K1, 2) == {A, B} && DistinctIds({A, B})
  {
    SplitKeys();
    hide KeyOf, SplitSummary;
  }

  lemma BothInTime()
    ensures DistinctIds({A, B}) && Datas(InTime({A, B})) == [NUMBERED, NUMBERED]
  {
    InOrder();
    TimeTotal({A, B});
    var q := [A, B];
    assert Elements(q) == {A, B};
    assert Increasing(Earlier, q);
    hide Earlier;
    IncreasingUnique(Earlier, InTime({A, B}), q);
    assert Datas(q) == [NUMBERED, NUMBERED];
  }

  lemma SplitSaves()
    ensures !SavesText([NUMBERED, NUMBERED])
  {
    NumberedFolds();
    hide Fold, AverageMetrics, AggFinalize;
    assert [NUMBERED, NUMBERED][..1] == [NUMBERED];
    assert Merge([], READ)[0].key == Num(5.0);
    assert Merge([], READ)[0] in Merge([], READ);
  }
}
