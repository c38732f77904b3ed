/**
 The scan floor (metric_agg_progress). The code promises that it skips nothing; it does so
 exactly when the call does not run past a due row its own LIMIT had left out.
 */
module ScanFloor {
  import opened Wrappers
  import opened Ordering
  import opened Samples
  import opened StoreModel
  import opened StoreInvariant
  import opened StoreSteps
  import opened StoreTransactions
  import opened CatchUp

  /** The candidates one call reads, once it has advanced what was in flight. */
  function Window(db: Db, r: Resolution, now: real, batchLimit: int): set<Row>
    requires DistinctIds(db.metrics)
  {
    match FirstPass(db, r, Budget(batchLimit))
    case PassRaised => {}
    case Passed(db1, left1, _) => Elements(Candidates(db1, r, DueCutoff(now, r), left1))
  }

  lemma SoundAcross(db: Db, next: Db, r: Resolution)
    requires OnlyCovers(db, next, r) && FloorSound(db, r)
    ensures FloorSound(next, r)
  {
    hide SameAt;
  }

  lemma OverrunAfter(db: Db, progress: map<FloorKey, nat>, window: set<Row>, r: Resolution, due: real)
    ensures Overrun(db.(progress := progress), window, r, due) <==> Overrun(db, window, r, due)
  {
    var next := db.(progress := progress);
    forall m, held
      ensures RunsPast(next, window, r, due, m, held) <==> RunsPast(db, window, r, due, m, held)
    {
    }
  }

  /**
   The floors after a call skip nothing if and only if no agent's floor ran past a due,
   undecided row: one outside the call's window and below that agent's lowest row not yet due,
   while everything the window held for that agent was decided.
   */
  lemma FloorSkipsNothingIff(db: Db, h: History, r: Resolution, now: real, batchLimit: int)
    requires Inv(db, h) && DistinctIds(db.metrics) && FloorSound(db, r) && db.cutover.Some?
    requires !Downsample(db, r, now, batchLimit).raised
    ensures var next := Downsample(db, r, now, batchLimit).db;
            FloorSound(next, r) <==> !Overrun(next, Window(db, r, now, batchLimit), r, DueCutoff(now, r))
  {
    hide *;
    DownsampleCases(db, r, now, batchLimit);
    var budget, due := Budget(batchLimit), DueCutoff(now, r);
    var visited := InFlight(db, r, budget);
    PassIs(db, r, due, budget, [], 0);
    PassKeeps(db, h, r, visited, budget);
    var first := FirstPass(db, r, budget);
    SoundAcross(db, first.db, r);
    var candidates := Candidates(first.db, r, due, first.left);
    PassIs(first.db, r, due, budget, visited, first.left);
    BacklogRes(first.db, r, due, visited, first.left);
    PassKeeps(first.db, h, r, Backlog(candidates, r, visited), first.left);
    var second := SecondPass(first.db, r, due, visited, first.left);
    FloorsExact(first.db, second.db, candidates, first.left, r, due);
    var window := Elements(candidates);
    RaiseFloorsIs(second.db, window, r, due);
    OverrunAfter(second.db, RaiseFloors(second.db, window, r, due).progress, window, r, due);
    WindowIs(db, r, now, batchLimit);
  }

  lemma WindowIs(db: Db, r: Resolution, now: real, batchLimit: int)
    requires DistinctIds(db.metrics)
    ensures match FirstPass(db, r, Budget(batchLimit))
            case PassRaised => true
            case Passed(db1, left1, _) =>
              Window(db, r, now, batchLimit) == Elements(Candidates(db1, r, DueCutoff(now, r), left1))
  {
    hide FirstPass, Candidates, Elements, DueCutoff;
  }

  /** Every row above the cutover is due: the agents have been quiet for a bucket. */
  ghost predicate AllDue(db: Db, due: real) {
    forall m | m in db.metrics && Cutover(db) < m.id :: m.ts < due
  }

  /** With no row waiting for its bucket to close, the floor cannot run past anything. */
  lemma QuietNeverOverruns(db: Db, window: set<Row>, r: Resolution, due: real)
    requires AllDue(db, due)
    ensures !Overrun(db, window, r, due)
  {
  }

  /** A scan its LIMIT did not cut short leaves no row to run past. */
  lemma CompleteScanNeverOverruns(before: Db, db: Db, limit: nat, r: Resolution, due: real)
    requires DistinctIds(before.metrics) && FloorSound(before, r) && OnlyCovers(before, db, r)
    requires |CandidateRows(before, r, due)| <= limit
    ensures !Overrun(db, Elements(Candidates(before, r, due, limit)), r, due)
  {
    CandidatesTotal(before, r, due);
    var all, window := CandidateRows(before, r, due), Elements(Candidates(before, r, due, limit));
    assert window == all by { WholeSet(window, all); }
    forall m, held
      ensures !RunsPast(db, window, r, due, m, held)
    {
      assert m in db.metrics && Cutover(db) < m.id && RowKey(m.id, r) !in db.coverage && m.ts < due ==> m in all;
    }
  }

  lemma WholeSet<T>(part: set<T>, all: set<T>)
    requires part <= all && |part| == |all|
    ensures part == all
  {
    assert all == part + (all - part);
    assert |all| == |part| + |all - part|;
  }

  /**
   Checked before the call: nothing is in flight at this resolution, and the batch limit is at
   least the number of candidates. Then the floor skips nothing afterwards either.
   */
  lemma LargeBatchSkipsNothing(db: Db, h: History, r: Resolution, now: real, batchLimit: int)
    requires Inv(db, h) && DistinctIds(db.metrics) && FloorSound(db, r)
    requires forall k | k in db.partials :: k.res != r
    requires |CandidateRows(db, r, DueCutoff(now, r))| <= batchLimit
    ensures FloorSound(Downsample(db, r, now, batchLimit).db, r)
  {
    hide *;
    var done := Downsample(db, r, now, batchLimit);
    DownsampleCases(db, r, now, batchLimit);
    if db.cutover.Some? && !done.raised {
      var budget, due := Budget(batchLimit), DueCutoff(now, r);
      NothingToResume(db, r, budget);
      PassIs(db, r, due, budget, [], 0);
      AdvanceAllCases(db, [], budget);
      BudgetCovers(batchLimit);
      WindowIs(db, r, now, batchLimit);
      PassIs(db, r, due, budget, [], budget);
      BacklogRes(db, r, due, [], budget);
      PassKeeps(db, h, r, Backlog(Candidates(db, r, due, budget), r, []), budget);
      var second := SecondPass(db, r, due, [], budget);
      CompleteScanNeverOverruns(db, second.db, budget, r, due);
      var window := Window(db, r, now, batchLimit);
      RaiseFloorsIs(second.db, window, r, due);
      OverrunAfter(second.db, RaiseFloors(second.db, window, r, due).progress, window, r, due);
      FloorSkipsNothingIff(db, h, r, now, batchLimit);
    }
  }

  lemma NothingToResume(db: Db, r: Resolution, budget: nat)
    requires forall k | k in db.partials :: k.res != r
    ensures InFlight(db, r, budget) == []
  {
    KeysTotal(InFlightKeys(db, r), r);
    assert InFlightKeys(db, r) == {};
  }

  lemma BudgetCovers(batchLimit: int)
    ensures batchLimit <= Budget(batchLimit)
  {
  }

  // ── a floor never comes back down ───────────────────

  lemma FloorsRise(db: Db, window: set<Row>, r: Resolution, due: real, agent: Agent, s: Resolution)
    ensures Floor(db, agent, s) <= Floor(RaiseFloors(db, window, r, due), agent, s)
  {
    hide NewFloor, OwnCandidates;
    if s == r {
      RaisedFloor(db, window, r, due, agent);
    }
  }

  /** So a row the floor has run past is in no later candidate scan, however late it is looked for. */
  lemma RunPastForGood(db: Db, h: History, r: Resolution, now: real, batchLimit: int, m: Row, s: Resolution, due: real)
    requires Inv(db, h) && DistinctIds(db.metrics)
    requires m in db.metrics && m.id <= Floor(db, m.agent, s)
    ensures m.id <= Floor(Downsample(db, r, now, batchLimit).db, m.agent, s)
    ensures m !in CandidateRows(Downsample(db, r, now, batchLimit).db, s, due)
  {
    FloorKept(db, h, r, now, batchLimit, m.agent, s);
    hide Inv, Downsample, Floor;
  }

  lemma FloorKept(db: Db, h: History, r: Resolution, now: real, batchLimit: int, agent: Agent, s: Resolution)
    requires Inv(db, h) && DistinctIds(db.metrics)
    ensures Floor(db, agent, s) <= Floor(Downsample(db, r, now, batchLimit).db, agent, s)
  {
    hide *;
    DownsampleCases(db, r, now, batchLimit);
    var budget, due := Budget(batchLimit), DueCutoff(now, r);
    if db.cutover.Some? {
      var visited := InFlight(db, r, budget);
      PassIs(db, r, due, budget, [], 0);
      PassKeeps(db, h, r, visited, budget);
      var first := FirstPass(db, r, budget);
      if first.Passed? {
        PassIs(first.db, r, due, budget, visited, first.left);
        BacklogRes(first.db, r, due, visited, first.left);
        PassKeeps(first.db, h, r, Backlog(Candidates(first.db, r, due, first.left), r, visited), first.left);
        var second := SecondPass(first.db, r, due, visited, first.left);
        if second.Passed? {
          FloorSame(db, first.db, agent, r, s);
          FloorSame(first.db, second.db, agent, r, s);
          FloorsRise(second.db, Elements(Candidates(first.db, r, due, first.left)), r, due, agent, s);
        }
      }
    }
  }

  lemma FloorSame(db: Db, next: Db, agent: Agent, r: Resolution, s: Resolution)
    requires OnlyCovers(db, next, r)
    ensures Floor(next, agent, s) == Floor(db, agent, s)
  {
    hide SameAt;
  }

  // ── catching up ─────────────────────────────────────

  /** `n` calls in a row, at one clock, with nothing stored in between. */
  function Again(db: Db, r: Resolution, now: real, batchLimit: int, n: nat): (last: Db)
    requires DistinctIds(db.metrics)
    ensures DistinctIds(last.metrics)
    decreases n
  {
    if n == 0 then db
    else
      KeepsRows(db, r, now, batchLimit);
      Again(Downsample(db, r, now, batchLimit).db, r, now, batchLimit, n - 1)
  }

  lemma KeepsRows(db: Db, r: Resolution, now: real, batchLimit: int)
    requires DistinctIds(db.metrics)
    ensures Downsample(db, r, now, batchLimit).db.metrics == db.metrics
    ensures Downsample(db, r, now, batchLimit).db.cutover.Some? ==> db.cutover.Some?
  {
    hide *;
    DownsampleCases(db, r, now, batchLimit);
    var budget, due := Budget(batchLimit), DueCutoff(now, r);
    PassIs(db, r, due, budget, [], 0);
    var first := FirstPass(db, r, budget);
    if db.cutover.Some? && first.Passed? {
      var visited := InFlight(db, r, budget);
      PassIs(first.db, r, due, budget, visited, first.left);
      var second := SecondPass(first.db, r, due, visited, first.left);
      if second.Passed? {
        RaiseFloorsIs(second.db, Elements(Candidates(first.db, r, due, first.left)), r, due);
      }
    }
  }

  /** One call whose floor runs past a row. */
  ghost predicate RanPast(db: Db, r: Resolution, now: real, batchLimit: int)
    requires DistinctIds(db.metrics)
  {
    Overrun(Downsample(db, r, now, batchLimit).db, Window(db, r, now, batchLimit), r, DueCutoff(now, r))
  }

  /** What a row of calls can come to: nothing is owed, a call raises, or its floor runs past a row. */
  ghost predicate Ends(db: Db, r: Resolution, now: real, batchLimit: int)
    requires DistinctIds(db.metrics)
  {
    || Settled(db, r, DueCutoff(now, r))
    || Downsample(db, r, now, batchLimit).raised
    || RanPast(db, r, now, batchLimit)
  }

  lemma EndsIs(db: Db, r: Resolution, now: real, batchLimit: int)
    requires DistinctIds(db.metrics)
    ensures Ends(db, r, now, batchLimit) <==>
            || Settled(db, r, DueCutoff(now, r))
            || Downsample(db, r, now, batchLimit).raised
            || Overrun(Downsample(db, r, now, batchLimit).db, Window(db, r, now, batchLimit), r, DueCutoff(now, r))
  {
    hide Settled, Downsample, Overrun, Window, DueCutoff;
  }

  /**
   Catch-up terminates: from a floor that has skipped nothing, at most as many calls as there are
   rows owed settle everything, unless one of the calls raises or its floor runs past a row.
   */
  lemma {:induction false} CatchesUp(db: Db, h: History, r: Resolution, now: real, batchLimit: int)
    requires Inv(db, h) && DistinctIds(db.metrics) && db.cutover.Some? && FloorSound(db, r)
    ensures exists n: nat ::
              n <= Potential(db, r, DueCutoff(now, r)) && Ends(Again(db, r, now, batchLimit, n), r, now, batchLimit)
    decreases Potential(db, r, DueCutoff(now, r))
  {
    hide *;
    var due := DueCutoff(now, r);
    var done := Downsample(db, r, now, batchLimit);
    AgainCases(db, r, now, batchLimit, 0);
    EndsIs(db, r, now, batchLimit);
    if Potential(db, r, due) == 0 {
      SettledWhenNothingOwed(db, h, r, now);
      assert Ends(Again(db, r, now, batchLimit, 0), r, now, batchLimit);
    } else if Ends(db, r, now, batchLimit) {
      assert Ends(Again(db, r, now, batchLimit, 0), r, now, batchLimit);
    } else {
      NeverStalls(db, h, r, now, batchLimit);
      DownsampleOwes(db, h, r, now, batchLimit);
      DownsampleKeeps(db, h, r, now, batchLimit);
      KeepsRows(db, r, now, batchLimit);
      FloorSkipsNothingIff(db, h, r, now, batchLimit);
      CutoverKept(db, done.db, r);
      CatchesUp(done.db, h, r, now, batchLimit);
      var n: nat :| && n <= Potential(done.db, r, due)
                    && Ends(Again(done.db, r, now, batchLimit, n), r, now, batchLimit);
      AgainCases(db, r, now, batchLimit, n + 1);
    }
  }

  lemma CutoverKept(db: Db, next: Db, r: Resolution)
    requires OnlyDownsamples(db, next, r)
    ensures next.cutover == db.cutover
  {
    hide SameAt, SealsKept;
  }

  /** With every row due no floor runs past one, so the calls settle everything unless one raises. */
  lemma QuietCatchesUp(db: Db, h: History, r: Resolution, now: real, batchLimit: int)
    requires Inv(db, h) && DistinctIds(db.metrics) && db.cutover.Some?
    requires FloorSound(db, r) && AllDue(db, DueCutoff(now, r))
    ensures exists n: nat ::
              && n <= Potential(db, r, DueCutoff(now, r))
              && (Settled(Again(db, r, now, batchLimit, n), r, DueCutoff(now, r)) ||
                  Downsample(Again(db, r, now, batchLimit, n), r, now, batchLimit).raised)
  {
    hide *;
    CatchesUp(db, h, r, now, batchLimit);
    var n: nat :| && n <= Potential(db, r, DueCutoff(now, r))
                  && Ends(Again(db, r, now, batchLimit, n), r, now, batchLimit);
    var late := Again(db, r, now, batchLimit, n);
    AgainAllDue(db, h, r, now, batchLimit, n);
    EndsIs(late, r, now, batchLimit);
    DownsampleKeeps(late, h, r, now, batchLimit);
    AllDueKept(late, Downsample(late, r, now, batchLimit).db, r, DueCutoff(now, r));
    QuietNeverOverruns(Downsample(late, r, now, batchLimit).db, Window(late, r, now, batchLimit), r, DueCutoff(now, r));
  }

  lemma {:induction false} AgainAllDue(db: Db, h: History, r: Resolution, now: real, batchLimit: int, n: nat)
    requires Inv(db, h) && DistinctIds(db.metrics) && AllDue(db, DueCutoff(now, r))
    ensures Inv(Again(db, r, now, batchLimit, n), h)
    ensures AllDue(Again(db, r, now, batchLimit, n), DueCutoff(now, r))
    decreases n
  {
    hide *;
    AgainCases(db, r, now, batchLimit, n);
    if n > 0 {
      DownsampleKeeps(db, h, r, now, batchLimit);
      AllDueKept(db, Downsample(db, r, now, batchLimit).db, r, DueCutoff(now, r));
      AgainAllDue(Downsample(db, r, now, batchLimit).db, h, r, now, batchLimit, n - 1);
    }
  }

  lemma AgainCases(db: Db, r: Resolution, now: real, batchLimit: int, n: nat)
    requires DistinctIds(db.metrics)
    ensures n == 0 ==> Again(db, r, now, batchLimit, n) == db
    ensures n > 0 ==> DistinctIds(Downsample(db, r, now, batchLimit).db.metrics) &&
                      Again(db, r, now, batchLimit, n) ==
                      Again(Downsample(db, r, now, batchLimit).db, r, now, batchLimit, n - 1)
  {
    hide Downsample;
    KeepsRows(db, r, now, batchLimit);
  }

  lemma AllDueKept(db: Db, next: Db, r: Resolution, due: real)
    requires OnlyDownsamples(db, next, r) && AllDue(db, due)
    ensures AllDue(next, due) && next.cutover == db.cutover
  {
    hide SameAt, SealsKept;
  }
}
