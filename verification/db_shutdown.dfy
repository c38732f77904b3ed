/**
 Shutting the database down (backend/app/database.py:900-1041, 2078-2224): submissions nobody knows
 the end of, connections whose close was never confirmed and resources handed back too late are kept
 in registries until they are accounted for, and CLOSED is only said when nothing is left in any.
 */
module DbShutdown {
  import opened Wrappers

  /** An aiosqlite connection: its worker thread lives until it is seen gone. */
  class Worker {
    var alive: bool

    constructor ()
      ensures alive
    {
      alive := true;
    }
  }

  datatype Disposal = Value | ConnectionResult | CursorResult

  /** What a worker can hand back. */
  datatype Resource = Handle(worker: Worker) | Cursor(worker: Worker, number: nat)

  datatype Submission = Submission(owner: Worker, disposal: Disposal)

  /** What a task turns out to be when it is looked at. */
  datatype Fate = Pending | CancelledTask | FailedTask | Completed(resource: Option<Resource>)

  datatype Verdict = Closed | RestartRequired

  class Registry {
    /** Every call is over when it is looked at or waited for, and a worker told to stop is seen gone in time. */
    const obliging: bool
    var failStop: bool
    var closing: bool
    var closed: bool
    var shared: Option<Worker>
    var metric: Option<Worker>
    var unresolved: seq<Submission>
    var late: seq<Resource>
    var unclosed: set<Worker>
    const workers: set<Worker>            // every connection this process ever built
    ghost var returned: set<Resource>     // everything a worker ever handed back
    ghost var confirmed: set<Resource>    // what is known to be closed

    constructor (shared: Worker, metric: Worker, others: set<Worker>, obliging: bool)
      ensures Valid() && !failStop && !closed
    {
      this.obliging := obliging;
      failStop, closing, closed := false, false, false;
      this.shared, this.metric, workers := Some(shared), Some(metric), {shared, metric} + others;
      unresolved, late, unclosed := [], [], {};
      returned, confirmed := {Handle(shared), Handle(metric)}, {};
    }

    /** Where this resource is being kept, if it is not known to be closed. */
    ghost predicate Kept(r: Resource)
      reads this
    {
      || r in confirmed
      || r in late
      || (r.Handle? && (shared == Some(r.worker) || metric == Some(r.worker) || r.worker in unclosed))
    }

    /** Nothing a worker handed back is dropped, and every worker is one this process built. */
    ghost predicate Valid()
      reads this
    {
      && (forall r | r in returned :: Kept(r))
      && (forall r | r in late :: r in returned)
      && (forall s | s in unresolved :: s.owner in workers)
      && (forall r | r in late :: r.worker in workers)
      && (shared.Some? ==> shared.value in workers) && (metric.Some? ==> metric.value in workers)
      && unclosed <= workers
      && (unresolved != [] || unclosed != {} ==> failStop)
    }

    /** Nothing unknown is left, and every worker still running can be reached to be closed. */
    ghost predicate Tidy()
      reads `unresolved, `unclosed, `shared, `metric, `late, workers
    {
      && unresolved == [] && unclosed == {}
      && forall w | w in workers && w.alive :: shared == Some(w) || metric == Some(w) || Handle(w) in late
    }

    /** Look at one task; a worker thread may have gone by now, and none comes back. */
    method Look(s: Submission) returns (fate: Fate)
      requires s.owner in workers
      modifies s.owner
      ensures fate.Completed? && fate.resource.Some? ==>
                match s.disposal
                case Value => false
                case ConnectionResult => fate.resource == Some(Handle(s.owner))
                case CursorResult => fate.resource.value.Cursor? && fate.resource.value.worker == s.owner
      ensures !old(s.owner.alive) ==> !s.owner.alive
      ensures obliging ==> fate.FailedTask? || fate.Completed?
    {
      if s.owner.alive {
        s.owner.alive := *;
      }
      var n: nat, way: int := *, *;
      way := if obliging && way < 2 then 2 else way;
      match s.disposal
      case Value => fate := if way == 0 then Pending else if way == 1 then CancelledTask else if way == 2 then FailedTask else Completed(None);
      case ConnectionResult =>
        fate := if way == 0 then Pending else if way == 1 then CancelledTask else if way == 2 then FailedTask
                else if way == 3 then Completed(None) else Completed(Some(Handle(s.owner)));
      case CursorResult =>
        fate := if way == 0 then Pending else if way == 1 then CancelledTask else if way == 2 then FailedTask
                else if way == 3 then Completed(None) else Completed(Some(Cursor(s.owner, n)));
    }

    /**
     `adjudicate_unresolved`: an entry goes once its outcome can be read, and a cancelled task says
     nothing until its worker is gone. What it handed back moves to the late results.
     */
    method Adjudicate()
      requires Valid()
      modifies this`unresolved, this`late, this`returned, workers
      ensures Valid()
      ensures old(unresolved) == [] ==> late == old(late)
      ensures obliging ==> unresolved == []
      ensures |unresolved| <= |old(unresolved)| && forall s | s in unresolved :: s in old(unresolved)
      ensures old(late) <= late && old(returned) <= returned
      ensures forall w | w in workers :: !old(w.alive) ==> !w.alive
    {
      var running: seq<Submission> := [];
      var rest := unresolved;
      for i := 0 to |rest|
        invariant rest == unresolved == old(unresolved)
        invariant |running| <= i && forall s | s in running :: s in rest
        invariant Valid() && old(late) <= late && old(returned) <= returned
        invariant rest == [] ==> late == old(late)
        invariant obliging ==> running == []
        invariant forall w | w in workers :: !old(w.alive) ==> !w.alive
      {
        var s := rest[i];
        var fate := Look(s);
        if fate.Pending? || (fate.CancelledTask? && s.owner.alive) {
          running := running + [s];
        } else if fate.Completed? && fate.resource.Some? {
          late := late + [fate.resource.value];
          returned := returned + {fate.resource.value};
        }
      }
      unresolved := running;
    }

    /** One close, whatever comes of it: confirmed, proved gone already, failed, or never answered. */
    method SubmitClose(owner: Worker, disposal: Disposal) returns (done: bool, gone: bool, recorded: bool)
      requires Valid() && owner in workers
      modifies this`failStop, this`unresolved
      ensures Valid() && (old(failStop) ==> failStop)
      ensures done ==> failStop == old(failStop) && unresolved == old(unresolved)
      ensures recorded ==> failStop && !done
      ensures gone ==> !done
      ensures !recorded ==> unresolved == old(unresolved)
      ensures old(unresolved) <= unresolved
      ensures obliging ==> done
    {
      done, gone, recorded := *, *, *;
      done := done || obliging;
      if done {
        gone, recorded := false, false;
      }
      if recorded {
        unresolved, failStop := unresolved + [Submission(owner, disposal)], true;
      }
    }

    /** `_join_worker`: wait for the thread itself, within what is left of the time. */
    method Join(w: Worker) returns (gone: bool)
      modifies w
      ensures gone ==> !w.alive
      ensures !old(w.alive) ==> !w.alive
      ensures obliging ==> gone
    {
      if w.alive {
        w.alive := *;
        if obliging {
          w.alive := false;
        }
      }
      gone := !w.alive;
    }

    /**
     `_dispose_late_results`: close what came back too late. A close that cannot be confirmed keeps
     the resource on record: a connection as unclosed, a cursor among the late results.
     */
    method DisposeLate(cursorsOnly: bool)
      requires Valid()
      modifies this`failStop, this`unresolved, this`late, this`unclosed, this`confirmed, workers
      ensures Valid() && (old(failStop) ==> failStop) && old(confirmed) <= confirmed && old(unclosed) <= unclosed
      ensures forall r | r in late :: r in old(late)
      ensures !cursorsOnly ==> forall r | r in late :: r.Cursor?
      ensures late != [] && !cursorsOnly ==> failStop
      ensures forall w | w in workers :: !old(w.alive) ==> !w.alive
      ensures old(unresolved) <= unresolved
      ensures obliging ==> unresolved == old(unresolved) && unclosed == old(unclosed) && failStop == old(failStop)
      ensures obliging && !cursorsOnly ==> late == [] && forall r | r in old(late) && r.Handle? :: !r.worker.alive
      ensures obliging && cursorsOnly ==> forall r | r in old(late) && r.Handle? :: r in late
    {
      var pending := late;
      var kept: seq<Resource> := [];
      for i := 0 to |pending|
        invariant pending == late == old(late)
        invariant Valid() && (old(failStop) ==> failStop) && old(confirmed) <= confirmed && old(unclosed) <= unclosed
        invariant forall r | r in kept :: r in pending && (cursorsOnly || r.Cursor?)
        invariant kept != [] && !cursorsOnly ==> failStop
        invariant forall k | 0 <= k < i :: Accounted(pending[k], kept)
        invariant forall w | w in workers :: !old(w.alive) ==> !w.alive
        invariant old(unresolved) <= unresolved
        invariant obliging ==> unresolved == old(unresolved) && unclosed == old(unclosed) && failStop == old(failStop)
        invariant obliging ==> forall k | 0 <= k < i && pending[k].Handle? ::
                    if cursorsOnly then pending[k] in kept else !pending[k].worker.alive
        invariant obliging && !cursorsOnly ==> kept == []
      {
        var r := pending[i];
        if cursorsOnly && r.Handle? {
          kept := kept + [r];
        } else {
          var keep := CloseLate(r);
          if keep {
            kept := kept + [r];
          }
        }
      }
      assert forall r | r in returned && r in late :: Accounted(r, kept);
      late := kept;
    }

    /** Where a late result is to be found once the pass has dealt with it. */
    ghost predicate Accounted(r: Resource, kept: seq<Resource>)
      reads this
    {
      r in kept || r in confirmed || (r.Handle? && r.worker in unclosed)
    }

    method CloseLate(r: Resource) returns (keep: bool)
      requires Valid() && r in late
      modifies this`failStop, this`unresolved, this`unclosed, this`confirmed, workers
      ensures Valid() && (old(failStop) ==> failStop) && old(confirmed) <= confirmed && old(unclosed) <= unclosed
      ensures keep ==> r.Cursor? && failStop
      ensures !keep ==> r in confirmed || (r.Handle? && r.worker in unclosed)
      ensures old(unresolved) <= unresolved
      ensures obliging ==> !keep && unresolved == old(unresolved) && unclosed == old(unclosed) && failStop == old(failStop)
      ensures obliging && r.Handle? ==> !r.worker.alive
      ensures forall w | w in workers :: !old(w.alive) ==> !w.alive
    {
      keep := false;
      if r.Cursor? {
        var done, gone, recorded := SubmitClose(r.worker, Value);
        if done || (gone && !recorded) {
          confirmed := confirmed + {r};
          return;
        }
        failStop, keep := true, true;
      } else {
        var done, _, _ := SubmitClose(r.worker, Value);
        var left := false;
        if done {
          left := Join(r.worker);
        }
        if left {
          confirmed := confirmed + {r};
        } else {
          failStop, unclosed := true, unclosed + {r.worker};
        }
      }
    }

    /** Close one of the two published connections: its worker has to be seen gone. */
    method CloseConnection(w: Worker) returns (ok: bool)
      requires Valid() && w in workers
      modifies this`failStop, this`unresolved, this`unclosed, this`confirmed, workers
      ensures Valid() && (old(failStop) ==> failStop) && old(confirmed) <= confirmed && old(unclosed) <= unclosed
      ensures ok ==> Handle(w) in confirmed && !w.alive && unclosed == old(unclosed) && unresolved == old(unresolved)
      ensures !ok ==> w in unclosed && failStop
      ensures obliging ==> ok && failStop == old(failStop)
      ensures forall x | x in workers :: !old(x.alive) ==> !x.alive
    {
      var done, _, _ := SubmitClose(w, Value);
      ok := false;
      if done {
        ok := Join(w);
      }
      if ok {
        confirmed := confirmed + {Handle(w)};
      } else {
        failStop, unclosed := true, unclosed + {w};
      }
    }

    /** Register as unclosed every worker still running, whatever the registries say. */
    method Stragglers() returns (any: bool)
      requires Valid()
      modifies this`failStop, this`unclosed
      ensures Valid() && (old(failStop) ==> failStop)
      ensures !any ==> (forall w | w in workers :: !w.alive) && unclosed == old(unclosed)
      ensures any ==> unclosed != {}
      ensures any <==> exists w | w in workers :: w.alive
    {
      var running := set w | w in workers && w.alive;
      any := running != {};
      assert forall w | w in workers && w.alive :: w in running;
      if any {
        unclosed, failStop := unclosed + running, true;
      }
    }

    /** Everything still owed after both connections: closed inside the same deadline, or on record. */
    method Finish(verdict: Verdict) returns (final: Verdict)
      requires Valid() && shared.None? && metric.None?
      modifies this`failStop, this`unresolved, this`late, this`unclosed, this`returned, this`confirmed, workers
      ensures Valid() && (old(failStop) ==> failStop)
      ensures final.Closed? ==> verdict.Closed? && AllAccounted()
      ensures verdict.Closed? && !final.Closed? ==> !AllAccounted()
      ensures old(unclosed) <= unclosed
      ensures obliging && verdict.Closed? && old(Tidy()) ==> final.Closed?
    {
      Adjudicate();
      DisposeLate(false);
      Adjudicate();
      if unresolved != [] || unclosed != {} || late != [] {
        return RestartRequired;
      }
      var any := Stragglers();
      final := if any then RestartRequired else verdict;
    }

    /** Nothing on any registry, nothing handed back that is not closed, and no worker running. */
    ghost predicate AllAccounted()
      reads this, workers
    {
      && unresolved == [] && late == [] && unclosed == {} && shared.None? && metric.None?
      && (forall r | r in returned :: r in confirmed)
      && (forall w | w in workers :: !w.alive)
    }

    /**
     `close_db`: every way out leaves the database closed, and CLOSED is only said when every worker
     this process ever built is gone and everything one ever handed back is known to be closed.
     */
    method CloseDb(timesOut: bool) returns (verdict: Verdict)
      requires Valid()
      modifies this, workers
      ensures Valid() && closed && !closing && (old(failStop) ==> failStop)
      ensures verdict.Closed? ==> AllAccounted()
      ensures !timesOut && AllAccounted() ==> verdict.Closed?
      ensures obliging && !timesOut && old(Tidy()) ==> verdict.Closed?
    {
      closing := true;
      if timesOut {
        failStop, closed, closing := true, true, false;
        return RestartRequired;
      }
      verdict := Quiesce();
      closed, closing := true, false;
    }

    /** With the lock held: settle what can be settled, then close both connections. */
    method Quiesce() returns (verdict: Verdict)
      requires Valid()
      modifies this`failStop, this`unresolved, this`late, this`unclosed, this`returned, this`confirmed, this`shared,
               this`metric, workers
      ensures Valid() && (old(failStop) ==> failStop)
      ensures verdict.Closed? <==> AllAccounted()
      ensures obliging && old(Tidy()) ==> verdict.Closed?
    {
      hide Valid, AllAccounted, Tidy;
      Settle();
      StillOwed();
      if unresolved != [] {
        Abandon();
        DisposeLate(false);
        StillOwed();
        return RestartRequired;
      }
      verdict := CloseBoth();
      verdict := Finish(verdict);
      StillOwed();
    }

    lemma StillOwed()
      ensures unresolved != [] || unclosed != {} ==> !AllAccounted()
      ensures Tidy() ==> unresolved == []
    {
    }

    /** Late cursors are closed while the connections they belong to still are. */
    method Settle()
      requires Valid()
      modifies this`failStop, this`unresolved, this`late, this`unclosed, this`returned, this`confirmed, workers
      ensures Valid() && (old(failStop) ==> failStop)
      ensures obliging && old(Tidy()) ==> Tidy()
    {
      Adjudicate();
      DisposeLate(true);
      Adjudicate();
      DisposeLate(true);
      Adjudicate();
    }

    /** A statement is still on a worker: nothing is closed behind it, and both connections stay on record. */
    method Abandon()
      requires Valid() && unresolved != []
      modifies this`unclosed, this`shared, this`metric
      ensures Valid() && shared.None? && metric.None?
      ensures unclosed == old(unclosed) + (if old(shared).Some? then {old(shared).value} else {}) +
                          (if old(metric).Some? then {old(metric).value} else {})
    {
      if shared.Some? {
        unclosed := unclosed + {shared.value};
      }
      if metric.Some? {
        unclosed := unclosed + {metric.value};
      }
      shared, metric := None, None;
    }

    method CloseBoth() returns (verdict: Verdict)
      requires Valid()
      modifies this`failStop, this`unresolved, this`unclosed, this`confirmed, this`shared, this`metric, workers
      ensures Valid() && (old(failStop) ==> failStop) && shared.None? && metric.None?
      ensures !verdict.Closed? ==> unclosed != {}
      ensures obliging && old(Tidy()) ==> verdict.Closed? && Tidy()
    {
      verdict := Closed;
      if shared.Some? {
        var ok := CloseConnection(shared.value);
        if !ok {
          verdict := RestartRequired;
        }
      }
      shared := None;
      if metric.Some? {
        var ok := CloseConnection(metric.value);
        if !ok {
          verdict := RestartRequired;
        }
      }
      metric := None;
    }
  }
}
