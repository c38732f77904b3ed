/**
 The database operation boundary (backend/app/database.py:209-459, 1109-1891): every statement goes
 to a worker thread that may finish, fail, come back cancelled or never answer, while the caller may
 be cancelled at any await. A connection holds what SQLite really has open; the code only learns of
 it through answers. The answers are chosen freely, so each contract holds for all of them.
 */
module DbBoundary {
  import opened Wrappers

  /** The exceptions this module reasons with; the last three never reach a caller. */
  datatype Exn =
    | Failure
    | FailStop
    | Cancelled
    | CancelledAfter(inner: Exn)
    | Unknown(owed: bool)
    | Child(owed: bool)

  predicate IsPublic(e: Exn) {
    e.Failure? || e.FailStop? || e.Cancelled?
  }

  /** `_as_public`. */
  function Public(e: Exn): Exn {
    match e
    case CancelledAfter(_) => Cancelled
    case Unknown(owed) => if owed then Cancelled else FailStop
    case Child(owed) => if owed then Cancelled else FailStop
    case _ => e
  }

  /** `isinstance(exc, CancelledError)`. */
  predicate IsCancellation(e: Exn) {
    e.Cancelled? || e.CancelledAfter?
  }

  /** `_already_fail_stopped`: raising it already latched. */
  predicate Latched(e: Exn) {
    e.Unknown? || e.Child?
  }

  // ── one operation's ending ──────────────────────────

  /** `_Outcome`: cancellation, error and safety problems, each kept whatever the others are. */
  datatype Outcome = Outcome(cancelled: bool, error: Option<Exn>, problems: nat)

  const NOTHING := Outcome(false, None, 0)

  function Owe(o: Outcome, cancelled: bool): Outcome {
    o.(cancelled := o.cancelled || cancelled)
  }

  function Absorb(o: Outcome, e: Exn): Outcome {
    match e
    case CancelledAfter(inner) => Owe(o, true).(error := if o.error.None? then Some(inner) else o.error)
    case Unknown(owed) => Owe(o, owed).(error := if o.error.None? then Some(e) else o.error)
    case Child(owed) => Owe(o, owed).(error := if o.error.None? then Some(e) else o.error)
    case Cancelled => Owe(o, true)
    case _ => o.(error := if o.error.None? then Some(e) else o.error)
  }

  function Unsafe(o: Outcome): Outcome {
    o.(problems := o.problems + 1)
  }

  /** `_caller_owed`: a cancellation still owed wins over any other error. */
  function CallerOwed(cancelled: bool, e: Exn): Exn {
    if !cancelled || IsCancellation(e) then e else CancelledAfter(e)
  }

  /** `settle`: the one exception the operation owes its caller; problems latch the fail-stop. */
  function Settled(o: Outcome): Option<Exn> {
    if o.problems > 0 then Some(CallerOwed(o.cancelled, FailStop))
    else if o.error.Some? then Some(CallerOwed(o.cancelled, o.error.value))
    else if o.cancelled then Some(Cancelled)
    else None
  }

  /** Whether any of this owes the caller a cancellation. */
  predicate Owes(e: Exn) {
    IsCancellation(e) || (e.Unknown? && e.owed) || (e.Child? && e.owed)
  }

  /** A cancellation absorbed anywhere on the way is what the caller sees at the end. */
  lemma CancellationSurvives(o: Outcome, e: Exn)
    ensures o.cancelled || Owes(e) ==> Settled(Absorb(o, e)).Some? && Public(Settled(Absorb(o, e)).value) == Cancelled
    ensures o.cancelled ==> Settled(o).Some? && Public(Settled(o).value) == Cancelled
    ensures Settled(Absorb(o, e)).Some?
  {
  }

  // ── the worker ──────────────────────────────────────

  datatype Call =
    | Begin | Commit | Rollback | FetchAll
    | Execute(writes: set<nat>)
    | CloseCursor(cursor: nat)

  /** Finished; raised; came back cancelled; never answered within the budget. */
  datatype Answer = Done | Raised | Dropped | Silent

  class Connection {
    var inTx: bool
    var cursors: set<nat>        // open, each pinning a read snapshot
    var made: nat                // cursors handed out so far
    var unsaved: set<nat>        // written inside the open transaction
    var durable: set<nat>        // committed
    var loose: bool              // some call may yet take effect, or may not
    var mayLand: bool      // and one of them may yet make something durable
    var readable: bool           // its state can be asked for; once it cannot, it never can again

    constructor ()
      ensures Quiet() && durable == {} && unsaved == {} && made == 0 && readable && !mayLand
    {
      inTx, cursors, made, unsaved, durable, loose, readable := false, {}, 0, {}, {}, false, true;
      mayLand := false;
    }

    /** Nothing open, and nothing under way that could open something. */
    predicate Quiet()
      reads this
    {
      !inTx && cursors == {} && !loose
    }

    ghost function Seen(): Sight
      reads this
    {
      Sight(inTx, unsaved, durable, loose, mayLand)
    }

    ghost predicate Numbered()
      reads this
    {
      (forall c | c in cursors :: c < made) && (!inTx && !loose ==> unsaved == {}) && (mayLand ==> loose)
    }
  }

  /** What a call that finished did. A COMMIT or ROLLBACK may report success over an open transaction. */
  twostate predicate Did(c: Connection, call: Call, cursor: nat)
    reads c
  {
    c.mayLand == old(c.mayLand) &&
    match call
    case Begin =>
      && c.inTx && c.unsaved == {} && c.durable == old(c.durable)
      && cursor == old(c.made) && c.made == cursor + 1 && c.cursors == old(c.cursors) + {cursor}
    case Execute(writes) =>
      && c.inTx == old(c.inTx)
      && c.unsaved == (if old(c.inTx) then old(c.unsaved) + writes else old(c.unsaved))
      && c.durable == (if old(c.inTx) then old(c.durable) else old(c.durable) + writes)
      && cursor == old(c.made) && c.made == cursor + 1 && c.cursors == old(c.cursors) + {cursor}
    case FetchAll => unchanged(c)
    case CloseCursor(k) =>
      && c.inTx == old(c.inTx) && c.unsaved == old(c.unsaved) && c.durable == old(c.durable) && c.made == old(c.made)
      && c.cursors == old(c.cursors) - {k}
    case Commit =>
      && c.cursors == old(c.cursors) && c.made == old(c.made)
      && (unchanged(c) || (!c.inTx && c.unsaved == {} && c.durable == old(c.durable) + old(c.unsaved)))
    case Rollback =>
      && c.cursors == old(c.cursors) && c.made == old(c.made) && c.durable == old(c.durable)
      && (unchanged(c) || (!c.inTx && c.unsaved == {}))
  }

  /**
   What a call that raised may have done all the same: SQLite can roll back by itself, or have
   committed, and a statement run many times can have been stopped in the middle.
   */
  twostate predicate MayHave(c: Connection, call: Call)
    reads c
  {
    && c.cursors == old(c.cursors) && c.made == old(c.made) && c.mayLand == old(c.mayLand)
    && (call.CloseCursor? || call.FetchAll? ==> unchanged(c))
    && (call.Begin? ==> c.unsaved == {} && c.durable == old(c.durable))
    && (call.Rollback? ==> unchanged(c) || (!c.inTx && c.unsaved == {} && c.durable == old(c.durable)))
    && (call.Execute? ==>
          if c.inTx then old(c.inTx) && old(c.unsaved) <= c.unsaved <= old(c.unsaved) + call.writes && c.durable == old(c.durable)
          else if old(c.inTx) then c.unsaved == {} && c.durable == old(c.durable)
          else c.unsaved == old(c.unsaved) && old(c.durable) <= c.durable <= old(c.durable) + call.writes)
    && (call.Commit? ==>
          unchanged(c) || (!c.inTx && c.unsaved == {} &&
                           (c.durable == old(c.durable) || c.durable == old(c.durable) + old(c.unsaved))))
  }

  /** One submission nobody knows the end of, and the connection whose worker has it. */
  datatype Submission = Submission(owner: Connection, call: Call)

  class Database {
    /** Every call is answered, did what it says, and its caller is never cancelled. */
    const obliging: bool
    var failStop: bool
    var closing: bool
    var closed: bool
    var shared: Connection
    var metric: Connection
    var unresolved: seq<Submission>
    var unclosed: set<Connection>
    ghost var interrupted: bool      // the caller of the operation under way has been cancelled

    constructor (obliging: bool)
      ensures Valid() && !failStop && !closing && !closed && fresh(shared) && fresh(metric)
      ensures this.obliging == obliging && Willing(shared) == Willing(metric) == obliging
    {
      this.obliging := obliging;
      failStop, closing, closed, unresolved, unclosed, interrupted := false, false, false, [], {}, false;
      shared := new Connection();
      metric := new Connection();
    }

    /**
     Whenever the operation lock is free: neither connection has a transaction or a cursor open, or
     the fail-stop is latched, and with anything unresolved it always is.
     */
    ghost predicate Safe()
      reads `failStop, `unresolved, `unclosed, `shared, `metric, shared, metric
    {
      failStop || (shared.Quiet() && metric.Quiet() && unresolved == [] && unclosed == {})
    }

    ghost predicate Valid()
      reads `failStop, `unresolved, `unclosed, `shared, `metric, shared, metric
    {
      shared != metric && Safe() && shared.Numbered() && metric.Numbered()
    }

    ghost predicate Mine(c: Connection)
      reads `shared, `metric
    {
      c == shared || c == metric
    }

    /**
     While an operation runs on `c`: the other connection is quiet, and so is `c` but for what is
     tracked, unless the operation has already found a problem it has yet to latch.
     */
    ghost predicate Running(c: Connection, tracked: set<nat>, trouble: bool)
      reads `failStop, `unresolved, `unclosed, `shared, `metric, shared, metric
    {
      && shared != metric && Mine(c) && shared.Numbered() && metric.Numbered()
      && (c.loose ==> failStop)
      && (!failStop && !trouble ==>
            && (c == shared ==> metric.Quiet()) && (c == metric ==> shared.Quiet())
            && c.cursors <= tracked && !c.loose && unresolved == [] && unclosed == {})
    }

    /** Whatever is asked of this connection from here on goes well. */
    predicate Willing(c: Connection)
      reads c
    {
      obliging && !c.loose && c.readable
    }

    method Latch()
      modifies `failStop
      ensures failStop
    {
      failStop := true;
    }

    /**
     `_submit`: hand one call to the worker and recover its ending. The two endings that are not
     terminal register the submission and latch before anything else can happen.
     */
    method Submit(c: Connection, call: Call, ghost tracked: set<nat>, ghost trouble: bool)
        returns (answer: Answer, cancelled: bool, cursor: nat)
      requires Running(c, tracked, trouble)
      modifies this`failStop, this`unresolved, this`interrupted, c
      ensures Running(c, tracked + (if answer.Done? && (call.Begin? || call.Execute?) then {cursor} else {}), trouble)
      ensures !failStop && answer.Done? && call.CloseCursor? ==> Running(c, tracked - {call.cursor}, trouble)
      ensures interrupted == (old(interrupted) || cancelled)
      ensures old(Willing(c)) ==>
                Willing(c) && answer.Done? && !cancelled && (call.Commit? || call.Rollback? ==> !c.inTx) && c.readable
      ensures answer.Dropped? || answer.Silent? ==> failStop
      ensures (old(failStop) ==> failStop) && (old(interrupted) ==> interrupted)
      ensures (answer.Done? || answer.Raised?) ==> failStop == old(failStop) && unresolved == old(unresolved)
      ensures !old(c.loose) && (answer.Done? || answer.Raised?) ==> !c.loose
      ensures !old(c.loose) && answer.Done? ==> Did(c, call, cursor)
      ensures !old(c.loose) && answer.Raised? ==> MayHave(c, call)
      ensures (old(c.mayLand) ==> c.mayLand) && (old(c.loose) ==> c.loose)
      ensures c.mayLand && !old(c.mayLand) ==> call.Commit? || call.Execute?
      ensures old(c.loose) || answer.Dropped? || answer.Silent? ==>
                c.loose && (call.Commit? || call.Execute? ==> c.mayLand) && (!c.mayLand ==> c.durable == old(c.durable))
    {
      hide Did, MayHave;
      answer, cancelled, cursor := *, *, c.made;
      if obliging {
        answer, cancelled := Done, false;
      }
      if answer.Dropped? || answer.Silent? || c.loose {
        if answer.Dropped? || answer.Silent? {
          unresolved, failStop := unresolved + [Submission(c, call)], true;
        }
        Stray(c, call);
      } else {
        Settle(c, call, answer.Done?);
      }
      interrupted := interrupted || cancelled;
    }

    /** A call with a terminal ending, on a worker with nothing else pending. */
    method Settle(c: Connection, call: Call, done: bool)
      requires !c.loose && c.Numbered()
      modifies c
      ensures !c.loose && c.Numbered() && (forall k | k in c.cursors :: k in old(c.cursors) || k == old(c.made))
      ensures done ==> Did(c, call, old(c.made))
      ensures !done ==> MayHave(c, call)
      ensures c.readable == old(c.readable) && (obliging && done && (call.Commit? || call.Rollback?) ==> !c.inTx)
    {
      if done {
        Perform(c, call);
      } else {
        Misfire(c, call);
      }
    }

    /**
     With a call pending on the worker nothing is known: it may land now, later or never. But only a
     COMMIT or a statement can make anything durable.
     */
    method Stray(c: Connection, call: Call)
      requires c.Numbered()
      modifies c
      ensures c.loose && c.Numbered() && old(c.durable) <= c.durable
      ensures c.mayLand == (old(c.mayLand) || call.Commit? || call.Execute?)
      ensures !c.mayLand ==> c.durable == old(c.durable)
      ensures c.made == old(c.made) + 1 && c.cursors == old(c.cursors) + {old(c.made)}
    {
      c.inTx, c.loose, c.unsaved := *, true, *;
      c.mayLand := c.mayLand || call.Commit? || call.Execute?;
      var landed: set<nat> := *;
      if c.mayLand {
        c.durable := c.durable + landed;
      }
      c.cursors, c.made := c.cursors + {c.made}, c.made + 1;
    }

    method Perform(c: Connection, call: Call)
      requires !c.loose && c.Numbered()
      modifies c
      ensures Did(c, call, old(c.made)) && !c.loose && c.Numbered()
      ensures c.readable == old(c.readable) && (obliging && (call.Commit? || call.Rollback?) ==> !c.inTx)
    {
      match call
      case Begin =>
        c.inTx, c.unsaved, c.cursors, c.made := true, {}, c.cursors + {c.made}, c.made + 1;
      case Execute(writes) =>
        if c.inTx {
          c.unsaved := c.unsaved + writes;
        } else {
          c.durable := c.durable + writes;
        }
        c.cursors, c.made := c.cursors + {c.made}, c.made + 1;
      case FetchAll =>
      case CloseCursor(k) =>
        c.cursors := c.cursors - {k};
      case Commit =>
        var works: bool := *;
        if works || obliging {
          c.inTx, c.durable, c.unsaved := false, c.durable + c.unsaved, {};
        }
      case Rollback =>
        var works: bool := *;
        if works || obliging {
          c.inTx, c.unsaved := false, {};
        }
    }

    method Misfire(c: Connection, call: Call)
      requires !c.loose && c.Numbered()
      modifies c
      ensures MayHave(c, call) && !c.loose && c.Numbered() && c.readable == old(c.readable)
    {
      match call
      case Begin =>
        c.inTx, c.unsaved := *, {};
      case Execute(_) =>
        if * {
          c.inTx, c.unsaved := false, {};
        }
      case FetchAll =>
      case CloseCursor(_) =>
      case Commit =>
        if * {
          if * {
            c.durable := c.durable + c.unsaved;
          }
          c.inTx, c.unsaved := false, {};
        }
      case Rollback =>
        if * {
          c.inTx, c.unsaved := false, {};
        }
    }

    /** `_transaction_state`: SQLite's own flag, or nothing once the wrapper has dropped its connection. */
    method TransactionState(c: Connection) returns (state: Option<bool>)
      modifies c`readable
      ensures state == if c.readable then Some(c.inTx) else None
      ensures c.readable ==> old(c.readable)
      ensures obliging ==> c.readable == old(c.readable)
    {
      if c.readable && !obliging {
        c.readable := *;
      }
      state := if c.readable then Some(c.inTx) else None;
    }

    /** The exception an ending that is not a result becomes. */
    function Thrown(answer: Answer, cancelled: bool): Exn
      requires !answer.Done?
    {
      match answer
      case Raised => if cancelled then CancelledAfter(Failure) else Failure
      case Dropped => Child(cancelled)
      case Silent => Unknown(cancelled)
    }

    /**
     `_close_cursor`: one cursor closed to a definite outcome, with the cancellation owed, or the
     exception that says it is not known to be.
     */
    method CloseOne(c: Connection, k: nat, ghost tracked: set<nat>, ghost trouble: bool) returns (cancelled: bool, raised: Option<Exn>)
      requires Running(c, tracked, trouble)
      modifies this`failStop, this`unresolved, this`interrupted, c
      ensures raised.None? ==> Running(c, tracked - {k}, trouble) && interrupted == (old(interrupted) || cancelled)
      ensures raised.Some? ==> Running(c, tracked, trouble) && !cancelled && interrupted == (old(interrupted) || Owes(raised.value))
      ensures raised.Some? && Latched(raised.value) ==> failStop
      ensures raised.None? || !Latched(raised.value) ==> failStop == old(failStop)
      ensures (old(failStop) ==> failStop) && (old(interrupted) ==> interrupted)
      ensures LandsNothing(c) && (!c.loose || raised.None? ==> KeptTx(c)) && (raised.None? ==> c.loose == old(c.loose))
      ensures old(Willing(c)) ==> Willing(c) && raised.None? && !cancelled
    {
      var answer, gone, _ := Submit(c, CloseCursor(k), tracked, trouble);
      if answer.Done? {
        return gone, None;
      }
      cancelled, raised := false, Some(Thrown(answer, gone));
    }

    /** Nothing became durable but for what may yet land, and nothing more may. */
    twostate predicate LandsNothing(c: Connection)
      reads c
    {
      c.mayLand == old(c.mayLand) && (old(c.loose) ==> c.loose) && (!c.mayLand ==> c.durable == old(c.durable))
    }

    twostate predicate KeptTx(c: Connection)
      reads c
    {
      !old(c.loose) ==> c.inTx == old(c.inTx) && c.unsaved == old(c.unsaved) && c.durable == old(c.durable)
    }

    // ── cleanup ───────────────────────────────────────

    /** `_cleanup_cursors`: close every cursor the boundary still holds, into the same outcome. */
    method CleanupCursors(c: Connection, handle: seq<nat>, start: Outcome) returns (o: Outcome)
      requires Running(c, SetOf(handle), start.problems > 0)
      modifies this`failStop, this`unresolved, this`interrupted, c
      ensures Running(c, SetOf(handle), o.problems > 0)
      ensures o.problems == start.problems == 0 ==> Running(c, {}, false)
      ensures o.problems >= start.problems && o.error == start.error && (start.cancelled ==> o.cancelled)
      ensures interrupted ==> old(interrupted) || o.cancelled
      ensures (old(failStop) ==> failStop) && (old(interrupted) ==> interrupted)
      ensures failStop && !old(failStop) ==> o.problems > start.problems
      ensures LandsNothing(c) && (!c.loose ==> KeptTx(c))
      ensures o.problems == start.problems ==> KeptTx(c) && c.loose == old(c.loose)
      ensures old(Willing(c)) ==> Willing(c) && o == start
    {
      o := start;
      var i := 0;
      while i < |handle|
        invariant i <= |handle|
        invariant Running(c, SetOf(handle), o.problems > 0)
        invariant o.problems == start.problems == 0 ==> Running(c, SetOf(handle[i..]), false)
        invariant o.problems >= start.problems && o.error == start.error && (start.cancelled ==> o.cancelled)
        invariant interrupted ==> old(interrupted) || o.cancelled
        invariant (old(failStop) ==> failStop) && (old(interrupted) ==> interrupted)
        invariant failStop && !old(failStop) ==> o.problems > start.problems
        invariant LandsNothing(c) && (!c.loose ==> KeptTx(c))
        invariant o.problems == start.problems ==> KeptTx(c) && c.loose == old(c.loose)
        invariant old(Willing(c)) ==> Willing(c) && o == start
      {
        var k := handle[i];
        HeadOf(handle, i);
        ghost var tracked := if o.problems == start.problems == 0 then SetOf(handle[i..]) else SetOf(handle);
        var cancelled, raised := CloseOne(c, k, tracked, o.problems > 0);
        if raised.None? {
          o := Owe(o, cancelled);
        } else {
          o := Unsafe(Owe(o, Owes(raised.value)));
        }
        i := i + 1;
      }
    }

    /** `_force_close_transaction`: leave no transaction open, and never call an unreadable state closed. */
    method ForceClose(c: Connection, ghost tracked: set<nat>, start: Outcome) returns (o: Outcome)
      requires Running(c, tracked, start.problems > 0)
      modifies this`failStop, this`unresolved, this`interrupted, this`unclosed, c
      ensures Running(c, tracked, o.problems > 0)
      ensures o.problems >= start.problems && o.error == start.error && (start.cancelled ==> o.cancelled)
      ensures o.problems == start.problems ==> failStop == old(failStop) && unclosed == old(unclosed)
      ensures o.problems == start.problems && !failStop ==> !c.inTx
      ensures !old(c.readable) ==> o.problems > start.problems
      ensures interrupted ==> old(interrupted) || o.cancelled
      ensures (old(failStop) ==> failStop) && (old(interrupted) ==> interrupted)
      ensures LandsNothing(c)
      ensures c.cursors <= old(c.cursors) || failStop
      ensures old(Willing(c)) ==> Willing(c) && o == start
    {
      o := start;
      var state := TransactionState(c);
      if state.None? {
        o := Unsafe(o);
        unclosed := unclosed + {c};
        return;
      }
      if !state.value {
        return;
      }
      o := RollBack(c, tracked, start);
      state := TransactionState(c);
      if state.None? {
        o := Unsafe(o);
        unclosed := unclosed + {c};
      } else if state.value {
        o := Unsafe(o);
      }
    }

    /** `_rollback`, into the outcome: an ending that is not a result is a problem of its own. */
    method RollBack(c: Connection, ghost tracked: set<nat>, start: Outcome) returns (o: Outcome)
      requires Running(c, tracked, start.problems > 0)
      modifies this`failStop, this`unresolved, this`interrupted, c
      ensures Running(c, tracked, o.problems > 0)
      ensures o.problems >= start.problems && o.error == start.error && (start.cancelled ==> o.cancelled)
      ensures o.problems == start.problems ==> failStop == old(failStop)
      ensures interrupted ==> old(interrupted) || o.cancelled
      ensures (old(failStop) ==> failStop) && (old(interrupted) ==> interrupted)
      ensures LandsNothing(c) && (!failStop ==> c.cursors == old(c.cursors))
      ensures old(Willing(c)) ==> Willing(c) && o == start && !c.inTx
    {
      o := start;
      var answer, cancelled, _ := Submit(c, Rollback, tracked, start.problems > 0);
      if answer.Done? {
        o := Owe(o, cancelled);
      } else {
        o := Unsafe(Owe(o, Owes(Thrown(answer, cancelled))));
      }
    }

    /** `settle`: record the problems, and say what the caller is owed. */
    method Conclude(o: Outcome) returns (e: Option<Exn>)
      modifies `failStop
      ensures e == Settled(o)
      ensures failStop == (old(failStop) || o.problems > 0)
    {
      if o.problems > 0 {
        Latch();
      }
      e := Settled(o);
    }

    // ── statements ────────────────────────────────────

    /**
     One statement of a handle (`execute`, `fetch_all`): its cursor is released before the caller
     hears of it, and what the caller hears is one public ending.
     */
    method RunStatement(c: Connection, handle: seq<nat>, writes: set<nat>, fetches: bool)
        returns (left: seq<nat>, raised: Option<Exn>)
      requires Running(c, SetOf(handle), false)
      modifies this`failStop, this`unresolved, this`interrupted, c
      ensures Running(c, SetOf(left), false)
      ensures raised.None? ==> left == handle && failStop == old(failStop) && interrupted == old(interrupted)
      ensures raised.Some? ==> IsPublic(raised.value)
      ensures interrupted && !old(interrupted) ==> raised == Some(Cancelled)
      ensures (old(failStop) ==> failStop) && (old(interrupted) ==> interrupted)
      ensures raised == Some(Failure) ==> failStop == old(failStop)
      ensures !c.loose && raised.None? ==>
                && c.inTx == old(c.inTx)
                && (old(c.inTx) ==> c.unsaved == old(c.unsaved) + writes)
      ensures !c.loose && old(c.inTx) && c.inTx ==> old(c.unsaved) <= c.unsaved <= old(c.unsaved) + writes
      ensures (old(c.mayLand) ==> c.mayLand) && (old(c.loose) ==> c.loose)
      ensures !old(c.inTx || c.loose) && !c.mayLand ==>
                (!c.loose ==> !c.inTx) && old(c.durable) <= c.durable <= old(c.durable) + writes
      ensures old(c.inTx || c.loose) && !c.mayLand ==> c.durable == old(c.durable)
      ensures old(Willing(c)) ==> Willing(c) && raised.None?
    {
      var o, k := Execute(c, handle, writes);
      left := handle;
      if k.Some? {
        JoinSet(handle, k.value);
        left, o := Drain(c, handle, k.value, fetches, o);
      }
      SettleIs(o);
      var e := Conclude(o);
      raised := if e.Some? then Some(Public(e.value)) else None;
    }

    /** The rows, if they are asked for, and then the cursor's release. */
    method Drain(c: Connection, handle: seq<nat>, k: nat, fetches: bool, start: Outcome) returns (left: seq<nat>, o: Outcome)
      requires Running(c, SetOf(handle + [k]), false) && start.problems == 0 && start.error.None?
      modifies this`failStop, this`unresolved, this`interrupted, c
      ensures Running(c, SetOf(left), o.problems > 0) && Running(c, SetOf(left), false) && (o.problems == 0 ==> left == handle)
      ensures interrupted ==> old(interrupted) || o.cancelled
      ensures start.cancelled ==> o.cancelled
      ensures o.problems == 0 ==> failStop == old(failStop) || (o.error.Some? && Latched(o.error.value))
      ensures (old(failStop) ==> failStop) && (old(interrupted) ==> interrupted)
      ensures LandsNothing(c) && (!c.loose ==> KeptTx(c))
      ensures old(Willing(c)) ==> Willing(c) && o == start
    {
      o := start;
      if fetches {
        o := Fetch(c, SetOf(handle + [k]), o);
      }
      left, o := Release(c, handle, k, o);
    }

    /** The statement itself; a cursor comes back only with a result. */
    method Execute(c: Connection, handle: seq<nat>, writes: set<nat>) returns (o: Outcome, cursor: Option<nat>)
      requires Running(c, SetOf(handle), false)
      modifies this`failStop, this`unresolved, this`interrupted, c
      ensures Running(c, SetOf(handle) + (if cursor.Some? then {cursor.value} else {}), false)
      ensures o.problems == 0 && (o.error.None? <==> cursor.Some?)
      ensures interrupted ==> old(interrupted) || o.cancelled
      ensures failStop == old(failStop) || (o.error.Some? && Latched(o.error.value))
      ensures (old(failStop) ==> failStop) && (old(interrupted) ==> interrupted)
      ensures !c.loose && cursor.Some? ==>
                c.inTx == old(c.inTx) && (old(c.inTx) ==> c.unsaved == old(c.unsaved) + writes)
      ensures !c.loose && old(c.inTx) && c.inTx ==> old(c.unsaved) <= c.unsaved <= old(c.unsaved) + writes
      ensures (old(c.mayLand) ==> c.mayLand) && (old(c.loose) ==> c.loose)
      ensures old(c.inTx || c.loose) && !c.mayLand ==> c.durable == old(c.durable)
      ensures !old(c.inTx) && !c.mayLand && !old(c.loose) ==>
                (!c.loose ==> !c.inTx) && old(c.durable) <= c.durable <= old(c.durable) + writes
      ensures old(Willing(c)) ==> Willing(c) && o == NOTHING && cursor.Some?
    {
      o, cursor := NOTHING, None;
      var answer, cancelled, k := Submit(c, Call.Execute(writes), SetOf(handle), false);
      if answer.Done? {
        o, cursor := Owe(o, cancelled), Some(k);
      } else {
        o := Absorb(o, Thrown(answer, cancelled));
      }
    }

    method Fetch(c: Connection, ghost tracked: set<nat>, start: Outcome) returns (o: Outcome)
      requires Running(c, tracked, false) && start.problems == 0 && start.error.None?
      modifies this`failStop, this`unresolved, this`interrupted, c
      ensures Running(c, tracked, false) && o.problems == 0
      ensures interrupted ==> old(interrupted) || o.cancelled
      ensures start.cancelled ==> o.cancelled
      ensures failStop == old(failStop) || (o.error.Some? && Latched(o.error.value))
      ensures (old(failStop) ==> failStop) && (old(interrupted) ==> interrupted)
      ensures LandsNothing(c) && (!c.loose ==> unchanged(c))
      ensures old(Willing(c)) ==> Willing(c) && o == start
    {
      o := start;
      var got, late, _ := Submit(c, FetchAll, tracked, false);
      if got.Done? {
        o := Owe(o, late);
      } else {
        o := Absorb(o, Thrown(got, late));
      }
    }

    /** `_finish`: a release that fails neither buries the statement's cancellation nor passes for a mere failure. */
    method Release(c: Connection, handle: seq<nat>, k: nat, start: Outcome) returns (left: seq<nat>, o: Outcome)
      requires Running(c, SetOf(handle + [k]), false) && start.problems == 0
      modifies this`failStop, this`unresolved, this`interrupted, c
      ensures Running(c, SetOf(left), o.problems > 0) && Running(c, SetOf(left), false) && (o.problems == 0 ==> left == handle)
      ensures interrupted ==> old(interrupted) || o.cancelled
      ensures (start.cancelled ==> o.cancelled) && (start.error.Some? ==> o.error.Some?)
      ensures o.problems == 0 ==> failStop == old(failStop) && o.error == start.error
      ensures (old(failStop) ==> failStop) && (old(interrupted) ==> interrupted)
      ensures LandsNothing(c) && (!c.loose ==> KeptTx(c))
      ensures old(Willing(c)) ==> Willing(c) && o == start
    {
      JoinSet(handle, k);
      o := start;
      var owed, stuck := CloseOne(c, k, SetOf(handle + [k]), false);
      if stuck.None? {
        left, o := handle, Owe(o, owed);
      } else {
        left, o := handle + [k], Unsafe(Absorb(o, stuck.value));
      }
    }

    // ── commit and abort ──────────────────────────────

    /**
     `_commit_transaction`: close every cursor, then COMMIT, and only return over a transaction that
     is known to be finished. Nothing is submitted for a caller already cancelled.
     */
    method CommitTransaction(c: Connection, handle: seq<nat>) returns (raised: Option<Exn>)
      requires Running(c, SetOf(handle), false)
      modifies this`failStop, this`unresolved, this`interrupted, this`unclosed, c
      ensures Running(c, {}, false) && (failStop || !c.inTx)
      ensures (old(failStop) ==> failStop) && (old(interrupted) ==> interrupted)
      ensures interrupted && !old(interrupted) ==> raised.Some? && Public(raised.value) == Cancelled
      ensures raised.None? && old(c.loose) ==> c.mayLand
      ensures raised.None? ==> failStop == old(failStop)
      ensures !c.mayLand && raised.None? ==> c.durable == old(c.durable) + old(c.unsaved)
      ensures (old(c.mayLand) ==> c.mayLand) && (old(c.loose) ==> c.loose)
      ensures raised.Some? && Public(raised.value) == Failure ==>
                failStop == old(failStop) && (!c.mayLand ==> c.durable == old(c.durable))
      ensures !failStop && raised.Some? && Public(raised.value) != Cancelled ==> c.durable == old(c.durable)
      ensures !c.mayLand ==> c.durable == old(c.durable) || c.durable == old(c.durable) + old(c.unsaved)
      ensures old(Willing(c)) ==> Willing(c) && raised.None?
    {
      var o := CleanupCursors(c, handle, NOTHING);
      if o.problems > 0 || o.cancelled {
        o := ForceClose(c, SetOf(handle), o);
        SettleIs(o);
        raised := Conclude(o);
        return;
      }
      raised := SubmitCommit(c);
    }

    method SubmitCommit(c: Connection) returns (raised: Option<Exn>)
      requires Running(c, {}, false)
      modifies this`failStop, this`unresolved, this`interrupted, this`unclosed, c
      ensures old(c.loose) ==> c.mayLand
      ensures Running(c, {}, false) && (failStop || !c.inTx)
      ensures (old(failStop) ==> failStop) && (old(interrupted) ==> interrupted)
      ensures interrupted && !old(interrupted) ==> raised.Some? && Public(raised.value) == Cancelled
      ensures raised.None? ==> failStop == old(failStop)
      ensures !c.mayLand && raised.None? ==> c.durable == old(c.durable) + old(c.unsaved)
      ensures (old(c.mayLand) ==> c.mayLand) && (old(c.loose) ==> c.loose)
      ensures raised.Some? && Public(raised.value) == Failure ==>
                failStop == old(failStop) && (!c.mayLand ==> c.durable == old(c.durable))
      ensures !failStop && raised.Some? && Public(raised.value) != Cancelled ==> c.durable == old(c.durable)
      ensures !c.mayLand ==> c.durable == old(c.durable) || c.durable == old(c.durable) + old(c.unsaved)
      ensures old(Willing(c)) ==> Willing(c) && raised.None?
    {
      var o := NOTHING;
      var answer, cancelled, _ := Submit(c, Commit, {}, false);
      if answer.Silent? {
        // a ROLLBACK now could discard a durable COMMIT: nothing more is submitted
        raised := Conclude(Unsafe(Owe(o, cancelled)));
      } else if answer.Dropped? {
        o := ForceClose(c, {}, Unsafe(Owe(o, cancelled)));
        raised := Conclude(o);
      } else if answer.Done? {
        raised := CommitAnswered(c, cancelled);
      } else {
        raised := CommitFailed(c, Absorb(o, Thrown(answer, cancelled)));
      }
    }

    /** The driver says the COMMIT is done: ask SQLite before believing it. */
    method CommitAnswered(c: Connection, cancelled: bool) returns (raised: Option<Exn>)
      requires Running(c, {}, false)
      modifies this`failStop, this`unresolved, this`interrupted, this`unclosed, c
      ensures Running(c, {}, false) && (failStop || !c.inTx)
      ensures (old(failStop) ==> failStop) && (old(interrupted) ==> interrupted)
      ensures cancelled || (interrupted && !old(interrupted)) ==> raised.Some? && Public(raised.value) == Cancelled
      ensures raised.None? ==> failStop == old(failStop) && !c.inTx && !old(c.inTx) && c.durable == old(c.durable)
      ensures LandsNothing(c) && (!failStop ==> !old(c.inTx))
      ensures raised.Some? ==> Public(raised.value) != Failure
      ensures !failStop && raised.Some? ==> Public(raised.value) == Cancelled
      ensures old(Willing(c) && !c.inTx) && !cancelled ==> Willing(c) && raised.None?
    {
      var o := Owe(NOTHING, cancelled);
      var state := TransactionState(c);
      if state != Some(false) {
        o := ForceClose(c, {}, Unsafe(o));
        SettleIs(o);
        raised := Conclude(o);
      } else {
        raised := if cancelled then Some(Cancelled) else None;
      }
    }

    /** The COMMIT raised: durable with its response lost, or still to be rolled back. */
    method CommitFailed(c: Connection, start: Outcome) returns (raised: Option<Exn>)
      requires Running(c, {}, false) && start.problems == 0 && start.error.Some?
      modifies this`failStop, this`unresolved, this`interrupted, this`unclosed, c
      ensures Running(c, {}, false) && (failStop || !c.inTx)
      ensures (old(failStop) ==> failStop) && (old(interrupted) ==> interrupted)
      ensures start.cancelled || (interrupted && !old(interrupted)) ==> raised.Some? && Public(raised.value) == Cancelled
      ensures raised.Some? && LandsNothing(c)
      ensures !failStop ==> old(c.inTx)
      ensures Public(raised.value) == Failure ==> failStop == old(failStop) && old(c.inTx)
    {
      var state := TransactionState(c);
      if state == Some(false) {
        Latch();
        return Some(CallerOwed(start.cancelled, FailStop));
      }
      var o := ForceClose(c, {}, start);
      SettleIs(o);
      raised := Conclude(o);
    }

    /** `_abort_transaction`: clean up unconditionally, never raising over the error in flight. */
    method AbortTransaction(c: Connection, handle: seq<nat>) returns (stuck: bool, cancelled: bool)
      requires Running(c, SetOf(handle), false)
      modifies this`failStop, this`unresolved, this`interrupted, this`unclosed, c
      ensures Running(c, {}, false) && (failStop || !c.inTx)
      ensures (old(failStop) ==> failStop) && (old(interrupted) ==> interrupted)
      ensures interrupted ==> old(interrupted) || cancelled
      ensures if stuck then failStop else failStop == old(failStop)
      ensures LandsNothing(c)
      ensures old(Willing(c)) ==> Willing(c) && !stuck && !cancelled
    {
      var o := CleanupCursors(c, handle, NOTHING);
      o := ForceClose(c, if o.problems == 0 then {} else SetOf(handle), o);
      var _ := Conclude(o);
      stuck, cancelled := o.problems > 0, o.cancelled;
    }

    /** Abort because of this error, and what the caller is told in the end. */
    method AbortFor(c: Connection, handle: seq<nat>, e: Exn) returns (raised: Exn)
      requires Running(c, SetOf(handle), false)
      modifies this`failStop, this`unresolved, this`interrupted, this`unclosed, c
      ensures Running(c, {}, false) && (failStop || !c.inTx)
      ensures (old(failStop) ==> failStop) && (old(interrupted) ==> interrupted)
      ensures IsPublic(raised) && (Owes(e) || (interrupted && !old(interrupted)) ==> raised == Cancelled)
      ensures raised == Failure ==> e == Failure && failStop == old(failStop)
      ensures LandsNothing(c)
      ensures old(Willing(c)) ==> Willing(c) && (IsPublic(e) ==> raised == e)
    {
      var stuck, owed := AbortTransaction(c, handle);
      ReclassifyIs(stuck, owed, e);
      raised := Public(Reclassify(stuck, owed, e));
    }

    // ── the operations ────────────────────────────────

    /** BEGIN IMMEDIATE, its cursor released; whatever goes wrong is one exception. */
    method BeginTransaction(c: Connection) returns (handle: seq<nat>, failure: Option<Exn>)
      requires Running(c, {}, false)
      modifies this`failStop, this`unresolved, this`interrupted, c
      ensures Running(c, SetOf(handle), false)
      ensures (old(failStop) ==> failStop) && (old(interrupted) ==> interrupted)
      ensures interrupted && !old(interrupted) ==> failure.Some? && Public(failure.value) == Cancelled
      ensures failure.None? ==> handle == [] && failStop == old(failStop)
      ensures failure.Some? && failure.value == Failure ==> failStop == old(failStop)
      ensures LandsNothing(c) && (!failStop ==> c.unsaved == {})
      ensures !failStop && failure.None? ==> c.inTx
      ensures old(Willing(c)) ==> Willing(c) && failure.None?
    {
      var o := NOTHING;
      handle := [];
      var answer, cancelled, k := Submit(c, Begin, {}, false);
      if answer.Done? {
        JoinSet([], k);
        assert [] + [k] == [k];
        handle, o := ReleaseBegin(c, k, Owe(o, cancelled));
      } else {
        o := Absorb(o, Thrown(answer, cancelled));
      }
      SettleIs(o);
      failure := Conclude(o);
    }

    /** The cursor of BEGIN, which stays tracked if its release fails. */
    method ReleaseBegin(c: Connection, k: nat, start: Outcome) returns (handle: seq<nat>, o: Outcome)
      requires Running(c, SetOf([k]), false) && start.problems == 0 && start.error.None?
      modifies this`failStop, this`unresolved, this`interrupted, c
      ensures Running(c, SetOf(handle), false) && o.problems == 0
      ensures (start.cancelled ==> o.cancelled) && (interrupted ==> old(interrupted) || o.cancelled)
      ensures (o.error.None? && !o.cancelled ==> handle == [])
      ensures failStop == old(failStop) || (o.error.Some? && Latched(o.error.value))
      ensures (old(failStop) ==> failStop) && (old(interrupted) ==> interrupted)
      ensures LandsNothing(c) && (!c.loose ==> KeptTx(c))
      ensures old(Willing(c)) ==> Willing(c) && o == start
    {
      var owed, stuck := CloseOne(c, k, SetOf([k]), false);
      if stuck.None? {
        handle, o := [], Owe(start, owed);
      } else {
        handle, o := [k], Absorb(start, stuck.value);
      }
    }

    /**
     The caller's body. It may stop at the first statement that raises, or swallow what it raises
     and go on, and it may raise an error of its own, or be cancelled outside any statement. The tally
     says what became of its writes.
     */
    method RunBody(c: Connection, start: seq<nat>, body: seq<Statement>, own: Option<Exn>)
        returns (handle: seq<nat>, raised: Option<Exn>, ghost t: Tally)
      requires Running(c, SetOf(start), false) && !failStop && c.inTx && c.unsaved == {}
      requires own.Some? ==> IsPublic(own.value)
      modifies this`failStop, this`unresolved, this`interrupted, c
      ensures Running(c, SetOf(handle), false)
      ensures old(interrupted) ==> interrupted
      ensures raised.Some? ==> IsPublic(raised.value)
      ensures interrupted && !old(interrupted) && !t.missed ==> raised == Some(Cancelled)
      ensures !t.missed && !t.stopped && (raised.None? || raised == Some(Failure)) ==> !failStop
      ensures own.Some? ==> raised.Some?
      ensures !c.mayLand ==> c.durable == old(c.durable) + t.landed
      ensures raised.None? ==> t.kept == c.unsaved
      ensures Tallied(t, body, raised.None? && !c.loose)
      ensures old(Willing(c)) ==> Willing(c) && raised == own && !t.swallowed
    {
      hide *;
      handle, raised, t := start, None, NO_TALLY;
      ghost var first := c.durable;
      SightIs(c, SetOf(start));
      NothingTallied(body, c.Seen());
      for i := 0 to |body|
        invariant Running(c, SetOf(handle), false) && raised.None?
        invariant old(interrupted) ==> interrupted
        invariant !t.missed ==> interrupted == old(interrupted)
        invariant !t.missed && !t.stopped ==> !failStop
        invariant Accounted(t, c.Seen(), first, body[..i])
        invariant old(Willing(c)) ==> Willing(c) && !t.swallowed
      {
        ghost var was := c.Seen();
        var left, stuck := BodyStatement(c, handle, body[i]);
        handle := left;
        if stuck.Some? {
          if * {
            SightIs(c, SetOf(handle));
            WritesAllowed(t, was, c.Seen(), first, body, i);
            return handle, stuck, Landing(t, was, c.Seen());
          }
        }
        CountsOn(t, was, c.Seen(), first, body, i, stuck);
        t := Counts(t, was, c.Seen(), body[i], stuck);
      }
      assert body[..|body|] == body;
      SightIs(c, SetOf(handle));
      AccountedEnds(t, c.Seen(), first, body);
      t := t.(kept := c.unsaved);
      raised := own;
      interrupted := interrupted || own == Some(Cancelled);
    }

    /** A statement, as the tally sees it. */
    method BodyStatement(c: Connection, handle: seq<nat>, s: Statement) returns (left: seq<nat>, raised: Option<Exn>)
      requires Running(c, SetOf(handle), false)
      modifies this`failStop, this`unresolved, this`interrupted, c
      ensures Running(c, SetOf(left), false)
      ensures raised.None? ==> failStop == old(failStop) && interrupted == old(interrupted)
      ensures raised.Some? ==> IsPublic(raised.value) && (raised.value.Failure? || raised.value.FailStop? || raised.value.Cancelled?)
      ensures interrupted && !old(interrupted) ==> raised == Some(Cancelled)
      ensures (old(failStop) ==> failStop) && (old(interrupted) ==> interrupted)
      ensures raised == Some(Failure) ==> failStop == old(failStop)
      ensures Moved(old(c.Seen()), c.Seen(), s.writes, raised.None?)
      ensures old(Willing(c)) ==> Willing(c) && raised.None?
    {
      left, raised := RunStatement(c, handle, s.writes, s.fetches);
    }

    lemma SightIs(c: Connection, tracked: set<nat>)
      requires Running(c, tracked, false)
      ensures c.Seen() == Sight(c.inTx, c.unsaved, c.durable, c.loose, c.mayLand)
      ensures (c.mayLand ==> c.loose) && (c.loose ==> failStop)
    {
    }

    /**
     `write_transaction`: for every combination of worker answers and cancellations, the boundary
     hands back the lock with nothing open or with the fail-stop latched, and says honestly what
     became of the body. A body that swallows errors keeps what its other statements wrote, unless
     it was cut off.
     */
    method WriteTransaction(onMetric: bool, body: seq<Statement>, own: Option<Exn>)
        returns (raised: Option<Exn>, ghost t: Tally)
      requires Valid() && (own.Some? ==> IsPublic(own.value))
      modifies this`failStop, this`unresolved, this`interrupted, this`unclosed, shared, metric
      ensures Valid() && (old(failStop) ==> failStop)
      ensures raised.Some? ==> IsPublic(raised.value)
      // nothing is admitted once the fail-stop is latched, or while closing
      ensures old(failStop || closing || closed) ==> raised == Some(FailStop) && unchanged(shared) && unchanged(metric)
      // a cancellation is never replaced by another error, nor lost, unless the body swallows it
      ensures interrupted && !t.missed ==> raised == Some(Cancelled)
      // the whole body is kept when it swallowed nothing, and what succeeded unless it was cut off
      ensures Tallied(t, body, raised.None? && !On(onMetric).mayLand)
      ensures !t.missed && !t.stopped && (raised.None? || raised == Some(Failure)) ==> !failStop
      // a body that raises does not return normally
      ensures own.Some? ==> raised.Some?
      // returning normally means all that is kept is durable
      ensures raised.None? && !On(onMetric).mayLand ==>
                On(onMetric).durable == old(On(onMetric).durable) + t.landed + t.kept
      // an ordinary error means none of it is
      ensures raised == Some(Failure) && !On(onMetric).mayLand ==>
                On(onMetric).durable == old(On(onMetric).durable) + t.landed
      // and otherwise it is all or nothing, unless a statement or the COMMIT may still land
      ensures !On(onMetric).mayLand ==>
                || On(onMetric).durable == old(On(onMetric).durable) + t.landed
                || On(onMetric).durable == old(On(onMetric).durable) + t.landed + t.kept
      // which always has the fail-stop latched
      ensures On(onMetric).mayLand ==> failStop
      // and when nothing goes wrong, the whole body is committed, or the body's own error comes out of it
      ensures old(Willing(On(onMetric)) && !failStop && !closing && !closed) ==> Willing(On(onMetric)) && raised == own
      ensures old(Willing(On(onMetric)) && !failStop && !closing && !closed) ==>
                On(onMetric).durable == old(On(onMetric).durable) + if own.None? then Writes(body) else {}
    {
      hide *;
      AdmitIs(onMetric);
      interrupted, t := false, NO_TALLY;
      EmptyTally(body);
      if failStop || closing || closed {
        return Some(FailStop), t;
      }
      var late: bool := *;
      if late && !obliging {
        // cancelled while waiting for the lock
        interrupted := true;
        return Some(Cancelled), t;
      }
      raised, t := Transact(On(onMetric), body, own);
      LeaveIs(onMetric);
    }

    lemma AdmitIs(onMetric: bool)
      requires Valid()
      ensures On(onMetric) == (if onMetric then metric else shared)
      ensures !failStop ==> Running(On(onMetric), {}, false) && !On(onMetric).mayLand && !On(onMetric).loose && !On(onMetric).inTx
      ensures On(onMetric).mayLand ==> failStop
      ensures IsPublic(FailStop) && IsPublic(Cancelled) && (Willing(On(onMetric)) ==> obliging)
    {
    }

    lemma LeaveIs(onMetric: bool)
      requires Running(On(onMetric), {}, false) && (failStop || !On(onMetric).inTx)
      ensures Valid() && (On(onMetric).mayLand ==> failStop)
    {
    }

    /** The transaction itself, from BEGIN to COMMIT or ROLLBACK. */
    method Transact(c: Connection, body: seq<Statement>, own: Option<Exn>) returns (raised: Option<Exn>, ghost t: Tally)
      requires Running(c, {}, false) && !failStop && !c.inTx && !c.mayLand && (own.Some? ==> IsPublic(own.value))
      modifies this`failStop, this`unresolved, this`interrupted, this`unclosed, c
      ensures Running(c, {}, false) && (failStop || !c.inTx)
      ensures raised.Some? ==> IsPublic(raised.value)
      ensures (own.Some? ==> raised.Some?) && (old(interrupted) ==> interrupted)
      ensures interrupted && !old(interrupted) && !t.missed ==> raised == Some(Cancelled)
      ensures Tallied(t, body, raised.None? && !c.mayLand)
      ensures !t.missed && !t.stopped && (raised.None? || raised == Some(Failure)) ==> !failStop
      ensures raised.None? && !c.mayLand ==> c.durable == old(c.durable) + t.landed + t.kept
      ensures raised == Some(Failure) && !c.mayLand ==> c.durable == old(c.durable) + t.landed
      ensures !c.mayLand ==>
                c.durable == old(c.durable) + t.landed || c.durable == old(c.durable) + t.landed + t.kept
      ensures old(Willing(c)) ==>
                Willing(c) && raised == own && c.durable == old(c.durable) + if own.None? then Writes(body) else {}
    {
      hide Tallied, Writes, Did, MayHave, Settled, Absorb;
      EmptyTally(body);
      t := NO_TALLY;
      var handle, failure := BeginTransaction(c);
      if failure.Some? {
        var out := AbortFor(c, handle, failure.value);
        return Some(out), t;
      }
      var e;
      handle, e, t := RunBody(c, handle, body, own);
      TallyWhole(t, body, e.None? && !c.loose);
      if e.Some? {
        var out := AbortFor(c, handle, e.value);
        raised := Some(out);
      } else {
        var outcome := CommitTransaction(c, handle);
        raised := if outcome.Some? then Some(Public(outcome.value)) else None;
      }
    }

    /**
     `_fetch_all`: one read to completion. Its cursor is closed before the lock goes, or the fail-stop
     is latched; nothing is written, and a cancellation is never replaced.
     */
    method ReadAll() returns (raised: Option<Exn>)
      requires Valid()
      modifies this`failStop, this`unresolved, this`interrupted, shared
      ensures Valid() && (old(failStop) ==> failStop)
      ensures raised.Some? ==> IsPublic(raised.value)
      ensures old(failStop || closing || closed) ==> raised == Some(FailStop) && unchanged(shared)
      ensures interrupted ==> raised == Some(Cancelled)
      ensures raised.None? || raised == Some(Failure) ==> !failStop
      ensures old(shared.mayLand) ==> shared.mayLand
      ensures !shared.mayLand ==> shared.durable == old(shared.durable)
      ensures old(Willing(shared) && !failStop && !closing && !closed) ==> Willing(shared) && raised.None?
    {
      interrupted := false;
      if failStop || closing || closed {
        return Some(FailStop);
      }
      var late: bool := *;
      if late && !obliging {
        interrupted := true;
        return Some(Cancelled);
      }
      var o, k := Execute(shared, [], {});
      if k.Some? {
        JoinSet([], k.value);
        o := Fetch(shared, SetOf([k.value]), o);
        assert [] + [k.value] == [k.value];
        var left;
        left, o := Release(shared, [], k.value, o);
      }
      SettleIs(o);
      var e := Conclude(o);
      raised := if e.Some? then Some(Public(e.value)) else None;
    }

    function On(onMetric: bool): Connection
      reads `shared, `metric
    {
      if onMetric then metric else shared
    }
  }

  datatype Statement = Statement(writes: set<nat>, fetches: bool)

  /**
   What became of a body: whether it went on after an error, after a cancellation, after a fail-stop,
   whether such an error had ended the transaction, which SQLite can do by itself, what its statements
   wrote that returned normally, what is left to commit, and what was written outside any transaction
   once it had been cut off.
   */
  datatype Tally = Tally(swallowed: bool, missed: bool, stopped: bool, cutOff: bool,
                         wrote: set<nat>, kept: set<nat>, landed: set<nat>)

  const NO_TALLY := Tally(false, false, false, false, {}, {}, {})

  ghost predicate Tallied(t: Tally, body: seq<Statement>, finished: bool) {
    && (t.cutOff || t.missed || t.stopped ==> t.swallowed)
    && (!t.cutOff ==> t.landed == {})
    && t.landed <= Writes(body) && t.wrote <= Writes(body)
    && (finished && !t.cutOff ==> t.wrote <= t.kept <= Writes(body))
    && (finished && t.cutOff ==> t.kept == {})
    && (finished && !t.swallowed ==> t.wrote == Writes(body))
  }

  /** What matters of a connection to the tally. */
  datatype Sight = Sight(inTx: bool, unsaved: set<nat>, durable: set<nat>, loose: bool, mayLand: bool)

  /** What one statement can do to it. */
  ghost predicate Moved(a: Sight, b: Sight, writes: set<nat>, went: bool) {
    && (a.mayLand ==> b.mayLand) && (a.loose ==> b.loose)
    && (b.mayLand ==> b.loose) && (!b.inTx && !b.loose ==> b.unsaved == {})
    && (!b.loose && went ==> b.inTx == a.inTx && (a.inTx ==> b.unsaved == a.unsaved + writes))
    && (!b.loose && a.inTx && b.inTx ==> a.unsaved <= b.unsaved <= a.unsaved + writes)
    && (!a.inTx && !a.loose && !b.mayLand ==>
          (!b.loose ==> !b.inTx) && a.durable <= b.durable <= a.durable + writes)
    && ((a.inTx || a.loose) && !b.mayLand ==> b.durable == a.durable)
  }

  /** The tally of the statements so far fits the connection. */
  ghost predicate Accounted(t: Tally, now: Sight, first: set<nat>, done: seq<Statement>) {
    && (!now.loose ==> (t.cutOff <==> !now.inTx))
    && (!now.mayLand ==> now.durable == first + t.landed)
    && Tallied(t.(kept := now.unsaved), done, !now.loose)
  }

  ghost function Landing(t: Tally, was: Sight, now: Sight): Tally {
    if now.mayLand then t else t.(landed := t.landed + (now.durable - was.durable))
  }

  /** The tally after one more statement, gone through or swallowed. */
  ghost function Counts(t: Tally, was: Sight, now: Sight, s: Statement, stuck: Option<Exn>): (next: Tally)
    ensures next.missed == (t.missed || stuck == Some(Cancelled)) && next.stopped == (t.stopped || stuck == Some(FailStop))
    ensures next.swallowed == (t.swallowed || stuck.Some?)
  {
    var u := Landing(t, was, now);
    if stuck.None? then u.(wrote := t.wrote + s.writes)
    else u.(swallowed := true, missed := t.missed || stuck.value.Cancelled?,
            stopped := t.stopped || stuck.value.FailStop?, cutOff := t.cutOff || !now.inTx)
  }

  lemma NothingTallied(body: seq<Statement>, now: Sight)
    ensures now.inTx && now.unsaved == {} ==> Accounted(NO_TALLY, now, now.durable, body[..0])
    ensures !NO_TALLY.missed && !NO_TALLY.stopped && !NO_TALLY.swallowed
  {
  }

  lemma CountsOn(t: Tally, was: Sight, now: Sight, first: set<nat>, body: seq<Statement>, i: nat, stuck: Option<Exn>)
    requires i < |body| && Accounted(t, was, first, body[..i]) && Moved(was, now, body[i].writes, stuck.None?)
    ensures Accounted(Counts(t, was, now, body[i], stuck), now, first, body[..i + 1])
  {
    hide Writes;
    WritesStep(body, i);
  }

  lemma WritesAllowed(t: Tally, was: Sight, now: Sight, first: set<nat>, body: seq<Statement>, i: nat)
    requires i < |body| && Accounted(t, was, first, body[..i]) && Moved(was, now, body[i].writes, false)
    ensures var u := Landing(t, was, now);
            && Tallied(u, body, false) && (!now.mayLand ==> now.durable == first + u.landed)
            && u.missed == t.missed && u.stopped == t.stopped
  {
    hide Writes;
    WritesStep(body, i);
    WritesGrow(body, i + 1);
  }

  lemma EmptyTally(body: seq<Statement>)
    ensures Tallied(NO_TALLY, body, false) && !NO_TALLY.swallowed && NO_TALLY.landed == {} && NO_TALLY.kept == {}
  {
  }

  /** A body that swallowed nothing kept everything it was to write. */
  lemma TallyWhole(t: Tally, body: seq<Statement>, finished: bool)
    requires Tallied(t, body, finished)
    ensures Tallied(t, body, false)
    ensures !t.swallowed ==> t.landed == {} && (finished ==> t.kept == Writes(body))
  {
  }

  lemma AccountedEnds(t: Tally, now: Sight, first: set<nat>, body: seq<Statement>)
    requires Accounted(t, now, first, body)
    ensures Tallied(t.(kept := now.unsaved), body, !now.loose) && Tallied(t.(kept := now.unsaved), body, false)
    ensures !now.mayLand ==> now.durable == first + t.landed
  {
  }

  /**
   What a worker may do for a body that is cut off, one answer after the other: the second statement
   fails and SQLite rolls the transaction back, the body goes on, and a COMMIT over nothing succeeds.
   What the first statement wrote is lost, what the third wrote is durable, and nothing is left open.
   */
  method CutOffBody(c: Connection)
    requires c.Quiet() && c.Numbered()
    modifies c
    ensures c.Quiet() && c.Numbered() && c.durable == old(c.durable) + {3}
  {
    var k := c.made;
    label begin:
    c.inTx, c.unsaved, c.cursors, c.made := true, {}, c.cursors + {k}, k + 1;
    assert Did@begin(c, Begin, k);
    label begun:
    c.cursors := c.cursors - {k};
    assert Did@begun(c, CloseCursor(k), 0);
    label first:
    c.unsaved, c.cursors, c.made := c.unsaved + {1}, c.cursors + {k + 1}, k + 2;
    assert Did@first(c, Execute({1}), k + 1);
    label written:
    c.cursors := c.cursors - {k + 1};
    assert Did@written(c, CloseCursor(k + 1), 0);
    label second:
    c.inTx, c.unsaved := false, {};
    assert MayHave@second(c, Execute({2}));
    label third:
    c.durable, c.cursors, c.made := c.durable + {3}, c.cursors + {k + 2}, k + 3;
    assert Did@third(c, Execute({3}), k + 2);
    label landed:
    c.cursors := c.cursors - {k + 2};
    assert Did@landed(c, CloseCursor(k + 2), 0);
    label commit:
    assert Did@commit(c, Commit, 0);
  }

  /** Everything a body writes. */
  function Writes(body: seq<Statement>): set<nat> {
    if body == [] then {} else Writes(body[..|body| - 1]) + body[|body| - 1].writes
  }

  lemma WritesStep(body: seq<Statement>, i: nat)
    requires i < |body|
    ensures Writes(body[..i + 1]) == Writes(body[..i]) + body[i].writes
  {
    assert body[..i + 1][..i] == body[..i];
  }

  lemma {:induction false} WritesGrow(body: seq<Statement>, i: nat)
    requires i <= |body|
    ensures Writes(body[..i]) <= Writes(body)
    decreases |body| - i
  {
    if i == |body| {
      assert body[..i] == body;
    } else {
      WritesStep(body, i);
      WritesGrow(body, i + 1);
    }
  }

  lemma ReclassifyIs(stuck: bool, cancelled: bool, e: Exn)
    ensures var r := Public(Reclassify(stuck, cancelled, e));
            && IsPublic(r)
            && (cancelled || Owes(e) ==> r == Cancelled)
            && (r == Failure ==> !stuck && !cancelled && e == Failure)
            && (!stuck && !cancelled && IsPublic(e) ==> r == e)
  {
  }

  /** `_reclassify`: the error the caller gets once the abort is done; a cancellation outranks all of it. */
  function Reclassify(stuck: bool, cancelled: bool, e: Exn): Exn {
    if IsCancellation(e) then e
    else if Latched(e) then CallerOwed(cancelled || Owes(e), FailStop)
    else if cancelled then CancelledAfter(e)
    else if stuck then FailStop
    else e
  }

  /** What settling comes to, as far as callers of a statement can tell. */
  lemma SettleIs(o: Outcome)
    ensures Settled(o).None? <==> o.problems == 0 && o.error.None? && !o.cancelled
    ensures Settled(o).Some? ==> IsPublic(Public(Settled(o).value))
    ensures o.cancelled ==> Settled(o).Some? && Public(Settled(o).value) == Cancelled
    ensures Settled(o).Some? && Public(Settled(o).value) == Failure ==> o.problems == 0 && o.error == Some(Failure)
  {
  }

  lemma JoinSet(q: seq<nat>, k: nat)
    ensures SetOf(q + [k]) == SetOf(q) + {k}
    ensures SetOf(q + [k]) - {k} <= SetOf(q)
  {
  }

  function SetOf(q: seq<nat>): set<nat> {
    set k | k in q
  }

  lemma HeadOf(q: seq<nat>, i: nat)
    requires i < |q|
    ensures SetOf(q[i..]) - {q[i]} <= SetOf(q[i + 1..]) <= SetOf(q[i..]) <= SetOf(q)
    ensures SetOf(q) - {q[i]} <= SetOf(q)
  {
    assert q[i..] == [q[i]] + q[i + 1..];
  }
}
