/**
 Who may be signalled (agent/agent/terminal.py): sessions spawn shells, two reapers collect the ones
 that exited, a kill escalates from SIGTERM to SIGKILL over a grace period, and the kernel gives the
 pid of a reaped child to the next one it forks. The state holds the kernel's children beside the
 agent's own books, and a log of every signal sent.
 */
module Terminals {
  import opened Wrappers

  type Pid = nat
  type Session = nat

  /** A forked child nobody has reaped; `serial` tells apart children that had the same pid. */
  datatype Child = Child(serial: nat, session: Session, exited: bool)

  /** A SIGKILL escalation in its grace period, for the child a SIGTERM was meant for. */
  datatype Escalation = Escalation(pid: Pid, session: Session, meant: nat, ticks: nat)

  datatype Signal = Term | Kill

  /** A signal that was sent, and what was at that pid. */
  datatype Delivery = Delivery(signal: Signal, pid: Pid, sender: Session, meant: nat, hit: Option<Child>)

  datatype State = State(
    children: map<Pid, Child>,        // the kernel's: forked and not reaped
    serials: nat,                     // how many were ever forked
    latest: map<Session, nat>,        // the last child each session forked
    pids: map<Session, Pid>,          // session.pid, where it is not None
    owned: map<Pid, Session>,         // _owned_pids
    tasks: seq<Escalation>,           // _reap_tasks
    log: seq<Delivery>)

  const GRACE := 30

  const START := State(map[], 0, map[], map[], map[], [], [])

  /** What can happen next, in any order: the kernel's moves are among them. */
  datatype Event =
    | Spawned(s: Session, p: Pid)        // fork returned p
    | Exits(p: Pid)                      // a child exits and becomes a zombie
    | Looked(s: Session, denied: bool)   // is_alive; kill(pid, 0) refused with EPERM or not
    | Reaped(p: Pid)                     // one turn of reap_orphans
    | Killed(s: Session, refused: bool, looping: bool)
    | Ticked(i: nat)                     // one turn of _reap_and_kill

  /** What the kernel allows: it only hands out a free pid, and only reaps a child that exited. */
  predicate Possible(st: State, e: Event) {
    match e
    case Spawned(_, p) => p !in st.children
    case Exits(p) => p in st.children
    case Reaped(p) => p in st.children && st.children[p].exited
    case Ticked(i) => i < |st.tasks|
    case _ => true
  }

  /** The child a pid now belongs to. */
  function At(st: State, p: Pid): Option<Child> {
    if p in st.children then Some(st.children[p]) else None
  }

  function Spawn(st: State, s: Session, p: Pid): State {
    st.(children := st.children[p := Child(st.serials, s, false)], serials := st.serials + 1,
        latest := st.latest[s := st.serials], pids := st.pids[s := p], owned := st.owned[p := s])
  }

  function Exit(st: State, p: Pid): State
    requires p in st.children
  {
    st.(children := st.children[p := st.children[p].(exited := true)])
  }

  /** is_alive: reap the child if it exited; forget it if it is not there or cannot be signalled. */
  function Look(st: State, s: Session, denied: bool): State {
    if s !in st.pids then st
    else
      var p := st.pids[s];
      if p in st.children && !st.children[p].exited && !denied then st
      else
        st.(children := if p in st.children && st.children[p].exited then st.children - {p} else st.children,
            owned := st.owned - {p}, pids := st.pids - {s})
  }

  /** One child collected by waitpid(-1): whoever owned it forgets its pid. */
  function Reap(st: State, p: Pid): State {
    st.(children := st.children - {p}, owned := st.owned - {p},
        pids := if p in st.owned then st.pids - {st.owned[p]} else st.pids)
  }

  function Send(st: State, signal: Signal, p: Pid, sender: Session, meant: nat): State {
    st.(log := st.log + [Delivery(signal, p, sender, meant, At(st, p))])
  }

  /** kill: SIGTERM, then an escalation, unless the signal is refused; without a loop SIGKILL at once. */
  function EndSession(st: State, s: Session, refused: bool, looping: bool): State {
    if s !in st.pids then st
    else
      var p := st.pids[s];
      var meant := if s in st.latest then st.latest[s] else 0;
      var sent := Send(st.(pids := st.pids - {s}), Term, p, s, meant);
      if refused then sent
      else if looping then sent.(tasks := sent.tasks + [Escalation(p, s, meant, 0)])
      else
        var shot := Send(sent, Kill, p, s, meant);
        shot.(owned := shot.owned - {p})
  }

  function Without(tasks: seq<Escalation>, i: nat): seq<Escalation>
    requires i < |tasks|
  {
    tasks[..i] + tasks[i + 1..]
  }

  /** One turn of an escalation: stop if the pid is no longer ours, SIGKILL when the grace is over. */
  function Tick(st: State, i: nat): State
    requires i < |st.tasks|
  {
    var t := st.tasks[i];
    if t.pid !in st.owned || st.owned[t.pid] != t.session then st.(tasks := Without(st.tasks, i))
    else if t.ticks < GRACE then st.(tasks := st.tasks[i := t.(ticks := t.ticks + 1)])
    else Send(st.(tasks := Without(st.tasks, i)), Kill, t.pid, t.session, t.meant)
  }

  function Next(st: State, e: Event): State
    requires Possible(st, e)
  {
    match e
    case Spawned(s, p) => Spawn(st, s, p)
    case Exits(p) => Exit(st, p)
    case Looked(s, denied) => Look(st, s, denied)
    case Reaped(p) => Reap(st, p)
    case Killed(s, refused, looping) => EndSession(st, s, refused, looping)
    case Ticked(i) => Tick(st, i)
  }

  // ── the invariant ───────────────────────────────────

  /** A signal that went where it was meant to: to a child of its own session nobody has reaped. */
  predicate Safe(d: Delivery) {
    d.hit.Some? && d.hit.value.session == d.sender
  }

  ghost predicate Books(st: State) {
    && (forall p | p in st.owned :: p in st.children && st.children[p].session == st.owned[p])
    && (forall s | s in st.pids ::
          var p := st.pids[s];
          && p in st.owned && st.owned[p] == s
          && s in st.latest && st.children[p].serial == st.latest[s])
    && (forall p | p in st.children :: st.children[p].serial < st.serials)
  }

  ghost predicate Inv(st: State) {
    Books(st) && (forall d | d in st.log :: Safe(d)) && forall t | t in st.tasks :: t.ticks <= GRACE
  }

  lemma StepKeeps(st: State, e: Event)
    requires Inv(st) && Possible(st, e)
    ensures Inv(Next(st, e))
  {
    match e
    case Spawned(s, p) => SpawnKeeps(st, s, p);
    case Exits(p) =>
    case Looked(s, denied) =>
    case Reaped(p) =>
    case Killed(s, refused, looping) => KillKeeps(st, s, refused, looping);
    case Ticked(i) => TickKeeps(st, i);
  }

  /** What the books say of a session with a pid. */
  lemma BooksOf(st: State, s: Session)
    requires Inv(st) && s in st.pids
    ensures var p := st.pids[s];
            && p in st.owned && st.owned[p] == s && p in st.children && st.children[p].session == s
            && s in st.latest && st.children[p].serial == st.latest[s]
  {
  }

  lemma OwnedIsChild(st: State, p: Pid)
    requires Inv(st) && p in st.owned
    ensures p in st.children && st.children[p].session == st.owned[p]
  {
  }

  lemma SpawnKeeps(st: State, s: Session, p: Pid)
    requires Inv(st) && p !in st.children
    ensures Inv(Spawn(st, s, p))
  {
  }

  lemma KillKeeps(st: State, s: Session, refused: bool, looping: bool)
    requires Inv(st)
    ensures Inv(EndSession(st, s, refused, looping))
  {
  }

  lemma TickKeeps(st: State, i: nat)
    requires Inv(st) && i < |st.tasks|
    ensures Inv(Tick(st, i))
  {
    var t := st.tasks[i];
    assert t in st.tasks;
    assert forall x | x in Without(st.tasks, i) :: x in st.tasks;
  }

  ghost predicate IsRun(states: seq<State>, events: seq<Event>) {
    && |states| == |events| + 1 && states[0] == START
    && forall i | 0 <= i < |events| :: Possible(states[i], events[i]) && states[i + 1] == Next(states[i], events[i])
  }

  lemma {:induction false} RunKeeps(states: seq<State>, events: seq<Event>)
    requires IsRun(states, events)
    ensures Inv(states[|events|])
    decreases |events|
  {
    hide Inv, Next, Possible;
    if events == [] {
      StartKeeps();
    } else {
      var n := |events| - 1;
      RunKeeps(states[..n + 1], events[..n]);
      assert states[..n + 1][n] == states[n];
      StepKeeps(states[n], events[n]);
    }
  }

  lemma StartKeeps()
    ensures Inv(START)
  {
  }

  /**
   However spawns, exits, both reapers, kills, grace periods and recycled pids interleave, every
   signal went to a child of the very session that sent it, and one nobody had reaped.
   */
  lemma SignalsAreSafe(states: seq<State>, events: seq<Event>, d: Delivery)
    requires IsRun(states, events) && d in states[|events|].log
    ensures Safe(d)
  {
    hide Next, Possible;
    RunKeeps(states, events);
  }

  /** A session with a pid has a child at that pid, it owns it, and it is the last one it forked. */
  lemma LivePidIsOwn(states: seq<State>, events: seq<Event>, s: Session)
    requires IsRun(states, events) && s in states[|events|].pids
    ensures var st := states[|events|];
            var p := st.pids[s];
            && p in st.children && st.children[p].session == s
            && s in st.latest && st.children[p].serial == st.latest[s]
            && p in st.owned && st.owned[p] == s
  {
    hide Next, Possible;
    RunKeeps(states, events);
  }

  // ── one spawn per session ───────────────────────────

  ghost predicate SpawnsOnce(st: State, e: Event) {
    e.Spawned? ==> e.s !in st.latest
  }

  ghost predicate IsSingleRun(states: seq<State>, events: seq<Event>) {
    IsRun(states, events) && forall i | 0 <= i < |events| :: SpawnsOnce(states[i], events[i])
  }

  /** All that is meant for a session's child is meant for its only one. */
  ghost predicate Single(st: State) {
    && (forall p | p in st.children ::
          st.children[p].session in st.latest && st.children[p].serial == st.latest[st.children[p].session])
    && (forall t | t in st.tasks :: t.session in st.latest && t.meant == st.latest[t.session])
    && (forall d | d in st.log :: d.hit.Some? ==> d.hit.value.serial == d.meant)
  }

  lemma SingleKeeps(st: State, e: Event)
    requires Inv(st) && Single(st) && Possible(st, e) && SpawnsOnce(st, e)
    ensures Single(Next(st, e))
  {
    match e
    case Ticked(i) =>
      assert st.tasks[i] in st.tasks;
      assert forall x | x in Without(st.tasks, i) :: x in st.tasks;
    case _ =>
  }

  lemma {:induction false} SingleRunKeeps(states: seq<State>, events: seq<Event>)
    requires IsSingleRun(states, events)
    ensures Inv(states[|events|]) && Single(states[|events|])
    decreases |events|
  {
    hide Inv, Next, Possible, Single, SpawnsOnce;
    RunKeeps(states, events);
    if events == [] {
      StartSingle();
    } else {
      var n := |events| - 1;
      SingleRunKeeps(states[..n + 1], events[..n]);
      assert states[..n + 1][n] == states[n];
      SingleKeeps(states[n], events[n]);
    }
  }

  lemma StartSingle()
    ensures Single(START)
  {
  }

  /** With one spawn per session, every signal went to the very child it was meant for. */
  lemma SignalsHitTheirChild(states: seq<State>, events: seq<Event>, d: Delivery)
    requires IsSingleRun(states, events) && d in states[|events|].log
    ensures Safe(d) && d.hit.value.serial == d.meant
  {
    hide Next, Possible, SpawnsOnce;
    SingleRunKeeps(states, events);
    SignalsAreSafe(states, events, d);
  }

  // ── nothing is forgotten, and escalations end ───────

  /** The two ways the books let go of a child nobody has reaped. */
  ghost predicate LetsGo(e: Event) {
    (e.Looked? && e.denied) || (e.Killed? && !e.looping)
  }

  ghost predicate IsCarefulRun(states: seq<State>, events: seq<Event>) {
    IsRun(states, events) && forall i | 0 <= i < |events| :: !LetsGo(events[i])
  }

  lemma OwnedStays(st: State, e: Event)
    requires Inv(st) && Possible(st, e) && !LetsGo(e) && st.owned.Keys == st.children.Keys
    ensures Next(st, e).owned.Keys == Next(st, e).children.Keys
  {
  }

  /** As long as signalling is never refused and the loop runs, every unreaped child has its owner. */
  lemma {:induction false} EveryChildIsOwned(states: seq<State>, events: seq<Event>)
    requires IsCarefulRun(states, events)
    ensures states[|events|].owned.Keys == states[|events|].children.Keys
    decreases |events|
  {
    if events != [] {
      hide Inv, Next, Possible;
      var n := |events| - 1;
      EveryChildIsOwned(states[..n + 1], events[..n]);
      RunKeeps(states[..n + 1], events[..n]);
      assert states[..n + 1][n] == states[n];
      OwnedStays(states[n], events[n]);
    }
  }

  function Turns(st: State, i: nat, n: nat): State
    decreases n
  {
    if n == 0 || i >= |st.tasks| then st else Turns(Tick(st, i), i, n - 1)
  }

  /**
   An escalation waits out its grace and no more: after the remaining turns plus one the SIGKILL is
   sent, if the child is still its session's, and not before.
   */
  lemma {:induction false} GraceRunsOut(st: State, i: nat)
    requires i < |st.tasks| && st.tasks[i].ticks <= GRACE
    requires st.tasks[i].pid in st.owned && st.owned[st.tasks[i].pid] == st.tasks[i].session
    ensures var t := st.tasks[i];
            && Turns(st, i, GRACE + 1 - t.ticks).log ==
               st.log + [Delivery(Kill, t.pid, t.session, t.meant, At(st, t.pid))]
            && forall n: nat | n < GRACE + 1 - t.ticks :: Turns(st, i, n).log == st.log
    decreases GRACE - st.tasks[i].ticks
  {
    var t := st.tasks[i];
    var next := Tick(st, i);
    if t.ticks < GRACE {
      GraceRunsOut(next, i);
      forall n: nat | n < GRACE + 1 - t.ticks
        ensures Turns(st, i, n).log == st.log
      {
        assert n > 0 ==> Turns(st, i, n) == Turns(next, i, n - 1);
      }
    } else {
      assert Turns(st, i, 1) == Turns(next, i, 0) == next;
    }
  }

  /**
   Ending a session sends SIGTERM first, to the session's own live child. SIGKILL follows at once
   without a loop; with one after the whole grace and not a turn before, if nobody else signals or
   reaps; and not at all once the SIGTERM was refused, or for a session without a shell.
   */
  lemma KillSignals(st: State, s: Session, refused: bool, looping: bool)
    requires Inv(st)
    ensures var after := EndSession(st, s, refused, looping);
            && (s !in st.pids ==> after == st)
            && (s in st.pids ==>
                  var p, i := st.pids[s], |st.tasks|;
                  && p in st.children && st.children[p].session == s && s !in after.pids
                  && var meant := st.children[p].serial;
                     var term, kill := Delivery(Term, p, s, meant, Some(st.children[p])),
                                       Delivery(Kill, p, s, meant, Some(st.children[p]));
                     && (refused ==> after.log == st.log + [term] && after.tasks == st.tasks)
                     && (!refused && !looping ==> after.log == st.log + [term, kill] && after.tasks == st.tasks)
                     && (!refused && looping ==>
                           && after.log == st.log + [term] && |after.tasks| == i + 1
                           && Turns(after, i, GRACE + 1).log == st.log + [term, kill]
                           && forall n: nat | n <= GRACE :: Turns(after, i, n).log == st.log + [term]))
  {
    if s in st.pids {
      BooksOf(st, s);
      var after, p, i := EndSession(st, s, refused, looping), st.pids[s], |st.tasks|;
      var child := st.children[p];
      assert st.log + [Delivery(Term, p, s, child.serial, Some(child))] + [Delivery(Kill, p, s, child.serial, Some(child))] ==
             st.log + [Delivery(Term, p, s, child.serial, Some(child)), Delivery(Kill, p, s, child.serial, Some(child))];
      if !refused && looping {
        assert after.tasks[i] == Escalation(p, s, child.serial, 0);
        GraceRunsOut(after, i);
      }
      hide Inv, Tick, Turns;
    }
  }

  ghost predicate Warned(log: seq<Delivery>, pid: Pid, sender: Session, meant: nat) {
    exists j | 0 <= j < |log| :: log[j].signal == Term && log[j].pid == pid && log[j].sender == sender && log[j].meant == meant
  }

  /** Every SIGKILL in the log has an earlier SIGTERM from the same session to the same pid, meant for the same child. */
  ghost predicate Ordered(st: State) {
    && (forall t | t in st.tasks :: Warned(st.log, t.pid, t.session, t.meant))
    && (forall k | 0 <= k < |st.log| ::
          st.log[k].signal == Kill ==> Warned(st.log[..k], st.log[k].pid, st.log[k].sender, st.log[k].meant))
  }

  lemma SendOrders(st: State, signal: Signal, p: Pid, sender: Session, meant: nat)
    requires Ordered(st) && (signal == Kill ==> Warned(st.log, p, sender, meant))
    ensures Ordered(Send(st, signal, p, sender, meant))
    ensures signal == Term ==> Warned(Send(st, signal, p, sender, meant).log, p, sender, meant)
  {
    var next := Send(st, signal, p, sender, meant);
    var n := |st.log|;
    assert next.log[..n] == st.log;
    forall t | t in st.tasks
      ensures Warned(next.log, t.pid, t.session, t.meant)
    {
      var j :| 0 <= j < n && st.log[j].signal == Term && st.log[j].pid == t.pid && st.log[j].sender == t.session && st.log[j].meant == t.meant;
      assert next.log[j] == st.log[j];
    }
    forall k | 0 <= k < |next.log| && next.log[k].signal == Kill
      ensures Warned(next.log[..k], next.log[k].pid, next.log[k].sender, next.log[k].meant)
    {
      if k < n {
        assert next.log[..k] == st.log[..k] && next.log[k] == st.log[k];
      }
    }
    if signal == Term {
      assert next.log[n].signal == Term;
    }
  }

  lemma StepOrders(st: State, e: Event)
    requires Ordered(st) && Possible(st, e)
    ensures Ordered(Next(st, e))
  {
    match e
    case Killed(s, refused, looping) =>
      if s in st.pids {
        var p, meant := st.pids[s], if s in st.latest then st.latest[s] else 0;
        var quit := st.(pids := st.pids - {s});
        SendOrders(quit, Term, p, s, meant);
        var sent := Send(quit, Term, p, s, meant);
        if !refused && !looping {
          SendOrders(sent, Kill, p, s, meant);
        }
        hide Warned, Send;
      }
    case Ticked(i) =>
      var t := st.tasks[i];
      assert t in st.tasks;
      SendOrders(st.(tasks := Without(st.tasks, i)), Kill, t.pid, t.session, t.meant);
      hide Warned, Send;
    case _ =>
  }

  /** So in every run a SIGKILL comes only after a SIGTERM. */
  lemma {:induction false} TermComesFirst(states: seq<State>, events: seq<Event>)
    requires IsRun(states, events)
    ensures Ordered(states[|events|])
    decreases |events|
  {
    if events != [] {
      hide Next, Possible, Ordered;
      var n := |events| - 1;
      TermComesFirst(states[..n + 1], events[..n]);
      assert states[..n + 1][n] == states[n];
      StepOrders(states[n], events[n]);
    } else {
      StartOrders();
    }
  }

  lemma StartOrders()
    ensures Ordered(START)
  {
  }

  // ── why one spawn per session is assumed ────────────

  /**
   Without it the claim would not hold: a session that spawned again could lose its second shell to
   the escalation of the first. The agent never spawns twice from one session.
   */
  lemma SecondSpawnIsHit()
    ensures exists states: seq<State>, events: seq<Event>, d: Delivery ::
              IsRun(states, events) && d in states[|events|].log && Safe(d) && d.hit.value.serial != d.meant
  {
    var a := Spawn(START, 7, 100);
    var b := EndSession(a, 7, false, true);
    var c := Exit(b, 100);
    var d := Reap(c, 100);
    var e := Spawn(d, 7, 100);
    var t := Escalation(100, 7, 0, 0);
    assert e.tasks == [t] && e.owned == map[100 := 7] && e.children == map[100 := Child(1, 7, false)];
    var states, events := Waits([START, a, b, c, d, e],
                                [Spawned(7, 100), Killed(7, false, true), Exits(100), Reaped(100), Spawned(7, 100)]);
    var last := states[|events|];
    assert last.log[|last.log| - 1] in last.log;
    assert last.log[|last.log| - 1] == Delivery(Kill, 100, 7, 0, Some(Child(1, 7, false)));
  }

  /** Let the only escalation run to its end. */
  lemma {:induction false} Waits(states: seq<State>, events: seq<Event>) returns (all: seq<State>, moves: seq<Event>)
    requires IsRun(states, events)
    requires var st := states[|events|];
             |st.tasks| == 1 && st.tasks[0].ticks <= GRACE &&
             st.tasks[0].pid in st.owned && st.owned[st.tasks[0].pid] == st.tasks[0].session
    ensures IsRun(all, moves)
    ensures var st := states[|events|];
            var t := st.tasks[0];
            all[|moves|].log == st.log + [Delivery(Kill, t.pid, t.session, t.meant, At(st, t.pid))]
    decreases GRACE - states[|events|].tasks[0].ticks
  {
    var st := states[|events|];
    var next := Tick(st, 0);
    all, moves := states + [next], events + [Ticked(0)];
    assert IsRun(all, moves);
    if st.tasks[0].ticks < GRACE {
      all, moves := Waits(all, moves);
    }
  }
}
