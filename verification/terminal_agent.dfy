/**
 The agent's own records (agent/agent/terminal.py): session objects whose pid either reaper may
 clear, the map of owned pids, and the escalations. Every method is proved to do what the event of
 the same name does in `Terminals`, whatever the kernel answers.
 */
module TerminalAgent {
  import opened Wrappers
  import opened Terminals

  class TerminalSession {
    const id: Session
    var pid: Option<Pid>
    var masterFd: Option<nat>

    constructor (id: Session)
      ensures this.id == id && pid == None && masterFd == None
    {
      this.id, pid, masterFd := id, None, None;
    }
  }

  datatype Task = Task(pid: Pid, session: TerminalSession, meant: nat, ticks: nat)

  /** What is left once every exited child has been reaped. */
  function ReapAll(st: State): State {
    var gone := set p | p in st.children && st.children[p].exited;
    var bereft := set p | p in st.owned && p in gone :: st.owned[p];
    st.(children := st.children - gone, owned := st.owned - gone, pids := st.pids - bereft)
  }

  lemma ReapOneOfAll(st: State, p: Pid)
    requires p in st.children && st.children[p].exited
    ensures ReapAll(Reap(st, p)) == ReapAll(st)
  {
    var next := Reap(st, p);
    var gone := set q | q in st.children && st.children[q].exited;
    var left := set q | q in next.children && next.children[q].exited;
    assert gone == left + {p};
    var bereft := set q | q in st.owned && q in gone :: st.owned[q];
    var fewer := set q | q in next.owned && q in left :: next.owned[q];
    assert bereft == if p in st.owned then fewer + {st.owned[p]} else fewer by {
      forall q | q in st.owned && q in gone
        ensures q == p || (q in next.owned && q in left && next.owned[q] == st.owned[q])
      {
      }
      assert forall x | x in bereft :: x in fewer || (p in st.owned && x == st.owned[p]);
      assert forall x | x in fewer :: x in bereft;
    }
    assert next.children - left == st.children - gone;
    assert next.owned - left == st.owned - gone;
    assert next.pids - fewer == st.pids - bereft;
  }

  lemma NothingToReap(st: State)
    requires forall p | p in st.children :: !st.children[p].exited
    ensures ReapAll(st) == st
  {
    var gone := set p | p in st.children && st.children[p].exited;
    assert gone == {};
    assert st.children - gone == st.children && st.owned - gone == st.owned && st.pids - {} == st.pids;
  }

  class Agent {
    var children: map<Pid, Child>              // the kernel's side
    var serials: nat
    var latest: map<Session, nat>
    var owned: map<Pid, TerminalSession>       // _owned_pids
    var tasks: seq<Task>                       // _reap_tasks
    ghost var log: seq<Delivery>
    ghost var sessions: map<Session, TerminalSession>

    constructor ()
      ensures Valid() && View() == START && sessions == map[]
    {
      children, serials, latest, owned, tasks, log, sessions := map[], 0, map[], map[], [], [], map[];
    }

    /** Every session the books name is one of the sessions, each under its own number. */
    ghost predicate Known()
      reads this
    {
      && (forall i | i in sessions :: sessions[i].id == i)
      && (forall p | p in owned :: Has(owned[p]))
      && (forall t | t in tasks :: Has(t.session))
    }

    ghost predicate Has(s: TerminalSession)
      reads this
    {
      s.id in sessions && sessions[s.id] == s
    }

    ghost predicate Valid()
      reads this, sessions.Values
    {
      Known() && Inv(View())
    }

    ghost function View(): State
      reads this, sessions.Values
    {
      State(children, serials, latest, Pids(), Owners(owned), Escalations(tasks), log)
    }

    ghost function Pids(): map<Session, Pid>
      reads this`sessions, sessions.Values
    {
      map i | i in sessions && sessions[i].pid.Some? :: sessions[i].pid.value
    }

    lemma PidIs(s: TerminalSession)
      requires Has(s)
      ensures s.id in Pids() <==> s.pid.Some?
      ensures s.pid.Some? ==> Pids()[s.id] == s.pid.value
    {
    }

    /** A session has its own pid field, and no other session's is touched with it. */
    method SetPid(s: TerminalSession, pid: Option<Pid>)
      requires Known() && Has(s)
      modifies s
      ensures s.pid == pid && s.masterFd == old(s.masterFd)
      ensures Pids() == if pid.Some? then old(Pids())[s.id := pid.value] else old(Pids()) - {s.id}
    {
      s.pid := pid;
    }

    method SetFd(s: TerminalSession, fd: Option<nat>)
      requires Has(s)
      modifies s
      ensures s.pid == old(s.pid) && s.masterFd == fd && Pids() == old(Pids())
    {
      s.masterFd := fd;
    }

    /** After `fork` returned a child both books record it before anything else can run. */
    method Spawn(s: TerminalSession, forked: Option<Pid>, fd: nat) returns (ok: bool)
      requires Valid() && Has(s)
      requires forked.Some? ==> forked.value !in children
      modifies this, s
      ensures Valid() && sessions == old(sessions) && ok == forked.Some?
      ensures ok ==> View() == Terminals.Spawn(old(View()), s.id, forked.value) && s.masterFd == Some(fd)
      ensures !ok ==> View() == old(View()) && s.masterFd == None
    {
      hide Inv, Pids, Owners, Escalations;
      ghost var before := View();
      if forked.None? {
        SetFd(s, None);
        assert View() == before;
        return false;
      }
      var p := forked.value;
      children := children[p := Child(serials, s.id, false)];
      latest := latest[s.id := serials];
      serials := serials + 1;
      SetFd(s, Some(fd));
      SetPid(s, forked);
      OwnersEdit(owned, p, s);
      owned := owned[p := s];
      assert View() == Terminals.Spawn(before, s.id, p);
      SpawnKeeps(before, s.id, p);
      ok := true;
    }

    /** The child exits; the kernel keeps it as a zombie until somebody reaps it. */
    method ChildExits(p: Pid)
      requires Valid() && p in children
      modifies this
      ensures Valid() && sessions == old(sessions) && View() == Exit(old(View()), p)
    {
      hide Inv, Pids, Owners, Escalations;
      ghost var before := View();
      StepKeeps(before, Exits(p));
      children := children[p := children[p].(exited := true)];
      assert View() == Exit(before, p);
    }

    /** `is_alive`: reap the shell if it exited, and forget it unless it can still be signalled. */
    method IsAlive(s: TerminalSession, denied: bool) returns (alive: bool)
      requires Valid() && Has(s)
      modifies this, s
      ensures Valid() && sessions == old(sessions) && View() == Look(old(View()), s.id, denied)
      ensures alive <==> old(s.pid.Some? && s.pid.value in children && !children[s.pid.value].exited && !denied)
    {
      hide Inv, Pids, Owners, Escalations;
      ghost var before := View();
      StepKeeps(before, Looked(s.id, denied));
      PidIs(s);
      if s.pid.None? {
        return false;
      }
      var p := s.pid.value;
      if p in children && !children[p].exited && !denied {
        return true;
      }
      if p in children && children[p].exited {
        children := children - {p};
      }
      OwnersEdit(owned, p, s);
      owned := owned - {p};
      SetPid(s, None);
      assert View() == Look(before, s.id, denied);
      alive := false;
    }

    /** One child collected by waitpid(-1): its owner must not signal that pid again. */
    method ReapOne(p: Pid)
      requires Valid() && p in children && children[p].exited
      modifies this, sessions.Values
      ensures Valid() && sessions == old(sessions) && View() == Reap(old(View()), p)
    {
      hide Inv, Pids, Owners, Escalations;
      ghost var before := View();
      StepKeeps(before, Reaped(p));
      children := children - {p};
      if p in owned {
        var s := owned[p];
        OwnersEdit(owned, p, s);
        owned := owned - {p};
        SetPid(s, None);
      } else {
        OwnersNone(owned, p);
      }
      assert View() == Reap(before, p);
    }

    /** `reap_orphans`: whatever order the kernel hands them over in, every exited child is gone after. */
    method ReapOrphans()
      requires Valid()
      modifies this, sessions.Values
      ensures Valid() && sessions == old(sessions) && View() == ReapAll(old(View()))
      ensures forall p | p in children :: !children[p].exited
    {
      hide Inv, Pids, Owners, Escalations;
      ghost var before := View();
      while exists p :: p in children && children[p].exited
        invariant Valid() && sessions == old(sessions) && ReapAll(View()) == ReapAll(before)
        decreases children.Keys
      {
        var p :| p in children && children[p].exited;
        ReapOneOfAll(View(), p);
        ReapOne(p);
      }
      NothingToReap(View());
    }

    method Deliver(signal: Signal, p: Pid, s: TerminalSession, meant: nat)
      requires Valid() && Has(s) && p in owned && owned[p] == s
      modifies this`log
      ensures log == old(log) + [Delivery(signal, p, s.id, meant, if p in children then Some(children[p]) else None)]
      ensures p in children && children[p].session == s.id
    {
      hide Inv;
      OwnedIsChild(View(), p);
      log := log + [Delivery(signal, p, s.id, meant, if p in children then Some(children[p]) else None)];
    }

    /** `kill`: SIGTERM the shell and start the grace period; without a running loop SIGKILL it at once. */
    method EndSession(s: TerminalSession, refused: bool, looping: bool)
      requires Valid() && Has(s)
      modifies this, s
      ensures Valid() && sessions == old(sessions) && View() == Terminals.EndSession(old(View()), s.id, refused, looping)
      ensures s.masterFd == None
    {
      hide Inv, Pids, Owners, Escalations;
      ghost var before := View();
      StepKeeps(before, Killed(s.id, refused, looping));
      PidIs(s);
      if s.pid.Some? {
        var p := s.pid.value;
        BooksOf(before, s.id);
        OwnersEdit(owned, p, s);
        var meant := latest[s.id];
        Deliver(Term, p, s, meant);
        SetPid(s, None);
        if !refused {
          if looping {
            tasks := tasks + [Task(p, s, meant, 0)];
            EscalationsAppend(old(tasks), Task(p, s, meant, 0));
          } else {
            log := log + [Delivery(Kill, p, s.id, meant, Some(children[p]))];
            OwnersEdit(owned, p, s);
            owned := owned - {p};
          }
        }
      }
      SetFd(s, None);
      assert View() == Terminals.EndSession(before, s.id, refused, looping);
    }

    /** One turn of `_reap_and_kill`; done when the escalation is over. */
    method TickEscalation(i: nat) returns (done: bool)
      requires Valid() && i < |tasks|
      modifies this
      ensures Valid() && sessions == old(sessions) && View() == Tick(old(View()), i)
      ensures done <==> |tasks| < |old(tasks)|
    {
      hide Inv, Pids, Owners, Escalations;
      ghost var before := View();
      var t := tasks[i];
      assert t in tasks;
      EscalationsEdit(tasks, i, t.(ticks := t.ticks + 1));
      StepKeeps(before, Ticked(i));
      OwnersEdit(owned, t.pid, t.session);
      assert t.pid in owned ==> (owned[t.pid].id == t.session.id <==> owned[t.pid] == t.session);
      if t.pid !in owned || owned[t.pid] != t.session {
        tasks := tasks[..i] + tasks[i + 1..];
        done := true;
      } else if t.ticks < GRACE {
        tasks := tasks[i := t.(ticks := t.ticks + 1)];
        done := false;
      } else {
        Deliver(Kill, t.pid, t.session, t.meant);
        tasks := tasks[..i] + tasks[i + 1..];
        done := true;
      }
      assert View() == Tick(before, i);
    }
  }

  ghost function Owners(owned: map<Pid, TerminalSession>): map<Pid, Session> {
    map p | p in owned :: owned[p].id
  }

  lemma OwnersEdit(owned: map<Pid, TerminalSession>, p: Pid, s: TerminalSession)
    ensures Owners(owned[p := s]) == Owners(owned)[p := s.id]
    ensures Owners(owned - {p}) == Owners(owned) - {p}
    ensures Owners(owned).Keys == owned.Keys && (p in owned ==> Owners(owned)[p] == owned[p].id)
  {
  }

  lemma OwnersNone(owned: map<Pid, TerminalSession>, p: Pid)
    requires p !in owned
    ensures p !in Owners(owned) && Owners(owned) - {p} == Owners(owned)
  {
  }

  ghost function Escalations(tasks: seq<Task>): seq<Escalation> {
    seq(|tasks|, i requires 0 <= i < |tasks| =>
      Escalation(tasks[i].pid, tasks[i].session.id, tasks[i].meant, tasks[i].ticks))
  }

  lemma EscalationsAppend(tasks: seq<Task>, t: Task)
    ensures Escalations(tasks + [t]) == Escalations(tasks) + [Escalation(t.pid, t.session.id, t.meant, t.ticks)]
  {
  }

  lemma EscalationsEdit(tasks: seq<Task>, i: nat, t: Task)
    requires i < |tasks|
    ensures |Escalations(tasks)| == |tasks|
    ensures Escalations(tasks)[i] == Escalation(tasks[i].pid, tasks[i].session.id, tasks[i].meant, tasks[i].ticks)
    ensures Escalations(tasks[i := t]) == Escalations(tasks)[i := Escalation(t.pid, t.session.id, t.meant, t.ticks)]
    ensures Escalations(tasks[..i] + tasks[i + 1..]) == Escalations(tasks)[..i] + Escalations(tasks)[i + 1..]
  {
  }
}
