/**
 The fence as the code runs it (backend/app/wal_fence.py): record files that come and go, and loops
 over the scoped containers. Each method does the step of the same name in `Fence`.
 */
module FenceHost {
  import opened Wrappers
  import opened Fence
  import opened FenceRestores

  class HostFence {
    /** Every command does what it is asked and is seen to have done it. */
    const obliging: bool
    var host: Host
    var lock: Option<Process>
    var prepared: Option<seq<Entry>>
    var manifest: Option<nat>
    var claim: Option<ClaimFile>
    var applying: Option<nat>
    var done: Option<Terminal>
    var released: bool
    var ids: nat
    ghost var procs: map<Process, Local>
    ghost var issued: set<nat>
    ghost var begun: nat

    ghost function View(): State
      reads this
    {
      State(host, Files(lock, prepared, manifest, claim, applying, done, released), procs, ids, issued, begun)
    }

    constructor (host: Host, obliging: bool)
      ensures View() == Starts(host) && this.obliging == obliging
    {
      this.obliging := obliging;
      this.host, lock, prepared, manifest, claim, applying := host, None, None, None, None, None;
      done, released, ids, procs, issued, begun := None, false, 0, map[], {}, 0;
    }

    // ── release ───────────────────────────────────────

    /** Put the recorded policies back, entry by entry, reading each one back. */
    method RestorePolicies(entries: seq<Entry>, reach: nat, late: bool) returns (ok: bool)
      modifies `host
      ensures (host, ok) == Restore(old(host), entries, reach, late)
    {
      ghost var whole := Restore(host, entries, reach, late);
      var left := reach;
      for i := 0 to |entries|
        invariant whole == Restore(host, entries[i..], left, late)
      {
        var e := entries[i];
        assert entries[i..][0] == e && entries[i..][1..] == entries[i + 1..];
        if e.id !in host || (left == 0 && !late) {
          return false;
        }
        host := host[e.id := host[e.id].(policy := Applied(Format(e.before)))];
        if left == 0 || host[e.id].policy != Wanted(e.before) {
          return false;
        }
        left := left - 1;
      }
      ok := true;
    }

    /** Start what was running when the fence arrived, and what the operator named. */
    method StartContainers(entries: seq<Entry>, allow: set<Container>, reach: nat) returns (ok: bool)
      modifies `host
      ensures (host, ok) == Start(old(host), entries, allow, reach)
    {
      ghost var whole := Start(host, entries, allow, reach);
      var left := reach;
      for i := 0 to |entries|
        invariant whole == Start(host, entries[i..], allow, left)
      {
        var e := entries[i];
        assert entries[i..][0] == e && entries[i..][1..] == entries[i + 1..];
        if e.wasRunning || e.id in allow {
          if left == 0 || e.id !in host {
            return false;
          }
          host := host[e.id := host[e.id].(running := true)];
          left := left - 1;
        }
      }
      ok := true;
    }

    /** Everything release asks before it changes anything. */
    method MayBeReleased(durable: bool) returns (may: bool)
      ensures may == MayRelease(View().files, durable)
    {
      if prepared.None? || released {
        return false;
      }
      if manifest.None? && (claim.Some? || done.Some?) {
        return false;
      }
      if claim.Some? && done.None? {
        return false;
      }
      if done.None? && claim.None? {
        return true;
      }
      if claim.None? || claim.value.Torn? || done.value.outcome !in {Completed, Failed} {
        return false;
      }
      may := (manifest.Some? ==> claim.value.lease == manifest.value) && done.value.id == claim.value.id &&
             done.value.lease == claim.value.lease && durable;
    }

    method ReleaseFence(a: Attempt) returns (ok: bool)
      modifies `host, `released
      ensures View() == Release(old(View()), a)
      ensures ok <==> released && !old(released)
    {
      hide Restore, Start;
      var may := MayBeReleased(a.durable);
      if !may {
        return false;
      }
      ok := RestorePolicies(prepared.value, a.restores, a.late);
      if !ok {
        return;
      }
      if a.start {
        ok := StartContainers(prepared.value, a.allow, a.starts);
        if !ok {
          return;
        }
      }
      released := true;
    }

    // ── claim, begin, finish ──────────────────────────

    /** The exclusive create of the claim: one winner. */
    method CreateClaimFile(p: Process) returns (capability: Option<(nat, nat)>)
      requires p in procs && procs[p].Checked? && manifest == Some(procs[p].lease)
      modifies this
      ensures View() == CreateClaim(old(View()), p, false)
      ensures capability.Some? <==> old(claim).None?
      ensures capability.Some? ==> claim == Some(Claim(capability.value.0, capability.value.1, Claimed))
    {
      if claim.Some? {
        procs := procs - {p};
        return None;
      }
      var id, lease := ids, manifest.value;
      claim, ids, issued := Some(Claim(id, lease, Claimed)), ids + 1, issued + {id};
      procs := procs[p := Holding(id, lease)];
      capability := Some((id, lease));
    }

    /** The exclusive create of the apply marker, after the checks of begin_apply passed. */
    method CreateApplyMarker(p: Process) returns (apply: Option<nat>)
      requires p in procs && procs[p].Beginning?
      modifies this
      ensures View() == CreateMarker(old(View()), p)
      ensures apply.Some? <==> old(applying).None?
    {
      ghost var b := procs[p];
      if applying.Some? {
        procs := procs[p := Holding(b.id, b.lease)];
        return None;
      }
      apply := Some(ids);
      applying, ids := Some(ids), ids + 1;
      procs := procs[p := Marking(b.id, b.lease, applying.value)];
    }

    /** The rewrite of CLAIMED to APPLYING, after which begin_apply can return. */
    method RewriteApplying(p: Process) returns (ok: bool)
      requires p in procs && procs[p].Marking?
      modifies this
      ensures View() == MarkApplying(old(View()), p)
      ensures ok <==> begun == old(begun) + 1
    {
      ghost var m := procs[p];
      ok := claim.Some? && claim.value.Claim? && claim.value.state == Claimed;
      if ok {
        claim := Some(claim.value.(state := Applying));
        begun := begun + 1;
        procs := procs[p := Begun(m.id, m.lease, m.apply)];
      } else {
        procs := procs[p := Holding(m.id, m.lease)];
      }
    }

    /** `_finish`: true when the outcome asked for is the one on record afterwards. */
    method FinishClaim(p: Process, id: nat, lease: nat, outcome: ClaimState, mirrored: bool) returns (ok: bool)
      requires p in procs && Capability(procs[p]) == Some((id, lease)) && outcome in {Completed, Failed}
      modifies this
      ensures View() == Finish(old(View()), p, outcome, mirrored)
      ensures ok <==>
                && old(claim).Some? && old(claim).value.Claim? && old(claim).value.id == id && old(claim).value.lease == lease
                && done == Some(Terminal(id, lease, outcome))
      ensures old(done).Some? ==> done == old(done)
    {
      if claim.None? || claim.value.Torn? || claim.value.id != id || claim.value.lease != lease {
        return false;
      }
      if done.Some? {
        return done == Some(Terminal(id, lease, outcome));
      }
      if !Finishable(claim.value.state, outcome) {
        return false;
      }
      done := Some(Terminal(id, lease, outcome));
      if mirrored {
        claim := Some(claim.value.(state := outcome));
      }
      ok := true;
    }

    // ── fence ─────────────────────────────────────────

    /** An exception on the way out: the lock goes, if this fence holds it. */
    method Leave(p: Process)
      requires p in procs
      modifies `lock, `procs
      ensures View() == Refuse(old(View()), p)
    {
      if lock == Some(p) {
        lock := None;
      }
      procs := procs - {p};
    }

    /** Pin one container; its readback is believed, not the exit status of the update. */
    method PinOne(p: Process, i: nat) returns (ok: bool, ghost e: Event)
      requires p in procs && procs[p] == Pinning(i) && prepared.Some? && i < |prepared.value|
      modifies `host, `lock, `procs
      ensures e.Pinned? && View() == Next(old(View()), e)
      ensures host.Keys == old(host).Keys && forall c | c in host && c != prepared.value[i].id :: host[c] == old(host)[c]
      ensures forall c | c in host :: host[c].running == old(host)[c].running && host[c].policy in {PINNED, old(host)[c].policy}
      ensures obliging && prepared.value[i].id in old(host) ==> ok
      ensures ok ==> p in procs && procs[p] == Pinning(i + 1)
      ensures ok ==> prepared.value[i].id in host && host[prepared.value[i].id].policy.name == "no"
    {
      var id := prepared.value[i].id;
      var changed, seen := *, *;
      if obliging {
        changed, seen := true, true;
      }
      e := Pinned(p, changed, seen);
      if id !in host {
        Leave(p);
        return false, e;
      }
      if changed {
        host := host[id := host[id].(policy := PINNED)];
      }
      ok := seen && host[id].policy.name == "no";
      if ok {
        procs := procs[p := Pinning(i + 1)];
      } else {
        Leave(p);
      }
    }

    /** Nothing is left to pin. */
    ghost method PinsDone(p: Process)
      requires p in procs && prepared.Some? && procs[p] == Pinning(|prepared.value|)
      modifies `procs
      ensures View() == Next(old(View()), Pinned(p, false, false))
      ensures p in procs && procs[p] == Stopping(0)
    {
      procs := procs[p := Stopping(0)];
    }

    /** Stop one container, and see that it has. */
    method StopOne(p: Process, i: nat) returns (ok: bool, ghost e: Event)
      requires p in procs && procs[p] == Stopping(i) && prepared.Some? && i < |prepared.value|
      modifies `host, `lock, `procs
      ensures e.Stopped? && View() == Next(old(View()), e)
      ensures host.Keys == old(host).Keys && forall c | c in host && c != prepared.value[i].id :: host[c] == old(host)[c]
      ensures forall c | c in host :: host[c].policy == old(host)[c].policy && (host[c].running ==> old(host)[c].running)
      ensures obliging && prepared.value[i].id in old(host) ==> ok
      ensures ok ==> p in procs && procs[p] == Stopping(i + 1)
      ensures ok ==> prepared.value[i].id in host && !host[prepared.value[i].id].running
    {
      var id := prepared.value[i].id;
      ok := *;
      if obliging {
        ok := true;
      }
      e := Stopped(p, ok);
      ok := ok && id in host;
      if ok {
        host := host[id := host[id].(running := false)];
        procs := procs[p := Stopping(i + 1)];
      } else {
        Leave(p);
      }
    }

    /** Pin every scoped container, one step after the other; the first that cannot be confirmed ends it. */
    method PinScope(p: Process) returns (ok: bool, ghost states: seq<State>, ghost events: seq<Event>)
      requires p in procs && procs[p] == Pinning(0) && prepared.Some?
      modifies `host, `lock, `procs
      ensures Continues(states, events, old(View())) && states[|events|] == View()
      ensures host.Keys == old(host).Keys
      ensures forall c | c in host && c !in Scope(prepared.value) :: host[c] == old(host)[c]
      ensures forall c | c in host :: host[c].running == old(host)[c].running && host[c].policy in {PINNED, old(host)[c].policy}
      ensures obliging && (forall e | e in prepared.value :: e.id in old(host)) ==> ok
      ensures ok ==> p in procs && procs[p] == Stopping(0)
      ensures ok ==> forall e | e in prepared.value :: e.id in host && host[e.id].policy.name == "no"
    {
      hide *;
      states, events := [View()], [];
      ContinuesNone(View());
      for i := 0 to |prepared.value|
        invariant p in procs && procs[p] == Pinning(i) && prepared.Some?
        invariant |states| == |events| + 1 && Continues(states, events, old(View())) && states[|events|] == View()
        invariant host.Keys == old(host).Keys
        invariant forall c | c in host && c !in Scope(prepared.value) :: host[c] == old(host)[c]
        invariant forall c | c in host :: host[c].running == old(host)[c].running && host[c].policy in {PINNED, old(host)[c].policy}
        invariant forall k | 0 <= k < i :: prepared.value[k].id in host && host[prepared.value[k].id].policy.name == "no"
      {
        ghost var before := View();
        ghost var e;
        InScope(prepared.value, i);
        ok, e := PinOne(p, i);
        ContinuesOn(states, events, old(View()), before, e, View());
        states, events := states + [View()], events + [e];
        if !ok {
          return;
        }
      }
      ghost var before := View();
      PinsDone(p);
      ContinuesOn(states, events, old(View()), before, Pinned(p, false, false), View());
      states, events := states + [View()], events + [Pinned(p, false, false)];
      ok := true;
    }

    /** Stop every scoped container, one step after the other; the first that is not seen stopped ends it. */
    method StopScope(p: Process) returns (ok: bool, ghost states: seq<State>, ghost events: seq<Event>)
      requires p in procs && procs[p] == Stopping(0) && prepared.Some?
      modifies `host, `lock, `procs
      ensures Continues(states, events, old(View())) && states[|events|] == View()
      ensures host.Keys == old(host).Keys
      ensures forall c | c in host && c !in Scope(prepared.value) :: host[c] == old(host)[c]
      ensures forall c | c in host :: host[c].policy == old(host)[c].policy && (host[c].running ==> old(host)[c].running)
      ensures obliging && (forall e | e in prepared.value :: e.id in old(host)) ==> ok
      ensures ok ==> p in procs && procs[p] == Stopping(|prepared.value|)
      ensures ok ==> forall e | e in prepared.value :: e.id in host && !host[e.id].running
    {
      hide *;
      states, events := [View()], [];
      ContinuesNone(View());
      for i := 0 to |prepared.value|
        invariant p in procs && procs[p] == Stopping(i) && prepared.Some?
        invariant |states| == |events| + 1 && Continues(states, events, old(View())) && states[|events|] == View()
        invariant host.Keys == old(host).Keys
        invariant forall c | c in host && c !in Scope(prepared.value) :: host[c] == old(host)[c]
        invariant forall c | c in host :: host[c].policy == old(host)[c].policy && (host[c].running ==> old(host)[c].running)
        invariant forall k | 0 <= k < i :: prepared.value[k].id in host && !host[prepared.value[k].id].running
      {
        ghost var before := View();
        ghost var e;
        InScope(prepared.value, i);
        ok, e := StopOne(p, i);
        ContinuesOn(states, events, old(View()), before, e, View());
        states, events := states + [View()], events + [e];
        if !ok {
          return;
        }
      }
      ok := true;
    }

    /**
     Pin every scoped container, then stop every one: a run of the fence's own steps. True means each
     was seen on policy `no` and seen stopped, and only the manifest is left to write; a container
     that cannot be confirmed ends it, with the host as it then is.
     */
    method QuiesceScope(p: Process) returns (ok: bool, ghost states: seq<State>, ghost events: seq<Event>)
      requires p in procs && procs[p] == Pinning(0) && prepared.Some?
      modifies `host, `lock, `procs
      ensures Continues(states, events, old(View())) && states[|events|] == View()
      ensures host.Keys == old(host).Keys
      ensures forall c | c in host && c !in Scope(prepared.value) :: host[c] == old(host)[c]
      ensures obliging && (forall e | e in prepared.value :: e.id in old(host)) ==> ok
      ensures ok ==> p in procs && procs[p] == Stopping(|prepared.value|)
      ensures ok ==> forall e | e in prepared.value ::
                e.id in host && host[e.id].policy.name == "no" && !host[e.id].running
      ensures forall c | c in host :: host[c].running ==> old(host)[c].running
      ensures forall c | c in host :: host[c].policy in {PINNED, old(host)[c].policy}
    {
      hide Next, Continues;
      ok, states, events := PinScope(p);
      if ok {
        ghost var more, moves;
        ghost var first := old(View());
        ok, more, moves := StopScope(p);
        ContinuesFrom(states, events, first, more, moves);
        states, events := states + more[1..], events + moves;
      }
    }
  }

  lemma InScope(entries: seq<Entry>, i: nat)
    requires i < |entries|
    ensures entries[i].id in Scope(entries)
  {
  }

  lemma ContinuesNone(s: State)
    ensures Continues([s], [], s)
  {
  }

  lemma ContinuesOn(states: seq<State>, events: seq<Event>, first: State, mid: State, e: Event, next: State)
    requires Continues(states, events, first) && states[|events|] == mid && next == Next(mid, e)
    ensures Continues(states + [next], events + [e], first)
    ensures (states + [next])[|events + [e]|] == next
  {
    hide Next;
  }

  lemma ContinuesFrom(states: seq<State>, events: seq<Event>, first: State, more: seq<State>, moves: seq<Event>)
    requires Continues(states, events, first) && Continues(more, moves, states[|events|])
    ensures Continues(states + more[1..], events + moves, first)
    ensures |more| == |moves| + 1 && (states + more[1..])[|events + moves|] == more[|moves|]
  {
    hide Next;
    var all, es := states + more[1..], events + moves;
    forall i | 0 <= i < |es|
      ensures all[i + 1] == Next(all[i], es[i])
    {
      var k := i - |events|;
      assert i >= |events| ==> all[i] == more[k] && all[i + 1] == more[k + 1] && es[i] == moves[k];
      assert i < |events| ==> all[i] == states[i] && all[i + 1] == states[i + 1] && es[i] == events[i];
    }
  }
}
