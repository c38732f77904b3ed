/**
 Whether the restart policies can still be put back. A second fence after a release, a claim file
 torn by a death in the middle of its creation, and a policy that does not survive being written down
 each end it for good, and nothing else does.
 */
module FenceRestores {
  import opened Wrappers
  import opened Fence
  import opened FenceClaims

  /** Anything that can happen from here on. */
  ghost predicate Continues(states: seq<State>, events: seq<Event>, s: State) {
    && |states| == |events| + 1 && states[0] == s
    && forall i | 0 <= i < |events| :: states[i + 1] == Next(states[i], events[i])
  }

  /** Some release may yet get all the way through. */
  ghost predicate CanRelease(s: State) {
    exists states: seq<State>, events: seq<Event>, a: Attempt ::
      Continues(states, events, s) && !states[|events|].files.released && Release(states[|events|], a).files.released
  }

  /** A policy that comes back as it was when it is written down and applied. */
  ghost predicate Plain(p: Policy) {
    p.retries == 0 || p.name == "on-failure"
  }

  ghost predicate AllPlain(entries: seq<Entry>) {
    forall e | e in entries :: Plain(e.before)
  }

  /** No release will ever get past its questions again. */
  predicate Blocked(f: Files) {
    f.released || f.claim == Some(Torn)
  }

  /** This container is on the policy it had before the first attempt, an empty name read as `no`. */
  ghost predicate Back(host: Host, e: Entry) {
    e.id in host && Wanted(host[e.id].policy) == Wanted(e.before)
  }

  ghost predicate AllBack(s: State) {
    s.files.prepared.Some? && forall e | e in s.files.prepared.value :: Back(s.host, e)
  }

  /** A restore can get to this container before a policy that does not come back stops it. */
  ghost predicate InReach(entries: seq<Entry>, c: Container) {
    exists i | 0 <= i < |entries| :: entries[i].id == c && AllPlain(entries[..i + 1])
  }

  // ── what never changes back ─────────────────────────

  lemma StepBlocks(s: State, e: Event)
    requires s.files.prepared.Some?
    ensures Next(s, e).files.prepared == s.files.prepared
    ensures s.files.released ==> Next(s, e).files.released
    ensures s.files.claim == Some(Torn) ==> Next(s, e).files.claim == Some(Torn)
  {
    hide Restore, Start;
  }

  lemma {:induction false} BlockStays(states: seq<State>, events: seq<Event>, s: State)
    requires Continues(states, events, s) && s.files.prepared.Some?
    ensures var t := states[|events|];
            && t.files.prepared == s.files.prepared
            && (s.files.released ==> t.files.released)
            && (s.files.claim == Some(Torn) ==> t.files.claim == Some(Torn))
    decreases |events|
  {
    if events != [] {
      hide Next;
      var n := |events| - 1;
      assert states[..n + 1][n] == states[n];
      BlockStays(states[..n + 1], events[..n], s);
      StepBlocks(states[n], events[n]);
    }
  }

  /** A restore gets through exactly the entries that come back as they were. */
  lemma {:induction false} RestoreGets(host: Host, entries: seq<Entry>, reach: nat, late: bool)
    ensures Restore(host, entries, reach, late).1 ==> AllPlain(entries)
    ensures AllPlain(entries) && |entries| <= reach && (forall e | e in entries :: e.id in host) ==>
              Restore(host, entries, reach, late).1
    decreases |entries|
  {
    if entries != [] {
      assert entries == [entries[0]] + entries[1..];
      FormatRoundTrips(entries[0].before);
      if entries[0].id in host && reach > 0 {
        var e := entries[0];
        RestoreGets(host[e.id := host[e.id].(policy := Applied(Format(e.before)))], entries[1..], reach - 1, late);
      }
    }
  }

  // ── whether a release can still succeed ─────────────

  const WHOLE := Attempt(false, {}, 0, false, 0, true)

  /** With nothing in its way, a release of plain policies gets through. */
  lemma ReleaseGoes(s: State, original: Host)
    requires Remembered(s, original) && MayRelease(s.files, true) && AllPlain(s.files.prepared.value)
    ensures var after := Release(s, WHOLE.(restores := |s.files.prepared.value|));
            after.files.released && after.files.prepared == s.files.prepared
  {
    RestoreGets(s.host, s.files.prepared.value, |s.files.prepared.value|, false);
    hide Restore, Format, Applied, Wanted;
  }

  lemma {:induction false} FreshProcess(ps: set<Process>) returns (p: Process)
    ensures p !in ps && forall q | q in ps :: q < p
    decreases |ps|
  {
    if ps == {} {
      p := 0;
    } else {
      var q :| q in ps;
      var above := FreshProcess(ps - {q});
      p := if q < above then above else q + 1;
      assert forall x | x in ps :: x == q || x in ps - {q};
    }
  }

  /** A live claim can always be taken up again and failed, after which release may go ahead. */
  lemma Unlock(s: State, original: Host) returns (states: seq<State>, events: seq<Event>)
    requires Agrees(s) && Remembered(s, original) && s.files.prepared.Some? && !Blocked(s.files)
    ensures Continues(states, events, s) && MayRelease(states[|events|].files, true)
    ensures Remembered(states[|events|], original) && states[|events|].files.prepared == s.files.prepared
    ensures states[|events|].host == s.host
  {
    if s.files.claim.None? || s.files.done.Some? {
      states, events := [s], [];
    } else {
      var p := FreshProcess(s.procs.Keys);
      var mid := Next(s, Reattached(p));
      var end := Next(mid, Finished(p, Failed, true));
      Retaken(s, p);
      StepRemembers(s, Reattached(p), original);
      StepRemembers(mid, Finished(p, Failed, true), original);
      hide Next, Remembered, MayRelease;
      states, events := [s, mid, end], [Reattached(p), Finished(p, Failed, true)];
    }
  }

  lemma Retaken(s: State, p: Process)
    requires FilesAgree(s) && p !in s.procs && s.files.prepared.Some? && !Blocked(s.files)
    requires s.files.claim.Some? && s.files.done.None?
    ensures var end := Next(Next(s, Reattached(p)), Finished(p, Failed, true));
            MayRelease(end.files, true) && end.files.prepared == s.files.prepared && end.host == s.host
  {
  }

  /**
   From every reachable state with PREPARED written, a release can still get through if and only if
   none has yet, no claim file is torn, and every scoped policy survives being written down.
   */
  lemma CanReleaseIff(states: seq<State>, events: seq<Event>, host: Host)
    requires IsRun(states, events, host) && states[|events|].files.prepared.Some?
    ensures var s := states[|events|];
            CanRelease(s) <==> !Blocked(s.files) && AllPlain(s.files.prepared.value)
  {
    var s := states[|events|];
    RunAgrees(states, events, host);
    RunRemembers(states, events, host);
    hide IsRun, Next, Agrees, Remembered;
    if !Blocked(s.files) && AllPlain(s.files.prepared.value) {
      ReleasePossible(s, host);
    }
    if CanRelease(s) {
      var more: seq<State>, moves: seq<Event>, a: Attempt :| Continues(more, moves, s) && !more[|moves|].files.released && Release(more[|moves|], a).files.released;
      BlockStays(more, moves, s);
      ReleaseTakes(more[|moves|], a);
    }
  }

  lemma ReleasePossible(s: State, original: Host)
    requires Agrees(s) && Remembered(s, original) && s.files.prepared.Some?
    requires !Blocked(s.files) && AllPlain(s.files.prepared.value)
    ensures CanRelease(s)
  {
    var more, moves := Unlock(s, original);
    ReleaseGoes(more[|moves|], original);
    hide Release, Continues, Remembered;
    assert !more[|moves|].files.released;
  }

  lemma ReleaseTakes(s: State, a: Attempt)
    requires !s.files.released && Release(s, a).files.released
    ensures s.files.prepared.Some? && !Blocked(s.files) && AllPlain(s.files.prepared.value)
  {
    RestoreGets(s.host, s.files.prepared.value, a.restores, a.late);
    hide Restore, Start;
  }

  /** The containers a release that starts any is to start. */
  ghost function ToStart(entries: seq<Entry>, allow: set<Container>): seq<Entry> {
    if entries == [] then []
    else (if entries[0].wasRunning || entries[0].id in allow then [entries[0]] else []) + ToStart(entries[1..], allow)
  }

  lemma {:induction false} RestoreSucceedsIff(host: Host, entries: seq<Entry>, reach: nat, late: bool)
    requires forall e | e in entries :: e.id in host
    ensures Restore(host, entries, reach, late).1 <==> AllPlain(entries) && |entries| <= reach
    decreases |entries|
  {
    if entries != [] {
      assert entries == [entries[0]] + entries[1..];
      FormatRoundTrips(entries[0].before);
      if reach > 0 {
        var e := entries[0];
        RestoreSucceedsIff(host[e.id := host[e.id].(policy := Applied(Format(e.before)))], entries[1..], reach - 1, late);
      }
    }
  }

  lemma {:induction false} StartSucceedsIff(host: Host, entries: seq<Entry>, allow: set<Container>, reach: nat)
    requires forall e | e in entries :: e.id in host
    ensures Start(host, entries, allow, reach).1 <==> |ToStart(entries, allow)| <= reach
    decreases |entries|
  {
    if entries != [] {
      var e, rest := entries[0], entries[1..];
      assert entries == [e] + rest;
      if !e.wasRunning && e.id !in allow {
        StartSucceedsIff(host, rest, allow, reach);
      } else if reach > 0 {
        StartSucceedsIff(host[e.id := host[e.id].(running := true)], rest, allow, reach - 1);
      }
    }
  }

  /**
   In every run, a release gets all the way through if and only if its questions are answered, every
   scoped policy survives being written down, and no command to the daemon fails: one per scoped
   container for the policies, and one per container to start if it starts any.
   */
  lemma ReleaseSucceedsIff(states: seq<State>, events: seq<Event>, host: Host, a: Attempt)
    requires IsRun(states, events, host) && !states[|events|].files.released
    ensures var s := states[|events|];
            Release(s, a).files.released <==>
            && MayRelease(s.files, a.durable)
            && var entries := s.files.prepared.value;
               && AllPlain(entries) && |entries| <= a.restores
               && (a.start ==> |ToStart(entries, a.allow)| <= a.starts)
  {
    var s := states[|events|];
    RunRemembers(states, events, host);
    hide Restore, Start, ToStart, AllPlain, IsRun;
    if MayRelease(s.files, a.durable) {
      var entries := s.files.prepared.value;
      RestoreSucceedsIff(s.host, entries, a.restores, a.late);
      RestoreIs(s.host, entries, a.restores, a.late);
      StartSucceedsIff(Restore(s.host, entries, a.restores, a.late).0, entries, a.allow, a.starts);
    }
  }

  // ── whether the policies can still come back ────────

  predicate Fencing(l: Local) {
    l.Surveyed? || l.Pinning? || l.Stopping?
  }

  /**
   One fence at a time, none once there is a manifest; and after a release every scoped container is
   on the policy it had, or has been pinned again.
   */
  ghost predicate Fenced(s: State) {
    && (forall p | p in s.procs && Fencing(s.procs[p]) :: s.files.lock == Some(p) && s.files.manifest.None?)
    && (s.files.released ==>
          s.files.prepared.Some? &&
          forall e | e in s.files.prepared.value ::
            e.id in s.host && s.host[e.id].policy in {Wanted(e.before), PINNED})
  }

  lemma StepFences(s: State, e: Event, original: Host)
    requires Fenced(s) && Remembered(s, original)
    ensures Fenced(Next(s, e))
  {
    hide Release, Fenced, Pin, Stop;
    match e
    case ReleaseTried(a) => ReleaseFences(s, a, original);
    case Pinned(p, changed, confirmed) => PinFences(s, p, changed, confirmed);
    case Stopped(p, confirmed) => StopFences(s, p, confirmed);
    case _ => RestFences(s, e);
  }

  lemma RestFences(s: State, e: Event)
    requires Fenced(s) && !e.ReleaseTried? && !e.Pinned? && !e.Stopped?
    ensures Fenced(Next(s, e))
  {
  }

  lemma PinFences(s: State, p: Process, changed: bool, confirmed: bool)
    requires Fenced(s)
    ensures Fenced(Pin(s, p, changed, confirmed))
  {
    hide Wanted;
  }

  lemma StopFences(s: State, p: Process, confirmed: bool)
    requires Fenced(s)
    ensures Fenced(Stop(s, p, confirmed))
  {
    hide Wanted;
  }

  lemma ReleaseFences(s: State, a: Attempt, original: Host)
    requires Fenced(s) && Remembered(s, original)
    ensures Fenced(Release(s, a))
  {
    if MayRelease(s.files, a.durable) {
      var entries := s.files.prepared.value;
      var (restored, ok) := Restore(s.host, entries, a.restores, a.late);
      hide Restore, Start, Wanted;
      if ok {
        StartIs(restored, entries, a.allow, a.starts);
        forall e | e in entries
          ensures e.id in restored && restored[e.id].policy == Wanted(e.before)
        {
          RestoreReaches(s.host, entries, a.restores, a.late, original, e);
        }
      }
    }
  }

  lemma {:induction false} RunFences(states: seq<State>, events: seq<Event>, host: Host)
    requires IsRun(states, events, host)
    ensures Fenced(states[|events|])
    decreases |events|
  {
    if events != [] {
      hide Next, Fenced, Remembered;
      var n := |events| - 1;
      RunFences(states[..n + 1], events[..n], host);
      RunRemembers(states[..n + 1], events[..n], host);
      assert states[..n + 1][n] == states[n];
      StepFences(states[n], events[n], host);
    }
  }

  /** Once no release will get through, a policy that is not back does not come back. */
  lemma StaysOff(s: State, x: Event, e: Entry)
    requires Agrees(s) && Fenced(s) && Blocked(s.files) && s.files.prepared.Some? && e in s.files.prepared.value
    requires e.id in s.host && !Back(s.host, e)
    ensures e.id in Next(s, x).host && Next(s, x).host[e.id].policy == s.host[e.id].policy
  {
    hide Restore, Start;
  }

  lemma {:induction false} BlockedForGood(states: seq<State>, events: seq<Event>, s: State, original: Host, e: Entry)
    requires Continues(states, events, s) && Agrees(s) && Fenced(s) && Remembered(s, original)
    requires Blocked(s.files) && s.files.prepared.Some? && e in s.files.prepared.value
    requires e.id in s.host && !Back(s.host, e)
    ensures var t := states[|events|]; e.id in t.host && t.host[e.id].policy == s.host[e.id].policy
    ensures Agrees(states[|events|]) && Fenced(states[|events|]) && Remembered(states[|events|], original)
    decreases |events|
  {
    if events != [] {
      hide Next, Agrees, Fenced, Remembered, Wanted;
      var n := |events| - 1;
      assert states[..n + 1][n] == states[n];
      BlockedForGood(states[..n + 1], events[..n], s, original, e);
      BlockStays(states[..n + 1], events[..n], s);
      StaysOff(states[n], events[n], e);
      StepAgrees(states[n], events[n]);
      StepFences(states[n], events[n], original);
      StepRemembers(states[n], events[n], original);
    }
  }

  /** A container whose policy was to be `no` is on it, pinned or not. */
  ghost predicate NeverOff(s: State) {
    s.files.prepared.Some? ==>
      forall e | e in s.files.prepared.value && Wanted(e.before) == PINNED :: Back(s.host, e)
  }

  lemma StepNeverOff(s: State, e: Event, original: Host)
    requires NeverOff(s) && Remembered(s, original)
    ensures NeverOff(Next(s, e))
  {
    hide NeverOff, Release, Pin, WritePrepared, Remembered;
    match e
    case ReleaseTried(a) => ReleaseNeverOff(s, a, original);
    case Pinned(p, changed, confirmed) => PinNeverOff(s, p, changed, confirmed);
    case PreparedWritten(p) => PreparedNeverOff(s, p, original);
    case _ => RestNeverOff(s, e);
  }

  lemma RestNeverOff(s: State, e: Event)
    requires NeverOff(s) && !e.ReleaseTried? && !e.Pinned? && !e.PreparedWritten?
    ensures NeverOff(Next(s, e))
  {
    hide Wanted;
  }

  lemma PinNeverOff(s: State, p: Process, changed: bool, confirmed: bool)
    requires NeverOff(s)
    ensures NeverOff(Pin(s, p, changed, confirmed))
  {
  }

  lemma PreparedNeverOff(s: State, p: Process, original: Host)
    requires NeverOff(s) && Remembered(s, original)
    ensures NeverOff(WritePrepared(s, p))
  {
    hide Wanted;
  }

  lemma ReleaseNeverOff(s: State, a: Attempt, original: Host)
    requires NeverOff(s) && Remembered(s, original)
    ensures NeverOff(Release(s, a))
  {
    if MayRelease(s.files, a.durable) {
      var entries := s.files.prepared.value;
      forall e | e in entries && Wanted(e.before) == PINNED
        ensures Back(Restore(s.host, entries, a.restores, a.late).0, e)
      {
        RestoreKeepsOff(s.host, entries, a.restores, a.late, original, e);
      }
      hide Restore, Wanted;
      StartIs(Restore(s.host, entries, a.restores, a.late).0, entries, a.allow, a.starts);
      hide Start;
    }
  }

  lemma {:induction false} RestoreKeepsOff(host: Host, entries: seq<Entry>, reach: nat, late: bool, original: Host, e: Entry)
    requires Tells(entries, original) && e.id in original && e.before == original[e.id].policy
    requires Back(host, e) && Wanted(e.before) == PINNED
    ensures Back(Restore(host, entries, reach, late).0, e)
    decreases |entries|
  {
    if entries != [] {
      TellsOf(entries, original);
      var first := entries[0];
      assert first in entries;
      if first.id in host && reach > 0 {
        RestoreKeepsOff(host[first.id := host[first.id].(policy := Applied(Format(first.before)))], entries[1..],
                        reach - 1, late, original, e);
      }
    }
  }

  lemma {:induction false} RunNeverOff(states: seq<State>, events: seq<Event>, host: Host)
    requires IsRun(states, events, host)
    ensures NeverOff(states[|events|])
    decreases |events|
  {
    if events != [] {
      hide Next, NeverOff, Remembered;
      var n := |events| - 1;
      RunNeverOff(states[..n + 1], events[..n], host);
      RunRemembers(states[..n + 1], events[..n], host);
      assert states[..n + 1][n] == states[n];
      StepNeverOff(states[n], events[n], host);
    }
  }

  /**
   From every reachable state with PREPARED written, some continuation has every scoped container on
   the policy it had before the first attempt if and only if they are all back already; or no release
   got through yet, no claim file is torn, and each is back or comes, in the order of PREPARED, before
   the first policy that does not survive being written down.
   */
  lemma PoliciesReturnIff(states: seq<State>, events: seq<Event>, host: Host)
    requires IsRun(states, events, host) && states[|events|].files.prepared.Some?
    ensures var s := states[|events|];
            var entries := s.files.prepared.value;
            (exists more, moves :: Continues(more, moves, s) && AllBack(more[|moves|])) <==>
            AllBack(s) || (!Blocked(s.files) && forall e | e in entries :: Back(s.host, e) || InReach(entries, e.id))
  {
    var s := states[|events|];
    RunAgrees(states, events, host);
    RunRemembers(states, events, host);
    RunFences(states, events, host);
    RunNeverOff(states, events, host);
    hide IsRun, Next, Agrees, Remembered, Fenced, NeverOff, Back, InReach;
    var entries := s.files.prepared.value;
    if !Blocked(s.files) && forall e | e in entries :: Back(s.host, e) || InReach(entries, e.id) {
      var more, moves := BringBack(s, host);
    }
    if AllBack(s) {
      assert Continues([s], [], s) && AllBack([s][0]);
    }
    if Blocked(s.files) && !AllBack(s) {
      var e :| e in entries && !Back(s.host, e);
      InHost(s, host, e);
      forall more: seq<State>, moves: seq<Event> | Continues(more, moves, s)
        ensures !AllBack(more[|moves|])
      {
        BlockedForGood(more, moves, s, host, e);
        BlockStays(more, moves, s);
        SamePolicy(s.host, more[|moves|].host, e);
      }
    } else if exists e | e in entries :: !Back(s.host, e) && !InReach(entries, e.id) {
      var e :| e in entries && !Back(s.host, e) && !InReach(entries, e.id);
      InHost(s, host, e);
      forall more: seq<State>, moves: seq<Event> | Continues(more, moves, s)
        ensures !AllBack(more[|moves|])
      {
        StuckForGood(more, moves, s, host, e);
        BlockStays(more, moves, s);
      }
    }
  }

  lemma InHost(s: State, original: Host, e: Entry)
    requires Remembered(s, original) && NeverOff(s) && s.files.prepared.Some? && e in s.files.prepared.value && !Back(s.host, e)
    ensures e.id in s.host && Wanted(e.before) != PINNED
  {
    hide Wanted;
  }

  lemma SamePolicy(host: Host, after: Host, e: Entry)
    requires e.id in host && e.id in after && after[e.id].policy == host[e.id].policy && !Back(host, e)
    ensures !Back(after, e)
  {
  }

  // out of reach of every restore

  lemma ReachGrows(entries: seq<Entry>, c: Container)
    requires entries != [] && Plain(entries[0].before)
    ensures entries[0].id == c || InReach(entries[1..], c) ==> InReach(entries, c)
  {
    var first, rest := entries[0], entries[1..];
    assert entries[..1] == [first];
    if InReach(rest, c) {
      var i :| 0 <= i < |rest| && rest[i].id == c && AllPlain(rest[..i + 1]);
      assert entries[..(i + 1) + 1] == [first] + rest[..i + 1];
      assert entries[i + 1].id == c;
    } else if first.id == c {
      assert entries[0].id == c && AllPlain(entries[..0 + 1]);
    }
  }

  /** A restore stops at the first policy that does not come back, and leaves that one changed. */
  lemma {:induction false} RestoreMisses(host: Host, entries: seq<Entry>, reach: nat, late: bool, original: Host, e: Entry)
    requires Tells(entries, original) && e.id in original && e.before == original[e.id].policy
    requires !InReach(entries, e.id) && e.id in host && !Back(host, e)
    ensures var after := Restore(host, entries, reach, late).0;
            e.id in after && !Back(after, e)
    decreases |entries|
  {
    if entries != [] {
      var first, rest := entries[0], entries[1..];
      TellsOf(entries, original);
      assert first in entries;
      FormatRoundTrips(first.before);
      if Plain(first.before) {
        ReachGrows(entries, e.id);
        if first.id in host && reach > 0 {
          hide InReach, Format, Applied, Wanted;
          RestoreMisses(host[first.id := host[first.id].(policy := Applied(Format(first.before)))], rest, reach - 1,
                        late, original, e);
        }
      }
    }
  }

  lemma StuckStays(s: State, x: Event, e: Entry, original: Host)
    requires Remembered(s, original) && s.files.prepared.Some? && e in s.files.prepared.value
    requires !InReach(s.files.prepared.value, e.id) && e.id in s.host && !Back(s.host, e) && Wanted(e.before) != PINNED
    ensures e.id in Next(s, x).host && !Back(Next(s, x).host, e)
  {
    hide InReach;
    if x.ReleaseTried? {
      if MayRelease(s.files, x.attempt.durable) {
        var entries, a := s.files.prepared.value, x.attempt;
        RestoreMisses(s.host, entries, a.restores, a.late, original, e);
        StartIs(Restore(s.host, entries, a.restores, a.late).0, entries, a.allow, a.starts);
        hide Restore, Start, Wanted, Format, Applied;
      }
    } else {
      StuckElsewhere(s, x, e);
    }
  }

  lemma StuckElsewhere(s: State, x: Event, e: Entry)
    requires !x.ReleaseTried? && e.id in s.host && !Back(s.host, e) && Wanted(e.before) != PINNED
    ensures e.id in Next(s, x).host && !Back(Next(s, x).host, e)
  {
  }

  lemma {:induction false} StuckForGood(states: seq<State>, events: seq<Event>, s: State, original: Host, e: Entry)
    requires Continues(states, events, s) && Remembered(s, original)
    requires s.files.prepared.Some? && e in s.files.prepared.value && Wanted(e.before) != PINNED
    requires !InReach(s.files.prepared.value, e.id) && e.id in s.host && !Back(s.host, e)
    ensures var t := states[|events|]; e.id in t.host && !Back(t.host, e) && Remembered(t, original)
    decreases |events|
  {
    if events != [] {
      hide Next, Remembered, Back, InReach, Wanted;
      var n := |events| - 1;
      assert states[..n + 1][n] == states[n];
      StuckForGood(states[..n + 1], events[..n], s, original, e);
      BlockStays(states[..n + 1], events[..n], s);
      StuckStays(states[n], events[n], e, original);
      StepRemembers(states[n], events[n], original);
    }
  }

  /** A policy that does not survive being written down is lost with the first change to it. */
  lemma OddPolicyIsLost(s: State, x: Event, e: Entry, original: Host)
    requires Remembered(s, original) && s.files.prepared.Some? && e in s.files.prepared.value && !Plain(e.before)
    requires e.id in s.host && !Back(s.host, e)
    ensures e.id in Next(s, x).host && !Back(Next(s, x).host, e)
  {
    var entries := s.files.prepared.value;
    assert !InReach(entries, e.id) by {
      forall i | 0 <= i < |entries| && entries[i].id == e.id
        ensures !AllPlain(entries[..i + 1])
      {
        assert entries[i] in entries && entries[..i + 1][i] == entries[i];
      }
    }
    hide InReach, Next, Remembered;
    StuckStays(s, x, e, original);
  }

  // within reach

  /** How far a restore gets. */
  ghost function PlainPrefix(entries: seq<Entry>): (n: nat)
    ensures n <= |entries| && AllPlain(entries[..n]) && (n < |entries| ==> !Plain(entries[n].before))
  {
    if entries == [] || !Plain(entries[0].before) then 0
    else
      var n := PlainPrefix(entries[1..]);
      assert entries[..n + 1] == [entries[0]] + entries[1..][..n];
      n + 1
  }

  lemma PlainUpTo(entries: seq<Entry>, m: nat)
    requires m <= |entries| && AllPlain(entries[..m])
    ensures forall k | 0 <= k < m :: Plain(entries[k].before)
  {
    assert forall k | 0 <= k < m :: entries[k] in entries[..m];
  }

  lemma ReachIsPrefix(entries: seq<Entry>, c: Container)
    requires InReach(entries, c)
    ensures exists e :: e in entries[..PlainPrefix(entries)] && e.id == c
  {
    var n := PlainPrefix(entries);
    var i :| 0 <= i < |entries| && entries[i].id == c && AllPlain(entries[..i + 1]);
    PlainUpTo(entries, i + 1);
    assert i < n;
    assert entries[..n][i] == entries[i];
  }

  /** A restore that stops after `n` plain policies has put those back and touched nothing else. */
  lemma {:induction false} PrefixRestores(host: Host, entries: seq<Entry>, n: nat, original: Host, e: Entry)
    requires n <= |entries| && AllPlain(entries[..n]) && Tells(entries, original) && host.Keys == original.Keys
    requires e.id in original && e.before == original[e.id].policy
    requires Back(host, e) || exists x :: x in entries[..n] && x.id == e.id
    ensures Back(Restore(host, entries, n, false).0, e)
    decreases n
  {
    if n > 0 {
      var first, rest := entries[0], entries[1..];
      TellsOf(entries, original);
      assert first in entries && entries[..n][0] == first;
      FormatRoundTrips(first.before);
      assert entries[..n] == [first] + rest[..n - 1];
      var mid := host[first.id := host[first.id].(policy := Applied(Format(first.before)))];
      assert Applied(Format(first.before)) == Wanted(first.before) && Wanted(Wanted(first.before)) == Wanted(first.before);
      hide Restore, Format, Applied, Wanted, AllPlain;
      assert first.id == e.id ==> Back(mid, e);
      assert AllPlain(rest[..n - 1]) by { PlainTail(entries[..n]); }
      PrefixRestores(mid, rest, n - 1, original, e);
      RestoreGoesOn(host, entries, n);
    }
  }

  lemma PlainTail(entries: seq<Entry>)
    requires AllPlain(entries) && entries != []
    ensures AllPlain(entries[1..])
  {
  }

  lemma RestoreGoesOn(host: Host, entries: seq<Entry>, n: nat)
    requires n > 0 && entries != [] && entries[0].id in host && Plain(entries[0].before)
    ensures var first := entries[0];
            Restore(host, entries, n, false).0 ==
            Restore(host[first.id := host[first.id].(policy := Applied(Format(first.before)))], entries[1..], n - 1, false).0
  {
    FormatRoundTrips(entries[0].before);
    hide Format, Applied, Wanted;
  }

  lemma BringBack(s: State, original: Host) returns (more: seq<State>, moves: seq<Event>)
    requires Agrees(s) && Remembered(s, original) && s.files.prepared.Some? && !Blocked(s.files)
    requires var entries := s.files.prepared.value;
             forall e | e in entries :: Back(s.host, e) || InReach(entries, e.id)
    ensures Continues(more, moves, s) && AllBack(more[|moves|])
  {
    var states, events := Unlock(s, original);
    var t := states[|events|];
    var entries := s.files.prepared.value;
    var a := ReleaseTried(WHOLE.(restores := PlainPrefix(entries)));
    var end := Release(t, a.attempt);
    assert Next(t, a) == end;
    hide Next, Agrees, Restore, Back, InReach;
    forall e | e in entries
      ensures Back(end.host, e)
    {
      if InReach(entries, e.id) {
        ReachIsPrefix(entries, e.id);
      }
      PrefixRestores(t.host, entries, PlainPrefix(entries), original, e);
    }
    hide Release, Remembered;
    more, moves := states + [end], events + [a];
  }

  // ── a torn claim ────────────────────────────────────

  ghost function TornClaim(): State {
    State(DOWN, Quiet1().(claim := Some(Torn)), map[], 1, {}, 0)
  }

  /** A process that dies between creating the claim file and writing it leaves the containers pinned. */
  lemma TornClaimStrands()
    ensures Reached(TornClaim(), ONE) && ONE[5].policy.name != "no" && !CanRelease(TornClaim())
    ensures forall states: seq<State>, events: seq<Event> | Continues(states, events, TornClaim()) ::
              5 in states[|events|].host && states[|events|].host[5].policy.name == "no"
  {
    var s0 := State(DOWN, Quiet1(), map[], 1, {}, 0);
    var s1 := State(DOWN, Quiet1(), map[2 := Checked(0)], 1, {}, 0);
    var s := TornClaim();
    assert Next(s0, ClaimChecked(2)) == s1 && Next(s1, ClaimCreated(2, true)) == s;
    hide Reached, Next, Release;
    QuiescedReached();
    ReachNext(s0, ClaimChecked(2), ONE, s1);
    ReachNext(s1, ClaimCreated(2, true), ONE, s);
    TornStays();
  }

  lemma TornStays()
    requires Reached(TornClaim(), ONE)
    ensures !CanRelease(TornClaim())
    ensures forall states: seq<State>, events: seq<Event> | Continues(states, events, TornClaim()) ::
              5 in states[|events|].host && states[|events|].host[5].policy.name == "no"
  {
    var s := TornClaim();
    var states, events :| IsRun(states, events, ONE) && states[|events|] == s;
    hide Next, Release, Continues, CanRelease;
    CanReleaseIff(states, events, ONE);
    RunAgrees(states, events, ONE);
    RunRemembers(states, events, ONE);
    RunFences(states, events, ONE);
    hide IsRun, Agrees, Remembered, Fenced;
    forall more: seq<State>, moves: seq<Event> | Continues(more, moves, s)
      ensures 5 in more[|moves|].host && more[|moves|].host[5].policy.name == "no"
    {
      assert ENTRIES[0] in s.files.prepared.value;
      BlockedForGood(more, moves, s, ONE, ENTRIES[0]);
    }
  }
}
