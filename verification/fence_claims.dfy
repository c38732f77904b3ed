/** What every interleaving of the fence's processes keeps: one claim, one apply, one ending. */
module FenceClaims {
  import opened Wrappers
  import opened Fence

  /** The claim a process speaks for, if it speaks for one. */
  function Speaks(l: Local): Option<(nat, nat)> {
    match l
    case Holding(id, lease) => Some((id, lease))
    case Beginning(id, lease) => Some((id, lease))
    case Marking(id, lease, _) => Some((id, lease))
    case Begun(id, lease, _) => Some((id, lease))
    case _ => None
  }

  ghost predicate IsClaim(f: Files, id: nat, lease: nat) {
    f.claim.Some? && f.claim.value.Claim? && f.claim.value.id == id && f.claim.value.lease == lease
  }

  /** What the files say agrees with what was handed out. */
  ghost predicate FilesAgree(s: State) {
    var f := s.files;
    && (f.claim.None? || f.claim.value.Torn? ==> s.issued == {})
    && (f.claim.Some? ==> f.manifest.Some?)
    && (f.claim.Some? && f.claim.value.Claim? ==>
          s.issued == {f.claim.value.id} && f.manifest == Some(f.claim.value.lease))
    && (f.done.None? && f.claim.Some? && f.claim.value.Claim? ==> f.claim.value.state in {Claimed, Applying})
    && (f.done.Some? ==>
          IsClaim(f, f.done.value.id, f.done.value.lease) && f.done.value.outcome in {Completed, Failed})
    && (f.done.Some? && f.done.value.outcome == Completed ==> s.begun == 1)
    && (f.claim.Some? && f.claim.value.Claim? && f.claim.value.state in {Applying, Completed} ==> s.begun == 1)
    && (f.applying.None? ==> s.begun == 0)
    && s.begun <= 1
  }

  ghost predicate ProcsAgree(s: State) {
    && (forall p | p in s.procs && s.procs[p].Checked? :: s.files.manifest == Some(s.procs[p].lease))
    && (forall p | p in s.procs && Speaks(s.procs[p]).Some? ::
          IsClaim(s.files, Speaks(s.procs[p]).value.0, Speaks(s.procs[p]).value.1))
    && (forall p | p in s.procs && s.procs[p].Marking? :: s.begun == 0 && s.files.applying == Some(s.procs[p].apply))
    && (forall p, q | p in s.procs && q in s.procs && s.procs[p].Marking? && s.procs[q].Marking? :: p == q)
    && (forall p | p in s.procs && (s.procs[p].Beginning? || s.procs[p].Marking?) ::
          s.files.released ==> s.files.done.Some?)
  }

  ghost predicate Agrees(s: State) {
    FilesAgree(s) && ProcsAgree(s)
  }

  lemma StepAgrees(s: State, e: Event)
    requires Agrees(s)
    ensures Agrees(Next(s, e))
  {
    hide Restore, Start, Release, CreateClaim, Finish, MarkApplying, WriteManifest, Pin, Stop, WritePrepared, Reattach,
         CheckBegin, CreateMarker, StartFence, RemoveLock, CheckClaim, Agrees, Quiet, Refuse;
    match e
    case FenceStarted(p, scope) => QuietAgrees(s, StartFence(s, p, scope), p) by { StartIsQuiet(s, p, scope); }
    case FenceRefused(p) => QuietAgrees(s, Refuse(s, p), p) by { RefuseIsQuiet(s, p); }
    case Died(p) => DeathAgrees(s, p);
    case LockRemoved => LockAgrees(s);
    case ClaimChecked(p) => CheckClaimAgrees(s, p);
    case PreparedWritten(p) => QuietAgrees(s, WritePrepared(s, p), p) by { PreparedIsQuiet(s, p); }
    case Pinned(p, changed, confirmed) => QuietAgrees(s, Pin(s, p, changed, confirmed), p) by { PinIsQuiet(s, p, changed, confirmed); }
    case Stopped(p, confirmed) => QuietAgrees(s, Stop(s, p, confirmed), p) by { StopIsQuiet(s, p, confirmed); }
    case ManifestWritten(p) => ManifestAgrees(s, p);
    case ClaimCreated(p, torn) => ClaimAgrees(s, p, torn);
    case Reattached(p) => ReattachAgrees(s, p);
    case BeginChecked(p) => CheckAgrees(s, p);
    case BeginCreated(p) => MarkerAgrees(s, p);
    case BeginMarked(p) => MarkAgrees(s, p);
    case Finished(p, outcome, mirrored) => FinishAgrees(s, p, outcome, mirrored);
    case ReleaseTried(a) => ReleaseAgrees(s, a);
  }

  /** A step that moves only one process, and among the files only the lock or PREPARED. */
  ghost predicate Quiet(s: State, next: State, p: Process) {
    && next.files == s.files.(lock := next.files.lock, prepared := next.files.prepared)
    && next.issued == s.issued && next.begun == s.begun
    && (forall q | q in next.procs && q != p :: q in s.procs && next.procs[q] == s.procs[q])
    && (p in next.procs ==>
          (p in s.procs && next.procs[p] == s.procs[p]) || next.procs[p].Pinning? || next.procs[p].Stopping? ||
          next.procs[p].Surveyed?)
  }

  lemma QuietAgrees(s: State, next: State, p: Process)
    requires Agrees(s) && Quiet(s, next, p)
    ensures Agrees(next)
  {
  }

  lemma StartIsQuiet(s: State, p: Process, scope: seq<Container>)
    ensures Quiet(s, StartFence(s, p, scope), p)
  {
  }

  lemma RefuseIsQuiet(s: State, p: Process)
    ensures Quiet(s, Refuse(s, p), p)
  {
  }

  lemma DeathAgrees(s: State, p: Process)
    requires Agrees(s)
    ensures Agrees(s.(procs := s.procs - {p}))
  {
  }

  lemma LockAgrees(s: State)
    requires Agrees(s)
    ensures Agrees(RemoveLock(s))
  {
  }

  lemma CheckClaimAgrees(s: State, p: Process)
    requires Agrees(s)
    ensures Agrees(CheckClaim(s, p))
  {
  }

  lemma PreparedIsQuiet(s: State, p: Process)
    ensures Quiet(s, WritePrepared(s, p), p)
  {
  }

  lemma PinIsQuiet(s: State, p: Process, changed: bool, confirmed: bool)
    ensures Quiet(s, Pin(s, p, changed, confirmed), p)
  {
  }

  lemma StopIsQuiet(s: State, p: Process, confirmed: bool)
    ensures Quiet(s, Stop(s, p, confirmed), p)
  {
  }

  lemma ManifestAgrees(s: State, p: Process)
    requires Agrees(s)
    ensures Agrees(WriteManifest(s, p))
  {
  }

  lemma ClaimAgrees(s: State, p: Process, torn: bool)
    requires Agrees(s)
    ensures Agrees(CreateClaim(s, p, torn))
  {
  }

  lemma ReattachAgrees(s: State, p: Process)
    requires Agrees(s)
    ensures Agrees(Reattach(s, p))
  {
  }

  lemma CheckAgrees(s: State, p: Process)
    requires Agrees(s)
    ensures Agrees(CheckBegin(s, p))
  {
  }

  lemma MarkerAgrees(s: State, p: Process)
    requires Agrees(s)
    ensures Agrees(CreateMarker(s, p))
  {
  }

  lemma MarkAgrees(s: State, p: Process)
    requires Agrees(s)
    ensures Agrees(MarkApplying(s, p))
  {
  }

  lemma FinishAgrees(s: State, p: Process, outcome: ClaimState, mirrored: bool)
    requires Agrees(s)
    ensures Agrees(Finish(s, p, outcome, mirrored))
  {
  }

  lemma ReleaseAgrees(s: State, a: Attempt)
    requires Agrees(s)
    ensures Agrees(Release(s, a))
  {
    hide Restore, Start;
  }

  lemma {:induction false} RunAgrees(states: seq<State>, events: seq<Event>, host: Host)
    requires IsRun(states, events, host)
    ensures Agrees(states[|events|])
    decreases |events|
  {
    hide Next, Agrees;
    if events == [] {
      StartAgrees(host);
    } else {
      var n := |events| - 1;
      RunAgrees(states[..n + 1], events[..n], host);
      assert states[..n + 1][n] == states[n];
      StepAgrees(states[n], events[n]);
    }
  }

  lemma StartAgrees(host: Host)
    ensures Agrees(Starts(host))
  {
  }

  // ── the claim lifecycle ─────────────────────────────

  /**
   However many processes claim, reattach, begin and finish, and wherever they die: at most one
   claim id is ever handed out, a claim is rewritten to APPLYING at most once, and COMPLETED is only
   recorded after it was, for that claim.
   */
  lemma ClaimIsOneShot(states: seq<State>, events: seq<Event>, host: Host)
    requires IsRun(states, events, host)
    ensures var s := states[|events|];
            && |s.issued| <= 1 && s.begun <= 1
            && (s.files.done.Some? ==> s.issued == {s.files.done.value.id})
            && (s.files.done.Some? && s.files.done.value.outcome == Completed ==> s.begun == 1)
  {
    hide Next;
    RunAgrees(states, events, host);
  }

  /** Once a terminal outcome is recorded no step changes it. */
  lemma FirstOutcomeStands(s: State, e: Event)
    requires s.files.done.Some?
    ensures Next(s, e).files.done == s.files.done
  {
    hide Restore, Start;
  }

  /** A claim once created is never taken back, and never becomes another. */
  lemma ClaimStands(s: State, e: Event)
    requires s.files.claim.Some?
    ensures Next(s, e).files.claim.Some?
    ensures s.files.claim.value.Claim? ==>
              var c := Next(s, e).files.claim.value;
              c.Claim? && c.id == s.files.claim.value.id && c.lease == s.files.claim.value.lease
  {
    hide Restore, Start;
  }

  // ── release and the live claim ──────────────────────

  /** A container let go: off policy `no`, or up where it was down. */
  ghost predicate LetGo(before: Host, after: Host, c: Container) {
    && c in before && c in after
    && ((before[c].policy.name == "no" && after[c].policy.name != "no") || (!before[c].running && after[c].running))
  }

  /**
   Nothing this code does lets a container go between a won claim and its end: in every run, the
   only step that does so is a release, and then either no claim was ever created, or the terminal
   record of that very claim, lease and manifest is there.
   */
  lemma ReleaseSparesLiveClaim(states: seq<State>, events: seq<Event>, host: Host, e: Event, c: Container)
    requires IsRun(states, events, host)
    requires LetGo(states[|events|].host, Next(states[|events|], e).host, c)
    ensures var s := states[|events|];
            && e.ReleaseTried?
            && (s.files.claim.Some? ==>
                  && s.files.done.Some? && s.files.done.value.outcome in {Completed, Failed}
                  && IsClaim(s.files, s.files.done.value.id, s.files.done.value.lease)
                  && s.files.manifest == Some(s.files.done.value.lease)
                  && s.issued == {s.files.done.value.id})
            && (s.files.claim.None? ==> s.issued == {} && s.files.done.None?)
  {
    RunAgrees(states, events, host);
    hide IsRun, Restore, Start;
    OnlyReleaseLetsGo(states[|events|], e, c);
  }

  lemma OnlyReleaseLetsGo(s: State, e: Event, c: Container)
    requires LetGo(s.host, Next(s, e).host, c)
    ensures e.ReleaseTried? && MayRelease(s.files, e.attempt.durable)
  {
    hide Restore, Start;
  }

  ghost predicate Quiesced(s: State, c: Container) {
    c in s.host && s.host[c].policy.name == "no" && !s.host[c].running
  }

  ghost predicate LiveClaim(s: State) {
    s.files.claim.Some? && s.files.done.None?
  }

  /** While a claim is live, what is pinned and stopped stays so, whatever anybody tries. */
  lemma {:induction false} LiveClaimHolds(states: seq<State>, events: seq<Event>, from: nat, c: Container)
    requires |states| == |events| + 1 && from <= |events|
    requires forall i | 0 <= i < |events| :: states[i + 1] == Next(states[i], events[i])
    requires LiveClaim(states[from]) && LiveClaim(states[|events|]) && Quiesced(states[from], c)
    ensures Quiesced(states[|events|], c)
    decreases |events|
  {
    hide Next, Quiesced, LiveClaim;
    if from < |events| {
      var n := |events| - 1;
      LiveBefore(states, events, from, n);
      assert states[..n + 1][n] == states[n] && states[..n + 1][from] == states[from];
      LiveClaimHolds(states[..n + 1], events[..n], from, c);
      StaysQuiesced(states[n], events[n], c);
    }
  }

  lemma {:induction false} LiveBefore(states: seq<State>, events: seq<Event>, from: nat, n: nat)
    requires |states| == |events| + 1 && from <= n <= |events|
    requires forall i | 0 <= i < |events| :: states[i + 1] == Next(states[i], events[i])
    requires LiveClaim(states[from]) && LiveClaim(states[|events|])
    ensures LiveClaim(states[n])
    decreases n - from
  {
    hide Next;
    ClaimsStay(states, events, from, n);
    DoneStays(states, events, n, |events|);
  }

  lemma {:induction false} ClaimsStay(states: seq<State>, events: seq<Event>, i: nat, j: nat)
    requires |states| == |events| + 1 && i <= j <= |events| && states[i].files.claim.Some?
    requires forall k | 0 <= k < |events| :: states[k + 1] == Next(states[k], events[k])
    ensures states[j].files.claim.Some?
    decreases j - i
  {
    hide Next;
    if i < j {
      ClaimStands(states[i], events[i]);
      ClaimsStay(states, events, i + 1, j);
    }
  }

  lemma {:induction false} DoneStays(states: seq<State>, events: seq<Event>, i: nat, j: nat)
    requires |states| == |events| + 1 && i <= j <= |events|
    requires forall k | 0 <= k < |events| :: states[k + 1] == Next(states[k], events[k])
    ensures states[i].files.done.Some? ==> states[j].files.done == states[i].files.done
    decreases j - i
  {
    hide Next;
    if i < j && states[i].files.done.Some? {
      FirstOutcomeStands(states[i], events[i]);
      DoneStays(states, events, i + 1, j);
    }
  }

  lemma StaysQuiesced(s: State, e: Event, c: Container)
    requires LiveClaim(s) && Quiesced(s, c)
    ensures Quiesced(Next(s, e), c)
  {
    hide Restore, Start;
  }

  // ── what a returned begin_apply may rely on ─────────

  /** The step that recorded the terminal outcome, of which there is at most one. */
  ghost predicate Records(states: seq<State>, events: seq<Event>, i: nat)
    requires |states| == |events| + 1
  {
    i < |events| && states[i].files.done.None? && states[i + 1].files.done.Some?
  }

  ghost predicate Mirrors(f: Files) {
    f.done.Some? && f.claim.Some? && f.claim.value.Claim? && f.claim.value.state == f.done.value.outcome
  }

  /** The live claim still says what it said before the outcome was recorded. */
  ghost predicate Unmirrored(f: Files) {
    f.done.Some? && f.claim.Some? && f.claim.value.Claim? && f.claim.value.state in {Claimed, Applying}
  }

  /** Only `_finish` records an outcome, and what it rewrites then is all that is ever rewritten of it. */
  lemma RecordedBy(s: State, e: Event)
    requires Agrees(s) && s.files.done.None? && Next(s, e).files.done.Some?
    ensures e.Finished? && if e.mirrored then Mirrors(Next(s, e).files) else Unmirrored(Next(s, e).files)
  {
    hide Restore, Start, ProcsAgree;
  }

  lemma MirrorStays(s: State, e: Event)
    requires Agrees(s) && s.files.done.Some?
    ensures Mirrors(s.files) ==> Mirrors(Next(s, e).files)
    ensures Unmirrored(s.files) ==> Unmirrored(Next(s, e).files)
  {
    hide Restore, Start, ProcsAgree;
  }

  /** At the end of a run with an outcome on record, the live claim shows it or not, as it was left. */
  lemma {:induction false} RecordedOnce(states: seq<State>, events: seq<Event>, host: Host) returns (i: nat)
    requires IsRun(states, events, host) && states[|events|].files.done.Some?
    ensures Records(states, events, i) && events[i].Finished?
    ensures if events[i].mirrored then Mirrors(states[|events|].files) else Unmirrored(states[|events|].files)
    ensures forall j: nat | Records(states, events, j) :: j == i
    decreases |events|
  {
    hide Next, Mirrors, Unmirrored, Agrees;
    var n := |events| - 1;
    RunAgrees(states[..n + 1], events[..n], host);
    assert states[..n + 1][n] == states[n];
    if states[n].files.done.None? {
      RecordedBy(states[n], events[n]);
      i := n;
      forall j: nat | Records(states, events, j)
        ensures j == i
      {
        DoneStays(states, events, j + 1, n + 1);
        if j < n {
          DoneStays(states, events, j + 1, n);
        }
      }
    } else {
      i := RecordedOnce(states[..n + 1], events[..n], host);
      MirrorStays(states[n], events[n]);
      assert states[..n + 1][i] == states[i] && states[..n + 1][i + 1] == states[i + 1];
      forall j: nat | Records(states, events, j)
        ensures j == i
      {
        DoneStays(states, events, n, n);
        assert j < n ==> Records(states[..n + 1], events[..n], j);
      }
    }
  }

  /**
   begin_apply, past its exclusive create, gets the claim to APPLYING, and so may return, if and only
   if no outcome was recorded whose rewrite of the live claim went through: it looks at nothing else
   again. So it does on a finished claim exactly when the step that recorded the outcome left the live
   claim as it was.
   */
  lemma BeginReturnsIff(states: seq<State>, events: seq<Event>, host: Host, p: Process)
    requires IsRun(states, events, host)
    requires At(states[|events|], p).Some? && states[|events|].procs[p].Marking?
    ensures var s := states[|events|];
            var back := Next(s, BeginMarked(p)).begun == s.begun + 1;
            && IsClaim(s.files, s.procs[p].id, s.procs[p].lease)
            && (back <==> !exists i: nat :: Records(states, events, i) && events[i].Finished? && events[i].mirrored)
            && (back ==>
                  (s.files.done.Some? <==> exists i: nat :: Records(states, events, i) && events[i].Finished? && !events[i].mirrored))
            && (back && s.files.released ==> s.files.done.Some?)
  {
    hide Next, Mirrors, Unmirrored, Agrees;
    var s := states[|events|];
    RunAgrees(states, events, host);
    if s.files.done.Some? {
      var i := RecordedOnce(states, events, host);
      MarkingReturns(s, p);
      assert Records(states, events, i) && events[i].Finished?;
    } else {
      MarkingReturns(s, p);
      forall i: nat | Records(states, events, i)
        ensures false
      {
        DoneStays(states, events, i + 1, |events|);
      }
    }
  }

  lemma MarkingReturns(s: State, p: Process)
    requires Agrees(s) && At(s, p).Some? && s.procs[p].Marking?
    ensures Next(s, BeginMarked(p)).begun == s.begun + 1 <==> s.files.done.None? || Unmirrored(s.files)
    ensures Mirrors(s.files) ==> !Unmirrored(s.files)
    ensures IsClaim(s.files, s.procs[p].id, s.procs[p].lease) && (s.files.released ==> s.files.done.Some?)
  {
  }

  /** When no rewrite of the live claim fails, it gets there only on a claim unfinished and a fence not released. */
  lemma BeginReturnsActive(states: seq<State>, events: seq<Event>, host: Host, p: Process)
    requires IsRun(states, events, host) && forall i | 0 <= i < |events| :: events[i].Finished? ==> events[i].mirrored
    requires Next(states[|events|], BeginMarked(p)).begun != states[|events|].begun
    ensures var s := states[|events|];
            && s.files.done.None? && !s.files.released
            && At(s, p).Some? && s.procs[p].Marking? && IsClaim(s.files, s.procs[p].id, s.procs[p].lease)
  {
    MarksOnce(states[|events|], p);
    BeginReturnsIff(states, events, host, p);
    hide Next;
  }

  lemma MarksOnce(s: State, p: Process)
    requires Next(s, BeginMarked(p)).begun != s.begun
    ensures At(s, p).Some? && s.procs[p].Marking? && Next(s, BeginMarked(p)).begun == s.begun + 1
  {
  }

  // ── two runs the records do not prevent ─────────────

  ghost predicate Reached(s: State, host: Host) {
    exists states, events :: IsRun(states, events, host) && states[|events|] == s
  }

  lemma ReachStart(host: Host)
    ensures Reached(Starts(host), host)
  {
    assert IsRun([Starts(host)], [], host);
  }

  lemma ReachNext(s: State, e: Event, host: Host, next: State)
    requires Reached(s, host) && next == Next(s, e)
    ensures Reached(next, host)
  {
    hide Next, Starts;
    var states, events :| IsRun(states, events, host) && states[|events|] == s;
    assert IsRun(states + [next], events + [e], host);
    assert (states + [next])[|events + [e]|] == next;
  }

  const ALWAYS := Policy("always", 0)

  /** One container, running, that the daemon restarts always. */
  const ONE: Host := map[5 := Box(ALWAYS, true)]

  const ENTRIES := [Entry(5, ALWAYS, true)]

  ghost function Noted(lock: Option<Process>, released: bool): Files {
    Files(lock, Some(ENTRIES), None, None, None, None, released)
  }

  /** The first attempt gets as far as pinning the container. */
  lemma FirstPin()
    ensures Reached(State(map[5 := Box(PINNED, true)], Noted(Some(1), false), map[1 := Pinning(1)], 0, {}, 0), ONE)
  {
    hide Reached;
    var s0 := Starts(ONE);
    var s1 := State(ONE, s0.files.(lock := Some(1)), map[1 := Surveyed(ENTRIES)], 0, {}, 0);
    var s2 := State(ONE, Noted(Some(1), false), map[1 := Pinning(0)], 0, {}, 0);
    var s3 := State(map[5 := Box(PINNED, true)], Noted(Some(1), false), map[1 := Pinning(1)], 0, {}, 0);
    assert Survey(ONE, [5]) == ENTRIES;
    assert Next(s0, FenceStarted(1, [5])) == s1;
    assert Next(s1, PreparedWritten(1)) == s2;
    assert Next(s2, Pinned(1, true, true)) == s3;
    ReachStart(ONE);
    ReachNext(s0, FenceStarted(1, [5]), ONE, s1);
    ReachNext(s1, PreparedWritten(1), ONE, s2);
    ReachNext(s2, Pinned(1, true, true), ONE, s3);
  }

  const ALL_BACK := Attempt(true, {}, 1, false, 1, true)

  /** A release of this one container that gets all the way through. */
  lemma ReleaseOne(s: State)
    requires s.host.Keys == {5} && s.files.prepared == Some(ENTRIES) && MayRelease(s.files, true)
    ensures Release(s, ALL_BACK) == s.(host := ONE, files := s.files.(released := true))
  {
    assert ENTRIES[1..] == [];
    var restored := s.host[5 := s.host[5].(policy := ALWAYS)];
    assert Restore(restored, [], 0, false) == (restored, true);
    assert Restore(s.host, ENTRIES, 1, false) == (restored, true);
    var started := restored[5 := restored[5].(running := true)];
    assert Start(started, [], {}, 0) == (started, true);
    assert Start(restored, ENTRIES, {}, 1) == (started, true);
    assert started == ONE;
  }

  ghost function Stranded(): State {
    State(map[5 := Box(PINNED, true)], Noted(Some(2), true), map[2 := Pinning(1)], 0, {}, 0)
  }

  lemma StrandedReached()
    ensures Reached(Stranded(), ONE)
  {
    hide Reached, Release;
    FirstPin();
    var s3 := State(map[5 := Box(PINNED, true)], Noted(Some(1), false), map[1 := Pinning(1)], 0, {}, 0);
    var s4 := State(map[5 := Box(PINNED, true)], Noted(None, false), map[], 0, {}, 0);
    var s5 := State(ONE, Noted(None, true), map[], 0, {}, 0);
    var s6 := State(ONE, Noted(Some(2), true), map[2 := Surveyed(ENTRIES)], 0, {}, 0);
    var s7 := State(ONE, Noted(Some(2), true), map[2 := Pinning(0)], 0, {}, 0);
    assert Next(s3, FenceRefused(1)) == s4;
    ReleaseOne(s4);
    assert Next(s4, ReleaseTried(ALL_BACK)) == s5;
    assert Survey(ONE, [5]) == ENTRIES;
    assert Next(s5, FenceStarted(2, [5])) == s6;
    assert Next(s6, PreparedWritten(2)) == s7;
    assert Next(s7, Pinned(2, true, true)) == Stranded();
    ReachNext(s3, FenceRefused(1), ONE, s4);
    ReachNext(s4, ReleaseTried(ALL_BACK), ONE, s5);
    ReachNext(s5, FenceStarted(2, [5]), ONE, s6);
    ReachNext(s6, PreparedWritten(2), ONE, s7);
    ReachNext(s7, Pinned(2, true, true), ONE, Stranded());
  }

  /** After a release, nothing this code does puts a policy back at that path again. */
  lemma {:induction false} ReleasedForGood(states: seq<State>, events: seq<Event>, c: Container)
    requires |states| == |events| + 1
    requires forall i | 0 <= i < |events| :: states[i + 1] == Next(states[i], events[i])
    requires states[0].files.released && c in states[0].host && states[0].host[c].policy.name == "no"
    ensures var s := states[|events|]; s.files.released && c in s.host && s.host[c].policy.name == "no"
    decreases |events|
  {
    if events != [] {
      var n := |events| - 1;
      assert states[..n + 1][n] == states[n];
      ReleasedForGood(states[..n + 1], events[..n], c);
      hide Restore, Start;
    }
  }

  /**
   A fence attempted again after a release from PREPARED alone pins the container for good: that
   container was not on `no` before the first attempt, and no run from here restores it.
   */
  lemma SecondFenceStrands()
    ensures Reached(Stranded(), ONE) && ONE[5].policy.name != "no"
    ensures forall states: seq<State>, events: seq<Event> |
              |states| == |events| + 1 && states[0] == Stranded() &&
              (forall i | 0 <= i < |events| :: states[i + 1] == Next(states[i], events[i])) ::
              5 in states[|events|].host && states[|events|].host[5].policy.name == "no"
  {
    StrandedReached();
    hide Next, Reached;
    forall states: seq<State>, events: seq<Event> |
      |states| == |events| + 1 && states[0] == Stranded() &&
      (forall i | 0 <= i < |events| :: states[i + 1] == Next(states[i], events[i]))
      ensures 5 in states[|events|].host && states[|events|].host[5].policy.name == "no"
    {
      ReleasedForGood(states, events, 5);
    }
  }

  ghost function Quiet1(): Files {
    Files(None, Some(ENTRIES), Some(0), None, None, None, false)
  }

  const DOWN: Host := map[5 := Box(PINNED, false)]

  lemma QuiescedReached()
    ensures Reached(State(DOWN, Quiet1(), map[], 1, {}, 0), ONE)
  {
    hide Reached;
    FirstPin();
    var pinned: Host := map[5 := Box(PINNED, true)];
    var s3 := State(pinned, Noted(Some(1), false), map[1 := Pinning(1)], 0, {}, 0);
    var s4 := State(pinned, Noted(Some(1), false), map[1 := Stopping(0)], 0, {}, 0);
    var s5 := State(DOWN, Noted(Some(1), false), map[1 := Stopping(1)], 0, {}, 0);
    var s6 := State(DOWN, Quiet1(), map[], 1, {}, 0);
    assert Next(s3, Pinned(1, true, true)) == s4;
    assert Next(s4, Stopped(1, true)) == s5;
    assert Next(s5, ManifestWritten(1)) == s6;
    ReachNext(s3, Pinned(1, true, true), ONE, s4);
    ReachNext(s4, Stopped(1, true), ONE, s5);
    ReachNext(s5, ManifestWritten(1), ONE, s6);
  }

  ghost function Failed1(released: bool): Files {
    Files(None, Some(ENTRIES), Some(0), Some(Claim(1, 0, Claimed)), None, Some(Terminal(1, 0, Failed)), released)
  }

  ghost function Claimed1(): Files {
    Quiet1().(claim := Some(Claim(1, 0, Claimed)))
  }

  lemma ClaimedReached()
    ensures Reached(State(DOWN, Claimed1(), map[2 := Beginning(1, 0)], 2, {1}, 0), ONE)
  {
    hide Reached;
    QuiescedReached();
    var s0 := State(DOWN, Quiet1(), map[], 1, {}, 0);
    var s1 := State(DOWN, Quiet1(), map[2 := Checked(0)], 1, {}, 0);
    var s2 := State(DOWN, Claimed1(), map[2 := Holding(1, 0)], 2, {1}, 0);
    var s3 := State(DOWN, Claimed1(), map[2 := Beginning(1, 0)], 2, {1}, 0);
    assert Next(s0, ClaimChecked(2)) == s1;
    assert Next(s1, ClaimCreated(2, false)) == s2;
    assert Next(s2, BeginChecked(2)) == s3;
    ReachNext(s0, ClaimChecked(2), ONE, s1);
    ReachNext(s1, ClaimCreated(2, false), ONE, s2);
    ReachNext(s2, BeginChecked(2), ONE, s3);
  }

  /** A claim is failed by a second process, its live record not rewritten, while the first is about to begin. */
  lemma FailedReached()
    ensures Reached(State(DOWN, Failed1(false), map[2 := Beginning(1, 0), 3 := Holding(1, 0)], 2, {1}, 0), ONE)
  {
    hide Reached;
    ClaimedReached();
    var s3 := State(DOWN, Claimed1(), map[2 := Beginning(1, 0)], 2, {1}, 0);
    var s4 := State(DOWN, Claimed1(), map[2 := Beginning(1, 0), 3 := Holding(1, 0)], 2, {1}, 0);
    var s5 := State(DOWN, Failed1(false), map[2 := Beginning(1, 0), 3 := Holding(1, 0)], 2, {1}, 0);
    assert Next(s3, Reattached(3)) == s4;
    assert Next(s4, Finished(3, Failed, false)) == s5;
    ReachNext(s3, Reattached(3), ONE, s4);
    ReachNext(s4, Finished(3, Failed, false), ONE, s5);
  }

  /**
   Without the mirrored rewrite the guarantee is gone: begin_apply gets its claim to APPLYING although
   it was recorded as failed, and the fence released with the container up on its old policy.
   */
  lemma BeginCanFollowFailure()
    ensures exists s ::
              && Reached(s, ONE) && s.files.released && s.host == ONE
              && s.files.done.Some? && s.files.done.value.outcome == Failed
              && Next(s, BeginMarked(2)).begun == s.begun + 1
  {
    hide Reached, Release;
    FailedReached();
    var procs: map<Process, Local> := map[2 := Beginning(1, 0), 3 := Holding(1, 0)];
    var s0 := State(DOWN, Failed1(false), procs, 2, {1}, 0);
    var s1 := State(ONE, Failed1(true), procs, 2, {1}, 0);
    var s2 := State(ONE, Failed1(true).(applying := Some(2)), procs[2 := Marking(1, 0, 2)], 3, {1}, 0);
    ReleaseOne(s0);
    assert Next(s0, ReleaseTried(ALL_BACK)) == s1;
    assert Next(s1, BeginCreated(2)) == s2;
    ReachNext(s0, ReleaseTried(ALL_BACK), ONE, s1);
    ReachNext(s1, BeginCreated(2), ONE, s2);
    assert Next(s2, BeginMarked(2)).begun == s2.begun + 1;
  }
}
