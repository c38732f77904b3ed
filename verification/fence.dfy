/**
 The host fence and its one-shot claim (backend/app/wal_fence.py), for one manifest path. The state
 is a handful of record files and the containers of a host; any number of processes move it one
 step at a time and may die between any two. Taking a claim and beginning an apply are split at
 their exclusive create; finishing and releasing, which the code does not lock, are single steps.
 */
module Fence {
  import opened Wrappers

  type Container = nat
  type Process = nat

  datatype Policy = Policy(name: string, retries: nat)

  datatype Box = Box(policy: Policy, running: bool)

  type Host = map<Container, Box>

  const PINNED := Policy("no", 0)

  // ── restart policies ────────────────────────────────

  /** The argument of `docker update --restart=`: a name, or on-failure with a count. */
  datatype Flag = Plain(name: string) | OnFailure(retries: nat)

  /** `_format_policy`. */
  function Format(p: Policy): Flag {
    if p.name == "" then Plain("no")
    else if p.name == "on-failure" && p.retries > 0 then OnFailure(p.retries)
    else Plain(p.name)
  }

  /** What the daemon makes of it. */
  function Applied(f: Flag): Policy {
    match f
    case Plain(name) => Policy(name, 0)
    case OnFailure(n) => Policy("on-failure", n)
  }

  /** What a restore asks for: an empty name is read as `no`. */
  function Wanted(p: Policy): Policy {
    Policy(if p.name == "" then "no" else p.name, p.retries)
  }

  /** A policy survives being written down and applied unless it counts retries it does not use. */
  lemma FormatRoundTrips(p: Policy)
    ensures Applied(Format(p)) == Wanted(p) <==> p.retries == 0 || p.name == "on-failure"
  {
  }

  // ── records ─────────────────────────────────────────

  /** What PREPARED says of one scoped container: how it was before the first change. */
  datatype Entry = Entry(id: Container, before: Policy, wasRunning: bool)

  datatype ClaimState = Claimed | Applying | Completed | Failed

  /** Torn: the process died between creating the file and writing it. */
  datatype ClaimFile = Torn | Claim(id: nat, lease: nat, state: ClaimState)

  datatype Terminal = Terminal(id: nat, lease: nat, outcome: ClaimState)

  datatype Files = Files(
    lock: Option<Process>,
    prepared: Option<seq<Entry>>,
    manifest: Option<nat>,               // the lease it grants
    claim: Option<ClaimFile>,
    applying: Option<nat>,               // an apply id
    done: Option<Terminal>,
    released: bool)

  /** Where one process stands. */
  datatype Local =
    | Surveyed(entries: seq<Entry>)              // fence: past preflight, holding the lock
    | Pinning(next: nat) | Stopping(next: nat)   // fence: PREPARED is written
    | Checked(lease: nat)                        // claim: past its checks
    | Holding(id: nat, lease: nat)               // has the capability
    | Beginning(id: nat, lease: nat)             // begin_apply: past its checks
    | Marking(id: nat, lease: nat, apply: nat)   // begin_apply: won the exclusive create
    | Begun(id: nat, lease: nat, apply: nat)     // begin_apply: rewrote the claim to APPLYING

  datatype State = State(
    host: Host, files: Files, procs: map<Process, Local>,
    ids: nat,                    // identifiers drawn so far
    issued: set<nat>,            // claim ids ever handed to anyone
    begun: nat)                  // how often a claim was rewritten to APPLYING

  function Starts(host: Host): State {
    State(host, Files(None, None, None, None, None, None, false), map[], 0, {}, 0)
  }

  // ── release ─────────────────────────────────────────

  /**
   Release puts policies back entry by entry. `reach` of them are confirmed; the next one fails,
   before the daemon changed it or `late`, after.
   */
  function Restore(host: Host, entries: seq<Entry>, reach: nat, late: bool): (Host, bool) {
    if entries == [] then (host, true)
    else if entries[0].id !in host || (reach == 0 && !late) then (host, false)
    else
      var e := entries[0];
      var after := host[e.id := host[e.id].(policy := Applied(Format(e.before)))];
      if reach == 0 || Applied(Format(e.before)) != Wanted(e.before) then (after, false)
      else Restore(after, entries[1..], reach - 1, late)
  }

  /** It starts only what was running when the fence arrived, or what it was told to. */
  function Start(host: Host, entries: seq<Entry>, allow: set<Container>, reach: nat): (Host, bool) {
    if entries == [] then (host, true)
    else
      var e := entries[0];
      if !e.wasRunning && e.id !in allow then Start(host, entries[1..], allow, reach)
      else if reach == 0 || e.id !in host then (host, false)
      else Start(host[e.id := host[e.id].(running := true)], entries[1..], allow, reach - 1)
  }

  /** `_require_durable_terminal`, given what is on disk; the fsync is an answer from outside. */
  predicate TerminalBinds(f: Files, durable: bool) {
    && f.done.Some? && f.claim.Some? && f.claim.value.Claim?
    && f.done.value.outcome in {Completed, Failed}
    && (f.manifest.Some? ==> f.claim.value.lease == f.manifest.value)
    && f.done.value.id == f.claim.value.id && f.done.value.lease == f.claim.value.lease
    && durable
  }

  /** Every question release asks before anything on the host moves. */
  predicate MayRelease(f: Files, durable: bool) {
    && f.prepared.Some?
    && (f.manifest.None? ==> f.claim.None? && f.done.None?)
    && (f.claim.Some? ==> f.done.Some?)
    && !f.released
    && (f.done.Some? || f.claim.Some? ==> TerminalBinds(f, durable))
  }

  datatype Attempt = Attempt(start: bool, allow: set<Container>, restores: nat, late: bool, starts: nat, durable: bool)

  function Release(s: State, a: Attempt): State {
    if !MayRelease(s.files, a.durable) then s
    else
      var entries := s.files.prepared.value;
      var (restored, ok) := Restore(s.host, entries, a.restores, a.late);
      if !ok then s.(host := restored)
      else if !a.start then s.(host := restored, files := s.files.(released := true))
      else
        var (started, good) := Start(restored, entries, a.allow, a.starts);
        s.(host := started, files := s.files.(released := s.files.released || good))
  }

  // ── fence ───────────────────────────────────────────

  function Survey(host: Host, scope: seq<Container>): seq<Entry>
    requires forall c | c in scope :: c in host
  {
    seq(|scope|, i requires 0 <= i < |scope| => Entry(scope[i], host[scope[i]].policy, host[scope[i]].running))
  }

  function Scope(entries: seq<Entry>): set<Container> {
    set e | e in entries :: e.id
  }

  /** An exception leaves the fence: the lock goes, the host stays as it is. */
  function Refuse(s: State, p: Process): State {
    s.(procs := s.procs - {p},
       files := s.files.(lock := if s.files.lock == Some(p) then None else s.files.lock))
  }

  function At(s: State, p: Process): Option<Local> {
    if p in s.procs then Some(s.procs[p]) else None
  }

  function Move(s: State, p: Process, to: Local): State {
    s.(procs := s.procs[p := to])
  }

  // ── the steps ───────────────────────────────────────

  datatype Event =
    | FenceStarted(p: Process, scope: seq<Container>)
    | PreparedWritten(p: Process)
    | Pinned(p: Process, changed: bool, confirmed: bool)
    | Stopped(p: Process, confirmed: bool)
    | ManifestWritten(p: Process)
    | FenceRefused(p: Process)
    | Died(p: Process)
    | LockRemoved                                   // by hand, when its holder is gone
    | ClaimChecked(p: Process)
    | ClaimCreated(p: Process, torn: bool)
    | Reattached(p: Process)
    | BeginChecked(p: Process)
    | BeginCreated(p: Process)
    | BeginMarked(p: Process)
    | Finished(p: Process, outcome: ClaimState, mirrored: bool)
    | ReleaseTried(attempt: Attempt)

  function Next(s: State, e: Event): State {
    match e
    case FenceStarted(p, scope) => StartFence(s, p, scope)
    case PreparedWritten(p) => WritePrepared(s, p)
    case Pinned(p, changed, confirmed) => Pin(s, p, changed, confirmed)
    case Stopped(p, confirmed) => Stop(s, p, confirmed)
    case ManifestWritten(p) => WriteManifest(s, p)
    case FenceRefused(p) => if p in s.procs then Refuse(s, p) else s
    case Died(p) => s.(procs := s.procs - {p})
    case LockRemoved => RemoveLock(s)
    case ClaimChecked(p) => CheckClaim(s, p)
    case ClaimCreated(p, torn) => CreateClaim(s, p, torn)
    case Reattached(p) => Reattach(s, p)
    case BeginChecked(p) => CheckBegin(s, p)
    case BeginCreated(p) => CreateMarker(s, p)
    case BeginMarked(p) => MarkApplying(s, p)
    case Finished(p, outcome, mirrored) => Finish(s, p, outcome, mirrored)
    case ReleaseTried(attempt) => Release(s, attempt)
  }

  /** Take the lock, refuse a name that is taken, and read the scoped containers as they are. */
  function StartFence(s: State, p: Process, scope: seq<Container>): State {
    if p in s.procs || s.files.lock.Some? || s.files.manifest.Some? || (exists c | c in scope :: c !in s.host) then s
    else Move(s.(files := s.files.(lock := Some(p))), p, Surveyed(Survey(s.host, scope)))
  }

  /** A process that died holding the lock leaves it; a human takes it away. */
  function RemoveLock(s: State): State {
    if s.files.lock.Some? && s.files.lock.value !in s.procs then s.(files := s.files.(lock := None)) else s
  }

  function CheckClaim(s: State, p: Process): State {
    if p in s.procs || s.files.manifest.None? || s.files.released || s.files.done.Some? then s
    else Move(s, p, Checked(s.files.manifest.value))
  }

  /** PREPARED, before the first change; one already there is the one that counts, if it fits. */
  function WritePrepared(s: State, p: Process): State {
    if At(s, p).None? || !s.procs[p].Surveyed? then s
    else if s.files.prepared.None? then
      Move(s.(files := s.files.(prepared := Some(s.procs[p].entries))), p, Pinning(0))
    else if Scope(s.files.prepared.value) != Scope(s.procs[p].entries) then Refuse(s, p)
    else Move(s, p, Pinning(0))
  }

  /** Pin the next container, believing the readback rather than the exit status. */
  function Pin(s: State, p: Process, changed: bool, confirmed: bool): State {
    if At(s, p).None? || !s.procs[p].Pinning? || s.files.prepared.None? then s
    else
      var i, entries := s.procs[p].next, s.files.prepared.value;
      if i >= |entries| then Move(s, p, Stopping(0))
      else if entries[i].id !in s.host then Refuse(s, p)
      else
        var id := entries[i].id;
        var host := if changed then s.host[id := s.host[id].(policy := PINNED)] else s.host;
        if confirmed && host[id].policy.name == "no" then Move(s.(host := host), p, Pinning(i + 1))
        else Refuse(s.(host := host), p)
  }

  function Stop(s: State, p: Process, confirmed: bool): State {
    if At(s, p).None? || !s.procs[p].Stopping? || s.files.prepared.None? then s
    else
      var i, entries := s.procs[p].next, s.files.prepared.value;
      if i >= |entries| then s
      else if entries[i].id !in s.host || !confirmed then Refuse(s, p)
      else
        var id := entries[i].id;
        Move(s.(host := s.host[id := s.host[id].(running := false)]), p, Stopping(i + 1))
  }

  function WriteManifest(s: State, p: Process): State {
    if At(s, p).None? || !s.procs[p].Stopping? || s.files.prepared.None? then s
    else if s.procs[p].next < |s.files.prepared.value| then s
    else if s.files.manifest.Some? then Refuse(s, p)
    else Refuse(s.(files := s.files.(manifest := Some(s.ids)), ids := s.ids + 1), p)
  }

  /** The exclusive create has one winner; one that dies before the bytes are down leaves a torn file. */
  function CreateClaim(s: State, p: Process, torn: bool): State {
    if At(s, p).None? || !s.procs[p].Checked? then s
    else if s.files.claim.Some? then s.(procs := s.procs - {p})
    else if torn then s.(files := s.files.(claim := Some(Torn)), procs := s.procs - {p})
    else
      var lease := s.procs[p].lease;
      Move(s.(files := s.files.(claim := Some(Claim(s.ids, lease, Claimed))), ids := s.ids + 1,
              issued := s.issued + {s.ids}),
           p, Holding(s.ids, lease))
  }

  function Reattach(s: State, p: Process): State {
    if p in s.procs || s.files.manifest.None? || s.files.claim.None? || s.files.claim.value.Torn? then s
    else
      var c := s.files.claim.value;
      if c.lease != s.files.manifest.value then s
      else Move(s.(issued := s.issued + {c.id}), p, Holding(c.id, c.lease))
  }

  /** `_require_active`: the claim on disk is this one, unfinished, and the fence not released. */
  predicate Active(f: Files, id: nat, lease: nat) {
    && f.claim.Some? && f.claim.value.Claim? && f.claim.value.id == id && f.claim.value.lease == lease
    && f.done.None? && !f.released
  }

  function CheckBegin(s: State, p: Process): State {
    if At(s, p).None? || !s.procs[p].Holding? then s
    else
      var h := s.procs[p];
      if Active(s.files, h.id, h.lease) then Move(s, p, Beginning(h.id, h.lease)) else s
  }

  function CreateMarker(s: State, p: Process): State {
    if At(s, p).None? || !s.procs[p].Beginning? then s
    else
      var b := s.procs[p];
      if s.files.applying.Some? then Move(s, p, Holding(b.id, b.lease))
      else Move(s.(files := s.files.(applying := Some(s.ids)), ids := s.ids + 1), p, Marking(b.id, b.lease, s.ids))
  }

  /**
   Rewrite the claim to APPLYING, from CLAIMED and nothing else. What is left of begin_apply is the flush
   of the directory; it may still raise or the process die, and the claim stays APPLYING.
   */
  function MarkApplying(s: State, p: Process): State {
    if At(s, p).None? || !s.procs[p].Marking? then s
    else
      var m := s.procs[p];
      if s.files.claim.Some? && s.files.claim.value.Claim? && s.files.claim.value.state == Claimed then
        Move(s.(files := s.files.(claim := Some(s.files.claim.value.(state := Applying))), begun := s.begun + 1),
             p, Begun(m.id, m.lease, m.apply))
      else Move(s, p, Holding(m.id, m.lease))
  }

  predicate Finishable(state: ClaimState, outcome: ClaimState) {
    (outcome == Completed && state == Applying) || (outcome == Failed && state in {Claimed, Applying})
  }

  function Capability(l: Local): Option<(nat, nat)> {
    match l
    case Holding(id, lease) => Some((id, lease))
    case Begun(id, lease, _) => Some((id, lease))
    case _ => None
  }

  /** `_finish`: the terminal record once, then the live claim, whose rewrite may fail unnoticed. */
  function Finish(s: State, p: Process, outcome: ClaimState, mirrored: bool): State {
    if At(s, p).None? || Capability(s.procs[p]).None? || outcome !in {Completed, Failed} then s
    else
      var (id, lease) := Capability(s.procs[p]).value;
      var live := s.files.claim;
      if live.None? || live.value.Torn? || live.value.id != id || live.value.lease != lease then s
      else if s.files.done.Some? || !Finishable(live.value.state, outcome) then s
      else
        s.(files := s.files.(done := Some(Terminal(id, lease, outcome)),
                             claim := if mirrored then Some(live.value.(state := outcome)) else live))
  }

  // ── runs ────────────────────────────────────────────

  ghost predicate IsRun(states: seq<State>, events: seq<Event>, host: Host) {
    && |states| == |events| + 1 && states[0] == Starts(host)
    && forall i | 0 <= i < |events| :: states[i + 1] == Next(states[i], events[i])
  }

  // ── policies ────────────────────────────────────────

  /** These entries tell the host as it was at first. */
  ghost predicate Tells(entries: seq<Entry>, original: Host) {
    forall e | e in entries ::
      e.id in original && e.before == original[e.id].policy && e.wasRunning == original[e.id].running
  }

  /**
   PREPARED, once there, tells the host as it was before the first attempt; until it is there nothing
   has changed and every survey still tells it too.
   */
  ghost predicate Remembered(s: State, original: Host) {
    && s.host.Keys == original.Keys
    && (s.files.prepared.Some? ==> Tells(s.files.prepared.value, original))
    && (s.files.prepared.None? ==>
          && s.host == original
          && (forall p | p in s.procs && s.procs[p].Surveyed? :: Tells(s.procs[p].entries, original)))
    && (forall c | c in s.host && (s.files.prepared.None? || c !in Scope(s.files.prepared.value)) ::
          s.host[c] == original[c])
  }

  lemma {:induction false} RestoreIs(host: Host, entries: seq<Entry>, reach: nat, late: bool)
    ensures var (after, ok) := Restore(host, entries, reach, late);
            && after.Keys == host.Keys
            && (forall c | c in host && c !in Scope(entries) :: after[c] == host[c])
            && (forall c | c in host :: after[c].running == host[c].running)
            && (ok ==> forall e | e in entries :: e.id in after)
    decreases |entries|
  {
    if entries != [] {
      var e, rest := entries[0], entries[1..];
      assert entries == [e] + rest;
      if reach > 0 && e.id in host {
        var after := host[e.id := host[e.id].(policy := Applied(Format(e.before)))];
        RestoreIs(after, rest, reach - 1, late);
      }
    }
  }

  /** A restore that got through left every entry on the policy it wanted. */
  lemma {:induction false} RestoreReaches(host: Host, entries: seq<Entry>, reach: nat, late: bool, original: Host, e: Entry)
    requires Tells(entries, original) && e in entries && Restore(host, entries, reach, late).1
    ensures e.id in Restore(host, entries, reach, late).0
    ensures Restore(host, entries, reach, late).0[e.id].policy == Wanted(original[e.id].policy)
    decreases |entries|
  {
    hide *;
    RestoreStep(host, entries, reach, late);
    TellsOf(entries, original);
    var first, rest := entries[0], entries[1..];
    var mid := host[first.id := host[first.id].(policy := Wanted(first.before))];
    RestoreIs(mid, rest, reach - 1, late);
    SplitScope(entries, e);
    if e.id in Scope(rest) {
      var x :| x in rest && x.id == e.id;
      RestoreReaches(mid, rest, reach - 1, late, original, x);
    }
  }

  lemma RestoreStep(host: Host, entries: seq<Entry>, reach: nat, late: bool)
    requires entries != [] && Restore(host, entries, reach, late).1
    ensures reach > 0 && entries[0].id in host
    ensures var e := entries[0];
            Restore(host, entries, reach, late) ==
            Restore(host[e.id := host[e.id].(policy := Wanted(e.before))], entries[1..], reach - 1, late)
  {
    hide Format, Applied, Wanted;
  }

  lemma TellsOf(entries: seq<Entry>, original: Host)
    requires Tells(entries, original) && entries != []
    ensures Tells(entries[1..], original)
    ensures forall e | e in entries ::
              e.id in original && e.before == original[e.id].policy && e.wasRunning == original[e.id].running
  {
    assert forall e | e in entries[1..] :: e in entries;
  }

  lemma SplitScope(entries: seq<Entry>, e: Entry)
    requires e in entries
    ensures entries[0] in entries
    ensures e == entries[0] || e.id in Scope(entries[1..])
    ensures e.id in Scope(entries[1..]) ==> exists x :: x in entries[1..] && x.id == e.id
  {
    assert entries == [entries[0]] + entries[1..];
  }

  lemma {:induction false} StartIs(host: Host, entries: seq<Entry>, allow: set<Container>, reach: nat)
    ensures var (after, ok) := Start(host, entries, allow, reach);
            && after.Keys == host.Keys
            && (forall c | c in host :: after[c].policy == host[c].policy)
            && (forall c | c in host && c !in Scope(entries) :: after[c] == host[c])
            && (forall c | c in host && after[c].running && !host[c].running ::
                  exists e | e in entries :: e.id == c && (e.wasRunning || c in allow))
    decreases |entries|
  {
    if entries != [] {
      var e, rest := entries[0], entries[1..];
      assert entries == [e] + rest;
      if !e.wasRunning && e.id !in allow {
        StartIs(host, rest, allow, reach);
      } else if reach > 0 && e.id in host {
        StartIs(host[e.id := host[e.id].(running := true)], rest, allow, reach - 1);
        assert e in entries;
      }
    }
  }

  /** A start that got through has every container up that it was to start, and no other changed. */
  lemma {:induction false} StartReaches(host: Host, entries: seq<Entry>, allow: set<Container>, reach: nat, c: Container)
    requires Start(host, entries, allow, reach).1 && c in host
    ensures var after := Start(host, entries, allow, reach).0;
            && c in after
            && (after[c].running <==> host[c].running || exists e :: e in entries && e.id == c && (e.wasRunning || c in allow))
    decreases |entries|
  {
    if entries != [] {
      var e, rest := entries[0], entries[1..];
      assert entries == [e] + rest;
      if !e.wasRunning && e.id !in allow {
        StartReaches(host, rest, allow, reach, c);
      } else {
        StartReaches(host[e.id := host[e.id].(running := true)], rest, allow, reach - 1, c);
        assert e in entries;
      }
    }
  }

  lemma ReleaseRemembers(s: State, a: Attempt, original: Host)
    requires Remembered(s, original)
    ensures Remembered(Release(s, a), original)
  {
    if MayRelease(s.files, a.durable) {
      var entries := s.files.prepared.value;
      RestoreIs(s.host, entries, a.restores, a.late);
      var restored := Restore(s.host, entries, a.restores, a.late).0;
      StartIs(restored, entries, a.allow, a.starts);
    }
  }

  lemma StepRemembers(s: State, e: Event, original: Host)
    requires Remembered(s, original)
    ensures Remembered(Next(s, e), original)
  {
    hide Release, Pin, Stop, StartFence, WritePrepared, Remembered;
    match e
    case FenceStarted(p, scope) => SurveyRemembers(s, p, scope, original);
    case PreparedWritten(p) => PreparedRemembers(s, p, original);
    case ReleaseTried(a) => ReleaseRemembers(s, a, original);
    case Pinned(p, changed, confirmed) => PinRemembers(s, p, changed, confirmed, original);
    case Stopped(p, confirmed) => StopRemembers(s, p, confirmed, original);
    case _ => HostStays(s, e, original);
  }

  lemma HostStays(s: State, e: Event, original: Host)
    requires Remembered(s, original)
    requires !e.ReleaseTried? && !e.Pinned? && !e.Stopped? && !e.FenceStarted? && !e.PreparedWritten?
    ensures Remembered(Next(s, e), original)
  {
  }

  lemma SurveyRemembers(s: State, p: Process, scope: seq<Container>, original: Host)
    requires Remembered(s, original)
    ensures Remembered(StartFence(s, p, scope), original)
  {
  }

  lemma PreparedRemembers(s: State, p: Process, original: Host)
    requires Remembered(s, original)
    ensures Remembered(WritePrepared(s, p), original)
  {
  }

  lemma PinRemembers(s: State, p: Process, changed: bool, confirmed: bool, original: Host)
    requires Remembered(s, original)
    ensures Remembered(Pin(s, p, changed, confirmed), original)
  {
    if s.files.prepared.Some? && At(s, p).Some? && s.procs[p].Pinning? && s.procs[p].next < |s.files.prepared.value| {
      assert s.files.prepared.value[s.procs[p].next] in s.files.prepared.value;
    }
  }

  lemma StopRemembers(s: State, p: Process, confirmed: bool, original: Host)
    requires Remembered(s, original)
    ensures Remembered(Stop(s, p, confirmed), original)
  {
    if s.files.prepared.Some? && At(s, p).Some? && s.procs[p].Stopping? && s.procs[p].next < |s.files.prepared.value| {
      assert s.files.prepared.value[s.procs[p].next] in s.files.prepared.value;
    }
  }

  lemma {:induction false} RunRemembers(states: seq<State>, events: seq<Event>, host: Host)
    requires IsRun(states, events, host)
    ensures Remembered(states[|events|], host)
    decreases |events|
  {
    hide Next, Remembered;
    if events == [] {
      StartRemembers(host);
    } else {
      var n := |events| - 1;
      RunRemembers(states[..n + 1], events[..n], host);
      assert states[..n + 1][n] == states[n];
      StepRemembers(states[n], events[n], host);
    }
  }

  lemma StartRemembers(host: Host)
    ensures Remembered(Starts(host), host)
  {
  }

  /**
   However many fence attempts died or refused, and wherever, a release that succeeds leaves every
   scoped container on the restart policy it had before the first of them, and no other container
   was ever touched.
   */
  lemma ReleaseRestores(states: seq<State>, events: seq<Event>, host: Host, a: Attempt)
    requires IsRun(states, events, host)
    requires var s := states[|events|]; !s.files.released && Release(s, a).files.released
    ensures var s, after := states[|events|], Release(states[|events|], a);
            && s.files.prepared.Some?
            && (forall e | e in s.files.prepared.value ::
                  e.id in host && e.id in after.host && after.host[e.id].policy == Wanted(host[e.id].policy))
            && (forall c | c in host && c !in Scope(s.files.prepared.value) :: c in after.host && after.host[c] == host[c])
  {
    var s := states[|events|];
    hide Next, Restore, Start, Format, Applied, Wanted;
    RunRemembers(states, events, host);
    var entries := s.files.prepared.value;
    RestoreIs(s.host, entries, a.restores, a.late);
    StartIs(Restore(s.host, entries, a.restores, a.late).0, entries, a.allow, a.starts);
    forall e | e in entries
      ensures e.id in Restore(s.host, entries, a.restores, a.late).0
      ensures Restore(s.host, entries, a.restores, a.late).0[e.id].policy == Wanted(host[e.id].policy)
    {
      RestoreReaches(s.host, entries, a.restores, a.late, host, e);
    }
  }

  /**
   And when it is asked to start containers, those of the scope that run afterwards are exactly the
   ones that ran before the first attempt, that it was told to start, or that were still running; when
   it is not asked to, it starts none.
   */
  lemma ReleaseStarts(states: seq<State>, events: seq<Event>, host: Host, a: Attempt, e: Entry)
    requires IsRun(states, events, host)
    requires var s := states[|events|];
             !s.files.released && Release(s, a).files.released && e in s.files.prepared.value
    ensures var s, after := states[|events|], Release(states[|events|], a);
            && e.id in host && e.id in s.host && e.id in after.host
            && (after.host[e.id].running <==>
                  s.host[e.id].running || (a.start && (host[e.id].running || e.id in a.allow)))
  {
    var s := states[|events|];
    RunRemembers(states, events, host);
    var entries := s.files.prepared.value;
    hide Next, Restore, Start, IsRun;
    RestoreIs(s.host, entries, a.restores, a.late);
    if a.start {
      StartReaches(Restore(s.host, entries, a.restores, a.late).0, entries, a.allow, a.starts, e.id);
    }
  }
}
