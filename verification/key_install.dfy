/**
 Installing secret.key (backend/app/account_state_transfer.py:562-608, 700-772, 858-902): what a
 power loss may leave behind is kept beside what a process can see. A file's bytes are safe once it
 was fsynced, a name once its directory was; until then the disk may come back with any state the
 name had since the last directory fsync, and with anything in a file never synced.
 */
module KeyInstall {
  import opened Wrappers

  type Bytes = seq<int>

  datatype Inode = Inode(bytes: Bytes, synced: bool)

  /** The target data directory: what is visible, and what the name of the key may be found as. */
  datatype Disk = Disk(
    inodes: seq<Inode>,
    key: Option<nat>,               // the inode secret.key names now
    tmp: Option<nat>,               // the temporary file beside it
    mayBeKey: set<Option<nat>>)     // what secret.key may name after a power loss

  ghost predicate Sane(d: Disk) {
    && (d.key.Some? ==> d.key.value < |d.inodes|)
    && (d.tmp.Some? ==> d.tmp.value < |d.inodes|)
    && d.key in d.mayBeKey
    && (forall v | v in d.mayBeKey && v.Some? :: v.value < |d.inodes|)
  }

  /** Whatever happens to the power, secret.key is there with exactly these bytes. */
  ghost predicate Durable(d: Disk, k: Bytes) {
    forall v | v in d.mayBeKey :: v.Some? && v.value < |d.inodes| && d.inodes[v.value] == Inode(k, true)
  }

  // ── the calls ───────────────────────────────────────

  function CreateTmp(d: Disk): Disk
    requires d.tmp.None?
  {
    d.(inodes := d.inodes + [Inode([], false)], tmp := Some(|d.inodes|))
  }

  function WriteTmp(d: Disk, bytes: Bytes): Disk {
    if d.tmp.None? || d.tmp.value >= |d.inodes| then d
    else d.(inodes := d.inodes[d.tmp.value := Inode(bytes, false)])
  }

  function SyncFile(d: Disk, name: Option<nat>): Disk {
    if name.None? || name.value >= |d.inodes| then d
    else d.(inodes := d.inodes[name.value := d.inodes[name.value].(synced := true)])
  }

  /** Atomic: the name is the old file or the new one, never half of either. */
  function RenameTmp(d: Disk): Disk {
    if d.tmp.None? then d else d.(key := d.tmp, tmp := None, mayBeKey := d.mayBeKey + {d.tmp})
  }

  function UnlinkTmp(d: Disk): Disk {
    d.(tmp := None)
  }

  function SyncDirectory(d: Disk): Disk {
    d.(mayBeKey := {d.key})
  }

  /** Power loss: the disk comes back with one of the names it may have, and scrambled unsynced bytes. */
  ghost predicate PowerLoss(d: Disk, after: Disk) {
    && after.key in d.mayBeKey && after.mayBeKey == {after.key}
    && |after.inodes| == |d.inodes|
    && (forall i | 0 <= i < |d.inodes| :: after.inodes[i].synced && (d.inodes[i].synced ==> after.inodes[i] == d.inodes[i]))
    && (after.tmp.Some? ==> after.tmp.value < |after.inodes|)
  }

  function Visible(d: Disk): Option<Bytes> {
    if d.key.Some? && d.key.value < |d.inodes| then Some(d.inodes[d.key.value].bytes) else None
  }

  // ── restore attempts ────────────────────────────────

  /** Where the attempt under way has got to; the database transaction is open throughout. */
  datatype Stage =
    | Idle
    | Proved(k: Bytes)            // the rows are in the transaction and verified
    | Comparing(k: Bytes)         // a key is there with the same bytes: make it durable again
    | Compared(k: Bytes)          // its file is synced
    | Creating(k: Bytes)          // write a temporary file instead
    | Created(k: Bytes)
    | Written(k: Bytes)
    | FileSynced(k: Bytes)
    | Renamed(k: Bytes)
    | Installed(k: Bytes)

  /** `committed` names the key of the bundle whose rows are committed, which COMMIT makes durable. */
  datatype State = State(disk: Disk, stage: Stage, committed: Option<Bytes>)

  datatype Event =
    | Begins(k: Bytes)     // verified, fresh target, rows applied and proved
    | Goes                 // the next call succeeds
    | Fails                // the next call raises: the transaction is rolled back
    | Dies                 // the process dies
    | PowerFails(after: Disk)

  function Advance(s: State): State {
    match s.stage
    case Idle => s
    case Proved(k) =>
      if s.disk.key.None? then s.(stage := Creating(k))
      else if Visible(s.disk) == Some(k) then s.(stage := Comparing(k))
      else s.(stage := Creating(k))
    case Comparing(k) => s.(disk := SyncFile(s.disk, s.disk.key), stage := Compared(k))
    case Compared(k) => s.(disk := SyncDirectory(s.disk), stage := Installed(k))
    case Creating(k) => if s.disk.tmp.Some? then s.(stage := Idle) else s.(disk := CreateTmp(s.disk), stage := Created(k))
    case Created(k) => s.(disk := WriteTmp(s.disk, k), stage := Written(k))
    case Written(k) => s.(disk := SyncFile(s.disk, s.disk.tmp), stage := FileSynced(k))
    case FileSynced(k) => s.(disk := RenameTmp(s.disk), stage := Renamed(k))
    case Renamed(k) =>
      var d := SyncDirectory(s.disk);
      if Visible(d) == Some(k) then s.(disk := d, stage := Installed(k)) else s.(disk := d, stage := Idle)
    case Installed(k) => s.(committed := Some(k), stage := Idle)
  }

  /** An exception: the temporary file is removed where the code removes it, the rows are rolled back. */
  function Abandon(s: State): State {
    match s.stage
    case Created(_) => s.(disk := UnlinkTmp(s.disk), stage := Idle)
    case Written(_) => s.(disk := UnlinkTmp(s.disk), stage := Idle)
    case FileSynced(_) => s.(disk := UnlinkTmp(s.disk), stage := Idle)
    case _ => s.(stage := Idle)
  }

  ghost predicate Step(s: State, e: Event, next: State) {
    match e
    case Begins(k) => s.stage.Idle? && s.committed.None? && next == s.(stage := Proved(k))
    case Goes => next == Advance(s)
    case Fails => next == Abandon(s)
    case Dies => next == s.(stage := Idle)
    case PowerFails(after) => PowerLoss(s.disk, after) && next == State(after, Idle, s.committed)
  }

  ghost predicate IsRun(states: seq<State>, events: seq<Event>, disk: Disk) {
    && |states| == |events| + 1 && states[0] == State(disk, Idle, None)
    && forall i | 0 <= i < |events| :: Step(states[i], events[i], states[i + 1])
  }

  // ── the invariant ───────────────────────────────────

  /** What each stage has already made sure of. */
  ghost predicate StageHolds(s: State) {
    var d := s.disk;
    match s.stage
    case Comparing(k) => Visible(d) == Some(k)
    case Compared(k) => Holds(d, d.key, k) && d.inodes[d.key.value].synced
    case Created(k) => Fresh(d)
    case Written(k) => Fresh(d) && Holds(d, d.tmp, k)
    case FileSynced(k) => Holds(d, d.tmp, k) && d.inodes[d.tmp.value].synced
    case Renamed(k) => Holds(d, d.key, k) && d.inodes[d.key.value].synced
    case Installed(k) => Durable(d, k)
    case _ => true
  }

  ghost predicate Holds(d: Disk, name: Option<nat>, k: Bytes) {
    name.Some? && name.value < |d.inodes| && d.inodes[name.value].bytes == k
  }

  /** The temporary file is not what the key is, or may be found as. */
  ghost predicate Fresh(d: Disk) {
    d.tmp.Some? && d.tmp !in d.mayBeKey
  }

  ghost predicate Inv(s: State) {
    && Sane(s.disk) && StageHolds(s)
    && (s.committed.Some? ==> s.stage.Idle? && Durable(s.disk, s.committed.value))
  }

  lemma StepKeeps(s: State, e: Event, next: State)
    requires Inv(s) && Step(s, e, next)
    ensures Inv(next)
  {
    match e
    case Goes => AdvanceKeeps(s);
    case PowerFails(after) => PowerKeeps(s, after);
    case _ =>
  }

  lemma AdvanceKeeps(s: State)
    requires Inv(s)
    ensures Inv(Advance(s))
  {
    if s.stage.Comparing? || s.stage.Compared? || s.stage.Proved? {
      ConfirmKeeps(s);
    } else if s.stage.Creating? || s.stage.Created? || s.stage.Written? {
      TmpKeeps(s);
    } else {
      RenameKeeps(s);
    }
  }

  /** Finding the bytes there already proves nothing until the file and its name are synced again. */
  lemma ConfirmKeeps(s: State)
    requires Inv(s) && (s.stage.Comparing? || s.stage.Compared? || s.stage.Proved?)
    ensures Inv(Advance(s))
  {
  }

  lemma TmpKeeps(s: State)
    requires Inv(s) && (s.stage.Creating? || s.stage.Created? || s.stage.Written?)
    ensures Inv(Advance(s))
  {
    if s.stage.Created? {
      var d, after := s.disk, WriteTmp(s.disk, s.stage.k);
      assert forall v | v in d.mayBeKey && v.Some? :: v.value != d.tmp.value;
    }
  }

  lemma RenameKeeps(s: State)
    requires Inv(s) && !s.stage.Comparing? && !s.stage.Compared? && !s.stage.Proved?
    requires !s.stage.Creating? && !s.stage.Created? && !s.stage.Written?
    ensures Inv(Advance(s))
  {
  }

  lemma PowerKeeps(s: State, after: Disk)
    requires Inv(s) && PowerLoss(s.disk, after)
    ensures Inv(State(after, Idle, s.committed))
  {
  }

  lemma {:induction false} RunKeeps(states: seq<State>, events: seq<Event>, disk: Disk)
    requires IsRun(states, events, disk) && Sane(disk)
    ensures Inv(states[|events|])
    decreases |events|
  {
    hide Inv, Step;
    if events == [] {
      StartKeeps(disk);
    } else {
      var n := |events| - 1;
      RunKeeps(states[..n + 1], events[..n], disk);
      assert states[..n + 1][n] == states[n];
      StepKeeps(states[n], events[n], states[n + 1]);
    }
  }

  lemma StartKeeps(disk: Disk)
    requires Sane(disk)
    ensures Inv(State(disk, Idle, None))
  {
  }

  /**
   Crash consistency: over any sequence of restore attempts, each failing, dying or losing power at
   any call, a run that failed at the directory fsync and one that finds identical bytes included:
   if a bundle's rows are committed then secret.key durably holds that bundle's key, at this moment
   and after whatever a power loss could make of it.
   */
  lemma CommittedKeyIsDurable(states: seq<State>, events: seq<Event>, disk: Disk, after: Disk)
    requires IsRun(states, events, disk) && Sane(disk)
    requires states[|events|].committed.Some? && PowerLoss(states[|events|].disk, after)
    ensures Visible(states[|events|].disk) == states[|events|].committed
    ensures Visible(after) == states[|events|].committed
    ensures Durable(states[|events|].disk, states[|events|].committed.value)
  {
    hide Step;
    RunKeeps(states, events, disk);
  }

  // ── no torn key ─────────────────────────────────────

  /** The keys these events ever tried to install. */
  function Tried(events: seq<Event>): set<Bytes> {
    set e | e in events && e.Begins? :: e.k
  }

  ghost predicate OneOf(d: Disk, original: Option<Bytes>, tried: set<Bytes>) {
    forall v | v in d.mayBeKey ::
      if v.None? then original.None?
      else v.value < |d.inodes| && (Some(d.inodes[v.value].bytes) == original || d.inodes[v.value].bytes in tried)
  }

  ghost predicate Trying(s: State, tried: set<Bytes>) {
    s.stage.Idle? || s.stage.k in tried
  }

  /** Every file the name may be found as has its bytes on the disk. */
  ghost predicate Flushed(d: Disk)
    requires Sane(d)
  {
    forall v | v in d.mayBeKey && v.Some? :: d.inodes[v.value].synced
  }

  /** Nothing the name may be found as is torn, now or by losing power now. */
  ghost predicate Whole(s: State, original: Option<Bytes>, tried: set<Bytes>) {
    Sane(s.disk) && Flushed(s.disk) && OneOf(s.disk, original, tried) && Trying(s, tried)
  }

  lemma StepTears(s: State, e: Event, next: State, original: Option<Bytes>, tried: set<Bytes>, more: set<Bytes>)
    requires Inv(s) && Step(s, e, next) && Whole(s, original, tried) && tried <= more
    requires e.Begins? ==> e.k in more
    ensures Whole(next, original, more)
  {
    if e.Goes? {
      AdvanceTears(s, original, tried);
      MoreTears(next, original, tried, more);
    } else if e.PowerFails? {
      PowerTears(s, e.after, original, tried);
      MoreTears(next, original, tried, more);
    }
  }

  lemma MoreTears(s: State, original: Option<Bytes>, tried: set<Bytes>, more: set<Bytes>)
    requires Whole(s, original, tried) && tried <= more
    ensures Whole(s, original, more)
  {
  }

  lemma AdvanceTears(s: State, original: Option<Bytes>, tried: set<Bytes>)
    requires Inv(s) && Whole(s, original, tried)
    ensures Whole(Advance(s), original, tried)
  {
    if s.stage.FileSynced? || s.stage.Renamed? || s.stage.Installed? {
      LateTears(s, original, tried);
    } else if s.stage.Created? || s.stage.Creating? || s.stage.Written? {
      TmpTears(s, original, tried);
    }
  }

  lemma LateTears(s: State, original: Option<Bytes>, tried: set<Bytes>)
    requires Inv(s) && Whole(s, original, tried) && (s.stage.FileSynced? || s.stage.Renamed? || s.stage.Installed?)
    ensures Whole(Advance(s), original, tried)
  {
  }

  lemma TmpTears(s: State, original: Option<Bytes>, tried: set<Bytes>)
    requires Inv(s) && Whole(s, original, tried) && (s.stage.Created? || s.stage.Creating? || s.stage.Written?)
    ensures Whole(Advance(s), original, tried)
  {
  }

  lemma PowerTears(s: State, after: Disk, original: Option<Bytes>, tried: set<Bytes>)
    requires Inv(s) && Whole(s, original, tried) && PowerLoss(s.disk, after)
    ensures Whole(State(after, Idle, s.committed), original, tried)
  {
  }

  /**
   Whatever a power loss leaves under the name secret.key is the file that was there at first, whole,
   or the whole key of some bundle a restore tried to install; and it is never gone. Only the file
   that was there at first has to have reached the disk before.
   */
  lemma {:induction false} KeyIsNeverTorn(states: seq<State>, events: seq<Event>, disk: Disk)
    requires IsRun(states, events, disk) && Sane(disk) && Flushed(disk) && disk.mayBeKey == {disk.key}
    ensures Whole(states[|events|], Visible(disk), Tried(events))
    decreases |events|
  {
    if events == [] {
    } else {
      var n := |events| - 1;
      hide Step, Inv, Whole;
      KeyIsNeverTorn(states[..n + 1], events[..n], disk);
      RunKeeps(states[..n + 1], events[..n], disk);
      assert states[..n + 1][n] == states[n];
      assert events == events[..n] + [events[n]];
      StepTears(states[n], events[n], states[n + 1], Visible(disk), Tried(events[..n]), Tried(events));
    }
  }

  /** A run goes on with any possible step. */
  lemma RunGoesOn(states: seq<State>, events: seq<Event>, disk: Disk, e: Event, next: State)
    requires IsRun(states, events, disk) && Step(states[|events|], e, next)
    ensures IsRun(states + [next], events + [e], disk)
  {
    hide Step;
    var more, moves := states + [next], events + [e];
    forall i | 0 <= i < |moves|
      ensures Step(more[i], moves[i], more[i + 1])
    {
      assert i < |events| ==> more[i] == states[i] && moves[i] == events[i] && more[i + 1] == states[i + 1];
    }
  }

  // ── the procedure ───────────────────────────────────

  /**
   The target directory and database, through any number of restores; any call may be the one that
   raises. The history is a run of the steps above, one per call, so what is proved of runs holds of it.
   */
  class Target {
    var inodes: seq<Inode>
    var key: Option<nat>
    var tmp: Option<nat>
    ghost var mayBeKey: set<Option<nat>>
    var committed: Option<Bytes>
    ghost var stage: Stage
    ghost const first: Disk
    ghost var states: seq<State>
    ghost var events: seq<Event>

    ghost function View(): State
      reads `inodes, `key, `tmp, `mayBeKey, `stage, `committed
    {
      State(Disk(inodes, key, tmp, mayBeKey), stage, committed)
    }

    ghost predicate Traced()
      reads this
    {
      Sane(first) && IsRun(states, events, first) && states[|events|] == View() && Inv(View())
    }

    /** Whatever was there before, flushed or not. */
    constructor (bytes: Option<Bytes>, synced: bool)
      ensures Traced() && events == [] && stage.Idle? && committed.None? && Visible(View().disk) == bytes
    {
      inodes := if bytes.Some? then [Inode(bytes.value, synced)] else [];
      key := if bytes.Some? then Some(0) else None;
      tmp, committed, stage, events := None, None, Idle, [];
      var there := if bytes.Some? then Some(0) else None;
      var disk := Disk(if bytes.Some? then [Inode(bytes.value, synced)] else [], there, None, {there});
      mayBeKey, first, states := {there}, disk, [State(disk, Idle, None)];
    }

    /** One more step of the history. */
    ghost method Record(e: Event, before: State)
      requires Sane(first) && IsRun(states, events, first) && states[|events|] == before && Inv(before)
      requires Step(before, e, View())
      modifies `states, `events
      ensures Traced() && events == old(events) + [e]
      ensures !e.Begins? ==> forall original, tried | Whole(before, original, tried) :: Whole(View(), original, tried)
    {
      hide Inv, Step, Sane, Whole;
      ghost var next := View();
      if !e.Begins? {
        forall original, tried | Whole(before, original, tried)
          ensures Whole(next, original, tried)
        {
          StepTears(before, e, next, original, tried, tried);
        }
      }
      StepKeeps(before, e, next);
      RunGoesOn(states, events, first, e, next);
      states, events := states + [next], events + [e];
    }

    lemma InstalledIsDurable()
      requires Traced() && stage.Installed?
      ensures Durable(View().disk, stage.k) && Visible(View().disk) == Some(stage.k)
    {
      hide IsRun;
    }

    // ── the calls, each done or raising ───────────────

    /** fsync of a descriptor open on the key that is there. */
    method FsyncKey(raises: bool) returns (ok: bool)
      requires Traced() && stage.Comparing?
      modifies `inodes, `stage, `states, `events
      ensures Traced() && events == old(events) + [if raises then Fails else Goes]
      ensures View() == if raises then Abandon(old(View())) else Advance(old(View()))
      ensures ok == !raises
      ensures stage == if ok then Compared(old(stage).k) else Idle
      ensures forall original, tried | Whole(old(View()), original, tried) :: Whole(View(), original, tried)
    {
      ghost var before := View();
      if !raises && key.Some? && key.value < |inodes| {
        inodes := inodes[key.value := inodes[key.value].(synced := true)];
      }
      stage := if raises then Idle else Compared(stage.k);
      Record(if raises then Fails else Goes, before);
      ok := !raises;
    }

    /** fsync of the directory after finding the bytes there already. */
    method FsyncNameAgain(raises: bool) returns (ok: bool)
      requires Traced() && stage.Compared?
      modifies `mayBeKey, `stage, `states, `events
      ensures Traced() && events == old(events) + [if raises then Fails else Goes]
      ensures View() == if raises then Abandon(old(View())) else Advance(old(View()))
      ensures ok == !raises
      ensures stage == if ok then Installed(old(stage).k) else Idle
      ensures forall original, tried | Whole(old(View()), original, tried) :: Whole(View(), original, tried)
    {
      ghost var before := View();
      if !raises {
        mayBeKey := {key};
      }
      stage := if raises then Idle else Installed(stage.k);
      Record(if raises then Fails else Goes, before);
      ok := !raises;
    }

    /** The exclusive create of the temporary file; a stale one in the way refuses. */
    method CreateTemporary(raises: bool) returns (ok: bool)
      requires Traced() && stage.Creating?
      modifies `inodes, `tmp, `stage, `states, `events
      ensures Traced() && events == old(events) + [if raises then Fails else Goes]
      ensures View() == if raises then Abandon(old(View())) else Advance(old(View()))
      ensures ok <==> !raises && old(tmp).None?
      ensures stage == if ok then Created(old(stage).k) else Idle
      ensures forall original, tried | Whole(old(View()), original, tried) :: Whole(View(), original, tried)
    {
      ghost var before := View();
      ok := !raises && tmp.None?;
      if ok {
        tmp := Some(|inodes|);
        inodes := inodes + [Inode([], false)];
      }
      stage := if ok then Created(stage.k) else Idle;
      Record(if raises then Fails else Goes, before);
    }

    /** The loop of writes; a failure unlinks the temporary file. */
    method WriteTemporary(k: Bytes, raises: bool) returns (ok: bool)
      requires Traced() && stage == Created(k)
      modifies `inodes, `tmp, `stage, `states, `events
      ensures Traced() && events == old(events) + [if raises then Fails else Goes]
      ensures View() == if raises then Abandon(old(View())) else Advance(old(View()))
      ensures ok == !raises
      ensures stage == if ok then Written(k) else Idle
      ensures forall original, tried | Whole(old(View()), original, tried) :: Whole(View(), original, tried)
    {
      ghost var before := View();
      if raises {
        tmp := None;
      } else {
        inodes := inodes[tmp.value := Inode(k, false)];
      }
      stage := if raises then Idle else Written(k);
      Record(if raises then Fails else Goes, before);
      ok := !raises;
    }

    /** Its fsync. */
    method FsyncTemporary(raises: bool) returns (ok: bool)
      requires Traced() && stage.Written?
      modifies `inodes, `tmp, `stage, `states, `events
      ensures Traced() && events == old(events) + [if raises then Fails else Goes]
      ensures View() == if raises then Abandon(old(View())) else Advance(old(View()))
      ensures ok == !raises
      ensures stage == if ok then FileSynced(old(stage).k) else Idle
      ensures forall original, tried | Whole(old(View()), original, tried) :: Whole(View(), original, tried)
    {
      ghost var before := View();
      if raises {
        tmp := None;
      } else {
        inodes := inodes[tmp.value := inodes[tmp.value].(synced := true)];
      }
      stage := if raises then Idle else FileSynced(stage.k);
      Record(if raises then Fails else Goes, before);
      ok := !raises;
    }

    /** The rename over the key, or the unlink when it fails. */
    method RenameTemporary(raises: bool) returns (ok: bool)
      requires Traced() && stage.FileSynced?
      modifies `key, `tmp, `mayBeKey, `stage, `states, `events
      ensures Traced() && events == old(events) + [if raises then Fails else Goes]
      ensures View() == if raises then Abandon(old(View())) else Advance(old(View()))
      ensures ok == !raises
      ensures stage == if ok then Renamed(old(stage).k) else Idle
      ensures forall original, tried | Whole(old(View()), original, tried) :: Whole(View(), original, tried)
    {
      ghost var before := View();
      if !raises {
        key, mayBeKey := tmp, mayBeKey + {tmp};
      }
      tmp := None;
      stage := if raises then Idle else Renamed(stage.k);
      Record(if raises then Fails else Goes, before);
      ok := !raises;
    }

    /** fsync of the directory after the rename, and the bytes read back. */
    method FsyncNewName(k: Bytes, raises: bool) returns (ok: bool)
      requires Traced() && stage == Renamed(k)
      modifies `mayBeKey, `stage, `states, `events
      ensures Traced() && events == old(events) + [if raises then Fails else Goes]
      ensures View() == if raises then Abandon(old(View())) else Advance(old(View()))
      ensures ok == !raises
      ensures stage == if ok then Installed(k) else Idle
      ensures forall original, tried | Whole(old(View()), original, tried) :: Whole(View(), original, tried)
    {
      ghost var before := View();
      ok := !raises;
      if ok {
        mayBeKey := {key};
        ok := key.Some? && inodes[key.value].bytes == k;
      }
      stage := if ok then Installed(k) else Idle;
      Record(if raises then Fails else Goes, before);
    }

    /** lstat, open and compare: what is there decides how to go on. */
    method Compare(k: Bytes) returns (same: bool)
      requires Traced() && stage == Proved(k)
      modifies `stage, `states, `events
      ensures Traced() && events == old(events) + [Goes] && View() == Advance(old(View()))
      ensures same <==> Visible(View().disk) == Some(k)
      ensures same <==> old(Visible(View().disk)) == Some(k)
      ensures stage == if same then Comparing(k) else Creating(k)
      ensures forall original, tried | Whole(old(View()), original, tried) :: Whole(View(), original, tried)
    {
      ghost var before := View();
      same := key.Some? && inodes[key.value].bytes == k;
      stage := if same then Comparing(k) else Creating(k);
      Record(Goes, before);
    }

    /** COMMIT, which makes the rows of the bundle durable. */
    method Commit(k: Bytes, raises: bool) returns (ok: bool)
      requires Traced() && stage == Installed(k)
      modifies `committed, `stage, `states, `events
      ensures Traced() && events == old(events) + [if raises then Fails else Goes]
      ensures View() == if raises then Abandon(old(View())) else Advance(old(View()))
      ensures ok == !raises
      ensures stage.Idle? && committed == if ok then Some(k) else old(committed)
    {
      ghost var before := View();
      if !raises {
        committed := Some(k);
      }
      stage := Idle;
      Record(if raises then Fails else Goes, before);
      ok := !raises;
    }

    // ── the procedure ─────────────────────────────────

    /**
     `_reconfirm_identical_key`, once the bytes were found the same: make file and name durable again.
     Of the calls it makes `calls` succeed before one raises.
     */
    method Reconfirm(k: Bytes, calls: nat) returns (ok: bool)
      requires Traced() && stage == Comparing(k)
      modifies `inodes, `mayBeKey, `stage, `states, `events
      ensures Traced() && old(events) < events
      ensures ok <==> calls >= 2
      ensures stage == if ok then Installed(k) else Idle
      ensures forall original, tried | Whole(old(View()), original, tried) :: Whole(View(), original, tried)
      ensures ok ==> Durable(View().disk, k)
    {
      hide *;
      ok := FsyncKey(calls == 0);
      if ok {
        ok := FsyncNameAgain(calls == 1);
      }
      if ok {
        InstalledIsDurable();
      }
    }

    /** `_write_private_file`: temporary file, write, fsync, rename, fsync of the directory. */
    method WritePrivateFile(k: Bytes, calls: nat) returns (ok: bool)
      requires Traced() && stage == Creating(k)
      modifies `inodes, `key, `tmp, `mayBeKey, `stage, `states, `events
      ensures Traced() && old(events) < events
      ensures ok <==> calls >= 5 && old(tmp).None?
      ensures stage == if ok then Installed(k) else Idle
      ensures forall original, tried | Whole(old(View()), original, tried) :: Whole(View(), original, tried)
      ensures ok ==> Durable(View().disk, k)
    {
      hide *;
      ok := CreateTemporary(calls == 0);
      if ok {
        ok := WriteTemporary(k, calls == 1);
      }
      if ok {
        ok := FsyncTemporary(calls == 2);
      }
      if ok {
        ok := RenameTemporary(calls == 3);
      }
      if ok {
        ok := FsyncNewName(k, calls == 4);
      }
      if ok {
        InstalledIsDurable();
      }
    }

    /** `_install_secret_key`: true only once the key, its file and its name are on the disk. */
    method InstallSecretKey(k: Bytes, calls: nat) returns (ok: bool)
      requires Traced() && stage == Proved(k)
      modifies `inodes, `key, `tmp, `mayBeKey, `stage, `states, `events
      ensures Traced() && old(events) < events
      ensures stage == if ok then Installed(k) else Idle
      ensures ok ==> Durable(View().disk, k) && Visible(View().disk) == Some(k)
      ensures ok <==> if old(Visible(View().disk)) == Some(k) then calls >= 2 else calls >= 5 && old(tmp).None?
      ensures forall original, tried | Whole(old(View()), original, tried) :: Whole(View(), original, tried)
    {
      hide *;
      var same := Compare(k);
      if same {
        ok := Reconfirm(k, calls);
      } else {
        ok := WritePrivateFile(k, calls);
      }
      if ok {
        InstalledIsDurable();
      }
    }

    /** The end of `restore_bundle`: COMMIT comes after the key, and only if it is there for good. */
    method CommitWithKey(k: Bytes, calls: nat, commits: bool) returns (ok: bool)
      requires Traced() && stage.Idle? && committed.None?
      modifies this
      ensures Traced() && old(events) + [Begins(k)] <= events && stage.Idle?
      ensures ok <==> committed == Some(k)
      ensures ok <==>
              commits && if old(Visible(View().disk)) == Some(k) then calls >= 2 else calls >= 5 && old(tmp).None?
      ensures committed.Some? ==> committed == Some(k) && Durable(View().disk, k) && Visible(View().disk) == Some(k)
    {
      ghost var before := View();
      stage := Proved(k);
      Record(Begins(k), before);
      ok := InstallSecretKey(k, calls);
      if ok {
        ok := Commit(k, !commits);
      }
    }
  }
}
