/**
 The WAL recovery run (backend/app/wal_recovery.py:1011-1320, 1409-1490, 1553-1770): back the database
 up, prove the backup on a disposable copy, and only then fold the write-ahead log into the original,
 under an authority that can be spent once. Every step may raise.
 */
module Recovery {
  import opened Wrappers

  /** One file as `file_facts` reports it; a digest stands for the bytes it was taken over. */
  datatype File = Absent | Present(inode: nat, device: nat, bytes: string)

  /** A database and the write-ahead log beside it. */
  datatype Pair = Pair(db: File, wal: File)

  function Content(f: File): Option<string> { if f.Present? then Some(f.bytes) else None }

  function Inode(f: File): Option<nat> { if f.Present? then Some(f.inode) else None }

  function Device(f: File): Option<nat> { if f.Present? then Some(f.device) else None }

  /** A file this run wrote: its bytes, whether they were flushed, whether its directory entry was. */
  datatype Saved = Nothing | Saved(bytes: string, flushed: bool, named: bool)

  /** A copied database and log, and whether their directory's own entry was flushed. */
  datatype Copy = Copy(db: Saved, wal: Saved, dirNamed: bool)

  const NO_COPY := Copy(Nothing, Nothing, false)

  function Visible(s: Saved): Option<string> { if s.Saved? then Some(s.bytes) else None }

  /** What a power loss is certain to leave of a file below a path whose entries are durable or not. */
  function Survives(s: Saved, pathNamed: bool): Option<string> {
    if pathNamed && s.Saved? && s.flushed && s.named then Some(s.bytes) else None
  }

  function Named(s: Saved): Saved { if s.Saved? then s.(named := true) else s }

  /**
   A refusal of this module, any other error, or an interrupt that is not an error; and whether its
   text can be had at all, or asking for it raises something else.
   */
  datatype Exc = Refusal(text: bool) | Ordinary(text: bool) | Interrupt(text: bool)

  const REFUSAL := Refusal(true)

  datatype TableFacts = TableFacts(rowCount: nat, maxId: Option<int>, maxTimestamp: Option<string>)

  datatype Readback = Readback(sound: bool, sentinelRows: nat, tables: map<string, TableFacts>)

  predicate Verified(r: Readback, baseline: Readback) {
    && r.sound
    && r.sentinelRows >= 1
    && r.sentinelRows == baseline.sentinelRows && r.tables == baseline.tables
  }

  /** The row `PRAGMA wal_checkpoint` returns. */
  datatype Checkpoint = Checkpoint(busy: int, log: int, moved: int)

  predicate Ok(c: Checkpoint) { c.busy == 0 && c.moved == c.log }

  datatype Evidence = Evidence(wal: File, dbRows: nat, dbTotal: nat, bothRows: nat, bothTotal: nat)

  /** The commit looked for is in the log and nowhere else. */
  predicate WalOnly(e: Evidence) {
    && e.wal.Present? && e.wal.bytes != ""
    && e.dbRows == 0
    && e.bothRows >= 1
    && e.bothTotal > e.dbTotal
  }

  /** What the authority answers with. */
  datatype Grant = Grant(ok: bool, claimId: string, leaseId: string, dbPath: string, walPath: string,
                         dbInode: Option<nat>, dbDevice: Option<nat>, dbBytes: Option<string>,
                         walInode: Option<nat>, walDevice: Option<nat>, walBytes: Option<string>,
                         recordPath: string, manifestPath: string)

  datatype ClaimState = Claimed | Applying | Completed | Failed

  datatype ClaimRecord = ClaimRecord(state: ClaimState, claimId: string, leaseId: string, manifestPath: string,
                                     dbPath: string, walPath: string, applyId: string)

  predicate Blank(s: string) {
    forall c | c in s :: c == ' ' || '\t' <= c <= '\r'
  }

  function WalPath(db: string): string { db + "-wal" }

  /** The grant is about this file, by name, identity and content. */
  predicate GrantFits(g: Grant, path: string, now: Pair) {
    && g.ok && !Blank(g.claimId) && !Blank(g.leaseId)
    && g.dbPath == path && g.walPath == WalPath(path)
    && g.dbInode == Inode(now.db) && g.dbBytes == Content(now.db)
    && (g.dbDevice.Some? ==> g.dbDevice == Device(now.db))
    && g.walInode == Inode(now.wal) && g.walBytes == Content(now.wal)
  }

  /** The same files with the same bytes; nothing compares the device of the log. */
  predicate SameFiles(a: Pair, b: Pair) {
    a.db == b.db && Inode(a.wal) == Inode(b.wal) && Content(a.wal) == Content(b.wal)
  }

  /** A grant that says about the files what is true of them. */
  function Describing(g: Grant, now: Pair): Grant {
    g.(dbInode := Inode(now.db), dbDevice := Device(now.db), dbBytes := Content(now.db),
       walInode := Inode(now.wal), walDevice := Device(now.wal), walBytes := Content(now.wal))
  }

  /** What an authority that agrees says about these files. */
  function Good(path: string, now: Pair): (g: Grant)
    ensures GrantFits(g, path, now) && !Blank(g.recordPath) && g == Describing(g, now)
  {
    assert "x"[0] in "x";
    Grant(true, "x", "x", path, WalPath(path), Inode(now.db), Device(now.db), Content(now.db),
          Inode(now.wal), Device(now.wal), Content(now.wal), "x", "x")
  }

  /** The record on disk is the claim the grant came from. */
  predicate ClaimFits(r: ClaimRecord, g: Grant, path: string) {
    && r.state == Claimed
    && r.claimId == g.claimId && r.leaseId == g.leaseId && r.manifestPath == g.manifestPath
    && r.dbPath == path && r.walPath == WalPath(path)
  }

  /** What was offered as the authority. */
  datatype Offer = NoFence | Stranger | Authority

  datatype Call = Complete | Fail

  datatype Outcome = Recovered | NotRecovered

  class Run {
    const dbPath: string
    /** The authority really quiesced the host: it answers truthfully and nobody writes afterwards. */
    const quiesced: bool
    /** Nothing raised anywhere in this run is without a text. */
    const worded: bool
    /** Nothing raises, nobody else writes, and the world answers as a recovery that may proceed needs. */
    const smooth: bool

    // the disk
    var source: Pair                        // others may change it at any time
    var runNamed: bool                      // the run directory's entry in the backup root is durable
    var snapshot: Copy
    var restore: Copy
    var record: Option<ClaimRecord>         // the claim record; None when it does not read back

    // the authority
    var answered: bool
    ghost var calls: seq<Call>              // every complete() and fail() it was sent
    ghost var touched: Option<Pair>         // the source as it was when this run opened it for writing

    // the report
    var before: Option<Pair>
    var revalidated: Option<Pair>
    var evidence: Option<Evidence>
    var baseline: Option<Readback>
    var restoreCheckpoint: Option<Checkpoint>
    var restoreReadback: Option<Readback>
    var grant: Option<Grant>
    var claimRecord: Option<ClaimRecord>
    var applyId: Option<string>
    var applyRecord: Option<ClaimRecord>
    var checkpointStarted: bool
    var sourceCheckpoint: Option<Checkpoint>
    var sourceReadback: Option<Readback>
    var claimOutcome: Option<Outcome>
    var spendError: bool

    constructor (dbPath: string, source: Pair, quiesced: bool, worded: bool, smooth: bool)
      ensures Untried() && this.source == source && this.dbPath == dbPath
      ensures this.quiesced == quiesced && this.worded == worded && this.smooth == smooth
    {
      this.dbPath, this.source, this.quiesced, this.worded, this.smooth := dbPath, source, quiesced, worded, smooth;
      runNamed, snapshot, restore, record := false, NO_COPY, NO_COPY, None;
      answered, calls, touched := false, [], None;
      before, revalidated, evidence, baseline := None, None, None, None;
      restoreCheckpoint, restoreReadback, grant, claimRecord := None, None, None, None;
      applyId, applyRecord, checkpointStarted := None, None, false;
      sourceCheckpoint, sourceReadback, claimOutcome, spendError := None, None, None, false;
    }

    ghost predicate Untried()
      reads `snapshot, `restore, `calls, `touched, `answered, `checkpointStarted, `claimOutcome, `spendError
    {
      && snapshot == restore == NO_COPY && calls == [] && touched.None? && !answered
      && !checkpointStarted && claimOutcome.None? && !spendError
    }

    /** There is a database to recover, and a log beside it with something in it. */
    ghost predicate Recoverable()
      reads `source
    {
      source.db.Present? && source.wal.Present? && source.wal.bytes != ""
    }

    /** Nobody has changed the source since it was recorded. */
    ghost predicate Unchanged()
      reads `source, `before
    {
      before == Some(source)
    }

    /** The grant is about the source as it is, to the last field. */
    ghost predicate Described()
      reads `source, `grant
    {
      grant.Some? && grant.value == Describing(grant.value, source)
    }

    /** A power loss now leaves the database and its log as they were first recorded. */
    ghost predicate Backed()
      reads `before, `snapshot, `runNamed
    {
      && before.Some? && before.value.db.Present?
      && Survives(snapshot.db, runNamed && snapshot.dirNamed) == Content(before.value.db)
      && Survives(snapshot.wal, runNamed && snapshot.dirNamed) == Content(before.value.wal)
    }

    /** The whole procedure has already been through on the disposable copy. */
    ghost predicate Rehearsed()
      reads `before, `evidence, `baseline, `restoreCheckpoint, `restoreReadback
    {
      && before.Some? && evidence.Some? && evidence.value.wal == before.value.wal && WalOnly(evidence.value)
      && baseline.Some? && restoreCheckpoint.Some? && Ok(restoreCheckpoint.value)
      && restoreReadback.Some? && Verified(restoreReadback.value, baseline.value)
    }

    /** The authority answered for this very file, from the claim on disk. */
    ghost predicate Granted()
      reads `before, `revalidated, `grant, `claimRecord, `answered, `source
    {
      && before.Some? && revalidated == before && grant.Some? && GrantFits(grant.value, dbPath, before.value)
      && claimRecord.Some? && ClaimFits(claimRecord.value, grant.value, dbPath)
      && answered && (quiesced ==> SameFiles(source, before.value))
    }

    /** As `Granted`, once the source itself is being written. */
    ghost predicate Authorised()
      reads `before, `revalidated, `grant, `claimRecord, `applyId, `applyRecord
    {
      && before.Some? && revalidated == before && grant.Some? && GrantFits(grant.value, dbPath, before.value)
      && claimRecord.Some? && ClaimFits(claimRecord.value, grant.value, dbPath)
      && applyId.Some? && applyRecord.Some?
      && applyRecord.value.state == Applying && applyRecord.value.applyId == applyId.value
    }

    ghost predicate SourceVerified()
      reads `baseline, `sourceCheckpoint, `sourceReadback
    {
      && baseline.Some? && sourceCheckpoint.Some? && Ok(sourceCheckpoint.value)
      && sourceReadback.Some? && Verified(sourceReadback.value, baseline.value)
    }

    /** What must hold once the original may have been written to. */
    ghost predicate Safe()
      reads `touched, `checkpointStarted, `before, `snapshot, `runNamed, `evidence, `baseline, `restoreCheckpoint, `restoreReadback, `revalidated, `grant, `claimRecord, `applyId, `applyRecord
    {
      touched.Some? ==>
        && Backed() && Rehearsed() && Authorised() && checkpointStarted
        && (quiesced ==> SameFiles(touched.value, before.value))
    }

    ghost predicate ClosedOut()
      reads `claimOutcome, `spendError
    {
      claimOutcome.Some? || spendError
    }

    /** What was noted of closing the authority out is what it was sent, and only a verified source completes it. */
    ghost predicate SpentHonestly()
      reads `calls, `claimOutcome, `spendError, `touched, `baseline, `sourceCheckpoint, `sourceReadback
    {
      && (ClosedOut() ==> calls != [])
      && (Complete in calls ==> SourceVerified() && touched.Some?)
      && (claimOutcome == Some(Recovered) ==> calls == [Complete])
      && (claimOutcome == Some(NotRecovered) ==> calls != [] && calls[|calls| - 1] == Fail)
    }

    lemma NothingSpent()
      requires calls == [] && claimOutcome.None? && !spendError
      ensures SpentHonestly() && !ClosedOut()
    {
    }

    lemma NothingDone()
      requires Untried()
      ensures calls == [] && claimOutcome.None? && !spendError && touched.None? && !answered
    {
    }

    lemma NothingTouched()
      requires touched.None?
      ensures Safe()
    {
    }

    lemma RecordedToRecover()
      ensures Unchanged() <==> before == Some(source)
      ensures Recoverable() <==> source.db.Present? && source.wal.Present? && source.wal.bytes != ""
    {
    }

    lemma DescribedSays()
      ensures Described() <==> grant.Some? && grant.value == Describing(grant.value, source)
    {
    }

    predicate Worded(e: Option<Exc>) { worded && e.Some? ==> e.value.text }

    lemma WordedSays(e: Option<Exc>)
      ensures Worded(e) <==> (worded && e.Some? ==> e.value.text)
    {
    }

    /** Anything can raise. */
    method Try() returns (e: Option<Exc>)
      ensures Worded(e)
      ensures smooth ==> e.None?
    {
      e := *;
      if smooth {
        e := None;
      }
      if e.Some? && worded {
        assert REFUSAL.text;
        var loud: Exc :| loud.text;
        e := Some(loud);
      }
    }

    /**
     A handler that raises a refusal with the error's text in it. An interrupt goes on as it is, and
     so does a refusal where the handler lets those pass.
     */
    method Reword(e: Exc, passes: bool) returns (x: Exc)
      ensures e.Interrupt? || (passes && e.Refusal?) ==> x == e
      ensures e.text ==> x.text
    {
      if e.Interrupt? || (passes && e.Refusal?) {
        return e;
      }
      x := *;
      if e.text {
        x := REFUSAL;
      }
    }

    /** Others may change the source before it is next looked at, unless the host is quiesced. */
    method Disturb()
      modifies `source
      ensures smooth || (quiesced && answered) ==> source == old(source)
    {
      if !smooth && !(quiesced && answered) {
        source := *;
      }
    }

    /** `file_facts` of the database and its log. */
    method LookAtSource() returns (e: Option<Exc>, seen: Pair)
      modifies `source
      ensures Worded(e)
      ensures smooth || (quiesced && answered) ==> source == old(source)
      ensures smooth ==> e.None?
      ensures seen == source
    {
      Disturb();
      e := Try();
      seen := source;
    }

    method RecordSource() returns (e: Option<Exc>)
      modifies `source, `before
      ensures Worded(e)
      ensures e.None? ==> before.Some?
      ensures smooth ==> e.None? && source == old(source) && Unchanged()
    {
      var raised, seen := LookAtSource();
      if raised.Some? {
        return raised;
      }
      before := Some(seen);
      return None;
    }

    /** `os.mkdir(run_dir)`, then the flush that makes its name durable. */
    method MakeRunDir() returns (e: Option<Exc>)
      modifies `runNamed
      ensures Worded(e)
      ensures e.None? ==> runNamed
      ensures smooth ==> e.None?
    {
      e := Try();
      if e.Some? {
        var x := Reword(e.value, false);
        return Some(x);
      }
      e := Try();
      if e.Some? {
        var x := Reword(e.value, false);
        return Some(x);
      }
      runNamed := true;
    }

    /**
     `_snapshot`: copy and flush the database, copy and flush the log if there is one, then flush the
     directory and its own entry. The bytes copied are whatever was read: others may be writing.
     */
    method CopyPair(there: Option<string>, log: Option<string>) returns (e: Option<Exc>, c: Copy)
      ensures Worded(e)
      ensures smooth && there.Some? ==> e.None? && Visible(c.db) == there && Visible(c.wal) == log
      ensures e.None? ==>
                && c.dirNamed && c.db.Saved? && c.db.flushed && c.db.named
                && (c.wal.Saved? ==> c.wal.flushed && c.wal.named)
    {
      c := NO_COPY;
      e := Try();
      if e.Some? { return; }
      var bytes: string := *;
      if smooth && there.Some? {
        bytes := there.value;
      }
      c := c.(db := Saved(bytes, false, false));
      e := Try();
      if e.Some? { return; }
      c := c.(db := c.db.(flushed := true));
      var read: Option<string> := *;
      if smooth {
        read := log;
      }
      if read.Some? {
        c := c.(wal := Saved(read.value, false, false));
        e := Try();
        if e.Some? { return; }
        c := c.(wal := c.wal.(flushed := true));
      }
      e := Try();
      if e.Some? { return; }
      c := c.(db := Named(c.db), wal := Named(c.wal));
      e := Try();
      if e.Some? { return; }
      c := c.(dirNamed := true);
    }

    /** The snapshot, compared with what the source was recorded as, and the source looked at again. */
    method TakeSnapshot() returns (e: Option<Exc>)
      requires before.Some? && runNamed
      modifies `source, `snapshot
      ensures Worded(e)
      ensures e.None? ==> Backed()
      ensures smooth && old(Unchanged() && source.db.Present?) ==> e.None? && source == old(source) && Unchanged()
    {
      e, snapshot := CopyPair(Content(source.db), Content(source.wal));
      if e.Some? { return; }
      e := Try();
      if e.Some? { return; }
      if Visible(snapshot.db) != Content(before.value.db) || Visible(snapshot.wal) != Content(before.value.wal) {
        return Some(REFUSAL);
      }
      var raised, seen := LookAtSource();
      if raised.Some? || seen != before.value {
        return Some(REFUSAL);
      }
    }

    /** The disposable copy: the same bytes, the oracle, the baseline, a checkpoint and a read back. */
    method RehearseOnCopy() returns (e: Option<Exc>)
      requires Backed()
      modifies `restore, `evidence, `baseline, `restoreCheckpoint, `restoreReadback
      ensures Worded(e)
      ensures e.None? ==> Rehearsed()
      ensures smooth && before.value.wal.Present? && before.value.wal.bytes != "" ==> e.None?
    {
      e, restore := CopyPair(Visible(snapshot.db), Visible(snapshot.wal));
      if e.Some? { return; }
      if Visible(restore.db) != Visible(snapshot.db) || Visible(restore.wal) != Visible(snapshot.wal) {
        return Some(REFUSAL);
      }
      e := MeasureCopy();
      if e.Some? { return; }
      e := Try();
      if e.Some? { return; }
      // The copy is rewritten by its checkpoint; only what reads back from it counts.
      var rewritten: Copy, row: Checkpoint := *, *;
      if smooth {
        row := Checkpoint(0, row.log, row.log);
      }
      restore, restoreCheckpoint := rewritten, Some(row);
      if !Ok(row) {
        return Some(REFUSAL);
      }
      e := Try();
      if e.Some? { return; }
      var back: Readback := *;
      if smooth {
        back := baseline.value.(sound := true);
      }
      restoreReadback := Some(back);
      if !Verified(back, baseline.value) {
        return Some(REFUSAL);
      }
    }

    /** The sentinel counted without and with the log, judged, and the baseline read. */
    method MeasureCopy() returns (e: Option<Exc>)
      requires before.Some?
      modifies `evidence, `baseline
      ensures Worded(e)
      ensures e.None? ==>
                && evidence.Some? && evidence.value.wal == before.value.wal && WalOnly(evidence.value)
                && baseline.Some?
      ensures smooth && before.value.wal.Present? && before.value.wal.bytes != "" ==>
                e.None? && baseline.value.sentinelRows >= 1
    {
      e := Try();
      if e.Some? { return; }
      var a: nat, b: nat, c: nat, d: nat := *, *, *, *;
      if smooth {
        a, c, d := 0, c + 1, b + d + 1;
      }
      evidence := Some(Evidence(before.value.wal, a, b, c, d));
      if !WalOnly(evidence.value) {
        return Some(REFUSAL);
      }
      e := Try();
      if e.Some? { return; }
      var seen: Readback := *;
      if smooth {
        seen := seen.(sentinelRows := seen.sentinelRows + 1);
      }
      baseline := Some(seen);
    }

    /** The source once more, the authority's answer checked against it, and the claim behind it. */
    method Ask() returns (e: Option<Exc>)
      requires before.Some? && !answered
      modifies `source, `revalidated, `grant, `answered, `claimRecord, `record
      ensures Worded(e)
      ensures e.None? ==> Granted()
      ensures smooth && old(Unchanged()) ==> e.None? && source == old(source) && Described()
    {
      var raised, seen := LookAtSource();
      if raised.Some? {
        return Some(REFUSAL);
      }
      revalidated := Some(seen);
      if revalidated != before {
        return Some(REFUSAL);
      }
      e := Consult();
      if e.Some? { return; }
      if !GrantFits(grant.value, dbPath, revalidated.value) {
        return Some(REFUSAL);
      }
      if Blank(grant.value.recordPath) {
        return Some(REFUSAL);
      }
      e := Try();
      if e.Some? { return; }
      record := *;
      var manifestThere: bool := *;
      if smooth {
        record := Some(ClaimRecord(Claimed, grant.value.claimId, grant.value.leaseId, grant.value.manifestPath,
                                   dbPath, WalPath(dbPath), ""));
        manifestThere := true;
      }
      if record.None? || !ClaimFits(record.value, grant.value, dbPath) || !manifestThere {
        return Some(REFUSAL);
      }
      claimRecord := record;
    }

    /** `check_before_source_open`: from a quiesced host, a true description that stays true. */
    method Consult() returns (e: Option<Exc>)
      modifies `source, `grant, `answered
      ensures Worded(e)
      ensures e.None? ==> grant.Some? && answered
      ensures e.None? && quiesced ==> grant.value == Describing(grant.value, source)
      ensures smooth ==> e.None? && source == old(source) && Described()
      ensures smooth ==> GrantFits(grant.value, dbPath, source) && !Blank(grant.value.recordPath)
    {
      Disturb();
      e := Try();
      if e.Some? {
        var x := Reword(e.value, true);
        return Some(x);
      }
      var answer: Option<Grant> := *;
      if smooth {
        answer := Some(Good(dbPath, source));
      }
      if !answer.Some? {
        return Some(REFUSAL);
      }
      grant := Some(if quiesced then Describing(answer.value, source) else answer.value);
      answered := true;
    }

    /** `_begin_apply`: the transition is only believed once the record on disk says it. */
    method BeginApply() returns (e: Option<Exc>)
      requires Granted()
      modifies `applyId, `applyRecord, `record
      ensures Worded(e)
      ensures e.None? ==> Granted() && Authorised()
      ensures smooth ==> e.None?
    {
      e := Try();
      if e.Some? {
        var x := Reword(e.value, true);
        return Some(x);
      }
      var id: string := *;
      if smooth {
        id := "x" + id;
        assert id[0] in id && id[0] == 'x';
      }
      if Blank(id) {
        return Some(REFUSAL);
      }
      record := *;
      if smooth {
        record := Some(claimRecord.value.(state := Applying, applyId := id));
      }
      if record.None? || record.value.state != Applying || record.value.applyId != id {
        return Some(REFUSAL);
      }
      applyId, applyRecord := Some(id), record;
    }

    /** Open the original for writing. Everything that must be true before that is a precondition. */
    method OpenSource() returns (e: Option<Exc>)
      requires touched.None? && Backed() && Rehearsed() && Granted() && Authorised()
      modifies `source, `touched, `checkpointStarted
      ensures Worded(e)
      ensures touched.Some? && Safe()
      ensures smooth ==> e.None? && source == old(source)
    {
      checkpointStarted := true;
      Disturb();
      touched := Some(source);
      e := Try();
    }

    /** The path still names the database the grant was about. */
    method StillTheSame() returns (e: Option<Exc>)
      requires grant.Some?
      modifies `source
      ensures Worded(e)
      ensures old(Granted()) ==> Granted()
      ensures e.None? ==> Inode(source.db) == grant.value.dbInode && Device(source.db) == grant.value.dbDevice
      ensures smooth && old(Described()) ==> e.None? && source == old(source) && Described()
    {
      var raised, seen := LookAtSource();
      if raised.Some? {
        return raised;
      }
      if Inode(seen.db) != grant.value.dbInode || Device(seen.db) != grant.value.dbDevice {
        return Some(REFUSAL);
      }
      return None;
    }

    /** And so does the log's. */
    method LogStillTheSame() returns (e: Option<Exc>)
      requires grant.Some?
      modifies `source
      ensures Worded(e)
      ensures old(Granted()) ==> Granted()
      ensures e.None? ==> Inode(source.wal) == grant.value.walInode && Device(source.wal) == grant.value.walDevice
      ensures smooth && old(Described()) ==> e.None? && source == old(source) && Described()
    {
      var raised, seen := LookAtSource();
      if raised.Some? {
        return raised;
      }
      if Inode(seen.wal) != grant.value.walInode || Device(seen.wal) != grant.value.walDevice {
        return Some(REFUSAL);
      }
      return None;
    }

    lemma HasGrant()
      requires Granted()
      ensures grant.Some?
    {
    }

    /** A source opened for writing is verified once it was checkpointed and read back. */
    lemma BothVerify()
      requires sourceCheckpoint.Some? && Ok(sourceCheckpoint.value) && baseline.Some?
      requires sourceReadback.Some? && Verified(sourceReadback.value, baseline.value)
      ensures SourceVerified()
    {
    }

    /**
     `_apply_to_source`: nothing it does touches the backup, and it only returns normally when the
     source reads back as the copy did.
     */
    method ApplyToSource() returns (e: Option<Exc>)
      requires touched.None? && Backed() && Rehearsed() && Granted() && Authorised()
      modifies `source, `touched, `checkpointStarted, `sourceCheckpoint, `sourceReadback
      ensures Worded(e)
      ensures Safe()
      ensures e.None? ==> touched.Some? && SourceVerified()
      ensures smooth && old(Described()) ==> e.None?
    {
      hide *;
      NothingTouched();
      HasGrant();
      e := StillTheSame();
      if e.Some? { return; }
      e := LogStillTheSame();
      if e.Some? { return; }
      e := OpenSource();
      if e.Some? { return; }
      e := StillTheSame();
      if e.Some? { return; }
      e := CheckpointSource();
      if e.Some? { return; }
      e := ReadSourceBack();
      if e.Some? { return; }
      BothVerify();
    }

    method CheckpointSource() returns (e: Option<Exc>)
      requires touched.Some? && Safe()
      modifies `source, `sourceCheckpoint
      ensures Worded(e)
      ensures Safe()
      ensures e.None? ==> sourceCheckpoint.Some? && Ok(sourceCheckpoint.value)
      ensures smooth ==> e.None?
    {
      var rewritten: Pair, row: Checkpoint := *, *;
      if smooth {
        row := Checkpoint(0, row.log, row.log);
      }
      source := rewritten;
      e := Try();
      if e.Some? { return; }
      sourceCheckpoint := Some(row);
      if !Ok(row) {
        return Some(REFUSAL);
      }
    }

    method ReadSourceBack() returns (e: Option<Exc>)
      requires touched.Some? && Safe()
      modifies `sourceReadback
      ensures Worded(e)
      ensures Safe()
      ensures e.None? ==> baseline.Some? && sourceReadback.Some? && Verified(sourceReadback.value, baseline.value)
      ensures smooth ==> e.None?
    {
      e := Try();
      if e.Some? { return; }
      var back: Readback := *;
      if smooth {
        back := restoreReadback.value;
      }
      sourceReadback := Some(back);
      if !Verified(back, baseline.value) {
        return Some(REFUSAL);
      }
    }

    /**
     `_spend_claim`: close the authority out, unless that was noted already. A problem on the failure
     path is only noted; on the way out of a finished recovery it is raised. The note holds the
     problem's text: if that cannot be had, nothing is noted and something else is raised.
     */
    method SpendClaim(finished: bool) returns (e: Option<Exc>)
      requires SpentHonestly()
      requires finished ==> SourceVerified() && touched.Some? && calls == []
      modifies `calls, `claimOutcome, `spendError
      ensures Worded(e)
      ensures SpentHonestly()
      ensures old(ClosedOut()) ==> ClosedOut() && e.None? && calls == old(calls) && claimOutcome == old(claimOutcome)
      ensures !old(ClosedOut()) ==> calls == old(calls) + [if finished then Complete else Fail]
      ensures !ClosedOut() ==> e.Some? && !worded
      ensures smooth ==> e.None?
      ensures finished && !old(ClosedOut()) && e.None? ==> claimOutcome == Some(Recovered)
      ensures !finished && ClosedOut() ==> e.None?
    {
      if claimOutcome.Some? || spendError {
        return None;
      }
      calls := calls + [if finished then Complete else Fail];
      e := Try();
      if e.Some? && !e.value.text {
        var instead: Exc := *;
        return Some(instead);
      }
      if e.Some? {
        spendError := true;
        if !finished {
          return None;
        }
        return Some(if e.value.Interrupt? then e.value else REFUSAL);
      }
      claimOutcome := Some(if finished then Recovered else NotRecovered);
    }

    /** Everything up to the point where the original is first written. */
    method Prepare() returns (e: Option<Exc>)
      requires touched.None? && !answered
      modifies `source, `runNamed, `snapshot, `restore, `record, `answered, `before,
               `revalidated, `evidence, `baseline, `restoreCheckpoint, `restoreReadback,
               `grant, `claimRecord, `applyId, `applyRecord
      ensures Worded(e)
      ensures e.None? ==> Backed() && Rehearsed() && Granted() && Authorised()
      ensures smooth && old(Recoverable()) ==> e.None? && Described()
    {
      hide *;
      RecordedToRecover();
      e := RecordSource();
      if e.Some? { return; }
      RecordedToRecover();
      e := Try();                    // the space plan
      if e.Some? { return; }
      e := MakeRunDir();
      if e.Some? { return; }
      e := TakeSnapshot();
      if e.Some? { return; }
      RecordedToRecover();
      e := RehearseOnCopy();
      if e.Some? { return; }
      RecordedToRecover();
      e := Ask();
      if e.Some? { return; }
      DescribedSays();
      e := BeginApply();
      DescribedSays();
    }

    /**
     `_run_rehearsal`: an error inside the apply spends the claim before it goes on its way, with its
     text as the reason; of an interrupt only the type is told.
     */
    method RunRehearsal() returns (e: Option<Exc>)
      requires Untried()
      modifies this
      ensures Worded(e)
      ensures Safe() && SpentHonestly() && |calls| <= 1
      ensures worded && calls != [] ==> ClosedOut()
      ensures e.None? ==> claimOutcome == Some(Recovered) && touched.Some?
      ensures smooth && old(Recoverable()) ==> e.None?
    {
      hide *;
      NothingDone();
      e := Prepare();
      NothingSpent();
      NothingTouched();
      if e.Some? { return; }
      e := ApplyToSource();
      NothingSpent();
      WordedSays(e);
      if e.Some? {
        if !e.value.Interrupt? && !e.value.text {
          var instead: Exc := *;
          WordedSays(Some(instead));
          return Some(instead);
        }
        var worse := SpendClaim(false);
        WordedSays(worse);
        e := if worse.Some? then worse else Some(if e.value.Ordinary? then Refusal(true) else e.value);
        WordedSays(e);
        return;
      }
      e := SpendClaim(true);
    }

    lemma NotedWasSent()
      requires SpentHonestly()
      ensures ClosedOut() ==> calls != []
    {
    }

    lemma Finished()
      requires Safe() && SpentHonestly() && claimOutcome == Some(Recovered)
      ensures ClosedOut() && calls == [Complete] && touched.Some? && Backed() && SourceVerified()
    {
    }

    /** The last handler: close the authority out with the error's text, then let the error go on. */
    method LastHandler(e: Exc) returns (x: Option<Exc>)
      requires SpentHonestly()
      modifies `calls, `claimOutcome, `spendError
      ensures SpentHonestly() && x.Some?
      ensures calls == if e.text && !old(ClosedOut()) then old(calls) + [Fail] else old(calls)
    {
      if !e.text {
        var instead: Exc := *;
        return Some(instead);
      }
      var worse := SpendClaim(false);
      x := if worse.Some? then worse else Some(e);
    }

    /**
     `rehearse_wal_recovery`. An authority that was accepted is closed out exactly once if and only if
     the arguments can be put into the report, which happens after the authority is accepted and
     before anything guards it, and putting things into words does not fail where it matters: the
     exception that reaches the last handler, when nothing was sent before; or what the authority
     itself raised when it was closed out on the way, without which the handler does not know and
     closes it out again. `tried` says that something was sent before the last handler, `noted` that
     its outcome was written down, and `told` that whatever reached the handler has a text.
     */
    method Rehearse(offer: Offer, reportable: bool)
        returns (e: Option<Exc>, ghost told: bool, ghost tried: bool, ghost noted: bool)
      requires Untried()
      modifies this
      ensures Safe() && SpentHonestly()
      ensures worded && offer.Authority? && reportable ==> |calls| == 1
      ensures |calls| == 1 <==> offer.Authority? && reportable && (if tried then noted || !told else told)
      ensures |calls| == 0 <==> !offer.Authority? || !reportable || (!tried && !told)
      ensures |calls| <= 2
      ensures !(offer.Authority? && reportable) ==> e.Some? && calls == [] && touched.None?
      ensures e.None? ==> calls == [Complete] && claimOutcome == Some(Recovered)
      ensures e.None? ==> touched.Some? && Backed() && SourceVerified()
      ensures smooth && old(Recoverable()) && offer.Authority? && reportable ==> e.None?
    {
      hide *;
      NothingDone();
      NothingSpent();
      NothingTouched();
      told, tried, noted := true, false, false;
      if !offer.Authority? {
        return Some(REFUSAL), told, tried, noted;
      }
      if !reportable {
        return Some(Ordinary(true)), told, tried, noted;
      }
      e := Try();                    // the arguments are checked inside the handler
      if e.None? {
        e := RunRehearsal();
      }
      tried, noted := calls != [], ClosedOut();
      NotedWasSent();
      WordedSays(e);
      if e.Some? {
        told := e.value.text;
        e := LastHandler(e.value);
      } else {
        Finished();
      }
    }
  }
}
