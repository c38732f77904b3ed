/**
 The connection audit (agent/agent/collectors/net_audit.py:229-373): successive snapshots of the
 connection table are diffed into an event log, and interface counters into per-minute rollups.
 The log is proved to replay to the connections that are really open, the rollups to add up.
 */
module NetAudit {
  import opened Wrappers

  datatype ConnKey = ConnKey(proto: string, laddr: string, lport: int, raddr: string, rport: int)

  datatype Conn = Conn(key: ConnKey, status: string, pid: Option<int>, pname: string)

  /** One open connection: since when, and whose. */
  datatype Entry = Entry(key: ConnKey, ts: real, status: string, pid: Option<int>, pname: string)

  datatype Event =
    | Opened(ts: real, key: ConnKey, status: string, pid: Option<int>, pname: string)
    | Closed(ts: real, key: ConnKey, status: string, pid: Option<int>, pname: string, duration: real)

  const WILDCARDS := {"", "0.0.0.0", "::"}

  // ── the diff ────────────────────────────────────────

  function Keys(book: seq<Entry>): set<ConnKey> {
    set e | e in book :: e.key
  }

  function ConnKeys(conns: seq<Conn>): set<ConnKey> {
    set c | c in conns :: c.key
  }

  ghost predicate Distinct(book: seq<Entry>) {
    forall i, j | 0 <= i < j < |book| :: book[i].key != book[j].key
  }

  ghost predicate DistinctConns(conns: seq<Conn>) {
    forall i, j | 0 <= i < j < |conns| :: conns[i].key != conns[j].key
  }

  /** Rows with a peer: listening sockets and unconnected ones are passed over. */
  function Peered(rows: seq<Conn>): seq<Conn> {
    if rows == [] then []
    else
      var n := |rows| - 1;
      Peered(rows[..n]) + if rows[n].key.raddr in WILDCARDS then [] else [rows[n]]
  }

  /** Put one row into a dictionary by key: a row seen again keeps its place and takes the new value. */
  function Put(current: seq<Conn>, c: Conn): seq<Conn> {
    if current == [] then [c]
    else if current[0].key == c.key then [c] + current[1..]
    else [current[0]] + Put(current[1..], c)
  }

  function Current(conns: seq<Conn>): seq<Conn> {
    if conns == [] then []
    else
      var n := |conns| - 1;
      Put(Current(conns[..n]), conns[n])
  }

  /** Connections not in the book yet. */
  function NewEntries(known: set<ConnKey>, current: seq<Conn>, now: real): seq<Entry> {
    if current == [] then []
    else
      var n := |current| - 1;
      var c := current[n];
      NewEntries(known, current[..n], now) +
      if c.key in known then [] else [Entry(c.key, now, c.status, c.pid, c.pname)]
  }

  function OpenEvents(entries: seq<Entry>): seq<Event> {
    seq(|entries|, i requires 0 <= i < |entries| =>
      Opened(entries[i].ts, entries[i].key, entries[i].status, entries[i].pid, entries[i].pname))
  }

  /** What is still there, and what went. */
  function Kept(book: seq<Entry>, there: set<ConnKey>): seq<Entry> {
    if book == [] then []
    else
      var n := |book| - 1;
      Kept(book[..n], there) + if book[n].key in there then [book[n]] else []
  }

  function CloseEvents(book: seq<Entry>, there: set<ConnKey>, now: real): seq<Event> {
    if book == [] then []
    else
      var n := |book| - 1;
      var e := book[n];
      CloseEvents(book[..n], there, now) +
      if e.key in there then [] else [Closed(now, e.key, e.status, e.pid, e.pname, now - e.ts)]
  }

  /** The book after a good snapshot, and everything that happened since the one before. */
  function Diff(book: seq<Entry>, rows: seq<Conn>, now: real): (seq<Entry>, seq<Event>) {
    var current := Current(Peered(rows));
    var there := ConnKeys(current);
    var added := NewEntries(Keys(book), current, now);
    (Kept(book, there) + added, CloseEvents(book, there, now) + OpenEvents(added))
  }

  // ── reading the log back ────────────────────────────

  /**
   Replay a log over the connections open at its start: None as soon as it opens one that is open,
   closes one that is not or as anything else than it was opened, or gives a duration that is not the
   time since then.
   */
  function Replay(open: map<ConnKey, Origin>, log: seq<Event>): Option<map<ConnKey, Origin>>
    decreases |log|
  {
    if log == [] then Some(open)
    else
      match log[0]
      case Opened(ts, key, status, pid, pname) =>
        if key in open then None else Replay(open[key := Origin(ts, status, pid, pname)], log[1..])
      case Closed(ts, key, status, pid, pname, duration) =>
        if key !in open || open[key] != Origin(ts - duration, status, pid, pname) then None
        else Replay(open - {key}, log[1..])
  }

  /** Since when a connection has been open, in which state it was then, and whose. */
  datatype Origin = Origin(ts: real, status: string, pid: Option<int>, pname: string)

  function OriginOf(e: Entry): Origin { Origin(e.ts, e.status, e.pid, e.pname) }

  function Origins(book: seq<Entry>): map<ConnKey, Origin> {
    if book == [] then map[]
    else
      var n := |book| - 1;
      Origins(book[..n])[book[n].key := OriginOf(book[n])]
  }

  lemma {:induction false} ReplayChains(open: map<ConnKey, Origin>, a: seq<Event>, b: seq<Event>)
    ensures Replay(open, a + b) == (match Replay(open, a) case None => None case Some(mid) => Replay(mid, b))
    decreases |a|
  {
    if a == [] {
      assert a + b == b;
    } else {
      assert (a + b)[0] == a[0] && (a + b)[1..] == a[1..] + b;
      match a[0]
      case Opened(ts, key, status, pid, pname) => ReplayChains(open[key := Origin(ts, status, pid, pname)], a[1..], b);
      case Closed(_, key, _, _, _, _) => ReplayChains(open - {key}, a[1..], b);
    }
  }

  lemma {:induction false} OriginsKeys(book: seq<Entry>)
    ensures Origins(book).Keys == Keys(book)
    decreases |book|
  {
    if book != [] {
      var n := |book| - 1;
      assert book == book[..n] + [book[n]];
      OriginsKeys(book[..n]);
    }
  }

  lemma KeysJoin(a: seq<Entry>, b: seq<Entry>)
    ensures Keys(a + b) == Keys(a) + Keys(b)
  {
  }

  lemma KeysOne(e: Entry)
    ensures Keys([e]) == {e.key} && Keys([]) == {}
  {
  }

  lemma ConnKeysJoin(a: seq<Conn>, b: seq<Conn>)
    ensures ConnKeys(a + b) == ConnKeys(a) + ConnKeys(b)
  {
  }

  lemma ConnKeysOne(c: Conn)
    ensures ConnKeys([c]) == {c.key} && ConnKeys([]) == {}
  {
  }

  lemma AppendDistinct(a: seq<Entry>, b: seq<Entry>)
    requires Distinct(a) && Distinct(b) && Keys(a) !! Keys(b)
    ensures Distinct(a + b)
  {
    forall i, j | 0 <= i < j < |a + b|
      ensures (a + b)[i].key != (a + b)[j].key
    {
      if i < |a| <= j {
        assert a[i] in a && a[i].key in Keys(a);
        assert b[j - |a|] in b && b[j - |a|].key in Keys(b);
      }
    }
  }

  lemma AppendDistinctConns(a: seq<Conn>, b: seq<Conn>)
    requires DistinctConns(a) && DistinctConns(b) && ConnKeys(a) !! ConnKeys(b)
    ensures DistinctConns(a + b)
  {
    forall i, j | 0 <= i < j < |a + b|
      ensures (a + b)[i].key != (a + b)[j].key
    {
      if i < |a| <= j {
        assert a[i] in a && a[i].key in ConnKeys(a);
        assert b[j - |a|] in b && b[j - |a|].key in ConnKeys(b);
      }
    }
  }

  lemma SplitConns(a: seq<Conn>, b: seq<Conn>)
    requires DistinctConns(a + b)
    ensures DistinctConns(a) && DistinctConns(b) && ConnKeys(a) !! ConnKeys(b)
  {
    forall i, j | 0 <= i < j < |a|
      ensures a[i].key != a[j].key
    {
      assert (a + b)[i].key != (a + b)[j].key;
    }
    forall i, j | 0 <= i < j < |b|
      ensures b[i].key != b[j].key
    {
      assert (a + b)[|a| + i].key != (a + b)[|a| + j].key;
    }
    forall x, y | x in a && y in b
      ensures x.key != y.key
    {
      var i :| 0 <= i < |a| && a[i] == x;
      var j :| 0 <= j < |b| && b[j] == y;
      assert (a + b)[i].key != (a + b)[|a| + j].key;
    }
  }

  lemma FrontDistinct(book: seq<Entry>)
    requires Distinct(book) && book != []
    ensures Distinct(book[..|book| - 1]) && book[|book| - 1].key !in Keys(book[..|book| - 1])
  {
    var n := |book| - 1;
    forall e | e in book[..n]
      ensures e.key != book[n].key
    {
      var i :| 0 <= i < n && book[i] == e;
    }
  }

  /** Closing, one by one, everything that went leaves the times of what was kept. */
  lemma {:induction false} ClosesReplay(book: seq<Entry>, there: set<ConnKey>, now: real)
    requires Distinct(book)
    ensures Replay(Origins(book), CloseEvents(book, there, now)) == Some(Origins(Kept(book, there)))
    decreases |book|
  {
    if book == [] {
    } else {
      hide *;
      var n := |book| - 1;
      var front, e := book[..n], book[n];
      var closes, kept := CloseEvents(front, there, now), Kept(front, there);
      var rest := if e.key in there then [] else [Closed(now, e.key, e.status, e.pid, e.pname, now - e.ts)];
      BookStep(book, there, now);
      OriginsKeys(front);
      KeptKeys(front, there);
      OriginsKeys(kept);
      ClosesReplay(front, there, now);
      CloseKeys(front, there, now);
      ClosesIgnore(Origins(front), closes, e.key, OriginOf(e));
      ReplayChains(Origins(book), closes, rest);
      ReplayOne(Origins(kept), e, now);
      OriginsOne(kept, e);
    }
  }

  lemma BookStep(book: seq<Entry>, there: set<ConnKey>, now: real)
    requires Distinct(book) && book != []
    ensures var n := |book| - 1;
            var front, e := book[..n], book[n];
            && Distinct(front) && e.key !in Keys(front)
            && Origins(book) == Origins(front)[e.key := OriginOf(e)]
            && Kept(book, there) == Kept(front, there) + (if e.key in there then [e] else [])
            && CloseEvents(book, there, now) ==
               CloseEvents(front, there, now) +
               if e.key in there then [] else [Closed(now, e.key, e.status, e.pid, e.pname, now - e.ts)]
  {
    FrontDistinct(book);
  }

  lemma ReplayOne(open: map<ConnKey, Origin>, e: Entry, now: real)
    ensures Replay(open, []) == Some(open)
    ensures e.key !in open ==>
              Replay(open[e.key := OriginOf(e)], [Closed(now, e.key, e.status, e.pid, e.pname, now - e.ts)]) == Some(open)
  {
    var log := [Closed(now, e.key, e.status, e.pid, e.pname, now - e.ts)];
    assert log[1..] == [];
    if e.key !in open {
      assert open[e.key := OriginOf(e)] - {e.key} == open;
      assert Replay(open, []) == Some(open);
    }
  }

  lemma OriginsOne(book: seq<Entry>, e: Entry)
    ensures Origins(book + [e]) == Origins(book)[e.key := OriginOf(e)]
    ensures book + [] == book
  {
    assert (book + [e])[..|book|] == book;
  }

  lemma {:induction false} CloseKeys(book: seq<Entry>, there: set<ConnKey>, now: real)
    ensures forall e | e in CloseEvents(book, there, now) :: e.Closed?
    decreases |book|
  {
    if book != [] {
      CloseKeys(book[..|book| - 1], there, now);
    }
  }

  /** Closing others takes no notice of one more open connection. */
  lemma {:induction false} ClosesIgnore(open: map<ConnKey, Origin>, log: seq<Event>, key: ConnKey, was: Origin)
    requires key !in open && (forall e | e in log :: e.Closed?) && Replay(open, log).Some?
    ensures key !in Replay(open, log).value
    ensures Replay(open[key := was], log) == Some(Replay(open, log).value[key := was])
    decreases |log|
  {
    if log != [] {
      assert log[0] in log;
      var k := log[0].key;
      assert open[key := was] - {k} == (open - {k})[key := was];
      assert forall e | e in log[1..] :: e in log;
      ClosesIgnore(open - {k}, log[1..], key, was);
    }
  }

  lemma {:induction false} KeptKeys(book: seq<Entry>, there: set<ConnKey>)
    ensures Keys(Kept(book, there)) == Keys(book) * there
    ensures Distinct(book) ==> Distinct(Kept(book, there))
    ensures forall e | e in Kept(book, there) :: e in book
    decreases |book|
  {
    if book == [] {
      assert Keys(book) == {};
    } else {
      var n := |book| - 1;
      var front, last := book[..n], [book[n]];
      assert book == front + last;
      KeptKeys(front, there);
      KeysJoin(front, last);
      KeysOne(book[n]);
      KeysJoin(Kept(front, there), last);
      if Distinct(book) {
        FrontDistinct(book);
        assert Distinct(last);
        if book[n].key in there {
          AppendDistinct(Kept(front, there), last);
        }
      }
      hide Distinct, Keys;
      assert Kept(front, there) + [] == Kept(front, there);
    }
  }

  /** Opening new connections one by one adds their times. */
  lemma {:induction false} OpensReplay(book: seq<Entry>, entries: seq<Entry>)
    requires Distinct(book + entries)
    ensures Replay(Origins(book), OpenEvents(entries)) == Some(Origins(book + entries))
    decreases |entries|
  {
    if entries == [] {
      assert book + entries == book;
    } else {
      var e := entries[0];
      var more := book + [e];
      assert book + entries == more + entries[1..];
      assert (book + entries)[|book|] == e;
      assert more[..|book|] == book;
      OriginsKeys(book);
      assert e.key !in Keys(book) by {
        forall x | x in book
          ensures x.key != e.key
        {
          var i :| 0 <= i < |book| && book[i] == x;
          assert (book + entries)[i] == x;
        }
      }
      assert OpenEvents(entries)[1..] == OpenEvents(entries[1..]);
      OpensReplay(more, entries[1..]);
    }
  }

  lemma {:induction false} NewEntriesAre(known: set<ConnKey>, current: seq<Conn>, now: real)
    requires DistinctConns(current)
    ensures Keys(NewEntries(known, current, now)) == ConnKeys(current) - known
    ensures Distinct(NewEntries(known, current, now))
    ensures forall e | e in NewEntries(known, current, now) :: e.ts == now
    decreases |current|
  {
    if current == [] {
      assert ConnKeys(current) == {} && Keys([]) == {};
    } else {
      var n := |current| - 1;
      var c := current[n];
      var front, added := current[..n], NewEntries(known, current[..n], now);
      var e := Entry(c.key, now, c.status, c.pid, c.pname);
      assert current == front + [c];
      SplitConns(front, [c]);
      NewEntriesAre(known, front, now);
      ConnKeysJoin(front, [c]);
      ConnKeysOne(c);
      KeysJoin(added, [e]);
      KeysOne(e);
      assert Distinct([e]);
      if c.key !in known {
        AppendDistinct(added, [e]);
      }
      hide Distinct, Keys, ConnKeys, DistinctConns;
      assert added + [] == added;
    }
  }

  lemma {:induction false} PutAdds(current: seq<Conn>, c: Conn)
    requires DistinctConns(current)
    ensures DistinctConns(Put(current, c)) && ConnKeys(Put(current, c)) == ConnKeys(current) + {c.key}
    decreases |current|
  {
    ConnKeysOne(c);
    assert DistinctConns([c]);
    if current != [] {
      var first, rest := [current[0]], current[1..];
      assert current == first + rest;
      SplitConns(first, rest);
      PutAdds(rest, c);
      ConnKeysOne(current[0]);
      ConnKeysJoin(first, rest);
      ConnKeysJoin([c], rest);
      ConnKeysJoin(first, Put(rest, c));
      if current[0].key == c.key {
        AppendDistinctConns([c], rest);
      } else {
        AppendDistinctConns(first, Put(rest, c));
      }
      hide ConnKeys, DistinctConns;
    } else {
      ConnKeysOne(c);
    }
  }

  lemma {:induction false} CurrentIs(conns: seq<Conn>)
    ensures DistinctConns(Current(conns)) && ConnKeys(Current(conns)) == ConnKeys(conns)
    decreases |conns|
  {
    if conns != [] {
      var n := |conns| - 1;
      assert conns == conns[..n] + [conns[n]];
      CurrentIs(conns[..n]);
      PutAdds(Current(conns[..n]), conns[n]);
    }
  }

  /**
   The events between two good snapshots replay the one book into the other, and the new book holds
   exactly the connections with a peer in the snapshot; those already known keep their opening time.
   */
  lemma DiffReplays(book: seq<Entry>, rows: seq<Conn>, now: real)
    requires Distinct(book)
    ensures var (next, events) := Diff(book, rows, now);
            && Distinct(next) && Keys(next) == ConnKeys(Peered(rows))
            && Replay(Origins(book), events) == Some(Origins(next))
            && forall e | e in next :: e in book || (e.ts == now && e.key !in Keys(book))
  {
    var current := Current(Peered(rows));
    CurrentIs(Peered(rows));
    var there := ConnKeys(current);
    var kept, added := Kept(book, there), NewEntries(Keys(book), current, now);
    KeptKeys(book, there);
    NewEntriesAre(Keys(book), current, now);
    AppendDistinct(kept, added);
    KeysJoin(kept, added);
    ClosesReplay(book, there, now);
    OpensReplay(kept, added);
    ReplayChains(Origins(book), CloseEvents(book, there, now), OpenEvents(added));
    assert forall e | e in added :: e.key in Keys(added);
  }

  // ── what an event says ──────────────────────────────

  /** This is the last row of its connection. */
  ghost predicate LastSeen(rows: seq<Conn>, c: Conn) {
    exists i | 0 <= i < |rows| :: rows[i] == c && LastRow(rows, i)
  }

  ghost predicate LastRow(rows: seq<Conn>, i: nat)
    requires i < |rows|
  {
    forall j | i < j < |rows| :: rows[j].key != rows[i].key
  }

  lemma StillSeen(rows: seq<Conn>, c: Conn)
    requires rows != []
    ensures rows[|rows| - 1].key != c.key && LastSeen(rows[..|rows| - 1], c) ==> LastSeen(rows, c)
    ensures rows[|rows| - 1] == c ==> LastSeen(rows, c)
  {
    var n := |rows| - 1;
    assert LastRow(rows, n);
    if LastSeen(rows[..n], c) && rows[n].key != c.key {
      var i :| 0 <= i < n && rows[..n][i] == c && LastRow(rows[..n], i);
      assert forall j | i < j < n :: rows[..n][j] == rows[j];
      assert rows[i] == c && LastRow(rows, i);
    }
  }

  lemma {:induction false} PeeredSeen(rows: seq<Conn>, c: Conn)
    requires LastSeen(Peered(rows), c)
    ensures LastSeen(rows, c) && c.key.raddr !in WILDCARDS
    decreases |rows|
  {
    if rows != [] {
      var n := |rows| - 1;
      var peered, front := Peered(rows), Peered(rows[..n]);
      var i :| 0 <= i < |peered| && peered[i] == c && LastRow(peered, i);
      StillSeen(rows, c);
      if rows[n].key.raddr in WILDCARDS {
        assert peered == front;
        PeeredSeen(rows[..n], c);
      } else if i < |front| {
        assert front[i] == peered[i] && peered[|front|] == rows[n];
        assert forall j | i < j < |front| :: front[j] == peered[j];
        assert LastRow(front, i);
        PeeredSeen(rows[..n], c);
      }
    }
  }

  lemma {:induction false} PutHolds(current: seq<Conn>, c: Conn, x: Conn)
    requires DistinctConns(current) && x in Put(current, c)
    ensures x == c || (x in current && x.key != c.key)
    decreases |current|
  {
    if current != [] {
      if current[0].key == c.key {
        if x != c {
          var j :| 0 <= j < |current[1..]| && current[1..][j] == x;
          assert current[0].key != current[j + 1].key;
        }
      } else if x != current[0] {
        assert current == [current[0]] + current[1..];
        SplitConns([current[0]], current[1..]);
        PutHolds(current[1..], c, x);
      }
    }
  }

  lemma {:induction false} CurrentSeen(conns: seq<Conn>, c: Conn)
    requires c in Current(conns)
    ensures LastSeen(conns, c)
    decreases |conns|
  {
    if conns != [] {
      var n := |conns| - 1;
      CurrentIs(conns[..n]);
      PutHolds(Current(conns[..n]), conns[n], c);
      StillSeen(conns, c);
      if c != conns[n] {
        CurrentSeen(conns[..n], c);
      }
    }
  }

  lemma {:induction false} NewEntryFrom(known: set<ConnKey>, current: seq<Conn>, now: real, e: Entry)
    requires e in NewEntries(known, current, now)
    ensures e.ts == now && Conn(e.key, e.status, e.pid, e.pname) in current && e.key !in known
    decreases |current|
  {
    if current != [] {
      var n := |current| - 1;
      assert current == current[..n] + [current[n]];
      if e in NewEntries(known, current[..n], now) {
        NewEntryFrom(known, current[..n], now, e);
      }
    }
  }

  /** An open carries the time of the snapshot, and state and owner as its last row of the connection has them. */
  lemma OpenTellsRow(book: seq<Entry>, rows: seq<Conn>, now: real, x: Event)
    requires x in Diff(book, rows, now).1 && x.Opened?
    ensures x.ts == now && x.key !in Keys(book) && x.key.raddr !in WILDCARDS
    ensures LastSeen(rows, Conn(x.key, x.status, x.pid, x.pname))
  {
    var current := Current(Peered(rows));
    var there, added := ConnKeys(current), NewEntries(Keys(book), current, now);
    CloseKeys(book, there, now);
    hide Current, Peered, NewEntries, CloseEvents, Kept, Keys, ConnKeys, LastSeen;
    var i :| 0 <= i < |OpenEvents(added)| && OpenEvents(added)[i] == x;
    NewEntryFrom(Keys(book), current, now, added[i]);
    CurrentSeen(Peered(rows), Conn(x.key, x.status, x.pid, x.pname));
    PeeredSeen(rows, Conn(x.key, x.status, x.pid, x.pname));
  }

  // ── rollups ─────────────────────────────────────────

  datatype Counters = Counters(bytesIn: int, bytesOut: int)

  type Table = map<string, Counters>

  datatype Direction = Inward | Outward

  function Bytes(c: Counters, d: Direction): int {
    if d == Inward then c.bytesIn else c.bytesOut
  }

  /** One minute: bytes per interface, and how many distinct connections each peer had. */
  datatype Rollup = Rollup(ts: int, interfaces: Table, peers: map<string, nat>)

  datatype Audit = Audit(book: seq<Entry>, bucket: Option<int>, start: Table,
                         active: map<string, set<ConnKey>>, invalid: bool)

  const UNSTARTED := Audit([], None, map[], map[], false)

  function Minute(now: real): (minute: int)
    ensures (minute * 60) as real <= now < (minute * 60 + 60) as real
  {
    (now / 60.0).Floor
  }

  /** What one interface moved since the bucket began; one without a baseline is passed over. */
  function Deltas(start: Table, cur: Table): Table {
    map name | name in cur && name in start ::
      Counters(Max(0, cur[name].bytesIn - start[name].bytesIn), Max(0, cur[name].bytesOut - start[name].bytesOut))
  }

  /** What one turn does to the bucket: whether the counters were read, and the rollup if one is due. */
  datatype Turn = Turn(audit: Audit, rollups: seq<Rollup>, read: bool)

  function Flush(a: Audit, now: real, cur: Table): Turn {
    var minute := Minute(now);
    if a.bucket.None? then Turn(a.(bucket := Some(minute), start := cur), [], true)
    else if minute == a.bucket.value then Turn(a, [], false)
    else
      var anew := a.(bucket := Some(minute), start := cur, active := map[], invalid := false);
      if a.invalid then Turn(anew, [], true)
      else Turn(anew, [Rollup(a.bucket.value * 60, Deltas(a.start, cur), map r | r in a.active :: |a.active[r]|)], true)
  }

  function PeersOf(keys: set<ConnKey>): set<string> {
    set k | k in keys :: k.raddr
  }

  function Record(active: map<string, set<ConnKey>>, keys: set<ConnKey>): map<string, set<ConnKey>> {
    map r | r in active.Keys + PeersOf(keys) ::
      (if r in active then active[r] else {}) + set k | k in keys && k.raddr == r
  }

  // ── one tick ────────────────────────────────────────

  /** A tick finds the connection table, with the counters if it asks for them, or it cannot read it. */
  datatype Tick = Unreadable(now: real) | Found(now: real, rows: seq<Conn>, counters: Table)

  datatype Report = Report(events: seq<Event>, rollups: seq<Rollup>, dropped: nat)

  function Capped(events: seq<Event>, cap: nat): seq<Event> {
    if |events| > cap then events[..cap] else events
  }

  function Collected(a: Audit, t: Tick, cap: nat): (Audit, Report) {
    match t
    case Unreadable(now) =>
      (a.(invalid := a.invalid || (a.bucket.Some? && Minute(now) != a.bucket.value)), Report([], [], 0))
    case Found(now, rows, counters) =>
      var (book, events) := Diff(a.book, rows, now);
      var turn := Flush(a, now, counters);
      (turn.audit.(book := book, active := Record(turn.audit.active, ConnKeys(Peered(rows)))),
       Report(Capped(events, cap), turn.rollups, |events| - |Capped(events, cap)|))
  }

  /** Everything a run of ticks reported, with the counter tables it read. */
  datatype Run = Run(audit: Audit, events: seq<Event>, rollups: seq<Rollup>, dropped: nat,
                     tables: seq<Table>, discards: nat)

  function After(ticks: seq<Tick>, cap: nat): Run {
    if ticks == [] then Run(UNSTARTED, [], [], 0, [], 0)
    else
      var n := |ticks| - 1;
      var before := After(ticks[..n], cap);
      var (next, report) := Collected(before.audit, ticks[n], cap);
      var read := ticks[n].Found? && Flush(before.audit, ticks[n].now, ticks[n].counters).read;
      Run(next, before.events + report.events, before.rollups + report.rollups, before.dropped + report.dropped,
          if read then before.tables + [ticks[n].counters] else before.tables,
          before.discards + if read && before.audit.bucket.Some? && report.rollups == [] then 1 else 0)
  }

  /** The connections with a peer in the last snapshot that could be read. */
  function LastGood(ticks: seq<Tick>): set<ConnKey> {
    if ticks == [] then {}
    else
      var n := |ticks| - 1;
      if ticks[n].Found? then ConnKeys(Peered(ticks[n].rows)) else LastGood(ticks[..n])
  }

  // ── the log replays ─────────────────────────────────

  lemma {:induction false} BookIsDistinct(ticks: seq<Tick>, cap: nat)
    ensures Distinct(After(ticks, cap).audit.book)
    ensures Keys(After(ticks, cap).audit.book) == LastGood(ticks)
    decreases |ticks|
  {
    if ticks != [] {
      var n := |ticks| - 1;
      BookIsDistinct(ticks[..n], cap);
      if ticks[n].Found? {
        DiffReplays(After(ticks[..n], cap).audit.book, ticks[n].rows, ticks[n].now);
      }
      hide Diff, Flush, Distinct, Record;
    }
  }

  /**
   Over any sequence of good and failed snapshots, as long as the cap drops nothing, the log is
   legal and replays to exactly the connections of the last good snapshot, each since it was opened.
   */
  lemma {:induction false} LogReplays(ticks: seq<Tick>, cap: nat)
    requires After(ticks, cap).dropped == 0
    ensures Replay(map[], After(ticks, cap).events) == Some(Origins(After(ticks, cap).audit.book))
    ensures Origins(After(ticks, cap).audit.book).Keys == LastGood(ticks)
    decreases |ticks|
  {
    hide *;
    BookIsDistinct(ticks, cap);
    OriginsKeys(After(ticks, cap).audit.book);
    LogStep(ticks, cap);
    if ticks != [] {
      var n := |ticks| - 1;
      var before := After(ticks[..n], cap);
      BookIsDistinct(ticks[..n], cap);
      LogReplays(ticks[..n], cap);
      if ticks[n].Found? {
        DiffReplays(before.audit.book, ticks[n].rows, ticks[n].now);
        ReplayChains(map[], before.events, Diff(before.audit.book, ticks[n].rows, ticks[n].now).1);
      }
    }
  }

  /**
   Whatever the cap: every open in the log was found by one of the ticks, at whose time, and with the
   state and owner that tick's last row of the connection has. With a log that replays, a close says
   the same as the open it ends.
   */
  lemma {:induction false} OpensTellRows(ticks: seq<Tick>, cap: nat, x: Event)
    requires x in After(ticks, cap).events && x.Opened?
    ensures exists i | 0 <= i < |ticks| ::
              ticks[i].Found? && ticks[i].now == x.ts && LastSeen(ticks[i].rows, Conn(x.key, x.status, x.pid, x.pname))
    ensures x.key.raddr !in WILDCARDS
    decreases |ticks|
  {
    if ticks != [] {
      var n := |ticks| - 1;
      var before := After(ticks[..n], cap);
      if x in before.events {
        OpensTellRows(ticks[..n], cap, x);
      } else {
        OpenTellsRow(before.audit.book, ticks[n].rows, ticks[n].now, x);
      }
      hide Diff, Flush, Record, LastSeen;
    }
  }

  /** What one tick adds to the log. */
  lemma LogStep(ticks: seq<Tick>, cap: nat)
    ensures var run := After(ticks, cap);
            if ticks == [] then run.events == [] && run.audit.book == [] && Replay(map[], []) == Some(Origins([]))
            else
              var n := |ticks| - 1;
              var before := After(ticks[..n], cap);
              && before.dropped <= run.dropped
              && (ticks[n].Unreadable? ==> run.events == before.events && run.audit.book == before.audit.book)
              && (ticks[n].Found? ==>
                    var (book, events) := Diff(before.audit.book, ticks[n].rows, ticks[n].now);
                    run.audit.book == book && (run.dropped == 0 ==> run.events == before.events + events))
  {
    hide Diff, Flush, Record;
    if ticks != [] && ticks[|ticks| - 1].Unreadable? {
      var before := After(ticks[..|ticks| - 1], cap);
      assert before.events + [] == before.events;
    }
  }

  /** When the cap drops something it is the opens that go first: every close that fits is kept. */
  lemma ClosesFirst(a: Audit, now: real, rows: seq<Conn>, counters: Table, cap: nat)
    ensures var (_, report) := Collected(a, Found(now, rows, counters), cap);
            var closes := CloseEvents(a.book, ConnKeys(Current(Peered(rows))), now);
            && (|closes| <= cap ==> closes <= report.events)
            && (cap < |closes| ==> report.events == closes[..cap])
            && |report.events| + report.dropped == |Diff(a.book, rows, now).1|
  {
    hide CloseEvents, OpenEvents, NewEntries, Kept, Current, Peered, Flush;
  }

  // ── the rollups add up ──────────────────────────────

  function Total(rollups: seq<Rollup>, name: string, d: Direction): int {
    if rollups == [] then 0
    else
      var n := |rollups| - 1;
      Total(rollups[..n], name, d) +
      if name in rollups[n].interfaces then Bytes(rollups[n].interfaces[name], d) else 0
  }

  /** The readings of one interface, over the tables that have it. */
  function Readings(tables: seq<Table>, name: string, d: Direction): seq<int> {
    if tables == [] then []
    else
      var n := |tables| - 1;
      Readings(tables[..n], name, d) + if name in tables[n] then [Bytes(tables[n][name], d)] else []
  }

  function Span(xs: seq<int>): int {
    if xs == [] then 0 else xs[|xs| - 1] - xs[0]
  }

  predicate NonDecreasing(xs: seq<int>) {
    forall i, j | 0 <= i <= j < |xs| :: xs[i] <= xs[j]
  }

  lemma TotalAppends(rollups: seq<Rollup>, r: Rollup, name: string, d: Direction)
    ensures Total(rollups + [r], name, d) ==
            Total(rollups, name, d) + if name in r.interfaces then Bytes(r.interfaces[name], d) else 0
  {
    assert (rollups + [r])[..|rollups|] == rollups;
  }

  lemma ReadingsAppend(tables: seq<Table>, cur: Table, name: string, d: Direction)
    ensures Readings(tables + [cur], name, d) ==
            Readings(tables, name, d) + if name in cur then [Bytes(cur[name], d)] else []
  {
    assert (tables + [cur])[..|tables|] == tables;
  }

  lemma DeltaIs(start: Table, cur: Table, name: string, d: Direction)
    ensures name in Deltas(start, cur) <==> name in start && name in cur
    ensures name in Deltas(start, cur) ==>
              Bytes(Deltas(start, cur)[name], d) == Max(0, Bytes(cur[name], d) - Bytes(start[name], d))
  {
  }

  lemma {:induction false} BaselineIsLastRead(ticks: seq<Tick>, cap: nat)
    ensures var run := After(ticks, cap);
            && (run.audit.bucket.None? <==> run.tables == [])
            && (run.tables != [] ==> run.audit.start == run.tables[|run.tables| - 1])
    decreases |ticks|
  {
    if ticks != [] {
      BaselineIsLastRead(ticks[..|ticks| - 1], cap);
      hide Diff, Record, Deltas;
    }
  }

  /** One more table read: how far the sum of the rollups and the span of the readings each move. */
  lemma SpanGrows(xs: seq<int>, x: int)
    requires NonDecreasing(xs + [x])
    ensures NonDecreasing(xs) && Span(xs) <= Span(xs + [x])
    ensures xs != [] ==> Span(xs + [x]) == Span(xs) + x - xs[|xs| - 1] && xs[|xs| - 1] <= x
    ensures xs == [] ==> Span(xs + [x]) == 0
  {
    var all := xs + [x];
    assert forall i | 0 <= i < |xs| :: all[i] == xs[i];
    assert all[|xs|] == x;
    if xs != [] {
      assert all[|xs| - 1] <= all[|xs|];
    }
  }

  /**
   For counters that never go down, an interface's rollups never sum to more than its last reading
   minus its first; they sum to exactly that when it is in every table read and no bucket was
   discarded after an outage.
   */
  lemma {:induction false} RollupsAddUp(ticks: seq<Tick>, cap: nat, name: string, d: Direction)
    requires NonDecreasing(Readings(After(ticks, cap).tables, name, d))
    ensures var run := After(ticks, cap);
            && Total(run.rollups, name, d) <= Span(Readings(run.tables, name, d))
            && ((forall table | table in run.tables :: name in table) && run.discards == 0 ==>
                  Total(run.rollups, name, d) == Span(Readings(run.tables, name, d)))
    decreases |ticks|
  {
    if ticks != [] {
      var n := |ticks| - 1;
      var before, t := After(ticks[..n], cap), ticks[n];
      BaselineIsLastRead(ticks[..n], cap);
      RunStep(ticks, cap);
      var run := After(ticks, cap);
      hide *;
      ReadingsEdge(before.tables, run.tables, before.rollups, run.rollups, name, d);
      if run.tables == before.tables {
        RollupsAddUp(ticks[..n], cap, name, d);
      } else {
        var cur := t.counters;
        ReadingsAppend(before.tables, cur, name, d);
        SpanMoves(Readings(before.tables, name, d), cur, name, d);
        RollupsAddUp(ticks[..n], cap, name, d);
        InLast(before.tables, name, d);
        if run.rollups != before.rollups {
          TotalAppends(before.rollups, run.rollups[|before.rollups|], name, d);
          DeltaIs(before.audit.start, cur, name, d);
          MaxIs(0, if name in cur && name in before.audit.start then Bytes(cur[name], d) - Bytes(before.audit.start[name], d) else 0);
        } else {
          NoReadsNoSpan(before.tables, name, d);
        }
      }
    }
  }

  /** What one tick adds to a run, as far as the rollups are concerned. */
  lemma RunStep(ticks: seq<Tick>, cap: nat)
    requires ticks != []
    ensures var n := |ticks| - 1;
            var before, run, t := After(ticks[..n], cap), After(ticks, cap), ticks[n];
            && (run.tables == before.tables ==> run.rollups == before.rollups && run.discards == before.discards)
            && (run.tables != before.tables ==>
                  && t.Found? && run.tables == before.tables + [t.counters]
                  && (run.rollups != before.rollups ==>
                        && before.audit.bucket.Some? && run.discards == before.discards
                        && |run.rollups| == |before.rollups| + 1
                        && run.rollups == before.rollups + [run.rollups[|before.rollups|]]
                        && run.rollups[|before.rollups|].interfaces == Deltas(before.audit.start, t.counters))
                  && (run.rollups == before.rollups ==>
                        run.discards == before.discards + if before.audit.bucket.Some? then 1 else 0))
  {
    hide Diff, Record, Deltas;
    var n := |ticks| - 1;
    var before, t := After(ticks[..n], cap), ticks[n];
    assert before.rollups + [] == before.rollups;
    if t.Found? {
      var turn := Flush(before.audit, t.now, t.counters);
      if turn.rollups != [] {
        assert (before.rollups + turn.rollups)[|before.rollups|] == turn.rollups[0];
        assert turn.rollups == [turn.rollups[0]];
      }
    }
  }

  lemma ReadingsEdge(a: seq<Table>, b: seq<Table>, ra: seq<Rollup>, rb: seq<Rollup>, name: string, d: Direction)
    ensures a == b ==> Readings(a, name, d) == Readings(b, name, d)
    ensures ra == rb ==> Total(ra, name, d) == Total(rb, name, d)
    ensures forall cur | b == a + [cur] ::
              (forall table | table in b :: name in table) ==> (forall table | table in a :: name in table) && name in cur
  {
    hide Readings, Total;
    forall cur | b == a + [cur]
      ensures (forall table | table in b :: name in table) ==> (forall table | table in a :: name in table) && name in cur
    {
      assert cur in b;
      assert forall table | table in a :: table in b;
    }
  }

  lemma SpanMoves(xs: seq<int>, cur: Table, name: string, d: Direction)
    requires NonDecreasing(xs + if name in cur then [Bytes(cur[name], d)] else [])
    ensures NonDecreasing(xs)
    ensures var next := xs + if name in cur then [Bytes(cur[name], d)] else [];
            && Span(xs) <= Span(next)
            && (name !in cur ==> Span(next) == Span(xs))
            && (name in cur && xs == [] ==> Span(next) == 0)
            && (name in cur && xs != [] ==>
                  Span(next) == Span(xs) + Bytes(cur[name], d) - xs[|xs| - 1] && xs[|xs| - 1] <= Bytes(cur[name], d))
  {
    if name in cur {
      SpanGrows(xs, Bytes(cur[name], d));
    } else {
      assert xs + [] == xs;
    }
  }

  lemma InLast(tables: seq<Table>, name: string, d: Direction)
    ensures tables != [] && name in tables[|tables| - 1] ==>
              var xs := Readings(tables, name, d);
              xs != [] && xs[|xs| - 1] == Bytes(tables[|tables| - 1][name], d)
  {
  }

  lemma MaxIs(a: int, b: int)
    ensures Max(a, b) == if a > b then a else b
  {
  }

  lemma NoReadsNoSpan(tables: seq<Table>, name: string, d: Direction)
    ensures tables == [] ==> Readings(tables, name, d) == [] && Span(Readings(tables, name, d)) == 0
  {
  }

  /** This tick could not read the table, in another minute than the one the bucket is for. */
  ghost predicate OutageCrosses(ticks: seq<Tick>, cap: nat, i: nat)
    requires i < |ticks|
  {
    var bucket := After(ticks[..i], cap).audit.bucket;
    ticks[i].Unreadable? && bucket.Some? && Minute(ticks[i].now) != bucket.value
  }

  /** A bucket is only ever discarded because an outage crossed a minute. */
  lemma {:induction false} QuietRunsDiscardNothing(ticks: seq<Tick>, cap: nat)
    requires forall i | 0 <= i < |ticks| :: !OutageCrosses(ticks, cap, i)
    ensures After(ticks, cap).discards == 0 && !After(ticks, cap).audit.invalid
    decreases |ticks|
  {
    if ticks != [] {
      var n := |ticks| - 1;
      forall i | 0 <= i < n
        ensures !OutageCrosses(ticks[..n], cap, i)
      {
        assert ticks[..n][..i] == ticks[..i] && !OutageCrosses(ticks, cap, i);
      }
      QuietRunsDiscardNothing(ticks[..n], cap);
      assert !OutageCrosses(ticks, cap, n);
      hide Diff, Record, Deltas;
    }
  }

  // ── who was talking ─────────────────────────────────

  /** Every connection seen by a good tick since the present bucket began. */
  function Window(ticks: seq<Tick>, cap: nat): set<ConnKey> {
    if ticks == [] then {}
    else
      var n := |ticks| - 1;
      if ticks[n].Unreadable? then Window(ticks[..n], cap)
      else
        var bucket := After(ticks[..n], cap).audit.bucket;
        (if bucket.Some? && bucket.value != Minute(ticks[n].now) then {} else Window(ticks[..n], cap)) +
        ConnKeys(Peered(ticks[n].rows))
  }

  function ByPeer(keys: set<ConnKey>): map<string, set<ConnKey>> {
    map r | r in PeersOf(keys) :: set k | k in keys && k.raddr == r
  }

  lemma RecordIsUnion(keys: set<ConnKey>, more: set<ConnKey>)
    ensures Record(ByPeer(keys), more) == ByPeer(keys + more)
    ensures ByPeer({}) == map[]
  {
    var a, b := Record(ByPeer(keys), more), ByPeer(keys + more);
    forall r
      ensures r in a <==> r in b
    {
      if r in b {
        var k :| k in keys + more && k.raddr == r;
        assert k in keys || k in more;
      }
      if r in a {
        if r in ByPeer(keys) {
          var k :| k in keys && k.raddr == r;
          assert k in keys + more;
        } else {
          var k :| k in more && k.raddr == r;
          assert k in keys + more;
        }
      }
    }
    forall r | r in a
      ensures a[r] == b[r]
    {
      assert r !in ByPeer(keys) ==> forall k | k in keys :: k.raddr != r;
    }
  }

  lemma {:induction false} ActiveIsWindow(ticks: seq<Tick>, cap: nat)
    ensures After(ticks, cap).audit.active == ByPeer(Window(ticks, cap))
    decreases |ticks|
  {
    if ticks == [] {
      RecordIsUnion({}, {});
    } else {
      var n := |ticks| - 1;
      ActiveIsWindow(ticks[..n], cap);
      hide Diff, Record, Deltas, ByPeer;
      if ticks[n].Found? {
        RecordIsUnion({}, ConnKeys(Peered(ticks[n].rows)));
        RecordIsUnion(Window(ticks[..n], cap), ConnKeys(Peered(ticks[n].rows)));
      }
    }
  }

  lemma {:induction false} LastGoodInWindow(ticks: seq<Tick>, cap: nat)
    ensures LastGood(ticks) <= Window(ticks, cap)
    decreases |ticks|
  {
    if ticks != [] {
      LastGoodInWindow(ticks[..|ticks| - 1], cap);
    }
  }

  /**
   A rollup counts, for each peer, the distinct connections some good tick of that bucket saw; a
   connection still open at the last good tick before it is always among them, however long ago it
   was opened.
   */
  lemma PeersAreDistinctConnections(ticks: seq<Tick>, cap: nat, t: Tick)
    requires t.Found?
    ensures var before := After(ticks, cap).audit;
            var (_, report) := Collected(before, t, cap);
            report.rollups != [] ==>
              && |report.rollups| == 1 && before.bucket.Some? && report.rollups[0].ts == before.bucket.value * 60
              && report.rollups[0].peers == (map r | r in ByPeer(Window(ticks, cap)) :: |ByPeer(Window(ticks, cap))[r]|)
              && forall k | k in LastGood(ticks) ::
                   k.raddr in report.rollups[0].peers && k in ByPeer(Window(ticks, cap))[k.raddr]
  {
    ActiveIsWindow(ticks, cap);
    LastGoodInWindow(ticks, cap);
    hide Diff, Record, Deltas, After, Window;
  }

  // ── the collector ───────────────────────────────────

  class NetAuditCollector {
    const cap: nat
    var prev: seq<Entry>
    var bucket: Option<int>
    var bucketStart: Table
    var bucketConns: map<string, set<ConnKey>>
    var bucketInvalid: bool

    constructor (cap: nat)
      ensures this.cap == cap && View() == UNSTARTED
    {
      this.cap, prev, bucket, bucketStart, bucketConns, bucketInvalid := cap, [], None, map[], map[], false;
    }

    function View(): Audit
      reads this
    {
      Audit(prev, bucket, bucketStart, bucketConns, bucketInvalid)
    }

    /** The connections of this snapshot, each once. */
    method Dedupe(rows: seq<Conn>) returns (current: seq<Conn>)
      ensures current == Current(Peered(rows))
    {
      var peered: seq<Conn> := [];
      for i := 0 to |rows|
        invariant peered == Peered(rows[..i])
      {
        assert rows[..i + 1][..i] == rows[..i];
        if rows[i].key.raddr !in WILDCARDS {
          peered := peered + [rows[i]];
        } else {
          assert peered + [] == peered;
        }
      }
      assert rows[..|rows|] == rows;
      current := [];
      for i := 0 to |peered|
        invariant current == Current(peered[..i])
      {
        assert peered[..i + 1][..i] == peered[..i];
        current := Put(current, peered[i]);
      }
      assert peered[..|peered|] == peered;
    }

    /** Add what is new to the book, then take out what is gone, keeping an event for each. */
    method Compare(current: seq<Conn>, now: real) returns (events: seq<Event>)
      modifies `prev
      ensures var added := NewEntries(Keys(old(prev)), current, now);
              && prev == Kept(old(prev), ConnKeys(current)) + added
              && events == CloseEvents(old(prev), ConnKeys(current), now) + OpenEvents(added)
    {
      var known, there := Keys(prev), ConnKeys(current);
      var added: seq<Entry> := [];
      var opens: seq<Event> := [];
      for i := 0 to |current|
        invariant added == NewEntries(known, current[..i], now)
        invariant opens == OpenEvents(added)
      {
        assert current[..i + 1][..i] == current[..i];
        var c := current[i];
        if c.key !in known {
          added := added + [Entry(c.key, now, c.status, c.pid, c.pname)];
          opens := opens + [Opened(now, c.key, c.status, c.pid, c.pname)];
        } else {
          assert added + [] == added;
        }
      }
      assert current[..|current|] == current;
      var kept: seq<Entry> := [];
      var closes: seq<Event> := [];
      for i := 0 to |prev|
        invariant prev == old(prev)
        invariant kept == Kept(prev[..i], there)
        invariant closes == CloseEvents(prev[..i], there, now)
      {
        assert prev[..i + 1][..i] == prev[..i];
        var e := prev[i];
        if e.key in there {
          kept := kept + [e];
          assert closes + [] == closes;
        } else {
          closes := closes + [Closed(now, e.key, e.status, e.pid, e.pname, now - e.ts)];
          assert kept + [] == kept;
        }
      }
      assert prev[..|prev|] == prev;
      prev := kept + added;
      events := closes + opens;
    }

    method MaybeRollup(now: real, counters: Table) returns (rollups: seq<Rollup>)
      modifies `bucket, `bucketStart, `bucketConns, `bucketInvalid
      ensures var turn := Flush(old(View()), now, counters); View() == turn.audit && rollups == turn.rollups
    {
      var minute := Minute(now);
      if bucket.None? {
        bucket, bucketStart := Some(minute), counters;
        return [];
      }
      if minute == bucket.value {
        return [];
      }
      if bucketInvalid {
        rollups := [];
      } else {
        rollups := [Rollup(bucket.value * 60, Deltas(bucketStart, counters), map r | r in bucketConns :: |bucketConns[r]|)];
      }
      bucket, bucketStart, bucketConns, bucketInvalid := Some(minute), counters, map[], false;
    }

    /** One turn of the collector. */
    method Collect(t: Tick) returns (report: Report)
      modifies this
      ensures Collected(old(View()), t, cap) == (View(), report)
    {
      if t.Unreadable? {
        if bucket.Some? && Minute(t.now) != bucket.value {
          bucketInvalid := true;
        }
        return Report([], [], 0);
      }
      hide Flush, CloseEvents, OpenEvents, Kept, NewEntries, Peered, Current, Record;
      ghost var before := View();
      CurrentIs(Peered(t.rows));
      var current := Dedupe(t.rows);
      var all := Compare(current, t.now);
      FlushIgnoresBook(before, prev, t.now, t.counters);
      var rollups := MaybeRollup(t.now, t.counters);
      bucketConns := Record(bucketConns, ConnKeys(current));
      var events := if |all| > cap then all[..cap] else all;
      report := Report(events, rollups, |all| - |events|);
    }
  }

  lemma FlushIgnoresBook(a: Audit, book: seq<Entry>, now: real, counters: Table)
    ensures Flush(a.(book := book), now, counters) ==
            var turn := Flush(a, now, counters); turn.(audit := turn.audit.(book := book))
  {
  }
}
