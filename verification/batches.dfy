/**
 A fold that is interrupted: between two batches of a generation the record is written to JSON and
 read back, which turns every key of its containers into a text. What was under a number is then no
 longer found under that number. Exactly when this cannot happen, batching changes nothing.
 */
module Batches {
  import opened Wrappers
  import opened Averaging
  import opened Samples

  // ── folding in batches ──────────────────────────────

  function Flat(cuts: seq<seq<Sample>>): seq<Sample> {
    if cuts == [] then [] else Flat(cuts[..|cuts| - 1]) + cuts[|cuts| - 1]
  }

  /** Batch after batch, the record saved and read back behind each. */
  function FoldBatches(cuts: seq<seq<Sample>>): Option<Acc> {
    if cuts == [] then Some(NEW_ACC)
    else
      var n := |cuts| - 1;
      var before :- FoldBatches(cuts[..n]);
      var after :- Fold(before, cuts[n]);
      Some(Reload(after))
  }

  /** `acc` is a record these entries can lead to, in this order, however they were cut into batches. */
  ghost predicate InBatches(entries: seq<Sample>, acc: Acc) {
    exists cuts, tail :: Cut(entries, cuts, tail) && Resumed(cuts, tail) == Some(acc)
  }

  ghost predicate Cut(entries: seq<Sample>, cuts: seq<seq<Sample>>, tail: seq<Sample>) {
    Flat(cuts) + tail == entries
  }

  function Resumed(cuts: seq<seq<Sample>>, tail: seq<Sample>): Option<Acc> {
    var before :- FoldBatches(cuts);
    Fold(before, tail)
  }

  /** The same, with a last batch that was not saved any more: the record a summary is made from. */
  ghost predicate EndsIn(entries: seq<Sample>, acc: Acc) {
    exists cuts, tail :: Cut(entries, cuts, tail) && tail != [] && Resumed(cuts, tail) == Some(acc)
  }

  /** `avg` is a summary these entries can be published as. */
  ghost predicate BatchAverage(entries: seq<Sample>, avg: Sample) {
    exists acc :: EndsIn(entries, acc) && AggFinalize(acc) == Some(avg)
  }

  lemma NothingFolded()
    ensures InBatches([], NEW_ACC)
  {
    assert Cut([], [], []) && Resumed([], []) == Some(NEW_ACC);
  }

  /** One more batch. */
  lemma BatchGoesOn(entries: seq<Sample>, acc: Acc, batch: seq<Sample>, next: Acc)
    requires InBatches(entries, acc) && Fold(acc, batch) == Some(next)
    ensures InBatches(entries + batch, next)
    ensures batch != [] ==> EndsIn(entries + batch, next)
  {
    var cuts, tail :| Cut(entries, cuts, tail) && Resumed(cuts, tail) == Some(acc);
    hide Cut, Resumed;
    CutGoesOn(entries, cuts, tail, batch);
    ResumeGoesOn(cuts, tail, acc, batch);
    assert Cut(entries + batch, cuts, tail + batch) && Resumed(cuts, tail + batch) == Some(next);
  }

  lemma CutGoesOn(entries: seq<Sample>, cuts: seq<seq<Sample>>, tail: seq<Sample>, batch: seq<Sample>)
    requires Cut(entries, cuts, tail)
    ensures Cut(entries + batch, cuts, tail + batch)
  {
    assert Flat(cuts) + (tail + batch) == entries + batch;
  }

  lemma ResumeGoesOn(cuts: seq<seq<Sample>>, tail: seq<Sample>, acc: Acc, batch: seq<Sample>)
    requires Resumed(cuts, tail) == Some(acc)
    ensures Resumed(cuts, tail + batch) == Fold(acc, batch)
  {
    hide Fold, FoldBatches;
    FoldAppend(FoldBatches(cuts).value, tail, batch);
  }

  /** Saved and read back. */
  lemma BatchIsSaved(entries: seq<Sample>, acc: Acc)
    requires InBatches(entries, acc)
    ensures InBatches(entries, Reload(acc))
  {
    var cuts, tail :| Cut(entries, cuts, tail) && Resumed(cuts, tail) == Some(acc);
    var more := cuts + [tail];
    hide Fold, Reload;
    assert more[..|cuts|] == cuts && more[|cuts|] == tail;
    FoldNothing(Reload(acc));
    assert Flat(more) + [] == entries;
    assert Cut(entries, more, []) && Resumed(more, []) == Some(Reload(acc));
  }

  lemma FoldNothing(acc: Acc)
    ensures Fold(acc, []) == Some(acc)
  {
  }

  // ── when saving changes nothing ─────────────────────

  ghost predicate AllText(cs: seq<ContainerSum>) {
    forall c | c in cs :: c.key.Text?
  }

  ghost predicate DistinctKeys(cs: seq<ContainerSum>) {
    forall i, j | 0 <= i < j < |cs| :: cs[i].key != cs[j].key
  }

  predicate HasKey(cs: seq<ContainerSum>, key: Json) {
    cs != [] && (cs[0].key == key || HasKey(cs[1..], key))
  }

  lemma {:induction false} HasKeyIs(cs: seq<ContainerSum>, key: Json)
    ensures HasKey(cs, key) <==> exists i | 0 <= i < |cs| :: cs[i].key == key
    decreases |cs|
  {
    if cs != [] {
      HasKeyIs(cs[1..], key);
      if HasKey(cs[1..], key) {
        var i :| 0 <= i < |cs[1..]| && cs[1..][i].key == key;
        assert cs[i + 1].key == key;
      }
      forall i | 0 <= i < |cs| && cs[i].key == key
        ensures HasKey(cs, key)
      {
        assert i > 0 ==> cs[1..][i - 1].key == key;
      }
    }
  }

  /** The keys, in order. */
  function Keys(cs: seq<ContainerSum>): seq<Json> {
    if cs == [] then [] else [cs[0].key] + Keys(cs[1..])
  }

  lemma {:induction false} KeysAre(cs: seq<ContainerSum>)
    ensures |Keys(cs)| == |cs| && forall i | 0 <= i < |cs| :: Keys(cs)[i] == cs[i].key
    decreases |cs|
  {
    if cs != [] {
      KeysAre(cs[1..]);
    }
  }

  lemma {:induction false} OverwriteIs(cs: seq<ContainerSum>, c: ContainerSum)
    ensures Keys(Overwrite(cs, c)) == Keys(cs) + if HasKey(cs, c.key) then [] else [c.key]
    ensures !HasKey(cs, c.key) ==> Overwrite(cs, c) == cs + [c]
    decreases |cs|
  {
    if cs != [] {
      OverwriteIs(cs[1..], c);
    }
  }

  /** Overwriting keeps every key where it is and adds at most one at the end. */
  lemma OverwriteKeys(cs: seq<ContainerSum>, c: ContainerSum)
    ensures var after := Overwrite(cs, c);
            && (if HasKey(cs, c.key) then |after| == |cs| else after == cs + [c])
            && (forall i | 0 <= i < |cs| :: after[i].key == cs[i].key)
  {
    OverwriteIs(cs, c);
    hide *;
    var after := Overwrite(cs, c);
    KeysAre(cs);
    KeysAre(after);
    forall i | 0 <= i < |cs|
      ensures i < |after| && after[i].key == cs[i].key
    {
      assert Keys(after)[i] == Keys(cs)[i];
    }
  }

  lemma OverwriteKeepsApart(cs: seq<ContainerSum>, c: ContainerSum)
    requires DistinctKeys(cs)
    ensures DistinctKeys(Overwrite(cs, c))
  {
    OverwriteKeys(cs, c);
    HasKeyIs(cs, c.key);
    hide Overwrite, HasKey;
  }

  lemma {:induction false} ReloadIs(cs: seq<ContainerSum>)
    ensures AllText(ReloadContainers(cs)) && DistinctKeys(ReloadContainers(cs)) && |ReloadContainers(cs)| <= |cs|
    decreases |cs|
  {
    if cs != [] {
      var n := |cs| - 1;
      var c := cs[n].(key := SavedKey(cs[n]));
      var front := ReloadContainers(cs[..n]);
      ReloadIs(cs[..n]);
      OverwriteKeys(front, c);
      OverwriteKeepsApart(front, c);
      hide DistinctKeys, Overwrite, HasKey;
      OverwriteText(front, c);
    }
  }

  lemma {:induction false} OverwriteText(cs: seq<ContainerSum>, c: ContainerSum)
    requires AllText(cs) && c.key.Text?
    ensures AllText(Overwrite(cs, c))
    decreases |cs|
  {
    if cs != [] {
      assert cs == [cs[0]] + cs[1..];
      OverwriteText(cs[1..], c);
    }
  }

  lemma {:induction false} ReloadKeeps(cs: seq<ContainerSum>)
    requires AllText(cs) && DistinctKeys(cs)
    ensures ReloadContainers(cs) == cs
    decreases |cs|
  {
    if cs != [] {
      var n := |cs| - 1;
      var front, c := cs[..n], cs[n];
      assert cs == front + [c];
      assert c in cs && c.(key := SavedKey(c)) == c;
      ReloadKeeps(front);
      HasKeyIs(front, c.key);
      OverwriteIs(front, c);
    }
  }

  /** Saving a record and reading it back changes nothing if and only if all its containers are under texts. */
  lemma ReloadChangesNothingIff(acc: Acc)
    requires DistinctKeys(acc.containers)
    ensures Reload(acc) == acc <==> AllText(acc.containers)
  {
    ReloadIs(acc.containers);
    if AllText(acc.containers) {
      ReloadKeeps(acc.containers);
    }
  }

  // ── a fold keeps its keys ───────────────────────────

  lemma {:induction false} MergeIs(cs: seq<ContainerSum>, r: Reading)
    ensures Keys(Merge(cs, r)) == Keys(cs) + if HasKey(cs, r.name) then [] else [r.name]
    decreases |cs|
  {
    hide AddReading, NewContainer;
    EntryKeeps(NewContainer(r), r);
    if cs != [] {
      EntryKeeps(cs[0], r);
      MergeIs(cs[1..], r);
    }
  }

  /** Merging leaves every key where it is. */
  lemma MergeKeys(cs: seq<ContainerSum>, r: Reading)
    ensures var after := Merge(cs, r);
            && (if HasKey(cs, r.name) then |after| == |cs| else |after| == |cs| + 1 && after[|cs|].key == r.name)
            && (forall i | 0 <= i < |cs| :: after[i].key == cs[i].key)
  {
    MergeIs(cs, r);
    hide *;
    var after := Merge(cs, r);
    KeysAre(cs);
    KeysAre(after);
    forall i | 0 <= i < |cs|
      ensures i < |after| && after[i].key == cs[i].key
    {
      assert Keys(after)[i] == Keys(cs)[i];
    }
  }

  lemma EntryKeeps(s: ContainerSum, r: Reading)
    ensures AddReading(s, r).key == s.key && AddReading(s, r).samples == s.samples + 1
    ensures NewContainer(r).key == r.name && NewContainer(r).samples == 0
  {
  }

  lemma MergeKeepsApart(cs: seq<ContainerSum>, r: Reading)
    requires DistinctKeys(cs)
    ensures DistinctKeys(Merge(cs, r))
  {
    MergeKeys(cs, r);
    HasKeyIs(cs, r.name);
    hide Merge, HasKey;
  }

  lemma {:induction false} MergeCounts(cs: seq<ContainerSum>, r: Reading)
    ensures Counted(Merge(cs, r)) == Counted(cs) + 1
    decreases |cs|
  {
    hide AddReading, NewContainer;
    EntryKeeps(NewContainer(r), r);
    if cs != [] {
      var first, rest := cs[0], cs[1..];
      EntryKeeps(first, r);
      MergeCounts(rest, r);
      assert Merge(cs, r)[1..] == if first.key == r.name then rest else Merge(rest, r);
    }
  }

  /** How many readings are in a list of containers. */
  function Counted(cs: seq<ContainerSum>): nat {
    if cs == [] then 0 else cs[0].samples + Counted(cs[1..])
  }

  lemma {:induction false} AddKeys(cs: seq<ContainerSum>, list: seq<Json>)
    ensures var end := AddContainers(cs, list);
            end.Done? ==>
              && |cs| <= |end.value|
              && (forall i | 0 <= i < |cs| :: end.value[i].key == cs[i].key)
              && (DistinctKeys(cs) ==> DistinctKeys(end.value))
    decreases |list|
  {
    if list != [] {
      var reading := ReadContainer(list[0]);
      hide ReadContainer, Merge;
      if reading.Done? && reading.value.Some? {
        MergeKeys(cs, reading.value.value);
        if DistinctKeys(cs) {
          MergeKeepsApart(cs, reading.value.value);
        }
        AddKeys(Merge(cs, reading.value.value), list[1..]);
      } else if reading.Done? {
        AddKeys(cs, list[1..]);
      }
    }
  }

  /** What is added, and whether it ends, does not depend on what was there. */
  lemma {:induction false} AddsAlike(a: seq<ContainerSum>, b: seq<ContainerSum>, list: seq<Json>)
    ensures var x, y := AddContainers(a, list), AddContainers(b, list);
            && (x.Done? <==> y.Done?) && (x.Escapes? <==> y.Escapes?)
            && (x.Done? ==> Counted(x.value) - Counted(a) == Counted(y.value) - Counted(b))
    decreases |list|
  {
    if list != [] {
      var reading := ReadContainer(list[0]);
      hide ReadContainer, Merge;
      if reading.Done? && reading.value.Some? {
        MergeCounts(a, reading.value.value);
        MergeCounts(b, reading.value.value);
        AddsAlike(Merge(a, reading.value.value), Merge(b, reading.value.value), list[1..]);
      } else if reading.Done? {
        AddsAlike(a, b, list[1..]);
      }
    }
  }

  lemma StepKeys(acc: Acc, e: Sample)
    requires DistinctKeys(acc.containers) && AggAdd(acc, e).Some?
    ensures var next := AggAdd(acc, e).value;
            && DistinctKeys(next.containers) && |acc.containers| <= |next.containers|
            && (forall i | 0 <= i < |acc.containers| :: next.containers[i].key == acc.containers[i].key)
  {
    hide AddTotals, Reserve, AddContainers;
    var list := Look(e, "containers", Null);
    if list.Arr? {
      AddKeys(acc.containers, list.items);
    }
  }

  lemma {:induction false} FoldKeys(acc: Acc, entries: seq<Sample>)
    requires DistinctKeys(acc.containers) && Fold(acc, entries).Some?
    ensures var done := Fold(acc, entries).value;
            && DistinctKeys(done.containers) && |acc.containers| <= |done.containers|
            && (forall i | 0 <= i < |acc.containers| :: done.containers[i].key == acc.containers[i].key)
    decreases |entries|
  {
    if entries != [] {
      hide AggAdd;
      StepKeys(acc, entries[0]);
      FoldKeys(AggAdd(acc, entries[0]).value, entries[1..]);
    }
  }

  /** A record that ends with nothing but texts never had anything else. */
  lemma TextBefore(acc: Acc, entries: seq<Sample>)
    requires DistinctKeys(acc.containers) && Fold(acc, entries).Some?
    requires AllText(Fold(acc, entries).value.containers)
    ensures AllText(acc.containers)
  {
    FoldKeys(acc, entries);
    var done := Fold(acc, entries).value;
    forall c | c in acc.containers
      ensures c.key.Text?
    {
      var i :| 0 <= i < |acc.containers| && acc.containers[i] == c;
      assert done.containers[i] in done.containers;
    }
  }

  // ── when batching cannot matter ─────────────────────

  /** The record of the one-shot fold over all but the last entry, which is all that is ever saved. */
  ghost predicate SavesText(entries: seq<Sample>) {
    entries != [] ==>
      var before := Fold(NEW_ACC, entries[..|entries| - 1]);
      before.Some? ==> AllText(before.value.containers)
  }

  /** As long as everything saved was under texts, the batches come to the one-shot fold. */
  lemma {:induction false} BatchesAreFold(cuts: seq<seq<Sample>>, rest: seq<Sample>)
    requires Fold(NEW_ACC, Flat(cuts) + rest).Some? ==> AllText(Fold(NEW_ACC, Flat(cuts) + rest).value.containers)
    ensures Fold(NEW_ACC, Flat(cuts) + rest).Some? ==> FoldBatches(cuts) == Fold(NEW_ACC, Flat(cuts))
    decreases |cuts|
  {
    if cuts == [] {
      FoldNothing(NEW_ACC);
    } else if Fold(NEW_ACC, Flat(cuts) + rest).Some? {
      var n := |cuts| - 1;
      var front := cuts[..n];
      assert Flat(front) + (cuts[n] + rest) == Flat(cuts) + rest;
      hide Fold;
      BatchesAreFold(front, cuts[n] + rest);
      FoldAppend(NEW_ACC, Flat(cuts), rest);
      FoldAppend(NEW_ACC, Flat(front), cuts[n]);
      var after := Fold(NEW_ACC, Flat(cuts)).value;
      FoldKeys(NEW_ACC, Flat(cuts));
      TextBefore(after, rest);
      ReloadChangesNothingIff(after);
    }
  }

  /** Two records that can only differ in the containers. */
  ghost predicate HostAlike(a: Acc, b: Acc) {
    a == b.(containers := a.containers)
  }

  /** Whether a fold raises, and everything it holds but the containers, does not depend on how it was cut. */
  lemma {:induction false} FoldsAlike(a: Acc, b: Acc, entries: seq<Sample>)
    requires HostAlike(a, b)
    ensures Fold(a, entries).Some? <==> Fold(b, entries).Some?
    ensures Fold(a, entries).Some? ==> HostAlike(Fold(a, entries).value, Fold(b, entries).value)
    decreases |entries|
  {
    if entries != [] {
      StepsAlike(a, b, entries[0]);
      hide AggAdd;
      if AggAdd(a, entries[0]).Some? {
        FoldsAlike(AggAdd(a, entries[0]).value, AggAdd(b, entries[0]).value, entries[1..]);
      }
    }
  }

  lemma StepsAlike(a: Acc, b: Acc, e: Sample)
    requires HostAlike(a, b)
    ensures AggAdd(a, e).Some? <==> AggAdd(b, e).Some?
    ensures AggAdd(a, e).Some? ==> HostAlike(AggAdd(a, e).value, AggAdd(b, e).value)
    ensures AggAdd(a, e).Some? ==>
              Counted(AggAdd(a, e).value.containers) - Counted(a.containers) ==
              Counted(AggAdd(b, e).value.containers) - Counted(b.containers)
  {
    hide AddTotals, Reserve, AddContainers;
    var list := Look(e, "containers", Null);
    if list.Arr? {
      AddsAlike(a.containers, b.containers, list.items);
    }
  }

  /** The batches get through exactly when the one-shot fold does. */
  lemma {:induction false} BatchesRaiseAlike(cuts: seq<seq<Sample>>)
    ensures FoldBatches(cuts).Some? <==> Fold(NEW_ACC, Flat(cuts)).Some?
    ensures FoldBatches(cuts).Some? ==> HostAlike(FoldBatches(cuts).value, Fold(NEW_ACC, Flat(cuts)).value)
    decreases |cuts|
  {
    if cuts == [] {
      FoldNothing(NEW_ACC);
    } else {
      var n := |cuts| - 1;
      hide Fold;
      BatchesRaiseAlike(cuts[..n]);
      FoldAppend(NEW_ACC, Flat(cuts[..n]), cuts[n]);
      if FoldBatches(cuts[..n]).Some? {
        FoldsAlike(FoldBatches(cuts[..n]).value, Fold(NEW_ACC, Flat(cuts[..n])).value, cuts[n]);
      }
    }
  }

  /** So the host-wide figures are the means of all the readings, whatever the batches were. */
  lemma BatchedSummaryIsMean(entries: seq<Sample>, avg: Sample)
    requires BatchAverage(entries, avg)
    requires Fold(NEW_ACC, entries).Some? && !Fold(NEW_ACC, entries).value.scalarFailed
    requires forall part | part in ["cpu", "memory", "disk"] :: part in entries[0] && entries[0][part].Obj?
    ensures var n := |entries|;
            && Field(avg, "cpu", "percent_total") == Some(Number(Over(Sum(HostReadings(entries, "cpu", "percent_total")), n)))
            && Field(avg, "memory", "percent") == Some(Number(Over(Sum(HostReadings(entries, "memory", "percent")), n)))
            && Field(avg, "disk", "percent") == Some(Number(Over(Sum(HostReadings(entries, "disk", "percent")), n)))
  {
    hide Fold, HostReadings, Sum, FillIn, Field, FoldBatches;
    var acc :| EndsIn(entries, acc) && AggFinalize(acc) == Some(avg);
    var cuts, tail :| Cut(entries, cuts, tail) && tail != [] && Resumed(cuts, tail) == Some(acc);
    BatchesRaiseAlike(cuts);
    FoldsAlike(FoldBatches(cuts).value, Fold(NEW_ACC, Flat(cuts)).value, tail);
    FoldAppend(NEW_ACC, Flat(cuts), tail);
    FoldSums(entries);
    FilledMeans(entries[0], acc);
  }

  lemma CutEnds(entries: seq<Sample>, cuts: seq<seq<Sample>>, tail: seq<Sample>)
    requires Cut(entries, cuts, tail) && tail != []
    ensures var front := tail[..|tail| - 1];
            && entries == Flat(cuts) + tail && entries != []
            && entries[..|entries| - 1] == Flat(cuts) + front
            && Flat(cuts) + front + [tail[|tail| - 1]] == entries
  {
  }

  lemma ResumedIs(cuts: seq<seq<Sample>>, tail: seq<Sample>)
    ensures Resumed(cuts, tail).Some? ==> FoldBatches(cuts).Some? && Resumed(cuts, tail) == Fold(FoldBatches(cuts).value, tail)
  {
    hide Fold, FoldBatches;
  }

  lemma SavesTextIs(entries: seq<Sample>)
    requires entries != [] && SavesText(entries)
    ensures var before := Fold(NEW_ACC, entries[..|entries| - 1]);
            before.Some? ==> AllText(before.value.containers)
  {
  }

  /** With nothing but texts ever saved, every way of batching ends in the one-shot record. */
  lemma TextEndsIn(entries: seq<Sample>, acc: Acc)
    requires entries != [] && SavesText(entries) && EndsIn(entries, acc)
    ensures Fold(NEW_ACC, entries) == Some(acc)
  {
    var cuts, tail :| Cut(entries, cuts, tail) && tail != [] && Resumed(cuts, tail) == Some(acc);
    hide *;
    var front := tail[..|tail| - 1];
    CutEnds(entries, cuts, tail);
    ResumedIs(cuts, tail);
    BatchesRaiseAlike(cuts);
    FoldsAlike(FoldBatches(cuts).value, Fold(NEW_ACC, Flat(cuts)).value, tail);
    FoldAppend(NEW_ACC, Flat(cuts), tail);
    FoldAppend(NEW_ACC, Flat(cuts) + front, [tail[|tail| - 1]]);
    SavesTextIs(entries);
    BatchesAreFold(cuts, front);
  }

  /**
   Whatever way the entries are cut into batches, the record a summary is made from is the one-shot
   record if and only if every container in the record before the last entry is under a text: that
   is the most that is ever saved.
   */
  lemma BatchingIsHarmlessIff(entries: seq<Sample>)
    requires entries != [] && Fold(NEW_ACC, entries).Some?
    ensures (forall acc | EndsIn(entries, acc) :: Fold(NEW_ACC, entries) == Some(acc)) <==> SavesText(entries)
  {
    hide Fold;
    if SavesText(entries) {
      forall acc | EndsIn(entries, acc)
        ensures Fold(NEW_ACC, entries) == Some(acc)
      {
        TextEndsIn(entries, acc);
      }
    } else {
      var acc := CutBeforeLast(entries);
    }
  }

  /** So then a summary is the one-shot average, whatever the batches were. */
  lemma TextIsOneShot(entries: seq<Sample>, avg: Sample)
    requires BatchAverage(entries, avg) && SavesText(entries)
    ensures AverageMetrics(entries) == Some(avg)
  {
    hide EndsIn, Fold, AggFinalize, SavesText;
    var acc :| EndsIn(entries, acc) && AggFinalize(acc) == Some(avg);
    EndsHas(entries, acc);
    TextEndsIn(entries, acc);
  }

  lemma EndsHas(entries: seq<Sample>, acc: Acc)
    requires EndsIn(entries, acc)
    ensures entries != []
  {
  }

  /** It is enough that no container in any snapshot but the last is named by anything but a text. */
  lemma TextNamesSave(entries: seq<Sample>)
    requires entries != []
    requires forall e | e in entries[..|entries| - 1] && ReadingsOf(e).Done? ::
               forall r | r in ReadingsOf(e).value :: r.name.Text?
    ensures SavesText(entries)
  {
    hide Fold, ReadingsOf;
    FoldsText(NEW_ACC, entries[..|entries| - 1]);
  }

  lemma {:induction false} FoldsText(acc: Acc, entries: seq<Sample>)
    requires AllText(acc.containers)
    requires forall e | e in entries && ReadingsOf(e).Done? :: forall r | r in ReadingsOf(e).value :: r.name.Text?
    ensures Fold(acc, entries).Some? ==> AllText(Fold(acc, entries).value.containers)
    decreases |entries|
  {
    if entries != [] {
      assert entries[0] in entries;
      StepText(acc, entries[0]);
      hide AggAdd, ReadingsOf, AllText;
      if AggAdd(acc, entries[0]).Some? {
        FoldsText(AggAdd(acc, entries[0]).value, entries[1..]);
      }
    }
  }

  lemma StepText(acc: Acc, e: Sample)
    requires AllText(acc.containers) && (ReadingsOf(e).Done? ==> forall r | r in ReadingsOf(e).value :: r.name.Text?)
    ensures AggAdd(acc, e).Some? ==> AllText(AggAdd(acc, e).value.containers)
  {
    hide AddTotals, Reserve, WalkContainers, ReadingsOf, MergeAll;
    WalkIs(acc.containers, e);
    if ReadingsOf(e).Done? {
      MergesText(acc.containers, ReadingsOf(e).value);
    }
  }

  lemma {:induction false} MergesText(cs: seq<ContainerSum>, rs: seq<Reading>)
    requires AllText(cs) && forall r | r in rs :: r.name.Text?
    ensures AllText(MergeAll(cs, rs))
    decreases |rs|
  {
    if rs != [] {
      assert rs[0] in rs;
      MergeKeys(cs, rs[0]);
      hide Merge;
      var after := Merge(cs, rs[0]);
      forall c | c in after
        ensures c.key.Text?
      {
        var i :| 0 <= i < |after| && after[i] == c;
        assert i < |cs| ==> cs[i] in cs;
      }
      MergesText(after, rs[1..]);
    }
  }

  /** Cut right before the last entry, the record comes out different. */
  lemma CutBeforeLast(entries: seq<Sample>) returns (acc: Acc)
    requires entries != [] && Fold(NEW_ACC, entries).Some? && !SavesText(entries)
    ensures EndsIn(entries, acc) && Fold(NEW_ACC, entries) != Some(acc)
  {
    var n := |entries| - 1;
    var front, last := entries[..n], entries[n];
    assert entries == front + [last];
    hide Fold;
    FoldAppend(NEW_ACC, front, [last]);
    var before := Fold(NEW_ACC, front).value;
    var saved := Reload(before);
    FoldOne(before, last);
    FoldOne(saved, last);
    StepsAlike(before, saved, last);
    acc := AggAdd(saved, last).value;
    assert [front][..0] == [];
    assert Flat([front]) == front;
    assert FoldBatches([front]) == Some(saved);
    assert Cut(entries, [front], [last]) && Resumed([front], [last]) == Some(acc);
    FoldKeys(NEW_ACC, front);
    FoldHolds(NEW_ACC, front);
    SavedDiffers(before, last);
  }

  lemma FoldOne(acc: Acc, e: Sample)
    ensures Fold(acc, [e]) == AggAdd(acc, e)
  {
    hide AggAdd;
    assert [e][1..] == [];
  }

  // ── what a save loses ───────────────────────────────

  /** Every entry has at least the reading it was made for. */
  ghost predicate AllHeld(cs: seq<ContainerSum>) {
    forall c | c in cs :: c.samples > 0
  }

  lemma {:induction false} MergeHolds(cs: seq<ContainerSum>, r: Reading)
    requires AllHeld(cs)
    ensures AllHeld(Merge(cs, r))
    decreases |cs|
  {
    if cs != [] {
      assert cs == [cs[0]] + cs[1..];
      MergeHolds(cs[1..], r);
    }
  }

  lemma {:induction false} AddHolds(cs: seq<ContainerSum>, list: seq<Json>)
    requires AllHeld(cs)
    ensures AddContainers(cs, list).Done? ==> AllHeld(AddContainers(cs, list).value)
    decreases |list|
  {
    if list != [] {
      var reading := ReadContainer(list[0]);
      hide ReadContainer, Merge;
      if reading.Done? && reading.value.Some? {
        MergeHolds(cs, reading.value.value);
        AddHolds(Merge(cs, reading.value.value), list[1..]);
      } else if reading.Done? {
        AddHolds(cs, list[1..]);
      }
    }
  }

  lemma {:induction false} FoldHolds(acc: Acc, entries: seq<Sample>)
    requires AllHeld(acc.containers) && Fold(acc, entries).Some?
    ensures AllHeld(Fold(acc, entries).value.containers)
    decreases |entries|
  {
    if entries != [] {
      StepHolds(acc, entries[0]);
      hide AggAdd;
      FoldHolds(AggAdd(acc, entries[0]).value, entries[1..]);
    }
  }

  lemma StepHolds(acc: Acc, e: Sample)
    requires AllHeld(acc.containers) && AggAdd(acc, e).Some?
    ensures AllHeld(AggAdd(acc, e).value.containers)
  {
    hide AddTotals, Reserve, AddContainers;
    var list := Look(e, "containers", Null);
    if list.Arr? {
      AddHolds(acc.containers, list.items);
    }
  }

  lemma {:induction false} OverwriteCounts(cs: seq<ContainerSum>, c: ContainerSum)
    requires AllHeld(cs)
    ensures Counted(Overwrite(cs, c)) + (if HasKey(cs, c.key) then 1 else 0) <= Counted(cs) + c.samples
    ensures c.samples > 0 ==> AllHeld(Overwrite(cs, c))
    decreases |cs|
  {
    if cs != [] {
      var first, rest := cs[0], cs[1..];
      assert cs == [first] + rest;
      assert first in cs;
      OverwriteCounts(rest, c);
      assert Overwrite(cs, c)[1..] == if first.key == c.key then rest else Overwrite(rest, c);
    }
  }

  lemma {:induction false} CountedAppends(cs: seq<ContainerSum>, c: ContainerSum)
    ensures Counted(cs + [c]) == Counted(cs) + c.samples
    decreases |cs|
  {
    if cs == [] {
      assert cs + [c] == [c];
    } else {
      assert (cs + [c])[0] == cs[0] && (cs + [c])[1..] == cs[1..] + [c];
      CountedAppends(cs[1..], c);
    }
  }

  /** A save loses the readings of every entry it overwrites; if it overwrites none, only the keys change. */
  lemma {:induction false} ReloadLoses(cs: seq<ContainerSum>)
    requires AllHeld(cs)
    ensures var saved := ReloadContainers(cs);
            && |saved| <= |cs| && AllHeld(saved)
            && Counted(saved) + (|cs| - |saved|) <= Counted(cs)
            && (|saved| == |cs| ==> forall i | 0 <= i < |cs| :: saved[i].key == SavedKey(cs[i]))
    decreases |cs|
  {
    if cs != [] {
      var n := |cs| - 1;
      var front, c := cs[..n], cs[n].(key := SavedKey(cs[n]));
      assert cs == front + [cs[n]];
      assert cs[n] in cs;
      hide SavedKey;
      ReloadLoses(front);
      ReloadIs(front);
      OverwriteKeys(ReloadContainers(front), c);
      OverwriteCounts(ReloadContainers(front), c);
      CountedAppends(front, cs[n]);
    }
  }

  lemma SavedDiffers(acc: Acc, e: Sample)
    requires DistinctKeys(acc.containers) && AllHeld(acc.containers) && !AllText(acc.containers)
    requires AggAdd(acc, e).Some? && AggAdd(Reload(acc), e).Some?
    ensures AggAdd(Reload(acc), e) != AggAdd(acc, e)
  {
    var cs, saved := acc.containers, ReloadContainers(acc.containers);
    ReloadLoses(cs);
    ReloadIs(cs);
    StepsAlike(acc, Reload(acc), e);
    StepKeys(acc, e);
    StepKeys(Reload(acc), e);
    hide AggAdd, Counted, ReloadContainers;
    if |saved| == |cs| {
      var c :| c in cs && !c.key.Text?;
      var i :| 0 <= i < |cs| && cs[i] == c;
      assert saved[i] in saved;
      assert AggAdd(acc, e).value.containers[i].key != AggAdd(Reload(acc), e).value.containers[i].key;
    }
  }
}
