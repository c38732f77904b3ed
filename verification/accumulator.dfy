/**
 The fold state as `_agg_add` updates it (backend/app/database.py:3172-3300): one mutable record, its
 sums and counts changed reading by reading, with two latches that record that a half failed after it
 had already changed some of them. The half-made changes are never read again, so the record behaves
 like the values `Samples` folds.
 */
module Accumulators {
  import opened Wrappers
  import opened Samples

  /** The same fold state, but for what a latched half left behind. */
  ghost predicate Alike(a: Acc, b: Acc) {
    && a.n == b.n && a.template == b.template
    && a.scalarFailed == b.scalarFailed && a.containerFailed == b.containerFailed
    && (!a.scalarFailed ==> a.totals == b.totals)
    && (!a.containerFailed ==> a.containers == b.containers)
  }

  /** What a latched half left behind changes no later step. */
  lemma AlikeStays(a: Acc, b: Acc, e: Sample)
    requires Alike(a, b)
    ensures AggAdd(a, e).None? <==> AggAdd(b, e).None?
    ensures AggAdd(a, e).Some? ==> Alike(AggAdd(a, e).value, AggAdd(b, e).value)
  {
    hide AddTotals, WalkContainers, Reserve;
  }

  /** Nor does it show in the summary. */
  lemma AlikeFinalizes(a: Acc, b: Acc)
    requires Alike(a, b)
    ensures AggFinalize(a) == AggFinalize(b)
  {
    if !a.scalarFailed && a.n != 0 && a.template.Some? {
      FillsAlike(a.template.value, a, b);
    }
    hide FillIn;
  }

  lemma FillsAlike(template: Sample, a: Acc, b: Acc)
    requires Alike(a, b) && !a.scalarFailed && a.n != 0
    ensures FillIn(template, a) == FillIn(template, b)
  {
    hide Assign, AverageDevices, ContainerEntry, Averages;
    forall result
      ensures FillContainers(result, a) == FillContainers(result, b)
    {
    }
    forall result
      ensures FillDevices(result, a) == FillDevices(result, b)
    {
    }
  }

  lemma {:induction false} AlikeFolds(a: Acc, b: Acc, entries: seq<Sample>)
    requires Alike(a, b)
    ensures Fold(a, entries).None? <==> Fold(b, entries).None?
    ensures Fold(a, entries).Some? ==> Alike(Fold(a, entries).value, Fold(b, entries).value)
    decreases |entries|
  {
    if entries != [] {
      hide AggAdd, Alike;
      AlikeStays(a, b, entries[0]);
      if AggAdd(a, entries[0]).Some? {
        AlikeFolds(AggAdd(a, entries[0]).value, AggAdd(b, entries[0]).value, entries[1..]);
      }
    }
  }

  /** How an in-place step ends: it went through, it was caught, or it left the fold. */
  datatype Stop = Went | Caught | Thrown

  /** The entry a container reading goes into, if the list already has its name as a key. */
  method FindName(cs: seq<ContainerSum>, name: Json) returns (at: nat)
    ensures at <= |cs|
    ensures at < |cs| ==> cs[at].key == name
    ensures forall i | 0 <= i < at :: cs[i].key != name
  {
    at := 0;
    while at < |cs| && cs[at].key != name
      invariant at <= |cs|
      invariant forall i | 0 <= i < at :: cs[i].key != name
    {
      at := at + 1;
    }
  }

  lemma {:induction false} MergeFound(cs: seq<ContainerSum>, r: Reading, at: nat)
    requires at <= |cs| && (at < |cs| ==> cs[at].key == r.name)
    requires forall i | 0 <= i < at :: cs[i].key != r.name
    ensures at < |cs| ==> Merge(cs, r) == cs[at := AddReading(cs[at], r)]
    ensures at == |cs| ==> Merge(cs, r) == cs + [AddReading(NewContainer(r), r)]
    decreases |cs|
  {
    hide AddReading, NewContainer;
    if cs != [] && at > 0 {
      MergeFound(cs[1..], r, at - 1);
      assert cs == [cs[0]] + cs[1..];
    }
  }

  /** `done`, then what the rest comes to, if it comes to anything. */
  ghost function Joined<T>(done: seq<T>, rest: Ending<seq<T>>): Ending<seq<T>> {
    if rest.Done? then Done(done + rest.value) else rest
  }

  lemma JoinedOne<T>(done: seq<T>, x: T, rest: Ending<seq<T>>)
    ensures Joined(done + [x], rest) == Joined(done, Joined([x], rest))
    ensures Joined([], rest) == rest
  {
    if rest.Done? {
      assert done + [x] + rest.value == done + ([x] + rest.value);
      assert [] + rest.value == rest.value;
    }
  }

  lemma CoresStep(sums: seq<Float>, items: seq<Json>, i: nat)
    requires i < |sums|
    ensures i >= |items| ==> Samples.AddCores(sums[i..], []) == Contained
    ensures i < |items| ==>
              Samples.AddCores(sums[i..], items[i..]) ==
              match Plus(sums[i], items[i])
              case Done(sum) => Joined([sum], Samples.AddCores(sums[i + 1..], items[i + 1..]))
              case Contained => Contained
              case Escapes => Escapes
    ensures Samples.AddCores([], items) == Done([])
  {
    hide Plus;
    assert sums[i..][0] == sums[i] && sums[i..][1..] == sums[i + 1..];
    if i < |items| {
      assert items[i..][0] == items[i] && items[i..][1..] == items[i + 1..];
    }
  }

  lemma FieldsStep(sums: seq<Float>, names: seq<string>, device: Json, i: nat)
    requires i < |sums| == |names|
    ensures AddFields(sums[i..], names[i..], device) ==
            match Get(device, names[i], Num(0.0))
            case None => Contained
            case Some(reading) =>
              match Plus(sums[i], reading)
              case Done(sum) => Joined([sum], AddFields(sums[i + 1..], names[i + 1..], device))
              case Contained => Contained
              case Escapes => Escapes
  {
    hide Plus;
    assert sums[i..][0] == sums[i] && sums[i..][1..] == sums[i + 1..];
    assert names[i..][0] == names[i] && names[i..][1..] == names[i + 1..];
  }

  lemma DevicesStep(devices: seq<GpuTotal>, reported: seq<Json>, i: nat)
    requires i < |devices|
    ensures i >= |reported| ==> AddDevices(devices[i..], []) == Done(devices[i..])
    ensures i < |reported| ==>
              AddDevices(devices[i..], reported[i..]) ==
              match AddFields(devices[i].sums, GPU_FIELDS, reported[i])
              case Done(sums) => Joined([GpuTotal(devices[i].n + 1, sums)], AddDevices(devices[i + 1..], reported[i + 1..]))
              case Contained => Contained
              case Escapes => Escapes
  {
    hide AddFields;
    assert devices[i..][0] == devices[i] && devices[i..][1..] == devices[i + 1..];
    if i < |reported| {
      assert reported[i..][0] == reported[i] && reported[i..][1..] == reported[i + 1..];
    }
  }

  lemma Slices<T>(was: seq<T>, now: seq<T>, i: nat, x: T)
    requires i < |was| == |now| && now[i..] == was[i..]
    ensures now[i] == was[i]
    ensures now[i := x][..i + 1] == now[..i] + [x] && now[i := x][i + 1..] == was[i + 1..]
  {
    assert now[i..][0] == was[i..][0];
    forall k | i + 1 <= k < |was|
      ensures now[k] == was[k]
    {
      assert now[i..][k - i] == was[i..][k - i];
    }
  }

  lemma JoinedFails<T>(done: seq<T>)
    ensures Joined(done, Contained) == Contained && Joined(done, Escapes) == Escapes
  {
  }

  lemma CoresEnd(sums: seq<Float>, items: seq<Json>)
    ensures Joined(sums, Samples.AddCores([], items)) == Done(sums)
  {
    assert sums + [] == sums;
  }

  lemma JoinedEnd<T>(q: seq<T>)
    ensures Joined(q, Done([])) == Done(q)
  {
    assert q + [] == q;
  }

  lemma FieldsEnd(sums: seq<Float>, names: seq<string>, device: Json)
    ensures Samples.AddFields(sums[|sums|..], names[|names|..], device) == Done([])
    ensures |GPU_FIELDS| == 5
  {
    assert sums[|sums|..] == [];
  }

  lemma DevicesEnd(now: seq<GpuTotal>, was: seq<GpuTotal>, items: seq<Json>, i: nat)
    requires i <= |now| == |was| && i <= |items| && (i == |now| || i == |items|) && now[i..] == was[i..]
    ensures Joined(now[..i], Samples.AddDevices(was[i..], items[i..])) == Done(now)
  {
    assert now == now[..i] + now[i..];
  }

  /** One sum per averaged field. */
  predicate Shaped(devices: seq<GpuTotal>) {
    forall i | 0 <= i < |devices| :: |devices[i].sums| == |GPU_FIELDS|
  }

  lemma ShapedAt(devices: seq<GpuTotal>, i: nat)
    requires i < |devices| && Shaped(devices)
    ensures |devices[i].sums| == |GPU_FIELDS|
  {
  }

  lemma ShapedSet(devices: seq<GpuTotal>, i: nat, was: GpuTotal, d: GpuTotal)
    requires i < |devices| && Shaped(devices) && |d.sums| == |GPU_FIELDS|
    ensures Shaped(devices[i := d])
    ensures devices[i := was][i := d] == devices[i := d]
  {
  }

  function StopOf<T>(end: Ending<T>): Stop {
    if end.Done? then Went else if end.Contained? then Caught else Thrown
  }

  lemma Stops<T>(end: Ending<T>)
    ensures StopOf(end).Went? <==> end.Done?
    ensures end == Contained ==> StopOf(end) == Caught
    ensures end == Escapes ==> StopOf(end) == Thrown
  {
  }

  lemma NewContainerIs(r: Reading, entry: ContainerSum)
    requires entry == NewContainer(Reading(r.name, Finite(0.0), Finite(0.0), None, None, r.raw))
    ensures entry == NewContainer(r)
  {
  }

  lemma WalkStep(cs: seq<ContainerSum>, items: seq<Json>, i: nat)
    requires i < |items|
    ensures Samples.AddContainers(cs, items[i..]) ==
            match ReadContainer(items[i])
            case Done(None) => Samples.AddContainers(cs, items[i + 1..])
            case Done(Some(r)) => Samples.AddContainers(Merge(cs, r), items[i + 1..])
            case Contained => Contained
            case Escapes => Escapes
  {
    hide ReadContainer, Merge;
    assert items[i..][0] == items[i] && items[i..][1..] == items[i + 1..];
  }

  lemma WalkEnd(cs: seq<ContainerSum>, items: seq<Json>)
    ensures Samples.AddContainers(cs, items[|items|..]) == Done(cs)
  {
  }

  lemma Whole<T>(q: seq<T>)
    ensures q[0..] == q && q[..|q|] == q && q[|q|..] == [] && q + [] == q && q[..0] == []
  {
  }

  class Accumulator {
    var n: nat
    var template: Option<Sample>
    var cpu: Float
    var mem: Float
    var disk: Float
    var cores: seq<Float>
    var gpu: seq<GpuTotal>
    var containers: seq<ContainerSum>
    var scalarFailed: bool
    var containerFailed: bool

    function View(): Acc
      reads this
    {
      Acc(n, template, Totals(cpu, mem, disk, cores, gpu), containers, scalarFailed, containerFailed)
    }

    /** Every device keeps one sum per averaged field, and nothing is summed before the first snapshot. */
    predicate Valid()
      reads this
    {
      && (!scalarFailed ==> Shaped(gpu))
      && (n == 0 ==> cpu == mem == disk == Finite(0.0))
      && (n == 0 <==> template.None?)
    }

    constructor ()
      ensures Valid() && View() == NEW_ACC
    {
      n, template, cpu, mem, disk := 0, None, ZERO, ZERO, ZERO;
      cores, gpu, containers, scalarFailed, containerFailed := [], [], [], false, false;
    }

    // ── host-wide readings ────────────────────────────

    method AddCores(perCore: Json) returns (stop: Stop)
      requires cores != []
      modifies `cores
      ensures var after := if perCore.Arr? then Samples.AddCores(old(cores), perCore.items) else Contained;
              stop == StopOf(after) && (stop.Went? ==> cores == after.value)
    {
      if !perCore.Arr? {
        return Caught;
      }
      var items := perCore.items;
      ghost var before := cores;
      ghost var whole := Samples.AddCores(before, items);
      hide *;
      Stops(whole);
      Whole(before);
      Whole(items);
      JoinedOne([], Finite(0.0), whole);
      var i := 0;
      while i < |cores|
        invariant i <= |cores| == |before| && i <= |items| && cores[i..] == before[i..]
        invariant whole == Joined(cores[..i], Samples.AddCores(before[i..], items[i..]))
      {
        CoresStep(before, items, i);
        JoinedFails(cores[..i]);
        Whole(items);
        if i >= |items| {
          return Caught;
        }
        Slices(before, cores, i, Finite(0.0));
        var sum := Plus(cores[i], items[i]);
        Stops(sum);
        if !sum.Done? {
          return StopOf(sum);
        }
        Slices(before, cores, i, sum.value);
        JoinedOne(cores[..i], sum.value, Samples.AddCores(before[i + 1..], items[i + 1..]));
        cores := cores[i := sum.value];
        i := i + 1;
      }
      Whole(before);
      Whole(cores);
      CoresEnd(cores, items[i..]);
      stop := Went;
    }

    /** Add one device's reported fields to its sums. */
    method AddFields(at: nat, device: Json) returns (stop: Stop)
      requires at < |gpu| && |gpu[at].sums| == |GPU_FIELDS|
      modifies `gpu
      ensures var after := Samples.AddFields(old(gpu)[at].sums, GPU_FIELDS, device);
              && stop == StopOf(after)
              && (stop.Went? ==> gpu == old(gpu)[at := GpuTotal(old(gpu)[at].n, after.value)] && |after.value| == |GPU_FIELDS|)
      ensures |gpu| == |old(gpu)|
    {
      ghost var before, was := gpu[at].sums, gpu;
      ghost var whole := Samples.AddFields(before, GPU_FIELDS, device);
      var dev := gpu[at];
      var names := GPU_FIELDS;
      Whole(before);
      Whole(names);
      FieldsEnd(before, names, device);
      hide *;
      Stops(whole);
      JoinedOne([], Finite(0.0), whole);
      var i := 0;
      while i < |names|
        invariant i <= |names| == |before| == |dev.sums| && dev.sums[i..] == before[i..]
        invariant whole == Joined(dev.sums[..i], Samples.AddFields(before[i..], names[i..], device))
        invariant |gpu| == |was| && gpu == was[at := dev] && dev.n == was[at].n
      {
        FieldsStep(before, names, device, i);
        JoinedFails(dev.sums[..i]);
        Slices(before, dev.sums, i, Finite(0.0));
        var reading := Get(device, names[i], Num(0.0));
        if reading.None? {
          return Caught;
        }
        var sum := Plus(dev.sums[i], reading.value);
        Stops(sum);
        if !sum.Done? {
          return StopOf(sum);
        }
        Slices(before, dev.sums, i, sum.value);
        JoinedOne(dev.sums[..i], sum.value, Samples.AddFields(before[i + 1..], names[i + 1..], device));
        dev := dev.(sums := dev.sums[i := sum.value]);
        gpu := gpu[at := dev];
        i := i + 1;
      }
      Whole(before);
      Whole(names);
      Whole(dev.sums);
      JoinedEnd(dev.sums);
      stop := Went;
    }

    /** Add every device this snapshot reports; one it does not report is left alone. */
    method AddDevices(reported: Json) returns (stop: Stop)
      requires gpu != [] && Shaped(gpu)
      modifies `gpu
      ensures var after := if reported.Arr? then Samples.AddDevices(old(gpu), reported.items)
                           else if Length(reported) == Some(0) then Done(old(gpu)) else Contained;
              && stop == StopOf(after)
              && (stop.Went? ==> gpu == after.value)
      ensures stop.Went? ==> Shaped(gpu)
    {
      if !reported.Arr? {
        return if Length(reported) == Some(0) then Went else Caught;
      }
      var items := reported.items;
      ghost var before := gpu;
      ghost var whole := Samples.AddDevices(before, items);
      hide *;
      Stops(whole);
      Whole(before);
      Whole(items);
      JoinedOne([], before[0], whole);
      var i := 0;
      while i < |gpu| && i < |items|
        invariant i <= |gpu| == |before| && i <= |items| && gpu[i..] == before[i..]
        invariant whole == Joined(gpu[..i], Samples.AddDevices(before[i..], items[i..]))
        invariant Shaped(gpu)
      {
        DevicesStep(before, items, i);
        JoinedFails(gpu[..i]);
        Slices(before, gpu, i, gpu[i]);
        ShapedAt(gpu, i);
        ghost var now := gpu;
        gpu := gpu[i := GpuTotal(gpu[i].n + 1, gpu[i].sums)];
        Stops(Samples.AddFields(gpu[i].sums, GPU_FIELDS, items[i]));
        stop := AddFields(i, items[i]);
        if !stop.Went? {
          return;
        }
        Slices(before, now, i, gpu[i]);
        JoinedOne(now[..i], gpu[i], Samples.AddDevices(before[i + 1..], items[i + 1..]));
        ShapedSet(now, i, GpuTotal(now[i].n + 1, now[i].sums), gpu[i]);
        i := i + 1;
      }
      DevicesEnd(gpu, before, items, i);
      stop := Went;
    }

    /** Reserve the slots the first snapshot names. */
    method ReserveSlots(e: Sample) returns (stop: Stop)
      requires cpu == mem == disk == Finite(0.0)
      modifies `cores, `gpu
      ensures stop == if Reserve(e).Some? then Went else Caught
      ensures stop.Went? ==> Totals(cpu, mem, disk, cores, gpu) == Reserve(e).value && Shaped(gpu)
    {
      var perCore := Get(Look(e, "cpu", EMPTY), "percent_per_core", NO_ITEMS);
      if perCore.None? {
        return Caught;
      }
      var count := Length(perCore.value);
      if count.None? {
        return Caught;
      }
      cores := Zeros(count.value);
      var devices := Length(Look(e, "gpu", NO_ITEMS));
      if devices.None? {
        return Caught;
      }
      gpu := seq(devices.value, _ => GpuTotal(0, Zeros(|GPU_FIELDS|)));
      stop := Went;
    }

    /** Add the host-wide readings, one after the other, up to the first that fails. */
    method AddHost(e: Sample) returns (stop: Stop)
      requires Shaped(gpu)
      modifies `cpu, `mem, `disk, `cores, `gpu
      ensures var after := AddTotals(old(View()).totals, e);
              stop == StopOf(after) &&
              (stop.Went? ==> Totals(cpu, mem, disk, cores, gpu) == after.value && Shaped(gpu))
    {
      hide Samples.AddCores, Samples.AddDevices, Length, Shaped, Plus;
      stop, cpu := AddFigure(e, "cpu", "percent_total", cpu);
      if !stop.Went? { return; }
      stop, mem := AddFigure(e, "memory", "percent", mem);
      if !stop.Went? { return; }
      stop, disk := AddFigure(e, "disk", "percent", disk);
      if !stop.Went? { return; }
      if cores != [] {
        var perCore := Get(Look(e, "cpu", EMPTY), "percent_per_core", Arr(seq(|cores|, _ => Num(0.0))));
        if perCore.None? {
          return Caught;
        }
        stop := AddCores(perCore.value);
        if !stop.Went? { return; }
      }
      if gpu != [] {
        stop := AddDevices(Look(e, "gpu", NO_ITEMS));
      }
    }

    /** One figure of one section, added to its sum. */
    static method AddFigure(e: Sample, section: string, field: string, sum: Float) returns (stop: Stop, after: Float)
      ensures var reading := Get(Look(e, section, EMPTY), field, Num(0.0));
              var end := if reading.Some? then Plus(sum, reading.value) else Contained;
              stop == StopOf(end) && (stop.Went? ==> after == end.value)
    {
      hide Plus;
      after := sum;
      var reading := Get(Look(e, section, EMPTY), field, Num(0.0));
      if reading.None? {
        return Caught, after;
      }
      var end := Plus(sum, reading.value);
      stop := StopOf(end);
      if end.Done? {
        after := end.value;
      }
    }

    // ── per-container readings ────────────────────────

    /** Fold one container in, field by field; a failure can leave its entry half updated. */
    method AddContainer(c: Json) returns (stop: Stop)
      modifies `containers
      ensures match ReadContainer(c)
              case Done(None) => stop.Went? && containers == old(containers)
              case Done(Some(r)) => stop.Went? && containers == Merge(old(containers), r)
              case Contained => stop.Caught?
              case Escapes => stop.Thrown?
    {
      hide AsFloat, ReadLimit, Truthy, Merge, AddReading, NewContainer;
      if !c.Obj? {
        return Caught;
      }
      var o := c.fields;
      var name := Look(o, "name", Null);
      if !Truthy(name) {
        return Went;
      }
      if name.Arr? || name.Obj? {
        return Caught;
      }
      ghost var before := containers;
      var at := FindName(containers, LookedUp(name));
      var entry := NewContainer(Reading(LookedUp(name), Finite(0.0), Finite(0.0), None, None, o));
      if at == |containers| {
        containers := containers + [entry];
      }
      ghost var base := containers[at];
      stop := UpdateEntry(at, o);
      if stop.Went? {
        var r := ReadContainer(c).value.value;
        NewContainerIs(r, entry);
        MergeFound(before, r, at);
      }
    }

    /** Update one entry from the container's fields, in the order they are read. */
    method UpdateEntry(at: nat, o: Sample) returns (stop: Stop)
      requires at < |containers|
      requires var name := Look(o, "name", Null); Truthy(name) && !name.Arr? && !name.Obj?
      modifies `containers
      ensures match ReadContainer(Obj(o))
              case Done(None) => false
              case Done(Some(r)) => stop.Went? && containers == old(containers)[at := AddReading(old(containers)[at], r)]
              case Contained => stop.Caught?
              case Escapes => stop.Thrown?
    {
      hide AsFloat, ReadLimit, Truthy;
      ghost var before := containers;
      var share := AsFloat(Look(o, "cpu_percent", Num(0.0)));
      if !share.Done? {
        return StopOf(share);
      }
      containers := containers[at := containers[at].(cpuSum := Added(containers[at].cpuSum, share.value))];
      var used := AsFloat(Look(o, "mem_usage", Num(0.0)));
      if !used.Done? {
        return StopOf(used);
      }
      var s := containers[at];
      s := s.(memSum := Added(s.memSum, used.value), samples := s.samples + 1);
      s := s.(status := Look(o, "status", s.status), state := Look(o, "state", s.state),
              image := Look(o, "image", s.image), id := Look(o, "id", s.id), ports := Look(o, "ports", s.ports));
      containers := containers[at := s];
      var limit := ReadLimit(Look(o, "mem_limit", Num(0.0)));
      if !limit.Done? {
        return StopOf(limit);
      }
      if limit.value.Some? {
        s := s.(memLimit := limit.value.value);
      }
      var gpu := Look(o, "gpu", Null);
      if gpu.Obj? {
        var vram := AsFloat(Look(gpu.fields, "vram_bytes", Num(0.0)));
        if !vram.Done? {
          return StopOf(vram);
        }
        var util := AsFloat(Look(gpu.fields, "gpu_util", Num(0.0)));
        if !util.Done? {
          return StopOf(util);
        }
        if Positive(vram.value) {
          s := s.(vramSum := Added(s.vramSum, vram.value), vramSamples := s.vramSamples + 1);
        }
        if Positive(util.value) {
          s := s.(utilSum := Added(s.utilSum, util.value), utilSamples := s.utilSamples + 1);
        }
        s := s.(gpuSeen := true);
      }
      containers := containers[at := s];
      stop := Went;
    }

    /** Walk the snapshot's containers up to the first that fails. */
    method AddContainers(e: Sample) returns (stop: Stop)
      modifies `containers
      ensures match WalkContainers(old(containers), e)
              case Done(cs) => stop.Went? && containers == cs
              case Contained => stop.Caught?
              case Escapes => stop.Thrown?
    {
      var list := Look(e, "containers", Null);
      if !Truthy(list) {
        return Went;
      }
      if !list.Arr? {
        return Caught;
      }
      var items := list.items;
      ghost var whole := Samples.AddContainers(containers, items);
      hide *;
      Whole(items);
      for i := 0 to |items|
        invariant whole == Samples.AddContainers(containers, items[i..])
      {
        WalkStep(containers, items, i);
        stop := AddContainer(items[i]);
        if !stop.Went? {
          return;
        }
      }
      WalkEnd(containers, items);
      stop := Went;
    }

    // ── one snapshot ──────────────────────────────────

    /**
     Fold one snapshot in. True is an exception that leaves the fold. Otherwise the record is what
     `AggAdd` makes of it, but for what a half that has just failed had already changed.
     */
    method Add(e: Sample) returns (escaped: bool)
      requires Valid()
      modifies this
      ensures escaped == AggAdd(old(View()), e).None?
      ensures !escaped ==> Valid() && Alike(View(), AggAdd(old(View()), e).value)
    {
      ghost var before := View();
      hide AddTotals, WalkContainers, Reserve, Shaped;
      if template.None? {
        template := Some(e);
      }
      n := n + 1;
      if !scalarFailed {
        var stop := Went;
        if n == 1 {
          stop := ReserveSlots(template.value);
        }
        if stop.Went? {
          stop := AddHost(e);
        }
        if stop.Thrown? {
          return true;
        }
        if stop.Caught? {
          scalarFailed := true;
        }
      }
      if !containerFailed {
        var stop := AddContainers(e);
        if stop.Thrown? {
          return true;
        }
        if stop.Caught? {
          containerFailed := true;
        }
      }
      escaped := false;
    }

    method Finalize() returns (summary: Option<Sample>)
      ensures summary == AggFinalize(View())
    {
      summary := AggFinalize(View());
    }
  }

  lemma FoldStep(entries: seq<Sample>, i: nat)
    requires i < |entries|
    ensures Fold(NEW_ACC, entries[..i + 1]) ==
            (match Fold(NEW_ACC, entries[..i]) case None => None case Some(mid) => AggAdd(mid, entries[i]))
    ensures Fold(NEW_ACC, entries[..i + 1]).None? ==> Fold(NEW_ACC, entries).None?
  {
    hide AggAdd;
    assert entries[..i + 1] == entries[..i] + [entries[i]];
    assert entries == entries[..i + 1] + entries[i + 1..];
    FoldAppend(NEW_ACC, entries[..i], [entries[i]]);
    FoldAppend(NEW_ACC, entries[..i + 1], entries[i + 1..]);
    assert [entries[i]][1..] == [];
  }

  lemma AlikeSelf(acc: Acc)
    ensures Alike(acc, acc) && Fold(acc, []) == Some(acc)
  {
  }

  lemma AlikeChains(a: Acc, b: Acc, c: Acc)
    requires Alike(a, b) && Alike(b, c)
    ensures Alike(a, c)
  {
  }

  /** `_average_metrics`, on the mutable record: None when a snapshot raises or there are none. */
  method Average(entries: seq<Sample>) returns (summary: Option<Sample>)
    ensures summary == AverageMetrics(entries)
  {
    hide Fold, AggAdd, AggFinalize, Alike;
    var record := new Accumulator();
    AlikeSelf(NEW_ACC);
    Whole(entries);
    for i := 0 to |entries|
      invariant fresh(record) && record.Valid()
      invariant Fold(NEW_ACC, entries[..i]).Some? && Alike(record.View(), Fold(NEW_ACC, entries[..i]).value)
    {
      FoldStep(entries, i);
      AlikeStays(record.View(), Fold(NEW_ACC, entries[..i]).value, entries[i]);
      ghost var next := AggAdd(record.View(), entries[i]);
      var escaped := record.Add(entries[i]);
      if escaped {
        return None;
      }
      AlikeChains(record.View(), next.value, Fold(NEW_ACC, entries[..i + 1]).value);
    }
    AlikeFinalizes(record.View(), Fold(NEW_ACC, entries).value);
    summary := record.Finalize();
  }
}
