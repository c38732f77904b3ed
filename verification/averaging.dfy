/**
 What the incremental fold of `Samples` computes, said without the fold: exactly when it raises,
 plain means for the host-wide readings, and for the containers one independent tally per name.
 */
module Averaging {
  import opened Wrappers
  import opened Samples

  // ── the containers of a snapshot ────────────────────

  /** The readings one container list contributes, as far as the first container that fails. */
  function Reads(list: seq<Json>): Ending<seq<Reading>>
    decreases |list|
  {
    if list == [] then Done([])
    else
      var reading :- ReadContainer(list[0]);
      var rest :- Reads(list[1..]);
      Done((if reading.Some? then [reading.value] else []) + rest)
  }

  function ReadingsOf(e: Sample): Ending<seq<Reading>> {
    var list := Look(e, "containers", Null);
    if !Truthy(list) then Done([])
    else if list.Arr? then Reads(list.items)
    else Contained
  }

  function MergeAll(cs: seq<ContainerSum>, rs: seq<Reading>): seq<ContainerSum>
    decreases |rs|
  {
    if rs == [] then cs else MergeAll(Merge(cs, rs[0]), rs[1..])
  }

  lemma {:induction false} AddContainersIs(cs: seq<ContainerSum>, list: seq<Json>)
    ensures AddContainers(cs, list) ==
            match Reads(list)
            case Done(rs) => Done(MergeAll(cs, rs))
            case Contained => Contained
            case Escapes => Escapes
    decreases |list|
  {
    if list != [] {
      var reading := ReadContainer(list[0]);
      hide ReadContainer, Merge;
      if reading.Done? {
        var next := if reading.value.Some? then Merge(cs, reading.value.value) else cs;
        AddContainersIs(next, list[1..]);
        if Reads(list[1..]).Done? && reading.value.Some? {
          var rest := Reads(list[1..]).value;
          assert ([reading.value.value] + rest)[1..] == rest;
        } else if Reads(list[1..]).Done? {
          assert [] + Reads(list[1..]).value == Reads(list[1..]).value;
        }
      }
    }
  }

  lemma WalkIs(cs: seq<ContainerSum>, e: Sample)
    ensures WalkContainers(cs, e) ==
            match ReadingsOf(e)
            case Done(rs) => Done(MergeAll(cs, rs))
            case Contained => Contained
            case Escapes => Escapes
  {
    hide AddContainers, Reads, Truthy;
    var list := Look(e, "containers", Null);
    if Truthy(list) && list.Arr? {
      AddContainersIs(cs, list.items);
    }
  }

  // ── when a fold raises ──────────────────────────────

  /**
   What is wrong with one value read: a shape no float can come from, or a number or text of which
   float arithmetic or float() makes none.
   */
  datatype Fault = NoFault | WrongShape | Refused

  function FirstFault(fs: seq<Fault>): Fault {
    if fs == [] then NoFault
    else if fs[0].NoFault? then FirstFault(fs[1..])
    else fs[0]
  }

  /** Reading and adding stop at the first fault: one of shape is contained, a refused value is not. */
  ghost predicate EndsLike<T>(end: Ending<T>, fs: seq<Fault>) {
    (end.Done? <==> FirstFault(fs).NoFault?) && (end.Escapes? <==> FirstFault(fs).Refused?)
  }

  lemma {:induction false} FirstAppends(a: seq<Fault>, b: seq<Fault>)
    ensures FirstFault(a + b) == if FirstFault(a).NoFault? then FirstFault(b) else FirstFault(a)
    decreases |a|
  {
    if a == [] {
      assert a + b == b;
    } else {
      assert (a + b)[1..] == a[1..] + b;
      FirstAppends(a[1..], b);
    }
  }

  lemma FirstOfOne(x: Fault, rest: seq<Fault>)
    ensures FirstFault([x]) == x
    ensures FirstFault([x] + rest) == if x.NoFault? then FirstFault(rest) else x
  {
    FirstAppends([x], rest);
    assert [x][1..] == [];
  }

  lemma FirstOfThree(x: Fault, y: Fault, z: Fault)
    ensures FirstFault([x, y]) == if x.NoFault? then y else x
    ensures FirstFault([x, y, z]) == if !x.NoFault? then x else if !y.NoFault? then y else z
  {
    assert [x, y] == [x] + [y] && [x, y, z] == [x] + [y, z];
    assert [y, z] == [y] + [z];
    FirstOfOne(x, [y]);
    FirstOfOne(x, [y, z]);
    FirstOfOne(y, [z]);
    FirstOfOne(z, []);
    FirstOfOne(y, []);
  }

  // containers

  /** Of a value added to a float. */
  function Summed(j: Json): Fault {
    if j.Num? then (if Held(j.n) then NoFault else Refused)
    else if j.Bool? || j.Inf? || j.NaN? then NoFault
    else WrongShape
  }

  /** Of a value, or 0 where it is false, handed to float(). */
  function Floated(j: Json): Fault {
    if !Truthy(j) then NoFault
    else if j.Text? then (if j.number.Some? then NoFault else Refused)
    else Summed(j)
  }

  /** Of a value, or 0 where it is false, compared with 0: integers are compared at any size. */
  function Limited(j: Json): Fault {
    if Truthy(j) && (j.Text? || j.Arr? || j.Obj?) then WrongShape else NoFault
  }

  /** Everything read off one container, in order. */
  function FaultsOf(c: Json): seq<Fault> {
    if !c.Obj? then [WrongShape]
    else
      var name, gpu := Look(c.fields, "name", Null), Look(c.fields, "gpu", Null);
      if !Truthy(name) then []
      else if name.Arr? || name.Obj? then [WrongShape]
      else
        [Floated(Look(c.fields, "cpu_percent", Num(0.0))), Floated(Look(c.fields, "mem_usage", Num(0.0))),
         Limited(Look(c.fields, "mem_limit", Num(0.0)))] +
        if gpu.Obj? then
          [Floated(Look(gpu.fields, "vram_bytes", Num(0.0))), Floated(Look(gpu.fields, "gpu_util", Num(0.0)))]
        else []
  }

  function Faults(list: seq<Json>): seq<Fault> {
    if list == [] then [] else FaultsOf(list[0]) + Faults(list[1..])
  }

  function ContainerFaults(e: Sample): seq<Fault> {
    var list := Look(e, "containers", Null);
    if !Truthy(list) then []
    else if list.Arr? then Faults(list.items)
    else [WrongShape]
  }

  lemma ContainerEnds(c: Json)
    ensures EndsLike(ReadContainer(c), FaultsOf(c))
  {
    if c.Obj? && |FaultsOf(c)| > 1 {
      var o, gpu := c.fields, Look(c.fields, "gpu", Null);
      var cpu, mem := Floated(Look(o, "cpu_percent", Num(0.0))), Floated(Look(o, "mem_usage", Num(0.0)));
      var limit := Limited(Look(o, "mem_limit", Num(0.0)));
      FloatEnds(Look(o, "cpu_percent", Num(0.0)));
      FloatEnds(Look(o, "mem_usage", Num(0.0)));
      LimitEnds(Look(o, "mem_limit", Num(0.0)));
      FirstOfThree(cpu, mem, limit);
      if gpu.Obj? {
        var vram := Floated(Look(gpu.fields, "vram_bytes", Num(0.0)));
        var util := Floated(Look(gpu.fields, "gpu_util", Num(0.0)));
        FloatEnds(Look(gpu.fields, "vram_bytes", Num(0.0)));
        FloatEnds(Look(gpu.fields, "gpu_util", Num(0.0)));
        FirstOfThree(vram, util, NoFault);
        FirstAppends([cpu, mem, limit], [vram, util]);
      } else {
        assert FaultsOf(c) == [cpu, mem, limit] + [] == [cpu, mem, limit];
      }
      hide FirstFault, Floated, Limited, AsFloat, ReadLimit;
    }
  }

  lemma FloatEnds(j: Json)
    ensures AsFloat(j).Done? <==> Floated(j).NoFault?
    ensures AsFloat(j).Escapes? <==> Floated(j).Refused?
  {
    hide Held;
  }

  lemma LimitEnds(j: Json)
    ensures ReadLimit(j).Done? <==> Limited(j).NoFault?
    ensures !ReadLimit(j).Escapes? && !Limited(j).Refused?
  {
  }

  /**
   Reading a list of containers escapes if and only if its first fault is a refused value: a text
   that is no float or an integer that none holds. Any other first fault is contained.
   */
  lemma {:induction false} ContainersEscapeIff(list: seq<Json>)
    ensures EndsLike(Reads(list), Faults(list))
    decreases |list|
  {
    hide ReadContainer, FaultsOf;
    if list != [] {
      ContainerEnds(list[0]);
      FirstAppends(FaultsOf(list[0]), Faults(list[1..]));
      ContainersEscapeIff(list[1..]);
    }
  }

  lemma ReadingsEnd(e: Sample)
    ensures EndsLike(ReadingsOf(e), ContainerFaults(e))
  {
    hide Reads, Faults, Truthy;
    FirstOfOne(WrongShape, []);
    var list := Look(e, "containers", Null);
    if Truthy(list) && list.Arr? {
      ContainersEscapeIff(list.items);
    }
  }

  // the host-wide half

  /** The slots a fold holds sums in: one per core, and per device how many fields. */
  datatype Shape = Shape(cores: nat, widths: seq<nat>)

  function ShapeOf(t: Totals): Shape {
    Shape(|t.cores|, Widths(t.gpu))
  }

  function Widths(gpu: seq<GpuTotal>): seq<nat> {
    seq(|gpu|, i requires 0 <= i < |gpu| => |gpu[i].sums|)
  }

  /** Of one figure of one section. */
  function Figure(e: Sample, section: string, field: string): Fault {
    var part := Look(e, section, EMPTY);
    if part.Obj? then Summed(Look(part.fields, field, Num(0.0))) else WrongShape
  }

  function CoreFaults(cores: nat, readings: seq<Json>): seq<Fault> {
    if cores == 0 then []
    else if readings == [] then [WrongShape]
    else [Summed(readings[0])] + CoreFaults(cores - 1, readings[1..])
  }

  function FieldFaults(width: nat, names: seq<string>, device: Json): seq<Fault> {
    if width == 0 || names == [] then []
    else
      [if device.Obj? then Summed(Look(device.fields, names[0], Num(0.0))) else WrongShape] +
      FieldFaults(width - 1, names[1..], device)
  }

  function DeviceFaults(widths: seq<nat>, reported: seq<Json>): seq<Fault> {
    if widths == [] || reported == [] then []
    else FieldFaults(widths[0], GPU_FIELDS, reported[0]) + DeviceFaults(widths[1..], reported[1..])
  }

  /** The cores of one snapshot; one that reports none stands for as many zeros. */
  function CoresOf(cores: nat, e: Sample): seq<Fault> {
    var part := Look(e, "cpu", EMPTY);
    if cores == 0 || (part.Obj? && "percent_per_core" !in part.fields) then []
    else if part.Obj? && part.fields["percent_per_core"].Arr? then
      CoreFaults(cores, part.fields["percent_per_core"].items)
    else [WrongShape]
  }

  function DevicesOf(widths: seq<nat>, e: Sample): seq<Fault> {
    var reported := Look(e, "gpu", NO_ITEMS);
    if widths == [] then []
    else if reported.Arr? then DeviceFaults(widths, reported.items)
    else if Length(reported) == Some(0) then []
    else [WrongShape]
  }

  /** Everything host-wide read off one snapshot into these slots, in order. */
  function HostFaults(s: Shape, e: Sample): seq<Fault> {
    [Figure(e, "cpu", "percent_total"), Figure(e, "memory", "percent"), Figure(e, "disk", "percent")] +
    (CoresOf(s.cores, e) + DevicesOf(s.widths, e))
  }

  lemma SumEnds(total: Float, j: Json)
    ensures Plus(total, j).Done? <==> Summed(j).NoFault?
    ensures Plus(total, j).Escapes? <==> Summed(j).Refused?
  {
    hide Held, Added;
  }

  lemma {:induction false} CoresEnd(sums: seq<Float>, readings: seq<Json>)
    ensures EndsLike(AddCores(sums, readings), CoreFaults(|sums|, readings))
    ensures AddCores(sums, readings).Done? ==> |AddCores(sums, readings).value| == |sums|
    decreases |sums|
  {
    hide Plus, Summed;
    FirstOfOne(WrongShape, []);
    if sums != [] && readings != [] {
      SumEnds(sums[0], readings[0]);
      CoresEnd(sums[1..], readings[1..]);
      FirstOfOne(Summed(readings[0]), CoreFaults(|sums| - 1, readings[1..]));
    }
  }

  /** Zeros can be added to any sums. */
  lemma {:induction false} ZerosAdd(n: nat)
    ensures FirstFault(CoreFaults(n, seq(n, _ => Num(0.0)))).NoFault?
    decreases n
  {
    if n > 0 {
      var zeros := seq(n, _ => Num(0.0));
      assert zeros[0] == Num(0.0) && zeros[1..] == seq(n - 1, _ => Num(0.0));
      FirstOfOne(NoFault, CoreFaults(n - 1, zeros[1..]));
      ZerosAdd(n - 1);
    }
  }

  lemma {:induction false} FieldsEnd(sums: seq<Float>, names: seq<string>, device: Json)
    ensures EndsLike(AddFields(sums, names, device), FieldFaults(|sums|, names, device))
    ensures AddFields(sums, names, device).Done? ==> |AddFields(sums, names, device).value| == |sums|
    decreases |sums|
  {
    hide Plus, Summed;
    if sums != [] && names != [] {
      var fault := if device.Obj? then Summed(Look(device.fields, names[0], Num(0.0))) else WrongShape;
      FirstOfOne(fault, FieldFaults(|sums| - 1, names[1..], device));
      if device.Obj? {
        SumEnds(sums[0], Look(device.fields, names[0], Num(0.0)));
      }
      FieldsEnd(sums[1..], names[1..], device);
    }
  }

  lemma {:induction false} DevicesEnd(gpu: seq<GpuTotal>, reported: seq<Json>)
    ensures EndsLike(AddDevices(gpu, reported), DeviceFaults(Widths(gpu), reported))
    ensures AddDevices(gpu, reported).Done? ==> Widths(AddDevices(gpu, reported).value) == Widths(gpu)
    decreases |gpu|
  {
    hide AddFields, FieldFaults;
    if gpu != [] && reported != [] {
      assert Widths(gpu) == [|gpu[0].sums|] + Widths(gpu[1..]);
      FieldsEnd(gpu[0].sums, GPU_FIELDS, reported[0]);
      DevicesEnd(gpu[1..], reported[1..]);
      FirstAppends(FieldFaults(|gpu[0].sums|, GPU_FIELDS, reported[0]), DeviceFaults(Widths(gpu[1..]), reported[1..]));
    }
  }

  lemma AllCoresEnd(sums: seq<Float>, e: Sample)
    ensures EndsLike(AllCores(sums, e), CoresOf(|sums|, e))
    ensures AllCores(sums, e).Done? ==> |AllCores(sums, e).value| == |sums|
  {
    hide AddCores, CoreFaults, FirstFault;
    ZerosAdd(|sums|);
    FirstOfOne(WrongShape, []);
    FirstOfNone();
    var cpu := Look(e, "cpu", EMPTY);
    if cpu.Obj? {
      var perCore := Look(cpu.fields, "percent_per_core", Arr(seq(|sums|, _ => Num(0.0))));
      if perCore.Arr? {
        CoresEnd(sums, perCore.items);
      }
    }
  }

  lemma AllDevicesEnd(gpu: seq<GpuTotal>, e: Sample)
    ensures EndsLike(AllDevices(gpu, e), DevicesOf(Widths(gpu), e))
    ensures AllDevices(gpu, e).Done? ==> Widths(AllDevices(gpu, e).value) == Widths(gpu)
  {
    hide AddDevices, DeviceFaults, FirstFault, Length;
    FirstOfOne(WrongShape, []);
    FirstOfNone();
    var reported := Look(e, "gpu", NO_ITEMS);
    if reported.Arr? {
      DevicesEnd(gpu, reported.items);
    }
  }

  lemma FirstOfNone()
    ensures FirstFault([]).NoFault?
  {
  }

  lemma FigureEnds(total: Float, e: Sample, section: string, field: string)
    ensures var reading := Get(Look(e, section, EMPTY), field, Num(0.0));
            && (Figure(e, section, field).NoFault? <==> reading.Some? && Plus(total, reading.value).Done?)
            && (Figure(e, section, field).Refused? <==> reading.Some? && Plus(total, reading.value).Escapes?)
  {
    hide Plus, Summed;
    var part := Look(e, section, EMPTY);
    if part.Obj? {
      SumEnds(total, Look(part.fields, field, Num(0.0)));
    }
  }

  /**
   Adding a snapshot's host-wide readings escapes if and only if their first fault is an integer no
   float holds, wherever it stands; what is added to does not matter.
   */
  lemma HostEscapesIff(t: Totals, e: Sample)
    ensures EndsLike(AddTotals(t, e), HostFaults(ShapeOf(t), e))
    ensures AddTotals(t, e).Done? ==> ShapeOf(AddTotals(t, e).value) == ShapeOf(t)
  {
    FigureEnds(t.cpu, e, "cpu", "percent_total");
    FigureEnds(t.mem, e, "memory", "percent");
    FigureEnds(t.disk, e, "disk", "percent");
    AllCoresEnd(t.cores, e);
    AllDevicesEnd(t.gpu, e);
    hide FirstFault, Plus, Figure, AllCores, AllDevices, CoresOf, DevicesOf, Widths, Look, Get;
    var figures := [Figure(e, "cpu", "percent_total"), Figure(e, "memory", "percent"), Figure(e, "disk", "percent")];
    FirstOfThree(figures[0], figures[1], figures[2]);
    var cores, devices := CoresOf(|t.cores|, e), DevicesOf(Widths(t.gpu), e);
    FirstAppends(figures, cores + devices);
    FirstAppends(cores, devices);
  }

  // the fold

  function ContainerFaultsIn(entries: seq<Sample>): seq<Fault>
    decreases |entries|
  {
    if entries == [] then [] else ContainerFaults(entries[0]) + ContainerFaultsIn(entries[1..])
  }

  function HostFaultsIn(s: Shape, entries: seq<Sample>): seq<Fault>
    decreases |entries|
  {
    if entries == [] then [] else HostFaults(s, entries[0]) + HostFaultsIn(s, entries[1..])
  }

  /** The slots this snapshot adds into, and whether reserving them fails. */
  function SlotsFor(acc: Acc, e: Sample): (Shape, seq<Fault>) {
    if acc.n != 0 then (ShapeOf(acc.totals), [])
    else
      var reserved := Reserve(if acc.template.None? then e else acc.template.value);
      if reserved.None? then (Shape(0, []), [WrongShape]) else (ShapeOf(reserved.value), [])
  }

  /** Everything host-wide that folding these snapshots on reads. */
  function HostFaultsFrom(acc: Acc, entries: seq<Sample>): seq<Fault> {
    if entries == [] then []
    else
      var (slots, faults) := SlotsFor(acc, entries[0]);
      faults + HostFaultsIn(slots, entries)
  }

  lemma HostHalfEnds(acc: Acc, e: Sample)
    ensures var (slots, faults) := SlotsFor(acc, e);
            && EndsLike(HostHalf(acc, e), faults + HostFaults(slots, e))
            && (HostHalf(acc, e).Done? ==> ShapeOf(HostHalf(acc, e).value) == slots)
  {
    hide AddTotals, HostFaults, FirstFault, Reserve;
    var (slots, faults) := SlotsFor(acc, e);
    FirstAppends(faults, HostFaults(slots, e));
    FirstOfOne(WrongShape, []);
    assert [] + HostFaults(slots, e) == HostFaults(slots, e);
    if acc.n != 0 {
      HostEscapesIff(acc.totals, e);
    } else {
      var reserved := Reserve(if acc.template.None? then e else acc.template.value);
      if reserved.Some? {
        HostEscapesIff(reserved.value, e);
      }
    }
  }

  /** One step raises when either half that is not latched escapes, and latches what failed otherwise. */
  lemma AddRaises(acc: Acc, e: Sample)
    ensures AggAdd(acc, e).None? <==>
            (!acc.scalarFailed && HostHalf(acc, e).Escapes?) || (!acc.containerFailed && ReadingsOf(e).Escapes?)
    ensures AggAdd(acc, e).Some? ==>
              var next := AggAdd(acc, e).value;
              && next.n == acc.n + 1
              && (next.scalarFailed <==> acc.scalarFailed || !HostHalf(acc, e).Done?)
              && (next.containerFailed <==> acc.containerFailed || !ReadingsOf(e).Done?)
              && (!next.scalarFailed ==> next.totals == HostHalf(acc, e).value)
  {
    hide HostHalf, WalkContainers, ReadingsOf, MergeAll;
    WalkIs(acc.containers, e);
  }

  /**
   A fold raises if and only if in one of its halves, if it is not latched already, the first fault
   over all the snapshots, field by field, is a refused value: one float() or float arithmetic makes
   no float of.
   */
  lemma {:induction false} FoldRaisesIff(acc: Acc, entries: seq<Sample>)
    ensures Fold(acc, entries).None? <==>
            || (!acc.scalarFailed && FirstFault(HostFaultsFrom(acc, entries)).Refused?)
            || (!acc.containerFailed && FirstFault(ContainerFaultsIn(entries)).Refused?)
    decreases |entries|
  {
    if entries != [] {
      var e, rest := entries[0], entries[1..];
      HostHalfEnds(acc, e);
      HostSplits(acc, entries);
      ReadingsEnd(e);
      hide AggAdd, HostHalf, ReadingsOf, ContainerFaults, HostFaults, HostFaultsFrom, SlotsFor, FirstFault;
      FirstAppends(ContainerFaults(e), ContainerFaultsIn(rest));
      AddRaises(acc, e);
      var next := AggAdd(acc, e);
      if next.Some? {
        FoldRaisesIff(next.value, rest);
        HostGoesOn(next.value, rest);
      }
    }
  }

  lemma HostSplits(acc: Acc, entries: seq<Sample>)
    requires entries != []
    ensures var (slots, faults) := SlotsFor(acc, entries[0]);
            FirstFault(HostFaultsFrom(acc, entries)) ==
            if FirstFault(faults + HostFaults(slots, entries[0])).NoFault? then FirstFault(HostFaultsIn(slots, entries[1..]))
            else FirstFault(faults + HostFaults(slots, entries[0]))
  {
    hide SlotsFor, HostFaults, FirstFault;
    var (slots, faults) := SlotsFor(acc, entries[0]);
    var first, rest := HostFaults(slots, entries[0]), HostFaultsIn(slots, entries[1..]);
    assert faults + (first + rest) == faults + first + rest;
    FirstAppends(faults + first, rest);
  }

  lemma HostGoesOn(acc: Acc, entries: seq<Sample>)
    requires acc.n != 0
    ensures HostFaultsFrom(acc, entries) == HostFaultsIn(ShapeOf(acc.totals), entries)
  {
    hide HostFaults, ShapeOf;
    if entries != [] {
      assert [] + HostFaultsIn(ShapeOf(acc.totals), entries) == HostFaultsIn(ShapeOf(acc.totals), entries);
    }
  }

  /** A container with a name and a text for its CPU share. */
  const BAD_CONTAINER: Json := Obj(map["name" := Text("web", None), "cpu_percent" := Text("n/a", None)])

  const POISON: Sample := map["containers" := Arr([BAD_CONTAINER])]

  /** The latches do not contain it: whatever was folded before, this snapshot raises. */
  lemma PoisonRaises(acc: Acc)
    requires !acc.containerFailed
    ensures AggAdd(acc, POISON).None?
  {
    AddRaises(acc, POISON);
    hide AggAdd, HostHalf;
    var o := BAD_CONTAINER.fields;
    assert Look(o, "name", Null) == Text("web", None) && Look(o, "cpu_percent", Num(0.0)) == Text("n/a", None);
    assert ReadContainer(BAD_CONTAINER).Escapes?;
    assert Reads([BAD_CONTAINER]).Escapes?;
    assert Look(POISON, "containers", Null) == Arr([BAD_CONTAINER]);
    assert ReadingsOf(POISON).Escapes?;
  }

  /** An integer of 309 digits as the CPU share of the host, which no float holds. */
  const OVERSIZED: Sample := map["cpu" := Obj(map["percent_total" := Num(BEYOND as real)])]

  /** Nor is it contained in the other half, with every container readable. */
  lemma OversizedRaises(acc: Acc)
    requires !acc.scalarFailed && (acc.n == 0 ==> acc.template.None?)
    ensures AggAdd(acc, OVERSIZED).None? && ReadingsOf(OVERSIZED).Done?
  {
    var cpu := OVERSIZED["cpu"];
    assert Look(OVERSIZED, "cpu", EMPTY) == cpu && cpu.fields == map["percent_total" := Num(BEYOND as real)];
    assert Get(cpu, "percent_per_core", NO_ITEMS) == Some(NO_ITEMS) && Reserve(OVERSIZED).Some?;
    forall t
      ensures AddTotals(t, OVERSIZED).Escapes?
    {
      OversizedEscapes(t);
    }
    assert Look(OVERSIZED, "containers", Null) == Null;
    AddRaises(acc, OVERSIZED);
    hide AggAdd, AddTotals, Reserve;
  }

  lemma OversizedEscapes(t: Totals)
    ensures AddTotals(t, OVERSIZED).Escapes?
  {
    hide AllCores, AllDevices;
    var cpu := OVERSIZED["cpu"];
    assert Look(OVERSIZED, "cpu", EMPTY) == cpu;
    assert Get(cpu, "percent_total", Num(0.0)) == Some(Num(BEYOND as real));
  }

  // ── one tally per container name ────────────────────

  /** The readings of one container, in order. */
  function Of(rs: seq<Reading>, name: Json): seq<Reading> {
    if rs == [] then []
    else
      var n := |rs| - 1;
      Of(rs[..n], name) + if rs[n].name == name then [rs[n]] else []
  }

  /** The container names, in order of first appearance. */
  function Names(rs: seq<Reading>): seq<Json> {
    if rs == [] then []
    else
      var n := |rs| - 1;
      var front := Names(rs[..n]);
      if rs[n].name in front then front else front + [rs[n].name]
  }

  lemma {:induction false} NamesAre(rs: seq<Reading>, name: Json)
    ensures name in Names(rs) <==> Of(rs, name) != []
    decreases |rs|
  {
    if rs != [] {
      NamesAre(rs[..|rs| - 1], name);
    }
  }

  /** One container's readings folded by themselves. */
  function Tally(q: seq<Reading>): ContainerSum
    requires q != []
  {
    var n := |q| - 1;
    AddReading(if n == 0 then NewContainer(q[0]) else Tally(q[..n]), q[n])
  }

  lemma {:induction false} MergeAllAppends(cs: seq<ContainerSum>, rs: seq<Reading>, r: Reading)
    ensures MergeAll(cs, rs + [r]) == Merge(MergeAll(cs, rs), r)
    decreases |rs|
  {
    hide Merge;
    if rs == [] {
      assert rs + [r] == [r] && [r][1..] == [];
    } else {
      assert (rs + [r])[1..] == rs[1..] + [r];
      MergeAllAppends(Merge(cs, rs[0]), rs[1..], r);
    }
  }

  /** Entry `i` of the merged list, given the names in the list. */
  lemma {:induction false} MergeAt(cs: seq<ContainerSum>, r: Reading, names: seq<Json>, i: nat)
    requires |names| == |cs| && forall x | 0 <= x < |cs| :: cs[x].key == names[x]
    requires forall x, y | 0 <= x < y < |names| :: names[x] != names[y]
    ensures |Merge(cs, r)| == if r.name in names then |cs| else |cs| + 1
    ensures i < |cs| ==> Merge(cs, r)[i] == if names[i] == r.name then AddReading(cs[i], r) else cs[i]
    ensures i == |cs| && r.name !in names ==> Merge(cs, r)[i] == AddReading(NewContainer(r), r)
    decreases |cs|
  {
    hide AddReading, NewContainer;
    if cs == [] {
    } else if cs[0].key == r.name {
      assert names[0] in names;
      assert i > 0 && i < |cs| ==> names[0] != names[i];
    } else {
      assert names == [names[0]] + names[1..];
      MergeAt(cs[1..], r, names[1..], if i == 0 then 0 else i - 1);
    }
  }

  lemma {:induction false} TallyName(q: seq<Reading>, name: Json)
    requires q != [] && forall r | r in q :: r.name == name
    ensures Tally(q).key == name && Tally(q).name == Look(q[0].raw, "name", Null)
    decreases |q|
  {
    var n := |q| - 1;
    if n > 0 {
      TallyName(q[..n], name);
    }
  }

  lemma {:induction false} OfName(rs: seq<Reading>, name: Json)
    ensures forall r | r in Of(rs, name) :: r.name == name && r in rs
    decreases |rs|
  {
    if rs != [] {
      var n := |rs| - 1;
      assert rs == rs[..n] + [rs[n]];
      OfName(rs[..n], name);
    }
  }

  lemma {:induction false} NamesDistinct(rs: seq<Reading>)
    ensures forall i, j | 0 <= i < j < |Names(rs)| :: Names(rs)[i] != Names(rs)[j]
    decreases |rs|
  {
    if rs != [] {
      NamesDistinct(rs[..|rs| - 1]);
    }
  }

  /**
   Interleaved merging is independent tallying: there is one entry per container name, in order of
   first appearance, and it is what folding that container's own readings alone gives.
   */
  lemma {:induction false} MergedIsTallied(rs: seq<Reading>)
    ensures |MergeAll([], rs)| == |Names(rs)|
    ensures forall i | 0 <= i < |Names(rs)| ::
              Of(rs, Names(rs)[i]) != [] && MergeAll([], rs)[i] == Tally(Of(rs, Names(rs)[i]))
    decreases |rs|
  {
    if rs != [] {
      var n := |rs| - 1;
      var front, r := rs[..n], rs[n];
      assert rs == front + [r];
      MergedIsTallied(front);
      hide *;
      MergeAllAppends([], front, r);
      NamesDistinct(front);
      var cs, names := MergeAll([], front), Names(front);
      forall i | 0 <= i < |names|
        ensures cs[i].key == names[i]
      {
        TallyOwnName(front, names[i]);
      }
      NamesGrow(front, r);
      MergeAt(cs, r, names, 0);
      forall i | 0 <= i < |Names(rs)|
        ensures Of(rs, Names(rs)[i]) != []
        ensures Merge(cs, r)[i] == Tally(Of(rs, Names(rs)[i]))
      {
        NamesAre(rs, Names(rs)[i]);
        NamesAre(front, Names(rs)[i]);
        MergeAt(cs, r, names, i);
        TallyGrows(front, r, Names(rs)[i]);
      }
    }
  }

  lemma TallyOwnName(rs: seq<Reading>, name: Json)
    requires name in Names(rs)
    ensures Of(rs, name) != [] && Tally(Of(rs, name)).key == name
  {
    NamesAre(rs, name);
    OfName(rs, name);
    TallyName(Of(rs, name), name);
  }

  lemma NamesGrow(front: seq<Reading>, r: Reading)
    ensures Names(front + [r]) == if r.name in Names(front) then Names(front) else Names(front) + [r.name]
  {
    assert (front + [r])[..|front|] == front;
  }

  lemma TallyGrows(front: seq<Reading>, r: Reading, name: Json)
    ensures r.name != name ==> Of(front + [r], name) == Of(front, name)
    ensures r.name == name ==>
              Of(front + [r], name) != [] &&
              Tally(Of(front + [r], name)) ==
              AddReading(if Of(front, name) == [] then NewContainer(r) else Tally(Of(front, name)), r)
  {
    hide AddReading, NewContainer;
    assert (front + [r])[..|front|] == front;
    var q := Of(front, name) + [r];
    assert q[..|q| - 1] == Of(front, name);
  }

  // ── what a tally says ───────────────────────────────

  function Sum(xs: seq<Float>): Float {
    if xs == [] then ZERO else Added(Sum(xs[..|xs| - 1]), xs[|xs| - 1])
  }

  /** In this snapshot the container held GPU memory. */
  predicate Loaded(r: Reading) { r.gpu.Some? && Positive(r.gpu.value.0) }

  /** In this snapshot the container was running on a GPU. */
  predicate Busy(r: Reading) { r.gpu.Some? && Positive(r.gpu.value.1) }

  /** The GPU memory figures of the snapshots in which the container held any. */
  function Vrams(q: seq<Reading>): seq<Float> {
    if q == [] then []
    else
      var n := |q| - 1;
      Vrams(q[..n]) + if Loaded(q[n]) then [q[n].gpu.value.0] else []
  }

  function Utils(q: seq<Reading>): seq<Float> {
    if q == [] then []
    else
      var n := |q| - 1;
      Utils(q[..n]) + if Busy(q[n]) then [q[n].gpu.value.1] else []
  }

  /** The last positive limit, or failing any the one the first snapshot stated. */
  function Limit(q: seq<Reading>): Json
    requires q != []
  {
    var n := |q| - 1;
    if q[n].limit.Some? then q[n].limit.value
    else if n == 0 then Look(q[0].raw, "mem_limit", Num(0.0))
    else Limit(q[..n])
  }

  lemma SumAppends(xs: seq<Float>, x: Float)
    ensures Sum(xs + [x]) == Added(Sum(xs), x)
  {
    assert (xs + [x])[..|xs|] == xs;
  }

  function Cpus(q: seq<Reading>): seq<Float> { seq(|q|, i requires 0 <= i < |q| => q[i].cpu) }

  function Mems(q: seq<Reading>): seq<Float> { seq(|q|, i requires 0 <= i < |q| => q[i].mem) }

  /**
   A tally holds the sums and the divisors of plain means: CPU and memory over every snapshot with
   the container in it, GPU figures only over the snapshots in which they were positive.
   */
  lemma {:induction false} TallyIsSums(q: seq<Reading>)
    requires q != []
    ensures var s := Tally(q);
            && s.samples == |q| && s.cpuSum == Sum(Cpus(q)) && s.memSum == Sum(Mems(q))
            && s.vramSamples == |Vrams(q)| && s.vramSum == Sum(Vrams(q))
            && s.utilSamples == |Utils(q)| && s.utilSum == Sum(Utils(q))
            && (s.gpuSeen <==> exists r | r in q :: r.gpu.Some?)
            && s.memLimit == Limit(q)
    decreases |q|
  {
    hide *;
    var n := |q| - 1;
    var front, r := q[..n], q[n];
    assert q == front + [r];
    CpusAppend(front, r);
    GpusAppend(front, r);
    var before := if n == 0 then NewContainer(q[0]) else Tally(front);
    ReadingAdds(before, r);
    SeenAppends(front, r);
    TallyIs(q);
    NothingTallied(q[0]);
    if n == 0 {
      assert front == [];
    } else {
      TallyIsSums(front);
    }
  }

  lemma TallyIs(q: seq<Reading>)
    requires q != []
    ensures var n := |q| - 1;
            && Tally(q) == AddReading(if n == 0 then NewContainer(q[0]) else Tally(q[..n]), q[n])
            && Limit(q) == if q[n].limit.Some? then q[n].limit.value
                           else if n == 0 then Look(q[0].raw, "mem_limit", Num(0.0)) else Limit(q[..n])
  {
  }

  lemma NothingTallied(first: Reading)
    ensures Cpus([]) == [] && Mems([]) == [] && Vrams([]) == [] && Utils([]) == [] && Sum([]) == Finite(0.0)
    ensures var s := NewContainer(first);
            && s.samples == 0 && s.cpuSum == s.memSum == Finite(0.0) && s.vramSamples == 0 && s.vramSum == Finite(0.0)
            && s.utilSamples == 0 && s.utilSum == Finite(0.0) && !s.gpuSeen
            && s.memLimit == Look(first.raw, "mem_limit", Num(0.0))
  {
  }

  lemma SeenAppends(front: seq<Reading>, r: Reading)
    ensures (exists x | x in front + [r] :: x.gpu.Some?) <==> (exists x | x in front :: x.gpu.Some?) || r.gpu.Some?
  {
  }

  lemma CpusAppend(front: seq<Reading>, r: Reading)
    ensures Sum(Cpus(front + [r])) == Added(Sum(Cpus(front)), r.cpu)
    ensures Sum(Mems(front + [r])) == Added(Sum(Mems(front)), r.mem)
  {
    assert Cpus(front + [r]) == Cpus(front) + [r.cpu] && Mems(front + [r]) == Mems(front) + [r.mem];
    SumAppends(Cpus(front), r.cpu);
    SumAppends(Mems(front), r.mem);
  }

  lemma GpusAppend(front: seq<Reading>, r: Reading)
    ensures |Vrams(front + [r])| == |Vrams(front)| + (if Loaded(r) then 1 else 0)
    ensures Sum(Vrams(front + [r])) == if Loaded(r) then Added(Sum(Vrams(front)), r.gpu.value.0) else Sum(Vrams(front))
    ensures |Utils(front + [r])| == |Utils(front)| + (if Busy(r) then 1 else 0)
    ensures Sum(Utils(front + [r])) == if Busy(r) then Added(Sum(Utils(front)), r.gpu.value.1) else Sum(Utils(front))
  {
    assert (front + [r])[..|front|] == front;
    assert Vrams(front) + [] == Vrams(front) && Utils(front) + [] == Utils(front);
    if r.gpu.Some? {
      SumAppends(Vrams(front), r.gpu.value.0);
      SumAppends(Utils(front), r.gpu.value.1);
    }
  }

  lemma ReadingAdds(s: ContainerSum, r: Reading)
    ensures var t := AddReading(s, r);
            && t.samples == s.samples + 1 && t.cpuSum == Added(s.cpuSum, r.cpu) && t.memSum == Added(s.memSum, r.mem)
            && t.vramSamples == s.vramSamples + (if Loaded(r) then 1 else 0)
            && t.vramSum == (if Loaded(r) then Added(s.vramSum, r.gpu.value.0) else s.vramSum)
            && t.utilSamples == s.utilSamples + (if Busy(r) then 1 else 0)
            && t.utilSum == (if Busy(r) then Added(s.utilSum, r.gpu.value.1) else s.utilSum)
            && (t.gpuSeen <==> s.gpuSeen || r.gpu.Some?)
            && t.memLimit == if r.limit.Some? then r.limit.value else s.memLimit
  {
  }

  // ── a whole bucket ──────────────────────────────────

  /** Every container reading of these snapshots, in order. */
  function AllReadings(entries: seq<Sample>): seq<Reading>
    decreases |entries|
  {
    if entries == [] then []
    else
      var first := ReadingsOf(entries[0]);
      (if first.Done? then first.value else []) + AllReadings(entries[1..])
  }

  lemma {:induction false} MergeAllSplits(cs: seq<ContainerSum>, p: seq<Reading>, q: seq<Reading>)
    ensures MergeAll(cs, p + q) == MergeAll(MergeAll(cs, p), q)
    decreases |p|
  {
    hide Merge;
    if p == [] {
      assert p + q == q;
    } else {
      assert (p + q)[0] == p[0] && (p + q)[1..] == p[1..] + q;
      MergeAllSplits(Merge(cs, p[0]), p[1..], q);
    }
  }

  lemma AddWalks(acc: Acc, e: Sample)
    requires AggAdd(acc, e).Some? && !AggAdd(acc, e).value.containerFailed
    ensures !acc.containerFailed && ReadingsOf(e).Done?
    ensures AggAdd(acc, e).value.containers == MergeAll(acc.containers, ReadingsOf(e).value)
  {
    hide AddTotals, Reserve, WalkContainers, ReadingsOf, MergeAll;
    WalkIs(acc.containers, e);
  }

  /** Folding snapshot by snapshot merges the readings of all of them, one after the other. */
  lemma {:induction false} FoldMerges(acc: Acc, entries: seq<Sample>)
    requires Fold(acc, entries).Some? && !Fold(acc, entries).value.containerFailed
    ensures !acc.containerFailed
    ensures Fold(acc, entries).value.containers == MergeAll(acc.containers, AllReadings(entries))
    decreases |entries|
  {
    if entries != [] {
      hide AggAdd, MergeAll, ReadingsOf;
      var next := AggAdd(acc, entries[0]).value;
      FoldMerges(next, entries[1..]);
      AddWalks(acc, entries[0]);
      MergeAllSplits(acc.containers, ReadingsOf(entries[0]).value, AllReadings(entries[1..]));
    } else {
      assert MergeAll(acc.containers, []) == acc.containers;
    }
  }

  /** A bucket's containers: one per name, each with the means of its own readings. */
  lemma ContainersAreTallied(entries: seq<Sample>, i: nat)
    requires Fold(NEW_ACC, entries).Some? && !Fold(NEW_ACC, entries).value.containerFailed
    requires i < |Names(AllReadings(entries))|
    ensures var acc, rs := Fold(NEW_ACC, entries).value, AllReadings(entries);
            && |acc.containers| == |Names(rs)|
            && Of(rs, Names(rs)[i]) != []
            && acc.containers[i] == Tally(Of(rs, Names(rs)[i]))
  {
    FoldMerges(NEW_ACC, entries);
    MergedIsTallied(AllReadings(entries));
  }

  // ── host-wide means ─────────────────────────────────

  /** A number read out of one section of a snapshot, or how reading it fails. */
  function HostReading(e: Sample, section: string, field: string): Ending<Float> {
    var reading :- Caught(Get(Look(e, section, EMPTY), field, Num(0.0)));
    ToFloat(reading)
  }

  /** The readings of one field over all the snapshots. */
  function HostReadings(entries: seq<Sample>, section: string, field: string): seq<Float> {
    seq(|entries|, i requires 0 <= i < |entries| =>
      var reading := HostReading(entries[i], section, field); if reading.Done? then reading.value else ZERO)
  }

  lemma AddHost(t: Totals, e: Sample)
    requires AddTotals(t, e).Done?
    ensures var cpu, mem, disk := HostReading(e, "cpu", "percent_total"), HostReading(e, "memory", "percent"),
                                  HostReading(e, "disk", "percent");
            && cpu.Done? && mem.Done? && disk.Done?
            && var after := AddTotals(t, e).value;
               after.cpu == Added(t.cpu, cpu.value) && after.mem == Added(t.mem, mem.value) && after.disk == Added(t.disk, disk.value)
  {
    hide AllCores, AllDevices, ToFloat, Added;
  }

  /** What one fold step does to the host-wide sums. */
  lemma AddSums(acc: Acc, e: Sample)
    requires AggAdd(acc, e).Some? && !AggAdd(acc, e).value.scalarFailed
    requires acc.n == 0 ==> acc.totals.cpu == acc.totals.mem == acc.totals.disk == ZERO
    ensures !acc.scalarFailed
    ensures var cpu, mem, disk := HostReading(e, "cpu", "percent_total"), HostReading(e, "memory", "percent"),
                                  HostReading(e, "disk", "percent");
            && cpu.Done? && mem.Done? && disk.Done?
            && var after := AggAdd(acc, e).value.totals;
               && after.cpu == Added(acc.totals.cpu, cpu.value) && after.mem == Added(acc.totals.mem, mem.value)
               && after.disk == Added(acc.totals.disk, disk.value)
  {
    hide HostReading, WalkContainers, AddTotals;
    var template := if acc.template.None? then e else acc.template.value;
    if acc.n == 0 {
      AddHost(Reserve(template).value, e);
    } else {
      AddHost(acc.totals, e);
    }
  }

  lemma ReadingsAppend(entries: seq<Sample>, e: Sample, section: string, field: string)
    requires HostReading(e, section, field).Done?
    ensures Sum(HostReadings(entries + [e], section, field)) ==
            Added(Sum(HostReadings(entries, section, field)), HostReading(e, section, field).value)
  {
    hide HostReading;
    var x := HostReading(e, section, field).value;
    assert HostReadings(entries + [e], section, field) == HostReadings(entries, section, field) + [x];
    SumAppends(HostReadings(entries, section, field), x);
  }

  lemma FoldLast(entries: seq<Sample>)
    requires entries != [] && Fold(NEW_ACC, entries).Some?
    ensures var n := |entries| - 1;
            && Fold(NEW_ACC, entries[..n]).Some?
            && Fold(NEW_ACC, entries) == AggAdd(Fold(NEW_ACC, entries[..n]).value, entries[n])
  {
    hide AggAdd;
    var n := |entries| - 1;
    assert entries == entries[..n] + [entries[n]];
    FoldAppend(NEW_ACC, entries[..n], [entries[n]]);
    assert [entries[n]][1..] == [];
  }

  lemma AddKeeps(acc: Acc, e: Sample)
    requires AggAdd(acc, e).Some?
    ensures var next := AggAdd(acc, e).value;
            next.n == acc.n + 1 && next.template == if acc.template.None? then Some(e) else acc.template
  {
  }

  /** Unless some snapshot's host-wide readings failed, the sums are the sums of all the readings. */
  lemma {:induction false} FoldSums(entries: seq<Sample>)
    requires Fold(NEW_ACC, entries).Some? && !Fold(NEW_ACC, entries).value.scalarFailed
    ensures var acc := Fold(NEW_ACC, entries).value;
            && acc.n == |entries|
            && (entries != [] ==> acc.template == Some(entries[0]))
            && acc.totals.cpu == Sum(HostReadings(entries, "cpu", "percent_total"))
            && acc.totals.mem == Sum(HostReadings(entries, "memory", "percent"))
            && acc.totals.disk == Sum(HostReadings(entries, "disk", "percent"))
    decreases |entries|
  {
    if entries == [] {
    } else {
      var n := |entries| - 1;
      var front, e := entries[..n], entries[n];
      assert entries == front + [e];
      hide *;
      FoldLast(entries);
      var before := Fold(NEW_ACC, front).value;
      AddKeeps(before, e);
      NothingSummed(front);
      if !before.scalarFailed {
        FoldSums(front);
      }
      AddLatches(before, e);
      AddSums(before, e);
      ReadingsAppend(front, e, "cpu", "percent_total");
      ReadingsAppend(front, e, "memory", "percent");
      ReadingsAppend(front, e, "disk", "percent");
    }
  }

  lemma AddLatches(acc: Acc, e: Sample)
    ensures AggAdd(acc, e).Some? && acc.scalarFailed ==> AggAdd(acc, e).value.scalarFailed
  {
  }

  lemma NothingSummed(entries: seq<Sample>)
    ensures entries == [] ==> Fold(NEW_ACC, entries) == Some(NEW_ACC)
    ensures NEW_ACC.n == 0 && NEW_ACC.template == None && NEW_ACC.totals == Totals(Finite(0.0), Finite(0.0), Finite(0.0), [], [])
    ensures Sum(HostReadings([], "cpu", "percent_total")) == Finite(0.0)
    ensures Sum(HostReadings([], "memory", "percent")) == Finite(0.0)
    ensures Sum(HostReadings([], "disk", "percent")) == Finite(0.0)
  {
  }

  /** The section of a summary. */
  function Field(summary: Sample, section: string, field: string): Option<Json> {
    if section in summary && summary[section].Obj? && field in summary[section].fields then
      Some(summary[section].fields[field])
    else None
  }

  lemma CoresKeep(result: Sample, acc: Acc, section: string, field: string)
    requires acc.n != 0 && field != "percent_per_core"
    ensures FillCores(result, acc).Some? ==> Field(FillCores(result, acc).value, section, field) == Field(result, section, field)
  {
    hide Averages;
  }

  lemma DevicesKeep(result: Sample, acc: Acc, section: string, field: string)
    requires section != "gpu" && section != "containers"
    ensures Field(FillDevices(result, acc), section, field) == Field(result, section, field)
  {
    hide AverageDevices, ContainerEntry, Averages;
  }

  /** Filling in cores, devices and containers leaves the three host-wide figures alone. */
  lemma FillKeeps(withDisk: Sample, acc: Acc, section: string, field: string)
    requires acc.n != 0 && field != "percent_per_core" && section != "gpu" && section != "containers"
    requires section != "processes" && section != "network"
    ensures var filled := match FillCores(withDisk, acc)
                          case None => withDisk
                          case Some(withCores) => FillDevices(withCores, acc);
            Field(filled - {"processes", "network"}, section, field) == Field(withDisk, section, field)
  {
    CoresKeep(withDisk, acc, section, field);
    if FillCores(withDisk, acc).Some? {
      DevicesKeep(FillCores(withDisk, acc).value, acc, section, field);
    }
    hide FillCores, FillDevices;
  }

  lemma AssignIs(result: Sample, part: string, key: string, value: Json)
    requires part in result && result[part].Obj?
    ensures Assign(result, part, key, value).Some?
    ensures var after := Assign(result, part, key, value).value;
            && Field(after, part, key) == Some(value)
            && after.Keys == result.Keys && after[part].Obj?
            && forall p | p in result && p != part :: after[p] == result[p]
  {
  }

  lemma FillInIs(template: Sample, acc: Acc, a: Sample, b: Sample, c: Sample)
    requires acc.n != 0
    requires Assign(template, "cpu", "percent_total", Number(Over(acc.totals.cpu, acc.n))) == Some(a)
    requires Assign(a, "memory", "percent", Number(Over(acc.totals.mem, acc.n))) == Some(b)
    requires Assign(b, "disk", "percent", Number(Over(acc.totals.disk, acc.n))) == Some(c)
    ensures FillIn(template, acc) == match FillCores(c, acc)
                                     case None => c
                                     case Some(withCores) => FillDevices(withCores, acc)
  {
    hide Assign, FillCores, FillDevices;
  }

  lemma FilledMeans(template: Sample, acc: Acc)
    requires acc.n != 0
    requires forall part | part in ["cpu", "memory", "disk"] :: part in template && template[part].Obj?
    ensures var filled := FillIn(template, acc) - {"processes", "network"};
            && Field(filled, "cpu", "percent_total") == Some(Number(Over(acc.totals.cpu, acc.n)))
            && Field(filled, "memory", "percent") == Some(Number(Over(acc.totals.mem, acc.n)))
            && Field(filled, "disk", "percent") == Some(Number(Over(acc.totals.disk, acc.n)))
  {
    var n := acc.n;
    assert "cpu" in ["cpu", "memory", "disk"] && "memory" in ["cpu", "memory", "disk"] && "disk" in ["cpu", "memory", "disk"];
    AssignIs(template, "cpu", "percent_total", Number(Over(acc.totals.cpu, n)));
    var a := Assign(template, "cpu", "percent_total", Number(Over(acc.totals.cpu, n))).value;
    AssignIs(a, "memory", "percent", Number(Over(acc.totals.mem, n)));
    var b := Assign(a, "memory", "percent", Number(Over(acc.totals.mem, n))).value;
    AssignIs(b, "disk", "percent", Number(Over(acc.totals.disk, n)));
    var c := Assign(b, "disk", "percent", Number(Over(acc.totals.disk, n))).value;
    SameSection(a, b, "cpu", "percent_total");
    SameSection(b, c, "cpu", "percent_total");
    SameSection(b, c, "memory", "percent");
    hide *;
    FillInIs(template, acc, a, b, c);
    FillKeeps(c, acc, "cpu", "percent_total");
    FillKeeps(c, acc, "memory", "percent");
    FillKeeps(c, acc, "disk", "percent");
  }

  lemma SameSection(before: Sample, after: Sample, section: string, field: string)
    requires section in before && section in after && after[section] == before[section]
    ensures Field(after, section, field) == Field(before, section, field)
  {
  }

  /**
   A one-shot average is a mean: with the three host-wide sections present in the first snapshot
   and every snapshot's readings numeric, each figure is the sum of all the readings over their
   number.
   */
  lemma SummaryIsMean(entries: seq<Sample>)
    requires entries != [] && Fold(NEW_ACC, entries).Some? && !Fold(NEW_ACC, entries).value.scalarFailed
    requires forall part | part in ["cpu", "memory", "disk"] :: part in entries[0] && entries[0][part].Obj?
    ensures AverageMetrics(entries).Some?
    ensures var summary, n := AverageMetrics(entries).value, |entries|;
            && Field(summary, "cpu", "percent_total") == Some(Number(Over(Sum(HostReadings(entries, "cpu", "percent_total")), n)))
            && Field(summary, "memory", "percent") == Some(Number(Over(Sum(HostReadings(entries, "memory", "percent")), n)))
            && Field(summary, "disk", "percent") == Some(Number(Over(Sum(HostReadings(entries, "disk", "percent")), n)))
  {
    hide Fold, HostReadings, Sum, FillIn, Field;
    FoldSums(entries);
    FilledMeans(entries[0], Fold(NEW_ACC, entries).value);
  }
}
