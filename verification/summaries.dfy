/**
 What an averaged snapshot says, line by line (`_agg_finalize`): one entry per container name, every
 core, every device, and what is taken over from the first snapshot.
 */
module Summaries {
  import opened Wrappers
  import opened Samples
  import opened Averaging
  import opened Batches

  // ── what the snapshots say ──────────────────────────

  /** What a value adds to a sum; nothing where adding it would fail. */
  function Amount(j: Json): Float {
    if ToFloat(j).Done? then ToFloat(j).value else ZERO
  }

  /** What a snapshot says of one core; one that lists no cores counts as 0. */
  function CoreReading(e: Sample, core: nat): Float {
    var cpu := Look(e, "cpu", EMPTY);
    if !cpu.Obj? then ZERO
    else
      var listed := Look(cpu.fields, "percent_per_core", NO_ITEMS);
      if listed.Arr? && core < |listed.items| then Amount(listed.items[core]) else ZERO
  }

  function CoreReadings(entries: seq<Sample>, core: nat): seq<Float> {
    seq(|entries|, i requires 0 <= i < |entries| => CoreReading(entries[i], core))
  }

  /** This snapshot reports the device. */
  predicate Reports(e: Sample, device: nat) {
    var listed := Look(e, "gpu", NO_ITEMS);
    listed.Arr? && device < |listed.items|
  }

  function Reporting(entries: seq<Sample>, device: nat): (q: seq<Sample>)
    ensures forall e | e in q :: Reports(e, device)
  {
    if entries == [] then []
    else
      var n := |entries| - 1;
      Reporting(entries[..n], device) + if Reports(entries[n], device) then [entries[n]] else []
  }

  function DeviceReading(e: Sample, device: nat, field: string): Float
    requires Reports(e, device)
  {
    var d := Look(e, "gpu", NO_ITEMS).items[device];
    if d.Obj? then Amount(Look(d.fields, field, Num(0.0))) else ZERO
  }

  function DeviceReadings(entries: seq<Sample>, device: nat, field: string): seq<Float> {
    var q := Reporting(entries, device);
    seq(|q|, i requires 0 <= i < |q| => assert q[i] in q; DeviceReading(q[i], device, field))
  }

  function CoreCount(e: Sample): nat {
    var cpu := Look(e, "cpu", EMPTY);
    if !cpu.Obj? then 0
    else
      var n := Length(Look(cpu.fields, "percent_per_core", NO_ITEMS));
      if n.Some? then n.value else 0
  }

  function DeviceCount(e: Sample): nat {
    var n := Length(Look(e, "gpu", NO_ITEMS));
    if n.Some? then n.value else 0
  }

  // ── the sums of a fold ──────────────────────────────

  lemma {:induction false} AddCoresAt(sums: seq<Float>, readings: seq<Json>, j: nat)
    requires AddCores(sums, readings).Done? && j < |sums|
    ensures |sums| <= |readings| && |AddCores(sums, readings).value| == |sums|
    ensures AddCores(sums, readings).value[j] == Added(sums[j], Amount(readings[j]))
    decreases |sums|
  {
    hide ToFloat, Added;
    if |sums| > 1 {
      AddCoresAt(sums[1..], readings[1..], if j == 0 then 0 else j - 1);
    }
  }

  lemma AllCoresAt(sums: seq<Float>, e: Sample, j: nat)
    requires AllCores(sums, e).Done? && j < |sums|
    ensures |AllCores(sums, e).value| == |sums|
    ensures AllCores(sums, e).value[j] == Added(sums[j], CoreReading(e, j))
  {
    var cpu := Look(e, "cpu", EMPTY);
    var zeros := seq(|sums|, _ => Num(0.0));
    ZeroAmount();
    hide AddCores, ToFloat, Added, Amount;
    var perCore := Look(cpu.fields, "percent_per_core", Arr(zeros));
    AddCoresAt(sums, perCore.items, j);
  }

  lemma ZeroAmount()
    ensures Amount(Num(0.0)) == ZERO
  {
  }

  lemma {:induction false} AddFieldsAt(sums: seq<Float>, names: seq<string>, device: Json, i: nat)
    requires AddFields(sums, names, device).Done? && i < |sums| == |names|
    ensures device.Obj? && |AddFields(sums, names, device).value| == |sums|
    ensures AddFields(sums, names, device).value[i] == Added(sums[i], Amount(Look(device.fields, names[i], Num(0.0))))
    decreases |sums|
  {
    hide ToFloat, Added;
    if |sums| > 1 {
      AddFieldsAt(sums[1..], names[1..], device, if i == 0 then 0 else i - 1);
    }
  }

  /** One sum per averaged field. */
  ghost predicate Wide(gpu: seq<GpuTotal>) {
    forall j | 0 <= j < |gpu| :: |gpu[j].sums| == |GPU_FIELDS|
  }

  lemma {:induction false} AddDevicesAt(gpu: seq<GpuTotal>, reported: seq<Json>, j: nat)
    requires AddDevices(gpu, reported).Done? && j < |gpu| && Wide(gpu)
    ensures var after := AddDevices(gpu, reported).value;
            && |after| == |gpu| && |after[j].sums| == |GPU_FIELDS|
            && (j >= |reported| ==> after[j] == gpu[j])
            && (j < |reported| ==> reported[j].Obj? && after[j].n == gpu[j].n + 1)
    ensures forall i | 0 <= i < |GPU_FIELDS| && j < |reported| ::
              AddDevices(gpu, reported).value[j].sums[i] ==
              Added(gpu[j].sums[i], Amount(Look(reported[j].fields, GPU_FIELDS[i], Num(0.0))))
    decreases |gpu|
  {
    hide AddFields, Added, Amount;
    if reported != [] {
      if j == 0 {
        AddFieldsAt(gpu[0].sums, GPU_FIELDS, reported[0], 0);
        forall i | 0 <= i < |GPU_FIELDS|
          ensures AddFields(gpu[0].sums, GPU_FIELDS, reported[0]).value[i] ==
                  Added(gpu[0].sums[i], Amount(Look(reported[0].fields, GPU_FIELDS[i], Num(0.0))))
        {
          AddFieldsAt(gpu[0].sums, GPU_FIELDS, reported[0], i);
        }
        DevicesEnd(gpu, reported);
        SameWidths(gpu, AddDevices(gpu, reported).value);
      } else {
        AddDevicesAt(gpu[1..], reported[1..], j - 1);
      }
    }
  }

  lemma SameWidths(a: seq<GpuTotal>, b: seq<GpuTotal>)
    requires Widths(a) == Widths(b)
    ensures |a| == |b|
  {
    assert |Widths(a)| == |a| && |Widths(b)| == |b|;
  }

  /** The sums a fold holds of cores and devices, said of the snapshots. */
  ghost predicate Totalled(t: Totals, entries: seq<Sample>, cores: nat, devices: nat) {
    && |t.cores| == cores && |t.gpu| == devices && Wide(t.gpu)
    && (forall j | 0 <= j < cores :: t.cores[j] == Sum(CoreReadings(entries, j)))
    && (forall j | 0 <= j < devices :: t.gpu[j].n == |Reporting(entries, j)|)
    && (forall j, i | 0 <= j < devices && 0 <= i < |GPU_FIELDS| ::
          t.gpu[j].sums[i] == Sum(DeviceReadings(entries, j, GPU_FIELDS[i])))
  }

  lemma CoresAppend(entries: seq<Sample>, e: Sample, j: nat)
    ensures Sum(CoreReadings(entries + [e], j)) == Added(Sum(CoreReadings(entries, j)), CoreReading(e, j))
  {
    assert CoreReadings(entries + [e], j) == CoreReadings(entries, j) + [CoreReading(e, j)];
    SumAppends(CoreReadings(entries, j), CoreReading(e, j));
  }

  lemma DevicesAppend(entries: seq<Sample>, e: Sample, j: nat, field: string)
    ensures |Reporting(entries + [e], j)| == |Reporting(entries, j)| + if Reports(e, j) then 1 else 0
    ensures Sum(DeviceReadings(entries + [e], j, field)) ==
            if Reports(e, j) then Added(Sum(DeviceReadings(entries, j, field)), DeviceReading(e, j, field))
            else Sum(DeviceReadings(entries, j, field))
  {
    assert (entries + [e])[..|entries|] == entries;
    hide DeviceReading, Sum, Reports;
    if Reports(e, j) {
      assert Reporting(entries + [e], j) == Reporting(entries, j) + [e];
      assert DeviceReadings(entries + [e], j, field) == DeviceReadings(entries, j, field) + [DeviceReading(e, j, field)];
      SumAppends(DeviceReadings(entries, j, field), DeviceReading(e, j, field));
    } else {
      assert Reporting(entries + [e], j) == Reporting(entries, j) + [] == Reporting(entries, j);
    }
  }

  lemma TotalsStep(t: Totals, entries: seq<Sample>, e: Sample, cores: nat, devices: nat)
    requires Totalled(t, entries, cores, devices) && AddTotals(t, e).Done?
    ensures Totalled(AddTotals(t, e).value, entries + [e], cores, devices)
  {
    var after := AddTotals(t, e).value;
    HostEscapesIff(t, e);
    ShapeIs(t, after);
    PartsOf(t, e);
    hide AddTotals, AllCores, Sum, CoreReadings, DeviceReadings, Reporting, CoreReading, DeviceReading, Added, ShapeOf;
    forall j | 0 <= j < cores
      ensures after.cores[j] == Sum(CoreReadings(entries + [e], j))
    {
      AllCoresAt(t.cores, e, j);
      CoresAppend(entries, e, j);
    }
    forall j, i | 0 <= j < devices && 0 <= i < |GPU_FIELDS|
      ensures |after.gpu[j].sums| == |GPU_FIELDS| && after.gpu[j].n == |Reporting(entries + [e], j)|
      ensures after.gpu[j].sums[i] == Sum(DeviceReadings(entries + [e], j, GPU_FIELDS[i]))
    {
      DevicesAppend(entries, e, j, GPU_FIELDS[i]);
      AllDevicesAt(t.gpu, e, j, i);
    }
    forall j | 0 <= j < devices
      ensures |after.gpu[j].sums| == |GPU_FIELDS| && after.gpu[j].n == |Reporting(entries + [e], j)|
    {
      DevicesAppend(entries, e, j, GPU_FIELDS[0]);
      AllDevicesAt(t.gpu, e, j, 0);
    }
  }

  lemma ShapeIs(a: Totals, b: Totals)
    requires ShapeOf(a) == ShapeOf(b)
    ensures |a.cores| == |b.cores| && |a.gpu| == |b.gpu|
  {
    SameWidths(a.gpu, b.gpu);
  }

  lemma PartsOf(t: Totals, e: Sample)
    requires AddTotals(t, e).Done?
    ensures AllCores(t.cores, e).Done? && AddTotals(t, e).value.cores == AllCores(t.cores, e).value
    ensures AllDevices(t.gpu, e).Done? && AddTotals(t, e).value.gpu == AllDevices(t.gpu, e).value
  {
    hide AllCores, AllDevices, ToFloat, Added;
  }

  lemma AllDevicesAt(gpu: seq<GpuTotal>, e: Sample, j: nat, i: nat)
    requires AllDevices(gpu, e).Done? && Wide(gpu) && j < |gpu| && i < |GPU_FIELDS|
    ensures var after := AllDevices(gpu, e).value;
            && |after| == |gpu| && |after[j].sums| == |GPU_FIELDS|
            && (!Reports(e, j) ==> after[j] == gpu[j])
            && (Reports(e, j) ==>
                  && Look(e, "gpu", NO_ITEMS).items[j].Obj?
                  && after[j].n == gpu[j].n + 1
                  && after[j].sums[i] == Added(gpu[j].sums[i], DeviceReading(e, j, GPU_FIELDS[i])))
  {
    hide AddDevices, Amount, Added;
    var reported := Look(e, "gpu", NO_ITEMS);
    if reported.Arr? {
      AddDevicesAt(gpu, reported.items, j);
    }
  }

  lemma ReserveTotals(e: Sample)
    requires Reserve(e).Some?
    ensures Totalled(Reserve(e).value, [], CoreCount(e), DeviceCount(e))
  {
    hide Length;
  }

  /** Unless the host-wide half failed, a fold holds the sums over all its snapshots. */
  lemma {:induction false} FoldTotals(entries: seq<Sample>)
    requires entries != [] && Fold(NEW_ACC, entries).Some? && !Fold(NEW_ACC, entries).value.scalarFailed
    ensures Totalled(Fold(NEW_ACC, entries).value.totals, entries, CoreCount(entries[0]), DeviceCount(entries[0]))
    ensures Fold(NEW_ACC, entries).value.template == Some(entries[0]) && Fold(NEW_ACC, entries).value.n == |entries|
    ensures Reserve(entries[0]).Some? && AddTotals(Reserve(entries[0]).value, entries[0]).Done?
    decreases |entries|
  {
    var n := |entries| - 1;
    var front, e := entries[..n], entries[n];
    assert entries == front + [e];
    hide *;
    FoldLast(entries);
    var before := Fold(NEW_ACC, front).value;
    NothingSummed(front);
    AddKeeps(before, e);
    AddLatches(before, e);
    AddRaises(before, e);
    HalfIs(before, e);
    if n > 0 {
      assert front[0] == entries[0];
      FoldTotals(front);
      TotalsStep(before.totals, front, e, CoreCount(entries[0]), DeviceCount(entries[0]));
    } else {
      ReserveTotals(e);
      TotalsStep(Reserve(e).value, [], e, CoreCount(e), DeviceCount(e));
      assert [] + [e] == entries;
    }
  }

  lemma HalfIs(acc: Acc, e: Sample)
    ensures acc.n != 0 ==> HostHalf(acc, e) == AddTotals(acc.totals, e)
    ensures acc.n == 0 && acc.template.None? && HostHalf(acc, e).Done? ==>
              Reserve(e).Some? && HostHalf(acc, e) == AddTotals(Reserve(e).value, e)
  {
    hide AddTotals, Reserve;
  }

  // ── the summary ─────────────────────────────────────

  lemma {:induction false} AverageDevicesAt(devices: seq<Json>, totals: seq<GpuTotal>)
    requires |devices| == |totals| && forall j | 0 <= j < |devices| :: devices[j].Obj?
    ensures var (averaged, ok) := AverageDevices(devices, totals);
            ok && |averaged| == |devices| &&
            forall j | 0 <= j < |devices| :: averaged[j] == Obj(AverageDevice(devices[j].fields, totals[j]))
    decreases |devices|
  {
    if devices != [] {
      hide AverageDevice;
      AverageDevicesAt(devices[1..], totals[1..]);
    }
  }

  /** What one averaged field of a device comes to. */
  function FieldMean(total: GpuTotal, i: nat): Json
    requires i < |total.sums|
  {
    if total.n != 0 then Number(Over(total.sums[i], total.n)) else Num(0.0)
  }

  lemma FieldNames()
    ensures |GPU_FIELDS| == 5 && "processes" !in GPU_FIELDS
    ensures forall i, j | 0 <= i < j < |GPU_FIELDS| :: GPU_FIELDS[i] != GPU_FIELDS[j]
  {
    assert GPU_FIELDS[0][4] == 'u' && GPU_FIELDS[1][4] == 'u' && GPU_FIELDS[0][0] == 'g' && GPU_FIELDS[1][0] == 'm';
    assert GPU_FIELDS[2][0] == 't' && GPU_FIELDS[3][0] == 'p' && GPU_FIELDS[4][0] == 'c';
    assert GPU_FIELDS[3][1] == 'o' && "processes"[1] == 'r';
  }

  lemma NotLater(names: seq<string>, k: nat)
    requires k < |names| && forall i, j | 0 <= i < j < |names| :: names[i] != names[j]
    ensures names[k] !in names[k + 1..]
  {
    var rest := names[k + 1..];
    forall i | 0 <= i < |rest|
      ensures rest[i] != names[k]
    {
      assert rest[i] == names[k + 1 + i];
    }
  }

  lemma SetFieldsStep(device: Sample, k: nat, total: GpuTotal)
    requires k < |GPU_FIELDS| == |total.sums|
    ensures SetFields(device, GPU_FIELDS[k..], total) ==
            SetFields(device[GPU_FIELDS[k] := FieldMean(total, k)], GPU_FIELDS[k + 1..], total)
    ensures GPU_FIELDS[k..] == [GPU_FIELDS[k]] + GPU_FIELDS[k + 1..]
  {
    assert GPU_FIELDS[k..][1..] == GPU_FIELDS[k + 1..];
    hide Number, Over;
  }

  lemma SetFieldsEnd(device: Sample, total: GpuTotal)
    ensures SetFields(device, GPU_FIELDS[|GPU_FIELDS|..], total) == device && GPU_FIELDS[|GPU_FIELDS|..] == []
  {
  }

  lemma {:induction false} SetFieldsAt(device: Sample, k: nat, total: GpuTotal)
    requires k <= |GPU_FIELDS| == |total.sums|
    ensures var after := SetFields(device, GPU_FIELDS[k..], total);
            && (forall i | k <= i < |GPU_FIELDS| :: GPU_FIELDS[i] in after && after[GPU_FIELDS[i]] == FieldMean(total, i))
            && (forall key | key !in GPU_FIELDS[k..] ::
                  (key in after <==> key in device) && (key in device ==> after[key] == device[key]))
    decreases |GPU_FIELDS| - k
  {
    hide *;
    if k < |GPU_FIELDS| {
      var mid := device[GPU_FIELDS[k] := FieldMean(total, k)];
      SetFieldsStep(device, k, total);
      SetFieldsAt(mid, k + 1, total);
      FieldNames();
      NotLater(GPU_FIELDS, k);
    } else {
      SetFieldsEnd(device, total);
    }
  }

  /** A device of the summary: the averaged fields, and the rest as the first snapshot has it, but for its processes. */
  lemma AverageDeviceIs(device: Sample, total: GpuTotal)
    requires |total.sums| == |GPU_FIELDS|
    ensures var after := AverageDevice(device, total);
            && (forall i | 0 <= i < |GPU_FIELDS| :: GPU_FIELDS[i] in after && after[GPU_FIELDS[i]] == FieldMean(total, i))
            && "processes" !in after
            && (forall key | key !in GPU_FIELDS && key != "processes" ::
                  (key in after <==> key in device) && (key in device ==> after[key] == device[key]))
  {
    hide *;
    FieldNames();
    AverageDeviceSets(device, total);
    assert GPU_FIELDS[0..] == GPU_FIELDS;
    SetFieldsAt(device, 0, total);
  }

  lemma AverageDeviceSets(device: Sample, total: GpuTotal)
    ensures AverageDevice(device, total) == SetFields(device, GPU_FIELDS, total) - {"processes"}
  {
    hide SetFields;
  }

  /** The last word of a container's snapshots on one field. */
  function Latest(q: seq<Reading>, field: string, absent: Json): Json {
    if q == [] then absent
    else
      var n := |q| - 1;
      Look(q[n].raw, field, Latest(q[..n], field, absent))
  }

  lemma {:induction false} TallyIsLatest(q: seq<Reading>)
    requires q != []
    ensures var s := Tally(q);
            && s.name == Look(q[0].raw, "name", Null)
            && s.id == Latest(q, "id", Text("", None)) && s.image == Latest(q, "image", Text("", None))
            && s.status == Latest(q, "status", Text("", None)) && s.state == Latest(q, "state", Text("", None))
            && s.ports == Latest(q, "ports", NO_ITEMS)
    decreases |q|
  {
    var n := |q| - 1;
    if n > 0 {
      TallyIsLatest(q[..n]);
      hide Added, Positive;
    } else {
      assert q[..0] == [];
      LatestOfNone();
    }
  }

  lemma LatestOfNone()
    ensures forall field, absent :: Latest([], field, absent) == absent
  {
  }

  /** The entry of one container: each figure the mean of its own readings, each word its latest. */
  ghost predicate Entry(c: Json, q: seq<Reading>)
    requires q != []
  {
    && c.Obj?
    && var o := c.fields;
       && {"name", "id", "image", "status", "state", "ports", "cpu_percent", "mem_usage", "mem_limit"} <= o.Keys
       && o["name"] == Look(q[0].raw, "name", Null)
       && o["id"] == Latest(q, "id", Text("", None)) && o["image"] == Latest(q, "image", Text("", None))
       && o["status"] == Latest(q, "status", Text("", None)) && o["state"] == Latest(q, "state", Text("", None))
       && o["ports"] == Latest(q, "ports", NO_ITEMS)
       && o["cpu_percent"] == Number(Over(Sum(Cpus(q)), |q|))
       && o["mem_usage"] == Number(Over(Sum(Mems(q)), |q|))
       && o["mem_limit"] == Limit(q)
       && ("gpu" in o <==> exists r | r in q :: r.gpu.Some?)
       && ("gpu" in o ==>
             && o["gpu"].Obj? && {"vram_bytes", "gpu_util"} <= o["gpu"].fields.Keys
             && o["gpu"].fields["vram_bytes"] == MeanOf(Vrams(q))
             && o["gpu"].fields["gpu_util"] == MeanOf(Utils(q)))
  }

  function MeanOf(xs: seq<Float>): Json {
    if xs == [] then Num(0.0) else Number(Over(Sum(xs), |xs|))
  }

  lemma EntryFields(s: ContainerSum)
    ensures var c := ContainerEntry(s);
            && c.Obj?
            && var o := c.fields;
               && {"name", "id", "image", "status", "state", "ports", "cpu_percent", "mem_usage", "mem_limit"} <= o.Keys
               && o["name"] == s.name && o["id"] == s.id && o["image"] == s.image && o["status"] == s.status
               && o["state"] == s.state && o["ports"] == s.ports && o["mem_limit"] == s.memLimit
               && o["cpu_percent"] == Mean(s.cpuSum, s.samples) && o["mem_usage"] == Mean(s.memSum, s.samples)
               && ("gpu" in o <==> s.gpuSeen)
               && ("gpu" in o ==>
                     && o["gpu"].Obj? && {"vram_bytes", "gpu_util"} <= o["gpu"].fields.Keys
                     && o["gpu"].fields["vram_bytes"] == Mean(s.vramSum, s.vramSamples)
                     && o["gpu"].fields["gpu_util"] == Mean(s.utilSum, s.utilSamples))
  {
    hide Mean;
  }

  lemma MeanIs(xs: seq<Float>)
    ensures Mean(Sum(xs), |xs|) == MeanOf(xs)
    ensures xs != [] ==> Mean(Sum(xs), |xs|) == Number(Over(Sum(xs), |xs|))
  {
    hide Sum, Over, Number;
  }

  lemma EntryIs(q: seq<Reading>)
    requires q != []
    ensures Entry(ContainerEntry(Tally(q)), q)
  {
    TallyIsSums(q);
    TallyIsLatest(q);
    EntryFields(Tally(q));
    MeanIs(Cpus(q));
    MeanIs(Mems(q));
    MeanIs(Vrams(q));
    MeanIs(Utils(q));
    Lengths(q);
    hide ContainerEntry, Mean, MeanOf, Tally, Sum, Cpus, Mems, Vrams, Utils, Limit, Latest, Over, Number;
  }

  lemma Lengths(q: seq<Reading>)
    ensures |Cpus(q)| == |q| && |Mems(q)| == |q|
  {
  }

  // ── line by line ────────────────────────────────────

  /** The first snapshot with the three host-wide figures replaced. */
  ghost predicate Headed(template: Sample, acc: Acc, c: Sample) {
    && {"cpu", "memory", "disk"} <= template.Keys == c.Keys && acc.n != 0
    && template["cpu"].Obj? && template["memory"].Obj? && template["disk"].Obj?
    && c["cpu"] == Obj(template["cpu"].fields["percent_total" := Number(Over(acc.totals.cpu, acc.n))])
    && c["memory"] == Obj(template["memory"].fields["percent" := Number(Over(acc.totals.mem, acc.n))])
    && c["disk"] == Obj(template["disk"].fields["percent" := Number(Over(acc.totals.disk, acc.n))])
    && forall p | p in template && p !in {"cpu", "memory", "disk"} :: c[p] == template[p]
  }

  ghost predicate Sectioned(e: Sample) {
    {"cpu", "memory", "disk"} <= e.Keys && e["cpu"].Obj? && e["memory"].Obj? && e["disk"].Obj?
  }

  lemma Heads(template: Sample, acc: Acc) returns (c: Sample)
    requires acc.n != 0 && Sectioned(template)
    ensures Headed(template, acc, c)
    ensures FillIn(template, acc) == match FillCores(c, acc)
                                     case None => c
                                     case Some(withCores) => FillDevices(withCores, acc)
  {
    var x, y, z := Number(Over(acc.totals.cpu, acc.n)), Number(Over(acc.totals.mem, acc.n)), Number(Over(acc.totals.disk, acc.n));
    var a := template["cpu" := Obj(template["cpu"].fields["percent_total" := x])];
    var b := a["memory" := Obj(template["memory"].fields["percent" := y])];
    c := b["disk" := Obj(template["disk"].fields["percent" := z])];
    hide FillCores, FillDevices, Over, Number;
    assert Assign(template, "cpu", "percent_total", x) == Some(a);
    assert Assign(a, "memory", "percent", y) == Some(b);
    assert Assign(b, "disk", "percent", z) == Some(c);
    FillInIs(template, acc, a, b, c);
  }

  /** The cores as they come out. */
  function CoreMeans(acc: Acc): Json
    requires acc.n != 0
  {
    Arr(Averages(acc.totals.cores, acc.n))
  }

  lemma CoresFilled(c: Sample, acc: Acc)
    requires acc.n != 0 && "cpu" in c && c["cpu"].Obj?
    requires var listed := Look(c["cpu"].fields, "percent_per_core", NO_ITEMS);
             Length(listed) == Some(|acc.totals.cores|) && (listed.Arr? || acc.totals.cores == [])
    ensures FillCores(c, acc) ==
            Some(if acc.totals.cores == [] then c
                 else c["cpu" := Obj(c["cpu"].fields["percent_per_core" := CoreMeans(acc)])])
  {
    hide Length, Averages;
  }

  ghost predicate AllObjects(devices: seq<Json>) { forall j | 0 <= j < |devices| :: devices[j].Obj? }

  function AveragedDevices(devices: seq<Json>, totals: seq<GpuTotal>): seq<Json>
    requires |devices| == |totals| && AllObjects(devices)
  {
    seq(|devices|, j requires 0 <= j < |devices| => Obj(AverageDevice(devices[j].fields, totals[j])))
  }

  lemma DevicesFilled(w: Sample, acc: Acc)
    requires var listed := Look(w, "gpu", NO_ITEMS);
             if listed.Arr? then |listed.items| == |acc.totals.gpu| && AllObjects(listed.items) else Length(listed) == Some(0)
    ensures var listed := Look(w, "gpu", NO_ITEMS);
            FillDevices(w, acc) ==
            FillContainers(if listed.Arr? && "gpu" in w then w["gpu" := Arr(AveragedDevices(listed.items, acc.totals.gpu))] else w,
                           acc)
  {
    hide FillContainers, AverageDevice;
    var listed := Look(w, "gpu", NO_ITEMS);
    if listed.Arr? {
      AverageDevicesAt(listed.items, acc.totals.gpu);
      var (averaged, ok) := AverageDevices(listed.items, acc.totals.gpu);
      assert averaged == AveragedDevices(listed.items, acc.totals.gpu);
    }
  }

  /** A record whose first snapshot went through: its sums have the shape of that snapshot. */
  ghost predicate Fits(acc: Acc, first: Sample) {
    && acc.n != 0 && acc.template == Some(first) && !acc.scalarFailed && Sectioned(first)
    && |acc.totals.cores| == CoreCount(first) && |acc.totals.gpu| == DeviceCount(first) && Wide(acc.totals.gpu)
    && Reserve(first).Some? && AddTotals(Reserve(first).value, first).Done?
  }

  lemma FirstFits(first: Sample)
    requires Reserve(first).Some? && AddTotals(Reserve(first).value, first).Done? && Sectioned(first)
    ensures var listed := Look(first["cpu"].fields, "percent_per_core", NO_ITEMS);
            Length(listed) == Some(CoreCount(first)) && (listed.Arr? || CoreCount(first) == 0)
    ensures var listed := Look(first, "gpu", NO_ITEMS);
            if listed.Arr? then |listed.items| == DeviceCount(first) && AllObjects(listed.items) else Length(listed) == Some(0)
  {
    var t := Reserve(first).value;
    PartsOf(t, first);
    ReserveTotals(first);
    var listed := Look(first, "gpu", NO_ITEMS);
    if listed.Arr? {
      forall j | 0 <= j < |listed.items|
        ensures listed.items[j].Obj?
      {
        AllDevicesAt(t.gpu, first, j, 0);
      }
    }
    hide AddTotals, AddCores, AddDevices, Sum;
  }

  /** The summary of such a record, whole. */
  ghost predicate Lists(acc: Acc, first: Sample, s: Sample)
    requires Fits(acc, first)
  {
    // the host-wide sections
    && {"cpu", "memory", "disk"} <= s.Keys && s["cpu"].Obj?
    && s["memory"] == Obj(first["memory"].fields["percent" := Number(Over(acc.totals.mem, acc.n))])
    && s["disk"] == Obj(first["disk"].fields["percent" := Number(Over(acc.totals.disk, acc.n))])
    && s["cpu"].fields == first["cpu"].fields["percent_total" := Number(Over(acc.totals.cpu, acc.n))] +
                          (if CoreCount(first) == 0 then map[] else map["percent_per_core" := CoreMeans(acc)])
    // the devices
    && ("gpu" in s <==> "gpu" in first)
    && ("gpu" in s && first["gpu"].Arr? ==>
          && |first["gpu"].items| == |acc.totals.gpu| && AllObjects(first["gpu"].items)
          && s["gpu"] == Arr(AveragedDevices(first["gpu"].items, acc.totals.gpu)))
    // the containers
    && (!acc.containerFailed ==>
          "containers" in s && s["containers"] == Arr(seq(|acc.containers|,
            i requires 0 <= i < |acc.containers| => ContainerEntry(acc.containers[i]))))
    // everything else
    && "processes" !in s && "network" !in s
    && forall p | p !in {"cpu", "memory", "disk", "gpu", "processes", "network"} && (p == "containers" ==> acc.containerFailed) ::
         (p in s <==> p in first) && (p in first ==> s[p] == first[p])
  }

  /** The sections done, cores included. */
  ghost predicate Cored(first: Sample, acc: Acc, w: Sample) {
    && Sectioned(first) && w.Keys == first.Keys && acc.n != 0 && w["cpu"].Obj?
    && w["memory"] == Obj(first["memory"].fields["percent" := Number(Over(acc.totals.mem, acc.n))])
    && w["disk"] == Obj(first["disk"].fields["percent" := Number(Over(acc.totals.disk, acc.n))])
    && w["cpu"].fields == first["cpu"].fields["percent_total" := Number(Over(acc.totals.cpu, acc.n))] +
                          (if acc.totals.cores == [] then map[] else map["percent_per_core" := CoreMeans(acc)])
    && forall p | p in first && p !in {"cpu", "memory", "disk"} :: w[p] == first[p]
  }

  lemma ToCored(first: Sample, acc: Acc, c: Sample)
    requires Headed(first, acc, c)
    ensures Cored(first, acc, if acc.totals.cores == [] then c
                              else c["cpu" := Obj(c["cpu"].fields["percent_per_core" := CoreMeans(acc)])])
  {
    hide CoreMeans, Over, Number;
    var fields := first["cpu"].fields["percent_total" := Number(Over(acc.totals.cpu, acc.n))];
    assert fields + map[] == fields;
    assert fields["percent_per_core" := CoreMeans(acc)] == fields + map["percent_per_core" := CoreMeans(acc)];
  }

  lemma ToListed(first: Sample, acc: Acc, w: Sample, v: Sample)
    requires Fits(acc, first) && Cored(first, acc, w)
    requires var listed := Look(first, "gpu", NO_ITEMS);
             && (listed.Arr? ==> |listed.items| == |acc.totals.gpu| && AllObjects(listed.items))
             && v == if listed.Arr? && "gpu" in w then w["gpu" := Arr(AveragedDevices(listed.items, acc.totals.gpu))] else w
    ensures Lists(acc, first, FillContainers(v, acc) - {"processes", "network"})
  {
    hide CoreMeans, Over, Number, AveragedDevices, ContainerEntry, AllObjects, Reserve, AddTotals, CoreCount, DeviceCount, Wide;
  }

  lemma FinalizeLists(acc: Acc, first: Sample)
    requires Fits(acc, first)
    ensures AggFinalize(acc).Some? && Lists(acc, first, AggFinalize(acc).value)
  {
    FitsIs(acc, first);
    FirstFits(first);
    var c := Heads(first, acc);
    ToCored(first, acc, c);
    HeadedCpu(first, acc, c);
    CoresFilled(c, acc);
    var w := FillCores(c, acc).value;
    CoredGpu(first, acc, w);
    DevicesFilled(w, acc);
    FinalizeIs(acc, first);
    hide *;
    var listed := Look(first, "gpu", NO_ITEMS);
    var v := if listed.Arr? && "gpu" in w then w["gpu" := Arr(AveragedDevices(listed.items, acc.totals.gpu))] else w;
    ToListed(first, acc, w, v);
  }

  lemma FitsIs(acc: Acc, first: Sample)
    requires Fits(acc, first)
    ensures acc.n != 0 && acc.template == Some(first) && !acc.scalarFailed && Sectioned(first)
    ensures |acc.totals.cores| == CoreCount(first) && |acc.totals.gpu| == DeviceCount(first)
    ensures Reserve(first).Some? && AddTotals(Reserve(first).value, first).Done?
  {
  }

  lemma HeadedCpu(first: Sample, acc: Acc, c: Sample)
    requires Headed(first, acc, c)
    ensures "cpu" in c && c["cpu"].Obj?
    ensures Look(c["cpu"].fields, "percent_per_core", NO_ITEMS) == Look(first["cpu"].fields, "percent_per_core", NO_ITEMS)
  {
  }

  lemma CoredGpu(first: Sample, acc: Acc, w: Sample)
    requires Cored(first, acc, w)
    ensures Look(w, "gpu", NO_ITEMS) == Look(first, "gpu", NO_ITEMS)
  {
  }

  lemma FinalizeIs(acc: Acc, first: Sample)
    requires acc.n != 0 && acc.template == Some(first) && !acc.scalarFailed
    ensures AggFinalize(acc) == Some(FillIn(first, acc) - {"processes", "network"})
  {
    hide FillIn;
  }

  // ── what is published ───────────────────────────────

  /** However they were batched, these snapshots fold, and neither their host-wide half nor their sections are missing. */
  ghost predicate Averaged(entries: seq<Sample>, avg: Sample) {
    && BatchAverage(entries, avg) && entries != [] && Sectioned(entries[0])
    && Fold(NEW_ACC, entries).Some? && !Fold(NEW_ACC, entries).value.scalarFailed
  }

  lemma BatchLists(entries: seq<Sample>, avg: Sample) returns (acc: Acc)
    requires Averaged(entries, avg)
    ensures EndsIn(entries, acc) && Fits(acc, entries[0]) && Lists(acc, entries[0], avg) && acc.n == |entries|
    ensures Totalled(acc.totals, entries, CoreCount(entries[0]), DeviceCount(entries[0]))
  {
    acc :| EndsIn(entries, acc) && AggFinalize(acc) == Some(avg);
    var cuts, tail :| Cut(entries, cuts, tail) && tail != [] && Resumed(cuts, tail) == Some(acc);
    hide Fold, FoldBatches, AggFinalize, Lists, Totalled, Reserve, AddTotals, Wide, CoreCount, DeviceCount;
    BatchesRaiseAlike(cuts);
    FoldsAlike(FoldBatches(cuts).value, Fold(NEW_ACC, Flat(cuts)).value, tail);
    FoldAppend(NEW_ACC, Flat(cuts), tail);
    FoldTotals(entries);
    ToFits(acc, entries);
    FinalizeLists(acc, entries[0]);
  }

  lemma ToFits(acc: Acc, entries: seq<Sample>)
    requires entries != [] && Sectioned(entries[0]) && acc.n == |entries| && acc.template == Some(entries[0]) && !acc.scalarFailed
    requires Totalled(acc.totals, entries, CoreCount(entries[0]), DeviceCount(entries[0]))
    requires Reserve(entries[0]).Some? && AddTotals(Reserve(entries[0]).value, entries[0]).Done?
    ensures Fits(acc, entries[0])
  {
    hide Sum, CoreReadings, DeviceReadings, Reporting, Reserve, AddTotals, CoreCount, DeviceCount;
  }

  /** A summary's figure for a core is the sum of all the snapshots' readings of it over their number. */
  lemma CoresAreMeans(entries: seq<Sample>, avg: Sample, j: nat)
    requires Averaged(entries, avg) && j < CoreCount(entries[0])
    ensures var cores := Field(avg, "cpu", "percent_per_core");
            && cores.Some? && cores.value.Arr? && |cores.value.items| == CoreCount(entries[0])
            && cores.value.items[j] == Number(Over(Sum(CoreReadings(entries, j)), |entries|))
  {
    var acc := BatchLists(entries, avg);
    hide Fold, BatchAverage, EndsIn, Sum, CoreReadings, DeviceReadings, Reporting, Over, Number, CoreCount, DeviceCount,
         AveragedDevices, ContainerEntry, Reserve, AddTotals, Wide;
  }

  /**
   A summary's figure for a field of a device is the mean over the snapshots that report the device;
   what is not averaged is as the first snapshot has it, without the processes.
   */
  lemma DevicesAreMeans(entries: seq<Sample>, avg: Sample, j: nat)
    requires Averaged(entries, avg) && j < DeviceCount(entries[0])
    ensures Reports(entries[0], j) && "gpu" in avg && avg["gpu"].Arr? && |avg["gpu"].items| == DeviceCount(entries[0])
    ensures avg["gpu"].items[j].Obj? && entries[0]["gpu"].items[j].Obj?
    ensures var after, device := avg["gpu"].items[j].fields, entries[0]["gpu"].items[j].fields;
            && (forall i | 0 <= i < |GPU_FIELDS| ::
                  GPU_FIELDS[i] in after && after[GPU_FIELDS[i]] == MeanOf(DeviceReadings(entries, j, GPU_FIELDS[i])))
            && "processes" !in after
            && forall key | key !in GPU_FIELDS && key != "processes" ::
                 (key in after <==> key in device) && (key in device ==> after[key] == device[key])
  {
    var acc := BatchLists(entries, avg);
    var listed := DeviceListed(acc, entries[0], avg, j);
    AverageDeviceIs(listed.items[j].fields, acc.totals.gpu[j]);
    forall i | 0 <= i < |GPU_FIELDS|
      ensures FieldMean(acc.totals.gpu[j], i) == MeanOf(DeviceReadings(entries, j, GPU_FIELDS[i]))
    {
      FieldMeanIs(acc.totals, entries, j, i);
    }
    hide *;
  }

  lemma DeviceListed(acc: Acc, first: Sample, avg: Sample, j: nat) returns (listed: Json)
    requires Fits(acc, first) && Lists(acc, first, avg) && j < DeviceCount(first)
    ensures Reports(first, j) && "gpu" in first && first["gpu"] == listed && listed.Arr?
    ensures |listed.items| == |acc.totals.gpu| == DeviceCount(first) && listed.items[j].Obj?
    ensures |acc.totals.gpu[j].sums| == |GPU_FIELDS|
    ensures "gpu" in avg && avg["gpu"].Arr? && |avg["gpu"].items| == |listed.items|
    ensures avg["gpu"].items[j] == Obj(AverageDevice(listed.items[j].fields, acc.totals.gpu[j]))
  {
    FirstFits(first);
    hide AverageDevice, Reserve, AddTotals, CoreMeans, CoreCount;
    listed := Look(first, "gpu", NO_ITEMS);
  }

  lemma FieldMeanIs(t: Totals, entries: seq<Sample>, j: nat, i: nat)
    requires Totalled(t, entries, |t.cores|, |t.gpu|) && j < |t.gpu| && i < |GPU_FIELDS|
    ensures |t.gpu[j].sums| == |GPU_FIELDS| && FieldMean(t.gpu[j], i) == MeanOf(DeviceReadings(entries, j, GPU_FIELDS[i]))
  {
    hide Sum, Reporting, DeviceReading, CoreReadings, Over, Number, GPU_FIELDS;
  }

  /** What else a summary says is what the first snapshot says, but for processes and network. */
  lemma RestIsFirst(entries: seq<Sample>, avg: Sample)
    requires Averaged(entries, avg)
    ensures "processes" !in avg && "network" !in avg && Sectioned(avg)
    ensures forall p | p !in {"cpu", "memory", "disk", "gpu", "containers", "processes", "network"} ::
              (p in avg <==> p in entries[0]) && (p in avg ==> avg[p] == entries[0][p])
    ensures forall section, field | section in {"cpu", "memory", "disk"} && field !in {"percent_total", "percent_per_core", "percent"} ::
              Field(avg, section, field) == Field(entries[0], section, field)
  {
    var acc := BatchLists(entries, avg);
    hide Fold, BatchAverage, EndsIn, Over, Number, CoreCount, DeviceCount, AveragedDevices, ContainerEntry, Reserve, AddTotals,
         Wide, Totalled, CoreMeans, AllObjects;
  }

  /**
   A one-shot summary lists one container per name, in order of first appearance, each with the means
   of its own readings and the latest words on it.
   */
  lemma ContainersAreListed(entries: seq<Sample>, i: nat)
    requires entries != [] && Sectioned(entries[0]) && Fold(NEW_ACC, entries).Some?
    requires var acc := Fold(NEW_ACC, entries).value; !acc.scalarFailed && !acc.containerFailed
    requires i < |Names(AllReadings(entries))|
    ensures AverageMetrics(entries).Some?
    ensures var s, rs := AverageMetrics(entries).value, AllReadings(entries);
            && "containers" in s && s["containers"].Arr? && |s["containers"].items| == |Names(rs)|
            && Of(rs, Names(rs)[i]) != [] && Entry(s["containers"].items[i], Of(rs, Names(rs)[i]))
  {
    var acc := Fold(NEW_ACC, entries).value;
    ContainersAreTallied(entries, i);
    EntryIs(Of(AllReadings(entries), Names(AllReadings(entries))[i]));
    FoldTotals(entries);
    ToFits(acc, entries);
    FinalizeLists(acc, entries[0]);
    hide *;
    OneShotIs(entries);
    ListedAt(acc, entries[0], AggFinalize(acc).value, i);
  }

  /** Once the container half has failed, the containers are those of the first snapshot. */
  lemma LatchedContainersAreFirst(entries: seq<Sample>)
    requires entries != [] && Sectioned(entries[0]) && Fold(NEW_ACC, entries).Some?
    requires var acc := Fold(NEW_ACC, entries).value; !acc.scalarFailed && acc.containerFailed
    ensures AverageMetrics(entries).Some?
    ensures var s := AverageMetrics(entries).value;
            ("containers" in s <==> "containers" in entries[0]) && ("containers" in s ==> s["containers"] == entries[0]["containers"])
  {
    var acc := Fold(NEW_ACC, entries).value;
    FoldTotals(entries);
    ToFits(acc, entries);
    FinalizeLists(acc, entries[0]);
    OneShotIs(entries);
    hide Fold, AggFinalize, AverageMetrics, Fits, Totalled, CoreMeans, AveragedDevices, ContainerEntry;
  }

  /** `s` is `first` but for the figures that were put in before a section was missing. */
  ghost predicate CutShort(first: Sample, s: Sample, cpu: Json, memory: Json) {
    && (forall p | p !in {"cpu", "memory"} :: (p in s <==> p in first) && (p in s ==> s[p] == first[p]))
    && ("cpu" in s <==> "cpu" in first) && ("memory" in s <==> "memory" in first)
    && var begun := "cpu" in first && first["cpu"].Obj?;
       && ("cpu" in first ==>
             s["cpu"] == if begun then Obj(first["cpu"].fields["percent_total" := cpu]) else first["cpu"])
       && ("memory" in first ==>
             s["memory"] == if begun && first["memory"].Obj? then Obj(first["memory"].fields["percent" := memory])
                            else first["memory"])
  }

  lemma FillInCut(first: Sample, acc: Acc)
    requires acc.n != 0 && !Sectioned(first)
    ensures CutShort(first, FillIn(first, acc), Number(Over(acc.totals.cpu, acc.n)), Number(Over(acc.totals.mem, acc.n)))
  {
    hide FillCores, FillDevices, Over, Number;
  }

  /**
   A first snapshot without one of its sections ends the averaging there: what comes before keeps its
   mean, and everything else, devices and containers included, is as that snapshot has it.
   */
  lemma UnsectionedIsCutShort(entries: seq<Sample>)
    requires entries != [] && !Sectioned(entries[0]) && Fold(NEW_ACC, entries).Some?
    requires !Fold(NEW_ACC, entries).value.scalarFailed
    ensures var n := |entries|;
            var cpu := Number(Over(Sum(HostReadings(entries, "cpu", "percent_total")), n));
            var memory := Number(Over(Sum(HostReadings(entries, "memory", "percent")), n));
            && AverageMetrics(entries).Some? && "processes" !in AverageMetrics(entries).value
            && "network" !in AverageMetrics(entries).value
            && CutShort(entries[0] - {"processes", "network"}, AverageMetrics(entries).value, cpu, memory)
  {
    hide *;
    var acc := Fold(NEW_ACC, entries).value;
    FoldSums(entries);
    OneShotIs(entries);
    FinalizeIs(acc, entries[0]);
    FillInCut(entries[0], acc);
    CutLess(entries[0], FillIn(entries[0], acc), Number(Over(acc.totals.cpu, acc.n)), Number(Over(acc.totals.mem, acc.n)));
  }

  lemma CutLess(first: Sample, s: Sample, cpu: Json, memory: Json)
    requires CutShort(first, s, cpu, memory)
    ensures CutShort(first - {"processes", "network"}, s - {"processes", "network"}, cpu, memory)
    ensures "processes" !in s - {"processes", "network"} && "network" !in s - {"processes", "network"}
  {
  }

  lemma OneShotIs(entries: seq<Sample>)
    requires Fold(NEW_ACC, entries).Some?
    ensures AverageMetrics(entries) == AggFinalize(Fold(NEW_ACC, entries).value)
  {
    hide Fold, AggFinalize;
  }

  lemma ListedAt(acc: Acc, first: Sample, s: Sample, i: nat)
    requires Fits(acc, first) && Lists(acc, first, s) && !acc.containerFailed && i < |acc.containers|
    ensures "containers" in s && s["containers"].Arr? && |s["containers"].items| == |acc.containers|
    ensures s["containers"].items[i] == ContainerEntry(acc.containers[i])
  {
    hide ContainerEntry, CoreMeans, AveragedDevices, Over, Number, Reserve, AddTotals, AllObjects;
  }

  /** Once the host-wide half has failed, the summary is the first snapshot without processes and network. */
  lemma LatchedIsFirst(entries: seq<Sample>)
    requires entries != [] && Fold(NEW_ACC, entries).Some? && Fold(NEW_ACC, entries).value.scalarFailed
    ensures AverageMetrics(entries) == Some(entries[0] - {"processes", "network"})
  {
    FoldKeepsFirst(entries);
    hide Fold;
  }

  lemma {:induction false} FoldKeepsFirst(entries: seq<Sample>)
    requires entries != [] && Fold(NEW_ACC, entries).Some?
    ensures Fold(NEW_ACC, entries).value.template == Some(entries[0]) && Fold(NEW_ACC, entries).value.n == |entries|
    decreases |entries|
  {
    var n := |entries| - 1;
    var front := entries[..n];
    hide *;
    FoldLast(entries);
    NothingSummed(front);
    AddKeeps(Fold(NEW_ACC, front).value, entries[n]);
    if n > 0 {
      assert front[0] == entries[0];
      FoldKeepsFirst(front);
    }
  }
}
