/**
 The fold that averages metric snapshots (backend/app/database.py, `_agg_new`, `_agg_add`,
 `_agg_finalize`). Snapshots are JSON objects whose shape nobody checked before they were
 stored, so every read says what Python does when the shape is not the expected one.
 */
module Samples {
  import opened Wrappers

  /** A float, its rounding left aside. */
  datatype Float = Finite(r: real) | Infinite(up: bool) | Undefined

  function Added(a: Float, b: Float): Float {
    if a.Undefined? || b.Undefined? then Undefined
    else if a.Infinite? then (if b.Infinite? && a != b then Undefined else a)
    else if b.Infinite? then b
    else Finite(a.r + b.r)
  }

  function Over(a: Float, n: nat): Float
    requires n != 0
  {
    if a.Finite? then Finite(a.r / n as real) else a
  }

  predicate Positive(a: Float) {
    if a.Finite? then a.r > 0.0 else a == Infinite(true)
  }

  /**
   Decoded JSON. A number is an integer of any size or a finite float; a literal too large for a float,
   such as 1e400, decodes to an infinite one, and NaN only ever comes out of an average. `number` is
   what float() makes of a text, if it makes anything of it.
   */
  datatype Json =
    | Null
    | Bool(b: bool)
    | Num(n: real)
    | Inf(up: bool)
    | NaN
    | Text(s: string, number: Option<Float>)
    | Arr(items: seq<Json>)
    | Obj(fields: map<string, Json>)

  type Sample = map<string, Json>

  predicate Truthy(j: Json) {
    match j
    case Null => false
    case Bool(b) => b
    case Num(n) => n != 0.0
    case Inf(_) => true
    case NaN => true
    case Text(s, _) => s != ""
    case Arr(items) => items != []
    case Obj(fields) => fields != map[]
  }

  function Look(e: Sample, key: string, absent: Json): Json {
    if key in e then e[key] else absent
  }

  /** `j.get(key, absent)`: None when `j` is not a mapping (AttributeError). */
  function Get(j: Json, key: string, absent: Json): Option<Json> {
    if j.Obj? then Some(Look(j.fields, key, absent)) else None
  }

  /**
   How a step ends: with a value, with an exception the fold contains (AttributeError, KeyError,
   IndexError, TypeError), or with one it does not (ValueError, OverflowError).
   */
  datatype Ending<+T> = Done(value: T) | Contained | Escapes {
    predicate IsFailure() { !Done? }

    function PropagateFailure<U>(): Ending<U>
      requires !Done?
    {
      if Contained? then Contained else Escapes
    }

    function Extract(): T
      requires Done?
    {
      value
    }
  }

  /** A step whose only exceptions are contained ones. */
  function Caught<T>(o: Option<T>): Ending<T> {
    if o.Some? then Done(o.value) else Contained
  }

  /** 2^1024 - 2^970: from here on an integer is nearer to 2^1024 than to any float. */
  const BEYOND: int := 0xFFFF_FFFF_FFFF_FC00_0000_0000_0000_0000_0000_0000_0000_0000_0000_0000_0000_0000_0000_0000_0000_0000_0000_0000_0000_0000_0000_0000_0000_0000_0000_0000_0000_0000_0000_0000_0000_0000_0000_0000_0000_0000_0000_0000_0000_0000_0000_0000_0000_0000_0000_0000_0000_0000_0000_0000_0000_0000_0000_0000_0000_0000_0000_0000_0000_0000

  /** Some float holds this number; a float does, an integer may not. */
  predicate Held(n: real) { -(BEYOND as real) < n < BEYOND as real }

  /** A float made of a number, a bool or an infinity; any other value is no number. */
  function ToFloat(j: Json): Ending<Float> {
    match j
    case Num(n) => if Held(n) then Done(Finite(n)) else Escapes
    case Bool(b) => Done(Finite(if b then 1.0 else 0.0))
    case Inf(up) => Done(Infinite(up))
    case NaN => Done(Undefined)
    case _ => Contained
  }

  /** `total += j`: a TypeError when `j` is not a number, an OverflowError when no float holds it. */
  function Plus(total: Float, j: Json): Ending<Float> {
    var reading :- ToFloat(j);
    Done(Added(total, reading))
  }

  /** `len(j)`: None when `j` has no length (TypeError). */
  function Length(j: Json): Option<nat> {
    match j
    case Text(s, _) => Some(|s|)
    case Arr(items) => Some(|items|)
    case Obj(fields) => Some(|fields|)
    case _ => None
  }

  // ── host-wide readings ──────────────────────────────

  const GPU_FIELDS := ["gpu_util", "mem_util", "temperature", "power_watts", "clock_sm_mhz"]

  const EMPTY: Json := Obj(map[])

  const NO_ITEMS: Json := Arr([])

  datatype GpuTotal = GpuTotal(n: nat, sums: seq<Float>)

  datatype Totals = Totals(cpu: Float, mem: Float, disk: Float, cores: seq<Float>, gpu: seq<GpuTotal>)

  const ZERO := Finite(0.0)

  const NO_TOTALS := Totals(ZERO, ZERO, ZERO, [], [])

  function Zeros(n: nat): seq<Float> {
    seq(n, _ => ZERO)
  }

  /** The slots the first snapshot of a fold reserves for cores and devices. */
  function Reserve(e: Sample): Option<Totals> {
    var perCore :- Get(Look(e, "cpu", EMPTY), "percent_per_core", NO_ITEMS);
    var cores :- Length(perCore);
    var devices :- Length(Look(e, "gpu", NO_ITEMS));
    Some(NO_TOTALS.(cores := Zeros(cores), gpu := seq(devices, _ => GpuTotal(0, Zeros(|GPU_FIELDS|)))))
  }

  function AddCores(sums: seq<Float>, readings: seq<Json>): Ending<seq<Float>> {
    if sums == [] then Done([])
    else if readings == [] then Contained
    else
      var first :- Plus(sums[0], readings[0]);
      var rest :- AddCores(sums[1..], readings[1..]);
      Done([first] + rest)
  }

  function AddFields(sums: seq<Float>, names: seq<string>, device: Json): Ending<seq<Float>> {
    if sums == [] || names == [] then Done(sums)
    else
      var reading :- Caught(Get(device, names[0], Num(0.0)));
      var first :- Plus(sums[0], reading);
      var rest :- AddFields(sums[1..], names[1..], device);
      Done([first] + rest)
  }

  /** A device only counts for the snapshots that report it. */
  function AddDevices(devices: seq<GpuTotal>, reported: seq<Json>): Ending<seq<GpuTotal>> {
    if devices == [] || reported == [] then Done(devices)
    else
      var sums :- AddFields(devices[0].sums, GPU_FIELDS, reported[0]);
      var rest :- AddDevices(devices[1..], reported[1..]);
      Done([GpuTotal(devices[0].n + 1, sums)] + rest)
  }

  function AllCores(sums: seq<Float>, e: Sample): Ending<seq<Float>> {
    if sums == [] then Done([])
    else
      var perCore :- Caught(Get(Look(e, "cpu", EMPTY), "percent_per_core", Arr(seq(|sums|, _ => Num(0.0)))));
      if perCore.Arr? then AddCores(sums, perCore.items) else Contained
  }

  function AllDevices(devices: seq<GpuTotal>, e: Sample): Ending<seq<GpuTotal>> {
    var reported := Look(e, "gpu", NO_ITEMS);
    if devices == [] then Done([])
    else if reported.Arr? then AddDevices(devices, reported.items)
    else if Length(reported) == Some(0) then Done(devices)
    else Contained
  }

  function AddTotals(t: Totals, e: Sample): Ending<Totals> {
    var cpuReading :- Caught(Get(Look(e, "cpu", EMPTY), "percent_total", Num(0.0)));
    var cpu :- Plus(t.cpu, cpuReading);
    var memReading :- Caught(Get(Look(e, "memory", EMPTY), "percent", Num(0.0)));
    var mem :- Plus(t.mem, memReading);
    var diskReading :- Caught(Get(Look(e, "disk", EMPTY), "percent", Num(0.0)));
    var disk :- Plus(t.disk, diskReading);
    var cores :- AllCores(t.cores, e);
    var gpu :- AllDevices(t.gpu, e);
    Done(Totals(cpu, mem, disk, cores, gpu))
  }

  // ── per-container readings ──────────────────────────

  /** `key` is what the entry is found under; `name` is what it says its name is. */
  datatype ContainerSum = ContainerSum(
    key: Json, name: Json, id: Json, image: Json, status: Json, state: Json, ports: Json,
    cpuSum: Float, memSum: Float, samples: nat, memLimit: Json,
    vramSum: Float, vramSamples: nat, utilSum: Float, utilSamples: nat, gpuSeen: bool)

  /**
   What one container of one snapshot contributes: `name` is the name as a dictionary finds it, `gpu`
   is only there when a mapping is reported.
   */
  datatype Reading = Reading(name: Json, cpu: Float, mem: Float, limit: Option<Json>,
                             gpu: Option<(Float, Float)>, raw: Sample)

  /** `float(j or 0)`: a text that is none is a ValueError. */
  function AsFloat(j: Json): Ending<Float> {
    if !Truthy(j) then Done(ZERO)
    else if j.Text? then (if j.number.Some? then Done(j.number.value) else Escapes)
    else ToFloat(j)
  }

  /** What a dictionary looks a key up by: True and 1 are the same key. */
  function LookedUp(name: Json): Json {
    if name == Bool(true) then Num(1.0) else name
  }

  /** None inside Done is a container without a name, which is passed over. */
  function ReadContainer(c: Json): Ending<Option<Reading>> {
    if !c.Obj? then Contained
    else
      var o := c.fields;
      var name := Look(o, "name", Null);
      if !Truthy(name) then Done(None)
      else if name.Arr? || name.Obj? then Contained
      else
        var cpu :- AsFloat(Look(o, "cpu_percent", Num(0.0)));
        var mem :- AsFloat(Look(o, "mem_usage", Num(0.0)));
        var limit :- ReadLimit(Look(o, "mem_limit", Num(0.0)));
        var gpu := Look(o, "gpu", Null);
        if !gpu.Obj? then Done(Some(Reading(LookedUp(name), cpu, mem, limit, None, o)))
        else
          var vram :- AsFloat(Look(gpu.fields, "vram_bytes", Num(0.0)));
          var util :- AsFloat(Look(gpu.fields, "gpu_util", Num(0.0)));
          Done(Some(Reading(LookedUp(name), cpu, mem, limit, Some((vram, util)), o)))
  }

  /** `ml = j or 0; if ml > 0`: the new limit, if there is one. */
  function ReadLimit(j: Json): Ending<Option<Json>> {
    if !Truthy(j) then Done(None)
    else
      match j
      case Num(n) => Done(if n > 0.0 then Some(j) else None)
      case Bool(_) => Done(Some(j))
      case Inf(up) => Done(if up then Some(j) else None)
      case NaN => Done(None)
      case _ => Contained
  }

  function NewContainer(r: Reading): ContainerSum {
    ContainerSum(r.name, Look(r.raw, "name", Null), Look(r.raw, "id", Text("", None)), Look(r.raw, "image", Text("", None)),
                 Look(r.raw, "status", Text("", None)), Look(r.raw, "state", Text("", None)),
                 Look(r.raw, "ports", NO_ITEMS), ZERO, ZERO, 0, Look(r.raw, "mem_limit", Num(0.0)),
                 ZERO, 0, ZERO, 0, false)
  }

  function AddReading(s: ContainerSum, r: Reading): ContainerSum {
    var seen := s.(cpuSum := Added(s.cpuSum, r.cpu), memSum := Added(s.memSum, r.mem), samples := s.samples + 1,
                   status := Look(r.raw, "status", s.status), state := Look(r.raw, "state", s.state),
                   image := Look(r.raw, "image", s.image), id := Look(r.raw, "id", s.id),
                   ports := Look(r.raw, "ports", s.ports),
                   memLimit := if r.limit.Some? then r.limit.value else s.memLimit);
    if r.gpu.None? then seen
    else
      var (vram, util) := r.gpu.value;
      seen.(vramSum := if Positive(vram) then Added(s.vramSum, vram) else s.vramSum,
            vramSamples := if Positive(vram) then s.vramSamples + 1 else s.vramSamples,
            utilSum := if Positive(util) then Added(s.utilSum, util) else s.utilSum,
            utilSamples := if Positive(util) then s.utilSamples + 1 else s.utilSamples,
            gpuSeen := true)
  }

  /** Containers are keyed by name and kept in the order they first appeared. */
  function Merge(cs: seq<ContainerSum>, r: Reading): seq<ContainerSum> {
    if cs == [] then [AddReading(NewContainer(r), r)]
    else if cs[0].key == r.name then [AddReading(cs[0], r)] + cs[1..]
    else [cs[0]] + Merge(cs[1..], r)
  }

  function AddContainers(cs: seq<ContainerSum>, list: seq<Json>): Ending<seq<ContainerSum>>
    decreases |list|
  {
    if list == [] then Done(cs)
    else
      var reading :- ReadContainer(list[0]);
      AddContainers(if reading.Some? then Merge(cs, reading.value) else cs, list[1..])
  }

  /** `entry.get("containers") or []`, walked: only a list can be walked to its end. */
  function WalkContainers(cs: seq<ContainerSum>, e: Sample): Ending<seq<ContainerSum>> {
    var list := Look(e, "containers", Null);
    if !Truthy(list) then Done(cs)
    else if list.Arr? then AddContainers(cs, list.items)
    else Contained
  }

  // ── the fold ────────────────────────────────────────

  datatype Acc = Acc(n: nat, template: Option<Sample>, totals: Totals, containers: seq<ContainerSum>,
                     scalarFailed: bool, containerFailed: bool)

  const NEW_ACC := Acc(0, None, NO_TOTALS, [], false, false)

  /** The host-wide half: slots for what the first snapshot names, then the readings. */
  function HostHalf(acc: Acc, e: Sample): Ending<Totals> {
    var start :- if acc.n == 0 then Caught(Reserve(if acc.template.None? then e else acc.template.value))
                 else Done(acc.totals);
    AddTotals(start, e)
  }

  /**
   Fold one snapshot in. None is an exception that leaves the fold altogether. The two latches
   only ever go up; what a latched half had added before it failed is never read again.
   */
  function AggAdd(acc: Acc, e: Sample): Option<Acc> {
    var host := if acc.scalarFailed then Contained else HostHalf(acc, e);
    var walked := if acc.containerFailed then Contained else WalkContainers(acc.containers, e);
    if host.Escapes? || walked.Escapes? then None
    else Some(Acc(acc.n + 1, if acc.template.None? then Some(e) else acc.template,
                  if host.Done? then host.value else acc.totals,
                  if walked.Done? then walked.value else acc.containers,
                  host.Contained?, walked.Contained?))
  }

  function Fold(acc: Acc, entries: seq<Sample>): Option<Acc>
    decreases |entries|
  {
    if entries == [] then Some(acc)
    else
      var next :- AggAdd(acc, entries[0]);
      Fold(next, entries[1..])
  }

  /** A fold can stop anywhere and resume from what it had. */
  lemma {:induction false} FoldAppend(acc: Acc, xs: seq<Sample>, ys: seq<Sample>)
    ensures Fold(acc, xs + ys) ==
            (match Fold(acc, xs) case None => None case Some(mid) => Fold(mid, ys))
    decreases |xs|
  {
    if xs == [] {
      assert xs + ys == ys;
    } else {
      assert (xs + ys)[0] == xs[0] && (xs + ys)[1..] == xs[1..] + ys;
      var next := AggAdd(acc, xs[0]);
      if next.Some? {
        FoldAppend(next.value, xs[1..], ys);
      }
    }
  }

  // ── saving the fold and reading it back ─────────────

  function Digits(n: nat): string {
    if n < 10 then [DIGITS[n]] else Digits(n / 10) + [DIGITS[n % 10]]
  }

  const DIGITS := "0123456789"

  /** The first decimals of what is left of a number below its whole part, up to the last that is not 0. */
  function Decimals(rest: real, places: nat): string
    decreases places
  {
    if rest <= 0.0 || rest >= 1.0 || places == 0 then ""
    else
      var digit := (rest * 10.0).Floor;
      if 0 <= digit < 10 then [DIGITS[digit]] + Decimals(rest * 10.0 - digit as real, places - 1) else ""
  }

  /** How a number is written as a key of a JSON object. */
  function Written(n: real): string {
    if n < 0.0 then "-" + Magnitude(-n) else Magnitude(n)
  }

  function Magnitude(n: real): string
    requires n >= 0.0
  {
    if n == n.Floor as real then Digits(n.Floor) else Digits(n.Floor) + "." + Decimals(n - n.Floor as real, 17)
  }

  /**
   The key an entry is under after it was written to JSON and read back: always a text. A key that is
   not a text yet is the name the entry was created with.
   */
  function SavedKey(c: ContainerSum): Json {
    if c.key.Text? then c.key
    else
      match c.name
      case Num(n) => Text(Written(n), Some(if Held(n) then Finite(n) else Infinite(n > 0.0)))
      case Bool(b) => Text(if b then "true" else "false", None)
      case Inf(up) => Text(if up then "Infinity" else "-Infinity", Some(Infinite(up)))
      case NaN => Text("NaN", Some(Undefined))
      case _ => Text("null", None)
  }

  /** `d[c.key] = c`: an entry already there is overwritten where it stands. */
  function Overwrite(cs: seq<ContainerSum>, c: ContainerSum): seq<ContainerSum> {
    if cs == [] then [c]
    else if cs[0].key == c.key then [c] + cs[1..]
    else [cs[0]] + Overwrite(cs[1..], c)
  }

  function ReloadContainers(cs: seq<ContainerSum>): seq<ContainerSum> {
    if cs == [] then []
    else
      var n := |cs| - 1;
      Overwrite(ReloadContainers(cs[..n]), cs[n].(key := SavedKey(cs[n])))
  }

  /** `json.loads(json.dumps(state))`, as between two batches of one generation. */
  function Reload(acc: Acc): Acc {
    acc.(containers := ReloadContainers(acc.containers))
  }

  // ── the summary ─────────────────────────────────────

  /** `result[part][key] = value`: None when `part` is absent or not a mapping. */
  function Assign(result: Sample, part: string, key: string, value: Json): Option<Sample> {
    if part in result && result[part].Obj? then
      Some(result[part := Obj(result[part].fields[key := value])])
    else None
  }

  function Number(a: Float): Json {
    match a
    case Finite(r) => Num(r)
    case Infinite(up) => Inf(up)
    case Undefined => NaN
  }

  function Averages(sums: seq<Float>, n: nat): seq<Json>
    requires n != 0
  {
    seq(|sums|, i requires 0 <= i < |sums| => Number(Over(sums[i], n)))
  }

  /** The averaged device; `processes` is dropped. */
  function AverageDevice(device: Sample, total: GpuTotal): Sample {
    var averaged := SetFields(device, GPU_FIELDS, total);
    averaged - {"processes"}
  }

  function SetFields(device: Sample, names: seq<string>, total: GpuTotal): Sample
    decreases |names|
  {
    if names == [] then device
    else
      var i := |GPU_FIELDS| - |names|;
      var value := if total.n != 0 && 0 <= i < |total.sums| then Number(Over(total.sums[i], total.n))
                   else Num(0.0);
      SetFields(device[names[0] := value], names[1..], total)
  }

  /** Devices averaged up to the first one that is not a mapping or was never reserved. */
  function AverageDevices(devices: seq<Json>, totals: seq<GpuTotal>): (seq<Json>, bool) {
    if devices == [] then ([], true)
    else if totals == [] || !devices[0].Obj? then (devices, false)
    else
      var (rest, ok) := AverageDevices(devices[1..], totals[1..]);
      ([Obj(AverageDevice(devices[0].fields, totals[0]))] + rest, ok)
  }

  function Mean(sum: Float, n: nat): Json {
    if n != 0 then Number(Over(sum, n)) else Num(0.0)
  }

  function ContainerEntry(s: ContainerSum): Json {
    var entry := map["id" := s.id, "name" := s.name, "image" := s.image, "status" := s.status,
                     "state" := s.state, "ports" := s.ports,
                     "cpu_percent" := Mean(s.cpuSum, s.samples),
                     "mem_usage" := Mean(s.memSum, s.samples),
                     "mem_limit" := s.memLimit];
    if !s.gpuSeen then Obj(entry)
    else Obj(entry["gpu" := Obj(map["vram_bytes" := Mean(s.vramSum, s.vramSamples),
                                    "gpu_util" := Mean(s.utilSum, s.utilSamples)])])
  }

  /** The averaging proper: whatever was assigned before a step failed stays assigned. */
  function FillIn(template: Sample, acc: Acc): Sample
    requires acc.n != 0
  {
    match Assign(template, "cpu", "percent_total", Number(Over(acc.totals.cpu, acc.n)))
    case None => template
    case Some(withCpu) =>
      match Assign(withCpu, "memory", "percent", Number(Over(acc.totals.mem, acc.n)))
      case None => withCpu
      case Some(withMem) =>
        match Assign(withMem, "disk", "percent", Number(Over(acc.totals.disk, acc.n)))
        case None => withMem
        case Some(withDisk) =>
          match FillCores(withDisk, acc)
          case None => withDisk
          case Some(withCores) => FillDevices(withCores, acc)
  }

  function FillCores(result: Sample, acc: Acc): Option<Sample>
    requires acc.n != 0
  {
    var perCore :- Get(Look(result, "cpu", EMPTY), "percent_per_core", NO_ITEMS);
    var cores :- Length(perCore);
    if cores == 0 then Some(result)
    else if perCore.Arr? && cores == |acc.totals.cores| then
      Assign(result, "cpu", "percent_per_core", Arr(Averages(acc.totals.cores, acc.n)))
    else None
  }

  function FillDevices(result: Sample, acc: Acc): Sample {
    var devices := Look(result, "gpu", NO_ITEMS);
    if devices.Arr? then
      var (averaged, ok) := AverageDevices(devices.items, acc.totals.gpu);
      var withGpu := if "gpu" in result then result["gpu" := Arr(averaged)] else result;
      if ok then FillContainers(withGpu, acc) else withGpu
    else if Length(devices) == Some(0) then FillContainers(result, acc)
    else result
  }

  function FillContainers(result: Sample, acc: Acc): Sample {
    if acc.containerFailed then result
    else
      result["containers" := Arr(seq(|acc.containers|,
                                     i requires 0 <= i < |acc.containers| => ContainerEntry(acc.containers[i])))]
  }

  function AggFinalize(acc: Acc): Option<Sample> {
    if acc.n == 0 || acc.template.None? then None
    else
      var filled := if acc.scalarFailed then acc.template.value else FillIn(acc.template.value, acc);
      Some(filled - {"processes", "network"})
  }

  /** `_average_metrics`: None when there is nothing to average or the fold raised. */
  function AverageMetrics(entries: seq<Sample>): Option<Sample> {
    var acc :- Fold(NEW_ACC, entries);
    AggFinalize(acc)
  }
}
