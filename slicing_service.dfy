/** The browser slicing service: the settings it hands the KiriMoto engine
    for a configuration, the order of its calls to the engine, and the
    result it resolves with once the engine reports the G-code. */
module SlicingService {
  import opened Common
  import opened Text
  import opened Filament
  import opened Quality

  datatype SlicingConfig = SlicingConfig(quality: string, infill: real, material: string, supports: bool, quantity: real)

  datatype FileType = Stl | Obj | ThreeMf

  /** The file type by the lower-cased name's suffix; anything else is read
      as STL. */
  function FileTypeOf(name: string): (t: FileType)
    ensures t == Obj <==> EndsWith(Lower(name), ".obj")
    ensures t == ThreeMf <==> EndsWith(Lower(name), ".3mf")
    ensures t == Stl <==> !EndsWith(Lower(name), ".obj") && !EndsWith(Lower(name), ".3mf")
  {
    var lower := Lower(name);
    SuffixesExclusive(lower);
    if EndsWith(lower, ".stl") then Stl
    else if EndsWith(lower, ".obj") then Obj
    else if EndsWith(lower, ".3mf") then ThreeMf
    else Stl
  }

  /** A name ends in at most one of the three suffixes. */
  lemma SuffixesExclusive(s: string)
    ensures !(EndsWith(s, ".stl") && EndsWith(s, ".obj"))
    ensures !(EndsWith(s, ".stl") && EndsWith(s, ".3mf"))
    ensures !(EndsWith(s, ".obj") && EndsWith(s, ".3mf"))
  {
    if |s| >= 4 {
      var k := |s| - 3;
      assert EndsWith(s, ".stl") ==> s[k] == 's';
      assert EndsWith(s, ".obj") ==> s[k] == 'o';
      assert EndsWith(s, ".3mf") ==> s[k] == '3';
    }
  }

  /** Nozzle temperature: pla 200, abs 250, petg 230, tpu 220, else 210. */
  function NozzleTemp(material: string): (t: nat)
    ensures 200 <= t <= 250
    ensures t == 210 <==> !(material == "pla" || material == "abs" || material == "petg" || material == "tpu")
  {
    if material == "pla" then 200
    else if material == "abs" then 250
    else if material == "petg" then 230
    else if material == "tpu" then 220
    else 210
  }

  /** Bed temperature: pla 60, abs 100, petg 80, else 60. */
  function BedTemp(material: string): (t: nat)
    ensures 60 <= t <= 100
    ensures t == 60 <==> !(material == "abs" || material == "petg")
  {
    if material == "pla" then 60
    else if material == "abs" then 100
    else if material == "petg" then 80
    else 60
  }

  /** Fan speed: full for pla, off for abs, half otherwise. */
  function FanSpeed(material: string): (f: nat)
    ensures f <= 255
    ensures f == 255 <==> material == "pla"
    ensures f == 0 <==> material == "abs"
  {
    if material == "pla" then 255
    else if material == "abs" then 0
    else 128
  }

  const Densities: map<string, real> := map[
    "pla" := 1.24, "abs" := 1.04, "petg" := 1.27, "tpu" := 1.21, "wood" := 1.28, "carbon" := 1.30]

  /** `densityMap[material] || 1.24` */
  function DensityOf(material: string): (d: real)
    ensures 1.04 <= d <= 1.30
    ensures material !in Densities ==> d == PlaDensity
  {
    LookupOr(Densities, material, PlaDensity)
  }

  datatype ProcessSettings = ProcessSettings(
    sliceHeight: real, sliceShells: nat, sliceTopLayers: nat, sliceBottomLayers: nat,
    sliceFillSparse: real, sliceFillType: string, sliceSupport: bool,
    sliceSupportDensity: real, sliceSupportSize: nat, sliceSupportOffset: nat,
    sliceSupportGap: nat, outputTemp: nat, outputBedTemp: nat, outputFanSpeed: nat)

  datatype DeviceSettings = DeviceSettings(
    bedWidth: nat, bedDepth: nat, bedHeight: nat, nozzleSize: real, filamentSize: real, maxSpeed: nat)

  /** The process settings: the quality's layer height, three shells and
      three top and bottom layers, the infill percentage as a fraction
      with hexagonal fill, support at 0.15 exactly when supports are on,
      and the material's temperatures and fan speed. */
  function ProcessFor(config: SlicingConfig): (p: ProcessSettings)
    ensures p.sliceHeight == LayerHeightOf(config.quality) && 0.1 <= p.sliceHeight <= 0.4
    ensures p.sliceShells == p.sliceTopLayers == p.sliceBottomLayers == 3 && p.sliceFillType == "hex"
    ensures p.sliceFillSparse * 100.0 == config.infill
    ensures 0.0 <= config.infill <= 100.0 ==> 0.0 <= p.sliceFillSparse <= 1.0
    ensures p.sliceSupport == config.supports && (p.sliceSupportDensity > 0.0 <==> config.supports)
    ensures 200 <= p.outputTemp <= 250 && 60 <= p.outputBedTemp <= 100 && p.outputFanSpeed <= 255
    ensures p.outputTemp == NozzleTemp(config.material) && p.outputBedTemp == BedTemp(config.material)
    ensures p.outputFanSpeed == FanSpeed(config.material)
  {
    ProcessSettings(
      LayerHeightOf(config.quality), 3, 3, 3,
      config.infill / 100.0, "hex", config.supports,
      if config.supports then 0.15 else 0.0, 6, 1, 1,
      NozzleTemp(config.material), BedTemp(config.material), FanSpeed(config.material))
  }

  /** The device: a 220 × 220 × 250 bed and the quality's nozzle. */
  function DeviceFor(config: SlicingConfig): (d: DeviceSettings)
    ensures 0.4 <= d.nozzleSize <= 0.8 && d.filamentSize == Diameter
    ensures d.nozzleSize == NozzleSizeOf(config.quality)
  {
    DeviceSettings(220, 220, 250, NozzleSizeOf(config.quality), Diameter, 60)
  }

  /** The layer height sent to the engine is at most three quarters of the
      nozzle sent with it, and reaches it only for the draft quality. */
  lemma SettingsFitNozzle(config: SlicingConfig)
    ensures ProcessFor(config).sliceHeight <= 0.75 * DeviceFor(config).nozzleSize
    ensures ProcessFor(config).sliceHeight == 0.75 * DeviceFor(config).nozzleSize <==> config.quality == "draft"
  {
    LayerFitsNozzle(config.quality);
  }

  // ---------------------------------------------------------------------
  // What the engine reports

  /** The statistics of a `slice` event; `None` is a field that is absent
      or falsy, which `|| 0` turns into 0. */
  datatype EngineStats = EngineStats(distance: Option<real>, time: Option<real>, layers: Option<real>)

  /** One call of the listener: the `slice` statistics it carries, whether
      `prepare` is done, and the exported G-code once `export` is done. */
  datatype EngineEvent = EngineEvent(slice: Option<EngineStats>, prepareDone: bool, exportDone: Option<string>)

  datatype SlicingResult = SlicingResult(time: real, material: real, layers: real, gcode: string)

  /** The result built when the export is done: grams of the last reported
      filament distance at the material's density, time and layers from
      the last statistics, each 0 when missing. */
  function Finish(config: SlicingConfig, stats: Option<EngineStats>, gcode: string): SlicingResult
  {
    var distance := if stats.Some? then OrElse(stats.value.distance, 0.0) else 0.0;
    SlicingResult(
      if stats.Some? then OrElse(stats.value.time, 0.0) else 0.0,
      Grams(distance, DensityOf(config.material)),
      if stats.Some? then OrElse(stats.value.layers, 0.0) else 0.0,
      gcode)
  }

  /** The value the promise settles with from the listener: the result of
      the first event whose export is done, with the statistics of the
      latest `slice` event up to it, when there is one. Later events cannot
      settle the promise again. */
  function Resolution(config: SlicingConfig, latest: Option<EngineStats>, events: seq<EngineEvent>): Option<SlicingResult>
    decreases |events|
  {
    if events == [] then None
    else
      var stats := if events[0].slice.Some? then events[0].slice else latest;
      if events[0].exportDone.Some? then Some(Finish(config, stats, events[0].exportDone.value))
      else Resolution(config, stats, events[1..])
  }

  /** The listener: `sliceStats` and `prepareStats` are the locals it
      assigns; the first completed export settles the result. */
  method Listen(config: SlicingConfig, events: seq<EngineEvent>) returns (resolved: Option<SlicingResult>)
    ensures resolved == Resolution(config, None, events)
  {
    var sliceStats: Option<EngineStats> := None;
    var prepareDone := false;
    resolved := None;
    var i := 0;
    while i < |events|
      invariant 0 <= i <= |events|
      invariant resolved.None? ==> Resolution(config, None, events) == Resolution(config, sliceStats, events[i..])
      invariant resolved.Some? ==> resolved == Resolution(config, None, events)
    {
      var event := events[i];
      if event.slice.Some? {
        sliceStats := event.slice;
      }
      if event.prepareDone {
        prepareDone := true;
      }
      if event.exportDone.Some? && resolved.None? {
        resolved := Some(Finish(config, sliceStats, event.exportDone.value));
      }
      assert events[i..][1..] == events[i + 1..];
      i := i + 1;
    }
  }

  /** The promise settles from the listener exactly when some event reports
      the export done. */
  lemma {:induction false} ResolvesOnExport(config: SlicingConfig, latest: Option<EngineStats>, events: seq<EngineEvent>)
    ensures Resolution(config, latest, events).Some? <==> exists k | 0 <= k < |events| :: events[k].exportDone.Some?
    decreases |events|
  {
    if events != [] {
      var stats := if events[0].slice.Some? then events[0].slice else latest;
      ResolvesOnExport(config, stats, events[1..]);
      if events[0].exportDone.None? && exists k | 0 <= k < |events| :: events[k].exportDone.Some? {
        var k :| 0 <= k < |events| && events[k].exportDone.Some?;
        assert events[1..][k - 1] == events[k];
      }
    }
  }

  /** Without any `slice` statistics the result reports no time, no layers
      and no material. */
  lemma {:induction false} ZerosWithoutStats(config: SlicingConfig, events: seq<EngineEvent>)
    requires forall k | 0 <= k < |events| :: events[k].slice.None?
    ensures Resolution(config, None, events).Some? ==>
      var r := Resolution(config, None, events).value;
      r.time == 0.0 && r.layers == 0.0 && r.material == 0.0
    decreases |events|
  {
    if events != [] && events[0].exportDone.None? {
      assert forall k | 0 <= k < |events[1..]| :: events[1..][k] == events[k + 1];
      ZerosWithoutStats(config, events[1..]);
    }
  }

  /** The reported material never is negative when the engine reports a
      non-negative distance. */
  lemma {:induction false} MaterialNonNegative(config: SlicingConfig, latest: Option<EngineStats>, events: seq<EngineEvent>)
    requires latest.Some? && latest.value.distance.Some? ==> latest.value.distance.value >= 0.0
    requires forall k | 0 <= k < |events| ::
      (events[k].slice.Some? && events[k].slice.value.distance.Some? ==> events[k].slice.value.distance.value >= 0.0)
    ensures Resolution(config, latest, events).Some? ==> Resolution(config, latest, events).value.material >= 0.0
    decreases |events|
  {
    if events != [] && events[0].exportDone.None? {
      assert forall k | 0 <= k < |events[1..]| :: events[1..][k] == events[k + 1];
      var stats := if events[0].slice.Some? then events[0].slice else latest;
      MaterialNonNegative(config, stats, events[1..]);
    }
  }

  // ---------------------------------------------------------------------
  // Driving the engine

  datatype EngineCall =
    | Parse(fileType: FileType) | SetMode(mode: string) | SetProcess(process: ProcessSettings)
    | SetDevice(device: DeviceSettings) | SliceCall | PrepareCall | ExportCall

  /** The calls `sliceModel` makes, in order. */
  function EngineCalls(config: SlicingConfig, fileName: string): seq<EngineCall>
  {
    [Parse(FileTypeOf(fileName)), SetMode("FDM"), SetProcess(ProcessFor(config)),
     SetDevice(DeviceFor(config)), SliceCall, PrepareCall, ExportCall]
  }

  /** The engine call that throws, by its position in `EngineCalls`, and
      the error it throws. */
  datatype EngineFailure = EngineFailure(step: nat, message: string)

  /** How many calls are made: up to and including the one that throws. */
  function CallsMade(failure: Option<EngineFailure>): nat
  {
    if failure.Some? && failure.value.step < 7 then failure.value.step + 1 else 7
  }

  /** How the promise of `sliceModel` ends; `Pending` is a promise that never
      settles. */
  datatype Outcome = Resolved(result: SlicingResult) | Rejected(error: string) | Pending

  /** The engine's step `k` throws. */
  predicate FailsAt(failure: Option<EngineFailure>, k: nat)
  {
    failure.Some? && failure.value.step == k
  }

  /** `reject(error)`: settles the promise only if it is still pending. */
  function Settle(o: Outcome, error: string): Outcome
  {
    if o.Pending? then Rejected(error) else o
  }

  /** `sliceModel`. Without an engine it rejects before any call. Otherwise
      it makes the engine calls in order until one throws; `events` are all
      the listener calls the engine makes meanwhile. The first completed
      export settles the promise; a thrown error rejects it only if it is
      still unsettled. */
  method SliceModel(hasEngine: bool, fileName: string, config: SlicingConfig,
                    failure: Option<EngineFailure>, events: seq<EngineEvent>)
    returns (calls: seq<EngineCall>, outcome: Outcome)
    ensures !hasEngine ==> calls == [] && outcome == Rejected("Engine not initialized")
    ensures hasEngine ==> calls == EngineCalls(config, fileName)[..CallsMade(failure)]
    ensures hasEngine && Resolution(config, None, events).Some? ==> outcome == Resolved(Resolution(config, None, events).value)
    ensures hasEngine && Resolution(config, None, events).None? ==>
      outcome == if failure.Some? && failure.value.step < 7 then Rejected(failure.value.message) else Pending
  {
    calls := [];
    if !hasEngine {
      outcome := Rejected("Engine not initialized");
      return;
    }
    var fileType := FileTypeOf(fileName);
    var resolved := Listen(config, events);
    outcome := if resolved.Some? then Resolved(resolved.value) else Pending;
    var process := ProcessFor(config);
    var device := DeviceFor(config);
    ghost var all := EngineCalls(config, fileName);
    calls := [Parse(fileType)];
    if FailsAt(failure, 0) {
      outcome := Settle(outcome, failure.value.message);
      return;
    }
    calls := calls + [SetMode("FDM")];
    if FailsAt(failure, 1) {
      outcome := Settle(outcome, failure.value.message);
      return;
    }
    calls := calls + [SetProcess(process)];
    if FailsAt(failure, 2) {
      outcome := Settle(outcome, failure.value.message);
      return;
    }
    calls := calls + [SetDevice(device)];
    if FailsAt(failure, 3) {
      outcome := Settle(outcome, failure.value.message);
      return;
    }
    calls := calls + [SliceCall];
    if FailsAt(failure, 4) {
      outcome := Settle(outcome, failure.value.message);
      return;
    }
    calls := calls + [PrepareCall];
    if FailsAt(failure, 5) {
      outcome := Settle(outcome, failure.value.message);
      return;
    }
    calls := calls + [ExportCall];
    if FailsAt(failure, 6) {
      outcome := Settle(outcome, failure.value.message);
      return;
    }
    assert calls == all[..7];
  }
}
