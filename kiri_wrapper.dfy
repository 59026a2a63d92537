/** The KiriMoto command-line wrapper of the backend: the parameters it
    passes to the slicer, the statistics it estimates from the G-code, and
    the temporary directory it removes whatever happens. */
module KiriWrapper {
  import opened Common
  import opened Text
  import opened Workspace
  import opened Filament
  import opened Quality

  /** The configuration fields the wrapper reads; `None` is an undefined
      field, which takes the destructuring default. */
  datatype KiriConfig = KiriConfig(
    quality: Option<string>,
    infill: Option<real>,
    material: Option<string>,
    supports: Option<bool>)

  /** The value written after `=` in a parameter. */
  datatype ParamValue = Num(n: real) | Flag(b: bool) | Word(w: string) | Quoted(q: string)

  /** The `--name=value` parameters, in the order they are passed. */
  datatype Setting =
    | SliceHeight | SliceFillSparse | SliceFillType | SliceShells | SliceTopLayers
    | SliceBottomLayers | SliceSupportEnable | SliceSupportDensity | OutputTemp
    | OutputBedTemp | OutputFeedrate | OutputSeekrate | ExtNozzle | ExtFilament
    | BedWidth | BedDepth | MaxHeight | DeviceName

  /** The name of a parameter on the command line. */
  function SettingName(s: Setting): string
  {
    match s
    case SliceHeight => "sliceHeight"
    case SliceFillSparse => "sliceFillSparse"
    case SliceFillType => "sliceFillType"
    case SliceShells => "sliceShells"
    case SliceTopLayers => "sliceTopLayers"
    case SliceBottomLayers => "sliceBottomLayers"
    case SliceSupportEnable => "sliceSupportEnable"
    case SliceSupportDensity => "sliceSupportDensity"
    case OutputTemp => "outputTemp"
    case OutputBedTemp => "outputBedTemp"
    case OutputFeedrate => "outputFeedrate"
    case OutputSeekrate => "outputSeekrate"
    case ExtNozzle => "extruders.0.extNozzle"
    case ExtFilament => "extruders.0.extFilament"
    case BedWidth => "bedWidth"
    case BedDepth => "bedDepth"
    case MaxHeight => "maxHeight"
    case DeviceName => "deviceName"
  }

  /** One command-line parameter: `-o "<path>"` or `--name=value`. Numbers
      are kept as values, since the model does not render JavaScript numbers
      as text. */
  datatype KiriParam = OutputTo(path: string) | Param(setting: Setting, value: ParamValue)

  datatype Temps = Temps(nozzle: nat, bed: nat)

  const MaterialTemps: map<string, Temps> := map[
    "pla" := Temps(200, 60), "abs" := Temps(250, 100), "petg" := Temps(230, 80),
    "tpu" := Temps(220, 60), "wood" := Temps(210, 60), "carbon" := Temps(240, 80)]

  /** The order of the `--name=value` parameters; the output file comes
      before all of them. */
  const SettingOrder: seq<Setting> := [
    SliceHeight, SliceFillSparse, SliceFillType, SliceShells, SliceTopLayers,
    SliceBottomLayers, SliceSupportEnable, SliceSupportDensity, OutputTemp,
    OutputBedTemp, OutputFeedrate, OutputSeekrate, ExtNozzle, ExtFilament,
    BedWidth, BedDepth, MaxHeight, DeviceName]

  /** What the configuration decides: the fields after their destructuring
      defaults, and what the three tables give for them (`|| fallback`). */
  datatype Choices = Choices(layerHeight: real, infill: real, supports: bool, temps: Temps, nozzleSize: real)

  function Choose(config: KiriConfig): (r: Choices)
    ensures 0.1 <= r.layerHeight <= 0.4 && 0.4 <= r.nozzleSize <= 0.8
    ensures config.infill.None? ==> r.infill == 20.0
    ensures config.supports.None? ==> !r.supports
    ensures 200 <= r.temps.nozzle <= 250 && 60 <= r.temps.bed <= 100
  {
    var quality := OrElse(config.quality, "standard");
    var material := OrElse(config.material, "pla");
    Choices(LayerHeightOf(quality),
            OrElse(config.infill, 20.0),
            OrElse(config.supports, false),
            LookupOr(MaterialTemps, material, MaterialTemps["pla"]),
            NozzleSizeOf(quality))
  }

  /** The value each setting receives under the choices made. */
  function SettingValue(ch: Choices, s: Setting): ParamValue
  {
    match s
    case SliceHeight => Num(ch.layerHeight)
    case SliceFillSparse => Num(ch.infill / 100.0)
    case SliceFillType => Word("gyroid")
    case SliceShells => Num(3.0)
    case SliceTopLayers => Num(3.0)
    case SliceBottomLayers => Num(3.0)
    case SliceSupportEnable => Flag(ch.supports)
    case SliceSupportDensity => Num(0.25)
    case OutputTemp => Num(ch.temps.nozzle as real)
    case OutputBedTemp => Num(ch.temps.bed as real)
    case OutputFeedrate => Num(50.0)
    case OutputSeekrate => Num(80.0)
    case ExtNozzle => Num(ch.nozzleSize)
    case ExtFilament => Num(Diameter)
    case BedWidth => Num(256.0)
    case BedDepth => Num(256.0)
    case MaxHeight => Num(256.0)
    case DeviceName => Quoted("Bambu Lab A1")
  }

  /** `buildKiriParams`: the output file, then every setting of
      `SettingOrder` with the value the configuration gives it. */
  function BuildKiriParams(config: KiriConfig, outputPath: string): (r: seq<KiriParam>)
    ensures |r| == |SettingOrder| + 1 && r[0] == OutputTo(outputPath)
    ensures forall k | 1 <= k < |r| :: r[k] == Param(SettingOrder[k - 1], SettingValue(Choose(config), SettingOrder[k - 1]))
  {
    var ch := Choose(config);
    [OutputTo(outputPath)] + seq(|SettingOrder|, k requires 0 <= k < |SettingOrder| =>
      Param(SettingOrder[k], SettingValue(ch, SettingOrder[k])))
  }

  /** A configuration without any field is sliced as a standard-quality PLA
      print at 20 % infill without supports. */
  lemma DefaultConfig(outputPath: string)
    ensures Choose(KiriConfig(None, None, None, None))
         == Choose(KiriConfig(Some("standard"), Some(20.0), Some("pla"), Some(false)))
    ensures Choose(KiriConfig(None, None, None, None)) == Choices(0.2, 20.0, false, Temps(200, 60), 0.4)
  {
  }

  /** An unknown quality is sliced like `standard`: layer height 0.2 and a
      0.4 mm nozzle. */
  lemma UnknownQuality(config: KiriConfig)
    requires config.quality.Some? && config.quality.value !in LayerHeights
    ensures Choose(config) == Choose(config.(quality := Some("standard")))
    ensures Choose(config).layerHeight == 0.2 && Choose(config).nozzleSize == 0.4
  {
    UnknownQualityIsStandard(config.quality.value);
  }

  /** An unknown material is printed at the PLA temperatures, 200 °C and a
      60 °C bed. */
  lemma UnknownMaterial(config: KiriConfig)
    requires config.material.Some? && config.material.value !in MaterialTemps
    ensures Choose(config) == Choose(config.(material := Some("pla")))
    ensures Choose(config).temps == Temps(200, 60)
  {
  }

  // ---------------------------------------------------------------------
  // Statistics from the G-code

  /** `line.includes(';LAYER:')` */
  predicate IsLayerLine(line: string)
  {
    Contains(line, ";LAYER:")
  }

  /** The capture of `/E([\d.]+)/` searched from position `i`: the run of
      digits and points after the leftmost `E` that is followed by one. */
  function FirstE(s: string, i: nat): Option<string>
    requires i <= |s|
    decreases |s| - i
  {
    if i + 1 >= |s| then None
    else if s[i] == 'E' && IsDecimalChar(s[i + 1]) then Some(s[i + 1..RunEnd(s, i + 1, IsDecimalChar)])
    else FirstE(s, i + 1)
  }

  /** `E` followed by a digit or a point starts at position `k`. */
  predicate EStartsAt(s: string, k: nat)
  {
    k + 1 < |s| && s[k] == 'E' && IsDecimalChar(s[k + 1])
  }

  /** There is a capture exactly when some `E` is followed by a digit or a
      point, and the capture is a non-empty run of digits and points. */
  lemma {:induction false} FirstEMatches(s: string, i: nat)
    requires i <= |s|
    ensures FirstE(s, i).Some? <==> exists k | i <= k :: EStartsAt(s, k)
    ensures FirstE(s, i).Some? ==>
      FirstE(s, i).value != [] && forall c | c in FirstE(s, i).value :: IsDecimalChar(c)
    decreases |s| - i
  {
    if i + 1 < |s| {
      if EStartsAt(s, i) {
        RunEndFacts(s, i + 1, IsDecimalChar);
      } else {
        FirstEMatches(s, i + 1);
        if exists k | i <= k :: EStartsAt(s, k) {
          var k :| i <= k && EStartsAt(s, k);
          assert i + 1 <= k;
        }
      }
    }
  }

  /** `parseFloat` of the `E` capture of a line, when the line has one. */
  function EOfLine(line: string): Option<JsNumber>
  {
    match FirstE(line, 0)
    case Some(capture) => Some(ParseFloat(capture))
    case None => None
  }

  /** The values `parseGcodeStats` keeps while it reads the lines. The
      source's `currentE` always equals `lastE` after a line, so it is not
      kept here. */
  datatype KiriTally = KiriTally(layerCount: nat, lastE: JsNumber, totalFilament: real)

  /** How much the extruder position rose from `last` to `current`; a fall,
      or a NaN on either side, counts nothing. */
  function Rise(last: JsNumber, current: JsNumber): real
  {
    if Greater(current, last) then current.v - last.v else 0.0
  }

  /** What one line does to the tally. */
  function ScanLine(t: KiriTally, line: string): KiriTally
  {
    var e := EOfLine(line);
    KiriTally(t.layerCount + if IsLayerLine(line) then 1 else 0,
              if e.Some? then e.value else t.lastE,
              if e.Some? then t.totalFilament + Rise(t.lastE, e.value) else t.totalFilament)
  }

  function Scan(ls: seq<string>): KiriTally
  {
    if ls == [] then KiriTally(0, Finite(0.0), 0.0)
    else ScanLine(Scan(ls[..|ls| - 1]), ls[|ls| - 1])
  }

  datatype KiriStats = KiriStats(time: nat, material: real, layers: nat)

  /** The estimate: 45 seconds per layer, and the extruded length weighed as
      PLA whatever the material. */
  function StatsOf(t: KiriTally): (r: KiriStats)
    ensures r.layers == t.layerCount && r.time == 45 * r.layers
    ensures t.totalFilament >= 0.0 ==> r.material >= 0.0
  {
    KiriStats(t.layerCount * 45, Grams(t.totalFilament, PlaDensity), t.layerCount)
  }

  lemma ScanStep(ls: seq<string>, i: nat)
    requires i < |ls|
    ensures Scan(ls[..i + 1]) == ScanLine(Scan(ls[..i]), ls[i])
  {
    assert ls[..i + 1][..i] == ls[..i];
  }

  /** The extruded length only grows from line to line. */
  lemma ScanLineGrows(t: KiriTally, line: string)
    ensures ScanLine(t, line).totalFilament >= t.totalFilament
    ensures ScanLine(t, line).layerCount >= t.layerCount
  {
  }

  /** `parseGcodeStats`: one pass over the lines, then the estimate. The
      material is never negative and the time is 45 s per layer. */
  method ParseGcodeStats(gcode: string) returns (stats: KiriStats)
    ensures stats == StatsOf(Scan(Lines(gcode)))
    ensures stats.time == 45 * stats.layers && stats.material >= 0.0
  {
    var lines := Lines(gcode);
    var totalFilament := 0.0;
    var layerCount: nat := 0;
    var currentE := Finite(0.0);
    var lastE := Finite(0.0);
    var i := 0;
    while i < |lines|
      invariant 0 <= i <= |lines|
      invariant KiriTally(layerCount, lastE, totalFilament) == Scan(lines[..i])
      invariant totalFilament >= 0.0
    {
      var line := lines[i];
      if IsLayerLine(line) {
        layerCount := layerCount + 1;
      }
      var eMatch := EOfLine(line);
      if eMatch.Some? {
        currentE := eMatch.value;
        if Greater(currentE, lastE) {
          totalFilament := totalFilament + (currentE.v - lastE.v);
        }
        lastE := currentE;
      }
      ScanStep(lines, i);
      i := i + 1;
    }
    assert lines[..|lines|] == lines;
    var volumeMm3 := Pi * Radius * Radius * totalFilament;
    var volumeCm3 := volumeMm3 / 1000.0;
    var materialGrams := volumeCm3 * PlaDensity;
    assert materialGrams == Grams(totalFilament, PlaDensity);
    stats := KiriStats(layerCount * 45, materialGrams, layerCount);
  }

  // ---------------------------------------------------------------------
  // Reference definitions of the statistics

  /** The lines marking a layer. */
  function CountLayerLines(ls: seq<string>): nat
  {
    if ls == [] then 0 else (if IsLayerLine(ls[0]) then 1 else 0) + CountLayerLines(ls[1..])
  }

  /** The extruder positions the lines give, in order. */
  function EReadings(ls: seq<string>): seq<JsNumber>
  {
    if ls == [] then []
    else (if EOfLine(ls[0]).Some? then [EOfLine(ls[0]).value] else []) + EReadings(ls[1..])
  }

  /** The sum of the rises along a sequence of positions, starting from
      `last`. */
  function Rises(last: JsNumber, es: seq<JsNumber>): real
    decreases |es|
  {
    if es == [] then 0.0 else Rise(last, es[0]) + Rises(es[0], es[1..])
  }

  function LastReading(start: JsNumber, es: seq<JsNumber>): JsNumber
  {
    if es == [] then start else es[|es| - 1]
  }

  lemma {:induction false} RisesAppend(last: JsNumber, es: seq<JsNumber>, e: JsNumber)
    ensures Rises(last, es + [e]) == Rises(last, es) + Rise(LastReading(last, es), e)
    decreases |es|
  {
    if es != [] {
      assert (es + [e])[1..] == es[1..] + [e];
      RisesAppend(es[0], es[1..], e);
    }
  }

  lemma {:induction false} CountAppend(ls: seq<string>, line: string)
    ensures CountLayerLines(ls + [line]) == CountLayerLines(ls) + if IsLayerLine(line) then 1 else 0
    decreases |ls|
  {
    if ls != [] {
      assert (ls + [line])[1..] == ls[1..] + [line];
      CountAppend(ls[1..], line);
    }
  }

  lemma {:induction false} ReadingsAppend(ls: seq<string>, line: string)
    ensures EReadings(ls + [line]) == EReadings(ls) + (if EOfLine(line).Some? then [EOfLine(line).value] else [])
    decreases |ls|
  {
    if ls != [] {
      assert (ls + [line])[1..] == ls[1..] + [line];
      ReadingsAppend(ls[1..], line);
    }
  }

  /** The tally counts the layer lines, ends at the last extruder position
      read (0 before any), and adds up every rise between consecutive
      positions, starting from 0. */
  lemma {:induction false} ScanMeaning(ls: seq<string>)
    ensures Scan(ls).layerCount == CountLayerLines(ls)
    ensures Scan(ls).lastE == LastReading(Finite(0.0), EReadings(ls))
    ensures Scan(ls).totalFilament == Rises(Finite(0.0), EReadings(ls))
    decreases |ls|
  {
    if ls != [] {
      var init, line := ls[..|ls| - 1], ls[|ls| - 1];
      assert ls == init + [line];
      ScanMeaning(init);
      CountAppend(init, line);
      ReadingsAppend(init, line);
      if EOfLine(line).Some? {
        RisesAppend(Finite(0.0), EReadings(init), EOfLine(line).value);
      } else {
        assert EReadings(ls) == EReadings(init);
      }
    }
  }

  /** Positions that never fall, from a non-negative start. */
  predicate Ascending(last: JsNumber, es: seq<JsNumber>)
  {
    last.Finite? && (forall k | 0 <= k < |es| :: es[k].Finite?)
    && (es != [] ==> last.v <= es[0].v)
    && forall k | 0 < k < |es| :: es[k - 1].v <= es[k].v
  }

  /** With absolute extrusion that never retracts, the rises add up to the
      distance from the start to the last position. */
  lemma {:induction false} RisesOfAscending(last: JsNumber, es: seq<JsNumber>)
    requires Ascending(last, es)
    ensures Rises(last, es) == LastReading(last, es).v - last.v
    decreases |es|
  {
    if es != [] {
      assert Ascending(es[0], es[1..]) by {
        forall k | 0 < k < |es[1..]|
          ensures es[1..][k - 1].v <= es[1..][k].v
        {
          assert es[1..][k - 1] == es[k] && es[1..][k] == es[k + 1];
        }
      }
      RisesOfAscending(es[0], es[1..]);
      if |es| > 1 {
        assert LastReading(es[0], es[1..]) == es[|es| - 1];
      }
    }
  }

  /** The positions a line gives are digits and points after an `E`: never
      negative when they are numbers. */
  lemma {:induction false} ReadingsNonNegative(ls: seq<string>)
    ensures forall k | 0 <= k < |EReadings(ls)| :: EReadings(ls)[k].Finite? ==> EReadings(ls)[k].v >= 0.0
    decreases |ls|
  {
    if ls != [] {
      ReadingsNonNegative(ls[1..]);
    }
  }

  // ---------------------------------------------------------------------
  // Slicing in a temporary directory

  datatype KiriResult = KiriResult(time: nat, material: real, layers: nat, gcode: string)

  function ModelPath(tempDir: string): string
  {
    tempDir + "/model.stl"
  }

  function OutputPath(tempDir: string): string
  {
    tempDir + "/output.gcode"
  }

  /** Both files lie in the temporary directory. */
  lemma InTempDir(tempDir: string)
    ensures tempDir + "/" <= ModelPath(tempDir) && tempDir + "/" <= OutputPath(tempDir)
  {
    assert ModelPath(tempDir)[..|tempDir| + 1] == tempDir + "/";
    assert OutputPath(tempDir)[..|tempDir| + 1] == tempDir + "/";
  }

  /** The model and the G-code are two different files. */
  lemma TempPathsDiffer(tempDir: string)
    ensures ModelPath(tempDir) != OutputPath(tempDir)
  {
    assert ModelPath(tempDir)[|tempDir| + 1] == 'm';
    assert OutputPath(tempDir)[|tempDir| + 1] == 'o';
  }

  /** `sliceWithKiri`: make a temporary directory, write the model into it,
      run the slicer, read and parse the G-code; the directory and all in it
      are removed on every path once it exists, unless removing them fails.
      `tempDir` stands for the name `mkdtemp` draws, `writeFails` for an I/O
      error and `rmFails` for an error of the removal, which is caught and
      leaves the result as it was. */
  method SliceWithKiri(fs: FileSystem, stl: string, config: KiriConfig, tempDir: string,
                       writeFails: bool, exec: ExecOutcome, rmFails: bool)
    returns (r: Result<KiriResult, string>)
    modifies fs
    ensures tempDir in old(fs.dirs) ==> r.Err? && fs.files == old(fs.files) && fs.dirs == old(fs.dirs)
    ensures tempDir !in old(fs.dirs) && !rmFails ==> fs.files == Outside(old(fs.files), tempDir)
    ensures tempDir !in old(fs.dirs) && !rmFails ==> fs.dirs == set d | d in old(fs.dirs) && !(tempDir + "/" <= d)
    ensures tempDir !in old(fs.dirs) && rmFails ==>
      Outside(fs.files, tempDir) == Outside(old(fs.files), tempDir) && fs.dirs == old(fs.dirs) + {tempDir}
    ensures r.Ok? <==> tempDir !in old(fs.dirs) && !writeFails && exec.Ran?
                       && (exec.gcode.Some? || OutputPath(tempDir) in old(fs.files))
    ensures r.Ok? && exec.gcode.Some? ==>
      var stats := StatsOf(Scan(Lines(exec.gcode.value)));
      r.value == KiriResult(stats.time, stats.material, stats.layers, exec.gcode.value)
    ensures tempDir !in old(fs.dirs) && !writeFails && exec.Failed? ==> r == Err(exec.message)
  {
    var made := fs.MakeTempDir(tempDir);
    if made.Err? {
      return Err(made.error);
    }
    r := RunInTempDir(fs, stl, config, tempDir, writeFails, exec);
    var removed := fs.RemoveTree(tempDir, rmFails);
    if removed {
      assert fs.dirs == set d | d in old(fs.dirs) && !(tempDir + "/" <= d);
    }
  }

  /** The body of the `try` block of `sliceWithKiri`: every file it writes
      lies under the temporary directory. */
  method RunInTempDir(fs: FileSystem, stl: string, config: KiriConfig, tempDir: string,
                      writeFails: bool, exec: ExecOutcome)
    returns (r: Result<KiriResult, string>)
    modifies fs
    ensures fs.dirs == old(fs.dirs)
    ensures Outside(fs.files, tempDir) == Outside(old(fs.files), tempDir)
    ensures r.Ok? <==> !writeFails && exec.Ran? && (exec.gcode.Some? || OutputPath(tempDir) in old(fs.files))
    ensures r.Ok? && exec.gcode.Some? ==>
      var stats := StatsOf(Scan(Lines(exec.gcode.value)));
      r.value == KiriResult(stats.time, stats.material, stats.layers, exec.gcode.value)
    ensures !writeFails && exec.Failed? ==> r == Err(exec.message)
  {
    var stlPath := ModelPath(tempDir);
    var gcodeOutput := OutputPath(tempDir);
    InTempDir(tempDir);
    TempPathsDiffer(tempDir);
    var written := fs.WriteFile(stlPath, stl, writeFails);
    if !written {
      return Err("cannot write " + stlPath);
    }
    UpdateThenOutside(old(fs.files), stlPath, stl, tempDir);
    var params := BuildKiriParams(config, gcodeOutput);
    if exec.Failed? {
      return Err(exec.message);
    }
    if exec.gcode.Some? {
      ghost var before := fs.files;
      var _ := fs.WriteFile(gcodeOutput, exec.gcode.value, false);
      UpdateThenOutside(before, gcodeOutput, exec.gcode.value, tempDir);
    }
    var gcode := fs.ReadFile(gcodeOutput);
    if gcode.Err? {
      return Err(gcode.error);
    }
    var stats := ParseGcodeStats(gcode.value);
    r := Ok(KiriResult(stats.time, stats.material, stats.layers, gcode.value));
  }
}
