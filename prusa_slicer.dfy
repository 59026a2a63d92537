/** The PrusaSlicer command-line wrapper: the command it builds from a
    slicing configuration, the statistics it reads back from the G-code, and
    the temporary files it removes on every path. */
module PrusaSlicer {
  import opened Common
  import opened Text
  import opened Workspace
  import opened Filament

  const PrusaSlicerCmd := "xvfb-run -a flatpak run com.prusa3d.PrusaSlicer"
  const BasePath := "/home/dejvvvvvvvv/prusaslicer"
  const ModelsPath := BasePath + "/models"
  const ProfilesPath := BasePath + "/profiles"
  const OutputPath := BasePath + "/output"

  /** The slicing configuration; `None` is an undefined field. The boolean
      fields hold the truthiness of the value given. */
  datatype SliceConfig = SliceConfig(
    quality: string,
    material: string,
    layerHeight: Option<real>,
    infill: Option<real>,
    walls: Option<real>,
    supports: Option<bool>,
    speed: Option<real>,
    nozzleDiameter: Option<real>,
    brim: Option<bool>,
    raft: Option<bool>,
    scale: Option<real>)

  /** The value of a `-s key=value` override; `Percent` is written with a
      trailing `%`. */
  datatype Setting = Number(v: real) | Percent(p: real)

  /** One word of the command line. Numbers are kept as values, since the
      model does not render JavaScript numbers as text. */
  datatype Part = Word(text: string) | ScaleTo(factor: real) | Set(o: Override)

  // ---------------------------------------------------------------------
  // Parameter overrides

  /** The PrusaSlicer settings the wrapper may override. */
  datatype Key =
    | LayerHeight | FillDensity | Perimeters | SupportMaterial | SpeedPrint
    | SpeedTravel | NozzleDiameter | BrimWidth | RaftLayers

  /** The name of a setting on the command line. */
  function KeyName(k: Key): string
  {
    match k
    case LayerHeight => "layer_height"
    case FillDensity => "fill_density"
    case Perimeters => "perimeters"
    case SupportMaterial => "support_material"
    case SpeedPrint => "speed_print"
    case SpeedTravel => "speed_travel"
    case NozzleDiameter => "nozzle_diameter"
    case BrimWidth => "brim_width"
    case RaftLayers => "raft_layers"
  }

  /** The position of a key in the order the wrapper considers them. */
  function Rank(k: Key): nat
  {
    match k
    case LayerHeight => 0
    case FillDensity => 1
    case Perimeters => 2
    case SupportMaterial => 3
    case SpeedPrint => 4
    case SpeedTravel => 5
    case NozzleDiameter => 6
    case BrimWidth => 7
    case RaftLayers => 8
  }

  const OverrideKeys: seq<Key> := [
    LayerHeight, FillDensity, Perimeters, SupportMaterial, SpeedPrint,
    SpeedTravel, NozzleDiameter, BrimWidth, RaftLayers
  ]

  /** A `-s key=value` argument. */
  datatype Override = Override(key: Key, value: Setting)

  /** The override a key receives under configuration `c`, if any: the value
      of a defined field, 1/0 for supports, a percentage for infill, twice the
      print speed for travel, and brim and raft only when truthy. */
  function ExpectedSetting(c: SliceConfig, k: Key): Option<Setting>
  {
    match k
    case LayerHeight => if c.layerHeight.Some? then Some(Number(c.layerHeight.value)) else None
    case FillDensity => if c.infill.Some? then Some(Percent(c.infill.value)) else None
    case Perimeters => if c.walls.Some? then Some(Number(c.walls.value)) else None
    case SupportMaterial =>
      if c.supports.Some? then Some(Number(if c.supports.value then 1.0 else 0.0)) else None
    case SpeedPrint => if c.speed.Some? then Some(Number(c.speed.value)) else None
    case SpeedTravel => if c.speed.Some? then Some(Number(c.speed.value * 2.0)) else None
    case NozzleDiameter => if c.nozzleDiameter.Some? then Some(Number(c.nozzleDiameter.value)) else None
    case BrimWidth => if c.brim == Some(true) then Some(Number(5.0)) else None
    case RaftLayers => if c.raft == Some(true) then Some(Number(3.0)) else None
  }

  /** `overrides` after the wrapper has considered key `k`: one more
      override when the key receives one, unchanged otherwise. */
  function Push(ov: seq<Override>, k: Key, s: Option<Setting>): seq<Override>
  {
    if s.Some? then ov + [Override(k, s.value)] else ov
  }

  /** The overrides of the keys in `keys`, in key order. */
  function Emit(c: SliceConfig, keys: seq<Key>): seq<Override>
  {
    if keys == [] then []
    else Push(Emit(c, keys[..|keys| - 1]), keys[|keys| - 1], ExpectedSetting(c, keys[|keys| - 1]))
  }

  /** The overrides of configuration `c`: the keys considered one after
      the other, in the wrapper's order. */
  function ParameterOverrides(c: SliceConfig): seq<Override>
  {
    Push(Push(Push(Push(Push(Push(Push(Push(Push([],
      LayerHeight, ExpectedSetting(c, LayerHeight)),
      FillDensity, ExpectedSetting(c, FillDensity)),
      Perimeters, ExpectedSetting(c, Perimeters)),
      SupportMaterial, ExpectedSetting(c, SupportMaterial)),
      SpeedPrint, ExpectedSetting(c, SpeedPrint)),
      SpeedTravel, ExpectedSetting(c, SpeedTravel)),
      NozzleDiameter, ExpectedSetting(c, NozzleDiameter)),
      BrimWidth, ExpectedSetting(c, BrimWidth)),
      RaftLayers, ExpectedSetting(c, RaftLayers))
  }

  /** Emitting one more key pushes its override. */
  lemma EmitStep(c: SliceConfig, keys: seq<Key>, j: nat)
    requires j < |keys|
    ensures Emit(c, keys[..j + 1]) == Push(Emit(c, keys[..j]), keys[j], ExpectedSetting(c, keys[j]))
  {
    assert keys[..j + 1][..j] == keys[..j];
  }

  /** `Emit` over a list of nine keys, key by key. */
  lemma EmitNine(c: SliceConfig, ks: seq<Key>)
    requires |ks| == 9
    ensures Emit(c, ks) ==
      Push(Push(Push(Push(Push(Push(Push(Push(Push([], ks[0], ExpectedSetting(c, ks[0])), ks[1], ExpectedSetting(c, ks[1])), ks[2], ExpectedSetting(c, ks[2])), ks[3], ExpectedSetting(c, ks[3])), ks[4], ExpectedSetting(c, ks[4])), ks[5], ExpectedSetting(c, ks[5])), ks[6], ExpectedSetting(c, ks[6])), ks[7], ExpectedSetting(c, ks[7])), ks[8], ExpectedSetting(c, ks[8]))
  {
    assert ks[..0] == [];
    EmitStep(c, ks, 0);
    EmitStep(c, ks, 1);
    EmitStep(c, ks, 2);
    EmitStep(c, ks, 3);
    EmitStep(c, ks, 4);
    EmitStep(c, ks, 5);
    EmitStep(c, ks, 6);
    EmitStep(c, ks, 7);
    EmitStep(c, ks, 8);
    assert ks[..9] == ks;
  }

  /** The setting of a numeric field given as it is. */
  function NumberSetting(x: Option<real>): Option<Setting>
  {
    if x.Some? then Some(Number(x.value)) else None
  }

  /** The setting of a field that only matters when truthy. */
  function WhenTrue(b: Option<bool>, v: real): Option<Setting>
  {
    if b.Some? && b.value then Some(Number(v)) else None
  }

  /** Each key's setting written in terms of its own field. */
  lemma SettingsByField(c: SliceConfig)
    ensures ExpectedSetting(c, LayerHeight) == NumberSetting(c.layerHeight)
    ensures ExpectedSetting(c, FillDensity) == if c.infill.Some? then Some(Percent(c.infill.value)) else None
    ensures ExpectedSetting(c, Perimeters) == NumberSetting(c.walls)
    ensures ExpectedSetting(c, SupportMaterial) == if c.supports.Some? then Some(Number(if c.supports.value then 1.0 else 0.0)) else None
    ensures ExpectedSetting(c, SpeedPrint) == NumberSetting(c.speed)
    ensures ExpectedSetting(c, SpeedTravel) == if c.speed.Some? then Some(Number(c.speed.value * 2.0)) else None
    ensures ExpectedSetting(c, NozzleDiameter) == NumberSetting(c.nozzleDiameter)
    ensures ExpectedSetting(c, BrimWidth) == WhenTrue(c.brim, 5.0)
    ensures ExpectedSetting(c, RaftLayers) == WhenTrue(c.raft, 3.0)
  {
  }

  /** The overrides are those of the key list `OverrideKeys`. */
  lemma OverridesOfKeyList(c: SliceConfig)
    ensures ParameterOverrides(c) == Emit(c, OverrideKeys)
  {
    var ks := OverrideKeys;
    assert ks[0] == LayerHeight && ks[1] == FillDensity && ks[2] == Perimeters;
    assert ks[3] == SupportMaterial && ks[4] == SpeedPrint && ks[5] == SpeedTravel;
    assert ks[6] == NozzleDiameter && ks[7] == BrimWidth && ks[8] == RaftLayers;
    EmitNine(c, ks);
  }

  /** `buildParameterOverrides`: one push per defined field. */
  method BuildParameterOverrides(c: SliceConfig) returns (overrides: seq<Override>)
    ensures overrides == ParameterOverrides(c)
  {
    overrides := [];
    ghost var before := overrides;
    if c.layerHeight.Some? {
      overrides := overrides + [Override(LayerHeight, Number(c.layerHeight.value))];
    }
    assert overrides == Push(before, LayerHeight, NumberSetting(c.layerHeight));
    before := overrides;
    if c.infill.Some? {
      overrides := overrides + [Override(FillDensity, Percent(c.infill.value))];
    }
    assert overrides == Push(before, FillDensity, (if c.infill.Some? then Some(Percent(c.infill.value)) else None));
    before := overrides;
    if c.walls.Some? {
      overrides := overrides + [Override(Perimeters, Number(c.walls.value))];
    }
    assert overrides == Push(before, Perimeters, NumberSetting(c.walls));
    before := overrides;
    if c.supports.Some? {
      overrides := overrides + [Override(SupportMaterial, Number(if c.supports.value then 1.0 else 0.0))];
    }
    assert overrides == Push(before, SupportMaterial, (if c.supports.Some? then Some(Number(if c.supports.value then 1.0 else 0.0)) else None));
    before := overrides;
    if c.speed.Some? {
      overrides := overrides + [Override(SpeedPrint, Number(c.speed.value))];
      overrides := overrides + [Override(SpeedTravel, Number(c.speed.value * 2.0))];
    }
    assert overrides == Push(Push(before, SpeedPrint, NumberSetting(c.speed)), SpeedTravel, (if c.speed.Some? then Some(Number(c.speed.value * 2.0)) else None));
    before := overrides;
    if c.nozzleDiameter.Some? {
      overrides := overrides + [Override(NozzleDiameter, Number(c.nozzleDiameter.value))];
    }
    assert overrides == Push(before, NozzleDiameter, NumberSetting(c.nozzleDiameter));
    before := overrides;
    if c.brim.Some? && c.brim.value {
      overrides := overrides + [Override(BrimWidth, Number(5.0))];
    }
    assert overrides == Push(before, BrimWidth, WhenTrue(c.brim, 5.0));
    before := overrides;
    if c.raft.Some? && c.raft.value {
      overrides := overrides + [Override(RaftLayers, Number(3.0))];
    }
    assert overrides == Push(before, RaftLayers, WhenTrue(c.raft, 3.0));
    SettingsByField(c);
  }

  /** The value of the first override for `key`. */
  function Lookup(ov: seq<Override>, key: Key): Option<Setting>
  {
    if ov == [] then None
    else if ov[0].key == key then Some(ov[0].value)
    else Lookup(ov[1..], key)
  }

  /** The first override for a key is found in the front part if it has one. */
  lemma {:induction false} LookupAppend(a: seq<Override>, b: seq<Override>, key: Key)
    ensures Lookup(a + b, key) == if Lookup(a, key).Some? then Lookup(a, key) else Lookup(b, key)
  {
    if a != [] {
      assert (a + b)[1..] == a[1..] + b;
      LookupAppend(a[1..], b, key);
    } else {
      assert a + b == b;
    }
  }

  /** Every key in `keys` receives exactly the override its field dictates,
      and no other key receives one. */
  lemma {:induction false} EmitLookup(c: SliceConfig, keys: seq<Key>, key: Key)
    ensures Lookup(Emit(c, keys), key) == if key in keys then ExpectedSetting(c, key) else None
  {
    if keys != [] {
      var init, last := keys[..|keys| - 1], keys[|keys| - 1];
      EmitLookup(c, init, key);
      assert key in keys <==> key in init || key == last;
      if ExpectedSetting(c, last).Some? {
        var o := [Override(last, ExpectedSetting(c, last).value)];
        LookupAppend(Emit(c, init), o, key);
        assert o[1..] == [];
      }
    }
  }

  /** Strictly increasing in `Rank`. */
  predicate Ascending(ks: seq<Key>)
  {
    forall i, j | 0 <= i < j < |ks| :: Rank(ks[i]) < Rank(ks[j])
  }

  function Keys(ov: seq<Override>): (r: seq<Key>)
    ensures |r| == |ov| && forall k | 0 <= k < |ov| :: r[k] == ov[k].key
  {
    seq(|ov|, k requires 0 <= k < |ov| => ov[k].key)
  }

  /** Every emitted override belongs to one of the keys. */
  lemma {:induction false} EmitKeysAmong(c: SliceConfig, keys: seq<Key>)
    ensures forall o | o in Emit(c, keys) :: o.key in keys
  {
    if keys != [] {
      var init := keys[..|keys| - 1];
      EmitKeysAmong(c, init);
      forall o | o in Emit(c, keys)
        ensures o.key in keys
      {
        if o in Emit(c, init) {
          var m :| 0 <= m < |init| && init[m] == o.key;
          assert keys[m] == o.key;
        }
      }
    }
  }

  /** Ascending keys give ascending overrides. */
  lemma {:induction false} EmitAscending(c: SliceConfig, keys: seq<Key>)
    requires Ascending(keys)
    ensures Ascending(Keys(Emit(c, keys)))
  {
    if keys != [] {
      var init, last := keys[..|keys| - 1], keys[|keys| - 1];
      assert Ascending(init) by {
        forall i, j | 0 <= i < j < |init|
          ensures Rank(init[i]) < Rank(init[j])
        {
          assert init[i] == keys[i] && init[j] == keys[j];
        }
      }
      EmitAscending(c, init);
      EmitKeysAmong(c, init);
      var front := Emit(c, init);
      if ExpectedSetting(c, last).Some? {
        var ks := Keys(Emit(c, keys));
        forall i, j | 0 <= i < j < |ks|
          ensures Rank(ks[i]) < Rank(ks[j])
        {
          assert ks[i] == front[i].key;
          if j == |ks| - 1 {
            assert ks[j] == last;
            assert front[i] in front;
            var m :| 0 <= m < |init| && init[m] == ks[i];
            assert keys[m] == ks[i];
          } else {
            assert ks[j] == front[j].key;
            assert Keys(front)[i] == ks[i] && Keys(front)[j] == ks[j];
          }
        }
      } else {
        assert Emit(c, keys) == front;
      }
    }
  }

  /** The overrides come in the fixed order layer_height, fill_density,
      perimeters, support_material, speed_print, speed_travel,
      nozzle_diameter, brim_width, raft_layers, each key at most once. */
  lemma OverridesFixedOrder(c: SliceConfig)
    ensures Ascending(Keys(ParameterOverrides(c)))
  {
    var ov := ParameterOverrides(c);
    OverridesOfKeyList(c);
    EmitAscending(c, OverrideKeys);
    assert Keys(ov) == Keys(Emit(c, OverrideKeys));
  }

  /** Each key's override carries the value its field dictates, and a key
      without one has none. */
  lemma OverrideValues(c: SliceConfig, key: Key)
    ensures Lookup(ParameterOverrides(c), key) == ExpectedSetting(c, key)
  {
    var ov := ParameterOverrides(c);
    OverridesOfKeyList(c);
    EmitLookup(c, OverrideKeys, key);
    assert key in OverrideKeys by {
      match key
      case LayerHeight => assert OverrideKeys[0] == key;
      case FillDensity => assert OverrideKeys[1] == key;
      case Perimeters => assert OverrideKeys[2] == key;
      case SupportMaterial => assert OverrideKeys[3] == key;
      case SpeedPrint => assert OverrideKeys[4] == key;
      case SpeedTravel => assert OverrideKeys[5] == key;
      case NozzleDiameter => assert OverrideKeys[6] == key;
      case BrimWidth => assert OverrideKeys[7] == key;
      case RaftLayers => assert OverrideKeys[8] == key;
    }
    assert Lookup(ov, key) == Lookup(Emit(c, OverrideKeys), key);
  }

  /** A defined speed yields the print speed and twice it as travel speed;
      an undefined one neither. */
  lemma SpeedOverrides(c: SliceConfig)
    ensures c.speed.Some? ==> Lookup(ParameterOverrides(c), SpeedPrint) == Some(Number(c.speed.value))
    ensures c.speed.Some? ==> Lookup(ParameterOverrides(c), SpeedTravel) == Some(Number(2.0 * c.speed.value))
    ensures c.speed.None? ==> Lookup(ParameterOverrides(c), SpeedPrint).None?
    ensures c.speed.None? ==> Lookup(ParameterOverrides(c), SpeedTravel).None?
  {
    OverrideValues(c, SpeedPrint);
    OverrideValues(c, SpeedTravel);
  }

  // ---------------------------------------------------------------------
  // Command line

  const LoadProfileArg := "--load " + ProfilesPath + "/test_config.ini"

  /** `--scale` is added only for a truthy scale. */
  function ScaleParts(c: SliceConfig): seq<Part>
  {
    if c.scale.Some? && c.scale.value != 0.0 then [ScaleTo(c.scale.value)] else []
  }

  function OverrideParts(ov: seq<Override>): (r: seq<Part>)
    ensures |r| == |ov| && forall k | 0 <= k < |ov| :: r[k] == Set(ov[k])
  {
    seq(|ov|, k requires 0 <= k < |ov| => Set(ov[k]))
  }

  /** `buildSlicingCommand`: the slicer, the export flag and the profile,
      then the optional scale and the overrides, then input and output. */
  method BuildSlicingCommand(inputPath: string, outputPath: string, c: SliceConfig) returns (parts: seq<Part>)
    ensures parts == [Word(PrusaSlicerCmd), Word("--export-gcode"), Word(LoadProfileArg)]
      + ScaleParts(c) + OverrideParts(ParameterOverrides(c))
      + [Word(inputPath), Word("-o " + outputPath)]
  {
    parts := [Word(PrusaSlicerCmd), Word("--export-gcode"), Word(LoadProfileArg)];
    if c.scale.Some? && c.scale.value != 0.0 {
      parts := parts + [ScaleTo(c.scale.value)];
    }
    var overrides := BuildParameterOverrides(c);
    parts := parts + OverrideParts(overrides);
    parts := parts + [Word(inputPath)];
    parts := parts + [Word("-o " + outputPath)];
  }

  // ---------------------------------------------------------------------
  // Reading the G-code

  /** `(\d+)m\s*(\d+)s` tried at position `i`. */
  function MsAt(s: string, i: nat): Option<(nat, nat)>
    requires i <= |s|
  {
    var c := RunEnd(s, i, IsDigit);
    if c == i || c == |s| || s[c] != 'm' then None
    else
      var d := RunEnd(s, c + 1, IsSpace);
      var e := RunEnd(s, d, IsDigit);
      if e == d || e == |s| || s[e] != 's' then None
      else Some((DigitsValue(s[i..c]), DigitsValue(s[d..e])))
  }

  /** `(\d+)h\s*(\d+)m\s*(\d+)s` tried at position `i`: hours, `h`, spaces,
      then the minutes pattern. Neither `\s*` nor `\d+` can give characters
      back to its neighbour, so the greedy runs decide the match. */
  function HmsAt(s: string, i: nat): Option<(nat, nat, nat)>
    requires i <= |s|
  {
    var a := RunEnd(s, i, IsDigit);
    if a == i || a == |s| || s[a] != 'h' then None
    else
      var b := RunEnd(s, a + 1, IsSpace);
      match MsAt(s, b)
      case Some((m, sec)) => Some((DigitsValue(s[i..a]), m, sec))
      case None => None
  }

  /** The leftmost match of the hours pattern at or after `i`. */
  function FirstHms(s: string, i: nat): Option<(nat, nat, nat)>
    requires i <= |s|
    decreases |s| - i
  {
    if HmsAt(s, i).Some? then HmsAt(s, i)
    else if i == |s| then None
    else FirstHms(s, i + 1)
  }

  /** The leftmost match of the minutes pattern at or after `i`. */
  function FirstMs(s: string, i: nat): Option<(nat, nat)>
    requires i <= |s|
    decreases |s| - i
  {
    if MsAt(s, i).Some? then MsAt(s, i)
    else if i == |s| then None
    else FirstMs(s, i + 1)
  }

  const TimeMarker := "; estimated printing time"
  const LengthMarker := "; filament used [mm]"
  const WeightMarker := "; filament used [g]"

  /** The seconds the time patterns read from a line: from `Hh Mm Ss` when
      that matches anywhere, otherwise from `Mm Ss`. */
  function TimeMatch(line: string): Option<nat>
  {
    var hms := FirstHms(line, 0);
    if hms.Some? then Some(hms.value.0 * 3600 + hms.value.1 * 60 + hms.value.2)
    else
      var ms := FirstMs(line, 0);
      if ms.Some? then Some(ms.value.0 * 60 + ms.value.1) else None
  }

  /** The print time an `estimated printing time` line gives. */
  function TimeOfLine(line: string): (r: Option<nat>)
    ensures r.Some? ==> Contains(line, TimeMarker)
  {
    if Contains(line, TimeMarker) then TimeMatch(line) else None
  }

  /** `=\s*([\d.]+)` tried at position `i`: the captured literal. */
  function AssignmentAt(s: string, i: nat): Option<string>
    requires i <= |s|
  {
    if i == |s| || s[i] != '=' then None
    else
      var j := RunEnd(s, i + 1, IsSpace);
      var k := RunEnd(s, j, IsDecimalChar);
      if k == j then None else Some(s[j..k])
  }

  /** The leftmost match of the assignment pattern at or after `i`. */
  function FirstAssignment(s: string, i: nat): Option<string>
    requires i <= |s|
    decreases |s| - i
  {
    if AssignmentAt(s, i).Some? then AssignmentAt(s, i)
    else if i == |s| then None
    else FirstAssignment(s, i + 1)
  }

  /** `parseFloat` of the value assigned on a line mentioning `marker`. */
  function MarkedValue(line: string, marker: string): Option<JsNumber>
  {
    if !Contains(line, marker) then None
    else match FirstAssignment(line, 0)
      case Some(lit) => Some(ParseFloat(lit))
      case None => None
  }

  function LengthOfLine(line: string): Option<JsNumber>
  {
    MarkedValue(line, LengthMarker)
  }

  function WeightOfLine(line: string): Option<JsNumber>
  {
    MarkedValue(line, WeightMarker)
  }

  predicate IsLayerLine(line: string)
  {
    ";LAYER:" <= line || "; layer " <= line
  }

  /** What the last line for which `f` gives a value gives. */
  function LastOf<T>(ls: seq<string>, f: string -> Option<T>): Option<T>
  {
    if ls == [] then None
    else if f(ls[|ls| - 1]).Some? then f(ls[|ls| - 1])
    else LastOf(ls[..|ls| - 1], f)
  }

  function CountLayerLines(ls: seq<string>): nat
  {
    if ls == [] then 0
    else CountLayerLines(ls[..|ls| - 1]) + (if IsLayerLine(ls[|ls| - 1]) then 1 else 0)
  }

  datatype GCodeMetadata = GCodeMetadata(printTime: nat, filamentUsed: JsNumber, layerCount: nat)

  /** Grams as the wrapper reports them before rounding: the `[g]` value
      unless it is 0, in which case a positive `[mm]` length is converted. */
  function FilamentGrams(grams: JsNumber, length: JsNumber): JsNumber
  {
    if IsZero(grams) && Greater(length, Finite(0.0)) then Finite(Grams(length.v, PlaDensity)) else grams
  }

  /** The four values `parseGCode` keeps while it reads the lines. */
  datatype Tally = Tally(printTime: nat, filamentUsed: JsNumber, layerCount: nat, filamentLength: JsNumber)

  /** What one line does to the tally: each kind of line it is overrides the
      matching value, and a layer line counts one more layer. */
  function ScanLine(t: Tally, line: string): Tally
  {
    var time := TimeOfLine(line);
    var length := LengthOfLine(line);
    var weight := WeightOfLine(line);
    Tally(if time.Some? then time.value else t.printTime,
          if weight.Some? then weight.value else t.filamentUsed,
          t.layerCount + if IsLayerLine(line) then 1 else 0,
          if length.Some? then length.value else t.filamentLength)
  }

  /** The tally after reading the lines in order, starting from all zeros. */
  function Scan(ls: seq<string>): (t: Tally)
    ensures t.layerCount <= |ls|
  {
    if ls == [] then Tally(0, Finite(0.0), 0, Finite(0.0))
    else ScanLine(Scan(ls[..|ls| - 1]), ls[|ls| - 1])
  }

  /** What `parseGCode` returns for a G-code text. */
  function MetadataOf(gcode: string): (m: GCodeMetadata)
    ensures m.layerCount <= |Lines(gcode)|
    ensures m.printTime == Scan(Lines(gcode)).printTime && m.layerCount == Scan(Lines(gcode)).layerCount
  {
    var t := Scan(Lines(gcode));
    GCodeMetadata(t.printTime, RoundTo2(FilamentGrams(t.filamentUsed, t.filamentLength)), t.layerCount)
  }

  lemma ScanStep(ls: seq<string>, i: nat)
    requires i < |ls|
    ensures Scan(ls[..i + 1]) == ScanLine(Scan(ls[..i]), ls[i])
  {
    assert ls[..i + 1][..i] == ls[..i];
  }

  /** The volume computation of the weight fallback gives the filament's
      grams at PLA density. */
  lemma VolumeGrams(mm: real)
    ensures mm * Pi * Radius * Radius / 1000.0 * PlaDensity == Grams(mm, PlaDensity)
  {
    calc {
      mm * Pi * Radius * Radius / 1000.0 * PlaDensity;
      (mm * (Pi * Radius * Radius)) / 1000.0 * PlaDensity;
      mm * (Pi * Radius * Radius / 1000.0) * PlaDensity;
      mm * Cm3PerMm * PlaDensity;
    }
  }

  /** `parseGCode`: one pass over the lines, then the weight fallback. */
  method ParseGCode(gcode: string) returns (meta: GCodeMetadata)
    ensures meta == MetadataOf(gcode)
  {
    var lines := Lines(gcode);
    var printTime: nat := 0;
    var filamentUsed := Finite(0.0);
    var layerCount: nat := 0;
    var filamentLength := Finite(0.0);
    var i := 0;
    while i < |lines|
      invariant 0 <= i <= |lines|
      invariant Tally(printTime, filamentUsed, layerCount, filamentLength) == Scan(lines[..i])
    {
      var line := lines[i];
      // The time line: `Hh Mm Ss`, else `Mm Ss`.
      var time := TimeOfLine(line);
      if time.Some? {
        printTime := time.value;
      }
      var length := LengthOfLine(line);
      if length.Some? {
        filamentLength := length.value;
      }
      var weight := WeightOfLine(line);
      if weight.Some? {
        filamentUsed := weight.value;
      }
      if IsLayerLine(line) {
        layerCount := layerCount + 1;
      }
      ScanStep(lines, i);
      i := i + 1;
    }
    assert lines[..|lines|] == lines;
    ghost var grams := FilamentGrams(filamentUsed, filamentLength);
    if filamentUsed == Finite(0.0) && filamentLength.Finite? && filamentLength.v > 0.0 {
      var volumeMm3 := filamentLength.v * Pi * Radius * Radius;
      var volumeCm3 := volumeMm3 / 1000.0;
      filamentUsed := Finite(volumeCm3 * PlaDensity);
      VolumeGrams(filamentLength.v);
    }
    assert filamentUsed == grams;
    meta := GCodeMetadata(printTime, RoundTo2(filamentUsed), layerCount);
  }

  /** The tally's values are those of the last line giving each of them, and
      the number of layer lines. */
  lemma {:induction false} ScanValues(ls: seq<string>)
    ensures Scan(ls).printTime == OrElse(LastOf(ls, TimeOfLine), 0)
    ensures Scan(ls).filamentUsed == OrElse(LastOf(ls, WeightOfLine), Finite(0.0))
    ensures Scan(ls).filamentLength == OrElse(LastOf(ls, LengthOfLine), Finite(0.0))
    ensures Scan(ls).layerCount == CountLayerLines(ls)
  {
    if ls != [] {
      ScanValues(ls[..|ls| - 1]);
    }
  }

  /** A later line overrides every earlier one: the value reported is that of
      the last line that gives one, and there is none exactly when no line
      gives one. */
  lemma {:induction false} LastOfIsLast<T>(ls: seq<string>, f: string -> Option<T>)
    ensures LastOf(ls, f).None? <==> forall i | 0 <= i < |ls| :: f(ls[i]).None?
    ensures LastOf(ls, f).Some? ==> exists i | 0 <= i < |ls| ::
      f(ls[i]) == LastOf(ls, f) && forall j | i < j < |ls| :: f(ls[j]).None?
  {
    if ls != [] {
      var init := ls[..|ls| - 1];
      LastOfIsLast(init, f);
      assert forall i | 0 <= i < |init| :: ls[i] == init[i];
      if f(ls[|ls| - 1]).None? && LastOf(init, f).Some? {
        var i :| 0 <= i < |init| && f(init[i]) == LastOf(init, f)
          && forall j | i < j < |init| :: f(init[j]).None?;
        assert f(ls[i]) == LastOf(ls, f);
      }
    }
  }

  /** The layer count is the number of lines marking a layer. */
  lemma {:induction false} LayerCountBounded(ls: seq<string>)
    ensures CountLayerLines(ls) <= |ls|
    ensures CountLayerLines(ls) == 0 <==> forall i | 0 <= i < |ls| :: !IsLayerLine(ls[i])
    ensures CountLayerLines(ls) == |ls| <==> forall i | 0 <= i < |ls| :: IsLayerLine(ls[i])
  {
    if ls != [] {
      var init := ls[..|ls| - 1];
      LayerCountBounded(init);
      assert forall i | 0 <= i < |init| :: ls[i] == init[i];
    }
  }

  /** No match starts before position `j` when none can start at any of those
      positions. */
  lemma {:induction false} FirstHmsSkip(s: string, i: nat, j: nat)
    requires i <= j <= |s|
    requires forall k | i <= k < j :: HmsAt(s, k).None?
    ensures FirstHms(s, i) == FirstHms(s, j)
    decreases j - i
  {
    if i < j {
      FirstHmsSkip(s, i + 1, j);
    }
  }

  lemma {:induction false} FirstMsSkip(s: string, i: nat, j: nat)
    requires i <= j <= |s|
    requires forall k | i <= k < j :: MsAt(s, k).None?
    ensures FirstMs(s, i) == FirstMs(s, j)
    decreases j - i
  {
    if i < j {
      FirstMsSkip(s, i + 1, j);
    }
  }

  lemma {:induction false} FirstAssignmentSkip(s: string, i: nat, j: nat)
    requires i <= j <= |s|
    requires forall k | i <= k < j :: s[k] != '='
    ensures FirstAssignment(s, i) == FirstAssignment(s, j)
    decreases j - i
  {
    if i < j {
      FirstAssignmentSkip(s, i + 1, j);
    }
  }

  /** The hours pattern needs an `h`. */
  lemma {:induction false} FirstHmsNeedsH(s: string, i: nat)
    requires i <= |s| && 'h' !in s
    ensures FirstHms(s, i).None?
    decreases |s| - i
  {
    if i < |s| {
      FirstHmsNeedsH(s, i + 1);
    }
  }

  /** No pattern starting with a digit matches at a non-digit. */
  lemma NoMatchAtNonDigit(s: string, k: nat)
    requires k < |s| && !IsDigit(s[k])
    ensures HmsAt(s, k).None? && MsAt(s, k).None?
  {
    RunEndAt(s, k, k, IsDigit);
  }

  /** The minutes pattern at a position where its three greedy runs end as
      `M m␣S s` requires. */
  lemma MsAtFromRuns(s: string, i: nat, c: nat, e: nat)
    requires i < c < |s| && c + 2 < e < |s|
    requires RunEnd(s, i, IsDigit) == c && s[c] == 'm'
    requires RunEnd(s, c + 1, IsSpace) == c + 2
    requires RunEnd(s, c + 2, IsDigit) == e && s[e] == 's'
    ensures MsAt(s, i) == Some((DigitsValue(s[i..c]), DigitsValue(s[c + 2..e])))
  {
  }

  /** The hours pattern at a position where its greedy runs end as `H h␣`
      requires and the minutes pattern matches after the space. */
  lemma HmsAtFromRuns(s: string, i: nat, a: nat)
    requires i < a && a + 2 <= |s|
    requires RunEnd(s, i, IsDigit) == a && s[a] == 'h'
    requires RunEnd(s, a + 1, IsSpace) == a + 2
    requires MsAt(s, a + 2).Some?
    ensures HmsAt(s, i) == Some((DigitsValue(s[i..a]), MsAt(s, a + 2).value.0, MsAt(s, a + 2).value.1))
  {
  }

  /** A line laid out from position `i` as `M m␣S s`, where `M` and `S` are
      runs of digits ending at `c` and `e`. */
  predicate MsLayout(s: string, i: nat, c: nat, e: nat)
  {
    i < c && c + 2 < e < |s|
    && (forall k | i <= k < c :: IsDigit(s[k]))
    && s[c] == 'm' && s[c + 1] == ' '
    && (forall k | c + 2 <= k < e :: IsDigit(s[k]))
    && s[e] == 's'
  }

  /** A line laid out from position `i` as `H h␣M m␣S s`. */
  predicate HmsLayout(s: string, i: nat, a: nat, c: nat, e: nat)
  {
    i < a && MsLayout(s, a + 2, c, e)
    && (forall k | i <= k < a :: IsDigit(s[k]))
    && s[a] == 'h' && s[a + 1] == ' '
  }

  /** The minutes pattern reads the two numbers of an `M m␣S s` layout. */
  lemma MsAtIntro(s: string, i: nat, c: nat, e: nat)
    requires MsLayout(s, i, c, e)
    ensures MsAt(s, i) == Some((DigitsValue(s[i..c]), DigitsValue(s[c + 2..e])))
  {
    RunEndAt(s, i, c, IsDigit);
    RunEndAt(s, c + 1, c + 2, IsSpace);
    RunEndAt(s, c + 2, e, IsDigit);
    MsAtFromRuns(s, i, c, e);
  }

  /** The hours pattern reads the three numbers of an `H h␣M m␣S s` layout. */
  lemma HmsAtIntro(s: string, i: nat, a: nat, c: nat, e: nat)
    requires HmsLayout(s, i, a, c, e)
    ensures HmsAt(s, i) == Some((DigitsValue(s[i..a]), DigitsValue(s[a + 2..c]), DigitsValue(s[c + 2..e])))
  {
    RunEndAt(s, i, a, IsDigit);
    RunEndAt(s, a + 1, a + 2, IsSpace);
    MsAtIntro(s, a + 2, c, e);
    HmsAtFromRuns(s, i, a);
  }

  predicate NoDigitsBefore(s: string, p: nat)
  {
    forall k | 0 <= k < p && k < |s| :: !IsDigit(s[k])
  }

  /** Before the first digit of a line no match of either pattern starts. */
  lemma FirstMatchesAt(line: string, p: nat)
    requires p <= |line| && NoDigitsBefore(line, p)
    ensures FirstHms(line, 0) == FirstHms(line, p)
    ensures FirstMs(line, 0) == FirstMs(line, p)
  {
    forall k | 0 <= k < p
      ensures HmsAt(line, k).None? && MsAt(line, k).None?
    {
      NoMatchAtNonDigit(line, k);
    }
    FirstHmsSkip(line, 0, p);
    FirstMsSkip(line, 0, p);
  }

  /** A line whose first digit starts an `H h␣M m␣S s` layout reads as
      H·3600 + M·60 + S seconds. */
  lemma HmsLineTime(line: string, p: nat, a: nat, c: nat, e: nat)
    requires NoDigitsBefore(line, p) && HmsLayout(line, p, a, c, e)
    ensures TimeMatch(line) == Some(DigitsValue(line[p..a]) * 3600 + DigitsValue(line[a + 2..c]) * 60 + DigitsValue(line[c + 2..e]))
  {
    HmsAtIntro(line, p, a, c, e);
    FirstMatchesAt(line, p);
    assert FirstHms(line, p) == HmsAt(line, p);
  }

  /** A line without any `h` whose first digit starts an `M m␣S s` layout
      reads as M·60 + S seconds. */
  lemma MsLineTime(line: string, p: nat, c: nat, e: nat)
    requires NoDigitsBefore(line, p) && 'h' !in line && MsLayout(line, p, c, e)
    ensures TimeMatch(line) == Some(DigitsValue(line[p..c]) * 60 + DigitsValue(line[c + 2..e]))
  {
    FirstHmsNeedsH(line, 0);
    MsAtIntro(line, p, c, e);
    FirstMatchesAt(line, p);
    assert FirstMs(line, p) == MsAt(line, p);
  }

  /** A line mentioning `marker` whose first `=` is followed by one space and
      digits up to the end of the line gives the number those digits spell. */
  lemma AssignedValue(line: string, marker: string, p: nat)
    requires Contains(line, marker)
    requires p + 2 < |line| && line[p] == '=' && line[p + 1] == ' '
    requires forall k | 0 <= k < p :: line[k] != '='
    requires forall k | p + 2 <= k < |line| :: IsDigit(line[k])
    ensures MarkedValue(line, marker) == Some(Finite(DigitsValue(line[p + 2..]) as real))
  {
    FirstAssignmentSkip(line, 0, p);
    RunEndAt(line, p + 1, p + 2, IsSpace);
    RunEndAt(line, p + 2, |line|, IsDecimalChar);
    assert line[p + 2..|line|] == line[p + 2..];
    assert AssignmentAt(line, p) == Some(line[p + 2..]);
    assert FirstAssignment(line, 0) == Some(line[p + 2..]);
    ParseDigits(line[p + 2..]);
  }

  /** The `[g]` value wins unless it is 0; only then does a positive `[mm]`
      length stand in for it, giving a positive weight. */
  lemma FilamentGramsChoice(grams: JsNumber, length: JsNumber)
    ensures !IsZero(grams) ==> FilamentGrams(grams, length) == grams
    ensures IsZero(grams) && !Greater(length, Finite(0.0)) ==> FilamentGrams(grams, length) == Finite(0.0)
    ensures IsZero(grams) && Greater(length, Finite(0.0)) ==> FilamentGrams(grams, length).Finite? && FilamentGrams(grams, length).v > 0.0
  {
  }

  // ---------------------------------------------------------------------
  // Slicing with temporary files

  datatype SliceStats = SliceStats(time: nat, material: JsNumber, layers: nat)

  function StatsOf(m: GCodeMetadata): SliceStats
  {
    SliceStats(m.printTime, m.filamentUsed, m.layerCount)
  }

  function StlPath(tempId: nat): string
  {
    ModelsPath + "/model_" + NatToString(tempId) + ".stl"
  }

  function GcodePath(tempId: nat): string
  {
    OutputPath + "/output_" + NatToString(tempId) + ".gcode"
  }

  /** The model and the G-code live in different directories. */
  lemma TempPathsDiffer(tempId: nat)
    ensures StlPath(tempId) != GcodePath(tempId)
  {
    var i := |BasePath| + 1;
    assert StlPath(tempId)[i] == 'm';
    assert GcodePath(tempId)[i] == 'o';
  }

  /** The paths a list names. */
  function Members(paths: seq<string>): (r: set<string>)
    ensures forall p :: p in r <==> p in paths
  {
    if paths == [] then {} else Members(paths[..|paths| - 1]) + {paths[|paths| - 1]}
  }

  /** `cleanup`: unlinks each file and ignores every failure, so a file
      that cannot be removed does not keep the later ones. `stuck` are the
      paths whose unlink fails for another reason than a missing file. */
  method Cleanup(fs: FileSystem, paths: seq<string>, stuck: set<string>)
    modifies fs
    ensures fs.files == old(fs.files) - (Members(paths) - stuck)
    ensures fs.dirs == old(fs.dirs)
  {
    var i := 0;
    while i < |paths|
      invariant 0 <= i <= |paths|
      invariant fs.files == old(fs.files) - (Members(paths[..i]) - stuck)
      invariant fs.dirs == old(fs.dirs)
    {
      var _ := fs.Unlink(paths[i], paths[i] in stuck);
      assert paths[..i + 1][..i] == paths[..i];
      i := i + 1;
    }
    assert paths[..i] == paths;
  }

  /** `slice`: write the model, run the slicer, read and parse the G-code.
      Both temporary files are gone afterwards, on success and on failure.
      `tempId` stands for `Date.now()` and `writeFails` for an I/O error. The
      G-code is read back when the slicer wrote it, or when a file of that
      name was already there. `stuck` are the paths whose unlink fails: they
      stay, and nothing else differs from before. */
  method Slice(fs: FileSystem, stl: string, config: SliceConfig, tempId: nat, writeFails: bool, exec: ExecOutcome,
               stuck: set<string>)
    returns (r: Result<SliceStats, string>)
    modifies fs
    ensures fs.files - {StlPath(tempId), GcodePath(tempId)} == old(fs.files) - {StlPath(tempId), GcodePath(tempId)}
    ensures StlPath(tempId) !in stuck ==> StlPath(tempId) !in fs.files
    ensures GcodePath(tempId) !in stuck ==> GcodePath(tempId) !in fs.files
    ensures stuck == {} ==> fs.files == old(fs.files) - {StlPath(tempId), GcodePath(tempId)}
    ensures fs.dirs == old(fs.dirs)
    ensures r.Ok? <==> !writeFails && exec.Ran? && (exec.gcode.Some? || GcodePath(tempId) in old(fs.files))
    ensures r.Ok? && exec.gcode.Some? ==> r.value == StatsOf(MetadataOf(exec.gcode.value))
    ensures !writeFails && exec.Failed? ==> r == Err(exec.message)
  {
    TempPathsDiffer(tempId);
    r := SliceAt(fs, stl, config, StlPath(tempId), GcodePath(tempId), writeFails, exec, stuck);
  }

  /** The body of `slice` once the two temporary paths are chosen. */
  method SliceAt(fs: FileSystem, stl: string, config: SliceConfig, stlPath: string, gcodePath: string,
                 writeFails: bool, exec: ExecOutcome, stuck: set<string>)
    returns (r: Result<SliceStats, string>)
    requires stlPath != gcodePath
    modifies fs
    ensures fs.files - {stlPath, gcodePath} == old(fs.files) - {stlPath, gcodePath}
    ensures stlPath !in stuck ==> stlPath !in fs.files
    ensures gcodePath !in stuck ==> gcodePath !in fs.files
    ensures stuck == {} ==> fs.files == old(fs.files) - {stlPath, gcodePath}
    ensures fs.dirs == old(fs.dirs)
    ensures r.Ok? <==> !writeFails && exec.Ran? && (exec.gcode.Some? || gcodePath in old(fs.files))
    ensures r.Ok? && exec.gcode.Some? ==> r.value == StatsOf(MetadataOf(exec.gcode.value))
    ensures !writeFails && exec.Failed? ==> r == Err(exec.message)
  {
    ghost var temps := {stlPath, gcodePath};
    assert Members([stlPath, gcodePath]) == temps;
    var written := fs.WriteFile(stlPath, stl, writeFails);
    if !written {
      ghost var before := fs.files;
      Cleanup(fs, [stlPath, gcodePath], stuck);
      RemoveThenRemove(before, temps - stuck, temps);
      return Err("cannot write " + stlPath);
    }
    UpdateThenRemove(old(fs.files), stlPath, stl, temps);
    var command := BuildSlicingCommand(stlPath, gcodePath, config);
    if exec.Failed? {
      ghost var before := fs.files;
      Cleanup(fs, [stlPath, gcodePath], stuck);
      RemoveThenRemove(before, temps - stuck, temps);
      return Err(exec.message);
    }
    if exec.gcode.Some? {
      ghost var before := fs.files;
      var _ := fs.WriteFile(gcodePath, exec.gcode.value, false);
      UpdateThenRemove(before, gcodePath, exec.gcode.value, temps);
    }
    assert fs.files - temps == old(fs.files) - temps;
    var gcode := fs.ReadFile(gcodePath);
    if gcode.Err? {
      ghost var before := fs.files;
      Cleanup(fs, [stlPath, gcodePath], stuck);
      RemoveThenRemove(before, temps - stuck, temps);
      return Err(gcode.error);
    }
    var metadata := ParseGCode(gcode.value);
    ghost var before := fs.files;
    Cleanup(fs, [stlPath, gcodePath], stuck);
    RemoveThenRemove(before, temps - stuck, temps);
    r := Ok(StatsOf(metadata));
  }
}
