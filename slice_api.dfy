/** The `/api/slice` endpoint of the backend: it normalises the uploaded
    configuration, slices the model with the PrusaSlicer wrapper, and
    answers with the statistics or with an error the client may retry. */
module SliceApi {
  import opened Common
  import opened Workspace
  import Quality
  import PrusaSlicer

  /** The parsed `config` field of the request. `quality`, `material` and
      `layerHeight` are `None` when absent or falsy; the other fields are as
      the PrusaSlicer wrapper reads them (`None` when undefined). */
  datatype RequestConfig = RequestConfig(
    quality: Option<string>,
    material: Option<string>,
    layerHeight: Option<real>,
    infill: Option<real>,
    walls: Option<real>,
    supports: Option<bool>,
    speed: Option<real>,
    nozzleDiameter: Option<real>,
    brim: Option<bool>,
    raft: Option<bool>)

  /** The handler's own quality table. */
  const QualityLayerHeights: map<string, real> := map["draft" := 0.3, "standard" := 0.2, "fine" := 0.15, "ultra" := 0.1]

  /** `config.layerHeight || qualityMap[config.quality] || 0.2` */
  function LayerHeightFor(c: RequestConfig): (h: real)
    ensures c.layerHeight.Some? ==> h == c.layerHeight.value
    ensures c.layerHeight.None? && c.quality.Some? && c.quality.value in QualityLayerHeights ==>
      h == QualityLayerHeights[c.quality.value]
    ensures c.layerHeight.None? && !(c.quality.Some? && c.quality.value in QualityLayerHeights) ==> h == 0.2
    ensures c.layerHeight.None? ==> 0.1 <= h <= 0.3
  {
    if c.layerHeight.Some? then c.layerHeight.value
    else if c.quality.Some? then LookupOr(QualityLayerHeights, c.quality.value, 0.2)
    else 0.2
  }

  /** `slicingConfig`: quality and material default to `standard` and
      `pla`, the layer height is always set, and the remaining fields pass
      through unchanged; no scale is given. */
  function SlicingConfigOf(c: RequestConfig): (r: PrusaSlicer.SliceConfig)
    ensures r.quality == OrElse(c.quality, "standard") && r.material == OrElse(c.material, "pla")
    ensures r.layerHeight == Some(LayerHeightFor(c))
    ensures r.infill == c.infill && r.walls == c.walls && r.supports == c.supports && r.speed == c.speed
    ensures r.nozzleDiameter == c.nozzleDiameter && r.brim == c.brim && r.raft == c.raft
    ensures r.scale.None?
  {
    PrusaSlicer.SliceConfig(
      OrElse(c.quality, "standard"), OrElse(c.material, "pla"), Some(LayerHeightFor(c)),
      c.infill, c.walls, c.supports, c.speed, c.nozzleDiameter, c.brim, c.raft, None)
  }

  /** The handler's table agrees with the quality table of the KiriMoto
      wrappers on the qualities it knows; the `nozzle_*` qualities it does
      not know get 0.2 mm whatever their nozzle. */
  lemma QualityTablesAgree()
    ensures forall q | q in QualityLayerHeights :: q in Quality.LayerHeights && QualityLayerHeights[q] == Quality.LayerHeights[q]
    ensures forall q | q in Quality.LayerHeights && q !in QualityLayerHeights :: q in {"nozzle_08", "nozzle_06", "nozzle_04"}
  {
  }

  /** PrusaSlicer always receives a layer height override: the explicit
      one, else the quality's, else 0.2 mm. */
  lemma LayerHeightAlwaysOverridden(c: RequestConfig)
    ensures PrusaSlicer.Lookup(PrusaSlicer.ParameterOverrides(SlicingConfigOf(c)), PrusaSlicer.LayerHeight)
      == Some(PrusaSlicer.Number(LayerHeightFor(c)))
  {
    PrusaSlicer.OverrideValues(SlicingConfigOf(c), PrusaSlicer.LayerHeight);
  }

  // ---------------------------------------------------------------------
  // The response

  const FailureMessage := "Slicing failed. Please try again or contact support if the problem persists."

  datatype Body =
    | ErrorBody(error: string)
    | SuccessBody(time: nat, material: JsNumber, layers: nat, success: bool, message: string)
    | RetryBody(error: string, retryable: bool, message: string)

  datatype Response = Response(status: nat, body: Body)

  /** The response for the slicer's result: its statistics with `success`,
      or its error with `retryable`. */
  function ResponseOf(r: Result<PrusaSlicer.SliceStats, string>): (resp: Response)
    ensures r.Ok? <==> resp.status == 200
    ensures r.Ok? ==> resp.body == SuccessBody(r.value.time, r.value.material, r.value.layers, true, "Sliced with PrusaSlicer")
    ensures r.Err? ==> resp == Response(500, RetryBody(r.error, true, FailureMessage))
  {
    match r
    case Ok(stats) => Response(200, SuccessBody(stats.time, stats.material, stats.layers, true, "Sliced with PrusaSlicer"))
    case Err(e) => Response(500, RetryBody(e, true, FailureMessage))
  }

  /** The `/api/slice` handler. `file` is the uploaded model, `config` the
      result of parsing the request's configuration (its error when the
      JSON is malformed); the slicer's environment is as for
      `PrusaSlicer.Slice`, `stuck` included. A request without a file is
      refused with 400 before anything else; every other failure is a
      retryable 500. */
  method HandleSlice(fs: FileSystem, file: Option<string>, config: Result<RequestConfig, string>,
                     tempId: nat, writeFails: bool, exec: ExecOutcome, stuck: set<string>)
    returns (resp: Response)
    modifies fs
    ensures fs.dirs == old(fs.dirs)
    ensures file.None? ==> resp == Response(400, ErrorBody("No file uploaded")) && fs.files == old(fs.files)
    ensures file.Some? && config.Err? ==>
      resp == Response(500, RetryBody(config.error, true, FailureMessage)) && fs.files == old(fs.files)
    ensures file.Some? && config.Ok? ==>
      fs.files - {PrusaSlicer.StlPath(tempId), PrusaSlicer.GcodePath(tempId)}
        == old(fs.files) - {PrusaSlicer.StlPath(tempId), PrusaSlicer.GcodePath(tempId)}
    ensures file.Some? && config.Ok? && stuck == {} ==>
      fs.files == old(fs.files) - {PrusaSlicer.StlPath(tempId), PrusaSlicer.GcodePath(tempId)}
    ensures resp.status == 200 <==>
      file.Some? && config.Ok? && !writeFails && exec.Ran?
      && (exec.gcode.Some? || PrusaSlicer.GcodePath(tempId) in old(fs.files))
    ensures resp.status == 200 && exec.gcode.Some? ==>
      var stats := PrusaSlicer.StatsOf(PrusaSlicer.MetadataOf(exec.gcode.value));
      resp.body == SuccessBody(stats.time, stats.material, stats.layers, true, "Sliced with PrusaSlicer")
    ensures resp.status == 200 || resp.status == 400 || (resp.status == 500 && resp.body.RetryBody? && resp.body.retryable)
  {
    if file.None? {
      return Response(400, ErrorBody("No file uploaded"));
    }
    if config.Err? {
      return ResponseOf(Err(config.error));
    }
    var result := PrusaSlicer.Slice(fs, file.value, SlicingConfigOf(config.value), tempId, writeFails, exec, stuck);
    resp := ResponseOf(result);
  }
}
