/** The print qualities the slicers offer, and the layer height and nozzle
    size each one stands for. The backend KiriMoto wrapper and the browser
    slicing service use the same two tables. */
module Quality {
  import opened Common

  const LayerHeights: map<string, real> := map[
    "nozzle_08" := 0.4, "nozzle_06" := 0.3, "nozzle_04" := 0.2,
    "draft" := 0.3, "standard" := 0.2, "fine" := 0.15, "ultra" := 0.1]

  const NozzleSizes: map<string, real> := map[
    "nozzle_08" := 0.8, "nozzle_06" := 0.6, "nozzle_04" := 0.4,
    "draft" := 0.4, "standard" := 0.4, "fine" := 0.4, "ultra" := 0.4]

  /** `LayerHeights[quality] || 0.2` */
  function LayerHeightOf(quality: string): (h: real)
    ensures 0.1 <= h <= 0.4
  {
    LookupOr(LayerHeights, quality, 0.2)
  }

  /** `NozzleSizes[quality] || 0.4` */
  function NozzleSizeOf(quality: string): (n: real)
    ensures 0.4 <= n <= 0.8
  {
    LookupOr(NozzleSizes, quality, 0.4)
  }

  /** Both tables know the same qualities. */
  lemma SameQualities()
    ensures LayerHeights.Keys == NozzleSizes.Keys
  {
  }

  /** A quality neither table knows is printed like `standard`. */
  lemma UnknownQualityIsStandard(quality: string)
    requires quality !in LayerHeights
    ensures LayerHeightOf(quality) == LayerHeightOf("standard") == 0.2
    ensures NozzleSizeOf(quality) == NozzleSizeOf("standard") == 0.4
  {
    SameQualities();
  }

  /** Every quality lays layers of at most three quarters of the nozzle
      size, the largest ratio being that of `draft`. */
  lemma LayerFitsNozzle(quality: string)
    ensures LayerHeightOf(quality) <= 0.75 * NozzleSizeOf(quality)
    ensures LayerHeightOf(quality) == 0.75 * NozzleSizeOf(quality) <==> quality == "draft"
  {
  }
}
