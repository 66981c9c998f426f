/** The collaborators the render path calls but that are not part of this model: md5,
    Python's string conversions, the ORM tables, the drivers, carto, mapnik, the
    tile-coordinate conversion and the contents of rendered files. Every property of the model
    holds for every choice of them. */
module Collaborators {
  import opened Values
  import opened CacheKey
  import opened MapSpec
  import opened CompileLock

  /** The bytes of a rendered image. */
  type Blob = seq<bv8>

  datatype Env = Env(
    md5: string -> HexDigest,                         // md5(text).hexdigest()
    show: Value -> string,                            // unicode(value)
    showCoord: real -> string,                        // str(coordinate)
    renderedLayers: map<string, RenderedLayer>,       // RenderedLayer.objects, by slug
    styles: map<string, string>,                      // Style.objects: stylesheet text by slug
    ready: (RenderedLayer, Kwargs) -> LayerSpec,      // the layer's driver.ready_data_resource
    carto: Mml -> CartoRun,                           // running carto on the written map document
    draw: (string, nat, nat, seq<real>, string) -> bool, // mapnik load_map/zoom_to_box/render_to_file succeed
    num2deg: (nat, nat, nat) -> (real, real),         // num2deg(x, y, zoom)
    contents: string -> Blob)                         // the bytes of a rendered file
}
