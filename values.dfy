/** Values shared by the whole render path: keyword-argument values, results and the
    exceptions that the render path raises or swallows. */
module Values {

  datatype Option<+T> = None | Some(value: T)

  datatype Result<+T, +E> = Ok(value: T) | Err(error: E)

  /** A keyword-argument value, as far as the render path looks at it. */
  datatype Value = NoValue | Str(s: string) | StrList(items: seq<string>) | Flag(b: bool)

  /** A `**kwargs` dictionary. */
  type Kwargs = map<string, Value>

  /** The exceptions of the render path. */
  datatype WmsError =
    | DuplicateArgument(name: string)   // TypeError: got multiple values for a keyword argument
    | SublayerUnpack(layer: string)      // ValueError: a layer with more than one '#'
    | LayerNotFound(slug: string)        // RenderedLayer.DoesNotExist
    | StyleNotFound(slug: string)        // Style.DoesNotExist raised while building the map spec
    | CompileFailed(stderr: string)      // RuntimeError raised when carto exits with status 1
    | RenderFailed                       // mapnik could not load the compiled map or draw it
    | Blocked(lock: string)              // waits on a lock that no process will remove
    | TypeError                          // an operand of the wrong Python type
}
