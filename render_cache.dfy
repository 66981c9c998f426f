/** `prepare_wms` and `render`: the cache entry, the reverse index, the compile step and the
    direct-image cache, over the paths that exist and the index database. */
module RenderCache {
  import opened Values
  import opened Strings
  import opened Srs
  import opened CacheKey
  import opened ReverseIndex
  import opened MapSpec
  import opened LayerSpecs
  import opened CompileLock
  import opened Collaborators

  /** The state the render path changes: the paths that exist and the reverse index. */
  datatype HostState = HostState(files: set<string>, index: Index)

  /** The state after a call, and what the call returned or raised. */
  datatype Outcome<T> = Outcome(state: HostState, result: Result<T, WmsError>)

  /** `prepare_wms(layers, srs, styles, **kwargs)`: name the cache entry, register it under
      every style and layer, resolve the layers, compile if the mapfile is missing. */
  function PrepareSpec(s: HostState, mediaRoot: string, order: seq<Field>, layers: seq<string>,
                       srs: string, styles: seq<string>, kwargs: Kwargs, env: Env): Outcome<string>
  {
    match BindPrepareArgs(layers, srs, styles, kwargs)
    case Err(e) => Outcome(s, Err(e))
    case Ok(call) =>
      var name := CacheName(mediaRoot, order, call.fields, env.md5, env.show);
      var registered := HostState(s.files + {CacheDir(mediaRoot)}, Registered(s.index, styles, layers, name));
      PrepareNamed(registered, name, layers, srs, styles, call.extra, env)
  }

  /** The rest of `prepare_wms` once the entry is named and registered: resolve the layers,
      then compile if the mapfile is missing. */
  function PrepareNamed(s: HostState, name: string, layers: seq<string>, srs: string,
                        styles: seq<string>, extra: Kwargs, env: Env): Outcome<string>
  {
    match ResolveLayers(layers, extra, env.renderedLayers, env.ready)
    case Err(e) => Outcome(s, Err(e))
    case Ok(resolved) =>
      var c := CompileStep(s.files, name, CompileMml(srs, styles, resolved.specs, env.styles), env.carto);
      Outcome(HostState(c.files, s.index), if c.raised.Some? then Err(CompileFailed(c.raised.value)) else Ok(name))
  }

  /** The entry `prepare_wms` returns is the md5 hex digest of the five hashed arguments,
      inside the cache directory. */
  lemma PrepareReturnsEntry(s: HostState, mediaRoot: string, order: seq<Field>, layers: seq<string>,
                            srs: string, styles: seq<string>, kwargs: Kwargs, env: Env)
    requires PrepareSpec(s, mediaRoot, order, layers, srs, styles, kwargs, env).result.Ok?
    ensures var name := PrepareSpec(s, mediaRoot, order, layers, srs, styles, kwargs, env).result.value;
            var fields := CacheFields(layers, srs, styles, ArgOrNone(kwargs, "bgcolor"), ArgOrNone(kwargs, "transparent"));
            && name == CacheDir(mediaRoot) + "/" + env.md5(Serialized(order, fields, env.show))
            && StartsWith(name, CacheDir(mediaRoot) + "/")
  {
    var name := PrepareSpec(s, mediaRoot, order, layers, srs, styles, kwargs, env).result.value;
    var prefix := CacheDir(mediaRoot) + "/";
    assert name == prefix + env.md5(Serialized(order, BindPrepareArgs(layers, srs, styles, kwargs).value.fields, env.show));
    assert name[..|prefix|] == prefix;
  }

  /** Repeating `prepare_wms` with the same arguments changes nothing more: the paths and
      the index stay as the first call left them, and unless the first call raised a
      compile error, the second returns what the first did. */
  lemma PrepareIdempotent(s: HostState, mediaRoot: string, order: seq<Field>, layers: seq<string>,
                          srs: string, styles: seq<string>, kwargs: Kwargs, env: Env)
    ensures var first := PrepareSpec(s, mediaRoot, order, layers, srs, styles, kwargs, env);
            var second := PrepareSpec(first.state, mediaRoot, order, layers, srs, styles, kwargs, env);
            && second.state == first.state
            && (!(first.result.Err? && first.result.error.CompileFailed?) ==> second == first)
  {
    var first := PrepareSpec(s, mediaRoot, order, layers, srs, styles, kwargs, env);
    match BindPrepareArgs(layers, srs, styles, kwargs)
    case Err(_) =>
    case Ok(call) =>
      var name := CacheName(mediaRoot, order, call.fields, env.md5, env.show);
      var files := s.files + {CacheDir(mediaRoot)};
      var registered := HostState(files, Registered(s.index, styles, layers, name));
      RegisteredIdempotent(s.index, styles, layers, name);
      assert first == PrepareNamed(registered, name, layers, srs, styles, call.extra, env);
      match ResolveLayers(layers, call.extra, env.renderedLayers, env.ready)
      case Err(_) =>
        assert first.state == registered;
        assert first.state.files + {CacheDir(mediaRoot)} == files;
      case Ok(resolved) =>
        var mml := CompileMml(srs, styles, resolved.specs, env.styles);
        var c := CompileStep(files, name, mml, env.carto);
        CompileIdempotent(files, name, mml, env.carto);
        assert first.state == HostState(c.files, registered.index);
        assert CacheDir(mediaRoot) in c.files by {
          CompileTransitionsKeep(files, name, mml, env.carto, CacheDir(mediaRoot));
        }
        assert c.files + {CacheDir(mediaRoot)} == c.files;
  }

  /** A path outside the entry (not the cache directory, not one of the entry's artifacts)
      plays no part in `prepare_wms` and survives it. */
  lemma PrepareFrame(s: HostState, mediaRoot: string, order: seq<Field>, layers: seq<string>,
                     srs: string, styles: seq<string>, kwargs: Kwargs, env: Env, name: string, path: string)
    requires PrepareSpec(s, mediaRoot, order, layers, srs, styles, kwargs, env).result == Ok(name)
    requires path != CacheDir(mediaRoot)
    requires path != LockPath(name) && path != XmlPath(name) && path != MmlPath(name)
    ensures var first := PrepareSpec(s, mediaRoot, order, layers, srs, styles, kwargs, env);
            PrepareSpec(HostState(s.files + {path}, s.index), mediaRoot, order, layers, srs, styles, kwargs, env)
            == Outcome(HostState(first.state.files + {path}, first.state.index), Ok(name))
  {
    var call := BindPrepareArgs(layers, srs, styles, kwargs).value;
    var files := s.files + {CacheDir(mediaRoot)};
    var resolved := ResolveLayers(layers, call.extra, env.renderedLayers, env.ready).value;
    var mml := CompileMml(srs, styles, resolved.specs, env.styles);
    assert name == CacheName(mediaRoot, order, call.fields, env.md5, env.show);
    CompileFrame(files, name, mml, env.carto, path);
    assert (s.files + {path}) + {CacheDir(mediaRoot)} == files + {path};
  }

  /** The text whose md5 names a direct image: the bounding box, then the size. */
  function ImageHashInput(bbox: seq<real>, width: nat, height: nat, showCoord: real -> string): string
  {
    Join(",", seq(|bbox|, i requires 0 <= i < |bbox| => showCoord(bbox[i])))
      + "." + Decimal(width) + "x" + Decimal(height)
  }

  /** The file a direct image is rendered to: the cache entry, the md5 of the box and size,
      and the format as extension. */
  function ImageFilename(name: string, bbox: seq<real>, width: nat, height: nat, fmt: string,
                         md5: string -> HexDigest, showCoord: real -> string): string
  {
    name + md5(ImageHashInput(bbox, width, height, showCoord)) + "." + fmt
  }

  /** `render(fmt, width, height, bbox, srs, styles, layers, **kwargs)`: the spatial
      reference is normalised, then the image is rendered with it. */
  function RenderSpec(s: HostState, mediaRoot: string, order: seq<Field>, fmt: string, width: nat,
                      height: nat, bbox: seq<real>, srs: string, styles: seq<string>,
                      layers: seq<string>, kwargs: Kwargs, env: Env): Outcome<string>
  {
    RenderNormalized(s, mediaRoot, order, fmt, width, height, bbox, NormalizeSrs(srs), styles, layers, kwargs, env)
  }

  /** Binding `render(fmt, width, height, bbox, srs, styles, layers, **kwargs)` when the
      seven parameters are passed by position: a keyword that repeats one of them is a
      TypeError before the body runs. */
  function BindRenderArgs(kwargs: Kwargs): (r: Option<WmsError>)
    ensures r.Some? <==> "fmt" in kwargs || "width" in kwargs || "height" in kwargs || "bbox" in kwargs
                         || "srs" in kwargs || "styles" in kwargs || "layers" in kwargs
    ensures r.Some? ==> r.value.DuplicateArgument? && r.value.name in kwargs
  {
    if "fmt" in kwargs then Some(DuplicateArgument("fmt"))
    else if "width" in kwargs then Some(DuplicateArgument("width"))
    else if "height" in kwargs then Some(DuplicateArgument("height"))
    else if "bbox" in kwargs then Some(DuplicateArgument("bbox"))
    else if "srs" in kwargs then Some(DuplicateArgument("srs"))
    else if "styles" in kwargs then Some(DuplicateArgument("styles"))
    else if "layers" in kwargs then Some(DuplicateArgument("layers"))
    else None
  }

  /** The rest of `render`, once `srs` is normalised. The arguments are bound first. An
      image that exists is served without drawing. Otherwise the call waits while the
      entry's lock exists; in a single process nothing removes that lock, so the wait never
      ends (`Blocked`). Then mapnik loads the mapfile and draws the box. */
  function RenderNormalized(s: HostState, mediaRoot: string, order: seq<Field>, fmt: string, width: nat,
                            height: nat, bbox: seq<real>, srs: string, styles: seq<string>,
                            layers: seq<string>, kwargs: Kwargs, env: Env): Outcome<string>
  {
    match BindRenderArgs(kwargs)
    case Some(e) => Outcome(s, Err(e))
    case None =>
      var p := PrepareSpec(s, mediaRoot, order, layers, srs, styles, kwargs, env);
      match p.result
      case Err(e) => Outcome(p.state, Err(e))
      case Ok(name) =>
        var filename := ImageFilename(name, bbox, width, height, fmt, env.md5, env.showCoord);
        if filename in p.state.files then Outcome(p.state, Ok(filename))
        else if LockPath(name) in p.state.files then Outcome(p.state, Err(Blocked(LockPath(name))))
        else if XmlPath(name) in p.state.files && |bbox| == 4 && env.draw(XmlPath(name), width, height, bbox, fmt)
        then Outcome(HostState(p.state.files + {filename}, p.state.index), Ok(filename))
        else Outcome(p.state, Err(RenderFailed))
  }

  /** A keyword that repeats a positional parameter of `render` raises before anything
      changes; a render that succeeds had no such keyword. */
  lemma RenderBindsArguments(s: HostState, mediaRoot: string, order: seq<Field>, fmt: string, width: nat,
                             height: nat, bbox: seq<real>, srs: string, styles: seq<string>,
                             layers: seq<string>, kwargs: Kwargs, env: Env)
    ensures var o := RenderSpec(s, mediaRoot, order, fmt, width, height, bbox, srs, styles, layers, kwargs, env);
            && ("width" in kwargs || "height" in kwargs || "fmt" in kwargs || "bbox" in kwargs ==>
                  o.state == s && o.result.Err? && o.result.error.DuplicateArgument?
                  && o.result.error.name in kwargs)
            && (o.result.Ok? ==> BindRenderArgs(kwargs).None?)
  {
  }

  /** A spatial reference that is no EPSG code reaches the render unchanged. */
  lemma RenderKeepsSrs(s: HostState, mediaRoot: string, order: seq<Field>, fmt: string, width: nat,
                       height: nat, bbox: seq<real>, srs: string, styles: seq<string>,
                       layers: seq<string>, kwargs: Kwargs, env: Env)
    requires !IsEpsg(srs)
    ensures RenderSpec(s, mediaRoot, order, fmt, width, height, bbox, srs, styles, layers, kwargs, env)
         == RenderNormalized(s, mediaRoot, order, fmt, width, height, bbox, srs, styles, layers, kwargs, env)
  {
  }

  /** Two direct images of the same entry are the same file exactly when their formats and
      their box-and-size digests agree: the entry and the format are not hashed, they
      frame the digest. */
  lemma ImageFilenameParts(name: string, bbox1: seq<real>, width1: nat, height1: nat, fmt1: string,
                           bbox2: seq<real>, width2: nat, height2: nat, fmt2: string,
                           md5: string -> HexDigest, showCoord: real -> string)
    ensures ImageFilename(name, bbox1, width1, height1, fmt1, md5, showCoord)
         == ImageFilename(name, bbox2, width2, height2, fmt2, md5, showCoord)
        <==> fmt1 == fmt2 && md5(ImageHashInput(bbox1, width1, height1, showCoord))
                          == md5(ImageHashInput(bbox2, width2, height2, showCoord))
  {
    var d1 := md5(ImageHashInput(bbox1, width1, height1, showCoord));
    var d2 := md5(ImageHashInput(bbox2, width2, height2, showCoord));
    var f1 := ImageFilename(name, bbox1, width1, height1, fmt1, md5, showCoord);
    var f2 := ImageFilename(name, bbox2, width2, height2, fmt2, md5, showCoord);
    if f1 == f2 {
      assert |fmt1| == |fmt2|;
      assert d1 == f1[|name|..|name| + 32] == f2[|name|..|name| + 32] == d2;
      assert fmt1 == f1[|name| + 33..] == f2[|name| + 33..] == fmt2;
    }
  }

  /** The box and size, not the entry or the format, decide the digest: two entries asked
      for the same box and size carry the same digest in their image names. */
  lemma ImageDigestIgnoresEntry(name1: string, fmt1: string, name2: string, fmt2: string,
                                bbox: seq<real>, width: nat, height: nat,
                                md5: string -> HexDigest, showCoord: real -> string)
    ensures var f1 := ImageFilename(name1, bbox, width, height, fmt1, md5, showCoord);
            var f2 := ImageFilename(name2, bbox, width, height, fmt2, md5, showCoord);
            f1[|name1|..|name1| + 32] == f2[|name2|..|name2| + 32]
  {
  }

  /** A direct image is none of its entry's artifacts and not the cache directory. */
  lemma ImageIsNoArtifact(mediaRoot: string, digest: HexDigest, bbox: seq<real>, width: nat, height: nat,
                          fmt: string, md5: string -> HexDigest, showCoord: real -> string)
    ensures var name := CachedFilename(mediaRoot, digest);
            var f := ImageFilename(name, bbox, width, height, fmt, md5, showCoord);
            && f != CacheDir(mediaRoot)
            && f != LockPath(name) && f != XmlPath(name) && f != MmlPath(name)
  {
    var name := CachedFilename(mediaRoot, digest);
    var h := md5(ImageHashInput(bbox, width, height, showCoord));
    var f := ImageFilename(name, bbox, width, height, fmt, md5, showCoord);
    assert f[|name|] == h[0];
    assert h[0] in "0123456789abcdef";
    assert LockPath(name)[|name|] == '.' && XmlPath(name)[|name|] == '.' && MmlPath(name)[|name|] == '.';
  }

  /** `prepare_wms` does not depend on the renderer. */
  lemma PrepareIgnoresDraw(s: HostState, mediaRoot: string, order: seq<Field>, layers: seq<string>,
                           srs: string, styles: seq<string>, kwargs: Kwargs, env: Env,
                           draw: (string, nat, nat, seq<real>, string) -> bool)
    ensures PrepareSpec(s, mediaRoot, order, layers, srs, styles, kwargs, env.(draw := draw))
         == PrepareSpec(s, mediaRoot, order, layers, srs, styles, kwargs, env)
  {
  }

  /** A render that waits on a lock waits again when repeated: the lock is never removed,
      the repeated call leaves every path and the index as they were and blocks on the
      same lock. */
  lemma BlockedStaysBlocked(s: HostState, mediaRoot: string, order: seq<Field>, fmt: string, width: nat,
                            height: nat, bbox: seq<real>, srs: string, styles: seq<string>,
                            layers: seq<string>, kwargs: Kwargs, env: Env)
    requires RenderSpec(s, mediaRoot, order, fmt, width, height, bbox, srs, styles, layers, kwargs, env)
             .result.Err?
    requires RenderSpec(s, mediaRoot, order, fmt, width, height, bbox, srs, styles, layers, kwargs, env)
             .result.error.Blocked?
    ensures var first := RenderSpec(s, mediaRoot, order, fmt, width, height, bbox, srs, styles, layers, kwargs, env);
            RenderSpec(first.state, mediaRoot, order, fmt, width, height, bbox, srs, styles, layers, kwargs, env)
            == first
  {
    var normal := NormalizeSrs(srs);
    var p := PrepareSpec(s, mediaRoot, order, layers, normal, styles, kwargs, env);
    var first := RenderNormalized(s, mediaRoot, order, fmt, width, height, bbox, normal, styles, layers, kwargs, env);
    assert BindRenderArgs(kwargs).None?;
    if p.result.Err? {
      assert first == Outcome(p.state, Err(p.result.error));
    } else {
      assert first.state == p.state;
    }
    PrepareIdempotent(s, mediaRoot, order, layers, normal, styles, kwargs, env);
    RenderFromSamePrepare(p.state, s, mediaRoot, order, fmt, width, height, bbox, normal, styles, layers, kwargs, env);
  }

  /** Two states from which `prepare_wms` ends the same way render the same way. */
  lemma RenderFromSamePrepare(s1: HostState, s2: HostState, mediaRoot: string, order: seq<Field>, fmt: string,
                              width: nat, height: nat, bbox: seq<real>, srs: string, styles: seq<string>,
                              layers: seq<string>, kwargs: Kwargs, env: Env)
    requires BindRenderArgs(kwargs).None?
    requires PrepareSpec(s1, mediaRoot, order, layers, srs, styles, kwargs, env)
          == PrepareSpec(s2, mediaRoot, order, layers, srs, styles, kwargs, env)
    ensures RenderNormalized(s1, mediaRoot, order, fmt, width, height, bbox, srs, styles, layers, kwargs, env)
         == RenderNormalized(s2, mediaRoot, order, fmt, width, height, bbox, srs, styles, layers, kwargs, env)
  {
  }

  /** A render that returned an image returns the same image when repeated, without
      drawing: whatever the renderer would do, the second call changes nothing. */
  lemma RenderedIsServed(s: HostState, mediaRoot: string, order: seq<Field>, fmt: string, width: nat,
                         height: nat, bbox: seq<real>, srs: string, styles: seq<string>,
                         layers: seq<string>, kwargs: Kwargs, env: Env,
                         draw: (string, nat, nat, seq<real>, string) -> bool)
    requires RenderSpec(s, mediaRoot, order, fmt, width, height, bbox, srs, styles, layers, kwargs, env)
             .result.Ok?
    ensures var first := RenderSpec(s, mediaRoot, order, fmt, width, height, bbox, srs, styles, layers, kwargs, env);
            RenderSpec(first.state, mediaRoot, order, fmt, width, height, bbox, srs, styles, layers, kwargs,
                       env.(draw := draw))
            == first
  {
    var normal := NormalizeSrs(srs);
    var p := PrepareSpec(s, mediaRoot, order, layers, normal, styles, kwargs, env);
    var first := RenderSpec(s, mediaRoot, order, fmt, width, height, bbox, srs, styles, layers, kwargs, env);
    var name := p.result.value;
    var filename := ImageFilename(name, bbox, width, height, fmt, env.md5, env.showCoord);
    PrepareIdempotent(s, mediaRoot, order, layers, normal, styles, kwargs, env);
    PrepareIgnoresDraw(first.state, mediaRoot, order, layers, normal, styles, kwargs, env, draw);
    if filename !in p.state.files {
      var call := BindPrepareArgs(layers, normal, styles, kwargs).value;
      var digest := env.md5(Serialized(order, call.fields, env.show));
      assert name == CachedFilename(mediaRoot, digest);
      ImageIsNoArtifact(mediaRoot, digest, bbox, width, height, fmt, env.md5, env.showCoord);
      PrepareFrame(p.state, mediaRoot, order, layers, normal, styles, kwargs, env, name, filename);
      assert first.state == HostState(p.state.files + {filename}, p.state.index);
    }
  }

  /** Every image a render returns lies inside the cache directory, under its entry,
      whatever spatial reference it is rendered in. */
  lemma RenderedInCacheDir(s: HostState, mediaRoot: string, order: seq<Field>, fmt: string, width: nat,
                           height: nat, bbox: seq<real>, srs: string, styles: seq<string>,
                           layers: seq<string>, kwargs: Kwargs, env: Env)
    requires RenderNormalized(s, mediaRoot, order, fmt, width, height, bbox, srs, styles, layers, kwargs, env)
             .result.Ok?
    ensures var filename := RenderNormalized(s, mediaRoot, order, fmt, width, height, bbox, srs, styles,
                                             layers, kwargs, env).result.value;
            StartsWith(filename, CacheDir(mediaRoot) + "/")
  {
    assert BindRenderArgs(kwargs).None?;
    var p := PrepareSpec(s, mediaRoot, order, layers, srs, styles, kwargs, env);
    assert p.result.Ok?;
    PrepareReturnsEntry(s, mediaRoot, order, layers, srs, styles, kwargs, env);
    ImageUnderEntry(p.result.value, CacheDir(mediaRoot) + "/", bbox, width, height, fmt, env.md5, env.showCoord);
  }

  /** A direct image's name extends its entry's name. */
  lemma ImageUnderEntry(name: string, prefix: string, bbox: seq<real>, width: nat, height: nat, fmt: string,
                        md5: string -> HexDigest, showCoord: real -> string)
    requires StartsWith(name, prefix)
    ensures StartsWith(ImageFilename(name, bbox, width, height, fmt, md5, showCoord), prefix)
  {
    var filename := ImageFilename(name, bbox, width, height, fmt, md5, showCoord);
    assert filename[..|prefix|] == name[..|prefix|];
  }

  /** The two EPSG codes of web mercator and the mercator proj4 string name the same cache
      entry and the same images. */
  lemma MercatorCodesShareEntry(s: HostState, mediaRoot: string, order: seq<Field>, fmt: string, width: nat,
                                height: nat, bbox: seq<real>, styles: seq<string>,
                                layers: seq<string>, kwargs: Kwargs, env: Env)
    ensures RenderSpec(s, mediaRoot, order, fmt, width, height, bbox, "EPSG:3857", styles, layers, kwargs, env)
         == RenderSpec(s, mediaRoot, order, fmt, width, height, bbox, Mercator, styles, layers, kwargs, env)
  {
    NormalizeMercatorCode();
    MercatorIsNormal();
  }

  /** The layer-resolution loop of `prepare_wms`, as the source writes it: split, write
      `kwargs['sublayer']`, look up, ask the driver. */
  method ResolveLayerSpecs(layers: seq<string>, kwargs: Kwargs, catalog: map<string, RenderedLayer>,
                           ready: (RenderedLayer, Kwargs) -> LayerSpec)
    returns (r: Result<Resolved, WmsError>)
    ensures r == ResolveLayers(layers, kwargs, catalog, ready)
  {
    var kw := kwargs;
    var specs := [];
    for i := 0 to |layers|
      invariant ResolveLayers(layers[..i], kwargs, catalog, ready) == Ok(Resolved(specs, kw))
    {
      assert layers[..i + 1][..i] == layers[..i];
      var layer := layers[i];
      var slug := layer;
      if '#' in layer {
        var parts := Split(layer, '#');
        if |parts| != 2 {
          r := Err(SublayerUnpack(layer));
          ResolvePrefixError(layers, i + 1, kwargs, catalog, ready);
          return;
        }
        slug := parts[0];
        kw := kw["sublayer" := Str(parts[1])];
      } else {
        SplitWithoutSeparator(layer, '#');
      }
      if slug !in catalog {
        r := Err(LayerNotFound(slug));
        ResolvePrefixError(layers, i + 1, kwargs, catalog, ready);
        return;
      }
      var rl := catalog[slug];
      specs := specs + [(rl, ready(rl, kw))];
    }
    assert layers[..|layers|] == layers;
    r := Ok(Resolved(specs, kw));
  }

  /** The host of the render cache: the paths that exist under the media root, and the
      reverse index database. */
  class RenderHost {
    var files: set<string>
    var index: Index
    const mediaRoot: string
    const order: seq<Field>

    function State(): HostState
      reads this
    {
      HostState(files, index)
    }

    constructor (mediaRoot: string, order: seq<Field>, files: set<string>, index: Index)
      requires IsFieldOrder(order)
      ensures this.mediaRoot == mediaRoot && this.order == order
      ensures State() == HostState(files, index)
    {
      this.mediaRoot := mediaRoot;
      this.order := order;
      this.files := files;
      this.index := index;
    }

    /** The two `sadd` loops: every style, then every raw layer, gains the cache path. */
    method Register(styles: seq<string>, layers: seq<string>, path: string)
      modifies this`index
      ensures index == Registered(old(index), styles, layers, path)
    {
      AddEach(styles, path);
      AddEach(layers, path);
    }

    /** One `sadd` loop: `for key in keys: sadd(key, path)`. */
    method AddEach(keys: seq<string>, path: string)
      modifies this`index
      ensures index == AddAll(old(index), keys, path)
    {
      for i := 0 to |keys|
        invariant index == AddAll(old(index), keys[..i], path)
      {
        AddAllStep(old(index), keys, i, path);
        index := Add(index, keys[i], path);
      }
      assert keys[..|keys|] == keys;
    }

    method PrepareWms(layers: seq<string>, srs: string, styles: seq<string>, kwargs: Kwargs, env: Env)
      returns (r: Result<string, WmsError>)
      modifies this
      ensures Outcome(State(), r) == PrepareSpec(old(State()), mediaRoot, order, layers, srs, styles, kwargs, env)
    {
      var bound := BindPrepareArgs(layers, srs, styles, kwargs);
      if bound.Err? {
        return Err(bound.error);
      }
      var call := bound.value;
      var digest := EntryBasename(order, call.fields, env.md5, env.show);
      var cachePath := CacheDir(mediaRoot);
      if cachePath !in files {
        files := files + {cachePath};
      }
      assert files == old(files) + {cachePath};
      var cachedFilename := CachedFilename(mediaRoot, digest);
      assert cachedFilename == CacheName(mediaRoot, order, call.fields, env.md5, env.show);
      Register(styles, layers, cachedFilename);
      ghost var registered := State();
      assert registered == HostState(old(files) + {cachePath}, Registered(old(index), styles, layers, cachedFilename));
      r := ResolveAndCompile(cachedFilename, layers, srs, styles, call.extra, env);
      assert Outcome(State(), r) == PrepareNamed(registered, cachedFilename, layers, srs, styles, call.extra, env);
    }

    /** The layer loop and the compile block of `prepare_wms`. */
    method ResolveAndCompile(name: string, layers: seq<string>, srs: string, styles: seq<string>,
                             extra: Kwargs, env: Env)
      returns (r: Result<string, WmsError>)
      modifies this`files
      ensures Outcome(State(), r) == PrepareNamed(old(State()), name, layers, srs, styles, extra, env)
    {
      var resolved := ResolveLayerSpecs(layers, extra, env.renderedLayers, env.ready);
      if resolved.Err? {
        return Err(resolved.error);
      }
      var mml := CompileMml(srs, styles, resolved.value.specs, env.styles);
      var raised := CompileIfMissing(name, mml, env.carto);
      if raised.Some? {
        return Err(CompileFailed(raised.value));
      }
      r := Ok(name);
    }

    /** The compile block of `prepare_wms`: lock, spec, carto, unlock on success. */
    method CompileIfMissing(name: string, mml: Result<Mml, WmsError>, carto: Mml -> CartoRun)
      returns (raised: Option<string>)
      modifies this`files
      ensures Compile(files, raised) == CompileStep(old(files), name, mml, carto)
    {
      raised := None;
      if XmlPath(name) !in files {
        files := files + {LockPath(name)};
        files := files + {MmlPath(name)};
        if mml.Ok? {
          var run := carto(mml.value);
          match run
          case Compiled =>
            files := files + {XmlPath(name)};
            files := files - {LockPath(name)};
          case ExitStatus(code, stderr, left) =>
            if left {
              files := files + {XmlPath(name)};
            }
            if code == 1 {
              raised := Some(stderr);
            }
          case Crashed =>
        }
      }
    }

    method Render(fmt: string, width: nat, height: nat, bbox: seq<real>, srs: string, styles: seq<string>,
                  layers: seq<string>, kwargs: Kwargs, env: Env)
      returns (r: Result<string, WmsError>)
      modifies this
      ensures Outcome(State(), r)
           == RenderSpec(old(State()), mediaRoot, order, fmt, width, height, bbox, srs, styles, layers, kwargs, env)
    {
      var unbound := BindRenderArgs(kwargs);
      if unbound.Some? {
        return Err(unbound.value);
      }
      var normalized := NormalizeSrs(srs);
      var prepared := PrepareWms(layers, normalized, styles, kwargs, env);
      if prepared.Err? {
        return prepared;
      }
      var name := prepared.value;
      var filename := ImageFilename(name, bbox, width, height, fmt, env.md5, env.showCoord);
      if filename in files {
        return Ok(filename);
      }
      if LockPath(name) in files {
        return Err(Blocked(LockPath(name)));
      }
      if XmlPath(name) !in files || |bbox| != 4 || !env.draw(XmlPath(name), width, height, bbox, fmt) {
        return Err(RenderFailed);
      }
      files := files + {filename};
      r := Ok(filename);
    }

    /** `os.unlink(path)`. */
    method Unlink(path: string)
      modifies this`files
      ensures files == old(files) - {path}
    {
      files := files - {path};
    }
  }
}
