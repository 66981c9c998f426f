/** Layer resolution in `prepare_wms`: split `slug#sub`, look the slug up, ask its driver
    for a layer spec. The loop writes `kwargs['sublayer']` and never resets it, so a
    sublayer stays in force for every later layer. */
module LayerSpecs {
  import opened Values
  import opened Strings
  import opened MapSpec

  /** The slug of a raw layer string: the text before its `#`. */
  function LayerSlug(layer: string): string
  {
    Split(layer, '#')[0]
  }

  /** A layer string the loop accepts: at most one `#`, and a known slug. */
  predicate Resolvable(layer: string, catalog: map<string, RenderedLayer>)
  {
    |Split(layer, '#')| <= 2 && LayerSlug(layer) in catalog
  }

  /** The keyword arguments after the loop has passed over `layers`: each `slug#sub`
      overwrites `sublayer`; a layer without `#` leaves the dictionary alone. */
  function KwargsAfter(layers: seq<string>, kwargs: Kwargs): Kwargs
  {
    if layers == [] then kwargs
    else
      var k := KwargsAfter(layers[..|layers| - 1], kwargs);
      var parts := Split(layers[|layers| - 1], '#');
      if |parts| == 2 then k["sublayer" := Str(parts[1])] else k
  }

  datatype Resolved = Resolved(specs: seq<(RenderedLayer, LayerSpec)>, kwargs: Kwargs)

  /** The resolution loop. The first layer with two `#`s raises a ValueError; the first
      unknown slug raises DoesNotExist. */
  function ResolveLayers(layers: seq<string>, kwargs: Kwargs, catalog: map<string, RenderedLayer>,
                         ready: (RenderedLayer, Kwargs) -> LayerSpec): Result<Resolved, WmsError>
  {
    if layers == [] then Ok(Resolved([], kwargs))
    else
      match ResolveLayers(layers[..|layers| - 1], kwargs, catalog, ready)
      case Err(e) => Err(e)
      case Ok(done) =>
        var layer := layers[|layers| - 1];
        var parts := Split(layer, '#');
        if |parts| > 2 then Err(SublayerUnpack(layer))
        else
          var kw := if |parts| == 2 then done.kwargs["sublayer" := Str(parts[1])] else done.kwargs;
          if parts[0] !in catalog then Err(LayerNotFound(parts[0]))
          else
            var rl := catalog[parts[0]];
            Ok(Resolved(done.specs + [(rl, ready(rl, kw))], kw))
  }

  /** Resolution succeeds exactly when every layer has at most one `#` and a known slug. */
  lemma {:induction false} ResolveLayersOk(layers: seq<string>, kwargs: Kwargs,
                                           catalog: map<string, RenderedLayer>,
                                           ready: (RenderedLayer, Kwargs) -> LayerSpec)
    ensures ResolveLayers(layers, kwargs, catalog, ready).Ok?
        <==> forall i :: 0 <= i < |layers| ==> Resolvable(layers[i], catalog)
  {
    if layers != [] {
      var prev := layers[..|layers| - 1];
      ResolveLayersOk(prev, kwargs, catalog, ready);
      assert forall i :: 0 <= i < |prev| ==> prev[i] == layers[i];
    }
  }

  /** After a successful resolution the keyword arguments are as the loop left them. */
  lemma {:induction false} ResolveLayersKwargs(layers: seq<string>, kwargs: Kwargs,
                                               catalog: map<string, RenderedLayer>,
                                               ready: (RenderedLayer, Kwargs) -> LayerSpec)
    requires ResolveLayers(layers, kwargs, catalog, ready).Ok?
    ensures ResolveLayers(layers, kwargs, catalog, ready).value.kwargs == KwargsAfter(layers, kwargs)
  {
    if layers != [] {
      ResolveLayersKwargs(layers[..|layers| - 1], kwargs, catalog, ready);
    }
  }

  /** A successful resolution yields one spec per layer, in order, from the layer's slug
      and the keyword arguments as the loop has left them at that layer. */
  lemma {:induction false} ResolveLayersSpecs(layers: seq<string>, kwargs: Kwargs,
                                              catalog: map<string, RenderedLayer>,
                                              ready: (RenderedLayer, Kwargs) -> LayerSpec)
    requires ResolveLayers(layers, kwargs, catalog, ready).Ok?
    ensures var specs := ResolveLayers(layers, kwargs, catalog, ready).value.specs;
      && |specs| == |layers|
      && forall i :: 0 <= i < |layers| ==>
           LayerSlug(layers[i]) in catalog &&
           specs[i] == (catalog[LayerSlug(layers[i])],
                        ready(catalog[LayerSlug(layers[i])], KwargsAfter(layers[..i + 1], kwargs)))
  {
    if layers != [] {
      var n := |layers| - 1;
      var prev := layers[..n];
      ResolveLayersSpecs(prev, kwargs, catalog, ready);
      ResolveLayersKwargs(layers, kwargs, catalog, ready);
      ResolveLayersOk(layers, kwargs, catalog, ready);
      assert layers[..n + 1] == layers;
      var r := ResolveLayers(layers, kwargs, catalog, ready).value;
      var p := ResolveLayers(prev, kwargs, catalog, ready).value;
      var rl := catalog[LayerSlug(layers[n])];
      assert r.specs == p.specs + [(rl, ready(rl, r.kwargs))];
      forall i | 0 <= i < n
        ensures LayerSlug(layers[i]) in catalog
        ensures r.specs[i] == (catalog[LayerSlug(layers[i])],
                               ready(catalog[LayerSlug(layers[i])], KwargsAfter(layers[..i + 1], kwargs)))
      {
        assert prev[i] == layers[i] && prev[..i + 1] == layers[..i + 1];
        assert r.specs[i] == p.specs[i];
      }
    }
  }

  /** A sublayer set by `slug#sub` is still in force for every later layer up to the next
      layer that has a `#`. */
  lemma {:induction false} SublayerLeaks(layers: seq<string>, kwargs: Kwargs, j: nat, i: nat)
    requires j <= i < |layers|
    requires |Split(layers[j], '#')| == 2
    requires forall k :: j < k <= i ==> '#' !in layers[k]
    ensures "sublayer" in KwargsAfter(layers[..i + 1], kwargs)
    ensures KwargsAfter(layers[..i + 1], kwargs)["sublayer"] == Str(Split(layers[j], '#')[1])
  {
    var pre := layers[..i + 1];
    assert pre[..|pre| - 1] == layers[..i];
    if i > j {
      assert '#' !in layers[i];
      SplitWithoutSeparator(layers[i], '#');
      SublayerLeaks(layers, kwargs, j, i - 1);
    }
  }

  /** The loop writes no key other than `sublayer`. */
  lemma {:induction false} OnlySublayerWritten(layers: seq<string>, kwargs: Kwargs, key: string)
    requires key != "sublayer"
    ensures key in KwargsAfter(layers, kwargs) <==> key in kwargs
    ensures key in kwargs ==> KwargsAfter(layers, kwargs)[key] == kwargs[key]
  {
    if layers != [] {
      OnlySublayerWritten(layers[..|layers| - 1], kwargs, key);
    }
  }

  /** Without any `#` layer, the drivers see the caller's keyword arguments unchanged. */
  lemma {:induction false} NoHashNoChange(layers: seq<string>, kwargs: Kwargs)
    requires forall i :: 0 <= i < |layers| ==> '#' !in layers[i]
    ensures KwargsAfter(layers, kwargs) == kwargs
  {
    if layers != [] {
      SplitWithoutSeparator(layers[|layers| - 1], '#');
      NoHashNoChange(layers[..|layers| - 1], kwargs);
    }
  }

  /** A layer string `slug#sub` resolves to the slug and sets the sublayer; a bare slug
      resolves to itself. */
  lemma LayerStringParts(slug: string, sub: string)
    requires '#' !in slug && '#' !in sub
    ensures LayerSlug(slug + "#" + sub) == slug && Split(slug + "#" + sub, '#') == [slug, sub]
    ensures LayerSlug(slug) == slug
  {
    SplitAfterPrefix(slug, '#', sub);
    SplitWithoutSeparator(sub, '#');
    SplitWithoutSeparator(slug, '#');
    assert slug + "#" + sub == slug + ['#'] + sub;
  }

  /** An error on a prefix of the layers is the error of the whole loop. */
  lemma {:induction false} ResolvePrefixError(layers: seq<string>, k: nat, kwargs: Kwargs,
                                              catalog: map<string, RenderedLayer>,
                                              ready: (RenderedLayer, Kwargs) -> LayerSpec)
    requires k <= |layers|
    requires ResolveLayers(layers[..k], kwargs, catalog, ready).Err?
    ensures ResolveLayers(layers, kwargs, catalog, ready) == ResolveLayers(layers[..k], kwargs, catalog, ready)
  {
    if k < |layers| {
      var prev := layers[..|layers| - 1];
      assert prev[..k] == layers[..k];
      ResolvePrefixError(prev, k, kwargs, catalog, ready);
    } else {
      assert layers[..k] == layers;
    }
  }
}
