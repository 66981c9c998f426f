/** The cache key of `prepare_wms`: an md5 over the five cache-relevant arguments, and the
    path of the cache entry it names. */
module CacheKey {
  import opened Values
  import opened Strings
  import opened Paths

  /** The five entries of the `OrderedDict` that is hashed. */
  datatype Field = LayersField | SrsField | StylesField | BgColorField | TransparentField

  function FieldName(f: Field): string
  {
    match f
    case LayersField => "layers"
    case SrsField => "srs"
    case StylesField => "styles"
    case BgColorField => "bgcolor"
    case TransparentField => "transparent"
  }

  /** The order in which the dictionary yields its entries. `OrderedDict(**kwargs)` receives
      an unordered dictionary under Python 2, so this is a permutation of the five fields
      fixed by the interpreter, not the order the source lists them in. */
  predicate IsFieldOrder(order: seq<Field>)
  {
    && |order| == 5
    && (forall f: Field :: f in order)
    && (forall i, j :: 0 <= i < j < |order| ==> order[i] != order[j])
  }

  /** The arguments the key is computed from. */
  datatype CacheFields = CacheFields(
    layers: seq<string>, srs: string, styles: seq<string>, bgcolor: Value, transparent: Value)

  function FieldValue(p: CacheFields, f: Field): Value
  {
    match f
    case LayersField => StrList(p.layers)
    case SrsField => Str(p.srs)
    case StylesField => StrList(p.styles)
    case BgColorField => p.bgcolor
    case TransparentField => p.transparent
  }

  predicate IsHexDigest(h: string)
  {
    |h| == 32 && forall i :: 0 <= i < |h| ==> h[i] in "0123456789abcdef"
  }

  /** What `md5().hexdigest()` returns. */
  type HexDigest = h: string | IsHexDigest(h) witness "00000000000000000000000000000000"

  /** The text an md5 object has been fed: each field's name, then `unicode` of its value,
      in dictionary order. An md5 object's digest is the digest of all it was fed. */
  function Serialized(order: seq<Field>, p: CacheFields, show: Value -> string): string
  {
    if order == [] then ""
    else
      var f := order[|order| - 1];
      Serialized(order[..|order| - 1], p, show) + FieldName(f) + show(FieldValue(p, f))
  }

  /** The md5 loop of `prepare_wms`: feed every field's name and value, then take the digest. */
  method EntryBasename(order: seq<Field>, p: CacheFields, md5: string -> HexDigest, show: Value -> string)
    returns (h: HexDigest)
    ensures h == md5(Serialized(order, p, show))
  {
    var fed := "";
    for i := 0 to |order|
      invariant fed == Serialized(order[..i], p, show)
    {
      var f := order[i];
      fed := fed + FieldName(f);
      fed := fed + show(FieldValue(p, f));
      assert order[..i + 1][..i] == order[..i];
    }
    assert order[..|order|] == order;
    h := md5(fed);
  }

  /** `os.path.join(MEDIA_ROOT, '.cache', '_cached_layers')`. */
  function CacheDir(mediaRoot: string): (r: string)
    ensures r == (if mediaRoot == "" || EndsWith(mediaRoot, "/") then mediaRoot else mediaRoot + "/")
                 + ".cache/_cached_layers"
  {
    var dot := PathJoin(mediaRoot, ".cache");
    assert ".cache"[..1][0] != "/"[0] && "_cached_layers"[..1][0] != "/"[0];
    var lead := if mediaRoot == "" || EndsWith(mediaRoot, "/") then mediaRoot else mediaRoot + "/";
    assert dot == lead + ".cache";
    assert dot[|dot| - 1] == 'e';
    assert (lead + ".cache") + "/" + "_cached_layers" == lead + ".cache/_cached_layers";
    PathJoin(dot, "_cached_layers")
  }

  /** `os.path.join(cache_path, hexdigest)`: the digest as a file name in the cache directory. */
  function CachedFilename(mediaRoot: string, digest: HexDigest): (r: string)
    ensures r == CacheDir(mediaRoot) + "/" + digest
  {
    assert digest[0] in "0123456789abcdef";
    PathJoin(CacheDir(mediaRoot), digest)
  }

  /** The cache entry a request names. */
  function CacheName(mediaRoot: string, order: seq<Field>, p: CacheFields,
                     md5: string -> HexDigest, show: Value -> string): string
  {
    CachedFilename(mediaRoot, md5(Serialized(order, p, show)))
  }

  function ArgOrNone(kwargs: Kwargs, key: string): Value
  {
    if key in kwargs then kwargs[key] else NoValue
  }

  /** A bound call of `prepare_wms`: the hashed arguments and the remaining `**kwargs`. */
  datatype WmsCall = WmsCall(fields: CacheFields, extra: Kwargs)

  /** Binding `prepare_wms(layers, srs, styles, **kwargs)`: `bgcolor` and `transparent`
      come out of the keyword arguments (default None); a keyword that repeats a
      positional argument is a TypeError before the body runs. */
  function BindPrepareArgs(layers: seq<string>, srs: string, styles: seq<string>, kwargs: Kwargs)
    : (r: Result<WmsCall, WmsError>)
    ensures r.Err? <==> "layers" in kwargs || "srs" in kwargs || "styles" in kwargs
    ensures r.Err? ==> r.error.DuplicateArgument? && r.error.name in kwargs
    ensures r.Ok? ==> && r.value.fields.layers == layers && r.value.fields.srs == srs
                      && r.value.fields.styles == styles
                      && r.value.fields.bgcolor == ArgOrNone(kwargs, "bgcolor")
                      && r.value.fields.transparent == ArgOrNone(kwargs, "transparent")
                      && r.value.extra.Keys == kwargs.Keys - {"bgcolor", "transparent"}
                      && forall k :: k in r.value.extra ==> r.value.extra[k] == kwargs[k]
  {
    if "layers" in kwargs then Err(DuplicateArgument("layers"))
    else if "srs" in kwargs then Err(DuplicateArgument("srs"))
    else if "styles" in kwargs then Err(DuplicateArgument("styles"))
    else
      Ok(WmsCall(CacheFields(layers, srs, styles, ArgOrNone(kwargs, "bgcolor"), ArgOrNone(kwargs, "transparent")),
                 kwargs - {"bgcolor", "transparent"}))
  }

  /** Keyword arguments other than `bgcolor` and `transparent` (bbox, width, height, time,
      fresh, sublayer, ...) never change the cache entry. */
  lemma ExtraKwargsIgnored(mediaRoot: string, order: seq<Field>, layers: seq<string>, srs: string,
                           styles: seq<string>, k1: Kwargs, k2: Kwargs,
                           md5: string -> HexDigest, show: Value -> string)
    requires BindPrepareArgs(layers, srs, styles, k1).Ok?
    requires "layers" !in k2 && "srs" !in k2 && "styles" !in k2
    requires ArgOrNone(k1, "bgcolor") == ArgOrNone(k2, "bgcolor")
    requires ArgOrNone(k1, "transparent") == ArgOrNone(k2, "transparent")
    ensures BindPrepareArgs(layers, srs, styles, k2).Ok?
    ensures CacheName(mediaRoot, order, BindPrepareArgs(layers, srs, styles, k1).value.fields, md5, show)
         == CacheName(mediaRoot, order, BindPrepareArgs(layers, srs, styles, k2).value.fields, md5, show)
  {
  }
}
