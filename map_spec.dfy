/** The map specification handed to carto: `compile_layer` and `compile_mml`. */
module MapSpec {
  import opened Values
  import opened Strings

  /** A RenderedLayer record: its slug and its default css class. */
  datatype RenderedLayer = RenderedLayer(slug: string, defaultClass: string)

  /** The native SRS a driver reports: text, or an OSR object given by its proj4 export. */
  datatype LayerSrs = SrsText(text: string) | SrsObject(proj4: string)

  /** What a driver's `ready_data_resource` returns: layer id, native SRS, datasource parameters. */
  datatype LayerSpec = LayerSpec(id: string, srs: LayerSrs, params: Kwargs)

  datatype StylesheetBlock = StylesheetBlock(id: string, data: string)

  datatype LayerBlock = LayerBlock(id: Value, name: Value, cssClass: string, srs: string, datasource: Kwargs)

  /** The document written to `<name>.mml`. */
  datatype Mml = Mml(srs: string, stylesheets: seq<StylesheetBlock>, layers: seq<LayerBlock>)

  /** `re.sub('/', '_', s)`. */
  function SafeId(s: string): (r: string)
    ensures |r| == |s| && '/' !in r
  {
    ReplaceChar(s, '/', '_')
  }

  /** The style slug of a style string: the text before its first '.'. */
  function StyleSlug(style: string): string
  {
    Split(style, '.')[0]
  }

  /** The css class a style string selects: the text between its first and second '.',
      or `default` when it has no '.'. */
  function CssClass(style: string): string
  {
    if '.' in style then Split(style, '.')[1] else "default"
  }

  function CssClasses(styles: seq<string>): set<string>
  {
    set s | s in styles :: CssClass(s)
  }

  /** A style string `slug.cls` names the stylesheet `slug` and the class `cls`; a bare
      slug names itself and the class `default`. */
  lemma StyleStringParts(slug: string, cls: string)
    requires '.' !in slug && '.' !in cls
    ensures StyleSlug(slug + "." + cls) == slug && CssClass(slug + "." + cls) == cls
    ensures StyleSlug(slug) == slug && CssClass(slug) == "default"
  {
    SplitAfterPrefix(slug, '.', cls);
    SplitWithoutSeparator(cls, '.');
    SplitWithoutSeparator(slug, '.');
    assert slug + "." + cls == slug + ['.'] + cls;
    assert '.' in slug + "." + cls by {
      assert (slug + "." + cls)[|slug|] == '.';
    }
  }

  function LayerSrsText(srs: LayerSrs): string
  {
    match srs
    case SrsText(t) => t
    case SrsObject(p) => p
  }

  /** `compile_layer(rl, layer_id, srs, css_classes, **parameters)`. The class expression
      `rl.default_class if 'default' else cls` tests the literal `'default'`, which is
      always true, so every css class contributes the layer's default class. A parameter
      named like one of the positional arguments is a TypeError. */
  function CompileLayer(rl: RenderedLayer, spec: LayerSpec, cssClasses: set<string>)
    : (r: Result<LayerBlock, WmsError>)
    ensures r.Err? <==> exists k :: k in spec.params && k in ["rl", "layer_id", "srs", "css_classes"]
    ensures r.Ok? ==> r.value.datasource == spec.params && r.value.srs == LayerSrsText(spec.srs)
    ensures r.Ok? && "id" !in spec.params ==> r.value.id == Str(SafeId(spec.id))
    ensures r.Ok? && "name" !in spec.params ==> r.value.name == Str(SafeId(spec.id))
    ensures r.Ok? && "id" in spec.params ==> r.value.id == spec.params["id"]
    ensures r.Ok? && "name" in spec.params ==> r.value.name == spec.params["name"]
  {
    if "rl" in spec.params then Err(DuplicateArgument("rl"))
    else if "layer_id" in spec.params then Err(DuplicateArgument("layer_id"))
    else if "srs" in spec.params then Err(DuplicateArgument("srs"))
    else if "css_classes" in spec.params then Err(DuplicateArgument("css_classes"))
    else
      Ok(LayerBlock(
        if "id" in spec.params then spec.params["id"] else Str(SafeId(spec.id)),
        if "name" in spec.params then spec.params["name"] else Str(SafeId(spec.id)),
        Strip(Join(" ", Repeat(rl.defaultClass, |cssClasses|))),
        LayerSrsText(spec.srs),
        spec.params))
  }

  /** The layer's class never depends on which css classes the styles select, only on
      how many there are. */
  lemma LayerClassIgnoresSelectors(rl: RenderedLayer, spec: LayerSpec, c1: set<string>, c2: set<string>)
    requires |c1| == |c2|
    requires CompileLayer(rl, spec, c1).Ok?
    ensures CompileLayer(rl, spec, c2).Ok?
    ensures CompileLayer(rl, spec, c1).value.cssClass == CompileLayer(rl, spec, c2).value.cssClass
  {
  }

  /** With a default class that is a single word, the class attribute is that word once
      per selected css class. */
  lemma {:induction false} LayerClassWords(rl: RenderedLayer, spec: LayerSpec, cssClasses: set<string>)
    requires rl.defaultClass != "" && forall i :: 0 <= i < |rl.defaultClass| ==> !IsSpace(rl.defaultClass[i])
    requires CompileLayer(rl, spec, cssClasses).Ok?
    ensures cssClasses == {} ==> CompileLayer(rl, spec, cssClasses).value.cssClass == ""
    ensures cssClasses != {} ==>
      Split(CompileLayer(rl, spec, cssClasses).value.cssClass, ' ') == Repeat(rl.defaultClass, |cssClasses|)
  {
    var n := |cssClasses|;
    var words := Repeat(rl.defaultClass, n);
    if n > 0 {
      var joined := Join(" ", words);
      JoinEnds(words, " ");
      StripKeeps(joined);
      assert ' ' !in rl.defaultClass by {
        assert IsSpace(' ');
      }
      JoinSplit(words, ' ');
    }
  }

  /** A join of non-empty parts starts with the first part's first character and ends
      with the last part's last character. */
  lemma {:induction false} JoinEnds(parts: seq<string>, sep: string)
    requires |parts| >= 1 && forall i :: 0 <= i < |parts| ==> parts[i] != ""
    ensures var j := Join(sep, parts);
      j != "" && j[0] == parts[0][0] && j[|j| - 1] == parts[|parts| - 1][|parts[|parts| - 1]| - 1]
  {
    if |parts| > 1 {
      JoinEnds(parts[1..], sep);
    }
  }

  /** Stripping keeps a string that neither starts nor ends with whitespace. */
  lemma StripKeeps(s: string)
    requires s != [] && !IsSpace(s[0]) && !IsSpace(s[|s| - 1])
    ensures Strip(s) == s
  {
  }

  /** The stylesheet list: one block per style, in styles order, looked up by the style's
      slug; the first style whose slug is not in the catalog raises `Style.DoesNotExist`. */
  function Stylesheets(styles: seq<string>, catalog: map<string, string>)
    : (r: Result<seq<StylesheetBlock>, WmsError>)
    ensures r.Ok? <==> forall i :: 0 <= i < |styles| ==> StyleSlug(styles[i]) in catalog
    ensures r.Ok? ==> |r.value| == |styles| && forall i :: 0 <= i < |styles| ==>
      r.value[i] == StylesheetBlock(SafeId(StyleSlug(styles[i])), catalog[StyleSlug(styles[i])])
    ensures r.Err? ==> exists i :: (0 <= i < |styles| && StyleSlug(styles[i]) !in catalog
      && r.error == StyleNotFound(StyleSlug(styles[i]))
      && forall j :: 0 <= j < i ==> StyleSlug(styles[j]) in catalog)
  {
    if styles == [] then Ok([])
    else
      var prev := styles[..|styles| - 1];
      var slug := StyleSlug(styles[|styles| - 1]);
      assert forall i :: 0 <= i < |prev| ==> prev[i] == styles[i];
      match Stylesheets(prev, catalog)
      case Err(e) => Err(e)
      case Ok(blocks) =>
        if slug in catalog then Ok(blocks + [StylesheetBlock(SafeId(slug), catalog[slug])])
        else
          assert StyleSlug(styles[|styles| - 1]) !in catalog;
          Err(StyleNotFound(slug))
  }

  /** The layer list: one block per resolved layer, in input order; the first layer whose
      parameters clash with `compile_layer`'s own arguments raises. */
  function LayerBlocks(layers: seq<(RenderedLayer, LayerSpec)>, cssClasses: set<string>)
    : (r: Result<seq<LayerBlock>, WmsError>)
    ensures r.Ok? <==> forall i :: 0 <= i < |layers| ==> CompileLayer(layers[i].0, layers[i].1, cssClasses).Ok?
    ensures r.Ok? ==> |r.value| == |layers| && forall i :: 0 <= i < |layers| ==>
      r.value[i] == CompileLayer(layers[i].0, layers[i].1, cssClasses).value
  {
    if layers == [] then Ok([])
    else
      var prev := layers[..|layers| - 1];
      var last := layers[|layers| - 1];
      match LayerBlocks(prev, cssClasses)
      case Err(e) => Err(e)
      case Ok(blocks) =>
        match CompileLayer(last.0, last.1, cssClasses)
        case Err(e) => Err(e)
        case Ok(b) => Ok(blocks + [b])
  }

  /** `compile_mml(srs, styles, *layers)`. */
  function CompileMml(srs: string, styles: seq<string>, layers: seq<(RenderedLayer, LayerSpec)>,
                      catalog: map<string, string>): (r: Result<Mml, WmsError>)
    ensures r.Ok? ==> r.value.srs == srs
    ensures r.Ok? <==> Stylesheets(styles, catalog).Ok? && LayerBlocks(layers, CssClasses(styles)).Ok?
    ensures r.Ok? ==> (r.value.stylesheets == Stylesheets(styles, catalog).value
                   && r.value.layers == LayerBlocks(layers, CssClasses(styles)).value)
  {
    match Stylesheets(styles, catalog)
    case Err(e) => Err(e)
    case Ok(sheets) =>
      match LayerBlocks(layers, CssClasses(styles))
      case Err(e) => Err(e)
      case Ok(blocks) => Ok(Mml(srs, sheets, blocks))
  }

  /** No stylesheet id of a compiled spec holds a '/'. */
  lemma StylesheetIdsSafe(srs: string, styles: seq<string>, layers: seq<(RenderedLayer, LayerSpec)>,
                          catalog: map<string, string>)
    requires CompileMml(srs, styles, layers, catalog).Ok?
    ensures forall b :: b in CompileMml(srs, styles, layers, catalog).value.stylesheets ==> '/' !in b.id
  {
  }

  /** The quirk of `compile_layer` on a one-style request `slug.cls`: the layer gets its
      own default class, whatever class the style selects. */
  lemma DefaultClassWins(rl: RenderedLayer, spec: LayerSpec, slug: string, cls: string)
    requires '.' !in slug && '.' !in cls
    requires rl.defaultClass != "" && forall i :: 0 <= i < |rl.defaultClass| ==> !IsSpace(rl.defaultClass[i])
    requires CompileLayer(rl, spec, {}).Ok?
    ensures CssClasses([slug + "." + cls]) == {cls}
    ensures CompileLayer(rl, spec, CssClasses([slug + "." + cls])).value.cssClass == rl.defaultClass
  {
    var style := slug + "." + cls;
    StyleStringParts(slug, cls);
    assert forall s :: s in [style] ==> s == style;
    assert CssClasses([style]) == {cls};
    assert Repeat(rl.defaultClass, 1) == [rl.defaultClass];
    StripKeeps(rl.defaultClass);
  }
}
