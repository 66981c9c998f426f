/** `MBTileCache`: the tile pyramid of one cache entry, kept in an mbtiles store and filled
    by rendering each missing tile through the render path. The store is its two tables:
    `images` (tile id to tile data) and `map` ((zoom, column, row) to tile id), both written
    with `INSERT OR REPLACE`. */
module TileStore {
  import opened Values
  import opened Strings
  import opened Srs
  import opened CacheKey
  import opened CompileLock
  import opened Collaborators
  import opened RenderCache

  /** A tile of the pyramid: zoom level, column and row. */
  datatype Tile = Tile(z: nat, x: nat, y: nat)

  /** The `images` table by tile id and the `map` table by tile. */
  datatype Store = Store(images: map<string, Blob>, tiles: map<Tile, string>)

  /** Everything a fetch can change: the paths and index of the render path, and the store. */
  datatype TileState = TileState(host: HostState, store: Store)

  /** What a tile cache renders, fixed when it is opened. */
  datatype TileSource = TileSource(mediaRoot: string, order: seq<Field>, srs: string,
                                   layers: seq<string>, styles: seq<string>, kwargs: Kwargs)

  datatype TileOutcome = TileOutcome(state: TileState, result: Result<Blob, WmsError>)

  /** The width and the height of a tile, in pixels. */
  const TileSize: nat := 256

  /** The id a tile is looked up by: its zoom, column and row in decimal, comma-separated. */
  function TileKey(t: Tile): string
  {
    Join(",", [Decimal(t.z), Decimal(t.x), Decimal(t.y)])
  }

  /** The box rendered for a tile: `num2deg(x, y + 1, z)` then `num2deg(x + 1, y, z)`,
      each pair as `num2deg` returns it. */
  function TileBox(t: Tile, num2deg: (nat, nat, nat) -> (real, real)): seq<real>
  {
    var sw := num2deg(t.x, t.y + 1, t.z);
    var ne := num2deg(t.x + 1, t.y, t.z);
    [sw.0, sw.1, ne.0, ne.1]
  }

  /** `fetch_tile(z, x, y)`. A tile whose id is in `images` is served from there. Otherwise
      the tile is rendered as a 256x256 png (the cache's spatial reference is the Mercator
      string, which `render` leaves as it is, `RenderKeepsSrs`), its bytes are read and the
      file is removed, and the store gains the tile under the rendered file's path: `tile_id` is rebound
      to the filename before the two inserts. A render error propagates. */
  function FetchSpec(t: TileState, src: TileSource, tile: Tile, env: Env): TileOutcome
  {
    var key := TileKey(tile);
    if key in t.store.images then TileOutcome(t, Ok(t.store.images[key]))
    else
      StoreRendered(t.store, tile, env.contents,
                    RenderNormalized(t.host, src.mediaRoot, src.order, "png", TileSize, TileSize,
                                     TileBox(tile, env.num2deg), src.srs, src.styles, src.layers, src.kwargs, env))
  }

  /** The end of a fetch that rendered: on success the file's bytes are read, the file is
      removed, and both tables gain a row filed under the file's path. */
  function StoreRendered(store: Store, tile: Tile, contents: string -> Blob, o: Outcome<string>): TileOutcome
  {
    match o.result
    case Err(e) => TileOutcome(TileState(o.state, store), Err(e))
    case Ok(filename) =>
      var blob := contents(filename);
      TileOutcome(TileState(HostState(o.state.files - {filename}, o.state.index),
                            Store(store.images[filename := blob], store.tiles[tile := filename])),
                  Ok(blob))
  }

  /** The tile id reads back as the tile: it splits at its commas into the three
      coordinates in decimal. */
  lemma TileKeyRoundTrip(t: Tile)
    ensures var parts := Split(TileKey(t), ',');
            && |parts| == 3
            && DigitsValue(parts[0]) == t.z && DigitsValue(parts[1]) == t.x && DigitsValue(parts[2]) == t.y
  {
    var parts := [Decimal(t.z), Decimal(t.x), Decimal(t.y)];
    DecimalRoundTrip(t.z);
    DecimalRoundTrip(t.x);
    DecimalRoundTrip(t.y);
    DigitsOnlyLack(parts[0], ',');
    DigitsOnlyLack(parts[1], ',');
    DigitsOnlyLack(parts[2], ',');
    JoinSplit(parts, ',');
  }

  lemma DigitsOnlyLack(s: string, c: char)
    requires forall i :: 0 <= i < |s| ==> IsDigit(s[i])
    requires !IsDigit(c)
    ensures c !in s
  {
  }

  /** Different tiles have different ids. */
  lemma TileKeyInjective(a: Tile, b: Tile)
    requires TileKey(a) == TileKey(b)
    ensures a == b
  {
    TileKeyRoundTrip(a);
    TileKeyRoundTrip(b);
  }

  /** A tile id holds digits and commas only, so never a `/`. */
  lemma TileKeyHasNoSlash(t: Tile)
    ensures '/' !in TileKey(t)
  {
    var dz, dx, dy := Decimal(t.z), Decimal(t.x), Decimal(t.y);
    DecimalRoundTrip(t.z);
    DecimalRoundTrip(t.x);
    DecimalRoundTrip(t.y);
    DigitsOnlyLack(dz, '/');
    DigitsOnlyLack(dx, '/');
    DigitsOnlyLack(dy, '/');
    assert [dz, dx, dy][1..] == [dx, dy];
    assert [dx, dy][1..] == [dy];
    var key := TileKey(t);
    assert Join(",", [dy]) == dy;
    assert Join(",", [dx, dy]) == dx + "," + dy;
    assert key == dz + "," + (dx + "," + dy);
    assert multiset(key) == multiset(dz) + multiset(",") + (multiset(dx) + multiset(",") + multiset(dy));
  }

  /** Every id in `images` is a path. */
  predicate PathKeysOnly(images: map<string, Blob>)
  {
    forall k :: k in images ==> '/' in k
  }

  /** A render's result lies in the cache directory, so it holds a `/`. */
  lemma RenderedHasSlash(s: HostState, src: TileSource, tile: Tile, env: Env)
    requires RenderNormalized(s, src.mediaRoot, src.order, "png", TileSize, TileSize, TileBox(tile, env.num2deg),
                              src.srs, src.styles, src.layers, src.kwargs, env).result.Ok?
    ensures '/' in RenderNormalized(s, src.mediaRoot, src.order, "png", TileSize, TileSize,
                                    TileBox(tile, env.num2deg), src.srs, src.styles, src.layers, src.kwargs,
                                    env).result.value
  {
    var f := RenderNormalized(s, src.mediaRoot, src.order, "png", TileSize, TileSize, TileBox(tile, env.num2deg),
                              src.srs, src.styles, src.layers, src.kwargs, env).result.value;
    RenderedInCacheDir(s, src.mediaRoot, src.order, "png", TileSize, TileSize, TileBox(tile, env.num2deg),
                       src.srs, src.styles, src.layers, src.kwargs, env);
    var prefix := CacheDir(src.mediaRoot) + "/";
    assert f[|prefix| - 1] == prefix[|prefix| - 1] == '/';
  }

  /** The store is written but never read back: while every id in `images` is a path, a
      fetch finds no tile under its `z,x,y` id and calls `render`; what it stores is filed
      under the rendered path, in `images` and in `map`, so the next fetch of the same
      tile misses again. */
  lemma FetchAlwaysRenders(t: TileState, src: TileSource, tile: Tile, env: Env)
    requires PathKeysOnly(t.store.images)
    ensures TileKey(tile) !in t.store.images
    ensures var o := FetchSpec(t, src, tile, env);
            && PathKeysOnly(o.state.store.images)
            && TileKey(tile) !in o.state.store.images
            && (o.result.Ok? ==> && tile in o.state.store.tiles
                                 && o.state.store.tiles[tile] in o.state.store.images
                                 && o.state.store.images[o.state.store.tiles[tile]] == o.result.value
                                 && o.state.store.tiles[tile] !in o.state.host.files)
  {
    TileKeyHasNoSlash(tile);
    var o := RenderNormalized(t.host, src.mediaRoot, src.order, "png", TileSize, TileSize,
                              TileBox(tile, env.num2deg), src.srs, src.styles, src.layers, src.kwargs, env);
    if o.result.Ok? {
      RenderedHasSlash(t.host, src, tile, env);
    }
  }

  /** A cache opened with `fmt`, `width`, `height` or `bbox` among its keyword arguments
      (which `prepare_wms` accepts) cannot fetch a missing tile: the call to `render` repeats
      that parameter, which raises a TypeError, and nothing changes. */
  lemma FetchRejectsRenderKeywords(t: TileState, src: TileSource, tile: Tile, env: Env)
    requires TileKey(tile) !in t.store.images
    requires "fmt" in src.kwargs || "width" in src.kwargs || "height" in src.kwargs || "bbox" in src.kwargs
    ensures var o := FetchSpec(t, src, tile, env);
            && o.state == t
            && o.result.Err? && o.result.error.DuplicateArgument? && o.result.error.name in src.kwargs
  {
  }

  /** A fetch changes the store only at the tile and at the path it was rendered to:
      `INSERT OR REPLACE` keeps one row per tile and one per id. */
  lemma FetchUpserts(t: TileState, src: TileSource, tile: Tile, env: Env)
    ensures var o := FetchSpec(t, src, tile, env);
            && o.state.store.tiles.Keys <= t.store.tiles.Keys + {tile}
            && (forall u :: u in t.store.tiles && u != tile ==>
                  u in o.state.store.tiles && o.state.store.tiles[u] == t.store.tiles[u])
            && (forall k :: k in t.store.images ==> k in o.state.store.images)
            && |o.state.store.images.Keys - t.store.images.Keys| <= 1
  {
    if TileKey(tile) !in t.store.images {
      StoreUpserts(t.store, tile, env.contents,
                   RenderNormalized(t.host, src.mediaRoot, src.order, "png", TileSize, TileSize,
                                    TileBox(tile, env.num2deg), src.srs, src.styles, src.layers, src.kwargs, env));
    } else {
      assert FetchSpec(t, src, tile, env).state == t;
    }
  }

  lemma StoreUpserts(store: Store, tile: Tile, contents: string -> Blob, o: Outcome<string>)
    ensures var r := StoreRendered(store, tile, contents, o).state.store;
            && r.tiles.Keys <= store.tiles.Keys + {tile}
            && (forall u :: u in store.tiles && u != tile ==> u in r.tiles && r.tiles[u] == store.tiles[u])
            && (forall k :: k in store.images ==> k in r.images)
            && |r.images.Keys - store.images.Keys| <= 1
  {
    if o.result.Ok? {
      var f := o.result.value;
      UpsertAddsAtMostOne(store.images, f, contents(f));
    } else {
      assert StoreRendered(store, tile, contents, o).state.store == store;
    }
  }

  /** An upsert keeps every key and adds at most one. */
  lemma UpsertAddsAtMostOne<K, V>(m: map<K, V>, k: K, v: V)
    ensures m.Keys <= m[k := v].Keys
    ensures |m[k := v].Keys - m.Keys| <= 1
  {
    SubsetCard(m[k := v].Keys - m.Keys, {k});
  }

  lemma SubsetCard<T>(a: set<T>, b: set<T>)
    requires a <= b
    ensures |a| <= |b|
  {
    if a != {} {
      var x :| x in a;
      SubsetCard(a - {x}, b - {x});
    }
  }

  // ---------------------------------------------------------------- seeding

  function Pow2(n: nat): nat
  {
    if n == 0 then 1 else 2 * Pow2(n - 1)
  }

  function Pow4(n: nat): nat
  {
    if n == 0 then 1 else 4 * Pow4(n - 1)
  }

  /** The rows `0 .. k - 1` of column `x` at zoom `z`, in order. */
  function Column(z: nat, x: nat, k: nat): seq<Tile>
  {
    if k == 0 then [] else Column(z, x, k - 1) + [Tile(z, x, k - 1)]
  }

  /** The columns `0 .. k - 1` at zoom `z`, each of `n` rows. */
  function Columns(z: nat, n: nat, k: nat): seq<Tile>
  {
    if k == 0 then [] else Columns(z, n, k - 1) + Column(z, k - 1, n)
  }

  /** Every tile of zoom `z`: `2^z` columns of `2^z` rows. */
  function Level(z: nat): seq<Tile>
  {
    Columns(z, Pow2(z), Pow2(z))
  }

  /** The levels `lo .. lo + k - 1`, in order. */
  function Levels(lo: nat, k: nat): seq<Tile>
  {
    if k == 0 then [] else Levels(lo, k - 1) + Level(lo + k - 1)
  }

  /** The tiles `seed_tiles(lo, hi)` fetches, in the order of its three loops. */
  function SeedOrder(lo: nat, hi: nat): seq<Tile>
  {
    if hi < lo then [] else Levels(lo, hi - lo + 1)
  }

  /** `a` comes before `b` in zoom, then column, then row order. */
  predicate TileBefore(a: Tile, b: Tile)
  {
    a.z < b.z || (a.z == b.z && (a.x < b.x || (a.x == b.x && a.y < b.y)))
  }

  predicate Ascending(s: seq<Tile>)
  {
    forall i, j :: 0 <= i < j < |s| ==> TileBefore(s[i], s[j])
  }

  /** The sum of `4^z` for `z` in `lo .. lo + k - 1`. */
  function SumPow4(lo: nat, k: nat): nat
  {
    if k == 0 then 0 else SumPow4(lo, k - 1) + Pow4(lo + k - 1)
  }

  lemma AscendingConcat(a: seq<Tile>, b: seq<Tile>)
    requires Ascending(a) && Ascending(b)
    requires forall i, j :: 0 <= i < |a| && 0 <= j < |b| ==> TileBefore(a[i], b[j])
    ensures Ascending(a + b)
  {
    forall i, j | 0 <= i < j < |a + b|
      ensures TileBefore((a + b)[i], (a + b)[j])
    {
      if j < |a| {
        assert (a + b)[i] == a[i] && (a + b)[j] == a[j];
      } else if i < |a| {
        assert (a + b)[i] == a[i] && (a + b)[j] == b[j - |a|];
      } else {
        assert (a + b)[i] == b[i - |a|] && (a + b)[j] == b[j - |a|];
      }
    }
  }

  lemma {:induction false} ColumnSpec(z: nat, x: nat, k: nat)
    ensures |Column(z, x, k)| == k
    ensures forall t :: t in Column(z, x, k) <==> t.z == z && t.x == x && t.y < k
    ensures Ascending(Column(z, x, k))
  {
    if k > 0 {
      ColumnSpec(z, x, k - 1);
      AscendingConcat(Column(z, x, k - 1), [Tile(z, x, k - 1)]);
    }
  }

  lemma {:induction false} ColumnsLength(z: nat, n: nat, k: nat)
    ensures |Columns(z, n, k)| == k * n
  {
    if k > 0 {
      ColumnsLength(z, n, k - 1);
      ColumnSpec(z, k - 1, n);
      MulStep(k, n);
    }
  }

  lemma MulStep(k: nat, n: nat)
    requires k > 0
    ensures (k - 1) * n + n == k * n
  {
  }

  lemma {:induction false} ColumnsSpec(z: nat, n: nat, k: nat)
    ensures forall t :: t in Columns(z, n, k) <==> t.z == z && t.x < k && t.y < n
    ensures Ascending(Columns(z, n, k))
  {
    if k > 0 {
      var a, b := Columns(z, n, k - 1), Column(z, k - 1, n);
      ColumnsSpec(z, n, k - 1);
      ColumnSpec(z, k - 1, n);
      forall i, j | 0 <= i < |a| && 0 <= j < |b|
        ensures TileBefore(a[i], b[j])
      {
        assert a[i] in a && b[j] in b;
      }
      AscendingConcat(a, b);
    }
  }

  lemma {:induction false} Pow2Square(z: nat)
    ensures Pow2(z) * Pow2(z) == Pow4(z)
  {
    if z > 0 {
      Pow2Square(z - 1);
      var p := Pow2(z - 1);
      assert Pow2(z) * Pow2(z) == (2 * p) * (2 * p) == 4 * (p * p);
    }
  }

  lemma LevelSpec(z: nat)
    ensures |Level(z)| == Pow4(z)
    ensures forall t :: t in Level(z) <==> t.z == z && t.x < Pow2(z) && t.y < Pow2(z)
    ensures Ascending(Level(z))
  {
    ColumnsSpec(z, Pow2(z), Pow2(z));
    ColumnsLength(z, Pow2(z), Pow2(z));
    Pow2Square(z);
  }

  lemma {:induction false} LevelsLength(lo: nat, k: nat)
    ensures |Levels(lo, k)| == SumPow4(lo, k)
  {
    if k > 0 {
      LevelsLength(lo, k - 1);
      LevelSpec(lo + k - 1);
    }
  }

  lemma {:induction false} LevelsMembers(lo: nat, k: nat)
    ensures forall t :: t in Levels(lo, k) <==> lo <= t.z < lo + k && t.x < Pow2(t.z) && t.y < Pow2(t.z)
  {
    if k > 0 {
      var a, b := Levels(lo, k - 1), Level(lo + k - 1);
      LevelsMembers(lo, k - 1);
      LevelSpec(lo + k - 1);
      forall t: Tile
        ensures t in a + b <==> lo <= t.z < lo + k && t.x < Pow2(t.z) && t.y < Pow2(t.z)
      {
        assert t in a + b <==> t in a || t in b;
      }
    }
  }

  lemma {:induction false} LevelsAscending(lo: nat, k: nat)
    ensures Ascending(Levels(lo, k))
  {
    if k > 0 {
      var a, b := Levels(lo, k - 1), Level(lo + k - 1);
      LevelsAscending(lo, k - 1);
      LevelsMembers(lo, k - 1);
      LevelSpec(lo + k - 1);
      forall i, j | 0 <= i < |a| && 0 <= j < |b|
        ensures TileBefore(a[i], b[j])
      {
        assert a[i] in a && b[j] in b;
      }
      AscendingConcat(a, b);
    }
  }

  /** An ascending sequence holds no tile twice. */
  lemma AscendingDistinct(s: seq<Tile>)
    requires Ascending(s)
    ensures forall i, j :: 0 <= i < j < |s| ==> s[i] != s[j]
  {
    forall i, j | 0 <= i < j < |s|
      ensures s[i] != s[j]
    {
      assert TileBefore(s[i], s[j]);
    }
  }

  /** `seed_tiles(lo, hi)` fetches exactly the tiles with `lo <= z <= hi` and `x, y < 2^z`,
      each once, zoom outermost, then column, then row: `Σ 4^z` fetches in all. */
  lemma SeedOrderSpec(lo: nat, hi: nat)
    ensures forall t :: t in SeedOrder(lo, hi) <==> lo <= t.z <= hi && t.x < Pow2(t.z) && t.y < Pow2(t.z)
    ensures Ascending(SeedOrder(lo, hi))
    ensures forall i, j :: 0 <= i < j < |SeedOrder(lo, hi)| ==> SeedOrder(lo, hi)[i] != SeedOrder(lo, hi)[j]
    ensures |SeedOrder(lo, hi)| == if hi < lo then 0 else SumPow4(lo, hi - lo + 1)
  {
    if lo <= hi {
      LevelsLength(lo, hi - lo + 1);
      LevelsMembers(lo, hi - lo + 1);
      LevelsAscending(lo, hi - lo + 1);
    }
    AscendingDistinct(SeedOrder(lo, hi));
  }

  /** Seeding as a whole: the state after fetching the tiles in order, stopping at the first
      error, which propagates. */
  datatype SeedOutcome = SeedOutcome(state: TileState, error: Option<WmsError>)

  /** `self.fetch_tile` of a cache over `src`. */
  function Fetcher(src: TileSource, env: Env): (TileState, Tile) -> TileOutcome
  {
    (t: TileState, tile: Tile) => FetchSpec(t, src, tile, env)
  }

  /** `fetch` is `fetch_tile` of a cache over `src`. Instances are made only where a fetch of
      the cache itself is in view, so that reasoning about the seeding loops does not
      unfold every fetch. */
  ghost predicate FetchesWith(fetch: (TileState, Tile) -> TileOutcome, src: TileSource, env: Env)
  {
    forall t: TileState, tile: Tile {:trigger FetchSpec(t, src, tile, env)} ::
      fetch(t, tile) == FetchSpec(t, src, tile, env)
  }

  /** Fetching `tiles` one after the other with `fetch`. */
  function FetchAll(t: TileState, fetch: (TileState, Tile) -> TileOutcome, tiles: seq<Tile>): SeedOutcome
  {
    if tiles == [] then SeedOutcome(t, None)
    else
      var prev := FetchAll(t, fetch, tiles[..|tiles| - 1]);
      if prev.error.Some? then prev
      else
        var o := fetch(prev.state, tiles[|tiles| - 1]);
        SeedOutcome(o.state, if o.result.Err? then Some(o.result.error) else None)
  }

  /** `seed_tiles(min_zoom, max_zoom)`: nothing for an empty zoom range; a negative first
      zoom makes `2**z` a float, which `range` refuses with a TypeError before any fetch. */
  function SeedSpec(t: TileState, src: TileSource, minZoom: int, maxZoom: int, env: Env): SeedOutcome
  {
    if maxZoom < minZoom then SeedOutcome(t, None)
    else if minZoom < 0 then SeedOutcome(t, Some(TypeError))
    else FetchAll(t, Fetcher(src, env), SeedOrder(minZoom, maxZoom))
  }

  lemma FetchAllStep(t: TileState, fetch: (TileState, Tile) -> TileOutcome, done: seq<Tile>, tile: Tile)
    ensures var prev := FetchAll(t, fetch, done);
            FetchAll(t, fetch, done + [tile])
            == if prev.error.Some? then prev
               else
                 var o := fetch(prev.state, tile);
                 SeedOutcome(o.state, if o.result.Err? then Some(o.result.error) else None)
  {
    assert (done + [tile])[..|done|] == done;
  }

  predicate IsPrefix(a: seq<Tile>, b: seq<Tile>)
  {
    |a| <= |b| && b[..|a|] == a
  }

  /** After an error, later tiles are not fetched. */
  lemma {:induction false} FetchAllStops(t: TileState, fetch: (TileState, Tile) -> TileOutcome,
                                         done: seq<Tile>, all: seq<Tile>)
    requires IsPrefix(done, all)
    requires FetchAll(t, fetch, done).error.Some?
    ensures FetchAll(t, fetch, all) == FetchAll(t, fetch, done)
  {
    if |all| > |done| {
      var front := all[..|all| - 1];
      assert front[..|done|] == done;
      FetchAllStops(t, fetch, done, front);
    } else {
      assert all == done;
    }
  }

  lemma PrefixTrans(a: seq<Tile>, b: seq<Tile>, c: seq<Tile>)
    requires IsPrefix(a, b) && IsPrefix(b, c)
    ensures IsPrefix(a, c)
  {
    assert c[..|a|] == c[..|b|][..|a|];
  }

  lemma PrefixAfter(c: seq<Tile>, a: seq<Tile>, b: seq<Tile>)
    requires IsPrefix(a, b)
    ensures IsPrefix(c + a, c + b)
  {
    assert (c + b)[..|c + a|] == c + b[..|a|];
  }

  lemma {:induction false} ColumnPrefix(z: nat, x: nat, j: nat, k: nat)
    requires j <= k
    ensures IsPrefix(Column(z, x, j), Column(z, x, k))
  {
    if j < k {
      ColumnPrefix(z, x, j, k - 1);
      assert Column(z, x, k)[..k - 1] == Column(z, x, k - 1) by { ColumnSpec(z, x, k - 1); }
      ColumnSpec(z, x, j);
      ColumnSpec(z, x, k - 1);
      PrefixTrans(Column(z, x, j), Column(z, x, k - 1), Column(z, x, k));
    }
  }

  lemma {:induction false} ColumnsPrefix(z: nat, n: nat, j: nat, k: nat)
    requires j <= k
    ensures IsPrefix(Columns(z, n, j), Columns(z, n, k))
  {
    if j < k {
      ColumnsPrefix(z, n, j, k - 1);
      var front := Columns(z, n, k - 1);
      assert Columns(z, n, k)[..|front|] == front;
      PrefixTrans(Columns(z, n, j), front, Columns(z, n, k));
    }
  }

  lemma {:induction false} LevelsPrefix(lo: nat, j: nat, k: nat)
    requires j <= k
    ensures IsPrefix(Levels(lo, j), Levels(lo, k))
  {
    if j < k {
      LevelsPrefix(lo, j, k - 1);
      var front := Levels(lo, k - 1);
      assert Levels(lo, k)[..|front|] == front;
      PrefixTrans(Levels(lo, j), front, Levels(lo, k));
    }
  }

  lemma RowStep(before: seq<Tile>, z: nat, x: nat, y: nat)
    ensures before + Column(z, x, y) + [Tile(z, x, y)] == before + Column(z, x, y + 1)
  {
  }

  lemma ColumnStep(before: seq<Tile>, z: nat, n: nat, x: nat)
    ensures before + Columns(z, n, x) + Column(z, x, n) == before + Columns(z, n, x + 1)
  {
  }

  lemma LevelStep(t: TileState, fetch: (TileState, Tile) -> TileOutcome, lo: nat, z: nat, o: SeedOutcome)
    requires lo <= z
    requires FetchAll(t, fetch, Levels(lo, z - lo) + Level(z)) == o
    ensures FetchAll(t, fetch, Levels(lo, z + 1 - lo)) == o
  {
    assert Levels(lo, z - lo) + Level(z) == Levels(lo, z + 1 - lo);
  }

  /** An error in zoom level `z` ends the seeding there. */
  lemma StopsAtLevel(t: TileState, fetch: (TileState, Tile) -> TileOutcome, lo: nat, hi: nat, z: nat,
                     o: SeedOutcome)
    requires lo <= z <= hi
    requires FetchAll(t, fetch, Levels(lo, z + 1 - lo)) == o && o.error.Some?
    ensures FetchAll(t, fetch, SeedOrder(lo, hi)) == o
  {
    LevelsPrefix(lo, z + 1 - lo, hi - lo + 1);
    FetchAllStops(t, fetch, Levels(lo, z + 1 - lo), SeedOrder(lo, hi));
  }

  /** `fetch`, from a store whose ids are all paths, keeps them so, keeps every row of `map`
      and, when it succeeds, gives the tile a row. */
  ghost predicate RendersEveryTile(fetch: (TileState, Tile) -> TileOutcome)
  {
    forall t: TileState, tile: Tile :: PathKeysOnly(t.store.images) ==>
      && PathKeysOnly(fetch(t, tile).state.store.images)
      && (fetch(t, tile).result.Ok? ==> tile in fetch(t, tile).state.store.tiles)
      && t.store.tiles.Keys <= fetch(t, tile).state.store.tiles.Keys
  }

  lemma FetcherRendersEveryTile(src: TileSource, env: Env)
    ensures RendersEveryTile(Fetcher(src, env))
  {
    forall t: TileState, tile: Tile | PathKeysOnly(t.store.images)
      ensures var o := Fetcher(src, env)(t, tile);
              && PathKeysOnly(o.state.store.images)
              && (o.result.Ok? ==> tile in o.state.store.tiles)
              && t.store.tiles.Keys <= o.state.store.tiles.Keys
    {
      FetchAlwaysRenders(t, src, tile, env);
      FetchUpserts(t, src, tile, env);
    }
  }

  lemma {:induction false} FetchAllRenders(t: TileState, fetch: (TileState, Tile) -> TileOutcome, tiles: seq<Tile>)
    requires RendersEveryTile(fetch)
    requires PathKeysOnly(t.store.images)
    ensures var o := FetchAll(t, fetch, tiles);
            && PathKeysOnly(o.state.store.images)
            && (o.error.None? ==> forall i :: 0 <= i < |tiles| ==> tiles[i] in o.state.store.tiles)
  {
    if tiles != [] {
      var front := tiles[..|tiles| - 1];
      FetchAllRenders(t, fetch, front);
      var prev := FetchAll(t, fetch, front);
      if prev.error.None? {
        var o := fetch(prev.state, tiles[|tiles| - 1]);
        if o.result.Ok? {
          forall i | 0 <= i < |tiles|
            ensures tiles[i] in o.state.store.tiles
          {
            if i < |front| {
              assert tiles[i] == front[i];
            }
          }
        }
      }
    }
  }

  /** Seeding from a store that holds no tile ids renders every tile of the zoom range:
      when it ends without error, each tile with `lo <= z <= hi` and `x, y < 2^z` has its
      row in `map`, and the store still holds no tile ids. */
  lemma SeedRendersAll(t: TileState, src: TileSource, lo: int, hi: int, env: Env)
    requires PathKeysOnly(t.store.images)
    ensures var o := SeedSpec(t, src, lo, hi, env);
            && PathKeysOnly(o.state.store.images)
            && (o.error.None? ==> forall tile: Tile :: lo <= tile.z <= hi && tile.x < Pow2(tile.z) && tile.y < Pow2(tile.z)
                                    ==> tile in o.state.store.tiles)
  {
    if lo <= hi && lo >= 0 {
      var order := SeedOrder(lo, hi);
      FetcherRendersEveryTile(src, env);
      FetchAllRenders(t, Fetcher(src, env), order);
      SeedOrderSpec(lo, hi);
      forall tile: Tile | lo <= tile.z <= hi && tile.x < Pow2(tile.z) && tile.y < Pow2(tile.z)
        ensures tile in order
      {
      }
    }
  }

  /** A tile cache over one render host. */
  class MBTileCache {
    const host: RenderHost
    const srs: string := Mercator
    const name: string
    const cachename: string
    const layers: seq<string>
    const styles: seq<string>
    const kwargs: Kwargs
    var store: Store

    function Source(): TileSource
    {
      TileSource(host.mediaRoot, host.order, srs, layers, styles, kwargs)
    }

    function State(): TileState
      reads this, host
    {
      TileState(host.State(), store)
    }

    constructor Init(host: RenderHost, name: string, layers: seq<string>, styles: seq<string>,
                     kwargs: Kwargs, store: Store)
      ensures this.host == host && this.name == name
      ensures this.cachename == name + ".mbtiles"
      ensures this.layers == layers && this.styles == styles && this.kwargs == kwargs
      ensures this.store == store
    {
      this.host := host;
      this.name := name;
      this.cachename := name + ".mbtiles";
      this.layers := layers;
      this.styles := styles;
      this.kwargs := kwargs;
      this.store := store;
    }

    /** `MBTileCache(layers, styles, **kwargs)`: prepare the entry in web mercator, then
        connect to `<entry>.mbtiles`, which creates the file when it is missing and then
        gets empty tables; an existing file keeps its tables, `onDisk`. */
    static method Open(host: RenderHost, layers: seq<string>, styles: seq<string>, kwargs: Kwargs,
                       env: Env, onDisk: Store)
      returns (r: Result<MBTileCache, WmsError>)
      modifies host
      ensures var p := PrepareSpec(old(host.State()), host.mediaRoot, host.order, layers, Mercator,
                                   styles, kwargs, env);
              match p.result
              case Err(e) => r == Err(e) && host.State() == p.state
              case Ok(name) =>
                && r.Ok? && fresh(r.value)
                && r.value.host == host && r.value.name == name
                && r.value.cachename == name + ".mbtiles"
                && r.value.layers == layers && r.value.styles == styles && r.value.kwargs == kwargs
                && r.value.store == (if name + ".mbtiles" in p.state.files then onDisk else Store(map[], map[]))
                && host.State() == HostState(p.state.files + {name + ".mbtiles"}, p.state.index)
    {
      var prepared := host.PrepareWms(layers, Mercator, styles, kwargs, env);
      if prepared.Err? {
        return Err(prepared.error);
      }
      var name := prepared.value;
      var store := if name + ".mbtiles" in host.files then onDisk else Store(map[], map[]);
      host.files := host.files + {name + ".mbtiles"};
      var cache := new MBTileCache.Init(host, name, layers, styles, kwargs, store);
      r := Ok(cache);
    }

    /** `fetch_tile(z, x, y)`. */
    method FetchTile(z: nat, x: nat, y: nat, env: Env) returns (r: Result<Blob, WmsError>)
      modifies this, host
      ensures TileOutcome(State(), r) == FetchSpec(old(State()), Source(), Tile(z, x, y), env)
    {
      var tile := Tile(z, x, y);
      var key := TileKey(tile);
      if key in store.images {
        return Ok(store.images[key]);
      }
      var rendered := host.Render("png", TileSize, TileSize, TileBox(tile, env.num2deg), srs, styles,
                                  layers, kwargs, env);
      MercatorIsNormal();
      RenderKeepsSrs(old(host.State()), host.mediaRoot, host.order, "png", TileSize, TileSize,
                     TileBox(tile, env.num2deg), srs, styles, layers, kwargs, env);
      if rendered.Err? {
        return Err(rendered.error);
      }
      var filename := rendered.value;
      var blob := env.contents(filename);
      host.Unlink(filename);
      store := Store(store.images[filename := blob], store.tiles[tile := filename]);
      r := Ok(blob);
    }

    /** One `self.fetch_tile(z, x, y)` of the seeding loops, after the tiles `done`. */
    method FetchNext(z: nat, x: nat, y: nat, env: Env, ghost fetch: (TileState, Tile) -> TileOutcome,
                     ghost start: TileState, ghost done: seq<Tile>)
      returns (r: Result<Blob, WmsError>)
      requires FetchesWith(fetch, Source(), env)
      requires FetchAll(start, fetch, done) == SeedOutcome(State(), None)
      modifies this, host
      ensures FetchAll(start, fetch, done + [Tile(z, x, y)])
              == SeedOutcome(State(), if r.Err? then Some(r.error) else None)
    {
      FetchAllStep(start, fetch, done, Tile(z, x, y));
      r := FetchTile(z, x, y, env);
    }

    /** The innermost loop of `seed_tiles`: the rows of column `x` at zoom `z`. */
    method SeedColumn(z: nat, x: nat, n: nat, env: Env, ghost fetch: (TileState, Tile) -> TileOutcome,
                      ghost start: TileState, ghost done: seq<Tile>)
      returns (error: Option<WmsError>)
      requires FetchesWith(fetch, Source(), env)
      requires FetchAll(start, fetch, done) == SeedOutcome(State(), None)
      modifies this, host
      ensures FetchAll(start, fetch, done + Column(z, x, n)) == SeedOutcome(State(), error)
    {
      assert done + Column(z, x, 0) == done;
      for y := 0 to n
        invariant FetchAll(start, fetch, done + Column(z, x, y)) == SeedOutcome(State(), None)
      {
        var r := FetchNext(z, x, y, env, fetch, start, done + Column(z, x, y));
        RowStep(done, z, x, y);
        if r.Err? {
          ColumnPrefix(z, x, y + 1, n);
          PrefixAfter(done, Column(z, x, y + 1), Column(z, x, n));
          FetchAllStops(start, fetch, done + Column(z, x, y + 1), done + Column(z, x, n));
          return Some(r.error);
        }
      }
      error := None;
    }

    /** The middle loop of `seed_tiles`: the columns of zoom `z`. */
    method SeedLevel(z: nat, env: Env, ghost fetch: (TileState, Tile) -> TileOutcome,
                     ghost start: TileState, ghost done: seq<Tile>)
      returns (error: Option<WmsError>)
      requires FetchesWith(fetch, Source(), env)
      requires FetchAll(start, fetch, done) == SeedOutcome(State(), None)
      modifies this, host
      ensures FetchAll(start, fetch, done + Level(z)) == SeedOutcome(State(), error)
    {
      var n := Pow2(z);
      assert done + Columns(z, n, 0) == done;
      for x := 0 to n
        invariant FetchAll(start, fetch, done + Columns(z, n, x)) == SeedOutcome(State(), None)
      {
        error := SeedColumn(z, x, n, env, fetch, start, done + Columns(z, n, x));
        ColumnStep(done, z, n, x);
        if error.Some? {
          ColumnsPrefix(z, n, x + 1, n);
          PrefixAfter(done, Columns(z, n, x + 1), Columns(z, n, n));
          FetchAllStops(start, fetch, done + Columns(z, n, x + 1), done + Columns(z, n, n));
          return;
        }
      }
      error := None;
    }

    /** The outer loop of `seed_tiles`: the zoom levels `lo .. hi`. */
    method SeedLevels(lo: nat, hi: nat, env: Env, ghost fetch: (TileState, Tile) -> TileOutcome)
      returns (error: Option<WmsError>)
      requires lo <= hi
      requires FetchesWith(fetch, Source(), env)
      modifies this, host
      ensures FetchAll(old(State()), fetch, SeedOrder(lo, hi)) == SeedOutcome(State(), error)
    {
      ghost var start := State();
      var z := lo;
      while z <= hi
        invariant lo <= z <= hi + 1
        invariant FetchAll(start, fetch, Levels(lo, z - lo)) == SeedOutcome(State(), None)
      {
        error := SeedLevel(z, env, fetch, start, Levels(lo, z - lo));
        LevelStep(start, fetch, lo, z, SeedOutcome(State(), error));
        if error.Some? {
          StopsAtLevel(start, fetch, lo, hi, z, SeedOutcome(State(), error));
          return;
        }
        z := z + 1;
      }
      error := None;
    }

    /** `seed_tiles(min_zoom, max_zoom)`: zoom, then column, then row. */
    method SeedTiles(minZoom: int, maxZoom: int, env: Env) returns (error: Option<WmsError>)
      modifies this, host
      ensures SeedOutcome(State(), error) == SeedSpec(old(State()), Source(), minZoom, maxZoom, env)
    {
      error := None;
      if maxZoom < minZoom {
        return;
      }
      if minZoom < 0 {
        return Some(TypeError);
      }
      error := SeedLevels(minZoom, maxZoom, env, Fetcher(Source(), env));
    }
  }

  // ---------------------------------------------------------------- fetch_tile as written

  /** A Python value passed as a tile coordinate. */
  datatype PyValue = PyInt(i: int) | PyStr(s: string)

  /** `','.join(values)`: every item must be a string. */
  function JoinAsWritten(values: seq<PyValue>): Result<string, WmsError>
  {
    if forall i :: 0 <= i < |values| ==> values[i].PyStr? then
      Ok(Join(",", seq(|values|, i requires 0 <= i < |values| => values[i].s)))
    else Err(TypeError)
  }

  /** `v + 1`: the value must be a number. */
  function IncrementAsWritten(v: PyValue): Result<int, WmsError>
  {
    if v.PyInt? then Ok(v.i + 1) else Err(TypeError)
  }

  /** The first two statements of `fetch_tile` as written: the tile id
      `','.join((z, x, y))`, then `y + 1` for the south-west corner. */
  function FetchPrologueAsWritten(z: PyValue, x: PyValue, y: PyValue): Result<(string, int), WmsError>
  {
    match JoinAsWritten([z, x, y])
    case Err(e) => Err(e)
    case Ok(key) =>
      match IncrementAsWritten(y)
      case Err(e) => Err(e)
      case Ok(below) => Ok((key, below))
  }

  /** As written, `fetch_tile` raises a TypeError for every argument: the join needs `y` to
      be a string, the increment needs it to be a number. `seed_tiles` passes numbers, so
      it raises at its first tile. */
  lemma FetchAsWrittenAlwaysRaises(z: PyValue, x: PyValue, y: PyValue)
    ensures FetchPrologueAsWritten(z, x, y) == Err(TypeError)
  {
    if JoinAsWritten([z, x, y]).Ok? {
      assert [z, x, y][2].PyStr?;
    }
  }
}
