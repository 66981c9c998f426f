# Render cache of ga_resources, modelled in Dafny

This project models the map-render cache of `ga_resources/drivers/__init__.py`. The cache turns a request into an image. A request names layers, styles, a spatial reference, a size and a box.

- **Spatial references.** `render` normalises them. Any EPSG code whose text ends in `900913` or `3857` (so `EPSG:13857` too) becomes the fixed Mercator proj4 string. Any other EPSG code becomes `+init=epsg:…`. Other text is kept as it is. (module `Srs`)
- **Cache entries.** `prepare_wms` names a cache entry: the md5 of the five hashed arguments, inside `MEDIA_ROOT/.cache/_cached_layers`. (module `CacheKey`)
- **Reverse index.** `prepare_wms` records the entry under every style string and every raw layer string. (module `ReverseIndex`)
- **Layers.** `prepare_wms` splits `slug#sub`, looks each layer up and asks its driver for a layer spec. `kwargs['sublayer']` is written in place, so a sublayer stays in force for every later layer. (module `LayerSpecs`)
- **Map document.** It is built by `compile_mml` and `compile_layer`. (module `MapSpec`)
- **Compile step.** A `.lock` sentinel, the `.mml` and the `.xml` mapfile written by carto. (module `CompileLock`)
- **Direct images.** A direct image is named by the md5 of its box and size. An image file that exists is served without drawing. (module `RenderCache`)
- **Tile cache.** `MBTileCache` stores rendered tiles in an mbtiles store, and `seed_tiles` fetches every tile of a zoom range. (module `TileStore`)
- **Base driver.** The path logic of the base `Driver`: `cached_basename` and `get_filename`. (module `Drivers`)

Everything the render path calls but does not define is a field of `Collaborators.Env`, and every lemma holds for every choice of these fields:

- md5
- `unicode()` and `str()` of values and coordinates
- the `RenderedLayer` and `Style` tables
- the drivers' `ready_data_resource`
- carto
- mapnik
- `num2deg`
- the bytes of a rendered file

The state of the render path is the set of paths that exist plus the reverse index (`RenderCache.HostState`). The tile store holds two tables:

- `images`: tile id → tile data.
- `map`: tile → tile id.

Each operation that changes state is a method of a class (`RenderCache.RenderHost`, `TileStore.MBTileCache`). Its postcondition equates the new state and the result with a function of the old state. The lemmas prove what the source promises about those functions.

## Model

| member | source | states |
|---|---|---|
| Srs.NormalizeSrs | ga_resources/drivers/__init__.py:323-327 | the result is never an EPSG code; an EPSG code becomes a string starting with `+`; any other text is returned unchanged |
| Srs.NormalizeMercator | ga_resources/drivers/__init__.py:323-325 | an EPSG code ending in `900913` or `3857` becomes the fixed Mercator proj4 string |
| Srs.NormalizeInit | ga_resources/drivers/__init__.py:323-327 | any other EPSG code becomes `+init=` followed by the lower-cased code |
| Srs.NormalizeIdempotent | ga_resources/drivers/__init__.py:323-327 | normalising twice is the same as normalising once |
| Srs.MercatorIsNormal | ga_resources/drivers/__init__.py:358 | the Mercator string of the tile cache passes through normalisation unchanged |
| Srs.NormalizeMercatorCode | ga_resources/drivers/__init__.py:323-325 | `EPSG:3857`, in capitals, becomes the Mercator string |
| Srs.NormalizeOtherCode | ga_resources/drivers/__init__.py:326-327 | `EPSG:4326` becomes `+init=epsg:4326` |
| Strings.Split | ga_resources/drivers/__init__.py:303 | a one-character split is never empty, has two or more parts exactly when the separator occurs, and no part holds the separator |
| Strings.SplitJoin | ga_resources/drivers/__init__.py:303 | joining the parts of a split with the separator gives back the string |
| Strings.JoinSplit | ga_resources/drivers/__init__.py:303 | splitting a join of separator-free parts gives back the parts |
| Strings.SplitCount | ga_resources/drivers/__init__.py:303 | a split has one part more than the string has separators |
| Strings.DecimalRoundTrip | ga_resources/drivers/__init__.py:397 | `str(n)` of a natural number is digits only and reads back as `n` |
| Paths.Tail | ga_resources/drivers/__init__.py:148 | `os.path.split(p)[-1]` holds no `/`, ends `p`, and is preceded by a `/` when shorter than `p` |
| Paths.PathJoin | ga_resources/drivers/__init__.py:149 | definition of `os.path.join`: an absolute name replaces the directory; otherwise one `/` separates them unless the directory is empty or already ends in `/` (properties in `PathJoinSuffix`, `Drivers.GetFilenameInCachePath`) |
| Paths.PathJoinSuffix | ga_resources/drivers/__init__.py:149 | joining a relative name and then appending a suffix is joining the suffixed name |
| CacheKey.BindPrepareArgs | ga_resources/drivers/__init__.py:282 | binding fails exactly when a keyword repeats `layers`, `srs` or `styles`; otherwise `bgcolor` and `transparent` default to None and every other keyword stays in `**kwargs` |
| CacheKey.Serialized | ga_resources/drivers/__init__.py:284-287 | definition: each field's name and shown value, in dictionary order (properties in `EntryBasename`, `ExtraKwargsIgnored`) |
| CacheKey.EntryBasename | ga_resources/drivers/__init__.py:283-288 | the md5 loop returns the digest of every field name and value, fed in dictionary order |
| CacheKey.CacheDir | ga_resources/drivers/__init__.py:289 | the cache directory is the media root, a separator unless the root is empty or ends in `/`, then `.cache/_cached_layers` |
| CacheKey.CachedFilename | ga_resources/drivers/__init__.py:294 | the entry is the cache directory, `/`, and the hex digest |
| CacheKey.ExtraKwargsIgnored | ga_resources/drivers/__init__.py:282-294 | keyword arguments other than `bgcolor` and `transparent` never change the cache entry |
| ReverseIndex.Add | ga_resources/drivers/__init__.py:296 | `sadd` adds the member to the key's set, creating the key if needed, and leaves every other key alone |
| ReverseIndex.AddAll | ga_resources/drivers/__init__.py:295-296 | after the loop every key of the sequence holds the member; every other key is as before; no key is lost |
| ReverseIndex.RegisteredSpec | ga_resources/drivers/__init__.py:295-298 | the entry is added under every style and every raw layer string (with its `#sub`); all other keys keep their sets |
| ReverseIndex.RegisteredIdempotent | ga_resources/drivers/__init__.py:295-298 | registering the same request twice leaves the index as after the first time |
| ReverseIndex.RegisteredOrderFree | ga_resources/drivers/__init__.py:295-298 | registering styles before layers or layers before styles gives the same index |
| RenderCache.RenderHost.Register | ga_resources/drivers/__init__.py:295-298 | the two `sadd` loops leave the index `Registered` describes |
| RenderCache.RenderHost.AddEach | ga_resources/drivers/__init__.py:295-296 | one `sadd` loop leaves the index `AddAll` describes |
| LayerSpecs.KwargsAfter | ga_resources/drivers/__init__.py:301-303 | definition: the keyword arguments after each `slug#sub` layer has written `sublayer` (properties in `ResolveLayersKwargs`, `SublayerLeaks`) |
| LayerSpecs.ResolveLayers | ga_resources/drivers/__init__.py:300-307 | definition: the layers in order; a layer with more than one `#` or an unknown slug raises, otherwise its driver's spec is taken with the keyword arguments so far (properties in `ResolveLayersOk`, `ResolveLayersSpecs`) |
| LayerSpecs.ResolveLayersOk | ga_resources/drivers/__init__.py:300-307 | resolution succeeds exactly when every layer has at most one `#` and a known slug |
| LayerSpecs.ResolveLayersKwargs | ga_resources/drivers/__init__.py:301-303 | after the loop the keyword arguments are those written by the `#` layers |
| LayerSpecs.ResolveLayersSpecs | ga_resources/drivers/__init__.py:300-307 | one spec per layer, in order, from the layer's slug and the keyword arguments as the loop had left them at that layer |
| LayerSpecs.SublayerLeaks | ga_resources/drivers/__init__.py:302-303 | a sublayer set by `slug#sub` stays in force for every later layer up to the next `#` layer |
| LayerSpecs.OnlySublayerWritten | ga_resources/drivers/__init__.py:302-303 | the loop writes no keyword other than `sublayer` |
| LayerSpecs.NoHashNoChange | ga_resources/drivers/__init__.py:301-306 | without a `#` layer, the drivers see the caller's keyword arguments unchanged |
| LayerSpecs.LayerStringParts | ga_resources/drivers/__init__.py:303 | `slug#sub` splits into the slug and the sublayer; a bare slug is its own slug |
| RenderCache.ResolveLayerSpecs | ga_resources/drivers/__init__.py:300-307 | the loop returns what `ResolveLayers` describes: the specs, or the first ValueError or DoesNotExist |
| MapSpec.SafeId | ga_resources/drivers/__init__.py:256 | `re.sub('/', '_', s)` keeps the length and leaves no `/` |
| MapSpec.StyleStringParts | ga_resources/drivers/__init__.py:264-265 | `slug.cls` names stylesheet `slug` and class `cls`; a bare slug names itself and class `default` |
| MapSpec.CompileLayer | ga_resources/drivers/__init__.py:254-261 | a parameter named like a positional argument is a TypeError; otherwise id and name are the parameters' own values when present and the sanitised layer id when not, srs is the text or the proj4 export, Datasource is the parameters unchanged |
| MapSpec.LayerClassIgnoresSelectors | ga_resources/drivers/__init__.py:258 | the class attribute depends only on how many css classes there are, not on which |
| MapSpec.LayerClassWords | ga_resources/drivers/__init__.py:258 | the class attribute is the default class once per css class, space-separated (empty when there are none) |
| MapSpec.DefaultClassWins | ga_resources/drivers/__init__.py:258 | for a one-style request `slug.cls` the layer gets its own default class, not `cls` |
| MapSpec.Stylesheets | ga_resources/drivers/__init__.py:264 | one block per style, in order, looked up by the part before the first `.`, with `/` made `_` in its id; the first unknown slug raises DoesNotExist |
| MapSpec.LayerBlocks | ga_resources/drivers/__init__.py:270 | one layer block per resolved layer, in input order; the first failing `compile_layer` raises |
| MapSpec.CompileMml | ga_resources/drivers/__init__.py:263-272 | the document carries the request's srs, the stylesheet blocks and the layer blocks, and fails exactly when either list fails |
| MapSpec.StylesheetIdsSafe | ga_resources/drivers/__init__.py:269 | no stylesheet id of a compiled document holds a `/` |
| CompileLock.CompiledIsReused | ga_resources/drivers/__init__.py:309 | with the mapfile present nothing changes and nothing raises, whatever carto would do |
| CompileLock.CompileTransitions | ga_resources/drivers/__init__.py:309-317 | without a mapfile, the `.mml` is left; the lock is left exactly when the compile fails; the mapfile exists after success; it raises exactly on carto exit status 1, with carto's stderr; no other path changes |
| CompileLock.LockIgnored | ga_resources/drivers/__init__.py:311 | a lock left by an earlier attempt makes no difference to the step |
| CompileLock.FailedCompileRetried | ga_resources/drivers/__init__.py:309-317 | a failure that left no mapfile is attempted again in full by the next call and ends the same way, lock still present |
| CompileLock.CompileStep | ga_resources/drivers/__init__.py:309-317 | definition: an existing mapfile ends the step; otherwise the lock and the `.mml` are written and carto runs; a compile removes the lock and leaves the mapfile, exit status 1 raises with stderr, every other failure is swallowed with the lock left (properties in `CompileTransitions` and the lemmas below it) |
| CompileLock.CompileIdempotent | ga_resources/drivers/__init__.py:309-317 | repeating the step changes no path, and a step that raised nothing ends the same way when repeated |
| CompileLock.CompileTransitionsKeep | ga_resources/drivers/__init__.py:309-317 | the step never removes a path other than the lock |
| CompileLock.CompileFrame | ga_resources/drivers/__init__.py:309-317 | a path that is none of the entry's artifacts plays no part in the step and survives it |
| RenderCache.RenderHost.CompileIfMissing | ga_resources/drivers/__init__.py:309-317 | the compile block leaves the paths and the raised error `CompileStep` describes |
| RenderCache.PrepareSpec | ga_resources/drivers/__init__.py:282-319 | definition: binding, then the cache directory is created and the entry indexed under every style and raw layer string, then `PrepareNamed` (properties in `PrepareReturnsEntry`, `PrepareIdempotent`, `PrepareFrame`) |
| RenderCache.PrepareNamed | ga_resources/drivers/__init__.py:300-319 | definition: a layer that fails to resolve raises before the compile step; otherwise the compile step decides the paths and whether a compile error is raised, and the entry is returned |
| RenderCache.PrepareReturnsEntry | ga_resources/drivers/__init__.py:282-319 | the name `prepare_wms` returns is the md5 of the five hashed arguments, inside the cache directory |
| RenderCache.PrepareIdempotent | ga_resources/drivers/__init__.py:282-319 | repeating `prepare_wms` leaves the paths and the index as they were; unless the first call raised a compile error, it returns the same result |
| RenderCache.PrepareFrame | ga_resources/drivers/__init__.py:282-319 | a path outside the entry plays no part in `prepare_wms` and survives it |
| RenderCache.PrepareIgnoresDraw | ga_resources/drivers/__init__.py:282-319 | `prepare_wms` does not depend on the renderer |
| RenderCache.RenderHost.PrepareWms | ga_resources/drivers/__init__.py:282-319 | the method leaves the paths and the index, and returns the result, that `PrepareSpec` describes |
| RenderCache.RenderHost.ResolveAndCompile | ga_resources/drivers/__init__.py:300-319 | the layer loop and the compile block leave what `PrepareNamed` describes |
| RenderCache.ImageFilename | ga_resources/drivers/__init__.py:330-339 | definition: the entry, the md5 of the box and size, `.` and the format (properties in `ImageFilenameParts`, `ImageIsNoArtifact`, `ImageUnderEntry`) |
| RenderCache.ImageFilenameParts | ga_resources/drivers/__init__.py:330-339 | two images of one entry share a file exactly when their formats and their box-and-size digests agree |
| RenderCache.ImageDigestIgnoresEntry | ga_resources/drivers/__init__.py:330-339 | the entry and the format are not hashed: the same box and size give the same digest in any entry |
| RenderCache.ImageIsNoArtifact | ga_resources/drivers/__init__.py:339 | an image file is never the cache directory, the lock, the `.mml` or the `.xml` of its entry |
| RenderCache.ImageUnderEntry | ga_resources/drivers/__init__.py:339 | an image's name extends its entry's name |
| RenderCache.BindRenderArgs | ga_resources/drivers/__init__.py:322 | binding fails exactly when a keyword repeats one of the seven named parameters, and the error names a keyword that was passed |
| RenderCache.RenderBindsArguments | ga_resources/drivers/__init__.py:322 | a render whose kwargs hold `fmt`, `width`, `height` or `bbox` raises TypeError and changes nothing; a render that returns an image had no repeated keyword |
| RenderCache.RenderNormalized | ga_resources/drivers/__init__.py:329-351 | definition: binding, then `prepare_wms`; an existing image is served, a present lock blocks, otherwise the renderer draws the image from the mapfile (properties in `RenderedIsServed`, `BlockedStaysBlocked`, `RenderedInCacheDir`) |
| RenderCache.RenderSpec | ga_resources/drivers/__init__.py:322-351 | definition: an EPSG code is normalised, then `RenderNormalized` runs on it (properties in `RenderKeepsSrs`, `MercatorCodesShareEntry`, `RenderBindsArguments`) |
| RenderCache.RenderKeepsSrs | ga_resources/drivers/__init__.py:323 | a spatial reference that is no EPSG code reaches the render unchanged |
| RenderCache.RenderedIsServed | ga_resources/drivers/__init__.py:341-342 | a render that returned an image returns the same image when repeated, changes nothing, and does not depend on the renderer |
| RenderCache.BlockedStaysBlocked | ga_resources/drivers/__init__.py:344-345 | a render that waits on the lock waits again when repeated, on the same lock, with nothing changed |
| RenderCache.RenderedInCacheDir | ga_resources/drivers/__init__.py:329-339 | every image a render returns lies inside the cache directory |
| RenderCache.MercatorCodesShareEntry | ga_resources/drivers/__init__.py:323-329 | `EPSG:3857` and the Mercator proj4 string give the same render |
| RenderCache.RenderHost.Render | ga_resources/drivers/__init__.py:322-351 | the method leaves the state, and returns the result, that `RenderSpec` describes |
| RenderCache.RenderHost.Unlink | ga_resources/drivers/__init__.py:413 | `os.unlink` removes exactly the path |
| TileStore.TileKey | ga_resources/drivers/__init__.py:397 | definition of the corrected id: zoom, column and row in decimal, comma-separated (properties in `TileKeyRoundTrip`, `TileKeyInjective`, `TileKeyHasNoSlash`) |
| TileStore.TileBox | ga_resources/drivers/__init__.py:398-399 | definition: the box is `num2deg(x, y+1, z)` followed by `num2deg(x+1, y, z)` |
| TileStore.TileKeyRoundTrip | ga_resources/drivers/__init__.py:397 | the tile id splits at its commas into the zoom, column and row in decimal |
| TileStore.TileKeyInjective | ga_resources/drivers/__init__.py:397 | different tiles have different ids |
| TileStore.TileKeyHasNoSlash | ga_resources/drivers/__init__.py:397 | a tile id never holds a `/` |
| TileStore.RenderedHasSlash | ga_resources/drivers/__init__.py:410 | the file a tile is rendered to holds a `/` |
| TileStore.FetchAlwaysRenders | ga_resources/drivers/__init__.py:405-417 | while every id in `images` is a path, a fetch never finds its `z,x,y` id and calls `render`; when that succeeds it stores the tile under the rendered path in both tables, the file is removed, and the next fetch misses again |
| TileStore.FetchUpserts | ga_resources/drivers/__init__.py:402-416 | a fetch changes `map` only at the tile, keeps every id in `images`, and adds at most one |
| TileStore.FetchSpec | ga_resources/drivers/__init__.py:396-417 | definition: an id found in `images` is served unchanged; a miss renders a 256x256 png of the tile's box in the cache's spatial reference and stores it (properties in `FetchAlwaysRenders`, `FetchRejectsRenderKeywords`, `FetchUpserts`) |
| TileStore.FetchRejectsRenderKeywords | ga_resources/drivers/__init__.py:410 | a miss whose kwargs hold `fmt`, `width`, `height` or `bbox` raises TypeError and changes nothing |
| TileStore.StoreRendered | ga_resources/drivers/__init__.py:410-416 | definition: a render error is raised with the store unchanged; a rendered file's bytes are stored under its path in `images`, the tile maps to that path in `map`, and the file is removed (properties in `StoreUpserts`) |
| TileStore.StoreUpserts | ga_resources/drivers/__init__.py:410-416 | the two `INSERT OR REPLACE` statements change `map` only at the tile and add at most one id to `images` |
| TileStore.UpsertAddsAtMostOne | ga_resources/drivers/__init__.py:403 | an upsert keeps every key and adds at most one |
| TileStore.ColumnSpec | ga_resources/drivers/__init__.py:422-423 | the inner loop fetches rows `0 .. n-1` of its column, in order |
| TileStore.ColumnsLength | ga_resources/drivers/__init__.py:421-423 | `k` columns of `n` rows are `k * n` fetches |
| TileStore.ColumnsSpec | ga_resources/drivers/__init__.py:421-423 | the middle loop fetches exactly the tiles with `x < k`, `y < n`, in column-then-row order |
| TileStore.LevelSpec | ga_resources/drivers/__init__.py:421-423 | a zoom level is `4^z` fetches of exactly its tiles, in order |
| TileStore.LevelsLength | ga_resources/drivers/__init__.py:420-423 | the zoom levels `lo .. lo+k-1` are `Σ 4^z` fetches |
| TileStore.LevelsMembers | ga_resources/drivers/__init__.py:420-423 | the zoom levels `lo .. lo+k-1` hold exactly the tiles of those levels |
| TileStore.LevelsAscending | ga_resources/drivers/__init__.py:420-423 | the tiles of the zoom levels come in zoom, column, row order |
| TileStore.SeedOrder | ga_resources/drivers/__init__.py:420-423 | definition: the zoom levels `lo .. hi` in turn, each column by column, each column row by row (properties in `SeedOrderSpec`) |
| TileStore.SeedSpec | ga_resources/drivers/__init__.py:419-423 | definition: an empty range does nothing, a negative `min_zoom` raises TypeError, otherwise the tiles are fetched in seeding order up to the first error, which is returned (properties in `FetchAllStops`, `SeedRendersAll`) |
| TileStore.SeedOrderSpec | ga_resources/drivers/__init__.py:419-423 | seeding fetches exactly the tiles with `lo <= z <= hi` and `x, y < 2^z`, each once, zoom outermost, then column, then row, `Σ 4^z` in all |
| TileStore.FetchAllStops | ga_resources/drivers/__init__.py:419-423 | after a fetch raises, no later tile is fetched |
| TileStore.SeedRendersAll | ga_resources/drivers/__init__.py:419-423 | seeding a store without tile ids that ends without error leaves a `map` row for every tile of the range |
| TileStore.MBTileCache.Open | ga_resources/drivers/__init__.py:357-394 | the entry is prepared in Mercator; the cache is named `<entry>.mbtiles`; an existing file keeps its tables and a new one starts empty |
| TileStore.MBTileCache.FetchTile | ga_resources/drivers/__init__.py:396-417 | the method leaves the state, and returns the result, that `FetchSpec` describes |
| TileStore.MBTileCache.SeedColumn | ga_resources/drivers/__init__.py:422-423 | the inner loop fetches the rows of its column in order and stops at the first error |
| TileStore.MBTileCache.SeedLevel | ga_resources/drivers/__init__.py:421-423 | the middle loop fetches the columns of its zoom level in order and stops at the first error |
| TileStore.MBTileCache.SeedLevels | ga_resources/drivers/__init__.py:420-423 | the outer loop fetches the zoom levels in order and stops at the first error |
| TileStore.MBTileCache.SeedTiles | ga_resources/drivers/__init__.py:419-423 | the method leaves the state, and returns the error, that `SeedSpec` describes |
| TileStore.FetchAsWrittenAlwaysRaises | ga_resources/drivers/__init__.py:397-398 | as written, the first two statements of `fetch_tile` raise a TypeError for every argument |
| Drivers.GetFilenameExtendsBasename | ga_resources/drivers/__init__.py:28-31 | a fresh driver's derived file is its `cached_basename` plus `.` and the extension |
| Drivers.GetFilenameInCachePath | ga_resources/drivers/__init__.py:147-149 | the derived file lies in the cache path, and its own name is the last component of the slug plus the extension |

## Left out

- `ensure_local_file`, `compute_fields`, `filestream`, `summary` and `get_data_for_point` are driver I/O: downloads, symlinks, the ORM, pandas, OSR transforms and float tolerances. `Driver` is modelled only for its path logic.
- `deg2num` and `num2deg` are floating-point trigonometry. `num2deg` is the collaborator `Env.num2deg`; the model keeps only the neighbour indices `(x, y+1)` and `(x+1, y)` passed to it.
- `compile_mapfile` writing the JSON dump and running carto through `sh` is the collaborator `Env.carto`. Its result says whether carto compiled, exited with a status (with stderr), or failed another way. `leftOutput` records whether a failed run left a file at its `_out` path: sh opens that file itself, so this depends on the installed sh version.
- Mapnik's `load_map`, `zoom_to_box` and `render_to_file` are the collaborator `Env.draw`. The model adds the image path when it succeeds, and returns `RenderFailed` when it does not or when `bbox` does not have four numbers.
- `ga_resources/api.py` is not part of this model. It registers REST resources over the ORM.
- The sqlite schema script, the connection and the cursor are abstracted. The store is its `images` and `map` tables only; the views, the other tables and the indices are not modelled.
- The SQL text of `insert_map` at :402 lists five columns for four values. The model stores what the statement is evidently meant to store, the tile and its id.
- Using a sqlite cursor as a context manager is abstracted as a plain lookup and a plain insert.
- Concurrency between processes is not modelled: the lock as a mutual exclusion, and concurrent misses for the same tile.
- RenderCache.RenderSpec: the busy-wait on `<entry>.lock` is modelled as the error `Blocked`. In a single process nothing removes the lock, so the wait never ends.
- RenderCache.PrepareSpec: `os.makedirs` of the cache directory adds only the cache directory itself to the set of paths, not its missing parents.
- Strings.Lower: lower-cases ASCII letters only. Python 2's `str.lower` on a byte string does the same; unicode case mapping is not modelled.
- CacheKey.EntryBasename: models `md5.update` called repeatedly as one digest of the concatenated text. The encoding of `unicode(value)` into bytes is part of the collaborator `Env.show`.
- CacheKey.EntryBasename: in Python 2, `unicode(value)` of a byte string holding non-ASCII bytes raises UnicodeDecodeError, and `md5.update` of a unicode value holding non-ASCII characters raises UnicodeEncodeError. This applies to srs, bgcolor and the layer and style names alike. `Env.show` is total, so neither failure of `prepare_wms` is modelled.
- CacheKey.EntryBasename: `Value` has a single string and a single sequence constructor (`Str`, `StrList`). It cannot tell a list from a tuple, or a byte string from a unicode string, and `unicode()` shows these differently. The model therefore gives one entry where the code gives two.
- LayerSpecs.ResolveLayersOk: `ready_data_resource` is the total collaborator `Env.ready`, so a driver that raises is not modelled. Such an exception would come after the reverse index has been updated, as a `LayerNotFound` does.
- CacheKey.IsFieldOrder: the order in which `OrderedDict(**kwargs)` yields the five fields is a parameter of the model, any permutation, fixed per host. Python 2 builds it from an unordered dictionary.
- TileStore.SeedSpec: a negative `min_zoom` is modelled as a TypeError before any fetch, because `2**z` is then a float that `range` refuses. The fetches of earlier zoom levels are not modelled, because they cannot happen.
- TileStore.TileKey: the tile id is the zoom, column and row in decimal, comma-separated. As written, the id expression cannot be evaluated (see Findings).

## Findings

| source | as written | input that shows it | evidently intended | confidence | as-written member | corrected member |
|---|---|---|---|---|---|---|
| ga_resources/drivers/__init__.py:397-398 | `','.join((z,x,y))` requires three strings, and the next line computes `y+1`, which requires a number | `fetch_tile(0, 0, 0)`, as `seed_tiles(0, 0)` calls it: the join raises TypeError; with string arguments, `y+1` raises TypeError instead | the tile id is the three coordinates in decimal, comma-separated, and the neighbours are computed on the integers | high; not executed | TileStore.FetchAsWrittenAlwaysRaises | TileStore.TileKeyRoundTrip |

## Behaviour of the code worth knowing

- The lock is opened with `'w'`, which always succeeds, and it is removed only after a successful compile (`CompileLock.LockIgnored`, `CompileLock.CompileTransitions`).
- Only carto exit status 1 raises. Every other compile failure is swallowed (`CompileLock.CompileTransitions`).
- `tile_id` is rebound to the rendered file's path before storing, so the lookup by `z,x,y` never hits and every fetch renders (`TileStore.FetchAlwaysRenders`).
- The `map` table gains a row per seeded tile (`TileStore.SeedRendersAll`), but `images` is keyed by the rendered path, and two tiles share a path when md5 collides on their boxes.
