/** The compile step of `prepare_wms` over the set of existing paths: a `.lock` sentinel,
    the `.mml` map document, and the `.xml` mapfile carto writes. */
module CompileLock {
  import opened Values
  import opened MapSpec

  /** How a carto run ends. A non-zero exit status raises sh's `ErrorReturnCode_<status>`;
      `leftOutput` says whether the failed run left a file at its `_out` path. `Crashed`
      is any other exception on the way (the command cannot be built or started). */
  datatype CartoRun = Compiled | ExitStatus(code: nat, stderr: string, leftOutput: bool) | Crashed

  function LockPath(name: string): string { name + ".lock" }

  function XmlPath(name: string): string { name + ".xml" }

  function MmlPath(name: string): string { name + ".mml" }

  lemma ArtifactPathsDistinct(name: string)
    ensures LockPath(name) != XmlPath(name) && LockPath(name) != MmlPath(name)
    ensures MmlPath(name) != XmlPath(name)
  {
    assert MmlPath(name)[|name| + 1] == 'm' && XmlPath(name)[|name| + 1] == 'x';
  }

  /** The paths after the step, and the stderr of a RuntimeError if one is raised. */
  datatype Compile = Compile(files: set<string>, raised: Option<string>)

  /** Compile unless `<name>.xml` exists: create the lock (`open(..., 'w')` succeeds whether
      or not it already exists), create the `.mml` (before the document is even built), run
      carto, and remove the lock only when carto succeeds. Exit status 1 raises a
      RuntimeError carrying carto's stderr; every other failure is swallowed. */
  function CompileStep(files: set<string>, name: string, mml: Result<Mml, WmsError>,
                       carto: Mml -> CartoRun): Compile
  {
    if XmlPath(name) in files then Compile(files, None)
    else
      var begun := files + {LockPath(name), MmlPath(name)};
      match mml
      case Err(_) => Compile(begun, None)
      case Ok(doc) =>
        match carto(doc)
        case Compiled => Compile(begun + {XmlPath(name)} - {LockPath(name)}, None)
        case ExitStatus(code, stderr, left) =>
          Compile(if left then begun + {XmlPath(name)} else begun, if code == 1 then Some(stderr) else None)
        case Crashed => Compile(begun, None)
  }

  /** The compile succeeds: the map document was built and carto compiled it. */
  predicate Succeeds(mml: Result<Mml, WmsError>, carto: Mml -> CartoRun)
  {
    mml.Ok? && carto(mml.value).Compiled?
  }

  /** An existing mapfile is served as is: carto is not consulted, no lock is created,
      nothing raises. */
  lemma CompiledIsReused(files: set<string>, name: string, mml1: Result<Mml, WmsError>,
                         mml2: Result<Mml, WmsError>, carto1: Mml -> CartoRun, carto2: Mml -> CartoRun)
    requires XmlPath(name) in files
    ensures CompileStep(files, name, mml1, carto1) == CompileStep(files, name, mml2, carto2) == Compile(files, None)
  {
  }

  /** Without a mapfile, the step always leaves the `.mml`; it leaves the lock exactly when
      the compile does not succeed; it raises exactly on carto exit status 1; and it
      touches no path other than the lock, the document and the mapfile. */
  lemma CompileTransitions(files: set<string>, name: string, mml: Result<Mml, WmsError>,
                           carto: Mml -> CartoRun)
    requires XmlPath(name) !in files
    ensures var c := CompileStep(files, name, mml, carto);
      && MmlPath(name) in c.files
      && (LockPath(name) in c.files <==> !Succeeds(mml, carto))
      && (Succeeds(mml, carto) ==> XmlPath(name) in c.files)
      && (c.raised.Some? <==> mml.Ok? && carto(mml.value).ExitStatus? && carto(mml.value).code == 1)
      && (c.raised.Some? ==> c.raised.value == carto(mml.value).stderr)
      && c.files - {LockPath(name), MmlPath(name), XmlPath(name)}
         == files - {LockPath(name), MmlPath(name), XmlPath(name)}
  {
    ArtifactPathsDistinct(name);
  }

  /** The lock is never consulted: whether a lock from an earlier attempt exists makes no
      difference to the step. */
  lemma LockIgnored(files: set<string>, name: string, mml: Result<Mml, WmsError>, carto: Mml -> CartoRun)
    ensures CompileStep(files + {LockPath(name)}, name, mml, carto)
         == CompileStep(files - {LockPath(name)}, name, mml, carto)
            || XmlPath(name) in files
  {
    ArtifactPathsDistinct(name);
    if XmlPath(name) !in files {
      assert (files + {LockPath(name)}) + {LockPath(name), MmlPath(name)}
          == (files - {LockPath(name)}) + {LockPath(name), MmlPath(name)};
    }
  }

  /** A failed compile that left no mapfile is attempted again, in full, by the next call
      for the same name, and ends the same way. */
  lemma FailedCompileRetried(files: set<string>, name: string, mml: Result<Mml, WmsError>,
                             carto: Mml -> CartoRun)
    requires XmlPath(name) !in files
    requires !Succeeds(mml, carto)
    requires !(mml.Ok? && carto(mml.value).ExitStatus? && carto(mml.value).leftOutput)
    ensures var first := CompileStep(files, name, mml, carto);
            var second := CompileStep(first.files, name, mml, carto);
            second == first && LockPath(name) in second.files && XmlPath(name) !in second.files
  {
    ArtifactPathsDistinct(name);
  }

  /** Repeating the step changes no path, and a step that raised nothing, repeated, ends the
      same way: the mapfile it made is reused, or the failure it swallowed recurs. */
  lemma CompileIdempotent(files: set<string>, name: string, mml: Result<Mml, WmsError>,
                          carto: Mml -> CartoRun)
    ensures var first := CompileStep(files, name, mml, carto);
            var second := CompileStep(first.files, name, mml, carto);
            && second.files == first.files
            && (first.raised.None? ==> second == first)
  {
    ArtifactPathsDistinct(name);
    var first := CompileStep(files, name, mml, carto);
    if XmlPath(name) !in files && XmlPath(name) !in first.files {
      var begun := files + {LockPath(name), MmlPath(name)};
      assert first.files == begun;
      assert first.files + {LockPath(name), MmlPath(name)} == begun;
    }
  }

  /** The step never removes a path other than the lock. */
  lemma CompileTransitionsKeep(files: set<string>, name: string, mml: Result<Mml, WmsError>,
                               carto: Mml -> CartoRun, path: string)
    requires path in files && path != LockPath(name)
    ensures path in CompileStep(files, name, mml, carto).files
  {
  }

  /** A path that is none of the entry's artifacts plays no part in the step and survives it. */
  lemma CompileFrame(files: set<string>, name: string, mml: Result<Mml, WmsError>,
                     carto: Mml -> CartoRun, path: string)
    requires path != LockPath(name) && path != XmlPath(name) && path != MmlPath(name)
    ensures var c := CompileStep(files, name, mml, carto);
            CompileStep(files + {path}, name, mml, carto) == Compile(c.files + {path}, c.raised)
  {
    var c := CompileStep(files, name, mml, carto);
    if XmlPath(name) !in files {
      var begun := files + {LockPath(name), MmlPath(name)};
      assert (files + {path}) + {LockPath(name), MmlPath(name)} == begun + {path};
      assert (begun + {path}) + {XmlPath(name)} - {LockPath(name)}
          == (begun + {XmlPath(name)} - {LockPath(name)}) + {path};
      assert (begun + {path}) + {XmlPath(name)} == (begun + {XmlPath(name)}) + {path};
    }
  }
}
