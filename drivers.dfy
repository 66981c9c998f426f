/** The path logic of the base `Driver`: where a data resource's derived files live. */
module Drivers {
  import opened Strings
  import opened Paths

  /** The two fields of a data resource the path logic reads. */
  datatype DataResource = DataResource(slug: string, cachePath: string)

  /** A driver as `__init__` leaves it: the resource, its cache path, and the cache path
      joined with the last component of the slug. Nothing changes these afterwards. */
  datatype Driver = Driver(resource: DataResource, cachePath: string, cachedBasename: string)

  /** `Driver(data_resource)`. */
  function NewDriver(resource: DataResource): Driver
  {
    Driver(resource, resource.cachePath, PathJoin(resource.cachePath, Tail(resource.slug)))
  }

  /** `get_filename(xtn)`: the last component of the slug with the extension, in the
      cache path. */
  function GetFilename(d: Driver, xtn: string): string
  {
    PathJoin(d.cachePath, Tail(d.resource.slug) + "." + xtn)
  }

  /** The derived file of a fresh driver is its cached basename with the extension. */
  lemma GetFilenameExtendsBasename(resource: DataResource, xtn: string)
    ensures var d := NewDriver(resource);
            GetFilename(d, xtn) == d.cachedBasename + "." + xtn
  {
    JoinWithExtension(resource.cachePath, Tail(resource.slug), xtn);
  }

  lemma JoinWithExtension(dir: string, name: string, xtn: string)
    requires '/' !in name
    ensures PathJoin(dir, name + "." + xtn) == PathJoin(dir, name) + "." + xtn
  {
    var b := name + "." + xtn;
    assert b[0] != '/' by {
      if name != [] {
        assert b[0] == name[0] && name[0] in name;
      }
    }
    assert !StartsWith(name, "/") by {
      if name != [] {
        assert name[0] in name;
      }
    }
    var lead := if dir == "" || EndsWith(dir, "/") then dir else dir + "/";
    assert PathJoin(dir, b) == lead + b;
    assert PathJoin(dir, name) == lead + name;
    assert lead + (name + "." + xtn) == (lead + name) + "." + xtn;
  }

  /** A derived file lies in the cache path, and its own name is the last component of the
      slug with the extension, whatever directories the slug names. */
  lemma GetFilenameInCachePath(d: Driver, xtn: string)
    requires '/' !in xtn
    ensures StartsWith(GetFilename(d, xtn), d.cachePath)
    ensures Tail(GetFilename(d, xtn)) == Tail(d.resource.slug) + "." + xtn
  {
    var name := Tail(d.resource.slug);
    NameWithExtension(name, xtn);
    var lead := JoinUnder(d.cachePath, name + "." + xtn);
    TailOfJoined(lead, name + "." + xtn);
  }

  /** A name and an extension without '/' make a non-empty name without '/'. */
  lemma NameWithExtension(name: string, xtn: string)
    requires '/' !in name && '/' !in xtn
    ensures var b := name + "." + xtn;
            b != [] && '/' !in b
  {
    var b := name + "." + xtn;
    forall i | 0 <= i < |b|
      ensures b[i] != '/'
    {
      if i < |name| {
        assert b[i] == name[i] && name[i] in name;
      } else if i > |name| {
        assert b[i] == xtn[i - |name| - 1] && xtn[i - |name| - 1] in xtn;
      }
    }
  }

  /** Joining a relative name under a directory puts the directory, then (unless it is empty
      or already ends in '/') a '/', before the name. */
  lemma JoinUnder(dir: string, b: string) returns (lead: string)
    requires b != [] && '/' !in b
    ensures PathJoin(dir, b) == lead + b
    ensures lead == [] || lead[|lead| - 1] == '/'
    ensures StartsWith(lead + b, dir)
  {
    assert b[0] in b;
    lead := if dir == "" || EndsWith(dir, "/") then dir else dir + "/";
    assert (lead + b)[..|dir|] == dir;
  }

  /** The last component of a directory and a name without '/' is the name. */
  lemma {:induction false} TailOfJoined(dir: string, name: string)
    requires dir == [] || dir[|dir| - 1] == '/'
    requires '/' !in name
    ensures Tail(dir + name) == name
  {
    if name != [] {
      var p := dir + name;
      assert p[..|p| - 1] == dir + name[..|name| - 1];
      TailOfJoined(dir, name[..|name| - 1]);
      assert name[..|name| - 1] + [name[|name| - 1]] == name;
    } else {
      assert dir + name == dir;
    }
  }
}
