/** The reverse invalidation index kept in the WMS cache database: every style and layer
    string maps to the set of cache entries built from it. */
module ReverseIndex {

  type Index = map<string, set<string>>

  function Members(index: Index, key: string): set<string>
  {
    if key in index then index[key] else {}
  }

  /** `sadd(key, member)`: add a member to the key's set, creating the set if needed. */
  function Add(index: Index, key: string, member: string): (r: Index)
    ensures r.Keys == index.Keys + {key}
    ensures r[key] == Members(index, key) + {member}
    ensures forall k :: k in index && k != key ==> r[k] == index[k]
  {
    index[key := Members(index, key) + {member}]
  }

  /** `for key in keys: sadd(key, member)`: afterwards every key holds the member, and
      every other key is as before. */
  function AddAll(index: Index, keys: seq<string>, member: string): (r: Index)
    ensures r.Keys == index.Keys + set k | k in keys
    ensures forall k :: k in keys ==> r[k] == Members(index, k) + {member}
    ensures forall k :: k in index && k !in keys ==> r[k] == index[k]
  {
    if keys == [] then index
    else
      var prev := keys[..|keys| - 1];
      var last := keys[|keys| - 1];
      assert forall k :: k in keys <==> k in prev || k == last;
      Add(AddAll(index, prev, member), last, member)
  }

  lemma AddAllStep(index: Index, keys: seq<string>, i: nat, member: string)
    requires i < |keys|
    ensures AddAll(index, keys[..i + 1], member) == Add(AddAll(index, keys[..i], member), keys[i], member)
  {
    assert keys[..i + 1][..i] == keys[..i];
  }

  /** The index `prepare_wms` leaves: styles registered first, then layers. */
  function Registered(index: Index, styles: seq<string>, layers: seq<string>, path: string): Index
  {
    AddAll(AddAll(index, styles, path), layers, path)
  }

  /** The path is recorded under every style and every raw layer string, other keys keep
      their sets, and no key is lost. */
  lemma RegisteredSpec(index: Index, styles: seq<string>, layers: seq<string>, path: string)
    ensures var r := Registered(index, styles, layers, path);
      && r.Keys == index.Keys + (set s | s in styles) + (set l | l in layers)
      && (forall k :: k in styles || k in layers ==> r[k] == Members(index, k) + {path})
      && (forall k :: k in index && k !in styles && k !in layers ==> r[k] == index[k])
  {
    var mid := AddAll(index, styles, path);
    forall k | k in layers && k in styles
      ensures Members(mid, k) == Members(index, k) + {path}
    {
    }
  }

  /** Registering the same request twice leaves the index as after the first time. */
  lemma RegisteredIdempotent(index: Index, styles: seq<string>, layers: seq<string>, path: string)
    ensures var once := Registered(index, styles, layers, path);
            Registered(once, styles, layers, path) == once
  {
    var once := Registered(index, styles, layers, path);
    var twice := Registered(once, styles, layers, path);
    RegisteredSpec(index, styles, layers, path);
    RegisteredSpec(once, styles, layers, path);
    assert twice.Keys == once.Keys;
    forall k | k in once
      ensures twice[k] == once[k]
    {
      if k in styles || k in layers {
        assert Members(once, k) == Members(index, k) + {path};
      }
    }
  }

  /** The order in which styles and layers are registered does not matter. */
  lemma RegisteredOrderFree(index: Index, styles: seq<string>, layers: seq<string>, path: string)
    ensures Registered(index, styles, layers, path) == Registered(index, layers, styles, path)
  {
    var a := Registered(index, styles, layers, path);
    var b := Registered(index, layers, styles, path);
    RegisteredSpec(index, styles, layers, path);
    RegisteredSpec(index, layers, styles, path);
    assert a.Keys == b.Keys;
    forall k | k in a
      ensures a[k] == b[k]
    {
    }
  }
}
