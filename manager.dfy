/** The framework's resource cache (framework/src/manager.rs): resources are
    loaded from files under an asset directory at most once, shared by
    reference count, and looked up by their joined path. Loading itself
    (`T::load` with the graphics facade) is a function parameter; a shared
    resource (`Rc<T>`) is an object whose identity is the sharing. */
module Manager {

  type Path = string

  /** A path is absolute when it starts at the root. */
  predicate IsAbsolute(p: Path)
  {
    |p| > 0 && p[0] == '/'
  }

  /** `PathBuf::join` on a Unix path: an absolute `key` replaces the base;
      otherwise `key` is appended after a separator, unless the base is
      empty or already ends with one. */
  function Join(base: Path, key: Path): (r: Path)
    ensures IsAbsolute(key) ==> r == key
    ensures !IsAbsolute(key) ==> |r| >= |key| && r[|r| - |key|..] == key && base <= r
  {
    if IsAbsolute(key) then key
    else if base == [] || base[|base| - 1] == '/' then base + key
    else base + "/" + key
  }

  /** An `Rc<T>`: one shared copy of a loaded resource. */
  class Shared<T> {
    const value: T

    constructor (value: T)
      ensures this.value == value
    {
      this.value := value;
    }
  }

  class Manager<T> {
    /** The field `map`: the loaded resources by joined path. */
    var cache: map<Path, Shared<T>>
    const assetPath: Path
    /** The paths `T::load` has been called with, in order. */
    ghost var loads: seq<Path>

    /** `Manager::new`: nothing loaded yet. */
    constructor (assetPath: Path)
      ensures cache == map[] && this.assetPath == assetPath && loads == []
    {
      cache := map[];
      this.assetPath := assetPath;
      loads := [];
    }

    /** `Manager::load`: the resource cached under the joined path when there
        is one, unchanged and without loading; otherwise the resource is
        loaded from the joined path once, cached under it and returned. In
        both cases the cache afterwards maps the joined path to the returned
        resource, so loading the same key again returns the same one. */
    method Load(key: Path, load: Path -> T) returns (r: Shared<T>)
      modifies this
      ensures var path := Join(assetPath, key);
        && path in cache && cache[path] == r
        && (path in old(cache) ==> r == old(cache)[path] && cache == old(cache) && loads == old(loads))
        && (path !in old(cache) ==>
              fresh(r) && r.value == load(path) && cache == old(cache)[path := r] && loads == old(loads) + [path])
    {
      var path := Join(assetPath, key);
      if path in cache {
        return cache[path];
      }
      r := new Shared(load(path));
      cache := cache[path := r];
      loads := loads + [path];
    }
  }

  /** A relative key joined to a base ending in a separator, or to a base
      without one, lands under the base with one separator in between. */
  lemma JoinRelative(base: Path, key: Path)
    requires !IsAbsolute(key) && base != []
    ensures base[|base| - 1] == '/' ==> Join(base, key) == base + key
    ensures base[|base| - 1] != '/' ==> Join(base, key) == base + "/" + key
  {
  }
}
