/**
 * Image loading dispatch of screen_animator: one class-level table maps a file
 * suffix to a loader, raster loading is the fallback, and importing the module
 * registers the SVG loader for ".svg". The loaders themselves are opaque.
 */
module ImageLoading {
  import opened Items
  import opened Wrappers

  /** A loader function: the raster and SVG loaders of the module, or any other registered one. */
  datatype Loader = RasterLoader | SvgLoader | OtherLoader(id: nat)

  /** The index of the last occurrence of c in s, or -1 (`str.rfind`). */
  function LastIndexOf(s: string, c: char): (i: int)
    ensures -1 <= i < |s|
    ensures i >= 0 ==> s[i] == c
    ensures forall j :: i < j < |s| ==> s[j] != c
  {
    if s == [] then -1
    else if s[|s| - 1] == c then |s| - 1
    else LastIndexOf(s[..|s| - 1], c)
  }

  /** The path without trailing slashes. */
  function TrimSlashes(path: string): (t: string)
    ensures |t| <= |path| && t == path[..|t|]
    ensures t == [] || t[|t| - 1] != '/'
    ensures forall j :: |t| <= j < |path| ==> path[j] == '/'
  {
    if path != [] && path[|path| - 1] == '/' then TrimSlashes(path[..|path| - 1]) else path
  }

  /** `PurePosixPath(path).name`: the last component of the path. */
  function Name(path: string): (name: string)
    ensures '/' !in name
    ensures var t := TrimSlashes(path);
      |name| <= |t| && name == t[|t| - |name|..] && (|name| == |t| || t[|t| - |name| - 1] == '/')
  {
    var t := TrimSlashes(path);
    t[LastIndexOf(t, '/') + 1..]
  }

  /**
   * `PurePath.suffix`: from the last dot of the name, provided that dot is
   * neither the name's first nor its last character; otherwise empty.
   */
  function Suffix(path: string): (suffix: string)
    ensures suffix != [] ==> suffix[0] == '.' && '/' !in suffix && '.' !in suffix[1..]
    ensures suffix != [] ==> |suffix| < |Name(path)| && Name(path)[|Name(path)| - |suffix|..] == suffix
  {
    NameSuffix(Name(path))
  }

  /** The suffix of a name: its tail from the last dot, unless that dot is the first or the last character. */
  function NameSuffix(name: string): (suffix: string)
    ensures suffix != [] ==> |suffix| >= 2 && suffix[0] == '.' && '.' !in suffix[1..]
    ensures suffix != [] ==> |suffix| < |name| && name[|name| - |suffix|..] == suffix
    ensures suffix == [] <==> (forall j :: 0 < j < |name| ==> name[j] != '.')
                              || (|name| > 0 && name[|name| - 1] == '.')
  {
    var i := LastIndexOf(name, '.');
    if 0 < i < |name| - 1 then name[i..] else []
  }

  /** `loaders.get(suffix, load_raster_image)`: the registered loader for the suffix, raster otherwise. */
  function Dispatch(loaders: map<string, Loader>, path: string): (loader: Loader)
    ensures loader in loaders.Values || (Suffix(path) !in loaders && loader == RasterLoader)
    ensures Suffix(path) in loaders ==> loader == loaders[Suffix(path)]
    ensures Suffix(path) !in loaders ==> loader == RasterLoader
  {
    if Suffix(path) in loaders then loaders[Suffix(path)] else RasterLoader
  }

  /** The class attribute `ImageLoader._loaders`: one table for the whole class. */
  class LoaderRegistry {
    var loaders: map<string, Loader>

    constructor ()
      ensures loaders == map[]
    {
      loaders := map[];
    }

    /** The class method `register_loader`: map the format to the loader, replacing any earlier entry. */
    method RegisterLoader(format: string, loader: Loader)
      modifies this
      ensures loaders == old(loaders)[format := loader]
    {
      loaders := loaders[format := loader];
    }
  }

  class ImageLoader {
    /** Every instance reads the one class-level table. */
    const registry: LoaderRegistry

    constructor (registry: LoaderRegistry)
      ensures this.registry == registry
    {
      this.registry := registry;
    }

    /**
     * Load the image with the loader registered for the path's suffix; `open`
     * stands for what the loaders do (an image, or nothing when the file is missing).
     */
    function LoadImage(path: string, width: int, open: (Loader, string, int) -> Option<Surface>): Option<Surface>
      reads registry
    {
      open(Dispatch(registry.loaders, path), path, width)
    }
  }

  /** Importing the module: the class table starts empty and ".svg" is registered. */
  method ImportModule() returns (registry: LoaderRegistry)
    ensures fresh(registry)
    ensures registry.loaders == map[".svg" := SvgLoader]
  {
    registry := new LoaderRegistry();
    registry.RegisterLoader(".svg", SvgLoader);
  }

  /** Registering a loader redirects exactly the paths with that suffix; every other path is dispatched as before. */
  lemma RegisterRedirects(loaders: map<string, Loader>, format: string, loader: Loader, path: string)
    ensures Suffix(path) == format ==> Dispatch(loaders[format := loader], path) == loader
    ensures Suffix(path) != format ==> Dispatch(loaders[format := loader], path) == Dispatch(loaders, path)
  {
  }

  /** The last occurrence is pinned down by one occurrence with none after it. */
  lemma LastIndexAt(s: string, c: char, k: int)
    requires 0 <= k < |s| && s[k] == c
    requires forall j :: k < j < |s| ==> s[j] != c
    ensures LastIndexOf(s, c) == k
  {
  }

  /** A path made of directories ending in a slash and a final component has that component as its name. */
  lemma NameAfterDirectory(dir: string, name: string)
    requires dir == [] || dir[|dir| - 1] == '/'
    requires name != [] && '/' !in name && name != "."
    ensures Name(dir + name) == name
  {
    var path := dir + name;
    assert path[|path| - 1] == name[|name| - 1];
    assert TrimSlashes(path) == path;
    forall j | |dir| <= j < |path|
      ensures path[j] != '/'
    {
      assert path[j] == name[j - |dir|];
    }
    if dir != [] {
      assert path[|dir| - 1] == '/';
      LastIndexAt(path, '/', |dir| - 1);
    } else {
      assert LastIndexOf(path, '/') == -1;
    }
    assert path[|dir|..] == name;
  }

  /** A name made of a non-empty stem and an extension without further dots has that extension as its suffix. */
  lemma ExtensionSuffix(stem: string, ext: string)
    requires stem != []
    requires |ext| >= 2 && ext[0] == '.' && '.' !in ext[1..]
    ensures NameSuffix(stem + ext) == ext
  {
    var name := stem + ext;
    forall j | |stem| < j < |name|
      ensures name[j] != '.'
    {
      assert name[j] == ext[1..][j - |stem| - 1];
    }
    LastIndexAt(name, '.', |stem|);
    assert name[|stem|..] == ext;
  }

  /** The suffix of a path is the suffix of its last component, whatever directories come before it. */
  lemma SuffixOfPath(dir: string, name: string)
    requires dir == [] || dir[|dir| - 1] == '/'
    requires name != [] && '/' !in name && name != "."
    ensures Suffix(dir + name) == NameSuffix(name)
  {
    NameAfterDirectory(dir, name);
  }

  /** With the table as the module leaves it, a file ending in ".svg" goes to the SVG loader, in any directory. */
  lemma DefaultTableSvg(dir: string, stem: string)
    requires dir == [] || dir[|dir| - 1] == '/'
    requires stem != [] && '/' !in stem
    ensures Dispatch(map[".svg" := SvgLoader], dir + (stem + ".svg")) == SvgLoader
  {
    var ext := ".svg";
    assert ext[1..] == ['s', 'v', 'g'];
    assert '.' !in ext[1..];
    SuffixOfPath(dir, stem + ext);
    ExtensionSuffix(stem, ext);
    assert Suffix(dir + (stem + ext)) == ext;
  }

  /** Any other extension, an upper-case ".SVG" included, goes to the raster loader. */
  lemma DefaultTableOther(dir: string, stem: string, ext: string)
    requires dir == [] || dir[|dir| - 1] == '/'
    requires stem != [] && '/' !in stem
    requires |ext| >= 2 && ext[0] == '.' && '.' !in ext[1..] && '/' !in ext
    requires ext != ".svg"
    ensures Dispatch(map[".svg" := SvgLoader], dir + (stem + ext)) == RasterLoader
  {
    SuffixOfPath(dir, stem + ext);
    ExtensionSuffix(stem, ext);
  }

  /** A name without any dot has no suffix, so it goes to the raster loader. */
  lemma DefaultTableNoDot(dir: string, name: string)
    requires dir == [] || dir[|dir| - 1] == '/'
    requires name != [] && '/' !in name && '.' !in name
    ensures Dispatch(map[".svg" := SvgLoader], dir + name) == RasterLoader
  {
    assert name != ".";
    SuffixOfPath(dir, name);
  }

  /** A hidden file such as ".svg" has no suffix, so it goes to the raster loader. */
  lemma DefaultTableHidden(dir: string, rest: string)
    requires dir == [] || dir[|dir| - 1] == '/'
    requires rest != [] && '.' !in rest && '/' !in rest
    ensures Dispatch(map[".svg" := SvgLoader], dir + (['.'] + rest)) == RasterLoader
  {
    var name := ['.'] + rest;
    SuffixOfPath(dir, name);
    forall j | 0 < j < |name|
      ensures name[j] != '.'
    {
      assert name[j] == rest[j - 1];
    }
    LastIndexAt(name, '.', 0);
  }

  /** All instances share the table: a loader registered through it is used by every instance. */
  method SharedTable(open: (Loader, string, int) -> Option<Surface>, path: string)
    requires Suffix(path) == ".png"
  {
    var registry := ImportModule();
    var first := new ImageLoader(registry);
    var second := new ImageLoader(registry);
    registry.RegisterLoader(".png", OtherLoader(1));
    assert first.LoadImage(path, 64, open) == open(OtherLoader(1), path, 64);
    assert second.LoadImage(path, 64, open) == open(OtherLoader(1), path, 64);
  }
}
