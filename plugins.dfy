/** The plugin manager of src/plugins/__init__.py: plugin classes kept in a
    dict by id, registration guarded by a subclass test, and discovery over
    the modules of the plugin directory. Listing the directory and importing
    a module are oracles: a module is given by its file stem and by what the
    import yields. */
module Plugins {
  import opened Wrappers
  import opened Strings
  import opened OrderedDict

  /** A class object as the registries see it: its `__name__`, the names on
      its method resolution order (itself included), its string-valued class
      attributes (inherited ones included), and the `FILE_TYPE` and
      `EXTENSIONS` attributes of file-type validators. */
  datatype PyClass = PyClass(name: string, mro: seq<string>, strAttrs: map<string, string>,
                             fileType: string, extensions: seq<string>)

  /** `issubclass(c, base)`. */
  predicate IsSubclass(c: PyClass, base: PyClass) {
    base.name in c.mro
  }

  /** An object built by calling a class with these arguments. */
  datatype Instance = Instance(cls: PyClass, args: seq<string>, kwargs: map<string, string>)

  /** `cls(*args, **kwargs)` inside a `try` that maps any exception to None;
      `raises` says which constructors raise. */
  function Instantiate(c: PyClass, args: seq<string>, kwargs: map<string, string>,
                       raises: PyClass -> bool): Option<Instance>
  {
    if raises(c) then None else Some(Instance(c, args, kwargs))
  }

  /** `register_plugin` (and `register_scraper`): a class that does not derive
      from the base raises TypeError with this text, where `kind` is "Plugin"
      or "Scraper"; otherwise `d[id] = c`. */
  function Register(d: Dict<PyClass>, base: PyClass, id: string, c: PyClass, kind: string): Result<Dict<PyClass>>
    requires d.Valid()
  {
    if !IsSubclass(c, base) then Err(NotSubclass(kind, base, c))
    else Ok(Put(d, id, c))
  }

  /** The text of that TypeError. */
  function NotSubclass(kind: string, base: PyClass, c: PyClass): string {
    kind + " class must inherit from " + base.name + ": " + c.name
  }

  /** Registration succeeds exactly for subclasses; afterwards the id gives
      the class, every other id gives what it gave before, and an id already
      present keeps its place in the order. A refused class leaves the dict
      alone and names the base class and itself. */
  lemma RegisterFacts(d: Dict<PyClass>, base: PyClass, id: string, c: PyClass, kind: string, other: string)
    requires d.Valid()
    ensures var r := Register(d, base, id, c, kind);
      && (r.Ok? <==> IsSubclass(c, base))
      && (r.Ok? ==> r.value.Valid() && Get(r.value, id) == Some(c))
      && (r.Ok? && other != id ==> Get(r.value, other) == Get(d, other))
      && (r.Ok? && id in d.values ==> r.value.keys == d.keys)
      && (r.Ok? && id !in d.values ==> r.value.keys == d.keys + [id])
      && (r.Err? ==> r.msg == kind + " class must inherit from " + base.name + ": " + c.name)
  {
  }

  // ------------------------------------------------------------ discovery

  /** An attribute listed by `dir(module)`: a class, or anything else. */
  datatype Attr = ClassAttr(cls: PyClass) | OtherAttr

  /** A `*.py` file of the plugin directory: its stem, and what importing it
      gives, the attributes in `dir` order or the text of the exception. */
  datatype PyModule = PyModule(stem: string, load: Result<seq<Attr>>)

  /** `getattr(c, idAttr, stem)`. */
  function IdOf(c: PyClass, idAttr: string, stem: string): string {
    if idAttr in c.strAttrs then c.strAttrs[idAttr] else stem
  }

  /** The attribute test: a class deriving from the base, other than the base. */
  predicate Matches(a: Attr, base: PyClass) {
    a.ClassAttr? && IsSubclass(a.cls, base) && a.cls != base
  }

  /** A proper subclass of the base. */
  predicate Proper(c: PyClass, base: PyClass) {
    IsSubclass(c, base) && c != base
  }

  /** `r` keeps every id of `d`, and each of its entries is either the one of
      `d` or a proper subclass of the base. */
  ghost predicate Extends(r: Dict<PyClass>, d: Dict<PyClass>, base: PyClass) {
    && (forall k :: k in d.values ==> k in r.values)
    && (forall k :: k in r.values ==> (k in d.values && r.values[k] == d.values[k]) || Proper(r.values[k], base))
  }

  /** Every registered class derives from the base. */
  ghost predicate AllDerive(d: Dict<PyClass>, base: PyClass) {
    forall k :: k in d.values ==> IsSubclass(d.values[k], base)
  }

  /** Registration and discovery add only subclasses of the base. */
  lemma ExtendsKeepsDerive(r: Dict<PyClass>, d: Dict<PyClass>, base: PyClass)
    requires Extends(r, d, base) && AllDerive(d, base)
    ensures AllDerive(r, base)
  {
  }

  lemma ExtendsTrans(r: Dict<PyClass>, m: Dict<PyClass>, d: Dict<PyClass>, base: PyClass)
    requires Extends(r, m, base) && Extends(m, d, base)
    ensures Extends(r, d, base)
  {
  }

  /** The inner loop: the matching classes of one module, in attribute order. */
  function RegisterAttrs(d: Dict<PyClass>, base: PyClass, attrs: seq<Attr>, idAttr: string, stem: string): (r: Dict<PyClass>)
    requires d.Valid()
    ensures r.Valid() && Extends(r, d, base)
    decreases |attrs|
  {
    if attrs == [] then d
    else
      var m := RegisterAttrs(d, base, attrs[..|attrs| - 1], idAttr, stem);
      var a := attrs[|attrs| - 1];
      if Matches(a, base) then Put(m, IdOf(a.cls, idAttr, stem), a.cls) else m
  }

  /** One file: skipped by its name, or imported and its classes registered;
      an import that raises is logged and leaves the dict as it was. */
  function LoadModule(d: Dict<PyClass>, base: PyClass, m: PyModule, skip: string -> bool, idAttr: string): (r: Dict<PyClass>)
    requires d.Valid()
    ensures r.Valid() && Extends(r, d, base)
  {
    if skip(m.stem) || m.load.Err? then d else RegisterAttrs(d, base, m.load.value, idAttr, m.stem)
  }

  /** The outer loop over the files of the directory, in listing order. */
  function Discovered(d: Dict<PyClass>, base: PyClass, modules: seq<PyModule>, skip: string -> bool,
                      idAttr: string): (r: Dict<PyClass>)
    requires d.Valid()
    ensures r.Valid() && Extends(r, d, base)
    decreases |modules|
  {
    if modules == [] then d
    else
      var prev := Discovered(d, base, modules[..|modules| - 1], skip, idAttr);
      var r := LoadModule(prev, base, modules[|modules| - 1], skip, idAttr);
      ExtendsTrans(r, prev, d, base);
      r
  }

  /** Discovery over two lists of files is discovery over the first, then over the second. */
  lemma {:induction false} DiscoveredAppend(d: Dict<PyClass>, base: PyClass, a: seq<PyModule>, b: seq<PyModule>,
                                          skip: string -> bool, idAttr: string)
    requires d.Valid()
    ensures Discovered(d, base, a + b, skip, idAttr) == Discovered(Discovered(d, base, a, skip, idAttr), base, b, skip, idAttr)
    decreases |b|
  {
    if b != [] {
      assert (a + b)[..|a + b| - 1] == a + b[..|b| - 1];
      DiscoveredAppend(d, base, a, b[..|b| - 1], skip, idAttr);
    } else {
      assert a + b == a;
    }
  }

  /** A skipped file and a file whose import raises change nothing: discovery
      goes on with the rest as if they were not there. */
  lemma FailingModuleSkipped(d: Dict<PyClass>, base: PyClass, a: seq<PyModule>, m: PyModule, b: seq<PyModule>,
                             skip: string -> bool, idAttr: string)
    requires d.Valid()
    requires skip(m.stem) || m.load.Err?
    ensures Discovered(d, base, a + [m] + b, skip, idAttr) == Discovered(d, base, a + b, skip, idAttr)
  {
    DiscoveredAppend(d, base, a + [m], b, skip, idAttr);
    DiscoveredAppend(d, base, a, b, skip, idAttr);
    assert (a + [m])[..|a + [m]| - 1] == a;
  }

  lemma {:induction false} RegisterAttrsFinds(d: Dict<PyClass>, base: PyClass, attrs: seq<Attr>, idAttr: string,
                                            stem: string, j: nat)
    requires d.Valid() && j < |attrs| && Matches(attrs[j], base)
    ensures IdOf(attrs[j].cls, idAttr, stem) in RegisterAttrs(d, base, attrs, idAttr, stem).values
    decreases |attrs|
  {
    if j < |attrs| - 1 {
      RegisterAttrsFinds(d, base, attrs[..|attrs| - 1], idAttr, stem, j);
    }
  }

  /** Every proper subclass found in a file that is not skipped and imports
      is registered, under its id attribute or else the module name. */
  lemma {:induction false} DiscoveredFinds(d: Dict<PyClass>, base: PyClass, modules: seq<PyModule>,
                                         skip: string -> bool, idAttr: string, i: nat, j: nat)
    requires d.Valid() && i < |modules|
    requires !skip(modules[i].stem) && modules[i].load.Ok?
    requires j < |modules[i].load.value| && Matches(modules[i].load.value[j], base)
    ensures IdOf(modules[i].load.value[j].cls, idAttr, modules[i].stem) in Discovered(d, base, modules, skip, idAttr).values
    decreases |modules|
  {
    var prev := Discovered(d, base, modules[..|modules| - 1], skip, idAttr);
    if i < |modules| - 1 {
      DiscoveredFinds(d, base, modules[..|modules| - 1], skip, idAttr, i, j);
    } else {
      RegisterAttrsFinds(prev, base, modules[i].load.value, idAttr, modules[i].stem, j);
    }
  }

  /** The loops of `discover_plugins` and `load_scrapers`. */
  method DiscoverInto(d: Dict<PyClass>, base: PyClass, modules: seq<PyModule>, skip: string -> bool,
                      idAttr: string) returns (r: Dict<PyClass>)
    requires d.Valid()
    ensures r == Discovered(d, base, modules, skip, idAttr)
  {
    r := d;
    for i := 0 to |modules|
      invariant r == Discovered(d, base, modules[..i], skip, idAttr)
    {
      assert modules[..i + 1][..i] == modules[..i];
      var m := modules[i];
      if !skip(m.stem) && m.load.Ok? {
        r := RegisterEach(r, base, m.load.value, idAttr, m.stem);
      }
    }
    assert modules[..|modules|] == modules;
  }

  /** The loop over `dir(module)`. */
  method RegisterEach(d: Dict<PyClass>, base: PyClass, attrs: seq<Attr>, idAttr: string, stem: string)
    returns (r: Dict<PyClass>)
    requires d.Valid()
    ensures r == RegisterAttrs(d, base, attrs, idAttr, stem)
  {
    r := d;
    for j := 0 to |attrs|
      invariant r == RegisterAttrs(d, base, attrs[..j], idAttr, stem)
    {
      assert attrs[..j + 1][..j] == attrs[..j];
      var a := attrs[j];
      if a.ClassAttr? && IsSubclass(a.cls, base) && a.cls != base {
        r := Put(r, IdOf(a.cls, idAttr, stem), a.cls);
      }
    }
    assert attrs[..|attrs|] == attrs;
  }

  /** `file.name.startswith("__")` for the file `<stem>.py`. */
  predicate Dunder(stem: string) {
    StartsWith(stem + ".py", "__")
  }

  class PluginManager {
    const pluginDir: string
    const baseClass: PyClass
    var plugins: Dict<PyClass>

    ghost predicate Valid()
      reads this
    {
      plugins.Valid() && AllDerive(plugins, baseClass)
    }

    constructor (pluginDir: string, baseClass: PyClass)
      ensures Valid()
      ensures this.pluginDir == pluginDir && this.baseClass == baseClass && plugins == Empty()
    {
      this.pluginDir := pluginDir;
      this.baseClass := baseClass;
      plugins := Empty();
    }

    /** `register_plugin`; the TypeError raised is returned as its text. */
    method RegisterPlugin(id: string, c: PyClass) returns (raised: Option<string>)
      requires Valid()
      modifies this
      ensures Valid()
      ensures var r := Register(old(plugins), baseClass, id, c, "Plugin");
        && (r.Ok? ==> raised.None? && plugins == r.value)
        && (r.Err? ==> raised == Some(r.msg) && plugins == old(plugins))
    {
      if !IsSubclass(c, baseClass) {
        return Some(NotSubclass("Plugin", baseClass, c));
      }
      plugins := Put(plugins, id, c);
      return None;
    }

    /** `get_plugin`. */
    function GetPlugin(id: string): (r: Option<PyClass>)
      reads this
      ensures r.Some? <==> id in plugins.values
      ensures r.Some? ==> r.value == plugins.values[id]
    {
      Get(plugins, id)
    }

    /** `get_all_plugins`: a copy. A `Dict` is a value, so nothing done to the
        result later can reach the manager. */
    function GetAllPlugins(): (r: Dict<PyClass>)
      reads this
      ensures r.keys == plugins.keys && r.values == plugins.values
    {
      Dict(plugins.keys, plugins.values)
    }

    /** `discover_plugins`: files whose name starts with "__" are skipped and
        classes are registered under `PLUGIN_ID` or else the module name. */
    method DiscoverPlugins(modules: seq<PyModule>)
      requires Valid()
      modifies this
      ensures Valid()
      ensures plugins == Discovered(old(plugins), baseClass, modules, Dunder, "PLUGIN_ID")
    {
      plugins := DiscoverInto(plugins, baseClass, modules, Dunder, "PLUGIN_ID");
      ExtendsKeepsDerive(plugins, old(plugins), baseClass);
    }
  }
}
