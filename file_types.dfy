/** The file-type plugin manager of src/plugins/file_types/__init__.py: the
    validator classes by id, and the map from lowercased extension to the id
    of the plugin that handles it, rebuilt after every registration. The
    manager is a `PluginManager` whose base class is `FileTypeValidator`;
    the model holds that base part as `manager`. */
module FileTypes {
  import opened Wrappers
  import opened Strings
  import opened OrderedDict
  import opened Plugins

  /** `FileTypeValidator`, with its empty `FILE_TYPE` and `EXTENSIONS`. */
  const FileTypeValidatorClass := PyClass("FileTypeValidator", ["FileTypeValidator", "object"], map[], "", [])

  /** `can_validate`: the lowercased extension of the path against
      `EXTENSIONS` as declared. */
  predicate CanValidate(c: PyClass, path: string) {
    Lower(SplitExt(path)) in c.extensions
  }

  /** Declared extensions are not lowercased, so a class that declares only
      ".PDF" validates no path at all, "REPORT.PDF" included. */
  lemma UpperCaseDeclarationNeverMatches(c: PyClass, path: string)
    requires c.extensions == [".PDF"]
    ensures !CanValidate(c, path)
  {
    var e := Lower(SplitExt(path));
    LowerHasNoUpper(SplitExt(path));
    assert |e| < 2 || e[1] != 'P';
    assert e != ".PDF";
  }

  // ------------------------------------------------- the extension map

  /** The declared extensions, lowercased. */
  function Lowered(exts: seq<string>): (r: seq<string>)
    ensures |r| == |exts|
    ensures forall j :: 0 <= j < |exts| ==> r[j] == Lower(exts[j])
  {
    seq(|exts|, j requires 0 <= j < |exts| => Lower(exts[j]))
  }

  /** The class declares `e` in some case. */
  predicate Declares(c: PyClass, e: string) {
    e in Lowered(c.extensions)
  }

  function ClassAt(plugins: Dict<PyClass>, i: nat): PyClass
    requires plugins.Valid() && i < |plugins.keys|
  {
    plugins.values[plugins.keys[i]]
  }

  /** The inner loop of `_update_extension_map` for one plugin: each
      extension, lowercased, is mapped to its id. */
  function AddExtensions(m: Dict<string>, id: string, exts: seq<string>): (r: Dict<string>)
    requires m.Valid()
    ensures r.Valid()
    decreases |exts|
  {
    if exts == [] then m else Put(AddExtensions(m, id, exts[..|exts| - 1]), Lower(exts[|exts| - 1]), id)
  }

  /** The extension map of the first `n` plugins in insertion order, built
      from an empty dict. */
  function ExtensionMap(plugins: Dict<PyClass>, n: nat): (r: Dict<string>)
    requires plugins.Valid() && n <= |plugins.keys|
    ensures r.Valid()
  {
    if n == 0 then Empty()
    else
      var id := plugins.keys[n - 1];
      AddExtensions(ExtensionMap(plugins, n - 1), id, plugins.values[id].extensions)
  }

  /** The map after `_update_extension_map`. */
  function ExtMap(plugins: Dict<PyClass>): (r: Dict<string>)
    requires plugins.Valid()
    ensures r.Valid()
  {
    ExtensionMap(plugins, |plugins.keys|)
  }

  lemma LoweredSnoc(exts: seq<string>, e: string)
    requires exts != []
    ensures e in Lowered(exts) <==> e in Lowered(exts[..|exts| - 1]) || e == Lower(exts[|exts| - 1])
  {
    var init := exts[..|exts| - 1];
    var low, lowInit := Lowered(exts), Lowered(init);
    if e in low {
      var j :| 0 <= j < |low| && low[j] == e;
      if j < |init| {
        assert lowInit[j] == e;
      }
    }
    if e in lowInit {
      var j :| 0 <= j < |lowInit| && lowInit[j] == e;
      assert low[j] == e;
    }
    if e == Lower(exts[|exts| - 1]) {
      assert low[|exts| - 1] == e;
    }
  }

  /** One plugin's extensions map to its id; the other keys keep their ids. */
  lemma {:induction false} AddExtensionsFacts(m: Dict<string>, id: string, exts: seq<string>, e: string)
    requires m.Valid()
    ensures var r := AddExtensions(m, id, exts);
      && (e in r.values <==> e in m.values || e in Lowered(exts))
      && (e in Lowered(exts) ==> r.values[e] == id)
      && (e !in Lowered(exts) && e in m.values ==> r.values[e] == m.values[e])
    decreases |exts|
  {
    if exts != [] {
      var init := exts[..|exts| - 1];
      AddExtensionsFacts(m, id, init, e);
      LoweredSnoc(exts, e);
    }
  }

  /** Collisions: an extension declared by the plugin at position `j` maps to
      the id of a plugin at `j` or later that declares it, so the plugin later
      in insertion order wins. */
  lemma {:induction false} LaterDeclarerWins(plugins: Dict<PyClass>, n: nat, e: string, j: nat)
    requires plugins.Valid() && j < n <= |plugins.keys|
    requires Declares(ClassAt(plugins, j), e)
    ensures e in ExtensionMap(plugins, n).values
    ensures exists k :: j <= k < n && ExtensionMap(plugins, n).values[e] == plugins.keys[k] &&
                        Declares(ClassAt(plugins, k), e)
    decreases n
  {
    var id := plugins.keys[n - 1];
    AddExtensionsFacts(ExtensionMap(plugins, n - 1), id, plugins.values[id].extensions, e);
    if j < n - 1 && !Declares(ClassAt(plugins, n - 1), e) {
      LaterDeclarerWins(plugins, n - 1, e, j);
    } else {
      assert ExtensionMap(plugins, n).values[e] == plugins.keys[n - 1];
    }
  }

  /** Every key of the map is declared by the plugin whose id it maps to. */
  lemma {:induction false} MappedIsDeclared(plugins: Dict<PyClass>, n: nat, e: string)
    requires plugins.Valid() && n <= |plugins.keys|
    requires e in ExtensionMap(plugins, n).values
    ensures exists k :: 0 <= k < n && ExtensionMap(plugins, n).values[e] == plugins.keys[k] &&
                        Declares(ClassAt(plugins, k), e)
    decreases n
  {
    var id := plugins.keys[n - 1];
    AddExtensionsFacts(ExtensionMap(plugins, n - 1), id, plugins.values[id].extensions, e);
    if !Declares(ClassAt(plugins, n - 1), e) {
      MappedIsDeclared(plugins, n - 1, e);
    } else {
      assert ExtensionMap(plugins, n).values[e] == plugins.keys[n - 1];
    }
  }

  /** `get_supported_extensions` lists each declared extension, lowercased,
      exactly once, and nothing else. */
  lemma SupportedExtensionsAreDeclared(plugins: Dict<PyClass>, e: string)
    requires plugins.Valid()
    ensures var keys := ExtMap(plugins).keys;
      && (e in keys <==> exists k :: 0 <= k < |plugins.keys| && Declares(ClassAt(plugins, k), e))
      && (forall i, j :: 0 <= i < j < |keys| ==> keys[i] != keys[j])
  {
    if e in ExtMap(plugins).keys {
      MappedIsDeclared(plugins, |plugins.keys|, e);
    }
    if exists k :: 0 <= k < |plugins.keys| && Declares(ClassAt(plugins, k), e) {
      var k :| 0 <= k < |plugins.keys| && Declares(ClassAt(plugins, k), e);
      LaterDeclarerWins(plugins, |plugins.keys|, e, k);
    }
  }

  /** Re-registering an id keeps its place, so when a plugin later in the
      order also declares `e`, the re-registered class does not take `e` over
      even though it declares it too. */
  lemma ReRegisterDoesNotWin(plugins: Dict<PyClass>, i: nat, j: nat, c: PyClass, e: string)
    requires plugins.Valid() && i < j < |plugins.keys|
    requires Declares(ClassAt(plugins, j), e) && Declares(c, e)
    ensures var p := Put(plugins, plugins.keys[i], c);
      e in ExtMap(p).values && ExtMap(p).values[e] != plugins.keys[i]
  {
    var id := plugins.keys[i];
    var p := Put(plugins, id, c);
    assert ClassAt(p, j) == ClassAt(plugins, j);
    LaterDeclarerWins(p, |p.keys|, e, j);
  }

  // ------------------------------------------------------ lookups

  /** `get_validator_for_file`: the plugin mapped to the lowercased extension,
      instantiated with no arguments; None when the extension is unmapped,
      the id is unknown or the constructor raises. */
  function ValidatorForFile(plugins: Dict<PyClass>, extensionMap: Dict<string>, path: string,
                            raises: PyClass -> bool): Option<Instance>
  {
    match Get(extensionMap, Lower(SplitExt(path)))
    case None => None
    case Some(id) =>
      match Get(plugins, id)
      case None => None
      case Some(c) => Instantiate(c, [], map[], raises)
  }

  /** A validator found for a file is a fresh instance of the plugin that
      declares the file's extension last in insertion order (proved through
      LastDeclarerWins); a file whose extension no plugin declares gets None. */
  lemma ValidatorForFileFacts(plugins: Dict<PyClass>, path: string, raises: PyClass -> bool)
    requires plugins.Valid()
    ensures var e := Lower(SplitExt(path));
      var r := ValidatorForFile(plugins, ExtMap(plugins), path, raises);
      && (r.Some? ==> Declares(r.value.cls, e) && !raises(r.value.cls) && r.value.args == [])
      && ((forall k :: 0 <= k < |plugins.keys| ==> !Declares(ClassAt(plugins, k), e)) ==> r.None?)
      && (forall k :: 0 <= k < |plugins.keys| && Declares(ClassAt(plugins, k), e) ==>
            e in ExtMap(plugins).values)
      && (r.Some? ==> exists k :: (0 <= k < |plugins.keys| && r.value.cls == ClassAt(plugins, k) &&
            forall j :: k < j < |plugins.keys| ==> !Declares(ClassAt(plugins, j), e)))
  {
    var e := Lower(SplitExt(path));
    var n := |plugins.keys|;
    forall k | 0 <= k < n && Declares(ClassAt(plugins, k), e)
      ensures e in ExtMap(plugins).values
    {
      LaterDeclarerWins(plugins, n, e, k);
    }
    if e in ExtMap(plugins).values {
      MappedIsDeclared(plugins, n, e);
      LastDeclarerWins(plugins, e);
    }
  }

  /** The plugin an extension maps to declares it, and no plugin after it
      in insertion order does. */
  lemma LastDeclarerWins(plugins: Dict<PyClass>, e: string)
    requires plugins.Valid() && e in ExtMap(plugins).values
    ensures exists k :: (0 <= k < |plugins.keys| && ExtMap(plugins).values[e] == plugins.keys[k] &&
      Declares(ClassAt(plugins, k), e) &&
      forall j :: k < j < |plugins.keys| ==> !Declares(ClassAt(plugins, j), e))
  {
    var n := |plugins.keys|;
    MappedIsDeclared(plugins, n, e);
    var k :| 0 <= k < n && ExtensionMap(plugins, n).values[e] == plugins.keys[k] && Declares(ClassAt(plugins, k), e);
    forall j | k < j < n
      ensures !Declares(ClassAt(plugins, j), e)
    {
      if Declares(ClassAt(plugins, j), e) {
        LaterDeclarerWins(plugins, n, e, j);
        assert false;
      }
    }
  }

  /** The position of the first plugin, from `i` on, whose `FILE_TYPE` is `t`. */
  function FirstOfType(plugins: Dict<PyClass>, t: string, i: nat): (r: Option<nat>)
    requires plugins.Valid() && i <= |plugins.keys|
    ensures r.Some? ==> i <= r.value < |plugins.keys| && ClassAt(plugins, r.value).fileType == t
    ensures r.Some? ==> forall k :: i <= k < r.value ==> ClassAt(plugins, k).fileType != t
    ensures r.None? ==> forall k :: i <= k < |plugins.keys| ==> ClassAt(plugins, k).fileType != t
    decreases |plugins.keys| - i
  {
    if i == |plugins.keys| then None
    else if ClassAt(plugins, i).fileType == t then Some(i)
    else FirstOfType(plugins, t, i + 1)
  }

  /** `get_validator_for_type`: the first plugin in insertion order with that
      `FILE_TYPE`, instantiated; a raising constructor gives None without
      trying later plugins. */
  function ValidatorForType(plugins: Dict<PyClass>, t: string, raises: PyClass -> bool): (r: Option<Instance>)
    requires plugins.Valid()
    ensures r.Some? ==> r.value.cls.fileType == t && r.value.args == [] && !raises(r.value.cls)
    ensures r.Some? ==> exists k :: 0 <= k < |plugins.keys| && ClassAt(plugins, k) == r.value.cls
    ensures (forall k :: 0 <= k < |plugins.keys| ==> ClassAt(plugins, k).fileType != t) ==> r.None?
  {
    match FirstOfType(plugins, t, 0)
    case None => None
    case Some(k) => Instantiate(ClassAt(plugins, k), [], map[], raises)
  }

  /** `get_supported_types`: the non-empty `FILE_TYPE`s, in order. */
  function SupportedTypes(cs: seq<PyClass>): (r: seq<string>)
    ensures |r| <= |cs|
    ensures forall t :: t in r <==> t != "" && exists c :: c in cs && c.fileType == t
  {
    if cs == [] then []
    else
      var rest := SupportedTypes(cs[..|cs| - 1]);
      var c := cs[|cs| - 1];
      assert forall x :: x in cs <==> x in cs[..|cs| - 1] || x == c;
      if c.fileType != "" then rest + [c.fileType] else rest
  }

  /** The two loops of `_update_extension_map`. */
  method BuildExtensionMap(plugins: Dict<PyClass>) returns (m: Dict<string>)
    requires plugins.Valid()
    ensures m == ExtMap(plugins)
  {
    m := Empty();
    for n := 0 to |plugins.keys|
      invariant m == ExtensionMap(plugins, n)
    {
      var id := plugins.keys[n];
      m := AddEach(m, id, plugins.values[id].extensions);
    }
  }

  method AddEach(m0: Dict<string>, id: string, exts: seq<string>) returns (m: Dict<string>)
    requires m0.Valid()
    ensures m == AddExtensions(m0, id, exts)
  {
    m := m0;
    for j := 0 to |exts|
      invariant m == AddExtensions(m0, id, exts[..j])
    {
      assert exts[..j + 1][..j] == exts[..j];
      m := Put(m, Lower(exts[j]), id);
    }
    assert exts[..|exts|] == exts;
  }

  class FileTypePluginManager {
    const manager: PluginManager
    var extensionMap: Dict<string>

    ghost predicate Valid()
      reads this, manager
    {
      && manager.Valid()
      && manager.baseClass == FileTypeValidatorClass
      && extensionMap == ExtMap(manager.plugins)
    }

    /** The first construction: an empty manager for "src/plugins/file_types"
        and its extension map. */
    constructor ()
      ensures Valid() && fresh(manager)
      ensures manager.plugins == Empty() && manager.pluginDir == "src/plugins/file_types"
    {
      manager := new PluginManager("src/plugins/file_types", FileTypeValidatorClass);
      extensionMap := Empty();
      new;
      UpdateExtensionMap();
    }

    /** `_update_extension_map`: rebuilt from scratch over the plugins in
        insertion order. */
    method UpdateExtensionMap()
      requires manager.Valid()
      modifies this
      ensures extensionMap == ExtMap(manager.plugins)
    {
      extensionMap := BuildExtensionMap(manager.plugins);
    }

    /** `register_plugin`: the base registration, then the rebuild; a refused
        class raises before the rebuild. */
    method RegisterPlugin(id: string, c: PyClass) returns (raised: Option<string>)
      requires Valid()
      modifies this, manager
      ensures Valid()
      ensures var r := Register(old(manager.plugins), FileTypeValidatorClass, id, c, "Plugin");
        && (r.Ok? ==> raised.None? && manager.plugins == r.value)
        && (r.Err? ==> raised == Some(r.msg) && manager.plugins == old(manager.plugins))
    {
      raised := manager.RegisterPlugin(id, c);
      if raised.None? {
        UpdateExtensionMap();
      }
    }

    /** The inherited `discover_plugins`, whose registrations go through the
        override above: every registration rebuilds the map from scratch,
        so afterwards it is the map of the discovered plugins. */
    method DiscoverPlugins(modules: seq<PyModule>)
      requires Valid()
      modifies this, manager
      ensures Valid()
      ensures manager.plugins == Discovered(old(manager.plugins), FileTypeValidatorClass, modules, Dunder, "PLUGIN_ID")
    {
      manager.DiscoverPlugins(modules);
      UpdateExtensionMap();
    }

    function GetValidatorForFile(path: string, raises: PyClass -> bool): Option<Instance>
      reads this, manager
    {
      ValidatorForFile(manager.plugins, extensionMap, path, raises)
    }

    /** The search loop of `get_validator_for_type`. */
    method GetValidatorForType(t: string, raises: PyClass -> bool) returns (v: Option<Instance>)
      requires Valid()
      ensures v == ValidatorForType(manager.plugins, t, raises)
    {
      var plugins := manager.plugins;
      for i := 0 to |plugins.keys|
        invariant FirstOfType(plugins, t, i) == FirstOfType(plugins, t, 0)
      {
        var c := plugins.values[plugins.keys[i]];
        if c.fileType == t {
          return Instantiate(c, [], map[], raises);
        }
      }
      return None;
    }

    /** `get_supported_extensions`. */
    function GetSupportedExtensions(): seq<string>
      reads this
    {
      extensionMap.keys
    }

    /** `get_supported_types`. */
    function GetSupportedTypes(): seq<string>
      reads this, manager
      requires Valid()
    {
      SupportedTypes(Values(manager.plugins))
    }
  }

  /** The class attribute `_instance` of `FileTypePluginManager`. */
  class FileTypePluginManagerClass {
    var instance: FileTypePluginManager?

    constructor ()
      ensures instance == null
    {
      instance := null;
    }

    /** `FileTypePluginManager()`: the first call builds the manager, every
        later call returns the same one and leaves it as it is. */
    method Construct() returns (m: FileTypePluginManager)
      modifies this
      ensures instance == m
      ensures old(instance) != null ==> m == old(instance) && unchanged(m, m.manager)
      ensures old(instance) == null ==> fresh(m) && m.Valid() && m.manager.plugins == Empty()
    {
      if instance == null {
        m := new FileTypePluginManager();
        instance := m;
      } else {
        m := instance;
      }
    }
  }
}
