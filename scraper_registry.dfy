/** The scraper registry of src/scrapers/registry.py: a singleton dict from
    scraper type to scraper class, `load_scrapers` over the modules of the
    scrapers directory, and the built-in "generic" registration. */
module ScraperRegistry {
  import opened Wrappers
  import opened OrderedDict
  import opened Plugins
  import opened Scrapers
  import GS = GenericScraper

  class Registry {
    var scrapers: Dict<PyClass>
    var initialized: bool

    ghost predicate Valid()
      reads this
    {
      scrapers.Valid() && AllDerive(scrapers, BaseScraperClass) && initialized
    }

    /** `__new__` followed by the first `__init__`: an empty registry. */
    constructor ()
      ensures Valid() && scrapers == Empty()
    {
      scrapers := Empty();
      initialized := true;
    }

    /** `register_scraper`; the TypeError raised is returned as its text. */
    method RegisterScraper(t: string, c: PyClass) returns (raised: Option<string>)
      requires Valid()
      modifies this
      ensures Valid()
      ensures var r := Register(old(scrapers), BaseScraperClass, t, c, "Scraper");
        && (r.Ok? ==> raised.None? && scrapers == r.value)
        && (r.Err? ==> raised == Some(r.msg) && scrapers == old(scrapers))
    {
      if !IsSubclass(c, BaseScraperClass) {
        return Some(NotSubclass("Scraper", BaseScraperClass, c));
      }
      scrapers := Put(scrapers, t, c);
      return None;
    }

    /** `get_scraper_class`. */
    function GetScraperClass(t: string): (r: Option<PyClass>)
      reads this
      ensures r.Some? <==> t in scrapers.values
      ensures r.Some? ==> r.value == scrapers.values[t]
    {
      Get(scrapers, t)
    }

    /** `create_scraper`. */
    function CreateScraper(t: string, baseUrl: string, kwargs: map<string, string>,
                           raises: PyClass -> bool): Option<Instance>
      reads this
    {
      Scrapers.CreateScraper(scrapers, t, baseUrl, kwargs, raises)
    }

    /** `get_available_scrapers`: a copy. A `Dict` is a value, so nothing done
        to the result can reach the registry. */
    function GetAvailableScrapers(): (r: Dict<PyClass>)
      reads this
      ensures r.keys == scrapers.keys && r.values == scrapers.values
    {
      Dict(scrapers.keys, scrapers.values)
    }
  }

  /** The class attribute `_instance` of `ScraperRegistry`. */
  class RegistryClass {
    var instance: Registry?

    ghost predicate Valid()
      reads this, instance
    {
      instance != null ==> instance.Valid()
    }

    constructor ()
      ensures Valid() && instance == null
    {
      instance := null;
    }

    /** `ScraperRegistry()`: the first call builds an empty registry, every
        later call returns the same one and does not clear it. */
    method Construct() returns (m: Registry)
      requires Valid()
      modifies this
      ensures Valid() && instance == m
      ensures old(instance) != null ==> m == old(instance) && unchanged(m)
      ensures old(instance) == null ==> fresh(m) && m.scrapers == Empty()
    {
      if instance == null {
        m := new Registry();
        instance := m;
      } else {
        m := instance;
      }
    }

    /** What the registry holds now, an empty dict before the first construction. */
    function Current(): Dict<PyClass>
      reads this, instance
    {
      if instance == null then Empty() else instance.scrapers
    }
  }

  /** The two files `load_scrapers` skips. */
  predicate SkippedFile(stem: string) {
    stem + ".py" in {"__init__.py", "base_scraper.py"}
  }

  /** `load_scrapers`: every module other than the skipped two is imported,
      and each class in it that derives from `BaseScraper`, other than
      `BaseScraper` itself, is registered under `SCRAPER_TYPE` or else the
      module name; a module that raises is logged and skipped. */
  method LoadScrapers(slot: RegistryClass, modules: seq<PyModule>)
    requires slot.Valid()
    modifies slot, slot.instance
    ensures slot.Valid() && slot.instance != null
    ensures old(slot.instance) != null ==> slot.instance == old(slot.instance)
    ensures slot.instance.scrapers
         == Discovered(old(slot.Current()), BaseScraperClass, modules, SkippedFile, "SCRAPER_TYPE")
  {
    var registry := slot.Construct();
    var before := registry.scrapers;
    registry.scrapers := DiscoverInto(before, BaseScraperClass, modules, SkippedFile, "SCRAPER_TYPE");
    ExtendsKeepsDerive(registry.scrapers, before, BaseScraperClass);
  }

  /** `register_builtin_scrapers`: "generic" maps to `GenericScraper`. */
  method RegisterBuiltinScrapers(slot: RegistryClass)
    requires slot.Valid()
    modifies slot, slot.instance
    ensures slot.Valid() && slot.instance != null
    ensures old(slot.instance) != null ==> slot.instance == old(slot.instance)
    ensures slot.instance.scrapers == Put(old(slot.Current()), "generic", GS.GenericScraperClass)
  {
    var registry := slot.Construct();
    var raised := registry.RegisterScraper("generic", GS.GenericScraperClass);
  }

  /** After the built-in registration, "generic" creates a generic scraper
      unless its constructor raises; any type not registered still gives
      None, with no fallback to "generic". */
  lemma GenericAfterBuiltin(d: Dict<PyClass>, t: string, baseUrl: string, kwargs: map<string, string>,
                            raises: PyClass -> bool)
    requires d.Valid()
    ensures var r := Put(d, "generic", GS.GenericScraperClass);
      && (!raises(GS.GenericScraperClass) ==>
            CreateScraper(r, "generic", baseUrl, kwargs, raises) == Some(Instance(GS.GenericScraperClass, [baseUrl], kwargs)))
      && (t != "generic" && t !in d.values ==> CreateScraper(r, t, baseUrl, kwargs, raises).None?)
  {
  }

  /** `GenericScraper` declares `SCRAPER_TYPE = "generic"`, so loading its
      module registers it under "generic" as well. */
  lemma GenericModuleRegistersGeneric(d: Dict<PyClass>, attrs: seq<Attr>, j: nat)
    requires d.Valid() && j < |attrs| && attrs[j] == ClassAttr(GS.GenericScraperClass)
    ensures var m := PyModule("generic_scraper", Ok(attrs));
      "generic" in Discovered(d, BaseScraperClass, [m], SkippedFile, "SCRAPER_TYPE").values
  {
    var m := PyModule("generic_scraper", Ok(attrs));
    assert !SkippedFile(m.stem);
    DiscoveredFinds(d, BaseScraperClass, [m], SkippedFile, "SCRAPER_TYPE", 0, j);
  }
}
