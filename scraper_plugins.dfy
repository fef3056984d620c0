/** The scraper plugin manager of src/plugins/scrapers/__init__.py: a
    singleton `PluginManager` over "src/plugins/scrapers" whose base class
    is `BaseScraper`, with `create_scraper`. The model holds the base part
    as `manager`. */
module ScraperPlugins {
  import opened Wrappers
  import opened OrderedDict
  import opened Plugins
  import opened Scrapers

  class ScraperPluginManager {
    const manager: PluginManager

    ghost predicate Valid()
      reads this, manager
    {
      manager.Valid() && manager.baseClass == BaseScraperClass
    }

    constructor ()
      ensures Valid() && fresh(manager)
      ensures manager.plugins == Empty() && manager.pluginDir == "src/plugins/scrapers"
    {
      manager := new PluginManager("src/plugins/scrapers", BaseScraperClass);
    }

    /** `create_scraper`: the registered class called with the base URL and
        the keyword arguments, or None. */
    function CreateScraper(t: string, baseUrl: string, kwargs: map<string, string>,
                           raises: PyClass -> bool): Option<Instance>
      reads this, manager
    {
      Scrapers.CreateScraper(manager.plugins, t, baseUrl, kwargs, raises)
    }
  }

  /** A scraper built by the manager is of a class that derives from
      `BaseScraper`, since registration refuses every other class. */
  lemma CreatedScrapersDerive(m: ScraperPluginManager, t: string, baseUrl: string, kwargs: map<string, string>,
                              raises: PyClass -> bool)
    requires m.Valid()
    ensures var r := m.CreateScraper(t, baseUrl, kwargs, raises);
      r.Some? ==> IsSubclass(r.value.cls, BaseScraperClass) && r.value.args == [baseUrl]
  {
  }

  /** The class attribute `_instance` of `ScraperPluginManager`. */
  class ScraperPluginManagerClass {
    var instance: ScraperPluginManager?

    constructor ()
      ensures instance == null
    {
      instance := null;
    }

    /** `ScraperPluginManager()`: the first call builds the manager and runs
        its initialisation; every later call returns the same manager and
        leaves its plugins as they are. */
    method Construct() returns (m: ScraperPluginManager)
      modifies this
      ensures instance == m
      ensures old(instance) != null ==> m == old(instance) && unchanged(m, m.manager)
      ensures old(instance) == null ==> fresh(m) && m.Valid() && m.manager.plugins == Empty()
    {
      if instance == null {
        m := new ScraperPluginManager();
        instance := m;
      } else {
        m := instance;
      }
    }
  }
}
