/** What the two scraper registries share: the class `BaseScraper` of
    src/scrapers/base_scraper.py, and `create_scraper`, which both
    src/scrapers/registry.py and src/plugins/scrapers/__init__.py implement
    the same way. */
module Scrapers {
  import opened Wrappers
  import opened OrderedDict
  import opened Plugins

  /** `BaseScraper(ABC)`. */
  const BaseScraperClass := PyClass("BaseScraper", ["BaseScraper", "ABC", "object"], map[], "", [])

  /** `create_scraper(t, base_url, **kwargs)`: the class registered for `t`,
      called with the base URL and the keyword arguments; None for an
      unregistered type and when the constructor raises. */
  function CreateScraper(d: Dict<PyClass>, t: string, baseUrl: string, kwargs: map<string, string>,
                         raises: PyClass -> bool): Option<Instance>
  {
    match Get(d, t)
    case None => None
    case Some(c) => Instantiate(c, [baseUrl], kwargs, raises)
  }

  /** An unregistered type gives None, whatever else is registered: there
      is no fallback to a generic scraper. A registered type gives an
      instance of its class built from the base URL and the keyword
      arguments, unless the constructor raises. */
  lemma CreateScraperFacts(d: Dict<PyClass>, t: string, baseUrl: string, kwargs: map<string, string>,
                           raises: PyClass -> bool)
    ensures var r := CreateScraper(d, t, baseUrl, kwargs, raises);
      && (t !in d.values ==> r.None?)
      && (r.Some? <==> t in d.values && !raises(d.values[t]))
      && (r.Some? ==> r.value == Instance(d.values[t], [baseUrl], kwargs))
  {
  }
}
