/** The settings store of src/db/settings_model.py: the `settings` table as a
    map from key to row, seeded with 19 defaults, and the text codec of
    `get` and `set` for booleans, integers and strings. */
module SettingsModel {
  import opened Wrappers
  import opened Strings

  /** One entry of the default list. */
  datatype Setting = Setting(key: string, value: string, category: string, description: string)

  /** A row of the table, keyed by its `key` column. */
  datatype Row = Row(value: string, category: string, description: string)

  /** The Python values handled: `bool`, `int` and `str`. As a result of
      decoding, `PyStr(text)` stands for every text that is neither a boolean
      nor an integer. */
  datatype PyValue = PyBool(b: bool) | PyInt(n: int) | PyStr(s: string)

  const Defaults: seq<Setting> := [
    Setting("network.proxy_enabled", "false", "network", "Whether to use a proxy for network connections"),
    Setting("network.proxy_url", "", "network", "Proxy URL (e.g., http://proxy.example.com:8080)"),
    Setting("network.proxy_username", "", "network", "Proxy username"),
    Setting("network.proxy_password", "", "network", "Proxy password"),
    Setting("network.user_agent",
            "Mozilla/5.0 (Windows NT 10.0; Win64; x64) AppleWebKit/537.36 (KHTML, like Gecko) Chrome/91.0.4472.124 Safari/537.36",
            "network", "User agent string for HTTP requests"),
    Setting("network.timeout", "30", "network", "Timeout for network requests in seconds"),
    Setting("download.concurrent_downloads", "3", "download", "Number of concurrent downloads"),
    Setting("download.rate_limit_kbps", "500", "download", "Download rate limit in KB/s (0 for unlimited)"),
    Setting("download.retry_count", "3", "download", "Number of times to retry a failed download"),
    Setting("download.retry_delay", "5", "download", "Delay between retry attempts in seconds"),
    Setting("file_types.pdf_enabled", "true", "file_types", "Whether to download PDF files"),
    Setting("file_types.epub_enabled", "true", "file_types", "Whether to download EPUB files"),
    Setting("file_types.txt_enabled", "true", "file_types", "Whether to download TXT files"),
    Setting("notification.enabled", "true", "notification", "Whether to show notifications"),
    Setting("notification.download_completed", "true", "notification",
            "Whether to show notifications for completed downloads"),
    Setting("notification.download_failed", "true", "notification",
            "Whether to show notifications for failed downloads"),
    Setting("notification.scan_completed", "true", "notification",
            "Whether to show notifications for completed scans"),
    Setting("appearance.theme", "system", "appearance", "Application theme (system, light, dark)"),
    Setting("appearance.font_size", "12", "appearance", "Font size for the application")
  ]

  // ------------------------------------------------------------ seeding

  /** The loop of `_ensure_default_settings`: each setting whose key is
      missing is inserted; an existing row is left as it is. */
  function Seed(store: map<string, Row>, ds: seq<Setting>): map<string, Row>
    decreases |ds|
  {
    if ds == [] then store
    else
      var s := Seed(store, ds[..|ds| - 1]);
      var d := ds[|ds| - 1];
      if d.key in s then s else s[d.key := Row(d.value, d.category, d.description)]
  }

  /** Seeding never overwrites, and its keys are the old keys and the default keys. */
  lemma {:induction false} SeedKeys(store: map<string, Row>, ds: seq<Setting>, k: string)
    ensures k in store ==> k in Seed(store, ds) && Seed(store, ds)[k] == store[k]
    ensures k in Seed(store, ds) <==> k in store || exists i :: 0 <= i < |ds| && ds[i].key == k
    decreases |ds|
  {
    if ds != [] {
      var init := ds[..|ds| - 1];
      SeedKeys(store, init, k);
      assert forall i :: 0 <= i < |init| ==> init[i] == ds[i];
    }
  }

  /** A table that already holds every key of the list is not changed. */
  lemma {:induction false} SeedNoop(store: map<string, Row>, ds: seq<Setting>)
    requires forall i :: 0 <= i < |ds| ==> ds[i].key in store
    ensures Seed(store, ds) == store
    decreases |ds|
  {
    if ds != [] {
      SeedNoop(store, ds[..|ds| - 1]);
    }
  }

  /** Seeding twice is seeding once. */
  lemma SeedIdempotent(store: map<string, Row>, ds: seq<Setting>)
    ensures Seed(Seed(store, ds), ds) == Seed(store, ds)
  {
    forall i | 0 <= i < |ds|
      ensures ds[i].key in Seed(store, ds)
    {
      SeedKeys(store, ds, ds[i].key);
    }
    SeedNoop(Seed(store, ds), ds);
  }

  predicate DistinctKeys(ds: seq<Setting>) {
    forall i, j :: 0 <= i < j < |ds| ==> ds[i].key != ds[j].key
  }

  /** Seeded into an empty table, a list with distinct keys gives each key
      its own default row. */
  lemma {:induction false} SeedEmpty(ds: seq<Setting>, i: nat)
    requires DistinctKeys(ds) && i < |ds|
    ensures ds[i].key in Seed(map[], ds)
    ensures Seed(map[], ds)[ds[i].key] == Row(ds[i].value, ds[i].category, ds[i].description)
    decreases |ds|
  {
    var init := ds[..|ds| - 1];
    if i < |ds| - 1 {
      SeedEmpty(init, i);
      SeedKeys(map[], init, ds[i].key);
    } else {
      SeedKeys(map[], init, ds[i].key);
      assert forall j :: 0 <= j < |init| ==> init[j].key == ds[j].key != ds[i].key;
    }
  }

  /** The default keys, in list order. */
  const DefaultKeys: seq<string> := [
    "network.proxy_enabled", "network.proxy_url", "network.proxy_username", "network.proxy_password",
    "network.user_agent", "network.timeout", "download.concurrent_downloads", "download.rate_limit_kbps",
    "download.retry_count", "download.retry_delay", "file_types.pdf_enabled", "file_types.epub_enabled",
    "file_types.txt_enabled", "notification.enabled", "notification.download_completed",
    "notification.download_failed", "notification.scan_completed", "appearance.theme", "appearance.font_size"
  ]

  lemma DefaultKeysDistinct()
    ensures forall i, j :: 0 <= i < j < |DefaultKeys| ==> DefaultKeys[i] != DefaultKeys[j]
  {
  }

  /** The 19 default keys are distinct. */
  lemma DefaultsDistinct()
    ensures |Defaults| == 19
    ensures DistinctKeys(Defaults)
  {
    assert forall i :: 0 <= i < |Defaults| ==> Defaults[i].key == DefaultKeys[i];
    DefaultKeysDistinct();
  }

  /** The table `reset_to_defaults` leaves: exactly the 19 default keys,
      each with its default row. */
  lemma DefaultTable(k: string)
    ensures k in Seed(map[], Defaults) <==> exists i :: 0 <= i < |Defaults| && Defaults[i].key == k
    ensures forall i :: 0 <= i < |Defaults| ==>
              && Defaults[i].key in Seed(map[], Defaults)
              && Seed(map[], Defaults)[Defaults[i].key] == Row(Defaults[i].value, Defaults[i].category, Defaults[i].description)
  {
    SeedKeys(map[], Defaults, k);
    DefaultsDistinct();
    forall i | 0 <= i < |Defaults|
      ensures Defaults[i].key in Seed(map[], Defaults)
      ensures Seed(map[], Defaults)[Defaults[i].key] == Row(Defaults[i].value, Defaults[i].category, Defaults[i].description)
    {
      SeedEmpty(Defaults, i);
    }
  }

  // ------------------------------------------------------------ codec

  /** The decoding of `get`: "true" and "false" in any case, then `int`;
      any other text is returned as `PyStr`. */
  function Decode(text: string): PyValue {
    if Lower(text) == "true" then PyBool(true)
    else if Lower(text) == "false" then PyBool(false)
    else match ParseInt(text)
      case Some(n) => PyInt(n)
      case None => PyStr(text)
  }

  /** The encoding of `set`: `str(value).lower()` for a bool, `str(value)` otherwise. */
  function Encode(v: PyValue): string {
    match v
    case PyBool(b) => if b then "true" else "false"
    case PyInt(n) => IntToString(n)
    case PyStr(s) => s
  }

  /** Decoding is case-insensitive: "TRUE" is `True`. */
  lemma DecodeIgnoresCase()
    ensures Decode("TRUE") == PyBool(true)
    ensures Decode("False") == PyBool(false)
  {
    LowerEq("TRUE", "true");
    LowerEq("False", "false");
  }

  /** `get` returns the bool `set` stored. */
  lemma BoolRoundTrip(b: bool)
    ensures Decode(Encode(PyBool(b))) == PyBool(b)
  {
    LowerEq("true", "true");
    LowerEq("false", "false");
  }

  /** `get` returns the int `set` stored. */
  lemma IntRoundTrip(n: int)
    ensures Decode(Encode(PyInt(n))) == PyInt(n)
  {
    var s := IntToString(n);
    LowerAt(s, 0);
    assert Lower(s)[0] != "true"[0] && Lower(s)[0] != "false"[0];
    ParseIntOfIntToString(n);
  }

  /** The category of a new key: the text before its first ".", or
      "general" for a key without one. */
  function CategoryOf(key: string): (c: string)
    ensures '.' !in c
    ensures '.' in key ==> StartsWith(key, c) && key[|c|] == '.'
    ensures '.' !in key ==> c == "general"
  {
    if '.' in key then BeforeFirst(key, '.') else "general"
  }

  // ------------------------------------------------------------ the store

  class Settings {
    var store: map<string, Row>

    /** `__init__`: seeding the table as it is found. */
    constructor (table: map<string, Row>)
      ensures store == Seed(table, Defaults)
    {
      store := table;
      new;
      EnsureDefaultSettings();
    }

    /** `_ensure_default_settings`. */
    method EnsureDefaultSettings()
      modifies this
      ensures store == Seed(old(store), Defaults)
    {
      store := SeedWith(store, Defaults);
    }

    /** `get`: the decoded value, or the supplied default for an absent key. */
    function Get(key: string, default: PyValue): PyValue
      reads this
    {
      Lookup(store, key, default)
    }

    /** `set`: an existing key gets the new value only; a new key is inserted
        with its derived category and an empty description. */
    method Set(key: string, value: PyValue) returns (ok: bool)
      modifies this
      ensures ok && store == Stored(old(store), key, value)
    {
      var valueStr := Encode(value);
      if key in store {
        store := store[key := store[key].(value := valueStr)];
      } else {
        var category := if '.' in key then BeforeFirst(key, '.') else "general";
        store := store[key := Row(valueStr, category, "")];
      }
      return true;
    }

    /** `delete`. */
    method Delete(key: string) returns (ok: bool)
      modifies this
      ensures ok && store == old(store) - {key}
    {
      store := store - {key};
      return true;
    }

    /** `reset_to_defaults`: every row is deleted, then the defaults are seeded. */
    method ResetToDefaults() returns (ok: bool)
      modifies this
      ensures ok && store == Seed(map[], Defaults)
    {
      store := map[];
      EnsureDefaultSettings();
      return true;
    }

    /** `get_all`: every key with its decoded value. */
    method GetAll() returns (settings: map<string, PyValue>)
      ensures settings.Keys == store.Keys
      ensures forall k :: k in settings ==> settings[k] == Get(k, PyStr(""))
    {
      settings := CollectDecoded(store, (r: Row) => true);
    }

    /** `get_by_category`: the keys of one category with their decoded values. */
    method GetByCategory(category: string) returns (settings: map<string, PyValue>)
      ensures forall k :: k in settings <==> k in store && store[k].category == category
      ensures forall k :: k in settings ==> settings[k] == Get(k, PyStr(""))
    {
      settings := CollectDecoded(store, (r: Row) => r.category == category);
    }
  }

  /** The loop of `_ensure_default_settings` over a list of settings. */
  method SeedWith(store0: map<string, Row>, ds: seq<Setting>) returns (store: map<string, Row>)
    ensures store == Seed(store0, ds)
  {
    store := store0;
    for i := 0 to |ds|
      invariant store == Seed(store0, ds[..i])
    {
      assert ds[..i + 1][..i] == ds[..i];
      if ds[i].key !in store {
        store := store[ds[i].key := Row(ds[i].value, ds[i].category, ds[i].description)];
      }
    }
    assert ds[..|ds|] == ds;
  }

  /** The result loops of `get_all` and `get_by_category`: the selected rows
      in whatever order the query returns them, each value decoded. */
  method CollectDecoded(store: map<string, Row>, selected: Row -> bool) returns (settings: map<string, PyValue>)
    ensures forall k :: k in settings <==> k in store && selected(store[k])
    ensures forall k :: k in settings ==> settings[k] == Decode(store[k].value)
  {
    settings := map[];
    var rows := store.Keys;
    while rows != {}
      invariant rows <= store.Keys
      invariant forall k :: k in settings <==> k in store && k !in rows && selected(store[k])
      invariant forall k :: k in settings ==> settings[k] == Decode(store[k].value)
      decreases rows
    {
      var k :| k in rows;
      if selected(store[k]) {
        settings := settings[k := Decode(store[k].value)];
      }
      rows := rows - {k};
    }
  }

  /** `get` on a table. */
  function Lookup(store: map<string, Row>, key: string, default: PyValue): PyValue {
    if key in store then Decode(store[key].value) else default
  }

  /** The table after `set(key, value)`. */
  function Stored(store: map<string, Row>, key: string, value: PyValue): map<string, Row> {
    if key in store then store[key := store[key].(value := Encode(value))]
    else store[key := Row(Encode(value), CategoryOf(key), "")]
  }

  /** `set` on an existing key changes its value only, a new key gets the
      category derived from it and an empty description, and no other key
      changes. */
  lemma SetFacts(store: map<string, Row>, key: string, value: PyValue, other: string)
    ensures var s := Stored(store, key, value);
      && key in s && s[key].value == Encode(value)
      && (key in store ==> s[key].category == store[key].category && s[key].description == store[key].description)
      && (key !in store ==> s[key].category == CategoryOf(key) && s[key].description == "")
      && (other != key ==> (other in s <==> other in store) && (other in store ==> s[other] == store[other]))
  {
  }

  /** After `set(k, v)` with a bool or an int, `get(k, d)` returns `v`. */
  lemma GetAfterSet(store: map<string, Row>, k: string, v: PyValue, d: PyValue)
    requires v.PyBool? || v.PyInt?
    ensures Lookup(Stored(store, k, v), k, d) == v
  {
    if v.PyBool? {
      BoolRoundTrip(v.b);
    } else {
      IntRoundTrip(v.n);
    }
  }

  /** After `delete(k)`, `get(k, d)` returns the default `d`. */
  lemma GetAfterDelete(store: map<string, Row>, k: string, d: PyValue)
    ensures Lookup(store - {k}, k, d) == d
  {
  }
}
