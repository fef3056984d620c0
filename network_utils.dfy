/** The request defaults of src/utils/network_utils.py: the proxy
    dictionary built from the network configuration, and the keyword
    arguments `get` and `post` complete before calling `requests`. The
    configuration is a record of the values `config.get` finds (None for a
    missing key), `urlparse` is an oracle, and the request itself is the
    call as it would be handed to `requests`. */
module NetworkUtils {
  import opened Wrappers
  import opened Strings
  import SM = SettingsModel

  const DefaultUserAgent: string :=
    "Mozilla/5.0 (Windows NT 10.0; Win64; x64) AppleWebKit/537.36 (KHTML, like Gecko) Chrome/91.0.4472.124 Safari/537.36"
  const DefaultTimeout: int := 30

  /** The keys of section "network" that the module reads. */
  datatype NetworkConfig = NetworkConfig(proxyEnabled: Option<SM.PyValue>, proxyUrl: Option<string>,
                                         proxyUsername: Option<string>, proxyPassword: Option<string>,
                                         userAgent: Option<string>, timeout: Option<int>)

  /** `config.get(section, key, default)`. */
  function ConfigGet<T>(found: Option<T>, default: T): T {
    if found.Some? then found.value else default
  }

  /** Python truthiness of a configuration value. */
  predicate Truthy(v: SM.PyValue) {
    match v
    case PyBool(b) => b
    case PyInt(n) => n != 0
    case PyStr(s) => s != []
  }

  /** `get_user_agent`. */
  function UserAgent(cfg: NetworkConfig): string {
    ConfigGet(cfg.userAgent, DefaultUserAgent)
  }

  /** `get_timeout`. */
  function Timeout(cfg: NetworkConfig): int {
    ConfigGet(cfg.timeout, DefaultTimeout)
  }

  // ------------------------------------------------------------ proxies

  /** The parts of a URL `urlparse` separates: the scheme, the network
      location and everything after it, kept as one piece. */
  datatype Url = Url(scheme: string, netloc: string, rest: string)

  /** `geturl()` of a URL with a network location: "scheme://netloc" and the rest. */
  function GetUrl(u: Url): string {
    (if u.scheme == [] then [] else u.scheme + ":") + "//" + u.netloc + u.rest
  }

  /** The network location with credentials: "user:pass@host". */
  function WithCredentials(user: string, password: string, netloc: string): string {
    user + ":" + password + "@" + netloc
  }

  /** How `urllib` reads credentials back from a network location: the
      text before the last "@", split at its first ":" into the username
      and, if there is a ":", the password. */
  function UserInfo(netloc: string): Option<(string, Option<string>)> {
    var host := AfterLast(netloc, '@');
    if |host| == |netloc| then None
    else
      Some(SplitUser(netloc[..|netloc| - |host| - 1]))
  }

  /** The user information split at its first ":". */
  function SplitUser(info: string): (string, Option<string>) {
    var user := BeforeFirst(info, ':');
    (user, if |user| == |info| then None else Some(info[|user| + 1..]))
  }

  /** The host part of a network location: what follows the last "@". */
  function HostInfo(netloc: string): string {
    AfterLast(netloc, '@')
  }

  /** `get_proxy_settings`: None when the proxy is disabled or its URL is
      empty; otherwise the same URL for "http" and "https", with the
      credentials spliced into the network location when both the username
      and the password are non-empty. */
  function ProxySettings(cfg: NetworkConfig, urlparse: string -> Url): Option<map<string, string>> {
    if cfg.proxyEnabled.None? || !Truthy(cfg.proxyEnabled.value) then None
    else
      var proxyUrl := ConfigGet(cfg.proxyUrl, "");
      if proxyUrl == [] then None
      else
        var user := ConfigGet(cfg.proxyUsername, "");
        var password := ConfigGet(cfg.proxyPassword, "");
        var url := if user != [] && password != [] then
                     var parsed := urlparse(proxyUrl);
                     GetUrl(parsed.(netloc := WithCredentials(user, password, parsed.netloc)))
                   else proxyUrl;
        Some(map["http" := url, "https" := url])
  }

  /** There is a proxy exactly when it is enabled (by a truthy value) and
      its URL is non-empty, and then "http" and "https" share one URL. */
  lemma ProxySettingsShape(cfg: NetworkConfig, urlparse: string -> Url)
    ensures var r := ProxySettings(cfg, urlparse);
      && (r.Some? <==> cfg.proxyEnabled.Some? && Truthy(cfg.proxyEnabled.value) && ConfigGet(cfg.proxyUrl, "") != [])
      && (r.Some? ==> r.value.Keys == {"http", "https"} && r.value["http"] == r.value["https"])
  {
  }

  /** Without a username or without a password the configured URL is used
      as it is written. */
  lemma ProxyWithoutCredentials(cfg: NetworkConfig, urlparse: string -> Url)
    requires ProxySettings(cfg, urlparse).Some?
    requires ConfigGet(cfg.proxyUsername, "") == [] || ConfigGet(cfg.proxyPassword, "") == []
    ensures ProxySettings(cfg, urlparse).value["http"] == ConfigGet(cfg.proxyUrl, "")
  {
  }

  /** A network location with credentials reads back as that username and
      password and that host, provided the username has no ":" and the
      host no "@". */
  lemma CredentialsReadBack(user: string, password: string, netloc: string)
    requires ':' !in user && '@' !in netloc
    ensures UserInfo(WithCredentials(user, password, netloc)) == Some((user, Some(password)))
    ensures HostInfo(WithCredentials(user, password, netloc)) == netloc
  {
    var info := user + [':'] + password;
    assert WithCredentials(user, password, netloc) == info + ['@'] + netloc;
    SplitAtLastAt(info, netloc);
    BeforeFirstAppend(user, ':', password);
    assert info[|user| + 1..] == password;
  }

  /** A network location whose host part has no "@" splits at the "@" in
      front of it. */
  lemma SplitAtLastAt(info: string, netloc: string)
    requires '@' !in netloc
    ensures HostInfo(info + ['@'] + netloc) == netloc
    ensures UserInfo(info + ['@'] + netloc) == Some(SplitUser(info))
  {
    var s := info + ['@'] + netloc;
    HostAfterLastAt(info, netloc);
    assert s[..|s| - |netloc| - 1] == info by {
      PrefixOfAppend(info + ['@'], netloc);
      PrefixOfAppend(info, ['@']);
    }
  }

  lemma HostAfterLastAt(info: string, netloc: string)
    requires '@' !in netloc
    ensures AfterLast(info + ['@'] + netloc, '@') == netloc
  {
    AfterLastAppend(info + ['@'], netloc, '@');
  }

  lemma PrefixOfAppend(a: string, b: string)
    ensures (a + b)[..|a|] == a
  {
  }

  /** With both credentials the proxy URL is the parsed URL with only its
      network location changed, to one that carries the configured
      username and password in front of the configured host. */
  lemma ProxyWithCredentials(cfg: NetworkConfig, urlparse: string -> Url)
    requires ProxySettings(cfg, urlparse).Some?
    requires ConfigGet(cfg.proxyUsername, "") != [] && ConfigGet(cfg.proxyPassword, "") != []
    requires ':' !in ConfigGet(cfg.proxyUsername, "") && '@' !in urlparse(ConfigGet(cfg.proxyUrl, "")).netloc
    ensures var parsed := urlparse(ConfigGet(cfg.proxyUrl, ""));
      exists netloc ::
        && ProxySettings(cfg, urlparse).value["http"] == GetUrl(Url(parsed.scheme, netloc, parsed.rest))
        && UserInfo(netloc) == Some((ConfigGet(cfg.proxyUsername, ""), Some(ConfigGet(cfg.proxyPassword, ""))))
        && HostInfo(netloc) == parsed.netloc
  {
    var user, password := ConfigGet(cfg.proxyUsername, ""), ConfigGet(cfg.proxyPassword, "");
    var parsed := urlparse(ConfigGet(cfg.proxyUrl, ""));
    var netloc := WithCredentials(user, password, parsed.netloc);
    CredentialsReadBack(user, password, parsed.netloc);
    assert ProxySettings(cfg, urlparse).value["http"] == GetUrl(Url(parsed.scheme, netloc, parsed.rest));
  }

  // ------------------------------------------------------------ keyword arguments

  /** A keyword argument: left out by the caller, or passed. */
  datatype Kwarg<T> = Missing | Passed(value: T)

  /** A headers dictionary; `get` and `post` may add to the caller's own. */
  class HeaderDict {
    var items: map<string, string>

    constructor (items: map<string, string>)
      ensures this.items == items
    {
      this.items := items;
    }
  }

  /** The keyword arguments: the three the functions look at, and the rest
      (`data`, `stream`, ...) by name. */
  datatype Kwargs = Kwargs(timeout: Kwarg<int>, headers: Kwarg<HeaderDict>,
                           proxies: Kwarg<Option<map<string, string>>>, others: map<string, string>)

  /** The keyword arguments as values, headers included. */
  datatype KwargsValue = KwargsValue(timeout: Kwarg<int>, headers: Kwarg<map<string, string>>,
                                     proxies: Kwarg<Option<map<string, string>>>, others: map<string, string>)

  function HeaderObjects(k: Kwargs): set<HeaderDict> {
    if k.headers.Passed? then {k.headers.value} else {}
  }

  function ValueOf(k: Kwargs): KwargsValue
    reads HeaderObjects(k)
  {
    KwargsValue(k.timeout, if k.headers.Passed? then Passed(k.headers.value.items) else Missing, k.proxies, k.others)
  }

  /** The defaults `get` and `post` fill in: the configured timeout, a
      User-Agent header (in new headers, or added to headers without one),
      and the proxy settings when the caller passed no proxies and there
      are settings. */
  function Defaulted(k: KwargsValue, cfg: NetworkConfig, urlparse: string -> Url): KwargsValue {
    var proxies := ProxySettings(cfg, urlparse);
    KwargsValue(
      if k.timeout.Missing? then Passed(Timeout(cfg)) else k.timeout,
      if k.headers.Missing? then Passed(map["User-Agent" := UserAgent(cfg)])
      else if "User-Agent" in k.headers.value then k.headers
      else Passed(k.headers.value["User-Agent" := UserAgent(cfg)]),
      if k.proxies.Missing? && proxies.Some? then Passed(proxies) else k.proxies,
      k.others)
  }

  /** What the defaults mean: a passed timeout, header or proxies argument
      is kept, every header of the caller's is kept and a User-Agent is
      always present; the configured values fill exactly the gaps; the
      other arguments are untouched. */
  lemma DefaultedFacts(k: KwargsValue, cfg: NetworkConfig, urlparse: string -> Url)
    ensures var d := Defaulted(k, cfg, urlparse);
      && d.timeout.Passed?
      && (k.timeout.Passed? ==> d.timeout == k.timeout)
      && (k.timeout.Missing? ==> d.timeout.value == ConfigGet(cfg.timeout, DefaultTimeout))
      && d.headers.Passed? && "User-Agent" in d.headers.value
      && (k.headers.Missing? ==> d.headers.value == map["User-Agent" := UserAgent(cfg)])
      && (k.headers.Passed? ==>
            && d.headers.value.Keys == k.headers.value.Keys + {"User-Agent"}
            && (forall h :: h in k.headers.value ==> d.headers.value[h] == k.headers.value[h])
            && ("User-Agent" !in k.headers.value ==> d.headers.value["User-Agent"] == UserAgent(cfg)))
      && (k.proxies.Passed? ==> d.proxies == k.proxies)
      && (d.proxies.Passed? && k.proxies.Missing? <==> k.proxies.Missing? && ProxySettings(cfg, urlparse).Some?)
      && (d.proxies.Passed? && k.proxies.Missing? ==> d.proxies.value == ProxySettings(cfg, urlparse))
      && d.others == k.others
  {
  }

  /** Filling in the defaults twice changes nothing more. */
  lemma DefaultedIdempotent(k: KwargsValue, cfg: NetworkConfig, urlparse: string -> Url)
    ensures Defaulted(Defaulted(k, cfg, urlparse), cfg, urlparse) == Defaulted(k, cfg, urlparse)
  {
  }

  /** The defaulting of `get` and `post`, on the caller's arguments: new
      headers are a fresh dictionary, and headers the caller passed are the
      caller's own dictionary, updated in place. */
  method ApplyDefaults(kwargs: Kwargs, cfg: NetworkConfig, urlparse: string -> Url) returns (out: Kwargs)
    modifies HeaderObjects(kwargs)
    ensures ValueOf(out) == Defaulted(old(ValueOf(kwargs)), cfg, urlparse)
    ensures kwargs.headers.Passed? ==> out.headers == kwargs.headers
    ensures kwargs.headers.Missing? ==> out.headers.Passed? && fresh(out.headers.value)
  {
    var timeout := kwargs.timeout;
    if timeout.Missing? {
      timeout := Passed(Timeout(cfg));
    }
    var headers := kwargs.headers;
    if headers.Missing? {
      var h := new HeaderDict(map["User-Agent" := UserAgent(cfg)]);
      headers := Passed(h);
    } else if "User-Agent" !in headers.value.items {
      headers.value.items := headers.value.items["User-Agent" := UserAgent(cfg)];
    }
    var proxies := kwargs.proxies;
    if proxies.Missing? {
      var settings := ProxySettings(cfg, urlparse);
      if settings.Some? {
        proxies := Passed(settings);
      }
    }
    out := Kwargs(timeout, headers, proxies, kwargs.others);
  }

  /** A call handed to `requests`: the method, the URL and the arguments. */
  datatype Request = Request(verb: string, url: string, kwargs: Kwargs)

  /** `get`: the request `requests.get` receives. */
  method Get(url: string, kwargs: Kwargs, cfg: NetworkConfig, urlparse: string -> Url) returns (req: Request)
    modifies HeaderObjects(kwargs)
    ensures req.verb == "GET" && req.url == url
    ensures ValueOf(req.kwargs) == Defaulted(old(ValueOf(kwargs)), cfg, urlparse)
    ensures kwargs.headers.Passed? ==> req.kwargs.headers == kwargs.headers
  {
    var sent := ApplyDefaults(kwargs, cfg, urlparse);
    req := Request("GET", url, sent);
  }

  /** `post`: the same defaults as `get`, for `requests.post`. */
  method Post(url: string, kwargs: Kwargs, cfg: NetworkConfig, urlparse: string -> Url) returns (req: Request)
    modifies HeaderObjects(kwargs)
    ensures req.verb == "POST" && req.url == url
    ensures ValueOf(req.kwargs) == Defaulted(old(ValueOf(kwargs)), cfg, urlparse)
    ensures kwargs.headers.Passed? ==> req.kwargs.headers == kwargs.headers
  {
    var sent := ApplyDefaults(kwargs, cfg, urlparse);
    req := Request("POST", url, sent);
  }

  /** The tests: the caller's "User-Agent" and "Accept" headers reach
      `requests` unchanged, and so does a timeout of 10. */
  lemma CallerHeadersKept(cfg: NetworkConfig, urlparse: string -> Url, others: map<string, string>)
    ensures var h := map["User-Agent" := "Test Agent", "Accept" := "text/html"];
      var d := Defaulted(KwargsValue(Missing, Passed(h), Missing, others), cfg, urlparse);
      d.headers == Passed(h) && d.timeout == Passed(Timeout(cfg))
  {
  }

  lemma CallerTimeoutKept(cfg: NetworkConfig, urlparse: string -> Url, others: map<string, string>)
    ensures var d := Defaulted(KwargsValue(Passed(10), Missing, Missing, others), cfg, urlparse);
      d.timeout == Passed(10) && d.headers == Passed(map["User-Agent" := UserAgent(cfg)])
  {
  }
}
