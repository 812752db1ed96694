/**
  The reconnect configuration of the node-sse proxy (crates/node-sse/src/proxy.rs):
  a configuration record with documented defaults, one chained setter per
  tunable field, a builder holding the default configuration, and the proxy
  that is created from a configuration.
*/
module NodeSseProxy {
  import opened Wrappers

  /** A `u32`. */
  newtype u32 = x: int | 0 <= x < 0x1_0000_0000

  /** The values a configuration holds; durations are whole seconds. */
  datatype Settings = Settings(
    backoffFactor: u32,
    delayOnRetry: nat,
    maxDelayBetweenReconnects: nat,
    reconnectOnError: bool,
    retryInitialConnection: bool,
    url: string)

  const DEFAULT_URL: string := "http://localhost:14101/events"

  /** The settings `ProxyConfig::new(url)` writes: the documented defaults with the given url. */
  function SettingsFor(url: string): Settings
  {
    Settings(2, 2, 60, true, true, url)
  }

  /** The settings of `ProxyConfig::default()`, which targets node 1 of a local network. */
  function DefaultSettings(): Settings
  {
    Settings(2, 2, 60, true, true, DEFAULT_URL)
  }

  /** `new(u)` is the default configuration with only the url replaced. */
  lemma NewIsDefaultWithUrl(url: string)
    ensures SettingsFor(url) == DefaultSettings().(url := url)
    ensures SettingsFor(DEFAULT_URL) == DefaultSettings()
  {
  }

  /** `ProxyConfig`: each setter writes one field and hands the same object back for chaining. */
  class ProxyConfig {
    var backoffFactor: u32
    var delayOnRetry: nat
    var maxDelayBetweenReconnects: nat
    var reconnectOnError: bool
    var retryInitialConnection: bool
    var url: string

    /** The configuration as a value (what `clone()` copies). */
    function Value(): Settings
      reads this
    {
      Settings(backoffFactor, delayOnRetry, maxDelayBetweenReconnects, reconnectOnError, retryInitialConnection, url)
    }

    /** `ProxyConfig::new`. */
    constructor New(url: string)
      ensures Value() == SettingsFor(url)
    {
      backoffFactor := 2;
      delayOnRetry := 2;
      maxDelayBetweenReconnects := 60;
      reconnectOnError := true;
      retryInitialConnection := true;
      this.url := url;
    }

    /** `Default for ProxyConfig`. */
    constructor Default()
      ensures Value() == DefaultSettings()
    {
      backoffFactor := 2;
      delayOnRetry := 2;
      maxDelayBetweenReconnects := 60;
      reconnectOnError := true;
      retryInitialConnection := true;
      url := DEFAULT_URL;
    }

    /** Sets the factor by which reconnect delays grow. */
    method BackoffFactor(value: u32) returns (self: ProxyConfig)
      modifies this
      ensures self == this
      ensures Value() == old(Value()).(backoffFactor := value)
    {
      backoffFactor := value;
      self := this;
    }

    /** Sets the delay before a reconnect attempt. */
    method DelayOnRetry(value: nat) returns (self: ProxyConfig)
      modifies this
      ensures self == this
      ensures Value() == old(Value()).(delayOnRetry := value)
    {
      delayOnRetry := value;
      self := this;
    }

    /** Sets the largest delay between reconnects. */
    method MaxDelayBetweenReconnects(value: nat) returns (self: ProxyConfig)
      modifies this
      ensures self == this
      ensures Value() == old(Value()).(maxDelayBetweenReconnects := value)
    {
      maxDelayBetweenReconnects := value;
      self := this;
    }

    /** Enables or disables reconnecting after a stream error. */
    method ReconnectOnError(value: bool) returns (self: ProxyConfig)
      modifies this
      ensures self == this
      ensures Value() == old(Value()).(reconnectOnError := value)
    {
      reconnectOnError := value;
      self := this;
    }

    /** Enables or disables retrying when the first connection fails. */
    method RetryInitialConnection(value: bool) returns (self: ProxyConfig)
      modifies this
      ensures self == this
      ensures Value() == old(Value()).(retryInitialConnection := value)
    {
      retryInitialConnection := value;
      self := this;
    }
  }

  /** One application of a setter, by field. */
  datatype Setter =
    | SetBackoffFactor(factor: u32)
    | SetDelayOnRetry(delay: nat)
    | SetMaxDelayBetweenReconnects(maxDelay: nat)
    | SetReconnectOnError(reconnect: bool)
    | SetRetryInitialConnection(retry: bool)
  {
    /** The field the setter writes, numbered in declaration order. */
    function Field(): nat
    {
      match this
      case SetBackoffFactor(_) => 0
      case SetDelayOnRetry(_) => 1
      case SetMaxDelayBetweenReconnects(_) => 2
      case SetReconnectOnError(_) => 3
      case SetRetryInitialConnection(_) => 4
    }
  }

  /** Apply `s` to the chain head `c`, returning what the setter returns. */
  method ApplySetter(c: ProxyConfig, s: Setter) returns (self: ProxyConfig)
    modifies c
    ensures self == c
    ensures c.Value() == Updated(old(c.Value()), s)
  {
    match s
    case SetBackoffFactor(v) => self := c.BackoffFactor(v);
    case SetDelayOnRetry(v) => self := c.DelayOnRetry(v);
    case SetMaxDelayBetweenReconnects(v) => self := c.MaxDelayBetweenReconnects(v);
    case SetReconnectOnError(v) => self := c.ReconnectOnError(v);
    case SetRetryInitialConnection(v) => self := c.RetryInitialConnection(v);
  }

  /** The settings after one setter, as the setters' contracts describe them. */
  function Updated(v: Settings, s: Setter): (r: Settings)
    ensures r.url == v.url
  {
    match s
    case SetBackoffFactor(x) => v.(backoffFactor := x)
    case SetDelayOnRetry(x) => v.(delayOnRetry := x)
    case SetMaxDelayBetweenReconnects(x) => v.(maxDelayBetweenReconnects := x)
    case SetReconnectOnError(x) => v.(reconnectOnError := x)
    case SetRetryInitialConnection(x) => v.(retryInitialConnection := x)
  }

  /** The settings after a chain of setters applied left to right. */
  function UpdatedBy(v: Settings, chain: seq<Setter>): Settings
    decreases |chain|
  {
    if chain == [] then v else UpdatedBy(Updated(v, chain[0]), chain[1..])
  }

  /** Setting a field twice is the same as setting it once, to the second value. */
  lemma LastWriteWins(v: Settings, s: Setter, t: Setter)
    requires s.Field() == t.Field()
    ensures Updated(Updated(v, s), t) == Updated(v, t)
  {
  }

  /** Setters of different fields commute. */
  lemma SettersOfDistinctFieldsCommute(v: Settings, s: Setter, t: Setter)
    requires s.Field() != t.Field()
    ensures Updated(Updated(v, s), t) == Updated(Updated(v, t), s)
  {
  }

  /** No chain of setters changes the url, which only the constructors write. */
  lemma {:induction false} ChainKeepsUrl(v: Settings, chain: seq<Setter>)
    ensures UpdatedBy(v, chain).url == v.url
    decreases |chain|
  {
    if chain != [] {
      ChainKeepsUrl(Updated(v, chain[0]), chain[1..]);
    }
  }

  /** A chained call `c.f(a).g(b)...`: every setter lands on the same object. */
  method ApplyChain(c: ProxyConfig, chain: seq<Setter>) returns (self: ProxyConfig)
    modifies c
    ensures self == c
    ensures c.Value() == UpdatedBy(old(c.Value()), chain)
  {
    self := c;
    var i := 0;
    while i < |chain|
      invariant 0 <= i <= |chain| && self == c
      invariant UpdatedBy(old(c.Value()), chain) == UpdatedBy(c.Value(), chain[i..])
    {
      assert chain[i..][1..] == chain[i + 1..];
      self := ApplySetter(self, chain[i]);
      i := i + 1;
    }
  }

  /** `ProxyConfigBuilder`: holds a configuration built from the defaults. */
  class ProxyConfigBuilder {
    var cfg: ProxyConfig

    /** `ProxyConfigBuilder::new`. */
    constructor ()
      ensures fresh(cfg) && cfg.Value() == DefaultSettings()
    {
      cfg := new ProxyConfig.Default();
    }
  }

  /** A handler attached to a proxy, known only by an opaque token. */
  datatype ProxyEventHandler = ProxyEventHandler(token: nat)

  /** `Proxy`: the configuration it was given and an optional handler. */
  datatype Proxy = Proxy(config: Settings, handler: Option<ProxyEventHandler>)

  /** `Proxy::new`: takes over the configuration's values; no handler is attached. */
  function NewProxy(config: ProxyConfig): (p: Proxy)
    reads config
    ensures p.config == config.Value() && p.handler == None
  {
    Proxy(config.Value(), None)
  }
}
