/**
 * Configuration records and `load`: two optional configuration files, the
 * later overriding the earlier key by key, then built-in defaults for the keys
 * neither supplies, then deserialisation into `Config`.
 */
module Config {
  import opened Results
  import opened Messages

  /** A route: requests whose Host starts with `host_name` go to `upstream_address`. */
  datatype Service = Service(host_name: string, upstream_address: string)

  datatype Management = Management(enabled: bool, host_name: string)

  /** The configuration. The order of `services` decides which route wins. */
  datatype Config = Config(
    listen_port: Port,
    listen_host: string,
    services: seq<Service>,
    log: string,
    management: Management)

  /**
   * The configuration shared by the proxy and the management server
   * (`Arc<RwLock<Config>>`), as a plain mutable object without the lock.
   */
  class SharedConfig {
    var config: Config

    constructor(config: Config)
      ensures this.config == config
    {
      this.config := config;
    }
  }

  /**
   * The keys one configuration file sets; `listen_port` is the raw integer
   * before it is narrowed to `u16`. The two keys of the `management` table are
   * separate, because merging goes into a table key by key.
   */
  datatype Source = Source(
    listen_port: Option<int>,
    listen_host: Option<string>,
    services: Option<seq<Service>>,
    log: Option<string>,
    management_enabled: Option<bool>,
    management_host_name: Option<string>)

  /** Why deserialisation (the `unwrap` that ends `load`) fails. */
  datatype LoadError = PortOutOfRange(value: int) | MissingManagement

  const DefaultListenHost := "0.0.0.0"
  const DefaultListenPort := 80
  const DefaultLog := "info"

  const NoKeys := Source(None, None, None, None, None, None)

  /** A file that is not there contributes no keys. */
  function Keys(file: Option<Source>): Source
  {
    match file
    case None => NoKeys
    case Some(s) => s
  }

  /** The value of one key: the later file's if it sets it, else the earlier file's, else the default. */
  function Pick<T>(earlier: Option<T>, later: Option<T>, default: T): (r: T)
    ensures later.Some? ==> r == later.value
    ensures later.None? && earlier.Some? ==> r == earlier.value
    ensures later.None? && earlier.None? ==> r == default
  {
    match later
    case Some(v) => v
    case None =>
      match earlier
      case Some(v) => v
      case None => default
  }

  /** The value of a key without a default: `None` when neither file sets it. */
  function PickOption<T>(earlier: Option<T>, later: Option<T>): (r: Option<T>)
    ensures r.None? <==> earlier.None? && later.None?
  {
    if later.Some? then later else earlier
  }

  /**
   * `load`: merges the local file `nanoproxy` and then `/etc/nanoproxy` (both
   * optional; `None` is a missing file), applies the defaults, and
   * deserialises. A port outside `u16`, or a `management` key that neither
   * file sets, fails. The two `management` keys may come from different files.
   */
  function Load(local: Option<Source>, etc: Option<Source>): (r: Result<Config, LoadError>)
    ensures var a, b := Keys(local), Keys(etc);
      var port := Pick(a.listen_port, b.listen_port, DefaultListenPort);
      var missing := (a.management_enabled.None? && b.management_enabled.None?)
        || (a.management_host_name.None? && b.management_host_name.None?);
      && (r.Err? <==> !(0 <= port < 0x1_0000) || missing)
      && (r.Ok? ==>
            && r.value.listen_port == port
            && r.value.listen_host == Pick(a.listen_host, b.listen_host, DefaultListenHost)
            && r.value.log == Pick(a.log, b.log, DefaultLog)
            && r.value.services == Pick(a.services, b.services, [])
            && Some(r.value.management.enabled) == PickOption(a.management_enabled, b.management_enabled)
            && Some(r.value.management.host_name) == PickOption(a.management_host_name, b.management_host_name))
  {
    var a, b := Keys(local), Keys(etc);
    var port := Pick(a.listen_port, b.listen_port, DefaultListenPort);
    var enabled := PickOption(a.management_enabled, b.management_enabled);
    var hostName := PickOption(a.management_host_name, b.management_host_name);
    if !(0 <= port < 0x1_0000) then Err(PortOutOfRange(port))
    else if enabled.None? || hostName.None? then Err(MissingManagement)
    else Ok(Config(
      port,
      Pick(a.listen_host, b.listen_host, DefaultListenHost),
      Pick(a.services, b.services, []),
      Pick(a.log, b.log, DefaultLog),
      Management(enabled.value, hostName.value)))
  }

  /** With no file setting them, the listener, log filter and routes take their defaults. */
  lemma LoadDefaults(management: Management)
    ensures var only := Source(None, None, None, None, Some(management.enabled), Some(management.host_name));
      Load(None, Some(only)) == Ok(Config(80, "0.0.0.0", [], "info", management))
  {
  }

  /**
   * The `management` table merges key by key: a later file that sets only
   * `enabled` keeps the earlier file's `host_name`, and a table that no file
   * completes fails.
   */
  lemma LoadManagementMerge(enabled: bool, overridden: bool, hostName: string)
    ensures var local := Source(None, None, None, None, Some(overridden), Some(hostName));
      var etc := Source(None, None, None, None, Some(enabled), None);
      && Load(Some(local), Some(etc)) == Ok(Config(80, "0.0.0.0", [], "info", Management(enabled, hostName)))
      && Load(None, Some(etc)) == Err(MissingManagement)
  {
  }

  /** A missing file is no error: it loads exactly as a file that sets no key. */
  lemma LoadMissingFile(local: Option<Source>, etc: Option<Source>)
    ensures Load(None, etc) == Load(Some(NoKeys), etc)
    ensures Load(local, None) == Load(local, Some(NoKeys))
  {
  }
}
