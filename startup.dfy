/**
 * The start-up step of `main`: when management is enabled, the management
 * server registers itself as the last route, under the configured management
 * host name, pointing at its own local listener.
 */
module Startup {
  import opened Results
  import opened Text
  import opened Messages
  import opened Config
  import opened Proxy
  import Management

  const LocalUpstreamPrefix := "http://localhost:"

  /** `format!("http://localhost:{}", port)`; the port can be read back from the text. */
  function ManagementUpstream(port: Port): (r: string)
    ensures StartsWith(r, LocalUpstreamPrefix)
    ensures var digits := r[|LocalUpstreamPrefix|..]; AllDigits(digits) && ParseDecimal(digits) == port
    ensures var digits := r[|LocalUpstreamPrefix|..]; |digits| > 0 && (digits[0] == '0' ==> digits == "0")
  {
    DecimalRoundTrip(port);
    LocalUpstreamPrefix + Decimal(port)
  }

  /**
   * The configuration after the registration step: unchanged when management
   * is disabled; otherwise exactly one route appended at the end, and nothing
   * else changed.
   */
  function WithManagementRoute(c: Config, port: Port): (r: Config)
    ensures r.(services := c.services) == c
    ensures !c.management.enabled ==> r.services == c.services
    ensures c.management.enabled ==>
      && |r.services| == |c.services| + 1
      && r.services[..|c.services|] == c.services
      && r.services[|c.services|].host_name == c.management.host_name
      && r.services[|c.services|].upstream_address == ManagementUpstream(port)
  {
    if c.management.enabled then
      c.(services := c.services + [Service(c.management.host_name, ManagementUpstream(port))])
    else c
  }

  /** The registration block of `main`, with `port` the port the OS gave the management listener. */
  method RegisterManagementRoute(shared: SharedConfig, port: Port)
    modifies shared
    ensures shared.config == WithManagementRoute(old(shared.config), port)
  {
    if shared.config.management.enabled {
      var hostName := shared.config.management.host_name;
      var services := shared.config.services + [Service(hostName, LocalUpstreamPrefix + Decimal(port))];
      shared.config := shared.config.(services := services);
    }
  }

  /**
   * Registration does not disturb routing: every host that resolved before
   * resolves to the same upstream after, and the management route serves only
   * the hosts no configured route matches.
   */
  lemma RegistrationRouting(c: Config, port: Port, host: string)
    ensures var after := WithManagementRoute(c, port).services;
      && (Resolve(c.services, host).Some? ==> Resolve(after, host) == Resolve(c.services, host))
      && (!c.management.enabled ==> Resolve(after, host) == Resolve(c.services, host))
      && (c.management.enabled && NoMatch(c.services, host) ==>
            Resolve(after, host) ==
              if StartsWith(host, c.management.host_name) then Some(ManagementUpstream(port)) else None)
  {
    if c.management.enabled {
      ResolveAppend(c.services, Service(c.management.host_name, ManagementUpstream(port)), host);
    }
  }

  /** After registration the management index lists the management host name last. */
  lemma RegistrationShowsInIndex(c: Config, port: Port)
    ensures Management.HostNames(WithManagementRoute(c, port).services) ==
      Management.HostNames(c.services) + if c.management.enabled then [c.management.host_name] else []
  {
  }
}
