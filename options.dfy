/**
 * The instance configuration and the option records handed to the syslog
 * transport library (src/config.ts, lines 6-15; src/main.ts, lines 42-51).
 */
module Options {

  datatype Transport = Udp | Tcp

  /** The facilities offered in the configuration form and the send action. */
  datatype Facility =
    | Kernel | User | Mail | Daemon | Auth | Syslog | Lpr | News | Uucp | Cron
    | Authpriv | Ftp | Audit | Alert
    | Local0 | Local1 | Local2 | Local3 | Local4 | Local5 | Local6 | Local7

  /** The severities offered in the configuration form and the send action. */
  datatype Severity =
    Emergency | Alert | Critical | Error | Warning | Notice | Informational | Debug

  /** The instance configuration, as the host platform delivers it. */
  datatype ModuleConfig = ModuleConfig(
    host: string,
    port: int,
    transport: Transport,
    rfc5424: bool,
    hostname: string,
    facility: Facility,
    severity: Severity,
    appName: string)

  /** The options given to `createClient` together with the host. */
  datatype ClientOptions = ClientOptions(
    port: int,
    syslogHostname: string,
    transport: Transport,
    facility: Facility,
    severity: Severity,
    rfc3164: bool,
    appName: string,
    udpBindAddress: string)

  /** Per-message options given to the transport's `log` call. */
  datatype MessageOptions = MessageOptions(
    facility: Facility,
    severity: Severity,
    appName: string,
    msgid: string)

  /** The local address every UDP client is bound to. */
  const UdpBindAddress: string := "0.0.0.0"

  /**
   * The options literal `setupSyslogClient` builds from a configuration:
   * RFC 3164 framing exactly when RFC 5424 is switched off, a fixed bind
   * address, and every other field copied under its option name.
   */
  function BuildClientOptions(config: ModuleConfig): (o: ClientOptions)
    ensures o.rfc3164 <==> !config.rfc5424
    ensures o.udpBindAddress == UdpBindAddress
  {
    ClientOptions(
      port := config.port,
      syslogHostname := config.hostname,
      transport := config.transport,
      facility := config.facility,
      severity := config.severity,
      rfc3164 := !config.rfc5424,
      appName := config.appName,
      udpBindAddress := UdpBindAddress)
  }

  /** Reads a configuration back from a host and the options built for it. */
  function ConfigOf(host: string, o: ClientOptions): ModuleConfig {
    ModuleConfig(
      host := host,
      port := o.port,
      transport := o.transport,
      rfc5424 := !o.rfc3164,
      hostname := o.syslogHostname,
      facility := o.facility,
      severity := o.severity,
      appName := o.appName)
  }

  /**
   * The options lose nothing but the host: together with the host passed to
   * `createClient` they determine the configuration.
   */
  lemma BuildClientOptionsRoundTrip(config: ModuleConfig)
    ensures ConfigOf(config.host, BuildClientOptions(config)) == config
  {
  }

  /** Options built for two configurations with one host agree only when the configurations do. */
  lemma BuildClientOptionsInjective(c1: ModuleConfig, c2: ModuleConfig)
    requires c1.host == c2.host
    ensures BuildClientOptions(c1) == BuildClientOptions(c2) <==> c1 == c2
  {
    BuildClientOptionsRoundTrip(c1);
    BuildClientOptionsRoundTrip(c2);
  }
}
