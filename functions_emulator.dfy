/**
 * `useFunctionsEmulator`: the base URL the extensions pages use to reach
 * the emulator that serves extension functions.
 */
module FunctionsEmulator {
  import opened Js
  import opened EmulatorConfig

  /** The scheme followed by `host:port`, without a trailing slash. The
      URL is built from the `extensions` entry of the configuration, which
      the hook requires to be present. */
  function FunctionsEmulatorUrl(config: Config): (url: string)
    requires config.extensions.Some?
    ensures SplitScheme(url) == Some((config.extensions.value.useHttps, config.extensions.value.hostAndPort))
  {
    var e := config.extensions.value;
    SplitSchemeOfScheme(e.useHttps, e.hostAndPort);
    Scheme(e.useHttps) + e.hostAndPort
  }

  /** Only the `extensions` entry matters: the other emulators' entries do not
      change the URL. */
  lemma UrlIgnoresOtherEmulators(config: Config, other: Config)
    requires config.extensions.Some? && other.extensions == config.extensions
    ensures FunctionsEmulatorUrl(other) == FunctionsEmulatorUrl(config)
  {
  }

  /** The URL starts with `https://` exactly when the emulator uses TLS. */
  lemma {:induction false} HttpsExactlyWithTls(config: Config)
    requires config.extensions.Some?
    ensures HTTPS <= FunctionsEmulatorUrl(config) <==> config.extensions.value.useHttps
  {
    var url := FunctionsEmulatorUrl(config);
    if !config.extensions.value.useHttps {
      assert url[4] == ':' && HTTPS[4] == 's';
    }
  }

  /** The hook's test case. */
  lemma FunctionsEmulatorScenario()
    ensures FunctionsEmulatorUrl(Config(Some(""), None, None, None, None, None, None, None,
                                        Some(EmulatorConfig("pirojok", 689, "pirojok:689", false))))
         == "http://pirojok:689"
  {
  }
}
