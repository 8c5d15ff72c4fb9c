/**
 * The emulator configuration the console reads from the emulator hub:
 * one optional entry per emulator, each with its host, port, the joined
 * `host:port` and whether it is served over TLS.
 */
module EmulatorConfig {
  import opened Js

  datatype EmulatorConfig = EmulatorConfig(host: string, port: int, hostAndPort: string, useHttps: bool)

  /** `Partial<Config>`: every emulator entry (and the project id) may be absent. */
  datatype Config = Config(
    projectId: Option<string>,
    auth: Option<EmulatorConfig>,
    firestore: Option<EmulatorConfig>,
    database: Option<EmulatorConfig>,
    functions: Option<EmulatorConfig>,
    storage: Option<EmulatorConfig>,
    hosting: Option<EmulatorConfig>,
    pubsub: Option<EmulatorConfig>,
    extensions: Option<EmulatorConfig>)

  /** The `{}` the overview falls back to when loading the configuration failed. */
  const EmptyConfig := Config(None, None, None, None, None, None, None, None, None)

  const HTTPS := "https://"
  const HTTP := "http://"

  /** `useHttps ? 'https://' : 'http://'`. */
  function Scheme(useHttps: bool): string
  {
    if useHttps then HTTPS else HTTP
  }

  /** Reads a scheme back off the front of a URL: the inverse of `Scheme(b) + rest`. */
  function SplitScheme(url: string): (r: Option<(bool, string)>)
    ensures r.Some? && r.value.0 ==> url == HTTPS + r.value.1
    ensures r.Some? && !r.value.0 ==> url == HTTP + r.value.1
    ensures r.None? ==> !(HTTPS <= url) && !(HTTP <= url)
  {
    if HTTPS <= url then Some((true, url[|HTTPS|..]))
    else if HTTP <= url then Some((false, url[|HTTP|..]))
    else None
  }

  /** The scheme can always be read back: a URL built from a scheme and a
      rest determines both, so two different configurations never give the
      same URL. */
  lemma {:induction false} SplitSchemeOfScheme(useHttps: bool, rest: string)
    ensures SplitScheme(Scheme(useHttps) + rest) == Some((useHttps, rest))
  {
    var url := Scheme(useHttps) + rest;
    if useHttps {
      assert url[..|HTTPS|] == HTTPS;
    } else {
      assert url[4] == ':' && HTTPS[4] == 's';
      assert !(HTTPS <= url);
      assert url[..|HTTP|] == HTTP;
    }
  }
}
