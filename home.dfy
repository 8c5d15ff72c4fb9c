/**
 * The console's home page: a spinner while the emulator configuration
 * loads, then one status card per emulator in a fixed order.
 */
module Home {
  import opened Js
  import opened EmulatorConfig

  /** What the configuration provider holds: `undefined` while loading,
      `null` when loading failed, or the configuration. */
  datatype ConfigState = Loading | LoadFailed | Loaded(config: Config)

  /** The storage page's route. Its definition is not part of this model;
      any non-empty path behaves the same here. */
  const STORAGE_PATH := "/storage"

  const LOADING_MESSAGE := "Overview Page Loading..."
  const DEFAULT_LINK_LABEL := "Go to emulator"
  const TEST_ID_PREFIX := "emulator-info-"

  /** The port number, or the text `N/A`. */
  datatype PortText = PortNumber(port: int) | NotAvailable

  /** A link that opens in a new tab (`target="_blank"`). Its label may be absent. */
  datatype ExternalLink = ExternalLink(href: string, text: Option<string>, target: string)

  /** A link to a route of the console. */
  datatype InternalLink = InternalLink(to: string, text: string)

  datatype CardView = CardView(
    testId: string,
    name: string,
    active: bool,
    port: PortText,
    divider: bool,
    external: Option<ExternalLink>,
    internal: Option<InternalLink>)

  /** `EmulatorCard`. */
  function EmulatorCard(
    name: string, config: Option<EmulatorConfig>, linkTo: Option<string>,
    linkToExternal: Option<string>, linkLabel: Option<string>, testId: string): CardView
  {
    CardView(
      testId,
      name,
      config.Some?,
      if config.Some? then PortNumber(config.value.port) else NotAvailable,
      Truthy(linkToExternal) || Truthy(linkTo),
      if Truthy(linkToExternal) then Some(ExternalLink(linkToExternal.value, linkLabel, "_blank")) else None,
      if Truthy(linkTo) then Some(InternalLink(linkTo.value, OrElse(linkLabel, DEFAULT_LINK_LABEL))) else None)
  }

  /** The hosting card's link: the site's root on the hosting emulator, in
      the scheme the emulator serves. */
  function HostingLink(hosting: Option<EmulatorConfig>): (r: Option<string>)
    ensures r.Some? <==> hosting.Some?
    ensures r.Some? ==>
      && |r.value| > 0 && r.value[|r.value| - 1] == '/'
      && SplitScheme(r.value[..|r.value| - 1]) == Some((hosting.value.useHttps, hosting.value.hostAndPort))
  {
    if hosting.Some? then
      var url := Scheme(hosting.value.useHttps) + hosting.value.hostAndPort + "/";
      assert url[..|url| - 1] == Scheme(hosting.value.useHttps) + hosting.value.hostAndPort;
      SplitSchemeOfScheme(hosting.value.useHttps, hosting.value.hostAndPort);
      Some(url)
    else
      None
  }

  datatype OverviewView = OverviewView(localWarning: Option<string>, cards: seq<CardView>)

  /** `Overview`: the local-warning callout when there is a project id, and the cards. */
  function Overview(config: Config): OverviewView {
    OverviewView(
      if Truthy(config.projectId) then config.projectId else None,
      [ EmulatorCard("Authentication emulator", config.auth, Some("/auth"), None, None, TEST_ID_PREFIX + "auth"),
        EmulatorCard("Firestore emulator", config.firestore, Some("/firestore"), None, None, TEST_ID_PREFIX + "firestore"),
        EmulatorCard("Realtime Database emulator", config.database, Some("/database"), None, None, TEST_ID_PREFIX + "database"),
        EmulatorCard("Functions emulator", config.functions, Some("/functions"), None, Some("View logs"), TEST_ID_PREFIX + "functions"),
        EmulatorCard("Storage emulator", config.storage, Some(STORAGE_PATH), None, Some("Storage"), TEST_ID_PREFIX + "storage"),
        EmulatorCard("Hosting emulator", config.hosting, None, HostingLink(config.hosting), Some("View website"), TEST_ID_PREFIX + "hosting"),
        EmulatorCard("PubSub emulator", config.pubsub, None, None, None, TEST_ID_PREFIX + "pubsub"),
        EmulatorCard("Extensions emulator", config.extensions, Some("/extensions"), None, None, TEST_ID_PREFIX + "extensions") ])
  }

  datatype HomeView = Spinner(message: string) | OverviewPage(overview: OverviewView)

  /** `Home`: a failed load shows the overview of an empty configuration. */
  function Home(state: ConfigState): HomeView {
    match state
    case Loading => Spinner(LOADING_MESSAGE)
    case LoadFailed => OverviewPage(Overview(EmptyConfig))
    case Loaded(config) => OverviewPage(Overview(config))
  }

  /** The emulators in card order, as named in the cards' test ids. */
  const CARD_ORDER := ["auth", "firestore", "database", "functions", "storage", "hosting", "pubsub", "extensions"]

  /** The emulator entry each card shows, in card order. */
  function Entries(config: Config): seq<Option<EmulatorConfig>> {
    [config.auth, config.firestore, config.database, config.functions,
     config.storage, config.hosting, config.pubsub, config.extensions]
  }

  /** The spinner shows exactly while the configuration is loading. */
  lemma SpinnerExactlyWhileLoading(state: ConfigState)
    ensures Home(state).Spinner? <==> state.Loading?
    ensures Home(state).Spinner? ==> Home(state).message == LOADING_MESSAGE
  {
  }

  /** A card is on exactly when its emulator has a configuration, and shows
      that configuration's port, or `N/A`. */
  lemma CardStatusAndPort(
    name: string, config: Option<EmulatorConfig>, linkTo: Option<string>,
    linkToExternal: Option<string>, linkLabel: Option<string>, testId: string)
    ensures var card := EmulatorCard(name, config, linkTo, linkToExternal, linkLabel, testId);
      && (card.active <==> config.Some?)
      && (config.Some? ==> card.port == PortNumber(config.value.port))
      && (config.None? ==> card.port == NotAvailable)
  {
  }

  /** The divider shows exactly when the card has a link; the internal link
      falls back to a default label; the external link opens a new tab
      under the card's label. */
  lemma CardLinks(
    name: string, config: Option<EmulatorConfig>, linkTo: Option<string>,
    linkToExternal: Option<string>, linkLabel: Option<string>, testId: string)
    ensures var card := EmulatorCard(name, config, linkTo, linkToExternal, linkLabel, testId);
      && (card.divider <==> card.external.Some? || card.internal.Some?)
      && (card.internal.Some? <==> Truthy(linkTo))
      && (card.internal.Some? && Truthy(linkLabel) ==> card.internal.value.text == linkLabel.value)
      && (card.internal.Some? && !Truthy(linkLabel) ==> card.internal.value.text == DEFAULT_LINK_LABEL)
      && (card.external.Some? <==> Truthy(linkToExternal))
      && (card.external.Some? ==> card.external.value.target == "_blank" && card.external.value.text == linkLabel)
  {
  }

  /** Eight cards, in a fixed order, each showing its own emulator's entry. */
  lemma {:induction false} OverviewCardsInOrder(config: Config)
    ensures var cards := Overview(config).cards;
      && |cards| == |CARD_ORDER| == 8
      && forall i :: 0 <= i < 8 ==>
           && cards[i].testId == TEST_ID_PREFIX + CARD_ORDER[i]
           && (cards[i].active <==> Entries(config)[i].Some?)
           && (Entries(config)[i].Some? ==> cards[i].port == PortNumber(Entries(config)[i].value.port))
           && (Entries(config)[i].None? ==> cards[i].port == NotAvailable)
  {
    var cards := Overview(config).cards;
    forall i | 0 <= i < 8
      ensures && cards[i].testId == TEST_ID_PREFIX + CARD_ORDER[i]
              && (cards[i].active <==> Entries(config)[i].Some?)
              && (Entries(config)[i].Some? ==> cards[i].port == PortNumber(Entries(config)[i].value.port))
              && (Entries(config)[i].None? ==> cards[i].port == NotAvailable)
    {
    }
  }

  /** When loading the configuration failed, every card is off and shows `N/A`. */
  lemma {:induction false} FailedLoadShowsAllOff()
    ensures Home(LoadFailed).OverviewPage?
    ensures var cards := Home(LoadFailed).overview.cards;
      |cards| == 8 && forall i :: 0 <= i < |cards| ==> !cards[i].active && cards[i].port == NotAvailable
  {
    OverviewCardsInOrder(EmptyConfig);
  }

  /** The local-warning callout shows exactly when there is a (non-empty) project id. */
  lemma LocalWarningExactlyWithProjectId(config: Config)
    ensures Overview(config).localWarning.Some? <==> Truthy(config.projectId)
    ensures Overview(config).localWarning.Some? ==> Overview(config).localWarning == config.projectId
  {
  }

  /** The hosting card links externally, in a new tab, to the hosting
      emulator's root exactly when the hosting emulator runs; it has no
      internal link. */
  lemma HostingCardLink(config: Config)
    ensures var card := Overview(config).cards[5];
      && card.internal.None?
      && (card.external.Some? <==> config.hosting.Some?)
      && (card.external.Some? ==>
            card.external.value == ExternalLink(Scheme(config.hosting.value.useHttps) + config.hosting.value.hostAndPort + "/", Some("View website"), "_blank"))
  {
  }

  /** The page's test cases: a running database emulator shows its port and
      the default link label; a stopped Firestore emulator shows `N/A`; the
      functions card links to its logs; the storage card's link is labelled
      `Storage`; a hosting emulator on TLS links to its `https://` root. */
  lemma HomeScenarios(db: EmulatorConfig, hosting: EmulatorConfig)
    requires db.port == 9000
    requires hosting == EmulatorConfig("localhost", 5000, "localhost:5000", true)
    ensures var cards := Overview(Config(Some("example"), None, None, Some(db), None, None, None, None, None)).cards;
      && cards[2].port == PortNumber(9000) && cards[2].internal == Some(InternalLink("/database", DEFAULT_LINK_LABEL))
      && !cards[1].active && cards[1].port == NotAvailable
      && cards[3].internal == Some(InternalLink("/functions", "View logs"))
      && cards[4].internal == Some(InternalLink(STORAGE_PATH, "Storage"))
    ensures var cards := Overview(Config(Some("example"), None, None, None, None, None, Some(hosting), None, None)).cards;
      && cards[5].port == PortNumber(5000)
      && cards[5].external == Some(ExternalLink("https://localhost:5000/", Some("View website"), "_blank"))
  {
    assert Scheme(true) + "localhost:5000" + "/" == "https://localhost:5000/";
  }
}
