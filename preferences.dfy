/**
 * The user-preferences slice (src/state/slices/preferencesSlice/preferencesSlice.ts):
 * feature flags plus display preferences. Each case reducer assigns one field
 * of the draft state; `Reduce` is the slice's reducer on values and
 * `PreferencesStore` holds the state and runs the case reducers in place.
 */
module PreferencesSlice {

  datatype Flag =
    | Optimism | BnbSmartChain | Polygon | Gnosis | Arbitrum | ArbitrumNova
    | ThorSwap | ThorSwapStreamingSwaps | Yat | WalletConnectToDapps | WalletConnectToDappsV2
    | Wherever | SaversVaults | SaversVaultsDeposit | SaversVaultsWithdraw | Yearn
    | DefiDashboard | ArkeoAirdrop | TradeRates | Cowswap | CowswapGnosis | ZrxSwap
    | Mixpanel | LifiSwap | FoxBondCTA | DynamicLpAssets | ReadOnlyAssets | Jaypegz
    | OneInch | CovalentJaypegs | Chatwoot | CoinbaseWallet | AdvancedSlippage
    | WalletConnectV2 | CustomSendNonce | Snaps | ThorchainLending | ThorchainLendingBorrow
    | ThorchainLendingRepay | ThorchainLP | ThorchainLpDeposit | ThorchainLpWithdraw
    | LedgerWallet | ThorchainSwapLongtail | ShapeShiftMobileWallet

  /** `FeatureFlags`: a value for every flag. */
  type FeatureFlags = map<Flag, bool>

  predicate HasEveryFlag(flags: FeatureFlags)
  {
    forall f: Flag :: f in flags
  }

  /** `CurrencyFormats` and the locale tag each stands for. */
  datatype CurrencyFormat =
    | DotDecimalCommaThousands
    | DotDecimalCommaThousandsLakhCrore
    | DotDecimalQuoteThousands
    | CommaDecimalSpaceThousands
    | CommaDecimalDotThousands
  {
    function Tag(): string
    {
      match this
      case DotDecimalCommaThousands => "en-US"
      case DotDecimalCommaThousandsLakhCrore => "en-IN"
      case DotDecimalQuoteThousands => "de-CH"
      case CommaDecimalSpaceThousands => "fr-FR"
      case CommaDecimalDotThousands => "de-DE"
    }
  }

  datatype Preferences = Preferences(
    featureFlags: FeatureFlags,
    selectedLocale: string,
    balanceThreshold: string,
    selectedCurrency: string,
    currencyFormat: CurrencyFormat,
    chartTimeframe: string,
    showWelcomeModal: bool,
    showConsentBanner: bool,
    showSnapsModal: bool,
    snapInstalled: bool)

  /**
   * `initialState`. The flag values come from the environment configuration,
   * the locale from the browser and the chart timeframe from
   * `DEFAULT_HISTORY_TIMEFRAME`: all three are parameters. Clearing the
   * feature flags leaves the initial state as it is.
   */
  function InitialPreferences(initialFlags: FeatureFlags, browserLocale: string, defaultTimeframe: string): (p: Preferences)
    ensures Reduce(p, ClearFeatureFlags, initialFlags) == p
  {
    Preferences(
      featureFlags := initialFlags,
      selectedLocale := browserLocale,
      balanceThreshold := "0",
      selectedCurrency := "USD",
      currencyFormat := DotDecimalCommaThousands,
      chartTimeframe := defaultTimeframe,
      showWelcomeModal := false,
      showConsentBanner := true,
      showSnapsModal := true,
      snapInstalled := false)
  }

  /** The initial non-flag preferences: threshold "0", US dollars formatted en-US, the welcome modal off, consent banner and snaps modal on, no snap installed. */
  lemma InitialPreferencesValues(initialFlags: FeatureFlags, browserLocale: string, defaultTimeframe: string)
    ensures var p := InitialPreferences(initialFlags, browserLocale, defaultTimeframe);
      && p.featureFlags == initialFlags && p.selectedLocale == browserLocale && p.chartTimeframe == defaultTimeframe
      && p.balanceThreshold == "0" && p.selectedCurrency == "USD" && p.currencyFormat.Tag() == "en-US"
      && !p.showWelcomeModal && p.showConsentBanner && p.showSnapsModal && !p.snapInstalled
  {
  }

  /** The slice's actions, one per case reducer, with their payloads. */
  datatype Action =
    | ClearFeatureFlags
    | SetFeatureFlag(flag: Flag, value: bool)
    | SetSelectedLocale(locale: string)
    | SetSelectedCurrency(currency: string)
    | SetBalanceThreshold(threshold: string)
    | SetCurrencyFormat(currencyFormat: CurrencyFormat)
    | SetChartTimeframe(timeframe: string)
    | SetWelcomeModal(show: bool)
    | SetShowConsentBanner(show: bool)
    | SetShowSnapsModal(show: bool)
    | SetSnapInstalled(installed: bool)

  /** The part of the state an action may change. */
  datatype Field =
    | AllFeatureFlags
    | OneFeatureFlag(flag: Flag)
    | SelectedLocale | SelectedCurrency | BalanceThreshold | CurrencyFormatField | ChartTimeframe
    | ShowWelcomeModal | ShowConsentBanner | ShowSnapsModal | SnapInstalled

  function Target(a: Action): Field
  {
    match a
    case ClearFeatureFlags => AllFeatureFlags
    case SetFeatureFlag(f, _) => OneFeatureFlag(f)
    case SetSelectedLocale(_) => SelectedLocale
    case SetSelectedCurrency(_) => SelectedCurrency
    case SetBalanceThreshold(_) => BalanceThreshold
    case SetCurrencyFormat(_) => CurrencyFormatField
    case SetChartTimeframe(_) => ChartTimeframe
    case SetWelcomeModal(_) => ShowWelcomeModal
    case SetShowConsentBanner(_) => ShowConsentBanner
    case SetShowSnapsModal(_) => ShowSnapsModal
    case SetSnapInstalled(_) => SnapInstalled
  }

  /** `p` and `q` agree on everything outside `field`; flags count one by one. */
  predicate AgreeOutside(p: Preferences, q: Preferences, field: Field)
  {
    && FlagsAgreeOutside(p.featureFlags, q.featureFlags, field)
    && (field != SelectedLocale ==> p.selectedLocale == q.selectedLocale)
    && (field != SelectedCurrency ==> p.selectedCurrency == q.selectedCurrency)
    && (field != BalanceThreshold ==> p.balanceThreshold == q.balanceThreshold)
    && (field != CurrencyFormatField ==> p.currencyFormat == q.currencyFormat)
    && (field != ChartTimeframe ==> p.chartTimeframe == q.chartTimeframe)
    && (field != ShowWelcomeModal ==> p.showWelcomeModal == q.showWelcomeModal)
    && (field != ShowConsentBanner ==> p.showConsentBanner == q.showConsentBanner)
    && (field != ShowSnapsModal ==> p.showSnapsModal == q.showSnapsModal)
    && (field != SnapInstalled ==> p.snapInstalled == q.snapInstalled)
  }

  /** Two flag tables agree on every flag outside `field`. */
  predicate FlagsAgreeOutside(before: FeatureFlags, after: FeatureFlags, field: Field)
  {
    field != AllFeatureFlags ==>
      forall f: Flag :: field != OneFeatureFlag(f) ==>
        (f in before <==> f in after) && (f in before ==> before[f] == after[f])
  }

  /** Full flag tables that agree outside one flag differ at most in that flag. */
  lemma FlagsDeterminedOutside(before: FeatureFlags, after: FeatureFlags, field: Field)
    requires HasEveryFlag(before) && HasEveryFlag(after)
    requires FlagsAgreeOutside(before, after, field) && field != AllFeatureFlags
    ensures field.OneFeatureFlag? ==> after == before[field.flag := after[field.flag]]
    ensures !field.OneFeatureFlag? ==> after == before
  {
    if field.OneFeatureFlag? {
      forall f: Flag ensures after[f] == before[field.flag := after[field.flag]][f] {
        if f != field.flag {
          assert field != OneFeatureFlag(f);
        }
      }
    } else {
      forall f: Flag ensures after[f] == before[f] {
        assert field != OneFeatureFlag(f);
      }
    }
  }

  /** What an action's own field holds afterwards. */
  predicate Applied(q: Preferences, a: Action, initialFlags: FeatureFlags)
  {
    match a
    case ClearFeatureFlags => q.featureFlags == initialFlags
    case SetFeatureFlag(f, v) => f in q.featureFlags && q.featureFlags[f] == v
    case SetSelectedLocale(l) => q.selectedLocale == l
    case SetSelectedCurrency(c) => q.selectedCurrency == c
    case SetBalanceThreshold(t) => q.balanceThreshold == t
    case SetCurrencyFormat(c) => q.currencyFormat == c
    case SetChartTimeframe(t) => q.chartTimeframe == t
    case SetWelcomeModal(s) => q.showWelcomeModal == s
    case SetShowConsentBanner(s) => q.showConsentBanner == s
    case SetShowSnapsModal(s) => q.showSnapsModal == s
    case SetSnapInstalled(s) => q.snapInstalled == s
  }

  /**
   * The slice reducer: an action sets its own field (`clearFeatureFlags`
   * restores the initial flags) and leaves every other field and flag alone.
   */
  function Reduce(p: Preferences, a: Action, initialFlags: FeatureFlags): (q: Preferences)
    ensures Applied(q, a, initialFlags)
    ensures AgreeOutside(p, q, Target(a))
    ensures HasEveryFlag(p.featureFlags) && HasEveryFlag(initialFlags) ==> HasEveryFlag(q.featureFlags)
  {
    match a
    case ClearFeatureFlags => p.(featureFlags := initialFlags)
    case SetFeatureFlag(f, v) => p.(featureFlags := p.featureFlags[f := v])
    case SetSelectedLocale(l) => p.(selectedLocale := l)
    case SetSelectedCurrency(c) => p.(selectedCurrency := c)
    case SetBalanceThreshold(t) => p.(balanceThreshold := t)
    case SetCurrencyFormat(c) => p.(currencyFormat := c)
    case SetChartTimeframe(t) => p.(chartTimeframe := t)
    case SetWelcomeModal(s) => p.(showWelcomeModal := s)
    case SetShowConsentBanner(s) => p.(showConsentBanner := s)
    case SetShowSnapsModal(s) => p.(showSnapsModal := s)
    case SetSnapInstalled(s) => p.(snapInstalled := s)
  }

  /** Applying an action twice gives the same state as applying it once. */
  lemma ReduceIdempotent(p: Preferences, a: Action, initialFlags: FeatureFlags)
    ensures Reduce(Reduce(p, a, initialFlags), a, initialFlags) == Reduce(p, a, initialFlags)
  {
  }

  /** An action's effect is fixed by the action and the old state outside its field: the state is the old one with that field set. */
  lemma ReduceDeterminedByEffect(p: Preferences, a: Action, initialFlags: FeatureFlags, q: Preferences)
    requires Applied(q, a, initialFlags) && AgreeOutside(p, q, Target(a))
    requires HasEveryFlag(p.featureFlags) && HasEveryFlag(q.featureFlags)
    ensures q == Reduce(p, a, initialFlags)
  {
    if !a.ClearFeatureFlags? {
      FlagsDeterminedOutside(p.featureFlags, q.featureFlags, Target(a));
    }
  }

  /** The state of the slice, updated in place by its case reducers. */
  class PreferencesStore {
    const initialFlags: FeatureFlags
    var featureFlags: FeatureFlags
    var selectedLocale: string
    var balanceThreshold: string
    var selectedCurrency: string
    var currencyFormat: CurrencyFormat
    var chartTimeframe: string
    var showWelcomeModal: bool
    var showConsentBanner: bool
    var showSnapsModal: bool
    var snapInstalled: bool

    ghost predicate Valid()
      reads this
    {
      HasEveryFlag(initialFlags) && HasEveryFlag(featureFlags)
    }

    function Snapshot(): Preferences
      reads this
    {
      Preferences(featureFlags, selectedLocale, balanceThreshold, selectedCurrency, currencyFormat,
                  chartTimeframe, showWelcomeModal, showConsentBanner, showSnapsModal, snapInstalled)
    }

    constructor (initialFlags: FeatureFlags, browserLocale: string, defaultTimeframe: string)
      requires HasEveryFlag(initialFlags)
      ensures Valid() && this.initialFlags == initialFlags
      ensures Snapshot() == InitialPreferences(initialFlags, browserLocale, defaultTimeframe)
    {
      this.initialFlags := initialFlags;
      featureFlags := initialFlags;
      selectedLocale := browserLocale;
      balanceThreshold := "0";
      selectedCurrency := "USD";
      currencyFormat := DotDecimalCommaThousands;
      chartTimeframe := defaultTimeframe;
      showWelcomeModal := false;
      showConsentBanner := true;
      showSnapsModal := true;
      snapInstalled := false;
    }

    method ClearFeatureFlags()
      requires Valid()
      modifies this
      ensures Valid() && Snapshot() == Reduce(old(Snapshot()), Action.ClearFeatureFlags, initialFlags)
    {
      featureFlags := initialFlags;
    }

    method SetFeatureFlag(flag: Flag, value: bool)
      requires Valid()
      modifies this
      ensures Valid() && Snapshot() == Reduce(old(Snapshot()), Action.SetFeatureFlag(flag, value), initialFlags)
    {
      featureFlags := featureFlags[flag := value];
    }

    method SetSelectedLocale(locale: string)
      requires Valid()
      modifies this
      ensures Valid() && Snapshot() == Reduce(old(Snapshot()), Action.SetSelectedLocale(locale), initialFlags)
    {
      selectedLocale := locale;
    }

    method SetSelectedCurrency(currency: string)
      requires Valid()
      modifies this
      ensures Valid() && Snapshot() == Reduce(old(Snapshot()), Action.SetSelectedCurrency(currency), initialFlags)
    {
      selectedCurrency := currency;
    }

    method SetBalanceThreshold(threshold: string)
      requires Valid()
      modifies this
      ensures Valid() && Snapshot() == Reduce(old(Snapshot()), Action.SetBalanceThreshold(threshold), initialFlags)
    {
      balanceThreshold := threshold;
    }

    method SetCurrencyFormat(format: CurrencyFormat)
      requires Valid()
      modifies this
      ensures Valid() && Snapshot() == Reduce(old(Snapshot()), Action.SetCurrencyFormat(format), initialFlags)
    {
      currencyFormat := format;
    }

    method SetChartTimeframe(timeframe: string)
      requires Valid()
      modifies this
      ensures Valid() && Snapshot() == Reduce(old(Snapshot()), Action.SetChartTimeframe(timeframe), initialFlags)
    {
      chartTimeframe := timeframe;
    }

    method SetWelcomeModal(show: bool)
      requires Valid()
      modifies this
      ensures Valid() && Snapshot() == Reduce(old(Snapshot()), Action.SetWelcomeModal(show), initialFlags)
    {
      showWelcomeModal := show;
    }

    method SetShowConsentBanner(show: bool)
      requires Valid()
      modifies this
      ensures Valid() && Snapshot() == Reduce(old(Snapshot()), Action.SetShowConsentBanner(show), initialFlags)
    {
      showConsentBanner := show;
    }

    method SetShowSnapsModal(show: bool)
      requires Valid()
      modifies this
      ensures Valid() && Snapshot() == Reduce(old(Snapshot()), Action.SetShowSnapsModal(show), initialFlags)
    {
      showSnapsModal := show;
    }

    method SetSnapInstalled(installed: bool)
      requires Valid()
      modifies this
      ensures Valid() && Snapshot() == Reduce(old(Snapshot()), Action.SetSnapInstalled(installed), initialFlags)
    {
      snapInstalled := installed;
    }
  }
}
