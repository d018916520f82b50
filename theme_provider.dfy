/**
 * The theme provider and `useTheme` (theme/index.tsx).
 *
 * The provider holds one piece of state, `isDark`. It is seeded from the
 * `defaultTheme` mode, flipped by `toggleTheme`, and overwritten with the
 * host's dark flag by an effect that runs only in system mode and only when
 * the host flag or the mode has changed since it last ran.
 *
 * `ProviderState` and `Step` give the behaviour as values; the class
 * `ThemeProvider` holds the same state in fields and its methods are proved
 * to follow `Step`.
 */
module ThemeContext {
  import opened Wrappers
  import opened Tokens

  /** The `defaultTheme` prop. */
  datatype ThemeMode = LightMode | DarkMode | SystemMode

  /** What the host's `useColorScheme` reports; `NoScheme` is null. */
  datatype ColorScheme = LightScheme | DarkScheme | NoScheme

  /** `defaultTheme` is `system` unless given. */
  function EffectiveMode(defaultTheme: Option<ThemeMode>): (m: ThemeMode)
    ensures defaultTheme.None? ==> m == SystemMode
    ensures defaultTheme.Some? ==> m == defaultTheme.value
  {
    defaultTheme.GetOr(SystemMode)
  }

  /** Only the scheme `dark` counts as dark; `light` and null do not. */
  function IsSystemDark(scheme: ColorScheme): (dark: bool)
    ensures dark <==> scheme == DarkScheme
  {
    scheme.DarkScheme?
  }

  /** The `useState` initialiser: the host's flag in system mode, else whether the mode is dark. */
  function InitialIsDark(mode: ThemeMode, systemDark: bool): (dark: bool)
    ensures mode == SystemMode ==> dark == systemDark
    ensures mode == LightMode ==> !dark
    ensures mode == DarkMode ==> dark
  {
    if mode == SystemMode then systemDark else mode == DarkMode
  }

  /**
   * The provider's state: the current mode, `isDark`, and the host's dark
   * flag as the effect last saw it (the effect's other dependency is the mode).
   */
  datatype ProviderState = ProviderState(mode: ThemeMode, isDark: bool, systemDark: bool)

  /** What can happen to a mounted provider. */
  datatype Event =
    | Toggle                      // `toggleTheme()`
    | HostScheme(scheme: ColorScheme) // a re-render with this host scheme
    | ModeProp(mode: ThemeMode)   // a re-render with this `defaultTheme`

  /** The state after mounting; the first run of the effect agrees with the initialiser. */
  function Initial(defaultTheme: Option<ThemeMode>, scheme: ColorScheme): ProviderState {
    var mode := EffectiveMode(defaultTheme);
    ProviderState(mode, InitialIsDark(mode, IsSystemDark(scheme)), IsSystemDark(scheme))
  }

  /** The effect, run after its dependencies changed: in system mode it copies the host flag. */
  function Effect(s: ProviderState): ProviderState {
    if s.mode == SystemMode then s.(isDark := s.systemDark) else s
  }

  function Step(s: ProviderState, e: Event): ProviderState {
    match e
    case Toggle => s.(isDark := !s.isDark)
    case HostScheme(scheme) =>
      if IsSystemDark(scheme) == s.systemDark then s
      else Effect(s.(systemDark := IsSystemDark(scheme)))
    case ModeProp(mode) =>
      if mode == s.mode then s else Effect(s.(mode := mode))
  }

  function Run(s: ProviderState, events: seq<Event>): ProviderState
    decreases |events|
  {
    if events == [] then s else Step(Run(s, events[..|events| - 1]), events[|events| - 1])
  }

  // Properties of one step

  /** The initial flag: the host's in system mode, false in light mode, true in dark mode. */
  lemma InitialFlag(defaultTheme: Option<ThemeMode>, scheme: ColorScheme)
    ensures Initial(defaultTheme, scheme).isDark ==
      match EffectiveMode(defaultTheme)
      case SystemMode => scheme == DarkScheme
      case LightMode => false
      case DarkMode => true
  {
  }

  /** `toggleTheme` flips the flag in every mode and changes nothing else; twice is no change. */
  lemma ToggleFlips(s: ProviderState)
    ensures Step(s, Toggle).isDark == !s.isDark
    ensures Step(s, Toggle).mode == s.mode && Step(s, Toggle).systemDark == s.systemDark
    ensures Step(Step(s, Toggle), Toggle) == s
  {
  }

  /** A host change of the dark flag is copied into `isDark` in system mode. */
  lemma HostChangeFollowedInSystemMode(s: ProviderState, scheme: ColorScheme)
    requires s.mode == SystemMode && IsSystemDark(scheme) != s.systemDark
    ensures Step(s, HostScheme(scheme)).isDark == (scheme == DarkScheme)
  {
  }

  /** In light or dark mode a host change leaves `isDark` alone. */
  lemma HostIgnoredInFixedMode(s: ProviderState, scheme: ColorScheme)
    requires s.mode != SystemMode
    ensures Step(s, HostScheme(scheme)).isDark == s.isDark
  {
  }

  /** A re-render whose host flag has not changed does not re-run the effect: a manual toggle persists. */
  lemma ToggleSurvivesUnchangedHost(s: ProviderState, scheme: ColorScheme)
    requires IsSystemDark(scheme) == s.systemDark
    ensures Step(Step(s, Toggle), HostScheme(scheme)).isDark == !s.isDark
  {
  }

  /** Switching to system mode adopts the host flag; switching to light or dark keeps `isDark`. */
  lemma ModeChange(s: ProviderState, mode: ThemeMode)
    requires mode != s.mode
    ensures mode == SystemMode ==> Step(s, ModeProp(mode)).isDark == s.systemDark
    ensures mode != SystemMode ==> Step(s, ModeProp(mode)).isDark == s.isDark
  {
  }

  // Properties of event sequences

  predicate HostEventsOnly(events: seq<Event>) {
    forall i :: 0 <= i < |events| ==> events[i].HostScheme?
  }

  /** Without mode changes the mode never changes. */
  lemma {:induction false} ModeKept(s: ProviderState, events: seq<Event>)
    requires forall i :: 0 <= i < |events| ==> !events[i].ModeProp?
    ensures Run(s, events).mode == s.mode
    decreases |events|
  {
    if events != [] {
      ModeKept(s, events[..|events| - 1]);
    }
  }

  /** In light or dark mode, host events never move `isDark`. */
  lemma {:induction false} FixedModeIgnoresHost(s: ProviderState, events: seq<Event>)
    requires s.mode != SystemMode && HostEventsOnly(events)
    ensures Run(s, events).isDark == s.isDark && Run(s, events).mode == s.mode
    decreases |events|
  {
    if events != [] {
      FixedModeIgnoresHost(s, events[..|events| - 1]);
    }
  }

  /** In system mode, once in step with the host, host events keep `isDark` equal to the host's flag. */
  lemma {:induction false} SystemModeFollowsHost(s: ProviderState, events: seq<Event>)
    requires s.mode == SystemMode && s.isDark == s.systemDark && HostEventsOnly(events)
    ensures Run(s, events).isDark == Run(s, events).systemDark
    ensures Run(s, events).mode == SystemMode
    ensures events != [] ==> Run(s, events).isDark == IsSystemDark(events[|events| - 1].scheme)
    decreases |events|
  {
    if events != [] {
      SystemModeFollowsHost(s, events[..|events| - 1]);
    }
  }

  /** Toggles only: `isDark` ends flipped exactly when there was an odd number of them. */
  lemma {:induction false} TogglesOnly(s: ProviderState, n: nat)
    ensures Run(s, seq(n, _ => Toggle)).isDark == (if n % 2 == 0 then s.isDark else !s.isDark)
    ensures Run(s, seq(n, _ => Toggle)).mode == s.mode
    decreases n
  {
    if n > 0 {
      assert seq(n, _ => Toggle)[..n - 1] == seq(n - 1, _ => Toggle);
      TogglesOnly(s, n - 1);
    }
  }

  // The published context value and `useTheme`

  /** What the provider publishes: `isDark` and the theme it selects. */
  datatype ContextValue = ContextValue(isDark: bool, theme: Theme)

  /** `isDark ? darkTheme : lightTheme`. */
  function Publish(s: ProviderState, lightTheme: Theme, darkTheme: Theme): ContextValue {
    ContextValue(s.isDark, if s.isDark then darkTheme else lightTheme)
  }

  /** The dark theme is published exactly when `isDark` holds (for two distinct themes). */
  lemma PublishedTheme(s: ProviderState, lightTheme: Theme, darkTheme: Theme)
    requires lightTheme != darkTheme
    ensures Publish(s, lightTheme, darkTheme).theme == darkTheme <==> s.isDark
    ensures Publish(s, lightTheme, darkTheme).theme == lightTheme <==> !s.isDark
  {
  }

  const MissingProvider: string := "useTheme must be used within a ThemeProvider"

  /** `useTheme`: the nearest provider's value, or an error when there is none. */
  function UseTheme(context: Option<ContextValue>): (r: Result<ContextValue, string>)
    ensures r.Failure? <==> context.None?
    ensures r.Failure? ==> r.error == MissingProvider
    ensures r.Success? ==> r.value == context.value
  {
    match context
    case None => Failure(MissingProvider)
    case Some(v) => Result.Success(v)
  }

  /** The provider's state held in place, as React holds it between renders. */
  class ThemeProvider {
    var mode: ThemeMode
    var isDark: bool
    var systemDark: bool

    function State(): ProviderState
      reads this
    {
      ProviderState(mode, isDark, systemDark)
    }

    /** Mounting with a `defaultTheme` (or none) under a host scheme. */
    constructor(defaultTheme: Option<ThemeMode>, scheme: ColorScheme)
      ensures State() == Initial(defaultTheme, scheme)
    {
      var m := EffectiveMode(defaultTheme);
      mode := m;
      systemDark := IsSystemDark(scheme);
      isDark := InitialIsDark(m, IsSystemDark(scheme));
    }

    /** `toggleTheme`. */
    method ToggleTheme()
      modifies this
      ensures State() == Step(old(State()), Toggle)
      ensures isDark == !old(isDark)
    {
      isDark := !isDark;
    }

    /** A re-render with a new host scheme; the effect runs when the dark flag changed. */
    method SystemChanged(scheme: ColorScheme)
      modifies this
      ensures State() == Step(old(State()), HostScheme(scheme))
    {
      var dark := IsSystemDark(scheme);
      if dark != systemDark {
        systemDark := dark;
        if mode == SystemMode {
          isDark := dark;
        }
      }
    }

    /** A re-render with a new `defaultTheme`; the effect runs when the mode changed. */
    method ModeChanged(newMode: ThemeMode)
      modifies this
      ensures State() == Step(old(State()), ModeProp(newMode))
    {
      if newMode != mode {
        mode := newMode;
        if newMode == SystemMode {
          isDark := systemDark;
        }
      }
    }

    /** The value handed to `ThemeContext.Provider`. */
    function Value(lightTheme: Theme, darkTheme: Theme): ContextValue
      reads this
    {
      Publish(State(), lightTheme, darkTheme)
    }
  }
}
