/** The dependency providers `get_api_settings` and `get_greeting_service`,
    each memoised by a zero-argument `lru_cache` that tests empty with
    `cache_clear()`. The memo state is the pair of `Option` fields of
    `DependencyCache`; the environment the settings are read from and whether
    the development mock module can be imported are fields beside them. */
module Dependencies {
  import opened Wrappers
  import opened Greeting

  /** `ApiSettings` after the settings library has read the environment. */
  datatype ApiSettings = ApiSettings(apiName: string, apiVersion: string, useMockGreeting: bool)

  /** The settings when no environment variable overrides a field. */
  const DefaultApiSettings: ApiSettings := ApiSettings("fapi-db-tmpl", "0.1.0", false)

  /** The `RuntimeError` raised when the mock is requested but absent. */
  datatype DependencyError = MockServiceNotFound(message: string)

  const MockNotFoundMessage: string :=
    "Mock greeting service is enabled but not found. Ensure 'dev' package is in PYTHONPATH for development."

  /** The body of `get_greeting_service` once it holds its settings: the mock
      when the toggle is on and its module imports, an error when the toggle
      is on and it does not, and the production service otherwise. */
  function SelectService(settings: ApiSettings, mockModuleAvailable: bool): (r: Result<GreetingProvider, DependencyError>)
    ensures r.Failure? <==> settings.useMockGreeting && !mockModuleAvailable
    ensures r.Failure? ==> r.error.message == MockNotFoundMessage
    ensures r.Success? ==> (r.value == MockGreetingService <==> settings.useMockGreeting)
    ensures r.Success? ==> (r.value == GreetingService <==> !settings.useMockGreeting)
  {
    if settings.useMockGreeting then
      if mockModuleAvailable then Success(MockGreetingService)
      else Failure(MockServiceNotFound(MockNotFoundMessage))
    else Success(GreetingService)
  }

  /** A production resolution is never the result of a requested mock: the
      missing module is reported, not downgraded. */
  lemma NoSilentDowngrade(settings: ApiSettings, mockModuleAvailable: bool)
    requires settings.useMockGreeting
    ensures SelectService(settings, mockModuleAvailable) != Success(GreetingService)
  {
  }

  class DependencyCache {
    /** The settings a fresh `ApiSettings()` would read right now. */
    var environment: ApiSettings
    /** Whether `dev.mocks.services.mock_greeting_service` can be imported. */
    const mockModuleAvailable: bool
    /** The memo of `get_api_settings`. */
    var settingsCache: Option<ApiSettings>
    /** The memo of `get_greeting_service`. */
    var serviceCache: Option<GreetingProvider>

    constructor (environment: ApiSettings, mockModuleAvailable: bool)
      ensures this.environment == environment && this.mockModuleAvailable == mockModuleAvailable
      ensures settingsCache == None && serviceCache == None
    {
      this.environment := environment;
      this.mockModuleAvailable := mockModuleAvailable;
      settingsCache := None;
      serviceCache := None;
    }

    /** A change to the process environment (`monkeypatch.setenv` in the tests). */
    method SetEnvironment(e: ApiSettings)
      modifies this`environment
      ensures environment == e
    {
      environment := e;
    }

    /** `get_api_settings`: the memoised settings, loaded from the environment
        on the first call after a clear and returned unchanged afterwards. */
    method GetApiSettings() returns (s: ApiSettings)
      modifies this`settingsCache
      ensures old(settingsCache).Some? ==> s == old(settingsCache).value
      ensures old(settingsCache).None? ==> s == environment
      ensures settingsCache == Some(s)
    {
      if settingsCache.Some? {
        return settingsCache.value;
      }
      s := environment;
      settingsCache := Some(s);
    }

    /** `get_greeting_service`. A memo hit returns the memoised service and runs
        nothing else. A miss reads the settings through `get_api_settings`
        (possibly stale), selects a service from them and memoises it; an error
        is raised and not memoised. */
    method GetGreetingService() returns (r: Result<GreetingProvider, DependencyError>)
      modifies this`settingsCache, this`serviceCache
      ensures old(serviceCache).Some? ==>
        r == Success(old(serviceCache).value) && settingsCache == old(settingsCache) && serviceCache == old(serviceCache)
      ensures old(serviceCache).None? ==>
        var settings := if old(settingsCache).Some? then old(settingsCache).value else environment;
        settingsCache == Some(settings)
        && r == SelectService(settings, mockModuleAvailable)
        && serviceCache == (if r.Success? then Some(r.value) else None)
    {
      if serviceCache.Some? {
        return Success(serviceCache.value);
      }
      var settings := GetApiSettings();
      r := SelectService(settings, mockModuleAvailable);
      if r.Success? {
        serviceCache := Some(r.value);
      }
    }

    /** `get_api_settings.cache_clear()`. */
    method ClearSettingsCache()
      modifies this`settingsCache
      ensures settingsCache == None
    {
      settingsCache := None;
    }

    /** `get_greeting_service.cache_clear()`. */
    method ClearServiceCache()
      modifies this`serviceCache
      ensures serviceCache == None
    {
      serviceCache := None;
    }
  }

  /** Setting the toggle, clearing both memos and resolving gives the mock (when
      its module imports); clearing both again, unsetting the toggle and
      resolving gives the production service. */
  method ToggleRoundTrip(mockModuleAvailable: bool)
    returns (withToggle: Result<GreetingProvider, DependencyError>, withoutToggle: Result<GreetingProvider, DependencyError>)
    ensures mockModuleAvailable ==> withToggle == Success(MockGreetingService)
    ensures !mockModuleAvailable ==> withToggle.Failure?
    ensures withoutToggle == Success(GreetingService)
  {
    var deps := new DependencyCache(DefaultApiSettings, mockModuleAvailable);
    deps.SetEnvironment(DefaultApiSettings.(useMockGreeting := true));
    deps.ClearServiceCache();
    deps.ClearSettingsCache();
    withToggle := deps.GetGreetingService();
    deps.ClearServiceCache();
    deps.ClearSettingsCache();
    deps.SetEnvironment(DefaultApiSettings);
    withoutToggle := deps.GetGreetingService();
  }

  /** Once resolved, the service and the settings stay as they were when the
      toggle changes and no memo is cleared. */
  method MemoOutlivesToggle(mockModuleAvailable: bool)
    returns (first: Result<GreetingProvider, DependencyError>, second: Result<GreetingProvider, DependencyError>, settings: ApiSettings)
    ensures first == second == Success(GreetingService)
    ensures settings == DefaultApiSettings
  {
    var deps := new DependencyCache(DefaultApiSettings, mockModuleAvailable);
    first := deps.GetGreetingService();
    deps.SetEnvironment(DefaultApiSettings.(useMockGreeting := true));
    second := deps.GetGreetingService();
    settings := deps.GetApiSettings();
  }

  /** Clearing only the service memo re-resolves from the stale settings memo,
      so a toggle switched on in the environment is not seen. */
  method StaleSettingsScenario(mockModuleAvailable: bool)
    returns (r: Result<GreetingProvider, DependencyError>)
    ensures r == Success(GreetingService)
  {
    var deps := new DependencyCache(DefaultApiSettings, mockModuleAvailable);
    var _ := deps.GetGreetingService();
    deps.SetEnvironment(DefaultApiSettings.(useMockGreeting := true));
    deps.ClearServiceCache();
    r := deps.GetGreetingService();
  }

  /** A failed resolution is not memoised: after the toggle is switched off and
      only the settings memo is cleared, the next call resolves afresh. */
  method FailureNotMemoised()
    returns (first: Result<GreetingProvider, DependencyError>, second: Result<GreetingProvider, DependencyError>)
    ensures first == Failure(MockServiceNotFound(MockNotFoundMessage))
    ensures second == Success(GreetingService)
  {
    var deps := new DependencyCache(DefaultApiSettings.(useMockGreeting := true), false);
    first := deps.GetGreetingService();
    deps.SetEnvironment(DefaultApiSettings);
    deps.ClearSettingsCache();
    second := deps.GetGreetingService();
  }
}
