# fapi-db-tmpl in Dafny

A model of the logic inside the fapi-db-tmpl web template (Python, FastAPI and
SQLAlchemy): the two greeting services, the memoised dependency providers that
choose between them, the PostgreSQL `DATABASE_URL` built from the database
settings, and the lazily built engine and session factory of the database
modules.

| file | module | models |
|---|---|---|
| `wrappers.dfy` | `Wrappers` | `Option` (Python `None`) and `Result` (a raised exception) |
| `greeting.dfy` | `Greeting` | `GreetingService` and `MockGreetingService` as the two constructors of `GreetingProvider`, and their `generate_greeting` |
| `decimal.dfy` | `Decimal` | how an f-string renders the `int` port, with a reader that inverts it |
| `db_settings.dfy` | `DbSettings` | `DBSettings`, its defaults and `DATABASE_URL`, with a URL reader that inverts it |
| `dependencies.dfy` | `Dependencies` | `get_api_settings` and `get_greeting_service` with their `lru_cache` memos as the class `DependencyCache` |
| `database.dfy` | `Database` | the globals `_engine` and `_SessionLocal` and the functions over them as the class `LazySessionFactory` |

`db/database.py` and `db/session.py` contain the same four functions over
their own pair of globals. Both are modelled by the one class
`LazySessionFactory`: each Python module is one object of that class, and
`Database.IndependentModules` shows that the two objects do not share state.
The rows below for the methods of `LazySessionFactory` cite `db/database.py`;
the same methods model lines 18-54 of `db/session.py`.

The environment, the `.env` file and the settings library's parsing are not
modelled: `DependencyCache.environment` holds the `ApiSettings` that a fresh
load would produce at that moment, and a `DBSettings` value is given to the
database model when it is created. Whether the development mock module can
be imported is the flag `DependencyCache.mockModuleAvailable`. Whether the
database library's `create_engine` raises is the parameter
`createEngineFails` of each database operation, and whether the code using
a session yielded by `get_db` raises is the parameter `consumerRaises`.

When the mock is requested but its module is missing,
`get_greeting_service` raises a `RuntimeError` whose message is
`Dependencies.MockNotFoundMessage`.

## Model

| member | source | states |
|---|---|---|
| `Greeting.ProductionGreeting` | src/fapi_db_tmpl/api/v1/services/greeting_service.py:7-8 | the greeting is 7 characters longer than the name, starts with "Hello, ", and has the name, untrimmed, as the rest |
| `Greeting.MockGreeting` | dev/mocks/services/mock_greeting_service.py:9-10 | the greeting is 14 characters longer than the name, is "[mock] " then "Hello, " then the name verbatim |
| `Greeting.GenerateGreeting` | src/fapi_db_tmpl/api/v1/protocols/greeting_service_protocol.py:6-9 | calling `generate_greeting` on a resolved service runs that service's own formatter |
| `Greeting.MockIsMarkedProduction` | dev/mocks/services/mock_greeting_service.py:10 | the mock greeting is "[mock] " followed by the production greeting for the same name |
| `Greeting.GreetingInjective` | src/fapi_db_tmpl/api/v1/services/greeting_service.py:8 | for either service, equal greetings come from equal names |
| `Greeting.ServicesNeverCoincide` | dev/mocks/services/mock_greeting_service.py:10 | no production greeting equals any mock greeting; for one name the mock is exactly 7 characters longer |
| `Greeting.RootGreeting` | src/fapi_db_tmpl/main.py:23-29 | the root endpoint's fixed name "World" gives "Hello, World" from the production service and "[mock] Hello, World" from the mock |
| `Greeting.UnitTestGreetings` | tests/unit/test_greeting_service.py:5-14 | "Tester" gives "Hello, Tester" and "[mock] Hello, Tester"; the empty name, an edge case no test uses, gives "Hello, " and "[mock] Hello, " |
| `Greeting.EndToEndGreeting` | tests/e2e/test_api.py:20-24 | the mock service turns "E2E" into "[mock] Hello, E2E" |
| `Decimal.NatToDecimal` | src/fapi_db_tmpl/config/db_settings.py:52 | the port's digits: non-empty, only decimal digits, no leading zero except for 0 itself, one digit exactly below 10 |
| `Decimal.IntToDecimal` | src/fapi_db_tmpl/config/db_settings.py:52 | the rendered port starts with '-' exactly when it is negative; a non-negative port is digits with no leading zero unless it is "0"; a negative one is '-' then digits with no leading zero |
| `Decimal.NatRoundTrip` | src/fapi_db_tmpl/config/db_settings.py:52 | reading the digits of a natural number back gives that number |
| `Decimal.IntRoundTrip` | src/fapi_db_tmpl/config/db_settings.py:52 | reading the rendered port back gives the port, for every integer |
| `Decimal.NegativeRoundTrip` | src/fapi_db_tmpl/config/db_settings.py:52 | the round trip for negative ports, whose rendering starts with '-' |
| `Decimal.IntToDecimalInjective` | src/fapi_db_tmpl/config/db_settings.py:52 | distinct ports render as distinct strings |
| `DbSettings.DatabaseUrl` | src/fapi_db_tmpl/config/db_settings.py:50-52 | the URL starts with "postgresql+psycopg://" and its length is the fields' lengths plus the scheme and four separators, so nothing is escaped or dropped |
| `DbSettings.UrlRoundTrip` | src/fapi_db_tmpl/config/db_settings.py:50-52 | when the user has no ':', the password no '@' and the host no ':', the URL determines all five fields |
| `DbSettings.UrlNotEscaped` | src/fapi_db_tmpl/config/db_settings.py:52 | without escaping, user "a:b" with password "c" and user "a" with password "b:c" give the same URL |
| `DbSettings.DefaultUrl` | src/fapi_db_tmpl/config/db_settings.py:12-52 | with every field at its default the URL is "postgresql+psycopg://user:password@db:5432/fapi-db-tmpl-dev" |
| `DbSettings.DefaultPortDigits` | src/fapi_db_tmpl/config/db_settings.py:18-23 | the default port 5432 renders as "5432" |
| `Dependencies.SelectService` | src/fapi_db_tmpl/api/dependencies.py:25-38 | an error exactly when the toggle is on and the mock module is missing, with the source's hint; otherwise the mock exactly when the toggle is on and production exactly when it is off |
| `Dependencies.NoSilentDowngrade` | src/fapi_db_tmpl/api/dependencies.py:27-36 | a requested mock never resolves to the production service |
| `Dependencies.DependencyCache.constructor` | src/fapi_db_tmpl/api/dependencies.py:14-22 | at import both memos are empty; the environment and whether the mock module imports are given |
| `Dependencies.DependencyCache.GetApiSettings` | src/fapi_db_tmpl/api/dependencies.py:14-18 | a memo hit returns the memoised settings; a miss loads them from the current environment; either way they are memoised |
| `Dependencies.DependencyCache.GetGreetingService` | src/fapi_db_tmpl/api/dependencies.py:21-38 | a memo hit returns the memoised service and touches nothing; a miss selects from the (possibly memoised) settings and memoises the service only on success |
| `Dependencies.DependencyCache.ClearSettingsCache` | src/fapi_db_tmpl/api/dependencies.py:14 | `get_api_settings.cache_clear()` empties that memo and nothing else |
| `Dependencies.DependencyCache.ClearServiceCache` | src/fapi_db_tmpl/api/dependencies.py:21 | `get_greeting_service.cache_clear()` empties that memo and nothing else |
| `Dependencies.DependencyCache.SetEnvironment` | tests/unit/test_main.py:26 | a change to the environment changes what the next settings load reads and no memo |
| `Dependencies.ToggleRoundTrip` | tests/unit/test_main.py:7-32 | toggle on, clear both memos, resolve: the mock (or the error when it is missing); clear both, toggle off, resolve: production |
| `Dependencies.MemoOutlivesToggle` | src/fapi_db_tmpl/api/dependencies.py:14-22 | after a first resolution, switching the toggle on changes neither the returned service nor the returned settings |
| `Dependencies.StaleSettingsScenario` | src/fapi_db_tmpl/api/dependencies.py:21-27 | clearing only the service memo re-resolves from the stale settings memo, so the newly set toggle is not seen |
| `Dependencies.FailureNotMemoised` | src/fapi_db_tmpl/api/dependencies.py:21-36 | a failed resolution is not memoised: after the toggle is switched off and the settings memo cleared, the next call gives production |
| `Database.LazySessionFactory.constructor` | src/fapi_db_tmpl/db/database.py:11-12 | at import both globals are `None` and nothing is built |
| `Database.LazySessionFactory.InitializeFactory` | src/fapi_db_tmpl/db/database.py:16-34 | with an engine present nothing changes; otherwise a fresh engine from `DATABASE_URL` and a factory bound to it, or, when `create_engine` raises, the error with both globals still unset; afterwards at most one engine was ever built |
| `Database.LazySessionFactory.CreateDbSession` | src/fapi_db_tmpl/db/database.py:37-44 | a new, unclosed session from the one shared factory, whose engine was built from `DATABASE_URL`; fails only when no engine existed and its construction raised |
| `Database.LazySessionFactory.GetDb` | src/fapi_db_tmpl/db/database.py:47-55 | the yielded session is closed exactly once whether its user returns or raises, and that user's error is re-raised; nothing is yielded when construction fails |
| `Database.LazySessionFactory.GetEngine` | src/fapi_db_tmpl/db/database.py:64-67 | an existing engine is returned as it is; otherwise the newly built one, from `DATABASE_URL` |
| `Database.RunCalls` | src/fapi_db_tmpl/db/session.py:18-54 | over any sequence of `create_db_session`, `get_db` and `get_engine` calls: each call fails exactly when no engine existed before it, every earlier call's construction raised and its own construction raised, and a `get_db` call that yielded re-raises exactly its consumer's error; every engine returned is the one the module holds at the end and every session comes from the one factory bound to it, so an engine built partway through is kept; every session `get_db` yields is closed exactly once and every session `create_db_session` returns is left open; an engine exists at the end exactly when one did before or some construction succeeded; the module never builds more than one |
| `Database.SameEngineThroughout` | src/fapi_db_tmpl/db/database.py:37-67 | two `get_engine` calls around `get_db` and `create_db_session` return the same engine; the session `get_db` yields and the one `create_db_session` returns both come from the factory bound to it, and the yielded one is closed once |
| `Database.RetryAfterFailedConstruction` | src/fapi_db_tmpl/db/database.py:24-30 | after `create_engine` raised once, the next call builds the engine |
| `Database.IndependentModules` | src/fapi_db_tmpl/db/session.py:13-15 | initialising the engine of `db/database.py` leaves that of `db/session.py` unset, and the two end up as distinct engines for the same URL |

## Left out

- Python object identity: memoised settings and services are Dafny values, so `lru_cache` returning the identical object is modelled as returning an equal value; nothing in the core compares them with `is`.
- The `threading.Lock` around initialisation: the model is sequential and treats the locked block as one step, so the at-most-once guarantee under concurrent first access is not captured.
- Reading settings from environment variables and `.env` files, alias resolution and the parsing of strings into booleans and integers: library behaviour and I/O; parsed values are inputs.
- `create_engine`, `sessionmaker`, `pool_pre_ping`, sessions' own behaviour and `declarative_base`/`Base`: library code; engines, factories and sessions are objects that record only their URL, engine binding and number of `close()` calls.
- A `sessionmaker` call that raises after `create_engine` succeeded is not modelled: the model builds the factory whenever the engine is built.
- The FastAPI application, routes, `Depends`, `response_model` and `dependency_overrides`: framework wiring whose only logic is calling `generate_greeting`; the override map is therefore not modelled.
- `config/app_settings.py`, `config/api_settings.py` beyond the three fields and their defaults, and the eager instances in `config/__init__.py`: declarations and import-time wiring.
- Test fixtures, containers and HTTP clients.
