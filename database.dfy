/** The lazily built engine and session factory of `db/database.py`, and the
    identical copy in `db/session.py`. Each Python module keeps its own pair
    of globals `_engine` and `_SessionLocal`; here each module is one
    `LazySessionFactory` object whose fields are those globals. Engines,
    session factories and sessions are objects of the database library and
    are modelled by what the code relies on: their identity, the URL an engine
    was built from, the engine a factory is bound to, and whether a session
    has been closed. */
module Database {
  import opened Wrappers
  import opened DbSettings

  /** The result of `create_engine(url, ...)`. */
  class Engine {
    const url: string
    constructor (url: string)
      ensures this.url == url
    {
      this.url := url;
    }
  }

  /** The result of `sessionmaker(..., bind=engine)`. */
  class SessionFactory {
    const engine: Engine
    constructor (engine: Engine)
      ensures this.engine == engine
    {
      this.engine := engine;
    }
  }

  /** A session produced by a factory, with a count of its `close()` calls. */
  class Session {
    const factory: SessionFactory
    var closeCount: nat

    constructor (factory: SessionFactory)
      ensures this.factory == factory && closeCount == 0
    {
      this.factory := factory;
      closeCount := 0;
    }

    method Close()
      modifies this
      ensures closeCount == old(closeCount) + 1
    {
      closeCount := closeCount + 1;
    }
  }

  /** How a call into this module ends: normally, or with an exception. */
  datatype Outcome = Done | Raised(error: DbError)

  datatype DbError =
    | EngineCreationFailed(url: string)   // `create_engine` raised
    | ConsumerFailed                      // the code using the yielded session raised

  class LazySessionFactory {
    /** `db_settings`, fixed when the settings module is imported. */
    const settings: DBSettings
    /** `_engine`. */
    var engine: Option<Engine>
    /** `_SessionLocal`. */
    var factory: Option<SessionFactory>
    /** How many engines this module has built. */
    ghost var constructions: nat

    /** Either nothing is built, or exactly one engine, built from the settings'
        URL, with the factory bound to it. */
    ghost predicate Valid()
      reads this
    {
      && (engine.None? <==> factory.None?)
      && (engine.Some? ==> engine.value.url == DatabaseUrl(settings) && factory.value.engine == engine.value)
      && constructions == (if engine.Some? then 1 else 0)
    }

    /** The module as imported: both globals `None`. */
    constructor (settings: DBSettings)
      ensures Valid()
      ensures this.settings == settings && engine.None? && factory.None? && constructions == 0
    {
      this.settings := settings;
      engine := None;
      factory := None;
      constructions := 0;
    }

    /** `_initialize_factory`. If no engine exists, build one from the settings'
        URL and a factory bound to it; otherwise change nothing. A failing
        `create_engine` (`createEngineFails`) raises and leaves `_engine` unset,
        so the next call tries again. */
    method InitializeFactory(createEngineFails: bool) returns (r: Outcome)
      requires Valid()
      modifies this
      ensures Valid() && old(constructions) <= constructions
      ensures old(engine).Some? ==>
        r == Done && engine == old(engine) && factory == old(factory) && constructions == old(constructions)
      ensures old(engine).None? && createEngineFails ==>
        r == Raised(EngineCreationFailed(DatabaseUrl(settings))) && engine.None? && factory.None?
      ensures old(engine).None? && !createEngineFails ==>
        r == Done && engine.Some? && fresh(engine.value) && fresh(factory.value) && constructions == 1
      ensures r.Done? ==> engine.Some? && factory.Some?
    {
      if engine.None? {
        var url := DatabaseUrl(settings);
        if createEngineFails {
          return Raised(EngineCreationFailed(url));
        }
        var e := new Engine(url);
        engine := Some(e);
        constructions := constructions + 1;
        var f := new SessionFactory(e);
        factory := Some(f);
      }
      r := Done;
    }

    /** `create_db_session`: initialise if needed, then a new session from the
        one shared factory. */
    method CreateDbSession(createEngineFails: bool) returns (r: Result<Session, DbError>)
      requires Valid()
      modifies this
      ensures Valid() && old(constructions) <= constructions
      ensures old(engine).Some? ==> engine == old(engine) && factory == old(factory) && constructions == old(constructions)
      ensures r.Failure? <==> old(engine).None? && createEngineFails
      ensures r.Failure? ==> r.error == EngineCreationFailed(DatabaseUrl(settings)) && engine.None?
      ensures r.Success? ==>
        fresh(r.value) && r.value.closeCount == 0 && factory == Some(r.value.factory)
        && r.value.factory.engine.url == DatabaseUrl(settings)
    {
      var init := InitializeFactory(createEngineFails);
      if init.Raised? {
        return Failure(init.error);
      }
      assert factory.Some?;
      var s := new Session(factory.value);
      r := Success(s);
    }

    /** `get_db`: create a session, hand it to the code that uses it, and close
        it in the `finally` clause, whether that code returns (`consumerRaises`
        false) or raises. When the session cannot be created nothing is
        yielded and nothing is closed. */
    method GetDb(createEngineFails: bool, consumerRaises: bool) returns (yielded: Option<Session>, r: Outcome)
      requires Valid()
      modifies this
      ensures Valid() && old(constructions) <= constructions
      ensures old(engine).Some? ==> engine == old(engine) && factory == old(factory) && constructions == old(constructions)
      ensures yielded.None? <==> old(engine).None? && createEngineFails
      ensures yielded.None? ==> r == Raised(EngineCreationFailed(DatabaseUrl(settings))) && engine.None?
      ensures yielded.Some? ==>
        fresh(yielded.value) && yielded.value.closeCount == 1 && factory == Some(yielded.value.factory)
        && r == (if consumerRaises then Raised(ConsumerFailed) else Done)
    {
      var created := CreateDbSession(createEngineFails);
      if created.Failure? {
        return None, Raised(created.error);
      }
      var session := created.value;
      yielded := Some(session);
      // try: yield session
      r := if consumerRaises then Raised(ConsumerFailed) else Done;
      // finally: session.close()
      session.Close();
    }

    /** `get_engine`: initialise if needed, then the one shared engine. */
    method GetEngine(createEngineFails: bool) returns (r: Result<Engine, DbError>)
      requires Valid()
      modifies this
      ensures Valid() && old(constructions) <= constructions
      ensures old(engine).Some? ==> r == Success(old(engine).value) && engine == old(engine) && factory == old(factory)
      ensures r.Failure? <==> old(engine).None? && createEngineFails
      ensures r.Failure? ==> r.error == EngineCreationFailed(DatabaseUrl(settings)) && engine.None?
      ensures r.Success? ==> engine == Some(r.value) && r.value.url == DatabaseUrl(settings)
      ensures old(engine).None? && r.Success? ==> fresh(r.value)
    {
      var init := InitializeFactory(createEngineFails);
      if init.Raised? {
        return Failure(init.error);
      }
      assert engine.Some?;
      r := Success(engine.value);
    }
  }

  /** A call into the module from outside, with the outcome of the database
      library's `create_engine` should the call need to build the engine. */
  datatype Call =
    | CreateDbSessionCall(createEngineFails: bool)
    | GetDbCall(createEngineFails: bool, consumerRaises: bool)
    | GetEngineCall(createEngineFails: bool)

  /** What a call gave back to its caller. */
  datatype CallResult =
    | SessionCreated(session: Result<Session, DbError>)
    | SessionYielded(yielded: Option<Session>, outcome: Outcome)
    | EngineReturned(engine: Result<Engine, DbError>)

  /** `r` is the result of a call of the kind `c`; it is a failure only when
      that call's engine construction raised, and a `get_db` call re-raises
      exactly its consumer's error. */
  predicate Answers(c: Call, r: CallResult) {
    match c
    case CreateDbSessionCall(fails) => r.SessionCreated? && (r.session.Failure? ==> fails)
    case GetDbCall(fails, raises) =>
      && r.SessionYielded?
      && (r.yielded.None? ==> fails && r.outcome.Raised? && r.outcome.error.EngineCreationFailed?)
      && (r.yielded.Some? ==> r.outcome == (if raises then Raised(ConsumerFailed) else Done))
    case GetEngineCall(fails) => r.EngineReturned? && (r.engine.Failure? ==> fails)
  }

  /** Every engine in `r` is `engine`, and every session in `r` comes from `factory`. */
  predicate FromShared(r: CallResult, engine: Option<Engine>, factory: Option<SessionFactory>) {
    match r
    case SessionCreated(s) => s.Success? ==> factory == Some(s.value.factory)
    case SessionYielded(y, _) => y.Some? ==> factory == Some(y.value.factory)
    case EngineReturned(e) => e.Success? ==> engine == Some(e.value)
  }

  /** `r` reports a raised error instead of an engine or a session. */
  predicate Failed(r: CallResult) {
    match r
    case SessionCreated(s) => s.Failure?
    case SessionYielded(y, _) => y.None?
    case EngineReturned(e) => e.Failure?
  }

  /** Every one of the first `n` calls would see `create_engine` raise. */
  predicate AllConstructionsFail(calls: seq<Call>, n: nat)
    requires n <= |calls|
  {
    forall k :: 0 <= k < n ==> calls[k].createEngineFails
  }

  /** `r` answers `c`, fails exactly when `failed` says it should, and holds
      only the given engine and sessions of the given factory. */
  predicate Reports(c: Call, r: CallResult, failed: bool, engine: Option<Engine>, factory: Option<SessionFactory>) {
    Answers(c, r) && (Failed(r) <==> failed) && FromShared(r, engine, factory)
  }

  /** Each of `results` reports its call: the `j`th fails exactly when no engine
      existed before the sequence (`unbuilt`) and calls `0` to `j` all saw
      `create_engine` raise. */
  predicate AllReport(calls: seq<Call>, results: seq<CallResult>, unbuilt: bool,
                      engine: Option<Engine>, factory: Option<SessionFactory>)
    requires |results| <= |calls|
  {
    forall j :: 0 <= j < |results| ==>
      Reports(calls[j], results[j], unbuilt && AllConstructionsFail(calls, j + 1), engine, factory)
  }

  /** The sessions `r` holds. */
  function SessionsOf(r: CallResult): set<Session> {
    match r
    case SessionCreated(s) => if s.Success? then {s.value} else {}
    case SessionYielded(y, _) => if y.Some? then {y.value} else {}
    case EngineReturned(_) => {}
  }

  function AllSessions(results: seq<CallResult>): set<Session> {
    if results == [] then {} else AllSessions(results[..|results| - 1]) + SessionsOf(results[|results| - 1])
  }

  /** A session `get_db` yielded was closed once; one `create_db_session`
      returned is still open. */
  ghost predicate ClosedAsPromised(r: CallResult)
    reads SessionsOf(r)
  {
    && (r.SessionYielded? && r.yielded.Some? ==> r.yielded.value.closeCount == 1)
    && (r.SessionCreated? && r.session.Success? ==> r.session.value.closeCount == 0)
  }

  ghost predicate AllClosedAsPromised(results: seq<CallResult>)
    reads AllSessions(results)
  {
    forall j :: 0 <= j < |results| ==> SessionsOf(results[j]) <= AllSessions(results) && ClosedAsPromised(results[j])
  }

  lemma {:induction false} SessionsWithin(results: seq<CallResult>, j: nat)
    requires j < |results|
    ensures SessionsOf(results[j]) <= AllSessions(results)
    decreases |results|
  {
    if j < |results| - 1 {
      SessionsWithin(results[..|results| - 1], j);
    }
  }

  /** Appending a result whose sessions were closed as promised keeps the
      promise for the whole sequence. */
  lemma ExtendClosed(results: seq<CallResult>, r: CallResult)
    requires AllClosedAsPromised(results) && ClosedAsPromised(r)
    ensures AllClosedAsPromised(results + [r])
  {
    var extended := results + [r];
    assert extended[..|results|] == results;
    forall j | 0 <= j < |extended|
      ensures SessionsOf(extended[j]) <= AllSessions(extended) && ClosedAsPromised(extended[j])
    {
      SessionsWithin(extended, j);
    }
  }

  /** A report stays true when the engine it was checked against is kept, or
      when it reports a failure and so holds no engine or session. */
  lemma ReportsKept(c: Call, r: CallResult, failed: bool,
                    engine: Option<Engine>, factory: Option<SessionFactory>,
                    engine': Option<Engine>, factory': Option<SessionFactory>)
    requires Reports(c, r, failed, engine, factory)
    requires engine.Some? ==> engine' == engine && factory' == factory
    requires engine.None? ==> failed
    ensures Reports(c, r, failed, engine', factory')
  {
  }

  /** Appending the result of the next call keeps every earlier report true
      against the engine held after that call. */
  lemma ExtendReports(calls: seq<Call>, results: seq<CallResult>, r: CallResult, unbuilt: bool,
                      engine: Option<Engine>, factory: Option<SessionFactory>,
                      engine': Option<Engine>, factory': Option<SessionFactory>)
    requires |results| < |calls|
    requires AllReport(calls, results, unbuilt, engine, factory)
    requires engine.None? <==> unbuilt && AllConstructionsFail(calls, |results|)
    requires engine.Some? ==> engine' == engine && factory' == factory
    requires Reports(calls[|results|], r, engine.None? && calls[|results|].createEngineFails, engine', factory')
    ensures AllReport(calls, results + [r], unbuilt, engine', factory')
  {
    var i := |results|;
    var extended := results + [r];
    forall j | 0 <= j < |extended|
      ensures Reports(calls[j], extended[j], unbuilt && AllConstructionsFail(calls, j + 1), engine', factory')
    {
      if j < i {
        ReportsKept(calls[j], results[j], unbuilt && AllConstructionsFail(calls, j + 1),
                    engine, factory, engine', factory');
      } else {
        assert AllConstructionsFail(calls, i + 1) <==> AllConstructionsFail(calls, i) && calls[i].createEngineFails;
      }
    }
  }

  /** One call into the module, with what it gave back. */
  method Step(db: LazySessionFactory, c: Call) returns (r: CallResult)
    requires db.Valid()
    modifies db
    ensures db.Valid() && old(db.constructions) <= db.constructions
    ensures old(db.engine).Some? ==> db.engine == old(db.engine) && db.factory == old(db.factory)
    ensures db.engine.None? <==> old(db.engine).None? && c.createEngineFails
    ensures Reports(c, r, old(db.engine).None? && c.createEngineFails, db.engine, db.factory)
    ensures ClosedAsPromised(r)
  {
    match c {
      case CreateDbSessionCall(fails) =>
        var s := db.CreateDbSession(fails);
        r := SessionCreated(s);
      case GetDbCall(fails, raises) =>
        var y, o := db.GetDb(fails, raises);
        r := SessionYielded(y, o);
      case GetEngineCall(fails) =>
        var e := db.GetEngine(fails);
        r := EngineReturned(e);
    }
  }

  /** Over any sequence of calls the module builds at most one engine and keeps
      the first one it builds: every engine returned is the one held at the
      end, and every session comes from the factory bound to it. A call fails
      exactly when no engine was built before it and its own construction
      raised, so once built the engine is never rebuilt or lost. Sessions that
      `get_db` yields are closed exactly once; sessions `create_db_session`
      returns are left to their callers, unclosed. */
  method RunCalls(db: LazySessionFactory, calls: seq<Call>) returns (results: seq<CallResult>)
    requires db.Valid()
    modifies db
    ensures db.Valid() && db.constructions <= 1 && old(db.constructions) <= db.constructions
    ensures old(db.engine).Some? ==> db.engine == old(db.engine) && db.factory == old(db.factory)
    ensures db.engine.None? <==> old(db.engine).None? && AllConstructionsFail(calls, |calls|)
    ensures |results| == |calls|
    ensures forall j :: 0 <= j < |calls| ==>
      Reports(calls[j], results[j], old(db.engine).None? && AllConstructionsFail(calls, j + 1), db.engine, db.factory)
    ensures forall j :: 0 <= j < |results| ==> ClosedAsPromised(results[j])
  {
    results := [];
    var i := 0;
    while i < |calls|
      invariant 0 <= i <= |calls| && |results| == i
      invariant db.Valid() && old(db.constructions) <= db.constructions
      invariant old(db.engine).Some? ==> db.engine == old(db.engine) && db.factory == old(db.factory)
      invariant db.engine.None? <==> old(db.engine).None? && AllConstructionsFail(calls, i)
      invariant AllReport(calls, results, old(db.engine).None?, db.engine, db.factory)
      invariant AllClosedAsPromised(results)
    {
      ghost var engine, factory := db.engine, db.factory;
      var r := Step(db, calls[i]);
      ExtendReports(calls, results, r, old(db.engine).None?, engine, factory, db.engine, db.factory);
      ExtendClosed(results, r);
      assert AllConstructionsFail(calls, i + 1) <==> AllConstructionsFail(calls, i) && calls[i].createEngineFails;
      results := results + [r];
      i := i + 1;
    }
  }

  /** Two calls to `get_engine`, with any `get_db` and `create_db_session` calls
      between them, return one and the same engine, and the sessions come from
      the one factory bound to it. */
  method SameEngineThroughout(settings: DBSettings, consumerRaises: bool)
    returns (first: Result<Engine, DbError>, second: Result<Engine, DbError>,
             yielded: Option<Session>, session: Result<Session, DbError>)
    ensures first.Success? && second.Success? && first.value == second.value
    ensures first.value.url == DatabaseUrl(settings)
    ensures yielded.Some? && yielded.value.factory.engine == first.value && yielded.value.closeCount == 1
    ensures session.Success? && session.value.factory.engine == first.value
  {
    var db := new LazySessionFactory(settings);
    first := db.GetEngine(false);
    var outcome;
    yielded, outcome := db.GetDb(false, consumerRaises);
    session := db.CreateDbSession(false);
    second := db.GetEngine(false);
  }

  /** An engine construction that fails leaves the module uninitialised, and
      the next call builds the engine. */
  method RetryAfterFailedConstruction(settings: DBSettings)
    returns (failed: Result<Engine, DbError>, retried: Result<Engine, DbError>)
    ensures failed == Failure(EngineCreationFailed(DatabaseUrl(settings)))
    ensures retried.Success? && retried.value.url == DatabaseUrl(settings)
  {
    var db := new LazySessionFactory(settings);
    failed := db.GetEngine(true);
    retried := db.GetEngine(false);
  }

  /** `db/database.py` and `db/session.py` each declare their own globals:
      initialising one module's engine leaves the other's unset, and once both
      are built they are distinct engines for the same URL. */
  method IndependentModules(settings: DBSettings)
    returns (sessionModuleBuiltEarly: bool, databaseEngine: Result<Engine, DbError>, sessionEngine: Result<Engine, DbError>)
    ensures !sessionModuleBuiltEarly
    ensures databaseEngine.Success? && sessionEngine.Success?
    ensures databaseEngine.value != sessionEngine.value
    ensures databaseEngine.value.url == sessionEngine.value.url
  {
    var databaseModule := new LazySessionFactory(settings);
    var sessionModule := new LazySessionFactory(settings);
    databaseEngine := databaseModule.GetEngine(false);
    sessionModuleBuiltEarly := sessionModule.engine.Some?;
    sessionEngine := sessionModule.GetEngine(false);
  }
}
