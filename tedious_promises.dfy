/**
  The session facade: it remembers where connections come from (a pool, a
  single-connection configuration or a mock-data callback), a default column
  renamer and a promise library, and hands out a new unit of work for every
  query or transaction it starts.
 */
module TediousPromises {
  import opened Host
  import PromiseUtil
  import opened TediousPromise

  /** The message of the "configure first" guard on `sql` and `beginTransaction`. */
  const ConfigureFirst: string :=
    "Must set the Connection " + "Pool" + ", Connection " + "Config" + ", or Mock Callback first."

  /** The message of the same guard on `commitTransaction`, `saveTransaction`
      and `rollbackTransaction`, misspelt as it is written. */
  const ConfigureFirstMisspelt: string :=
    "Must set the Ponnection " + "Pool" + ", Connection " + "Config" + ", or Mock Callback first."

  /** `t` occurs in `s` at some position. */
  predicate Contains(s: string, t: string)
  {
    exists i :: 0 <= i <= |s| && t <= s[i..]
  }

  lemma ContainsAtEnd(s: string, t: string)
    ensures Contains(s + t, t)
  {
    assert (s + t)[|s|..] == t;
  }

  lemma ContainsExtended(s: string, t: string, u: string)
    requires Contains(s, t)
    ensures Contains(s + u, t)
  {
    var i :| 0 <= i <= |s| && t <= s[i..];
    assert (s + u)[i..] == s[i..] + u;
  }

  /** A message of the guard's shape mentions the pool and the configuration. */
  lemma GuardMessageNamesConfigAndPool(head: string)
    ensures var m := head + "Pool" + ", Connection " + "Config" + ", or Mock Callback first.";
      Contains(m, "Pool") && Contains(m, "Config")
  {
    var pool := head + "Pool";
    ContainsAtEnd(head, "Pool");
    ContainsExtended(pool, "Pool", ", Connection ");
    ContainsExtended(pool + ", Connection ", "Pool", "Config");
    ContainsExtended(pool + ", Connection " + "Config", "Pool", ", or Mock Callback first.");
    ContainsAtEnd(pool + ", Connection ", "Config");
    ContainsExtended(pool + ", Connection " + "Config", "Config", ", or Mock Callback first.");
  }

  /** Both forms of the guard's message mention the configuration and the pool. */
  lemma GuardMessagesNameConfigAndPool()
    ensures Contains(ConfigureFirst, "Config") && Contains(ConfigureFirst, "Pool")
    ensures Contains(ConfigureFirstMisspelt, "Config") && Contains(ConfigureFirstMisspelt, "Pool")
  {
    GuardMessageNamesConfigAndPool("Must set the Connection ");
    GuardMessageNamesConfigAndPool("Must set the Ponnection ");
  }

  /** The settings a new unit of work starts with: those of any new unit,
      with the session's renamer and promise library when it has them. */
  function UnitSettings(renamer: Option<Renamer>, library: Option<PromiseUtil.Library>): (s: Settings)
    ensures s.sql.None? && s.connection.None? && !s.transaction && s.lastColumn == null
    ensures s.renamer == renamer
    ensures s.promiseLibrary == (if library.Some? then library.value else PromiseUtil.Q)
  {
    NewSettings().(renamer := renamer,
                   promiseLibrary := if library.Some? then library.value else PromiseUtil.Q)
  }

  /** `TediousPromises`: the session. */
  class Session {
    var mode: Option<string>
    var option: Option<ConnectionOption>
    var renameFunction: Option<Renamer>
    var promiseLibrary: Option<PromiseUtil.Library>

    /** The guard's test: both a mode and an option are set. */
    predicate Configured()
      reads this
    {
      mode.Some? && option.Some?
    }

    /** Mode and option are set together, and always to a pair the unit's
        constructor accepts. */
    ghost predicate Valid()
      reads this
    {
      (mode.Some? <==> option.Some?) &&
      (mode.Some? ==> SourceOf(mode.value, option.value).Ok?)
    }

    constructor ()
      ensures mode == None && option == None && renameFunction == None && promiseLibrary == None
      ensures Valid() && !Configured()
    {
      mode := None;
      option := None;
      renameFunction := None;
      promiseLibrary := None;
    }

    /** `setConnectionPool(pool)`: needs an object with an `acquire`
        function; switches to pool mode whatever was set before. */
    method SetConnectionPool(pool: ConnectionOption) returns (r: Result<Session>)
      requires Valid()
      modifies this
      ensures Valid()
      ensures r.Ok? <==> pool.PlainObject? && pool.acquireIsFunction
      ensures r.Err? ==> r.error == ConnectionPoolRequired && unchanged(this)
      ensures r.Ok? ==> (r.value == this && mode == Some("pool") && option == Some(pool) &&
        renameFunction == old(renameFunction) && promiseLibrary == old(promiseLibrary))
    {
      if !(pool.PlainObject? && pool.acquireIsFunction) {
        return Err(ConnectionPoolRequired);
      }
      mode := Some("pool");
      option := Some(pool);
      r := Ok(this);
    }

    /** `setConnectionConfig(config)`: needs an object whose `userName` is a
        string; switches to single-connection mode whatever was set before. */
    method SetConnectionConfig(config: ConnectionOption) returns (r: Result<Session>)
      requires Valid()
      modifies this
      ensures Valid()
      ensures r.Ok? <==> config.PlainObject? && config.userNameIsString
      ensures r.Err? ==> r.error == ConnectionConfigRequired && unchanged(this)
      ensures r.Ok? ==> (r.value == this && mode == Some("single") && option == Some(config) &&
        renameFunction == old(renameFunction) && promiseLibrary == old(promiseLibrary))
    {
      if !(config.PlainObject? && config.userNameIsString) {
        return Err(ConnectionConfigRequired);
      }
      mode := Some("single");
      option := Some(config);
      r := Ok(this);
    }

    /** `setPromiseLibrary(libraryOrName)`: keeps the library only when the
        lookup or validation succeeds. */
    method SetPromiseLibrary(arg: PromiseUtil.LibraryArg) returns (r: Result<()>)
      requires Valid()
      modifies this
      ensures Valid()
      ensures var lib := PromiseUtil.GetOrValidateLibrary(arg);
        (lib.Ok? ==> r == Ok(()) && promiseLibrary == Some(lib.value)) &&
        (lib.Err? ==> r == Err(lib.error) && promiseLibrary == old(promiseLibrary))
      ensures mode == old(mode) && option == old(option) && renameFunction == old(renameFunction)
    {
      var lib := PromiseUtil.GetOrValidateLibrary(arg);
      if lib.Err? {
        return Err(lib.error);
      }
      promiseLibrary := Some(lib.value);
      r := Ok(());
    }

    /** `setMockDataCallback(callback)`: needs a function; switches to mock
        mode whatever was set before. */
    method SetMockDataCallback(callback: Callable<MockCallback>) returns (r: Result<Session>)
      requires Valid()
      modifies this
      ensures Valid()
      ensures r.Ok? <==> callback.Function?
      ensures r.Err? ==> r.error == ArgumentNotFunction && unchanged(this)
      ensures r.Ok? ==> (r.value == this && mode == Some("mock") && option == Some(Callback(callback.fn)) &&
        renameFunction == old(renameFunction) && promiseLibrary == old(promiseLibrary))
    {
      if !callback.Function? {
        return Err(ArgumentNotFunction);
      }
      mode := Some("mock");
      option := Some(Callback(callback.fn));
      r := Ok(this);
    }

    /** `setDefaultColumnRenamer(renameFunction)`: needs a function. */
    method SetDefaultColumnRenamer(renamer: Callable<Renamer>) returns (r: Result<Session>)
      requires Valid()
      modifies this
      ensures Valid()
      ensures r.Ok? <==> renamer.Function?
      ensures r.Err? ==> r.error == ArgumentNotFunction && unchanged(this)
      ensures r.Ok? ==> (r.value == this && renameFunction == Some(renamer.fn) &&
        mode == old(mode) && option == old(option) && promiseLibrary == old(promiseLibrary))
    {
      if !renamer.Function? {
        return Err(ArgumentNotFunction);
      }
      renameFunction := Some(renamer.fn);
      r := Ok(this);
    }

    /** `_createTediousPromise()`: a new unit for the current mode and
        option, carrying the session's renamer and library. */
    method CreateUnit() returns (r: Result<QueryBuilder>)
      requires Configured()
      ensures r.Ok? <==> SourceOf(mode.value, option.value).Ok?
      ensures r.Err? ==> r.error == InvalidModeArguments
      ensures r.Ok? ==> (fresh(r.value) && r.value.Valid() && r.value.columns == map[] &&
        r.value.source == SourceOf(mode.value, option.value).value &&
        r.value.State() == UnitSettings(renameFunction, promiseLibrary))
    {
      r := QueryBuilder.New(mode.value, option.value);
      if r.Err? {
        return;
      }
      var unit := r.value;
      if renameFunction.Some? {
        unit.defaultColumnRenamer := renameFunction;
      }
      if promiseLibrary.Some? {
        unit.promiseLibrary := promiseLibrary.value;
      }
    }

    /** `sql(sql)`: refuses an unconfigured session; otherwise a new unit
        with the SQL set, or the error the unit's `sql` throws. */
    method Sql(v: Value) returns (r: Result<QueryBuilder>)
      requires Valid()
      ensures !Configured() ==> r == Err(NotConfigured(ConfigureFirst))
      ensures Configured() ==> (r.Ok? <==> v.Str?)
      ensures Configured() && !v.Str? ==> r == Err(SqlNotString(TypeOf(v)))
      ensures r.Ok? ==> (fresh(r.value) && r.value.Valid() && r.value.columns == map[] &&
        r.value.source == SourceOf(mode.value, option.value).value &&
        r.value.State() == UnitSettings(renameFunction, promiseLibrary).(sql := Some(v.s)))
    {
      if !Configured() {
        return Err(NotConfigured(ConfigureFirst));
      }
      var unit := CreateUnit();
      assert unit.Ok?;
      r := unit.value.Sql(v);
    }

    /** `beginTransaction()`: refuses an unconfigured session; otherwise
        begins a transaction on a new unit. Opening the connection can fail
        in pool and single modes; then the driver's `beginTransaction` can
        fail, except in mock mode, where it always succeeds. A unit that
        resolves is in a transaction, holds its connection and otherwise
        carries the session's settings. */
    method BeginTransaction(opening: Opening, beginErr: Option<Error>) returns (r: Result<Settlement<QueryBuilder>>)
      requires Valid()
      modifies if opening.conn.Some? then {opening.conn.value} else {}
      ensures !Configured() ==> r == Err(NotConfigured(ConfigureFirst))
      ensures Configured() ==> r.Ok?
      ensures Configured() ==> (
        var source := SourceOf(mode.value, option.value).value;
        var err := if OpenError(source, opening).Some? then OpenError(source, opening)
                   else if source.MockSource? then None else beginErr;
        (err.Some? ==> r.value == Rejected(err.value)) &&
        (err.None? ==> r.value.Resolved?))
      ensures r.Ok? && r.value.Resolved? ==> (
        var unit := r.value.value;
        fresh(unit) && unit.Valid() && unit.columns == map[] &&
        unit.source == SourceOf(mode.value, option.value).value &&
        unit.State().connection.Some? &&
        unit.State() == UnitSettings(renameFunction, promiseLibrary).(transaction := true, connection := unit.State().connection))
    {
      if !Configured() {
        return Err(NotConfigured(ConfigureFirst));
      }
      var unit := CreateUnit();
      assert unit.Ok?;
      var outcome := unit.value.BeginTransaction(opening, beginErr);
      r := Ok(outcome);
    }

    /** `commitTransaction()`: refuses an unconfigured session; otherwise
        the new unit holds no connection, so the call fails with a TypeError. */
    method CommitTransaction() returns (r: Result<Settlement<()>>)
      requires Valid()
      ensures !Configured() ==> r == Err(NotConfigured(ConfigureFirstMisspelt))
      ensures Configured() ==> r == Err(TypeError)
    {
      if !Configured() {
        return Err(NotConfigured(ConfigureFirstMisspelt));
      }
      var unit := CreateUnit();
      assert unit.Ok?;
      r := unit.value.CommitTransaction(None);
    }

    /** `saveTransaction()`: as `commitTransaction()`. */
    method SaveTransaction() returns (r: Result<Settlement<()>>)
      requires Valid()
      ensures !Configured() ==> r == Err(NotConfigured(ConfigureFirstMisspelt))
      ensures Configured() ==> r == Err(TypeError)
    {
      if !Configured() {
        return Err(NotConfigured(ConfigureFirstMisspelt));
      }
      var unit := CreateUnit();
      assert unit.Ok?;
      r := unit.value.SaveTransaction(None);
    }

    /** `rollbackTransaction()`: as `commitTransaction()`. */
    method RollbackTransaction() returns (r: Result<Settlement<()>>)
      requires Valid()
      ensures !Configured() ==> r == Err(NotConfigured(ConfigureFirstMisspelt))
      ensures Configured() ==> r == Err(TypeError)
    {
      if !Configured() {
        return Err(NotConfigured(ConfigureFirstMisspelt));
      }
      var unit := CreateUnit();
      assert unit.Ok?;
      r := unit.value.RollbackTransaction(None);
    }
  }
}
